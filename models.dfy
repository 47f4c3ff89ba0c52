/**
 * The shared entities of the backend (backend/models.py): the Severity and
 * IncidentStatus enumerations, the stored Alert row and the per-kind entity
 * sets an incident collects from its alerts.
 */
module Models {

  datatype Option<T> = None | Some(value: T)

  /** An operation that either yields a value or raises (Python exception). */
  datatype Result<T> = Ok(value: T) | Err(message: string)

  datatype Severity = Low | Medium | High | Critical {
    /** The enum's stored value. */
    function Value(): string {
      match this
      case Low => "low"
      case Medium => "medium"
      case High => "high"
      case Critical => "critical"
    }

    /** Severity order used by both the correlator and the scorer (1 = low … 4 = critical). */
    function Rank(): nat {
      match this
      case Low => 1
      case Medium => 2
      case High => 3
      case Critical => 4
    }
  }

  datatype IncidentStatus = New | Investigating | Contained | Closed

  /**
   * A stored alert row. `id` is the table's primary key; the optional
   * columns may be NULL (None) or, in a hand-made row, the empty string.
   * Timestamps are whole seconds since the epoch (naive UTC).
   */
  datatype Alert = Alert(
    id: int,
    alertId: string,
    source: string,
    category: Option<string>,
    severity: Severity,
    title: Option<string>,
    description: Option<string>,
    entityUser: Option<string>,
    entityIp: Option<string>,
    entityDevice: Option<string>,
    entityLocation: Option<string>,
    timestamp: Option<int>)

  /** Python truthiness of an optional string column. */
  predicate Truthy(o: Option<string>) {
    o.Some? && o.value != ""
  }

  const SECONDS_PER_HOUR := 3600
  const SECONDS_PER_DAY := 86400

  /** `datetime.hour` of a timestamp. */
  function HourOf(t: int): (h: int)
    ensures 0 <= h < 24
  {
    (t % SECONDS_PER_DAY) / SECONDS_PER_HOUR
  }

  datatype EntityKind = Users | Ips | Devices | Locations

  /** The alert column that holds entities of the given kind. */
  function EntityOf(a: Alert, kind: EntityKind): Option<string> {
    match kind
    case Users => a.entityUser
    case Ips => a.entityIp
    case Devices => a.entityDevice
    case Locations => a.entityLocation
  }

  /** The `{"users", "ips", "devices", "locations"}` dictionary of sets. */
  datatype EntitySets = EntitySets(
    users: set<string>,
    ips: set<string>,
    devices: set<string>,
    locations: set<string>)
  {
    function Get(kind: EntityKind): set<string> {
      match kind
      case Users => users
      case Ips => ips
      case Devices => devices
      case Locations => locations
    }
  }
}
