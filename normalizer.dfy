/**
 * The alert normaliser (backend/normalizer.py): maps one decoded record,
 * a string-keyed tree, to the canonical alert shape, using per-source alias
 * tables, the severity table, source detection and the top-level JSON shape
 * dispatch. JSON/CSV decoding, `datetime.strptime`, the wall clock and
 * Python's `hash` are parameters (Decoders, Env).
 */
module Normalizer {
  import opened Models
  import opened Text

  /** A decoded JSON value (JSON floats are not modelled). */
  datatype Value =
    | Null
    | Bool(b: bool)
    | Num(n: int)
    | Str(s: string)
    | Arr(items: seq<Value>)
    | Obj(fields: map<string, Value>)

  /** A decoded record: a JSON object or a CSV row. */
  type Record = map<string, Value>

  /** Python truthiness of a decoded value. */
  predicate IsTruthy(v: Value) {
    match v
    case Null => false
    case Bool(b) => b
    case Num(n) => n != 0
    case Str(s) => s != ""
    case Arr(items) => items != []
    case Obj(fields) => fields != map[]
  }

  /**
   * `str(v)`. Python's repr of a non-empty list or dict is not modelled;
   * such values render as a fixed non-empty marker.
   */
  function Render(v: Value): (r: string)
    ensures IsTruthy(v) ==> r != ""
  {
    match v
    case Null => "None"
    case Bool(b) => if b then "True" else "False"
    case Num(n) => IntToString(n)
    case Str(s) => s
    case Arr(items) => if items == [] then "[]" else "[...]"
    case Obj(fields) => if fields == map[] then "{}" else "{...}"
  }

  // ---------------------------------------------------------------------
  // Tables

  /** SEVERITY_MAPPINGS: Defender names, numeric levels and risk levels. */
  const SEVERITY_MAPPINGS: map<string, Severity> := map[
    "informational" := Low,
    "low" := Low,
    "medium" := Medium,
    "high" := High,
    "critical" := Critical,
    "1" := Low,
    "2" := Medium,
    "3" := High,
    "4" := Critical,
    "none" := Low,
    "hidden" := Low,
    "elevated" := Medium,
    "significant" := High,
    "severe" := Critical
  ]

  /** The canonical fields that FIELD_MAPPINGS gives aliases for. */
  datatype Field =
    | AlertIdField | TitleField | DescriptionField | SeverityField | CategoryField
    | TimestampField | UserField | IpField | DeviceField | LocationField

  /** The three entries of FIELD_MAPPINGS. */
  datatype Mapping = DefenderMapping | AzureAdMapping | GenericMapping

  /** `FIELD_MAPPINGS.get(source_type, FIELD_MAPPINGS["generic"])`. */
  function MappingFor(sourceType: string): (m: Mapping)
    ensures m == DefenderMapping <==> sourceType == "defender"
    ensures m == AzureAdMapping <==> sourceType == "azure_ad"
  {
    if sourceType == "defender" then DefenderMapping
    else if sourceType == "azure_ad" then AzureAdMapping
    else GenericMapping
  }

  /** The alias list of one field in one mapping, in lookup order. */
  function Aliases(m: Mapping, f: Field): seq<string> {
    match m
    case DefenderMapping => (
      match f
      case AlertIdField => ["alertId", "id", "AlertId"]
      case TitleField => ["title", "alertTitle", "Title"]
      case DescriptionField => ["description", "alertDescription", "Description"]
      case SeverityField => ["severity", "alertSeverity", "Severity"]
      case CategoryField => ["category", "alertCategory", "Category"]
      case TimestampField => ["createdDateTime", "timestamp", "detectionTime", "CreatedDateTime"]
      case UserField => ["userPrincipalName", "accountName", "user", "User", "userEmail"]
      case IpField => ["ipAddress", "sourceIp", "clientIp", "IpAddress"]
      case DeviceField => ["deviceName", "machineName", "computerName", "DeviceName"]
      case LocationField => ["location", "country", "city", "Location"])
    case AzureAdMapping => (
      match f
      case AlertIdField => ["id", "correlationId"]
      case TitleField => ["riskEventType", "riskType"]
      case DescriptionField => ["additionalInfo", "riskDetail"]
      case SeverityField => ["riskLevel", "riskState"]
      case CategoryField => ["riskEventType", "detectionTimingType"]
      case TimestampField => ["activityDateTime", "detectedDateTime"]
      case UserField => ["userPrincipalName", "userDisplayName"]
      case IpField => ["ipAddress"]
      case DeviceField => ["deviceDetail.displayName", "deviceDetail.deviceId"]
      case LocationField => ["location.city", "location.countryOrRegion"])
    case GenericMapping => (
      match f
      case AlertIdField => ["id", "alert_id", "alertId", "ID"]
      case TitleField => ["title", "name", "alert_name", "Title"]
      case DescriptionField => ["description", "details", "message", "Description"]
      case SeverityField => ["severity", "priority", "risk_level", "Severity"]
      case CategoryField => ["category", "type", "alert_type", "Category"]
      case TimestampField => ["timestamp", "time", "date", "created_at", "Timestamp"]
      case UserField => ["user", "username", "user_email", "account", "User"]
      case IpField => ["ip", "ip_address", "source_ip", "client_ip", "IP"]
      case DeviceField => ["device", "machine", "hostname", "computer", "Device"]
      case LocationField => ["location", "country", "region", "Location"])
  }

  // ---------------------------------------------------------------------
  // get_nested_value

  /** One step of the dotted walk: descend into `key` if `v` is a dict holding it. */
  function Descend(v: Option<Value>, key: string): Option<Value> {
    if v.Some? && v.value.Obj? && key in v.value.fields then Some(v.value.fields[key]) else None
  }

  /** The value reached from `v` by following `keys`, or None when the walk breaks off. */
  function Lookup(v: Value, keys: seq<string>): Option<Value>
    decreases |keys|
  {
    if keys == [] then Some(v)
    else if v.Obj? && keys[0] in v.fields then Lookup(v.fields[keys[0]], keys[1..])
    else None
  }

  /** Following one more key is one more Descend step. */
  lemma {:induction false} LookupSnoc(v: Value, keys: seq<string>, key: string)
    ensures Lookup(v, keys + [key]) == Descend(Lookup(v, keys), key)
    decreases |keys|
  {
    if keys != [] {
      assert (keys + [key])[1..] == keys[1..] + [key];
      if v.Obj? && keys[0] in v.fields {
        LookupSnoc(v.fields[keys[0]], keys[1..], key);
      }
    }
  }

  /** If the walk breaks off at segment i (missing key or not a dict), the whole lookup is None. */
  lemma {:induction false} LookupBreaksOff(v: Value, keys: seq<string>, i: nat)
    requires i < |keys|
    requires Descend(Lookup(v, keys[..i]), keys[i]).None?
    ensures Lookup(v, keys) == None
    decreases i
  {
    if i == 0 {
    } else {
      assert keys[..i][0] == keys[0];
      if v.Obj? && keys[0] in v.fields {
        assert keys[..i][1..] == keys[1..][..i - 1];
        LookupBreaksOff(v.fields[keys[0]], keys[1..], i - 1);
      }
    }
  }

  /** A successful lookup passes through a dict holding each segment in turn. */
  lemma {:induction false} LookupSucceeds(v: Value, keys: seq<string>, i: nat)
    requires Lookup(v, keys).Some?
    requires i < |keys|
    ensures Lookup(v, keys[..i]).Some?
    ensures Lookup(v, keys[..i]).value.Obj? && keys[i] in Lookup(v, keys[..i]).value.fields
    decreases i
  {
    assert v.Obj? && keys[0] in v.fields;
    if i > 0 {
      assert keys[..i][0] == keys[0];
      assert keys[..i][1..] == keys[1..][..i - 1];
      LookupSucceeds(v.fields[keys[0]], keys[1..], i - 1);
    }
  }

  /** `get_nested_value(obj, key_path)` as a value. */
  function NestedValue(obj: Record, keyPath: string): Option<Value> {
    Lookup(Obj(obj), Split(keyPath, '.'))
  }

  /** A key without dots is a direct dictionary lookup. */
  lemma NestedValueUndotted(obj: Record, key: string)
    requires '.' !in key
    ensures NestedValue(obj, key) == if key in obj then Some(obj[key]) else None
  {
    SplitWithoutSeparator(key, '.');
    assert [key][0] == key && [key][1..] == [];
    if key in obj {
      assert Lookup(obj[key], []) == Some(obj[key]);
    }
  }

  /** `get_nested_value`: walks the dot-separated segments, reassigning `value`. */
  method GetNestedValue(obj: Record, keyPath: string) returns (r: Option<Value>)
    ensures r == NestedValue(obj, keyPath)
  {
    var keys := Split(keyPath, '.');
    var value := Obj(obj);
    var i := 0;
    while i < |keys|
      invariant 0 <= i <= |keys|
      invariant Lookup(Obj(obj), keys[..i]) == Some(value)
    {
      var key := keys[i];
      assert keys[..i + 1] == keys[..i] + [key];
      LookupSnoc(Obj(obj), keys[..i], key);
      if value.Obj? && key in value.fields {
        value := value.fields[key];
      } else {
        LookupBreaksOff(Obj(obj), keys, i);
        return None;
      }
      i := i + 1;
    }
    assert keys[..i] == keys;
    return Some(value);
  }

  // ---------------------------------------------------------------------
  // find_field_value

  /** Python `value is not None`: the key is present and not JSON null. */
  predicate IsPresent(o: Option<Value>) {
    o.Some? && !o.value.Null?
  }

  /**
   * `find_field_value`: the first alias whose lookup is not None decides;
   * a falsy value there gives None without trying later aliases.
   */
  function FieldValue(record: Record, aliases: seq<string>): (r: Option<string>)
    ensures r.Some? ==> r.value != ""
    decreases |aliases|
  {
    if aliases == [] then None
    else
      var value := NestedValue(record, aliases[0]);
      if IsPresent(value) then (if IsTruthy(value.value) then Some(Render(value.value)) else None)
      else FieldValue(record, aliases[1..])
  }

  /** The result is decided by the first alias whose lookup is present. */
  lemma {:induction false} FieldValueFirstPresent(record: Record, aliases: seq<string>, k: nat)
    requires k < |aliases|
    requires forall j :: 0 <= j < k ==> !IsPresent(NestedValue(record, aliases[j]))
    requires IsPresent(NestedValue(record, aliases[k]))
    ensures var v := NestedValue(record, aliases[k]).value;
            FieldValue(record, aliases) == if IsTruthy(v) then Some(Render(v)) else None
    decreases k
  {
    if k > 0 {
      assert !IsPresent(NestedValue(record, aliases[0]));
      forall j | 0 <= j < k - 1 ensures !IsPresent(NestedValue(record, aliases[1..][j])) {
        assert aliases[1..][j] == aliases[j + 1];
      }
      FieldValueFirstPresent(record, aliases[1..], k - 1);
    }
  }

  /** When no alias is present the field is None. */
  lemma {:induction false} FieldValueNonePresent(record: Record, aliases: seq<string>)
    requires forall j :: 0 <= j < |aliases| ==> !IsPresent(NestedValue(record, aliases[j]))
    ensures FieldValue(record, aliases) == None
    decreases |aliases|
  {
    if aliases != [] {
      assert !IsPresent(NestedValue(record, aliases[0]));
      forall j | 0 <= j < |aliases| - 1 ensures !IsPresent(NestedValue(record, aliases[1..][j])) {
        assert aliases[1..][j] == aliases[j + 1];
      }
      FieldValueNonePresent(record, aliases[1..]);
    }
  }

  /** `find_field_value`: a search loop with early return. */
  method FindFieldValue(record: Record, aliases: seq<string>) returns (r: Option<string>)
    ensures r == FieldValue(record, aliases)
  {
    for i := 0 to |aliases|
      invariant FieldValue(record, aliases) == FieldValue(record, aliases[i..])
    {
      assert aliases[i..][1..] == aliases[i + 1..];
      var value := GetNestedValue(record, aliases[i]);
      if IsPresent(value) {
        return if IsTruthy(value.value) then Some(Render(value.value)) else None;
      }
    }
    return None;
  }

  // ---------------------------------------------------------------------
  // normalize_severity

  /** The table key a raw severity is looked up under. */
  function SeverityKey(s: string): string {
    Strip(Lower(s))
  }

  /** `normalize_severity`: total; None, "" and unknown keys give MEDIUM. */
  function NormalizeSeverity(severityValue: Option<string>): (r: Severity)
    ensures !Truthy(severityValue) ==> r == Medium
    ensures Truthy(severityValue) && SeverityKey(severityValue.value) !in SEVERITY_MAPPINGS ==> r == Medium
  {
    if !Truthy(severityValue) then Medium
    else
      var normalized := SeverityKey(severityValue.value);
      if normalized in SEVERITY_MAPPINGS then SEVERITY_MAPPINGS[normalized] else Medium
  }

  /** The result depends on the input only through its lower-cased, stripped key. */
  lemma SeverityDependsOnKeyOnly(s: string, t: string)
    requires SeverityKey(s) == SeverityKey(t)
    ensures NormalizeSeverity(Some(s)) == NormalizeSeverity(Some(t))
  {
    if s == "" || t == "" {
      assert Strip(Lower("")) == "";
    }
  }

  /** Every severity's own stored value normalises back to it. */
  lemma SeverityRoundTrip(sev: Severity)
    ensures NormalizeSeverity(Some(sev.Value())) == sev
  {
    var v := sev.Value();
    assert Lower(v) == v;
    StripUnpadded(v);
  }

  /** Padding and case are ignored: " HIGH " is HIGH. */
  lemma SeverityPaddedUpperCase()
    ensures NormalizeSeverity(Some(" HIGH ")) == High
  {
    assert SeverityKey(" HIGH ") == "high" by {
      assert Lower(" HIGH ") == " high ";
      assert StripLeading(" high ") == "high ";
      assert StripTrailing("high ") == "high";
    }
  }

  /** Numeric levels and risk levels map too: "4" and "severe" are CRITICAL, "informational" LOW. */
  lemma SeverityTableExamples()
    ensures NormalizeSeverity(Some("4")) == Critical
    ensures NormalizeSeverity(Some("severe")) == Critical
    ensures NormalizeSeverity(Some("informational")) == Low
  {
    NormalizedKeyIsItself("4");
    NormalizedKeyIsItself("severe");
    NormalizedKeyIsItself("informational");
  }

  /** An unrecognised level is not rejected: "urgent" and a missing value are MEDIUM. */
  lemma SeverityUnknownIsMedium()
    ensures NormalizeSeverity(Some("urgent")) == Medium
    ensures NormalizeSeverity(None) == Medium
  {
    NormalizedKeyIsItself("urgent");
  }

  /** A lower-case word is its own lookup key. */
  lemma NormalizedKeyIsItself(s: string)
    requires s != [] && forall i :: 0 <= i < |s| ==> ('a' <= s[i] <= 'z') || ('0' <= s[i] <= '9')
    ensures SeverityKey(s) == s
  {
    assert Lower(s) == s;
    StripUnpadded(s);
  }

  // ---------------------------------------------------------------------
  // parse_timestamp

  /** The formats parse_timestamp tries, in order. */
  const TIMESTAMP_FORMATS: seq<string> := [
    "%Y-%m-%dT%H:%M:%S.%fZ",
    "%Y-%m-%dT%H:%M:%SZ",
    "%Y-%m-%dT%H:%M:%S",
    "%Y-%m-%d %H:%M:%S",
    "%Y-%m-%d",
    "%m/%d/%Y %H:%M:%S",
    "%m/%d/%Y"
  ]

  /**
   * What the library gives the normaliser: `hash` of a record (the auto
   * id), `datetime.strptime(text, format)` (None when it raises ValueError)
   * and the `datetime.utcnow()` fallback.
   */
  datatype Env = Env(hash: Value -> int, strptime: (string, string) -> Option<int>, now: int)

  /** The first format that parses `s`, tried in list order. */
  function FirstParse(s: string, formats: seq<string>, strptime: (string, string) -> Option<int>): Option<int>
    decreases |formats|
  {
    if formats == [] then None
    else if strptime(s, formats[0]).Some? then strptime(s, formats[0])
    else FirstParse(s, formats[1..], strptime)
  }

  /** The first format that succeeds wins. */
  lemma {:induction false} FirstParseFirstSuccess(s: string, formats: seq<string>,
                                                   strptime: (string, string) -> Option<int>, k: nat)
    requires k < |formats|
    requires forall j :: 0 <= j < k ==> strptime(s, formats[j]).None?
    requires strptime(s, formats[k]).Some?
    ensures FirstParse(s, formats, strptime) == strptime(s, formats[k])
    decreases k
  {
    if k > 0 {
      assert strptime(s, formats[0]).None?;
      forall j | 0 <= j < k - 1 ensures strptime(s, formats[1..][j]).None? {
        assert formats[1..][j] == formats[j + 1];
      }
      FirstParseFirstSuccess(s, formats[1..], strptime, k - 1);
    }
  }

  /** When no format parses, there is no parse. */
  lemma {:induction false} FirstParseAllFail(s: string, formats: seq<string>,
                                             strptime: (string, string) -> Option<int>)
    requires forall j :: 0 <= j < |formats| ==> strptime(s, formats[j]).None?
    ensures FirstParse(s, formats, strptime) == None
    decreases |formats|
  {
    if formats != [] {
      assert strptime(s, formats[0]).None?;
      forall j | 0 <= j < |formats| - 1 ensures strptime(s, formats[1..][j]).None? {
        assert formats[1..][j] == formats[j + 1];
      }
      FirstParseAllFail(s, formats[1..], strptime);
    }
  }

  /** `parse_timestamp` as a value: the first format that parses, else the current time. */
  function TimestampOf(raw: Option<string>, env: Env): int {
    if !Truthy(raw) then env.now
    else
      var parsed := FirstParse(raw.value, TIMESTAMP_FORMATS, env.strptime);
      if parsed.Some? then parsed.value else env.now
  }

  /** `parse_timestamp`: tries each format in turn. */
  method ParseTimestamp(raw: Option<string>, env: Env) returns (t: int)
    ensures t == TimestampOf(raw, env)
  {
    if !Truthy(raw) {
      return env.now;
    }
    var text := raw.value;
    for i := 0 to |TIMESTAMP_FORMATS|
      invariant FirstParse(text, TIMESTAMP_FORMATS, env.strptime)
                == FirstParse(text, TIMESTAMP_FORMATS[i..], env.strptime)
    {
      assert TIMESTAMP_FORMATS[i..][1..] == TIMESTAMP_FORMATS[i + 1..];
      var parsed := env.strptime(text, TIMESTAMP_FORMATS[i]);
      if parsed.Some? {
        return parsed.value;
      }
    }
    return env.now;
  }

  // ---------------------------------------------------------------------
  // detect_source

  /** The three source types FIELD_MAPPINGS knows. */
  const KNOWN_SOURCES: set<string> := {"defender", "azure_ad", "generic"}

  /**
   * `detect_source`. Raises (Err) only when no marker key is present and the
   * record's `source` is not a string, where `.lower()` fails.
   */
  function DetectSource(record: Record): (r: Result<string>)
    ensures r.Ok? ==> r.value in KNOWN_SOURCES
    ensures r.Err? <==> !("alertId" in record || "detectionSource" in record
                          || "riskEventType" in record || "riskLevel" in record)
                        && "source" in record && !record["source"].Str?
  {
    if "alertId" in record || "detectionSource" in record then Ok("defender")
    else if "riskEventType" in record || "riskLevel" in record then Ok("azure_ad")
    else if "source" in record && !record["source"].Str? then Err("source has no lower()")
    else
      var source := if "source" in record then Lower(record["source"].s) else "";
      if Contains(source, "defender") then Ok("defender")
      else if Contains(source, "azure") || Contains(source, "aad") then Ok("azure_ad")
      else Ok("generic")
  }

  /** Detection priority: Defender keys, then Azure AD keys, then the `source` text. */
  lemma DetectSourcePriority(record: Record)
    ensures "alertId" in record || "detectionSource" in record ==> DetectSource(record) == Ok("defender")
    ensures (!("alertId" in record || "detectionSource" in record)
             && ("riskEventType" in record || "riskLevel" in record))
            ==> DetectSource(record) == Ok("azure_ad")
    ensures !("alertId" in record || "detectionSource" in record || "riskEventType" in record
              || "riskLevel" in record || "source" in record)
            ==> DetectSource(record) == Ok("generic")
  {
    assert !Contains("", "defender") && !Contains("", "azure") && !Contains("", "aad");
  }

  /** Without marker keys, the lower-cased `source` text decides: "defender" first, then "azure" or "aad". */
  lemma DetectSourceFromText(record: Record, text: string)
    requires !("alertId" in record || "detectionSource" in record || "riskEventType" in record || "riskLevel" in record)
    requires "source" in record && record["source"] == Str(text)
    ensures Contains(Lower(text), "defender") ==> DetectSource(record) == Ok("defender")
    ensures !Contains(Lower(text), "defender") && (Contains(Lower(text), "azure") || Contains(Lower(text), "aad"))
            ==> DetectSource(record) == Ok("azure_ad")
    ensures !Contains(Lower(text), "defender") && !Contains(Lower(text), "azure") && !Contains(Lower(text), "aad")
            ==> DetectSource(record) == Ok("generic")
  {
  }

  // ---------------------------------------------------------------------
  // normalize_alert

  /** The dictionary normalize_alert returns. `source` is the record's own value when present. */
  datatype NormalizedAlert = NormalizedAlert(
    alertId: string,
    source: Value,
    category: string,
    severity: Severity,
    title: string,
    description: Option<string>,
    entityUser: Option<string>,
    entityIp: Option<string>,
    entityDevice: Option<string>,
    entityLocation: Option<string>,
    timestamp: int,
    rawData: Value)

  /** Python `x or default` for an optional string. */
  function OrDefault(o: Option<string>, default: string): string {
    if Truthy(o) then o.value else default
  }

  /** `source_hint or detect_source(alert_data)`. */
  function SourceTypeOf(record: Record, sourceHint: Option<string>): Result<string> {
    if Truthy(sourceHint) then Ok(sourceHint.value) else DetectSource(record)
  }

  /** `f"auto-{hash(...) % 10**8}"`, with the hash supplied by the environment. */
  function AutoId(record: Record, env: Env): string {
    "auto-" + NatToString(env.hash(Obj(record)) % 100000000)
  }

  /** The source name: the record's `source`, else the type with "_" → " " in title case. */
  function SourceName(record: Record, sourceType: string): Value {
    if "source" in record then record["source"] else Str(Title(ReplaceChar(sourceType, '_', ' ')))
  }

  /** The body of normalize_alert once the source type is known. */
  function BuildAlert(record: Record, sourceType: string, env: Env): (a: NormalizedAlert)
    ensures a.title != "" && a.category != "" && a.alertId != ""
  {
    var m := MappingFor(sourceType);
    var alertId := FieldValue(record, Aliases(m, AlertIdField));
    NormalizedAlert(
      alertId := if Truthy(alertId) then alertId.value else AutoId(record, env),
      source := SourceName(record, sourceType),
      category := OrDefault(FieldValue(record, Aliases(m, CategoryField)), "Unknown"),
      severity := NormalizeSeverity(FieldValue(record, Aliases(m, SeverityField))),
      title := OrDefault(FieldValue(record, Aliases(m, TitleField)), "Unknown Alert"),
      description := FieldValue(record, Aliases(m, DescriptionField)),
      entityUser := FieldValue(record, Aliases(m, UserField)),
      entityIp := FieldValue(record, Aliases(m, IpField)),
      entityDevice := FieldValue(record, Aliases(m, DeviceField)),
      entityLocation := FieldValue(record, Aliases(m, LocationField)),
      timestamp := TimestampOf(FieldValue(record, Aliases(m, TimestampField)), env),
      rawData := Obj(record))
  }

  /**
   * `normalize_alert`. It fails only where detect_source fails; a hint
   * skips detection altogether.
   */
  function NormalizeAlert(record: Record, sourceHint: Option<string>, env: Env): (r: Result<NormalizedAlert>)
    ensures r.Err? <==> !Truthy(sourceHint) && DetectSource(record).Err?
    ensures r.Ok? ==> r.value.title != "" && r.value.category != "" && r.value.alertId != ""
    ensures r.Ok? ==> r.value.rawData == Obj(record)
  {
    match SourceTypeOf(record, sourceHint)
    case Err(e) => Err(e)
    case Ok(sourceType) => Ok(BuildAlert(record, sourceType, env))
  }

  /** A hint that names no known table falls back to the generic table; only the source name differs. */
  lemma UnknownHintUsesGeneric(record: Record, hint: string, env: Env)
    requires hint != "" && hint != "defender" && hint != "azure_ad"
    ensures NormalizeAlert(record, Some(hint), env).Ok?
    ensures NormalizeAlert(record, Some(hint), env).value
            == NormalizeAlert(record, Some("generic"), env).value.(source := SourceName(record, hint))
  {
  }

  /** The source name is the record's `source` value whenever the record has one. */
  lemma SourceNamePrefersRecord(record: Record, sourceHint: Option<string>, env: Env)
    requires "source" in record
    requires NormalizeAlert(record, sourceHint, env).Ok?
    ensures NormalizeAlert(record, sourceHint, env).value.source == record["source"]
  {
  }

  /** The name derived from the Defender source type. */
  lemma DefenderTypeName(record: Record)
    requires "source" !in record
    ensures SourceName(record, "defender") == Str("Defender")
  {
    assert ReplaceChar("defender", '_', ' ') == "defender";
    TitleOfLowerWord("defender");
    assert UpperAscii('d') == 'D' && "defender"[1..] == "efender";
    assert Title("defender") == "Defender";
  }

  /** The name derived from the Azure AD source type. */
  lemma AzureAdTypeName(record: Record)
    requires "source" !in record
    ensures SourceName(record, "azure_ad") == Str("Azure Ad")
  {
    assert ReplaceChar("azure_ad", '_', ' ') == "azure" + " " + "ad";
    AzureAdTitle();
  }

  lemma AzureAdTitle()
    ensures Title("azure" + " " + "ad") == "Azure Ad"
  {
    TitleOfTwoWords("azure", "ad");
    TitleOfLowerWord("azure");
    TitleOfLowerWord("ad");
  }

  /** Without a `source`, a Defender record is named "Defender". */
  lemma DefenderSourceName(record: Record, env: Env)
    requires "source" !in record && "alertId" in record
    ensures NormalizeAlert(record, None, env).value.source == Str("Defender")
  {
    DefenderTypeName(record);
  }

  /** Without a `source`, an Azure AD record is named "Azure Ad" (title case of "azure ad"). */
  lemma AzureAdSourceName(record: Record, env: Env)
    requires "source" !in record && "alertId" !in record && "detectionSource" !in record && "riskLevel" in record
    ensures NormalizeAlert(record, None, env).value.source == Str("Azure Ad")
  {
    AzureAdTypeName(record);
  }

  // ---------------------------------------------------------------------
  // parse_json_file / parse_csv_file / parse_file_content

  /** `normalize_alert(alert)` on one element of a decoded list: a non-dict raises. */
  function NormalizeElement(v: Value, env: Env): Result<NormalizedAlert> {
    if v.Obj? then NormalizeAlert(v.fields, None, env) else Err("alert is not an object")
  }

  /** Evaluating a list of results in order: the first error aborts, otherwise all values are kept. */
  function Collect<T>(results: seq<Result<T>>): (r: Result<seq<T>>)
    ensures r.Ok? <==> forall i :: 0 <= i < |results| ==> results[i].Ok?
    ensures r.Ok? ==> |r.value| == |results| && forall i :: 0 <= i < |results| ==> results[i] == Ok(r.value[i])
    ensures r.Err? ==> exists i :: 0 <= i < |results| && results[i] == Err(r.message)
                                   && forall j :: 0 <= j < i ==> results[j].Ok?
    decreases |results|
  {
    if results == [] then Ok([])
    else
      assert forall i :: 1 <= i < |results| ==> results[i] == results[1..][i - 1];
      match results[0]
      case Err(e) => Err(e)
      case Ok(first) =>
        var rest := Collect(results[1..]);
        if rest.Err? then
          ghost var k :| 0 <= k < |results[1..]| && results[1..][k] == Err(rest.message)
                         && forall j :: 0 <= j < k ==> results[1..][j].Ok?;
          assert results[k + 1] == Err(rest.message);
          rest
        else Ok([first] + rest.value)
  }

  /** `normalize_alert` on each decoded element, in order. */
  function ElementResults(items: seq<Value>, env: Env): (r: seq<Result<NormalizedAlert>>)
    ensures |r| == |items|
  {
    seq(|items|, i requires 0 <= i < |items| => NormalizeElement(items[i], env))
  }

  /** `[normalize_alert(alert) for alert in items]`: the first exception aborts the whole list. */
  function NormalizeEach(items: seq<Value>, env: Env): Result<seq<NormalizedAlert>> {
    Collect(ElementResults(items, env))
  }

  /** The list succeeds exactly when every element does. */
  lemma NormalizeEachOk(items: seq<Value>, env: Env)
    ensures NormalizeEach(items, env).Ok? <==> forall i :: 0 <= i < |items| ==> NormalizeElement(items[i], env).Ok?
  {
    var rs := ElementResults(items, env);
    assert forall i :: 0 <= i < |items| ==> rs[i] == NormalizeElement(items[i], env);
  }

  /** A successful list holds each element's alert at the element's position. */
  lemma NormalizeEachValues(items: seq<Value>, env: Env)
    requires NormalizeEach(items, env).Ok?
    ensures |NormalizeEach(items, env).value| == |items|
    ensures forall i :: 0 <= i < |items| ==> NormalizeElement(items[i], env) == Ok(NormalizeEach(items, env).value[i])
  {
    var rs := ElementResults(items, env);
    assert forall i :: 0 <= i < |items| ==> rs[i] == NormalizeElement(items[i], env);
  }

  /** A failed list fails with the error of its first failing element. */
  lemma NormalizeEachFirstError(items: seq<Value>, env: Env)
    requires NormalizeEach(items, env).Err?
    ensures exists i :: 0 <= i < |items| && NormalizeElement(items[i], env) == Err(NormalizeEach(items, env).message)
                        && forall j :: 0 <= j < i ==> NormalizeElement(items[j], env).Ok?
  {
    var rs := ElementResults(items, env);
    assert forall i :: 0 <= i < |items| ==> rs[i] == NormalizeElement(items[i], env);
  }

  /** Iterating the value under `value` / `alerts`: a list gives its elements, a text or dict its characters or keys. */
  function NormalizeIterable(v: Value, env: Env): (r: Result<seq<NormalizedAlert>>)
    ensures v.Arr? && r.Ok? ==> |r.value| == |v.items|
    ensures (v.Obj? && v.fields == map[]) || (v.Str? && v.s == "") ==> r == Ok([])
    ensures (v.Obj? && v.fields != map[]) || (v.Str? && v.s != "") ==> r.Err?
    ensures !v.Arr? && !v.Obj? && !v.Str? ==> r.Err?
  {
    match v
    case Arr(items) => NormalizeEach(items, env)
    case Obj(fields) => if fields == map[] then Ok([]) else Err("alert is not an object")
    case Str(s) => if s == "" then Ok([]) else Err("alert is not an object")
    case _ => Err("value is not iterable")
  }

  /** The shape dispatch of parse_json_file on an already decoded document. */
  function ParseJsonDocument(doc: Value, env: Env): (r: Result<seq<NormalizedAlert>>)
    ensures doc.Arr? && r.Ok? ==> |r.value| == |doc.items|
    ensures doc.Obj? && "value" !in doc.fields && "alerts" !in doc.fields && r.Ok? ==> |r.value| == 1
    ensures !doc.Arr? && !doc.Obj? ==> r == Ok([])
  {
    match doc
    case Arr(items) => NormalizeEach(items, env)
    case Obj(m) =>
      if "value" in m then NormalizeIterable(m["value"], env)
      else if "alerts" in m then NormalizeIterable(m["alerts"], env)
      else (match NormalizeAlert(m, None, env)
            case Err(e) => Err(e)
            case Ok(a) => Ok([a]))
    case _ => Ok([])
  }

  /** A list document gives one normalised alert per element, in order; every element is a dict. */
  lemma ListDocument(items: seq<Value>, env: Env)
    requires ParseJsonDocument(Arr(items), env).Ok?
    ensures var r := ParseJsonDocument(Arr(items), env).value;
            |r| == |items|
            && forall i :: 0 <= i < |items| ==> items[i].Obj? && NormalizeAlert(items[i].fields, None, env) == Ok(r[i])
  {
    NormalizeEachValues(items, env);
  }

  /** `value` takes precedence over `alerts`. */
  lemma ValueBeforeAlerts(m: map<string, Value>, alerts: Value, env: Env)
    requires "value" in m
    ensures ParseJsonDocument(Obj(m["alerts" := alerts]), env) == ParseJsonDocument(Obj(m), env)
            == NormalizeIterable(m["value"], env)
  {
    assert "value" in m["alerts" := alerts] && m["alerts" := alerts]["value"] == m["value"];
  }

  /** Any other dict is one alert; any scalar document gives no alerts. */
  lemma SingleAndScalarDocuments(m: map<string, Value>, scalar: Value, env: Env)
    requires "value" !in m && "alerts" !in m
    requires !scalar.Arr? && !scalar.Obj?
    ensures NormalizeAlert(m, None, env).Ok? ==> ParseJsonDocument(Obj(m), env) == Ok([NormalizeAlert(m, None, env).value])
    ensures NormalizeAlert(m, None, env).Err? ==> ParseJsonDocument(Obj(m), env).Err?
    ensures ParseJsonDocument(scalar, env) == Ok([])
  {
  }

  /** The library decoders: `json.loads` (None when it raises) and `csv.DictReader` rows. */
  datatype Decoders = Decoders(json: string -> Option<Value>, csv: string -> seq<Record>)

  /** `parse_json_file`. */
  function ParseJsonFile(content: string, dec: Decoders, env: Env): (r: Result<seq<NormalizedAlert>>)
    ensures dec.json(content).None? ==> r == Err("invalid JSON")
    ensures r.Ok? ==> dec.json(content).Some?
    ensures r.Ok? && dec.json(content).value.Arr? ==> |r.value| == |dec.json(content).value.items|
  {
    match dec.json(content)
    case None => Err("invalid JSON")
    case Some(doc) => ParseJsonDocument(doc, env)
  }

  /** `parse_csv_file`: every row is a dict, normalised in order. */
  function ParseCsvFile(content: string, dec: Decoders, env: Env): (r: Result<seq<NormalizedAlert>>)
    ensures r.Ok? ==> |r.value| == |dec.csv(content)|
  {
    NormalizeEach(RowValues(dec.csv(content)), env)
  }

  /** The rows of a CSV file as the decoded elements handed to normalize_alert. */
  function RowValues(rows: seq<Record>): (items: seq<Value>)
    ensures |items| == |rows| && forall i :: 0 <= i < |rows| ==> items[i] == Obj(rows[i])
  {
    seq(|rows|, i requires 0 <= i < |rows| => Obj(rows[i]))
  }

  /** A CSV file parses exactly when every row normalises. */
  lemma CsvParsesIffRowsDo(content: string, dec: Decoders, env: Env)
    ensures var rows := dec.csv(content);
            ParseCsvFile(content, dec, env).Ok? <==> forall i :: 0 <= i < |rows| ==> NormalizeAlert(rows[i], None, env).Ok?
  {
    var rows := dec.csv(content);
    NormalizeEachOk(RowValues(rows), env);
  }

  /** A parsed CSV file gives one alert per row, in order. */
  lemma CsvRowsInOrder(content: string, dec: Decoders, env: Env)
    requires ParseCsvFile(content, dec, env).Ok?
    ensures var rows := dec.csv(content); var r := ParseCsvFile(content, dec, env).value;
            |r| == |rows| && forall i :: 0 <= i < |rows| ==> NormalizeAlert(rows[i], None, env) == Ok(r[i])
  {
    var rows := dec.csv(content);
    NormalizeEachValues(RowValues(rows), env);
  }

  /** `parse_file_content`: a name ending in ".csv" (any case) is CSV, anything else JSON. */
  function ParseFileContent(content: string, filename: string, dec: Decoders, env: Env): (r: Result<seq<NormalizedAlert>>)
    ensures EndsWith(Lower(filename), ".csv") && r.Ok? ==> |r.value| == |dec.csv(content)|
    ensures !EndsWith(Lower(filename), ".csv") && dec.json(content).None? ==> r == Err("invalid JSON")
  {
    if EndsWith(Lower(filename), ".csv") then ParseCsvFile(content, dec, env)
    else ParseJsonFile(content, dec, env)
  }

  /** Lower-casing works character by character, so it splits at any point. */
  lemma LowerAppend(s: string, t: string)
    ensures Lower(s + t) == Lower(s) + Lower(t)
  {
    assert forall i :: 0 <= i < |s + t| ==> Lower(s + t)[i] == (Lower(s) + Lower(t))[i];
  }

  /**
   * The extension test ignores case. A name whose last four characters lower-case
   * to ".csv" is read as CSV; a name whose last four characters do not, or a name
   * shorter than four characters, is read as JSON. Every name is one of these.
   */
  lemma FileContentByExtension(content: string, name: string, ext: string, dec: Decoders, env: Env)
    requires |ext| == 4
    ensures Lower(ext) == ".csv" ==> ParseFileContent(content, name + ext, dec, env) == ParseCsvFile(content, dec, env)
    ensures Lower(ext) != ".csv" ==> ParseFileContent(content, name + ext, dec, env) == ParseJsonFile(content, dec, env)
    ensures |name| < 4 ==> ParseFileContent(content, name, dec, env) == ParseJsonFile(content, dec, env)
  {
    LowerAppend(name, ext);
    var lowered := Lower(name + ext);
    assert lowered[|lowered| - 4..] == Lower(ext);
  }

  /** ".CSV" is read as CSV. */
  lemma UpperCsvIsCsv(content: string, name: string, dec: Decoders, env: Env)
    ensures ParseFileContent(content, name + ".CSV", dec, env) == ParseCsvFile(content, dec, env)
  {
    assert Lower(".CSV") == ".csv" by {
      assert forall i :: 0 <= i < 4 ==> Lower(".CSV")[i] == ".csv"[i];
    }
    FileContentByExtension(content, name, ".CSV", dec, env);
  }

  /** ".json" is read as JSON. */
  lemma JsonIsJson(content: string, name: string, dec: Decoders, env: Env)
    ensures ParseFileContent(content, name + ".json", dec, env) == ParseJsonFile(content, dec, env)
  {
    assert Lower("json") != ".csv" by {
      assert Lower("json")[0] == 'j';
    }
    assert name + ".json" == (name + ".") + "json";
    FileContentByExtension(content, name + ".", "json", dec, env);
  }

}
