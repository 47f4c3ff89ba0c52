# M365 alert triage backend, modelled in Dafny

This project models the core of a security-alert triage backend. Three parts of that backend are modelled:

- **The normaliser** (`backend/normalizer.py`). It turns Microsoft Defender, Azure AD and generic JSON or CSV alert records into one alert schema. It detects the source format, looks up each field through that format's list of aliases (dotted paths go into nested objects), maps many severity spellings onto four levels, and tries the timestamp formats in order.
- **The correlator** (`backend/correlator.py`). It groups alerts into incidents. Two alerts are related when they are distinct rows, lie within a one-hour window of each other, and share a user, IP or device. Each unassigned new alert leads a group made of itself and its unassigned related new alerts. The group joins the first incident that one of its related alerts already belongs to, or founds a new incident. Every touched incident is re-titled and re-scored.
- **The triage scorer** (`backend/triage.py`). It scores an incident with an explanation. The score has three parts:
  - a severity part, uncapped;
  - an entity-frequency part, capped at 30;
  - a risk-indicator part, capped at 30. The indicators are a shared IP, a high-risk category, "impossible travel", failed actions and off-hours activity.

Four modules make up the project:

- **`Text`** models the Python string operations the core relies on: `lower`, `strip`, `title`, `split`, `join`, `replace`, substring `in`, `endswith` and `str(int)`.
- **`Models`** holds the shared entities from `backend/models.py`: the severity levels with their values and ranks, the alert row, and the per-kind entity sets.
- **`Normalizer`** is written as pure functions. The loops of `get_nested_value`, `find_field_value` and `parse_timestamp` become methods, each proved equal to its reference function.
- **`Triage`** and **`Correlator`** are the other two modules:
  - Each operation of the source's loops is a method with loop invariants, proved against a specification function or predicate.
  - The database session is the class `Correlator.Store`. Its fields are the alerts table, the incidents table (an incident's index is its identity) and the `incident_alerts` association, kept per alert id.
  - The Store's methods change these fields as `correlate_alerts`, `create_or_update_incident` and `recorrelate_all` do.

The triage scorer's database counts run over the alerts table. Here that table is the corpus passed in, and the Store passes its own `alerts` field.

## Model

| member | source | states |
|---|---|---|
| Normalizer.Render | backend/normalizer.py:98 | `str(value)` of a truthy value is never empty |
| Normalizer.MappingFor | backend/normalizer.py:164 | "defender" and "azure_ad" pick their own alias table, and only they do; anything else falls back to the generic table |
| Normalizer.LookupSnoc | backend/normalizer.py:83-90 | following one more key descends one level from the value reached so far |
| Normalizer.LookupBreaksOff | backend/normalizer.py:86-89 | once a key is missing or the value is not a dict, the whole lookup is None |
| Normalizer.LookupSucceeds | backend/normalizer.py:85-90 | a successful lookup passed through a dict holding each key in turn |
| Normalizer.NestedValueUndotted | backend/normalizer.py:81-90 | a key without a dot is a plain dictionary lookup |
| Normalizer.GetNestedValue | backend/normalizer.py:81-90 | the loop returns exactly the dotted-path lookup of the key path split on "." |
| Normalizer.FieldValue | backend/normalizer.py:93-99 | a found field value is never the empty string |
| Normalizer.FieldValueFirstPresent | backend/normalizer.py:95-98 | the first alias whose value is not None decides; a falsy value gives None without trying later aliases |
| Normalizer.FieldValueNonePresent | backend/normalizer.py:99 | when every alias is missing or null the result is None |
| Normalizer.FindFieldValue | backend/normalizer.py:93-99 | the loop returns what the first-present-alias rule gives |
| Normalizer.NormalizeSeverity | backend/normalizer.py:102-108 | a missing or empty value gives MEDIUM; a key absent from the table gives MEDIUM |
| Normalizer.SeverityDependsOnKeyOnly | backend/normalizer.py:107-108 | two spellings with the same lower-cased, stripped key get the same severity |
| Normalizer.SeverityRoundTrip | backend/normalizer.py:19-37 | every level's own value ("low" … "critical") normalises back to that level |
| Normalizer.SeverityPaddedUpperCase | backend/normalizer.py:107 | " HIGH " normalises to HIGH (case and padding are ignored) |
| Normalizer.SeverityTableExamples | backend/normalizer.py:19-37 | "4" and "severe" give CRITICAL; "informational" gives LOW |
| Normalizer.SeverityUnknownIsMedium | backend/normalizer.py:104-108 | "urgent" and None give MEDIUM |
| Normalizer.NormalizedKeyIsItself | backend/normalizer.py:107 | a non-empty lower-case alphanumeric text is its own lookup key |
| Normalizer.FirstParseFirstSuccess | backend/normalizer.py:127-129 | the first format that parses gives the timestamp |
| Normalizer.FirstParseAllFail | backend/normalizer.py:127-133 | when no format parses, no parsed value is returned, so the current time is used |
| Normalizer.ParseTimestamp | backend/normalizer.py:111-133 | the loop returns the first successful parse, or the current time when the value is missing, empty or unparsable |
| Normalizer.DetectSource | backend/normalizer.py:136-153 | the result is one of defender/azure_ad/generic; it fails exactly when no marker key is present and `source` is not a string |
| Normalizer.DetectSourcePriority | backend/normalizer.py:139-144 | the Defender markers win over the Azure AD markers; without markers and without `source` the result is generic |
| Normalizer.DetectSourceFromText | backend/normalizer.py:147-153 | without markers, "defender" in the lower-cased source gives defender, else "azure" or "aad" gives azure_ad, else generic |
| Normalizer.BuildAlert | backend/normalizer.py:167-175 | the alert id, title and category are never empty (auto id, "Unknown Alert", "Unknown") |
| Normalizer.NormalizeAlert | backend/normalizer.py:156-194 | fails exactly when there is no hint and source detection fails; on success the id, title and category are non-empty and the raw data is the record |
| Normalizer.UnknownHintUsesGeneric | backend/normalizer.py:163-164 | an unknown hint reads the fields through the generic table; only the source name differs |
| Normalizer.SourceNamePrefersRecord | backend/normalizer.py:179 | a record's own `source` is kept as the source name |
| Normalizer.DefenderTypeName | backend/normalizer.py:179 | without `source`, the type "defender" is named "Defender" |
| Normalizer.AzureAdTypeName | backend/normalizer.py:179 | without `source`, the type "azure_ad" is named "Azure Ad" ("_" becomes " ", then title case) |
| Normalizer.AzureAdTitle | backend/normalizer.py:179 | the title case of "azure ad" is "Azure Ad" |
| Normalizer.DefenderSourceName | backend/normalizer.py:139-140 | a record with `alertId` and no `source` is named "Defender" |
| Normalizer.AzureAdSourceName | backend/normalizer.py:143-144 | a record with `riskLevel` and no Defender marker or `source` is named "Azure Ad" |
| Normalizer.Collect | backend/normalizer.py:203 | a list comprehension succeeds exactly when every element does, keeping the values in order; otherwise the first failing element's exception propagates |
| Normalizer.ElementResults | backend/normalizer.py:203 | one normalisation result per element |
| Normalizer.NormalizeEachOk | backend/normalizer.py:203 | a list normalises exactly when every element does |
| Normalizer.NormalizeEachValues | backend/normalizer.py:203 | a normalised list has one alert per element, at the same position |
| Normalizer.NormalizeEachFirstError | backend/normalizer.py:203 | a failing list reports the error of its first failing element |
| Normalizer.NormalizeIterable | backend/normalizer.py:208-211 | iterating a list normalises one alert per element; an empty dict or text gives no alerts; a non-empty dict or text, whose keys or characters are not dicts, fails, and so does a scalar |
| Normalizer.ParseJsonDocument | backend/normalizer.py:201-215 | a list document gives one alert per element; a dict without "value" or "alerts" gives exactly one alert; any scalar document gives no alerts |
| Normalizer.ParseJsonFile | backend/normalizer.py:197-215 | text that does not decode as JSON fails; a successful parse came from a decoded document, with one alert per element of a list document |
| Normalizer.ListDocument | backend/normalizer.py:202-203 | a JSON list gives one alert per element, in order, and every element is a dict |
| Normalizer.ValueBeforeAlerts | backend/normalizer.py:208-211 | a "value" key takes precedence over an "alerts" key |
| Normalizer.SingleAndScalarDocuments | backend/normalizer.py:213-215 | a dict without either key is a single alert; any other scalar document gives no alerts |
| Normalizer.ParseCsvFile | backend/normalizer.py:218-221 | a parsed CSV file gives one alert per decoded row |
| Normalizer.CsvParsesIffRowsDo | backend/normalizer.py:218-221 | CSV parsing succeeds exactly when every row normalises |
| Normalizer.CsvRowsInOrder | backend/normalizer.py:218-221 | a parsed CSV file gives one alert per row, in row order |
| Normalizer.ParseFileContent | backend/normalizer.py:224-229 | a name ending ".csv" in any case gives one alert per CSV row when it parses; any other name whose content is not JSON fails as invalid JSON |
| Normalizer.FileContentByExtension | backend/normalizer.py:224-229 | every name whose last four characters lower-case to ".csv" is read as CSV; every name whose last four do not, and every name shorter than four characters, is read as JSON |
| Normalizer.LowerAppend | backend/normalizer.py:226 | lower-casing a name splits at any point, so the extension is lower-cased on its own |
| Normalizer.UpperCsvIsCsv | backend/normalizer.py:226-227 | a name ending ".CSV" is read as CSV |
| Normalizer.JsonIsJson | backend/normalizer.py:226-229 | a name ending ".json" is read as JSON |
| Text.Lower | backend/normalizer.py:107 | lower-casing keeps the length, leaves no ASCII capital, turns each ASCII capital into its small letter and leaves the other characters below U+00C0 as they are |
| Text.LowerIdempotent | backend/correlator.py:31 | lower-casing twice is lower-casing once |
| Text.StripEnds | backend/normalizer.py:107 | the result of `strip()` has no white space at either end |
| Text.StripUnpadded | backend/normalizer.py:107 | a text without white space at its ends is unchanged by `strip()` |
| Text.TitleOfLowerWord | backend/correlator.py:114 | `title()` of a lower-case word capitalises its first letter only |
| Text.TitleFromAppend | backend/normalizer.py:179 | title-casing a concatenation works piece by piece |
| Text.TitleOfTwoWords | backend/normalizer.py:179 | two space-separated lower-case words are title-cased word by word |
| Text.Split | backend/normalizer.py:83 | `split(".")` yields at least one piece, none containing a dot |
| Text.JoinSplit | backend/normalizer.py:83 | joining the pieces of a split with the separator gives back the key path |
| Text.SplitWithoutSeparator | backend/normalizer.py:83 | a key path without a dot splits into itself |
| Triage.MaxSeverity | backend/triage.py:32-33 | the highest severity occurs in the list and no alert ranks above it |
| Triage.SeverityScore | backend/triage.py:26-47 | no alerts gives exactly 0 with "No alerts"; otherwise the part is at least the base score of the highest severity (bounds per member in SeverityScoreAtLeastBase and growth in SeverityScoreMonotone) |
| Triage.BaseFollowsRank | backend/triage.py:15-20 | the base scores follow the severity order |
| Triage.SeverityScoreAtLeastBase | backend/triage.py:32-39 | the severity part is at least the base of every member, and at least 10 |
| Triage.CountSeverityAppend | backend/triage.py:36-37 | the count of a level grows by one for each alert added with that level |
| Triage.SeverityScoreMonotone | backend/triage.py:32-47 | adding an alert never lowers the severity part |
| Triage.SeverityBonusUncapped | backend/triage.py:39-47 | two critical alerts score 40 + 2·5 = 50: the severity part has no cap |
| Triage.FrequentValuesStep | backend/triage.py:61-82 | scanning one more value adds it to the frequent set exactly when it is frequent |
| Triage.FrequentScanStep | backend/triage.py:61-82 | one scanned value keeps points, reasons and frequent set in step |
| Triage.ScanFrequent | backend/triage.py:61-82 | the points of one entity kind are its bonus times the number of frequent values, with one correct reason per frequent value |
| Triage.CalculateEntityFrequencyScore | backend/triage.py:50-85 | the score is the 10/8/5 points per frequent user/IP/device, capped at 30; exactly the frequent values appear, each once with its count, users first, then IPs, then devices; the reason joins their texts with "; ", or is "No frequent entities" when there are none |
| Triage.ScansFound | backend/triage.py:60-85 | the four per-kind scans together give the total points and exactly the frequent entries, users before IPs before devices; the location kind adds nothing |
| Triage.KindsInOrderConcat | backend/triage.py:60-82 | two lists each in kind order, the first of lower kinds, stay in kind order when concatenated |
| Triage.SingleKindInOrder | backend/triage.py:61-82 | one kind's scan yields entries of that kind only |
| Triage.FirstSuspiciousCategory | backend/triage.py:119-126 | the category of the first alert whose category is high-risk; None exactly when no alert has one |
| Triage.TotalBonusAppend | backend/triage.py:103-161 | the bonuses of concatenated reasons add up |
| Triage.SharedIpsStep | backend/triage.py:107-117 | scanning one more IP adds it to the shared set exactly when more than two users used it |
| Triage.SharedScanStep | backend/triage.py:107-117 | one scanned IP keeps points, reasons and shared set in step |
| Triage.ScanSharedIps | backend/triage.py:107-117 | 15 points and one reason, with the user count, per non-empty IP seen with more than two distinct users |
| Triage.FindSuspiciousCategory | backend/triage.py:122-126 | the loop stops at the first high-risk category |
| Triage.ListOf | backend/triage.py:129 | `list(set)` has the set's elements, each once |
| Triage.OrderedConcat | backend/triage.py:103-161 | reasons from earlier checks stay before those of later checks |
| Triage.CombineReasons | backend/triage.py:103-161 | the five checks' reasons appear in checking order and their bonuses add up |
| Triage.CheckCategory | backend/triage.py:119-126 | at most one category reason, worth 10, exactly when an alert has a high-risk category |
| Triage.CheckTravel | backend/triage.py:128-140 | 20 points exactly when there is one user, several locations and a timestamp span under two hours; the reason names the user, lists every location exactly once and gives the span |
| Triage.ListingHasNoRepeats | backend/triage.py:129 | a listing with exactly the set's elements and as many entries as the set lists no element twice |
| Triage.CheckFailedActions | backend/triage.py:142-150 | 10 points exactly when at least three titles mention failed, blocked, denied or unauthorized |
| Triage.CheckOffHours | backend/triage.py:152-159 | 5 points exactly when a strict majority of alerts is stamped before 06:00 or after 20:59 |
| Triage.DetectRiskIndicators | backend/triage.py:88-161 | the score is the sum of the triggered bonuses capped at 30; the reasons are exactly the triggered indicators, in checking order, each with its content (the shared IPs and their user counts, the first high-risk category, the travel user, locations and span, the failed and off-hours counts) |
| Triage.CalculateTriageScore | backend/triage.py:164-192 | the explanation records each part's score and reasons: the severity reason, the entity reason built from exactly the frequent entries, and the risk reasons of exactly the triggered indicators; the total is their sum, not clamped |
| Correlator.CalculateEntityOverlap | backend/correlator.py:23-42 | the loop computes the weighted overlap, at most 4 |
| Correlator.OverlapSymmetric | backend/correlator.py:23-42 | the overlap does not depend on argument order |
| Correlator.OverlapRange | backend/correlator.py:23-42 | the overlap lies in 0..4 and reaches the minimum exactly when one entity matches; a user match alone scores 2 |
| Correlator.OverlapIgnoresUserAndDeviceCase | backend/correlator.py:30-40 | lower-casing the user and the device changes no score |
| Correlator.IpMatchIsCaseSensitive | backend/correlator.py:35 | two IPs that differ but are equal when lower-cased earn no point: the overlap is the user and device points alone |
| Correlator.IpCaseExample | backend/correlator.py:35 | "fe80::A" against "fe80::a" with no user or device scores 0 |
| Correlator.WithinTimeWindowSymmetric | backend/correlator.py:45-51 | the window test does not depend on argument order |
| Correlator.WithinTimeWindow | backend/correlator.py:45-51 | a missing timestamp on either side is within the window; equal timestamps are within any non-negative window; a negative window excludes every pair of timestamps |
| Correlator.WithinTimeWindowExactly | backend/correlator.py:50-51 | with both timestamps, the window is the closed interval of ±hours around the other |
| Correlator.RelatedAlerts | backend/correlator.py:54-75 | an alert is related exactly when it is in the list, is another row, is within the window and overlaps |
| Correlator.RelatedSnoc | backend/correlator.py:62-73 | one more stored alert is appended to the result exactly when it correlates |
| Correlator.RelatedExcludesSelf | backend/correlator.py:63-64 | the new alert is never related to itself |
| Correlator.RelatedIsSubsequence | backend/correlator.py:62-75 | the related alerts keep the stored order |
| Correlator.RelatedMultiplicity | backend/correlator.py:62-75 | a correlating alert appears as often as it is stored; one that does not correlate never appears |
| Correlator.FindRelatedAlerts | backend/correlator.py:54-75 | the loop returns exactly the related alerts |
| Correlator.EntityValues | backend/correlator.py:87-95 | the collected values of a kind are the non-empty values of that column in the alerts |
| Correlator.EntityValuesSnoc | backend/correlator.py:87-95 | one more alert adds its non-empty value to the set |
| Correlator.CollectEntities | backend/correlator.py:78-97 | the loop collects exactly the entity sets |
| Correlator.FirstCategory | backend/correlator.py:106-114 | a category is found exactly when an alert has one, and it is one of the categories |
| Correlator.SeverityLabelCapitalises | backend/correlator.py:114-118 | the severity label is its value with the first letter capitalised |
| Correlator.IncidentTitle | backend/correlator.py:100-118 | the title is never empty |
| Correlator.TitleOneCategory | backend/correlator.py:113-114 | one category gives "<Level> <category> Incident" |
| Correlator.TitleSeveralCategories | backend/correlator.py:115-116 | several categories give "<Level> Multi-Category Incident (<n> alerts)" |
| Correlator.TitleNoCategory | backend/correlator.py:100-118 | no alert gives "Unknown Incident"; no category gives "<Level> Security Incident" |
| Correlator.AppendAbsentKeeps | backend/correlator.py:134-136 | merging keeps the old members first and adds exactly the group's members |
| Correlator.AppendAbsentNoDuplicates | backend/correlator.py:134-136 | merging into a list without repeats makes no repeats |
| Correlator.AppendAbsentIdempotent | backend/correlator.py:134-136 | merging the same group twice changes nothing the second time |
| Correlator.AppendAbsentOfMembers | backend/correlator.py:134-136 | merging members already present changes nothing |
| Correlator.GrowsTransitive | backend/models.py:23-29 | association lists only grow, and growth composes |
| Correlator.AddMembership | backend/models.py:23-29 | adding a row keeps the old rows and adds exactly the new incident for that alert |
| Correlator.AddMembershipsFacts | backend/correlator.py:131-145 | after filing a group every member belongs to the incident, and nothing else is added |
| Correlator.FirstAssociatedIndex | backend/correlator.py:193-196 | the index of the first related alert that has an incident |
| Correlator.FirstIncident | backend/correlator.py:192-196 | no incident exactly when no related alert has one; otherwise the first incident of the first such alert |
| Correlator.Unassigned | backend/correlator.py:199 | the kept related alerts are those in the batch and not yet assigned |
| Correlator.AlertGroup | backend/correlator.py:199 | the group starts with its leader, followed by the unassigned related batch alerts |
| Correlator.MarkAssigned | backend/correlator.py:206-207 | the group's ids are added to the assigned set |
| Correlator.CommittedBatchRepeatsInGroup | backend/correlator.py:188-199 | with a stored batch [x, y], the group led by x is [x, y, y]: y is listed twice |
| Correlator.RepeatedPairRelated | backend/correlator.py:188-189 | in stored-plus-batch [x, y, x, y], x is related to y twice |
| Correlator.PairRelated | backend/correlator.py:54-75 | in [x, y], x is related to y once |
| Correlator.PairRelatedAgain | backend/correlator.py:54-75 | in [x, y, x], x is related to y once |
| Correlator.AddingGroupKeepsConsistent | backend/correlator.py:131-145 | filing a group, into an existing or a new incident, keeps incidents and associations in agreement |
| Correlator.MergeMembers | backend/correlator.py:134-136 | the loop appends the absent group members in order |
| Correlator.ScoreIncident | backend/correlator.py:137-156 | the incident keeps its status and members; its title, entities, explanation (every part's score and reasons) and priority are those its members give |
| Correlator.CreateOrUpdate | backend/correlator.py:121-161 | the group updates the given incident (same status, members merged) or founds a NEW one with exactly the group; no other incident changes; the result is consistent and scored |
| Correlator.SkipKeepsCorrelating | backend/correlator.py:184-185 | skipping an assigned alert keeps the loop state |
| Correlator.CoveredStep | backend/correlator.py:206-207 | after a group, every processed alert is assigned and every assigned alert has an incident |
| Correlator.FreshGroupsStep | backend/correlator.py:199-207 | a fresh group keeps the groups led by, made of, and disjoint over batch alerts |
| Correlator.GroupsStayInBatch | backend/correlator.py:199-207 | group members stay batch alerts that are assigned |
| Correlator.GroupsStayLed | backend/correlator.py:199 | every group is led by a batch alert |
| Correlator.GroupsStayDisjoint | backend/correlator.py:199-207 | no alert id is in two groups |
| Correlator.FromBatchStep | backend/correlator.py:140-145 | incidents founded during the call hold batch alerts only |
| Correlator.GroupKeepsCorrelating | backend/correlator.py:183-207 | one loop pass that files a group keeps the whole loop state |
| Correlator.StepsSnoc | backend/correlator.py:183-207 | a trace extended by one step from its last state is still a trace of steps |
| Correlator.LeadersSkipped | backend/correlator.py:184-185 | skipping an already-assigned alert keeps the leaders exactly the alerts unassigned at their turn |
| Correlator.LeadersIncreasingSnoc | backend/correlator.py:183 | a new leader comes after every earlier one in the batch |
| Correlator.LeadersUnassignedSnoc | backend/correlator.py:184-185 | the new leader was unassigned when its group was formed, and the earlier leaders were at theirs |
| Correlator.OthersAssignedSnoc | backend/correlator.py:184-185 | after a new group, every batch alert that leads no group was assigned at its turn |
| Correlator.LeadersFiled | backend/correlator.py:183-207 | an unassigned alert becomes the next leader, and the leaders stay exactly the alerts unassigned at their turn |
| Correlator.TracedSkip | backend/correlator.py:184-185 | skipping an assigned alert keeps the whole loop state with its trace |
| Correlator.TracedDone | backend/correlator.py:183-209 | after the loop the trace runs from the old tables to the final ones and every batch alert has an incident |
| Correlator.CorrelatingOutcome | backend/correlator.py:183-209 | after the loop the tables agree, every batch alert has an incident, and the groups are disjoint and made of batch alerts |
| Correlator.Store.constructor | backend/models.py:32-79 | a session over the given alerts table, with no incidents |
| Correlator.Store.FindExistingIncident | backend/correlator.py:192-196 | the loop finds the first incident of the first related alert that has one |
| Correlator.Store.CreateOrUpdateIncident | backend/correlator.py:121-161 | the tables are updated as the create-or-update rule says; the alerts table is unchanged |
| Correlator.Store.FileGroup | backend/correlator.py:187-207 | one pass for an unassigned alert is one step: the group is the alert with its unassigned related batch alerts, found in the stored alerts plus the batch; it is filed by the create-or-update rule into the first incident a related alert belongs to, or a new one; its ids become assigned and the trace gains the new tables |
| Correlator.Store.CorrelateAlerts | backend/correlator.py:164-209 | the groups are led, in batch order, by exactly the batch alerts still unassigned at their turn; each group is formed and filed as one step from the tables before it, and the steps run from the old tables to the new ones; no batch changes nothing; every new alert ends in an incident; the groups are disjoint; associations only grow; new incidents hold new alerts only |
| Correlator.Store.RecorrelateAll | backend/correlator.py:212-225 | the result is the correlation of the ordered alerts as one batch, starting from empty tables; every stored alert belongs to an incident, every incident holds stored alerts only, and the groups are disjoint |
| Correlator.CorrelatingDone | backend/correlator.py:183-209 | after the loop every batch alert has an incident |
| Correlator.FirstIncidentExists | backend/correlator.py:195 | the incident a related alert names exists |
| Correlator.GroupIsFresh | backend/correlator.py:199 | a new group consists of unassigned batch alerts |
| Models.HourOf | backend/triage.py:155 | the hour of a timestamp lies in 0..23 |

## Left out

- I/O, the FastAPI routes and `main.py` are not modelled. `backend/schemas.py` is not part of this model either.
- JSON and CSV decoding (`json.loads`, `csv.DictReader`) are parameters (`Normalizer.Decoders`). A JSON syntax error is one `Err`. JSON floats are not represented, only integers.
- Normalizer.ParseCsvFile: a CSV row with more cells than the header is not represented. `csv.DictReader` stores the extra cells as a list under the key `None`, its restkey, and a decoded row here is a `Record` keyed by text only. If such a row has no alert id, `json.dumps(..., sort_keys=True)` at `backend/normalizer.py:170` raises TypeError, because it cannot order `None` against text keys. So `parse_csv_file` fails for the whole file (not executed). The model instead normalises that row with an auto id.
- `datetime.strptime`, `datetime.utcnow()` and Python's `hash` are environment parameters (`Normalizer.Env`). Timestamps are whole seconds since the epoch.
- `str()` of a non-empty list or dict is a fixed non-empty marker, not Python's repr.
- The raw data is kept as the record value, not as its `json.dumps` text.
- `Text.Lower` lower-cases ASCII and Latin-1 letters only; other Unicode case mappings are not modelled. `Text.Title` treats only ASCII letters as letters.
- `Triage.ListText` always wraps each location in single quotes. Python's list repr uses double quotes for a string that contains `'` and escapes backslashes; that is not modelled.
- `Triage.HoursText` rounds the span to the nearest tenth of an hour with halves rounded up. Python's float formatting rounds halves to even on the binary value, which is not modelled.
- The iteration order of Python sets is not modelled. The entity-frequency reasons are proved to come users first, then IPs, then devices, with exactly the right entries of each kind, but not in a fixed order within a kind. The shared-IP reasons are proved to be exactly the right entries, in no fixed order. `list(locations)` is any listing of the set.
- The incident's `related_*` columns hold the entity sets, not their `json.dumps` text. The score explanation is a datatype, not JSON text.
- The ORM session is not modelled: no flush, no commit, no identity map. `back_populates` is the per-alert association list of the Store.
- Alerts are compared by value. Python compares ORM rows by identity, and the two agree for rows with distinct ids.
- The association is a list of incident indices per alert id, and `Correlator.AddMembership` absorbs a second row for the same (incident, alert) pair. In the database the pair is the composite primary key of `incident_alerts` (`backend/models.py:27-28`), so a second row is refused. This matters for a group that lists an alert twice, such as `[x, y, y]` (`Correlator.CommittedBatchRepeatsInGroup`). When such a group founds an incident at `backend/correlator.py:145`, the source most likely fails at flush (not executed); the model files the group.
- Correlator.Store.RecorrelateAll: `recorrelate_all` is not modelled as written on one point, how it clears the tables. The source's bulk delete (`backend/correlator.py:218`) removes only the incident rows. It leaves their `incident_alerts` rows in place, since the foreign key at `backend/models.py:27` has no ON DELETE rule. Where that key is not enforced, the surviving rows can later attach alerts to new incidents that reuse the old ids, when `related_alert.incidents` is loaded again at `backend/correlator.py:194`. The model instead starts from empty incidents and an empty association (`trace[0] == Snapshot({}, [], map[])`). It models what the comment at `backend/correlator.py:217` intends, not the leftover rows.
- The timestamp-ordered query is the parameter `ordered`. The parameter must be a reordering of the alerts table with NULL timestamps first (SQLite's order). How ties are ordered is not specified.
- `created_at` and `updated_at` are not modelled, nor are the lines of `backend/models.py` other than the alert, incident and association columns used here.

On these points the model follows the code:
- An unknown severity key gives MEDIUM.
- The severity part is not capped, and neither is the total.
- A group joins the first incident found among the related alerts.
- The time window includes its bounds (±1 hour).
- Impossible travel needs a span under two hours, measured in seconds.
- Off-hours means an hour below 6 or above 20, in a strict majority of the alerts.
- The alerts the correlator compares against are the stored table plus the batch, so a committed batch is seen twice (`Correlator.CommittedBatchRepeatsInGroup`).
