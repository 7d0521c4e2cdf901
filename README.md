# MDE log normaliser — a Dafny model

This project models the `MDE` class of `src/utils/mde.js`. The class turns a
security alert log into a compact record. Two log shapes are supported:
Microsoft 365 Defender incidents (integration `Wazuh-Microsoft-Threat-Protection`)
and Microsoft Defender for Endpoint alerts (integration `Wazuh-MDE`).
The class is made of five parts:

- `shouldKeep`, a keep/drop test: null, undefined, blank strings, `"Unknown"`,
  `[]` and `{}` are dropped;
- `removeNulls`, a recursive cleaner built on that test;
- `removeDuplicate`, which de-duplicates by key-sorted serialisation;
- `removeTimeZone` and the `hXXps[:]` link repair, two field normalisers;
- `parseEntities`, which projects each entity onto the fields of its
  `entityType`, plus the two record assemblers and the `parseLog` dispatcher.

The model works on parsed values: `Json.Json` is a JavaScript value (the JSON
kinds plus `undefined`), with objects as ordered member lists. The modules
follow the source's structure:

| module | what it holds |
|---|---|
| `Json` | the value type, property reads, `trim`, the keep test, template-literal text |
| `Sequences` | `Array.prototype.filter` and the subsequence relation |
| `Cleaner` | `removeNulls` as a function, its properties, and the imperative cleaner `Clean` |
| `Normalizers` | `removeTimeZone` and `String.prototype.replace` with a string pattern |
| `Dedup` | the comparison key `Canon`, the specification `Unique`, and the loop `RemoveDuplicate` |
| `Entities` | the entity projections and `ParseEntities` |
| `Assemblers` | the M365 and MDE record builders, and the class `Mde` with `logs` and `ParseLog` |

Each loop of the source is a Dafny method proved equal to a specification
function. The facts the source relies on are lemmas about those functions.

Three behaviours one might expect of the normaliser that the code does not
have; the model follows the code:

- **An idempotent cleaner.** The code tests an object member's ORIGINAL value,
  and only then cleans it. So `{a:{b:null}}` cleans to `{a:{}}`, and a second
  pass gives `{}` (`Cleaner.CleaningIsNotIdempotent`).
- **Containers emptied by cleaning are absent.** An object member that
  cleaning empties survives as `{}` or `[]`. For example, evidence made only of
  unsupported entities stays as `evidence: []`
  (`Assemblers.UnsupportedEvidenceLeavesEmptyList`).
- **An explicit error for an unknown integration.** `parseLog` returns nothing
  in that case, modelled as `None`.

## Model

| member | source | states |
|---|---|---|
| Json.ShouldKeepExactly | src/utils/mde.js:7-13 | a value is dropped exactly when it is null or undefined, a string of white space only, the string "Unknown", an empty array or an empty object; 0, false and padded strings are kept |
| Json.TrimEmptyIffBlank | src/utils/mde.js:9 | `v.trim() === ''` holds exactly when every character is ECMAScript white space or a line terminator |
| Json.StringKept | src/utils/mde.js:9 | a string with a non-white-space character passes the keep test unless it is "Unknown" |
| Sequences.FilterEmbedding | src/utils/mde.js:18 | `filter` returns the passing elements at strictly increasing positions and includes every passing position |
| Sequences.FilterAllPass | src/utils/mde.js:18 | filtering a list whose every element passes returns it unchanged |
| Sequences.FilterNonePass | src/utils/mde.js:18 | filtering a list none of whose elements passes returns the empty list |
| Cleaner.CleanArray | src/utils/mde.js:17-18 | an index list ties the cleaned array to the input: each survivor is the cleaned element at its index and passes the keep test, the indices strictly increase, and every position whose cleaned element passes is among them |
| Cleaner.CleanDropsAll | src/utils/mde.js:17-18 | an array none of whose cleaned elements passes the keep test becomes `[]` |
| Cleaner.CleanObject | src/utils/mde.js:19-26 | a cleaned object keeps a member exactly when its original value passes the keep test, stores the cleaned value under the same key, keeps member order, and keeps keys distinct |
| Cleaner.CleanedLookup | src/utils/mde.js:19-26 | reading key k of a cleaned object: the key is present exactly when the original value passes the keep test; the value read is then the cleaned original, and otherwise undefined |
| Cleaner.CleanedField | src/utils/mde.js:21-24 | the member at a given position of an object is present after cleaning exactly when its value passes the keep test, and then holds that value cleaned |
| Cleaner.CleanSingleMember | src/utils/mde.js:19-26 | a one-member object keeps its member, cleaned, exactly when the member's value passes the keep test |
| Cleaner.CleanedIsTidy | src/utils/mde.js:16-29 | after cleaning, every array element passes the keep test, and every object member passes it or is an emptied `[]` or `{}` |
| Cleaner.CleanPristine | src/utils/mde.js:16-29 | a tree in which everything passes the keep test is returned unchanged |
| Cleaner.CleaningIsNotIdempotent | src/utils/mde.js:19-26 | `{a:{b:null}}` cleans to `{a:{}}`, and cleaning that again gives `{}` |
| Cleaner.CleanMembersSnoc | src/utils/mde.js:21-25 | one more member in the input adds its key, with its value cleaned, to the output exactly when its original value passes the keep test |
| Cleaner.Clean | src/utils/mde.js:16-29 | the recursive cleaner computes `RemoveNulls` |
| Cleaner.CleanItems | src/utils/mde.js:17-18 | the map-then-filter over an array computes the array branch of `RemoveNulls` |
| Cleaner.CleanMembers | src/utils/mde.js:19-26 | the one-pass member loop computes the object branch of `RemoveNulls` |
| Normalizers.BeforeFirstDot | src/utils/mde.js:48 | `s.split('.')[0]` is a prefix of s without a dot, followed in s by a dot unless it is all of s |
| Normalizers.RemoveTimeZoneShape | src/utils/mde.js:46-49 | the result is null exactly for a falsy argument; otherwise it is a string ending in Z, with no dot, whose body is the argument up to its first dot |
| Normalizers.RemoveTimeZoneCut | src/utils/mde.js:48 | `date.rest` becomes `dateZ` whenever date has no dot, the empty date included (`.123` becomes `Z`), whatever rest holds |
| Normalizers.RemoveTimeZoneExample | src/utils/mde.js:46-49 | "2024-01-02T03:04:05.123456+02:00" becomes "2024-01-02T03:04:05Z" |
| Normalizers.RemoveTimeZoneNoDot | src/utils/mde.js:48 | a non-empty timestamp without a dot simply gains a Z |
| Normalizers.IndexFrom | src/utils/mde.js:125 | the first position at or after `from` where the pattern occurs, and none when it does not occur there |
| Normalizers.ReplaceFirstAt | src/utils/mde.js:125 | `replace` with a string pattern rewrites the first occurrence only, and keeps everything after it, later occurrences included |
| Normalizers.ReplaceFirstNoMatch | src/utils/mde.js:164 | a string without the pattern is returned unchanged |
| Normalizers.RepairUriExample | src/utils/mde.js:164 | "hXXps[:]//example.com/a" becomes "https://example.com/a" |
| Normalizers.RepairUriFirstOnly | src/utils/mde.js:125 | a second defanged scheme later in the link is left as it is |
| Dedup.CanonEqualIff | src/utils/mde.js:36-37 | two objects compare alike under the model's key exactly when every property read gives the same value on both |
| Dedup.CanonIgnoresOrder | src/utils/mde.js:36 | reordering an object's members never changes its comparison key |
| Dedup.CanonIgnoresUndefined | src/utils/mde.js:36 | a member holding undefined does not change the comparison key |
| Dedup.Unique | src/utils/mde.js:32-43 | the de-duplicated list is no longer than the input and holds only input items |
| Dedup.UniqueDistinct | src/utils/mde.js:32-43 | no two items of the result compare alike under the model's key |
| Dedup.UniqueCovers | src/utils/mde.js:32-43 | every input item has an item in the result that compares alike under the model's key |
| Dedup.UniqueKeepsFirsts | src/utils/mde.js:32-43 | the result is the subsequence of first occurrences: input order is kept, and every first occurrence is present |
| Dedup.RemoveDuplicate | src/utils/mde.js:32-43 | the loop with its set of seen keys computes `Unique` |
| Entities.ProjectionFollowsTable | src/utils/mde.js:52-113 | a projection holds exactly its type's fields in table order, with sha256 appended for a Process whose file name carries a hash; the keys are distinct; each value is the entity's own, except the Process creation time, which goes through removeTimeZone |
| Entities.ProjectionKeys | src/utils/mde.js:55-113 | the projection's keys are its type's table, plus sha256 for a hash-carrying Process, and none for an unsupported type |
| Entities.ProjectionValues | src/utils/mde.js:55-113 | every projected value is read from the entity under the same key, except the normalised Process creation time |
| Entities.ProcessProjection | src/utils/mde.js:71-91 | a Process projection carries the normalised creation time; it carries sha256 exactly when fileName is truthy and not a shell or script interpreter, and then with the entity's value; it never carries fileName |
| Entities.ProcessHashExamples | src/utils/mde.js:81-90 | a Process from cmd.exe loses its hash; one from evil.exe keeps it |
| Entities.ParseEntities | src/utils/mde.js:52-117 | the loop that pushes each projection and de-duplicates computes `ParsedEntities` |
| Entities.ParsedEntitiesProperties | src/utils/mde.js:52-117 | the parsed list is no longer than the input, holds projections of input entities only, holds no two that compare alike under the model's key, and covers every entity's projection |
| Entities.ParsedEntitiesEmptyIff | src/utils/mde.js:52-117 | the parsed list is empty exactly when the entity list is |
| Entities.SingleEntityParses | src/utils/mde.js:52-117 | a one-entity list parses to that entity's projection |
| Entities.UnsupportedProjectEmpty | src/utils/mde.js:55-114 | entities of unsupported types all project to `{}` |
| Entities.DuplicateEntityCollapses | src/utils/mde.js:114-116 | two identical entities leave one projection |
| Assemblers.ParseM365Logs | src/utils/mde.js:120-158 | the nested alert, device and user loops build the incident record, and the result is that record cleaned |
| Assemblers.ParseMdeLogs | src/utils/mde.js:161-178 | the field-by-field assembly builds the MDE record, and the result is that record cleaned |
| Assemblers.Mde.constructor | src/utils/mde.js:2-4 | the object holds the log it is given (null by default) |
| Assemblers.Mde.ParseLog | src/utils/mde.js:181-190 | the M365 integration gives the cleaned incident record; the MDE integration gives the cleaned alert record; there is no result exactly when the integration is neither |
| Assemblers.TimestampKept | src/utils/mde.js:46-49 | a normalised timestamp survives cleaning exactly when the original is truthy |
| Assemblers.UserTextKept | src/utils/mde.js:133 | an `account/domain` entry is never blank and never "Unknown" |
| Assemblers.UserNamesKept | src/utils/mde.js:131-137 | cleaning never drops a logged-on user entry |
| Assemblers.MdeRecordKeys | src/utils/mde.js:162-174 | the MDE record has the eleven keys in the order the source sets them, all distinct |
| Assemblers.MdeOutput | src/utils/mde.js:161-178 | the cleaned MDE record holds the repaired link and each copied field when they pass the keep test; each timestamp, normalised, exactly when the original is truthy; the parsed evidence, cleaned, exactly when the input has evidence |
| Assemblers.MdeLinkAndTimes | src/utils/mde.js:164-173 | the link and the two timestamps of the cleaned MDE record |
| Assemblers.MdeCopies | src/utils/mde.js:165-171 | each copied field of the cleaned MDE record is the source field if that passes the keep test, cleaned |
| Assemblers.MdeEvidence | src/utils/mde.js:174 | the cleaned MDE record holds evidence exactly when the input evidence list is non-empty |
| Assemblers.UnsupportedEvidenceLeavesEmptyList | src/utils/mde.js:174-177 | evidence made only of unsupported entity types survives as an empty list |
| Assemblers.MdeScenario | src/utils/mde.js:161-178 | the end-to-end example: an empty threat family name and a null update time are dropped, the link becomes "https://x", the timestamp loses its fraction, and the Ip entity becomes `{ipAddress}` |
| Assemblers.DeviceRecordKeys | src/utils/mde.js:135-138 | a device record has the keys deviceDnsName and loggedOnUsers |
| Assemblers.AlertRecordKeys | src/utils/mde.js:141-153 | an alert record has the eleven keys in the order the source sets them, all distinct |
| Assemblers.M365RecordKeys | src/utils/mde.js:121-155 | the incident record has the keys incidentName, createdTime, incidentUri and alerts |
| Assemblers.DeviceOutput | src/utils/mde.js:130-138 | a cleaned device holds its DNS name when kept, and all its user entries unless it has none |
| Assemblers.AlertOutput | src/utils/mde.js:141-153 | a cleaned alert holds each timestamp exactly when truthy; each copied field when kept; the devices, cleaned, unless there are none; the parsed entities, cleaned, unless there are none |
| Assemblers.M365Output | src/utils/mde.js:120-158 | the cleaned incident holds the name and the repaired link when kept, the creation time exactly when truthy, and the cleaned alerts unless there are none |
| Assemblers.TimedAlertsSurvive | src/utils/mde.js:128-157 | every alert with a creation time appears, cleaned, in the incident's alert list |
| Assemblers.DevicesWithUsersSurvive | src/utils/mde.js:130-153 | every device with a logged-on user appears, cleaned, in the alert's device list |
| Assemblers.DuplicateEntitiesInAlert | src/utils/mde.js:140-152 | an alert that lists the same entity twice reports it at most once |

## Left out

- JSON text is not modelled. `parseLog` starts with `JSON.parse`, and both
  assemblers end with `JSON.stringify`. The model takes the parsed value and
  returns the cleaned value.
- The two `console.log` calls of the assemblers are not modelled. Neither is the
  File branch's diagnostic decode of `filePath` through `Buffer` (lines 57-65):
  it only logs and never affects the result.
- Numbers are whole numbers. The normaliser does no arithmetic, so floating
  point, `NaN` and `-0` play no part, except in template-literal text.
- Objects are ordered member lists. A list that repeats a key cannot arise from
  parsing; where it matters, the lemmas require distinct keys.
- Inputs that make the source throw are preconditions. They cover reading a
  property of null or undefined, `removeTimeZone` on a truthy non-string,
  `replace` on a link that is not a string, and iterating over something that
  is not an array.
- Strings are iterable in JavaScript, so `for...of` over a string does not
  throw. The model requires an array instead.
- Dedup.Canon: nested values are compared as values, not as serialised text.
  The source's replacer array (the item's own sorted keys) also filters the
  keys of nested objects. Values that differ only in such filtered nested keys,
  or in ways JSON text cannot show (undefined versus null inside an array),
  count as duplicates in the source but not in the model; so do values that
  differ only in the order of a nested object's members, since the replacer
  array also fixes the key order of nested objects. In the other
  direction, the key list includes keys whose value is undefined, and it also
  filters nested objects. So two items whose key lists differ only in such
  undefined-valued keys can be duplicates in the model but not in the source:
  the extra key can let a nested member through in one item's text only.
- Cleaner.RemoveNulls: an object member keyed `__proto__` is kept as an
  ordinary member. In the source, `newObj[k] = …` on that key calls the
  inherited `__proto__` setter and adds no member, so `{"__proto__":"x"}`
  cleans to `{}` (and is then dropped from an enclosing array). The records
  the normaliser builds never use that key; only copied input objects can.
- Assemblers.UserText: an `accountName` or `domainName` that is an object
  with an own `toString` member that is not a function (`{"toString":1}`)
  makes the template literal throw a TypeError in the source; the model
  renders every object as `[object Object]` and does not exclude that case.
- Normalizers.ReplaceFirst: the replacement text `https:` has no `$` patterns,
  so `replace`'s pattern expansion is not modelled.
- Assemblers.Mde.ParseLog: an unknown integration, where the source falls off
  the end of the method and returns `undefined`, is modelled as `None`.
- Assemblers.Mde: the class holds the `logs` field only. The other methods
  never touch `this` except to call each other, so they are functions and
  methods of the modules above.
- The Vue router and the Vite configuration are not part of this model.
