/** The two shape-specific assemblers and the dispatcher. `parseM365Logs`
    builds an incident record with its alerts, each with its devices (and
    their logged-on users) and its parsed entities; `parseMDELogs` builds a
    flat alert record with its parsed evidence. Both repair the defanged
    link, normalise timestamps and clean the whole record once. The records
    are returned as values: their serialisation to JSON text is not modelled. */
module Assemblers {
  import opened Json
  import opened Sequences
  import opened Normalizers
  import opened Dedup
  import opened Entities
  import opened Cleaner

  const M365Integration: string := "Wazuh-Microsoft-Threat-Protection"
  const MdeIntegration: string := "Wazuh-MDE"

  /** `${user.accountName}/${user.domainName}` */
  function UserText(user: Json): string
    requires !Nullish(user)
  {
    ToText(Get(user, "accountName")) + "/" + ToText(Get(user, "domainName"))
  }

  predicate UsersArgument(users: seq<Json>) {
    forall i :: 0 <= i < |users| ==> !Nullish(users[i])
  }

  predicate DeviceArgument(device: Json) {
    && !Nullish(device)
    && Get(device, "loggedOnUsers").Arr?
    && UsersArgument(Get(device, "loggedOnUsers").items)
  }

  predicate DevicesArgument(devices: seq<Json>) {
    forall i :: 0 <= i < |devices| ==> DeviceArgument(devices[i])
  }

  /** What `parseM365Logs` reads from one alert without throwing. */
  predicate AlertArgument(alert: Json) {
    && !Nullish(alert)
    && Get(alert, "devices").Arr? && DevicesArgument(Get(alert, "devices").items)
    && Get(alert, "entities").Arr? && EntitiesArgument(Get(alert, "entities").items)
    && TimeArgument(Get(alert, "creationTime"))
    && TimeArgument(Get(alert, "lastUpdatedTime"))
  }

  predicate AlertsArgument(alerts: seq<Json>) {
    forall i :: 0 <= i < |alerts| ==> AlertArgument(alerts[i])
  }

  /** What `parseM365Logs` reads from a log without throwing. */
  predicate M365Argument(log: Json) {
    && !Nullish(log)
    && var incidents := Get(log, "incidents");
    && !Nullish(incidents)
    && TimeArgument(Get(incidents, "createdTime"))
    && Get(incidents, "incidentUri").Str?
    && Get(incidents, "alerts").Arr? && AlertsArgument(Get(incidents, "alerts").items)
  }

  function UserNames(users: seq<Json>): (r: seq<Json>)
    requires UsersArgument(users)
    ensures |r| == |users|
  {
    seq(|users|, i requires 0 <= i < |users| && UsersArgument(users) => Str(UserText(users[i])))
  }

  function DeviceRecord(device: Json): Json
    requires DeviceArgument(device)
  {
    Obj([Copy(device, "deviceDnsName"),
         Member("loggedOnUsers", Arr(UserNames(Get(device, "loggedOnUsers").items)))])
  }

  function DeviceRecords(devices: seq<Json>): (r: seq<Json>)
    requires DevicesArgument(devices)
    ensures |r| == |devices|
  {
    seq(|devices|, i requires 0 <= i < |devices| && DevicesArgument(devices) => DeviceRecord(devices[i]))
  }

  function AlertRecord(alert: Json): Json
    requires AlertArgument(alert)
  {
    Obj([
      Member("creationTime", RemoveTimeZone(Get(alert, "creationTime"))),
      Member("lastUpdatedTime", RemoveTimeZone(Get(alert, "lastUpdatedTime"))),
      Copy(alert, "alertId"), Copy(alert, "detectionSource"), Copy(alert, "detectorId"),
      Copy(alert, "title"), Copy(alert, "description"), Copy(alert, "category"),
      Copy(alert, "threatFamilyName"),
      Member("devices", Arr(DeviceRecords(Get(alert, "devices").items))),
      Member("entities", Arr(ParsedEntities(Get(alert, "entities").items)))])
  }

  function AlertRecords(alerts: seq<Json>): (r: seq<Json>)
    requires AlertsArgument(alerts)
    ensures |r| == |alerts|
  {
    seq(|alerts|, i requires 0 <= i < |alerts| && AlertsArgument(alerts) => AlertRecord(alerts[i]))
  }

  /** The incident record `parseM365Logs` assembles before cleaning. */
  function M365Record(log: Json): Json
    requires M365Argument(log)
  {
    var incidents := Get(log, "incidents");
    Obj([
      Copy(incidents, "incidentName"),
      Member("createdTime", RemoveTimeZone(Get(incidents, "createdTime"))),
      Member("incidentUri", Str(RepairUri(Get(incidents, "incidentUri").s))),
      Member("alerts", Arr(AlertRecords(Get(incidents, "alerts").items)))])
  }

  /** What `parseMDELogs` reads from a log without throwing. */
  predicate MdeArgument(log: Json) {
    && !Nullish(log)
    && var mde := Get(log, "mde");
    && !Nullish(mde)
    && Get(mde, "link").Str?
    && TimeArgument(Get(mde, "alertCreationTime"))
    && TimeArgument(Get(mde, "lastUpdateTime"))
    && Get(mde, "evidence").Arr? && EntitiesArgument(Get(mde, "evidence").items)
  }

  /** The alert record `parseMDELogs` assembles before cleaning. */
  function MdeRecord(log: Json): Json
    requires MdeArgument(log)
  {
    var mde := Get(log, "mde");
    Obj([
      Member("link", Str(RepairUri(Get(mde, "link").s))),
      Copy(mde, "incidentId"), Copy(mde, "detectionSource"), Copy(mde, "category"),
      Copy(mde, "threatFamilyName"), Copy(mde, "title"), Copy(mde, "description"),
      Copy(mde, "computerDnsName"),
      Member("alertCreationTime", RemoveTimeZone(Get(mde, "alertCreationTime"))),
      Member("lastUpdateTime", RemoveTimeZone(Get(mde, "lastUpdateTime"))),
      Member("evidence", Arr(ParsedEntities(Get(mde, "evidence").items)))])
  }

  /** `parseM365Logs` as the source runs it: the record is built field by
      field, alerts, devices and users in nested loops, then cleaned. */
  method ParseM365Logs(log: Json) returns (r: Json)
    requires M365Argument(log)
    ensures r == RemoveNulls(M365Record(log))
  {
    var incidents := Get(log, "incidents");
    ghost var record := M365Record(log).members;
    var logs: seq<Member> := [];
    logs := logs + [Copy(incidents, "incidentName")];
    logs := logs + [Member("createdTime", RemoveTimeZone(Get(incidents, "createdTime")))];
    logs := logs + [Member("incidentUri", Str(RepairUri(Get(incidents, "incidentUri").s)))];

    var alerts := Get(incidents, "alerts").items;
    var a: seq<Json> := [];
    for i := 0 to |alerts|
      invariant |a| == i
      invariant forall j :: 0 <= j < i ==> a[j] == AlertRecord(alerts[j])
    {
      var alert := alerts[i];
      var devices := Get(alert, "devices").items;
      var d: seq<Json> := [];
      for k := 0 to |devices|
        invariant |d| == k
        invariant forall j :: 0 <= j < k ==> d[j] == DeviceRecord(devices[j])
      {
        var device := devices[k];
        var users := Get(device, "loggedOnUsers").items;
        var names: seq<Json> := [];
        for m := 0 to |users|
          invariant |names| == m
          invariant forall j :: 0 <= j < m ==> names[j] == Str(UserText(users[j]))
        {
          names := names + [Str(UserText(users[m]))];
        }
        assert names == UserNames(users);
        d := d + [Obj([Copy(device, "deviceDnsName"), Member("loggedOnUsers", Arr(names))])];
      }
      assert d == DeviceRecords(devices);
      var e := ParseEntities(Get(alert, "entities").items);
      a := a + [Obj([
        Member("creationTime", RemoveTimeZone(Get(alert, "creationTime"))),
        Member("lastUpdatedTime", RemoveTimeZone(Get(alert, "lastUpdatedTime"))),
        Copy(alert, "alertId"), Copy(alert, "detectionSource"), Copy(alert, "detectorId"),
        Copy(alert, "title"), Copy(alert, "description"), Copy(alert, "category"),
        Copy(alert, "threatFamilyName"),
        Member("devices", Arr(d)),
        Member("entities", Arr(e))])];
    }
    assert a == AlertRecords(alerts);
    logs := logs + [Member("alerts", Arr(a))];
    assert logs == record;
    r := Clean(Obj(logs));
  }

  /** `parseMDELogs` as the source runs it. */
  method ParseMdeLogs(log: Json) returns (r: Json)
    requires MdeArgument(log)
    ensures r == RemoveNulls(MdeRecord(log))
  {
    var mde := Get(log, "mde");
    ghost var record := MdeRecord(log).members;
    var logs: seq<Member> := [];
    logs := logs + [Member("link", Str(RepairUri(Get(mde, "link").s)))];
    logs := logs + [Copy(mde, "incidentId")];
    logs := logs + [Copy(mde, "detectionSource")];
    logs := logs + [Copy(mde, "category")];
    logs := logs + [Copy(mde, "threatFamilyName")];
    logs := logs + [Copy(mde, "title")];
    logs := logs + [Copy(mde, "description")];
    logs := logs + [Copy(mde, "computerDnsName")];
    logs := logs + [Member("alertCreationTime", RemoveTimeZone(Get(mde, "alertCreationTime")))];
    logs := logs + [Member("lastUpdateTime", RemoveTimeZone(Get(mde, "lastUpdateTime")))];
    var evidence := ParseEntities(Get(mde, "evidence").items);
    logs := logs + [Member("evidence", Arr(evidence))];
    assert logs == record;
    r := Clean(Obj(logs));
  }

  /** What `parseLog` needs: a log whose properties can be read and which
      has the shape its integration's assembler reads. */
  predicate LogArgument(log: Json) {
    && !Nullish(log)
    && (Get(log, "integration") == Str(M365Integration) ==> M365Argument(log))
    && (Get(log, "integration") == Str(MdeIntegration) ==> MdeArgument(log))
  }

  /** The normaliser object: it holds the (parsed) log it was constructed
      with and normalises it on request. */
  class Mde {
    var logs: Json

    constructor (logs: Json := Null)
      ensures this.logs == logs
    {
      this.logs := logs;
    }

    /** `parseLog`: route on `integration`; any other value (or none) gives
        no result. */
    method ParseLog() returns (r: Option<Json>)
      requires LogArgument(logs)
      ensures Get(logs, "integration") == Str(M365Integration) ==> r == Some(RemoveNulls(M365Record(logs)))
      ensures Get(logs, "integration") == Str(MdeIntegration) ==> r == Some(RemoveNulls(MdeRecord(logs)))
      ensures r.None? <==> Get(logs, "integration") !in [Str(M365Integration), Str(MdeIntegration)]
    {
      var integration := Get(logs, "integration");
      if integration == Str(M365Integration) {
        var out := ParseM365Logs(logs);
        return Some(out);
      }
      if integration == Str(MdeIntegration) {
        var out := ParseMdeLogs(logs);
        return Some(out);
      }
      return None;
    }
  }

  /** A normalised timestamp survives cleaning exactly when the original was
      truthy: the `Z` it ends with is neither white space nor the end of
      "Unknown". */
  lemma TimestampKept(t: Json)
    requires TimeArgument(t)
    ensures Kept(RemoveTimeZone(t)) == if Truthy(t) then RemoveTimeZone(t) else Undefined
  {
    if Truthy(t) {
      RemoveTimeZoneShape(t);
      var s := RemoveTimeZone(t).s;
      assert s[|s| - 1] == 'Z' && "Unknown"[6] == 'n';
      StringKept(s, |s| - 1);
    }
  }

  /** An `account/domain` entry is never blank and never "Unknown". */
  lemma UserTextKept(user: Json)
    requires !Nullish(user)
    ensures ShouldKeep(Str(UserText(user)))
  {
    var a := ToText(Get(user, "accountName"));
    var s := UserText(user);
    assert s[|a|] == '/';
    assert s != "Unknown" by {
      assert '/' !in "Unknown";
    }
    StringKept(s, |a|);
  }

  /** Cleaning never drops a logged-on user: the list comes through whole. */
  lemma UserNamesKept(users: seq<Json>)
    requires UsersArgument(users)
    ensures RemoveNulls(Arr(UserNames(users))) == Arr(UserNames(users))
  {
    var names := UserNames(users);
    forall i | 0 <= i < |names| ensures ShouldKeep(names[i]) && Pristine(names[i]) {
      UserTextKept(users[i]);
    }
    CleanPristine(Arr(names));
  }

  const MdeCopiedFields: seq<string> :=
    ["incidentId", "detectionSource", "category", "threatFamilyName", "title", "description", "computerDnsName"]

  /** The keys of the MDE record, in the order the source sets them. */
  const MdeFields: seq<string> :=
    ["link", "incidentId", "detectionSource", "category", "threatFamilyName", "title", "description",
     "computerDnsName", "alertCreationTime", "lastUpdateTime", "evidence"]

  lemma MdeRecordKeys(log: Json)
    requires MdeArgument(log)
    ensures MdeRecord(log).Obj? && KeysOf(MdeRecord(log).members) == MdeFields
    ensures DistinctKeys(MdeRecord(log).members)
  {
    var ms := MdeRecord(log).members;
    TablesDistinct();
    assert KeysOf(ms) == MdeFields;
    assert forall i :: 0 <= i < |ms| ==> ms[i].key == KeysOf(ms)[i];
  }

  /** The normalised MDE record: the repaired link when it passes the keep
      test; each copied field when it passes the keep test, cleaned; each
      timestamp, normalised, exactly when the original is truthy; and the
      parsed evidence, cleaned, unless the parsed list is empty. */
  lemma MdeOutput(log: Json)
    requires MdeArgument(log)
    ensures RemoveNulls(MdeRecord(log)).Obj?
    ensures var mde := Get(log, "mde");
      var out := RemoveNulls(MdeRecord(log)).members;
      var evidence := ParsedEntities(Get(mde, "evidence").items);
      && Lookup(out, "link") == Kept(Str(RepairUri(Get(mde, "link").s)))
      && (forall k :: k in MdeCopiedFields ==> Lookup(out, k) == Kept(Get(mde, k)))
      && Lookup(out, "alertCreationTime") ==
           (if Truthy(Get(mde, "alertCreationTime")) then RemoveTimeZone(Get(mde, "alertCreationTime")) else Undefined)
      && Lookup(out, "lastUpdateTime") ==
           (if Truthy(Get(mde, "lastUpdateTime")) then RemoveTimeZone(Get(mde, "lastUpdateTime")) else Undefined)
      && Lookup(out, "evidence") ==
           (if Get(mde, "evidence").items == [] then Undefined else RemoveNulls(Arr(evidence)))
  {
    MdeRecordKeys(log);
    MdeLinkAndTimes(log);
    MdeCopies(log);
    MdeEvidence(log);
  }

  lemma MdeLinkAndTimes(log: Json)
    requires MdeArgument(log)
    ensures var mde := Get(log, "mde");
      var out := RemoveNulls(MdeRecord(log)).members;
      && Lookup(out, "link") == Kept(Str(RepairUri(Get(mde, "link").s)))
      && Lookup(out, "alertCreationTime") ==
           (if Truthy(Get(mde, "alertCreationTime")) then RemoveTimeZone(Get(mde, "alertCreationTime")) else Undefined)
      && Lookup(out, "lastUpdateTime") ==
           (if Truthy(Get(mde, "lastUpdateTime")) then RemoveTimeZone(Get(mde, "lastUpdateTime")) else Undefined)
  {
    var mde := Get(log, "mde");
    var ms := MdeRecord(log).members;
    MdeRecordKeys(log);
    CleanedField(ms, 0);
    CleanedField(ms, 8);
    CleanedField(ms, 9);
    TimestampKept(Get(mde, "alertCreationTime"));
    TimestampKept(Get(mde, "lastUpdateTime"));
  }

  lemma MdeCopies(log: Json)
    requires MdeArgument(log)
    ensures var mde := Get(log, "mde");
      var out := RemoveNulls(MdeRecord(log)).members;
      forall k :: k in MdeCopiedFields ==> Lookup(out, k) == Kept(Get(mde, k))
  {
    var mde := Get(log, "mde");
    var ms := MdeRecord(log).members;
    MdeRecordKeys(log);
    forall k | k in MdeCopiedFields ensures Lookup(RemoveNulls(Obj(ms)).members, k) == Kept(Get(mde, k)) {
      var j :| 0 <= j < |MdeCopiedFields| && MdeCopiedFields[j] == k;
      assert ms[j + 1] == Copy(mde, k);
      CleanedField(ms, j + 1);
    }
  }

  lemma MdeEvidence(log: Json)
    requires MdeArgument(log)
    ensures var evidence := Get(Get(log, "mde"), "evidence").items;
      var out := RemoveNulls(MdeRecord(log)).members;
      Lookup(out, "evidence") ==
        (if evidence == [] then Undefined else RemoveNulls(Arr(ParsedEntities(evidence))))
  {
    var ms := MdeRecord(log).members;
    MdeRecordKeys(log);
    CleanedField(ms, 10);
    ParsedEntitiesEmptyIff(Get(Get(log, "mde"), "evidence").items);
  }

  /** Evidence made only of entities of unsupported types survives as an
      empty list: the keep test sees the non-empty parsed list of `{}`
      projections, and cleaning that list then drops every one of them. */
  lemma UnsupportedEvidenceLeavesEmptyList(log: Json)
    requires MdeArgument(log)
    requires var evidence := Get(Get(log, "mde"), "evidence").items;
      evidence != [] && forall i :: 0 <= i < |evidence| ==> TypeOf(evidence[i]) == Unsupported
    ensures HasKey(RemoveNulls(MdeRecord(log)).members, "evidence")
    ensures Lookup(RemoveNulls(MdeRecord(log)).members, "evidence") == Arr([])
  {
    var evidence := Get(Get(log, "mde"), "evidence").items;
    var parsed := ParsedEntities(evidence);
    MdeOutput(log);
    ParsedEntitiesEmptyIff(evidence);
    UnsupportedProjectEmpty(evidence);
    forall i | 0 <= i < |parsed| ensures !ShouldKeep(RemoveNulls(parsed[i])) {
      assert parsed[i] in parsed;
    }
    CleanDropsAll(parsed);
    var ms := MdeRecord(log).members;
    MdeRecordKeys(log);
    CleanedField(ms, 10);
  }

  /** An end-to-end MDE example: an empty threat family
      name, a null update time, a defanged link, a timestamp with a
      fraction and a single Ip entity. */
  predicate ScenarioLog(log: Json) {
    && MdeArgument(log)
    && var mde := Get(log, "mde");
    && Get(mde, "link") == Str("hXXps[:]//x")
    && Get(mde, "threatFamilyName") == Str("")
    && Get(mde, "title") == Str("T")
    && Get(mde, "alertCreationTime") == Str("2024-01-01T00:00:00.000Z")
    && Get(mde, "lastUpdateTime") == Null
    && |Get(mde, "evidence").items| == 1
    && var ip := Get(mde, "evidence").items[0];
       Get(ip, "entityType") == Str("Ip") && Get(ip, "ipAddress") == Str("1.2.3.4")
  }

  /** In the example the empty threat family name and the null update time
      are dropped, the link is repaired, the timestamp loses its fraction,
      and the single Ip entity becomes `{ipAddress}`. */
  lemma MdeScenario(log: Json)
    requires ScenarioLog(log)
    ensures var out := RemoveNulls(MdeRecord(log)).members;
      && !HasKey(out, "threatFamilyName") && !HasKey(out, "lastUpdateTime")
      && Lookup(out, "link") == Str("https://x")
      && Lookup(out, "title") == Str("T")
      && Lookup(out, "alertCreationTime") == Str("2024-01-01T00:00:00Z")
      && Lookup(out, "evidence") == Arr([Obj([Member("ipAddress", Str("1.2.3.4"))])])
  {
    ScenarioDropped(log);
    ScenarioKept(log);
  }

  lemma ScenarioDropped(log: Json)
    requires ScenarioLog(log)
    ensures var out := RemoveNulls(MdeRecord(log)).members;
      !HasKey(out, "threatFamilyName") && !HasKey(out, "lastUpdateTime")
  {
    var ms := MdeRecord(log).members;
    var out := RemoveNulls(MdeRecord(log)).members;
    MdeRecordKeys(log);
    MdeOutput(log);
    assert "threatFamilyName" in MdeCopiedFields;
    assert !ShouldKeep(Str(""));
    CleanedLookup(ms, "threatFamilyName");
    CleanedLookup(ms, "lastUpdateTime");
  }

  lemma ScenarioKept(log: Json)
    requires ScenarioLog(log)
    ensures var out := RemoveNulls(MdeRecord(log)).members;
      && Lookup(out, "link") == Str("https://x")
      && Lookup(out, "title") == Str("T")
      && Lookup(out, "alertCreationTime") == Str("2024-01-01T00:00:00Z")
      && Lookup(out, "evidence") == Arr([Obj([Member("ipAddress", Str("1.2.3.4"))])])
  {
    MdeOutput(log);
    assert "title" in MdeCopiedFields;
    ScenarioTitle();
    ScenarioLink();
    ScenarioTimestamp();
    ScenarioEvidence(Get(Get(log, "mde"), "evidence").items);
  }

  lemma ScenarioLink()
    ensures Kept(Str(RepairUri("hXXps[:]//x"))) == Str("https://x")
  {
    assert "hXXps[:]//x" == "" + DefangedScheme + "//x";
    ReplaceFirstAt("", DefangedScheme, "//x", Scheme);
    assert "" + Scheme + "//x" == "https://x";
    StringKept("https://x", 0);
  }

  lemma ScenarioTitle()
    ensures Kept(Str("T")) == Str("T")
  {
    StringKept("T", 0);
  }

  lemma ScenarioTimestamp()
    ensures RemoveTimeZone(Str("2024-01-01T00:00:00.000Z")) == Str("2024-01-01T00:00:00Z")
  {
    var date := "2024-01-01T00:00:00";
    assert "2024-01-01T00:00:00.000Z" == date + "." + "000Z";
    RemoveTimeZoneCut(date, "000Z");
    assert date + "Z" == "2024-01-01T00:00:00Z";
  }

  lemma ScenarioEvidence(evidence: seq<Json>)
    requires EntitiesArgument(evidence) && |evidence| == 1
    requires Get(evidence[0], "entityType") == Str("Ip") && Get(evidence[0], "ipAddress") == Str("1.2.3.4")
    ensures ParsedEntities(evidence) != []
    ensures RemoveNulls(Arr(ParsedEntities(evidence))) == Arr([Obj([Member("ipAddress", Str("1.2.3.4"))])])
  {
    var ip := evidence[0];
    assert evidence == [ip];
    SingleEntityParses(ip);
    var o := Obj([Member("ipAddress", Str("1.2.3.4"))]);
    assert Project(ip) == o;
    StringKept("1.2.3.4", 0);
    assert Pristine(o);
    CleanPristine(Arr([o]));
  }

  const DeviceFields: seq<string> := ["deviceDnsName", "loggedOnUsers"]

  const AlertCopiedFields: seq<string> :=
    ["alertId", "detectionSource", "detectorId", "title", "description", "category", "threatFamilyName"]

  /** The keys of an alert record, in the order the source sets them. */
  const AlertFields: seq<string> :=
    ["creationTime", "lastUpdatedTime", "alertId", "detectionSource", "detectorId", "title", "description",
     "category", "threatFamilyName", "devices", "entities"]

  const M365Fields: seq<string> := ["incidentName", "createdTime", "incidentUri", "alerts"]

  lemma TablesDistinct()
    ensures DistinctStrings(MdeFields) && DistinctStrings(AlertFields)
    ensures DistinctStrings(M365Fields) && DistinctStrings(DeviceFields)
  {
  }

  lemma DeviceRecordKeys(device: Json)
    requires DeviceArgument(device)
    ensures DeviceRecord(device).Obj? && KeysOf(DeviceRecord(device).members) == DeviceFields
    ensures DistinctKeys(DeviceRecord(device).members)
  {
    var ms := DeviceRecord(device).members;
    TablesDistinct();
    assert KeysOf(ms) == DeviceFields;
    assert forall i :: 0 <= i < |ms| ==> ms[i].key == KeysOf(ms)[i];
  }

  lemma AlertRecordKeys(alert: Json)
    requires AlertArgument(alert)
    ensures AlertRecord(alert).Obj? && KeysOf(AlertRecord(alert).members) == AlertFields
    ensures DistinctKeys(AlertRecord(alert).members)
  {
    var ms := AlertRecord(alert).members;
    TablesDistinct();
    assert KeysOf(ms) == AlertFields;
    assert forall i :: 0 <= i < |ms| ==> ms[i].key == KeysOf(ms)[i];
  }

  lemma M365RecordKeys(log: Json)
    requires M365Argument(log)
    ensures M365Record(log).Obj? && KeysOf(M365Record(log).members) == M365Fields
    ensures DistinctKeys(M365Record(log).members)
  {
    var ms := M365Record(log).members;
    TablesDistinct();
    assert KeysOf(ms) == M365Fields;
    assert forall i :: 0 <= i < |ms| ==> ms[i].key == KeysOf(ms)[i];
  }

  /** A cleaned device record: its DNS name when that passes the keep test,
      and its logged-on users, every one of them, unless it has none. */
  lemma DeviceOutput(device: Json)
    requires DeviceArgument(device)
    ensures RemoveNulls(DeviceRecord(device)).Obj?
    ensures var out := RemoveNulls(DeviceRecord(device)).members;
      var users := Get(device, "loggedOnUsers").items;
      && Lookup(out, "deviceDnsName") == Kept(Get(device, "deviceDnsName"))
      && Lookup(out, "loggedOnUsers") == (if users == [] then Undefined else Arr(UserNames(users)))
  {
    var ms := DeviceRecord(device).members;
    DeviceRecordKeys(device);
    CleanedField(ms, 0);
    CleanedField(ms, 1);
    UserNamesKept(Get(device, "loggedOnUsers").items);
  }

  /** A cleaned alert record: each timestamp, normalised, exactly when the
      original is truthy; each copied field when it passes the keep test,
      cleaned; the device records, cleaned, unless the alert has no device;
      and the parsed entities, cleaned, unless the alert has no entity. */
  lemma AlertOutput(alert: Json)
    requires AlertArgument(alert)
    ensures RemoveNulls(AlertRecord(alert)).Obj?
    ensures var out := RemoveNulls(AlertRecord(alert)).members;
      var devices := Get(alert, "devices").items;
      var entities := Get(alert, "entities").items;
      && Lookup(out, "creationTime") ==
           (if Truthy(Get(alert, "creationTime")) then RemoveTimeZone(Get(alert, "creationTime")) else Undefined)
      && Lookup(out, "lastUpdatedTime") ==
           (if Truthy(Get(alert, "lastUpdatedTime")) then RemoveTimeZone(Get(alert, "lastUpdatedTime")) else Undefined)
      && (forall k :: k in AlertCopiedFields ==> Lookup(out, k) == Kept(Get(alert, k)))
      && Lookup(out, "devices") == (if devices == [] then Undefined else RemoveNulls(Arr(DeviceRecords(devices))))
      && Lookup(out, "entities") ==
           (if entities == [] then Undefined else RemoveNulls(Arr(ParsedEntities(entities))))
  {
    AlertTimes(alert);
    AlertCopies(alert);
    AlertLists(alert);
  }

  lemma AlertTimes(alert: Json)
    requires AlertArgument(alert)
    ensures var out := RemoveNulls(AlertRecord(alert)).members;
      && Lookup(out, "creationTime") ==
           (if Truthy(Get(alert, "creationTime")) then RemoveTimeZone(Get(alert, "creationTime")) else Undefined)
      && Lookup(out, "lastUpdatedTime") ==
           (if Truthy(Get(alert, "lastUpdatedTime")) then RemoveTimeZone(Get(alert, "lastUpdatedTime")) else Undefined)
  {
    var ms := AlertRecord(alert).members;
    AlertRecordKeys(alert);
    CleanedField(ms, 0);
    CleanedField(ms, 1);
    TimestampKept(Get(alert, "creationTime"));
    TimestampKept(Get(alert, "lastUpdatedTime"));
  }

  lemma AlertCopies(alert: Json)
    requires AlertArgument(alert)
    ensures var out := RemoveNulls(AlertRecord(alert)).members;
      forall k :: k in AlertCopiedFields ==> Lookup(out, k) == Kept(Get(alert, k))
  {
    var ms := AlertRecord(alert).members;
    AlertRecordKeys(alert);
    forall k | k in AlertCopiedFields ensures Lookup(RemoveNulls(Obj(ms)).members, k) == Kept(Get(alert, k)) {
      var j :| 0 <= j < |AlertCopiedFields| && AlertCopiedFields[j] == k;
      assert ms[j + 2] == Copy(alert, k);
      CleanedField(ms, j + 2);
    }
  }

  lemma AlertLists(alert: Json)
    requires AlertArgument(alert)
    ensures var out := RemoveNulls(AlertRecord(alert)).members;
      var devices := Get(alert, "devices").items;
      var entities := Get(alert, "entities").items;
      && Lookup(out, "devices") == (if devices == [] then Undefined else RemoveNulls(Arr(DeviceRecords(devices))))
      && Lookup(out, "entities") ==
           (if entities == [] then Undefined else RemoveNulls(Arr(ParsedEntities(entities))))
  {
    var ms := AlertRecord(alert).members;
    AlertRecordKeys(alert);
    CleanedField(ms, 9);
    CleanedField(ms, 10);
    ParsedEntitiesEmptyIff(Get(alert, "entities").items);
  }

  /** The cleaned incident record: its name when that passes the keep test;
      its creation time, normalised, exactly when the original is truthy;
      the repaired incident link when that passes the keep test; and the
      alert records, cleaned, unless the incident has no alert. */
  lemma M365Output(log: Json)
    requires M365Argument(log)
    ensures RemoveNulls(M365Record(log)).Obj?
    ensures var incidents := Get(log, "incidents");
      var out := RemoveNulls(M365Record(log)).members;
      var alerts := Get(incidents, "alerts").items;
      && Lookup(out, "incidentName") == Kept(Get(incidents, "incidentName"))
      && Lookup(out, "createdTime") ==
           (if Truthy(Get(incidents, "createdTime")) then RemoveTimeZone(Get(incidents, "createdTime")) else Undefined)
      && Lookup(out, "incidentUri") == Kept(Str(RepairUri(Get(incidents, "incidentUri").s)))
      && Lookup(out, "alerts") == (if alerts == [] then Undefined else RemoveNulls(Arr(AlertRecords(alerts))))
  {
    var ms := M365Record(log).members;
    M365RecordKeys(log);
    CleanedField(ms, 0);
    CleanedField(ms, 1);
    CleanedField(ms, 2);
    CleanedField(ms, 3);
    TimestampKept(Get(Get(log, "incidents"), "createdTime"));
  }

  /** A cleaned object that still reads a defined value passes the keep test. */
  lemma DefinedReadKept(out: seq<Member>, k: string)
    requires Lookup(out, k) != Undefined
    ensures ShouldKeep(Obj(out))
  {
  }

  /** Every alert that has a creation time appears, cleaned, in the
      incident's cleaned alert list. */
  lemma TimedAlertsSurvive(alerts: seq<Json>)
    requires AlertsArgument(alerts)
    ensures forall i :: 0 <= i < |alerts| && Truthy(Get(alerts[i], "creationTime")) ==>
      RemoveNulls(AlertRecord(alerts[i])) in RemoveNulls(Arr(AlertRecords(alerts))).items
  {
    var records := AlertRecords(alerts);
    var _ := CleanArray(records);
    forall i | 0 <= i < |alerts| && Truthy(Get(alerts[i], "creationTime"))
      ensures ShouldKeep(RemoveNulls(records[i]))
    {
      AlertTimes(alerts[i]);
      AlertOutput(alerts[i]);
      RemoveTimeZoneShape(Get(alerts[i], "creationTime"));
      DefinedReadKept(RemoveNulls(AlertRecord(alerts[i])).members, "creationTime");
    }
  }

  /** Every device with a logged-on user appears, cleaned, in the alert's
      cleaned device list. */
  lemma DevicesWithUsersSurvive(devices: seq<Json>)
    requires DevicesArgument(devices)
    ensures forall i :: 0 <= i < |devices| && Get(devices[i], "loggedOnUsers").items != [] ==>
      RemoveNulls(DeviceRecord(devices[i])) in RemoveNulls(Arr(DeviceRecords(devices))).items
  {
    var records := DeviceRecords(devices);
    var _ := CleanArray(records);
    forall i | 0 <= i < |devices| && Get(devices[i], "loggedOnUsers").items != []
      ensures ShouldKeep(RemoveNulls(records[i]))
    {
      DeviceOutput(devices[i]);
      DefinedReadKept(RemoveNulls(DeviceRecord(devices[i])).members, "loggedOnUsers");
    }
  }

  /** An end-to-end M365 example: an alert listing the same
      entity twice reports it at most once (once, unless its projection
      cleans to nothing). */
  lemma DuplicateEntitiesInAlert(alert: Json, e: Json)
    requires AlertArgument(alert) && Get(alert, "entities").items == [e, e]
    ensures var out := RemoveNulls(AlertRecord(alert)).members;
      var p := RemoveNulls(Project(e));
      Lookup(out, "entities") == Arr(if ShouldKeep(p) then [p] else [])
  {
    AlertLists(alert);
    DuplicateEntityCollapses(e);
    var p := RemoveNulls(Project(e));
    assert CleanAll([Project(e)]) == [p];
    assert RemoveNulls(Arr([Project(e)])) == Arr(Filter(ShouldKeep, [p]));
    FilterSingle(ShouldKeep, p);
  }
}
