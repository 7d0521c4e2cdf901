/** `parseEntities`: each entity of an alert is projected onto the fixed field
    set of its `entityType`, and the projections are de-duplicated. */
module Entities {
  import opened Json
  import opened Normalizers
  import opened Dedup

  /** The closed set of entity types the parser recognises; any other
      `entityType` (or none) is `Unsupported`. */
  datatype EntityType = File | Process | Ip | Domain | Registry | User | CloudApplication | Url | Unsupported

  function TypeOf(e: Json): EntityType
    requires !Nullish(e)
  {
    var t := Get(e, "entityType");
    if t == Str("File") then File
    else if t == Str("Process") then Process
    else if t == Str("Ip") then Ip
    else if t == Str("Domain") then Domain
    else if t == Str("Registry") then Registry
    else if t == Str("User") then User
    else if t == Str("CloudApplication") then CloudApplication
    else if t == Str("Url") then Url
    else Unsupported
  }

  /** Shell and script interpreters whose hashes a Process projection omits
      (`Array.prototype.includes` compares strictly, so only these strings match). */
  const ShellNames: seq<Json> :=
    [Str("cmd.exe"), Str("powershell.exe"), Str("powershell_ise.exe"), Str("wscript.exe"), Str("cscript.exe")]

  /** The condition under which a Process projection gains `sha256`. */
  predicate CarriesHash(fileName: Json) {
    Truthy(fileName) && fileName !in ShellNames
  }

  /** What `parseEntities` reads from one entity without throwing: the entity
      is not null or undefined, and a Process entity's creation time is one
      `removeTimeZone` accepts. */
  predicate EntityArgument(e: Json) {
    !Nullish(e) && (TypeOf(e) == Process ==> TimeArgument(Get(e, "processCreationTime")))
  }

  function Copy(e: Json, key: string): Member
    requires !Nullish(e)
  {
    Member(key, Get(e, key))
  }

  /** The projection of one entity, an object literal whose members hold
      `undefined` where the entity lacks the field. */
  function Project(e: Json): Json
    requires EntityArgument(e)
  {
    match TypeOf(e)
    case File => Obj([Copy(e, "fileName"), Copy(e, "filePath"), Copy(e, "sha256")])
    case Process =>
      var process := [
        Copy(e, "processCommandLine"), Copy(e, "accountName"), Copy(e, "domainName"),
        Copy(e, "userSid"), Copy(e, "userPrincipalName"), Copy(e, "detectionStatus"),
        Member("processCreationTime", RemoveTimeZone(Get(e, "processCreationTime")))];
      Obj(if CarriesHash(Get(e, "fileName")) then process + [Copy(e, "sha256")] else process)
    case Ip => Obj([Copy(e, "ipAddress")])
    case Domain => Obj([Copy(e, "domainName")])
    case Registry => Obj([Copy(e, "registryKey"), Copy(e, "registryValueType"), Copy(e, "registryValue")])
    case User => Obj([Copy(e, "accountName"), Copy(e, "domainName"), Copy(e, "userSid"), Copy(e, "userPrincipalName")])
    case CloudApplication => Obj([Copy(e, "applicationName")])
    case Url => Obj([Copy(e, "url")])
    case Unsupported => Obj([])
  }

  /** The field table of the entity types. */
  function FieldsOf(t: EntityType): seq<string> {
    match t
    case File => ["fileName", "filePath", "sha256"]
    case Process => ["processCommandLine", "accountName", "domainName", "userSid",
                     "userPrincipalName", "detectionStatus", "processCreationTime"]
    case Ip => ["ipAddress"]
    case Domain => ["domainName"]
    case Registry => ["registryKey", "registryValueType", "registryValue"]
    case User => ["accountName", "domainName", "userSid", "userPrincipalName"]
    case CloudApplication => ["applicationName"]
    case Url => ["url"]
    case Unsupported => []
  }

  /** A projection holds exactly the fields of its entity type's table, in
      table order (a Process projection with `sha256` appended when its file
      name carries a hash), each copied from the entity, except that a
      Process creation time is passed through `removeTimeZone`; the keys are
      distinct, and an unsupported type projects to `{}`. */
  lemma ProjectionFollowsTable(e: Json)
    requires EntityArgument(e)
    ensures Project(e).Obj?
    ensures var ms := Project(e).members;
      && KeysOf(ms) == FieldsOf(TypeOf(e)) +
           (if TypeOf(e) == Process && CarriesHash(Get(e, "fileName")) then ["sha256"] else [])
      && DistinctKeys(ms)
      && forall i :: 0 <= i < |ms| ==>
           ms[i].value == if TypeOf(e) == Process && ms[i].key == "processCreationTime"
                          then RemoveTimeZone(Get(e, ms[i].key)) else Get(e, ms[i].key)
  {
    var ms := Project(e).members;
    ProjectionKeys(e);
    TableDistinct();
    assert forall i :: 0 <= i < |ms| ==> ms[i].key == KeysOf(ms)[i];
    ProjectionValues(e);
  }

  lemma ProjectionValues(e: Json)
    requires EntityArgument(e)
    ensures var ms := Project(e).members;
      forall i :: 0 <= i < |ms| ==>
        ms[i].value == if TypeOf(e) == Process && ms[i].key == "processCreationTime"
                       then RemoveTimeZone(Get(e, ms[i].key)) else Get(e, ms[i].key)
  {
    var ms := Project(e).members;
    if TypeOf(e) == Process {
      forall i | 0 <= i < |ms| && i != 6 ensures ms[i] == Copy(e, ms[i].key) {
      }
      assert ms[6].key == "processCreationTime";
      assert forall i :: 0 <= i < |ms| && i != 6 ==> ms[i].key != "processCreationTime";
    } else {
      forall i | 0 <= i < |ms| ensures ms[i] == Copy(e, ms[i].key) {
      }
    }
  }

  lemma ProjectionKeys(e: Json)
    requires EntityArgument(e)
    ensures Project(e).Obj?
    ensures KeysOf(Project(e).members) == FieldsOf(TypeOf(e)) +
      (if TypeOf(e) == Process && CarriesHash(Get(e, "fileName")) then ["sha256"] else [])
  {
    match TypeOf(e)
    case Process =>
      if CarriesHash(Get(e, "fileName")) {
      }
    case _ =>
  }

  lemma TableDistinct()
    ensures forall t :: DistinctStrings(FieldsOf(t) + (if t == Process then ["sha256"] else []))
    ensures forall t :: DistinctStrings(FieldsOf(t))
  {
  }

  /** A Process projection carries `processCreationTime` with its time zone
      removed, carries `sha256` exactly when `fileName` is truthy and not a
      shell or script interpreter, and never carries `fileName`. */
  lemma ProcessProjection(e: Json)
    requires EntityArgument(e) && TypeOf(e) == Process
    ensures var ms := Project(e).members;
      && Lookup(ms, "processCreationTime") == RemoveTimeZone(Get(e, "processCreationTime"))
      && (HasKey(ms, "sha256") <==> CarriesHash(Get(e, "fileName")))
      && (HasKey(ms, "sha256") ==> Lookup(ms, "sha256") == Get(e, "sha256"))
      && !HasKey(ms, "fileName")
  {
    var ms := Project(e).members;
    ProjectionFollowsTable(e);
    ProcessTable();
    var keys := KeysOf(ms);
    assert "sha256" in keys <==> CarriesHash(Get(e, "fileName")) by {
      if CarriesHash(Get(e, "fileName")) {
        assert keys[7] == "sha256";
      }
    }
    HasKeyIff(ms, "sha256");
    HasKeyIff(ms, "fileName");
    assert ms[6].key == "processCreationTime" by {
      assert ms[6].key == keys[6];
    }
    LookupDistinct(ms, "processCreationTime");
    if CarriesHash(Get(e, "fileName")) {
      assert ms[7].key == "sha256" by {
        assert ms[7].key == keys[7];
      }
      LookupDistinct(ms, "sha256");
    }
  }

  lemma ProcessTable()
    ensures |FieldsOf(Process)| == 7 && FieldsOf(Process)[6] == "processCreationTime"
    ensures "sha256" !in FieldsOf(Process) && "fileName" !in FieldsOf(Process) + ["sha256"]
  {
  }

  lemma HasKeyIff(ms: seq<Member>, k: string)
    ensures HasKey(ms, k) <==> k in KeysOf(ms)
  {
    if HasKey(ms, k) {
      var i :| 0 <= i < |ms| && ms[i].key == k;
      assert KeysOf(ms)[i] == k;
    }
  }

  /** A Process started from `cmd.exe` drops its hash; one started from an
      unusual binary keeps it. */
  lemma ProcessHashExamples(cmd: Json, evil: Json)
    requires EntityArgument(cmd) && TypeOf(cmd) == Process && Get(cmd, "fileName") == Str("cmd.exe")
    requires EntityArgument(evil) && TypeOf(evil) == Process && Get(evil, "fileName") == Str("evil.exe")
    ensures !HasKey(Project(cmd).members, "sha256")
    ensures Lookup(Project(evil).members, "sha256") == Get(evil, "sha256")
  {
    ProcessProjection(cmd);
    assert Str("evil.exe") !in ShellNames;
    ProcessProjection(evil);
  }

  predicate EntitiesArgument(entities: seq<Json>) {
    forall i :: 0 <= i < |entities| ==> EntityArgument(entities[i])
  }

  function Projections(entities: seq<Json>): (r: seq<Json>)
    requires EntitiesArgument(entities)
    ensures |r| == |entities|
  {
    seq(|entities|, i requires 0 <= i < |entities| && EntitiesArgument(entities) => Project(entities[i]))
  }

  /** What `parseEntities` returns. */
  function ParsedEntities(entities: seq<Json>): seq<Json>
    requires EntitiesArgument(entities)
  {
    Unique(Projections(entities))
  }

  /** `parseEntities` as the source runs it: push every projection, then
      de-duplicate. */
  method ParseEntities(entities: seq<Json>) returns (r: seq<Json>)
    requires EntitiesArgument(entities)
    ensures r == ParsedEntities(entities)
  {
    var e: seq<Json> := [];
    for i := 0 to |entities|
      invariant e == Projections(entities[..i])
    {
      assert entities[..i + 1] == entities[..i] + [entities[i]];
      e := e + [Project(entities[i])];
    }
    assert entities[..|entities|] == entities;
    r := RemoveDuplicate(e);
  }

  /** The parsed list is no longer than the input, holds projections of the
      input's entities only, holds no two that compare equal, and holds one
      equal to every entity's projection. */
  lemma ParsedEntitiesProperties(entities: seq<Json>)
    requires EntitiesArgument(entities)
    ensures var r := ParsedEntities(entities);
      && |r| <= |entities|
      && (forall x :: x in r ==> exists i :: 0 <= i < |entities| && x == Project(entities[i]))
      && (forall i, j :: 0 <= i < j < |r| ==> Canon(r[i]) != Canon(r[j]))
      && (forall i :: 0 <= i < |entities| ==> SeenIn(r, Canon(Project(entities[i]))))
  {
    var p := Projections(entities);
    UniqueDistinct(p);
    UniqueCovers(p);
    forall x | x in ParsedEntities(entities)
      ensures exists i :: 0 <= i < |entities| && x == Project(entities[i])
    {
      var i :| 0 <= i < |p| && p[i] == x;
    }
    forall i | 0 <= i < |entities| ensures SeenIn(ParsedEntities(entities), Canon(Project(entities[i]))) {
      assert p[i] == Project(entities[i]);
    }
  }

  /** The parsed list is empty exactly when the entity list is. */
  lemma ParsedEntitiesEmptyIff(entities: seq<Json>)
    requires EntitiesArgument(entities)
    ensures ParsedEntities(entities) == [] <==> entities == []
  {
    if entities != [] {
      UniqueCovers(Projections(entities));
      assert SeenIn(ParsedEntities(entities), Canon(Projections(entities)[0]));
    }
  }

  /** A one-entity list parses to that entity's projection. */
  lemma SingleEntityParses(e: Json)
    requires EntityArgument(e)
    ensures ParsedEntities([e]) == [Project(e)]
  {
    var p := Projections([e]);
    assert p[..0] == [];
    assert Unique(p) == Unique(p[..0]) + [Project(e)];
  }

  /** Entities of unsupported types all project to `{}`. */
  lemma UnsupportedProjectEmpty(entities: seq<Json>)
    requires EntitiesArgument(entities)
    requires forall i :: 0 <= i < |entities| ==> TypeOf(entities[i]) == Unsupported
    ensures forall x :: x in ParsedEntities(entities) ==> x == Obj([])
  {
    var p := Projections(entities);
    forall x | x in ParsedEntities(entities) ensures x == Obj([]) {
      var i :| 0 <= i < |p| && p[i] == x;
    }
  }

  /** Two identical entities in one list leave one projection. */
  lemma DuplicateEntityCollapses(e: Json)
    requires EntityArgument(e)
    ensures ParsedEntities([e, e]) == [Project(e)]
  {
    var p := Projections([e, e]);
    assert p == [Project(e), Project(e)];
    assert p[..1] == [Project(e)];
    assert p[..1][..0] == [];
    assert Canon(p[..1][0]) == Canon(Project(e));
    assert SeenIn(p[..1], Canon(Project(e)));
    assert Unique(p[..1]) == [Project(e)];
    assert p[..|p| - 1] == p[..1];
    assert Unique(p) == Unique(p[..1]);
  }
}
