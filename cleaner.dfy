/** The recursive cleaner `removeNulls`: arrays clean their elements and then
    drop those that fail the keep test; objects keep a key when its ORIGINAL
    value passes the keep test and store the cleaned value under it. */
module Cleaner {
  import opened Json
  import opened Sequences

  predicate KeepMember(m: Member) {
    ShouldKeep(m.value)
  }

  function RemoveNulls(v: Json): Json {
    match v
    case Arr(items) =>
      Arr(Filter(ShouldKeep, seq(|items|, i requires 0 <= i < |items| => RemoveNulls(items[i]))))
    case Obj(ms) =>
      var kept := Filter(KeepMember, ms);
      Obj(seq(|kept|, i requires 0 <= i < |kept| =>
        assert kept[i] in ms;
        Member(kept[i].key, RemoveNulls(kept[i].value))))
    case _ => v
  }

  /** Every element of an array, cleaned, before the keep filter runs. */
  function CleanAll(items: seq<Json>): (r: seq<Json>)
    ensures |r| == |items|
  {
    seq(|items|, i requires 0 <= i < |items| => RemoveNulls(items[i]))
  }

  function CleanMember(m: Member): Member {
    Member(m.key, RemoveNulls(m.value))
  }

  predicate EmptyContainer(v: Json) {
    v == Arr([]) || v == Obj([])
  }

  /** Cleaning an array cleans every element and then drops those that fail
      the keep test. The index list `idx` says where each survivor comes
      from: survivors are the passing cleaned elements, in their order, and
      every passing position is among them, so nothing is added, dropped
      wrongly or collapsed. */
  lemma CleanArray(items: seq<Json>) returns (idx: seq<nat>)
    ensures RemoveNulls(Arr(items)).Arr?
    ensures var r := RemoveNulls(Arr(items)).items;
      && |idx| == |r| <= |items|
      && (forall i :: 0 <= i < |r| ==> idx[i] < |items| && ShouldKeep(r[i]) && r[i] == RemoveNulls(items[idx[i]]))
      && (forall i, j :: 0 <= i < j < |idx| ==> idx[i] < idx[j])
      && (forall j :: 0 <= j < |items| && ShouldKeep(RemoveNulls(items[j])) ==> j in idx)
      && (forall j :: 0 <= j < |items| && ShouldKeep(RemoveNulls(items[j])) ==> RemoveNulls(items[j]) in r)
  {
    var r := RemoveNulls(Arr(items)).items;
    assert r == Filter(ShouldKeep, CleanAll(items));
    idx := FilterEmbedding(ShouldKeep, CleanAll(items));
    forall j | 0 <= j < |items| && ShouldKeep(RemoveNulls(items[j]))
      ensures j in idx && RemoveNulls(items[j]) in r
    {
      assert CleanAll(items)[j] == RemoveNulls(items[j]);
    }
  }

  /** An array none of whose elements passes the keep test once cleaned
      becomes the empty array. */
  lemma CleanDropsAll(items: seq<Json>)
    requires forall i :: 0 <= i < |items| ==> !ShouldKeep(RemoveNulls(items[i]))
    ensures RemoveNulls(Arr(items)) == Arr([])
  {
    FilterNonePass(ShouldKeep, CleanAll(items));
  }

  /** Cleaning an object keeps a member exactly when its original value
      passes the keep test, stores the cleaned value under its key, keeps
      the members' order and adds no key. */
  lemma CleanObject(ms: seq<Member>) returns (idx: seq<nat>)
    ensures RemoveNulls(Obj(ms)).Obj?
    ensures var r := RemoveNulls(Obj(ms)).members;
      && |idx| == |r|
      && (forall i :: 0 <= i < |r| ==> idx[i] < |ms| && ShouldKeep(ms[idx[i]].value) && r[i] == CleanMember(ms[idx[i]]))
      && (forall i, j :: 0 <= i < j < |idx| ==> idx[i] < idx[j])
      && (forall j :: 0 <= j < |ms| && ShouldKeep(ms[j].value) ==> j in idx)
      && (DistinctKeys(ms) ==> DistinctKeys(r))
  {
    var kept := Filter(KeepMember, ms);
    idx := FilterEmbedding(KeepMember, ms);
    var r := RemoveNulls(Obj(ms)).members;
    assert |r| == |kept|;
    forall i | 0 <= i < |r|
      ensures idx[i] < |ms| && ShouldKeep(ms[idx[i]].value) && r[i] == CleanMember(ms[idx[i]])
    {
      assert kept[i] in kept && kept[i] == ms[idx[i]];
    }
    DistinctKeysIff(ms);
    DistinctKeysIff(r);
    if DistinctKeys(ms) {
      forall i, j | 0 <= i < j < |r| ensures r[i].key != r[j].key {
        assert r[i].key == ms[idx[i]].key && r[j].key == ms[idx[j]].key;
      }
    }
  }

  /** What a cleaned object holds under a key whose original value is `v`. */
  function Kept(v: Json): Json {
    if ShouldKeep(v) then RemoveNulls(v) else Undefined
  }

  /** Reading key `k` of a cleaned object: absent unless the original value
      under `k` passes the keep test, and then that value cleaned. */
  lemma CleanedLookup(ms: seq<Member>, k: string)
    requires DistinctKeys(ms)
    ensures HasKey(RemoveNulls(Obj(ms)).members, k) <==> ShouldKeep(Lookup(ms, k))
    ensures Lookup(RemoveNulls(Obj(ms)).members, k) == Kept(Lookup(ms, k))
    ensures HasKey(RemoveNulls(Obj(ms)).members, k) <==> Lookup(RemoveNulls(Obj(ms)).members, k) != Undefined
  {
    var r := RemoveNulls(Obj(ms)).members;
    var idx := CleanObject(ms);
    LookupDistinct(ms, k);
    LookupDistinct(r, k);
    forall i | 0 <= i < |r| && r[i].key == k
      ensures ms[idx[i]].key == k && ShouldKeep(ms[idx[i]].value)
    {
    }
    if j :| 0 <= j < |ms| && ms[j].key == k && ShouldKeep(ms[j].value) {
      var i :| 0 <= i < |idx| && idx[i] == j;
      assert r[i].key == k;
    }
  }

  /** The member at position `i` of an object with distinct keys, read back
      after cleaning. */
  lemma CleanedField(ms: seq<Member>, i: nat)
    requires DistinctKeys(ms) && i < |ms|
    ensures HasKey(RemoveNulls(Obj(ms)).members, ms[i].key) <==> ShouldKeep(ms[i].value)
    ensures Lookup(RemoveNulls(Obj(ms)).members, ms[i].key) == Kept(ms[i].value)
  {
    CleanedLookup(ms, ms[i].key);
    LookupDistinct(ms, ms[i].key);
  }

  /** What a cleaned tree can still hold: every array element passes the
      keep test, and every object member passes it or is an empty array or
      object (emptied by cleaning after its own test had passed). */
  predicate Tidy(v: Json) {
    match v
    case Arr(items) => forall i :: 0 <= i < |items| ==> ShouldKeep(items[i]) && Tidy(items[i])
    case Obj(ms) =>
      forall i :: 0 <= i < |ms| ==> (ShouldKeep(ms[i].value) || EmptyContainer(ms[i].value)) && Tidy(ms[i].value)
    case _ => true
  }

  lemma {:induction false} CleanedIsTidy(v: Json)
    ensures Tidy(RemoveNulls(v))
    decreases v
  {
    match v
    case Arr(items) =>
      var r := RemoveNulls(v).items;
      assert r == Filter(ShouldKeep, CleanAll(items));
      forall i | 0 <= i < |r|
        ensures ShouldKeep(r[i]) && Tidy(r[i])
      {
        assert r[i] in CleanAll(items);
        var j :| 0 <= j < |items| && CleanAll(items)[j] == r[i];
        CleanedIsTidy(items[j]);
      }
    case Obj(ms) =>
      var r := RemoveNulls(v).members;
      var idx := CleanObject(ms);
      forall i | 0 <= i < |r|
        ensures (ShouldKeep(r[i].value) || EmptyContainer(r[i].value)) && Tidy(r[i].value)
      {
        CleanedIsTidy(ms[idx[i]].value);
      }
    case _ =>
  }

  /** A tree with nothing to drop at any depth. */
  predicate Pristine(v: Json) {
    match v
    case Arr(items) => forall i :: 0 <= i < |items| ==> ShouldKeep(items[i]) && Pristine(items[i])
    case Obj(ms) => forall i :: 0 <= i < |ms| ==> ShouldKeep(ms[i].value) && Pristine(ms[i].value)
    case _ => true
  }

  /** Cleaning leaves a tree with nothing to drop unchanged. */
  lemma {:induction false} CleanPristine(v: Json)
    requires Pristine(v)
    ensures RemoveNulls(v) == v
    decreases v
  {
    match v
    case Arr(items) =>
      forall i | 0 <= i < |items| ensures RemoveNulls(items[i]) == items[i] {
        CleanPristine(items[i]);
      }
      assert CleanAll(items) == items;
      FilterAllPass(ShouldKeep, items);
    case Obj(ms) =>
      FilterAllPass(KeepMember, ms);
      forall i | 0 <= i < |ms| ensures CleanMember(ms[i]) == ms[i] {
        CleanPristine(ms[i].value);
      }
    case _ =>
  }

  /** The keep test runs before recursion in objects, so an object whose
      only member empties out survives as `{}` and a second pass removes it:
      cleaning is not idempotent. */
  lemma CleaningIsNotIdempotent()
    ensures var once := RemoveNulls(Obj([Member("a", Obj([Member("b", Null)]))]));
      && once == Obj([Member("a", Obj([]))])
      && RemoveNulls(once) == Obj([])
      && RemoveNulls(once) != once
  {
    CleanSingleMember("b", Null);
    CleanSingleMember("a", Obj([Member("b", Null)]));
    CleanSingleMember("a", Obj([]));
  }

  /** A one-member object keeps its member, cleaned, exactly when the
      member's value is kept. */
  lemma CleanSingleMember(k: string, v: Json)
    ensures RemoveNulls(Obj([Member(k, v)])) ==
      if ShouldKeep(v) then Obj([Member(k, RemoveNulls(v))]) else Obj([])
  {
    CleanMembersSnoc([], Member(k, v));
    assert [] + [Member(k, v)] == [Member(k, v)];
    assert Filter(KeepMember, []) == [];
  }

  /** `removeNulls` as the source runs it: arrays map every element through
      the cleaner and filter the results; objects fill a fresh member list in
      one pass, testing each original value before cleaning it. */
  method Clean(v: Json) returns (r: Json)
    ensures r == RemoveNulls(v)
    decreases v, 1
  {
    match v {
      case Arr(items) =>
        var kept := CleanItems(items);
        r := Arr(kept);
      case Obj(ms) =>
        var newObj := CleanMembers(ms);
        r := Obj(newObj);
      case _ =>
        r := v;
    }
  }

  /** The array branch: map, then filter the cleaned elements. */
  method CleanItems(items: seq<Json>) returns (r: seq<Json>)
    ensures r == RemoveNulls(Arr(items)).items
    decreases Arr(items), 0
  {
    var mapped: seq<Json> := [];
    for i := 0 to |items|
      invariant |mapped| == i
      invariant forall j :: 0 <= j < i ==> mapped[j] == RemoveNulls(items[j])
    {
      var c := Clean(items[i]);
      mapped := mapped + [c];
    }
    assert mapped == CleanAll(items);
    r := Filter(ShouldKeep, mapped);
  }

  /** Every member of a list, its value cleaned. */
  function CleanEach(kept: seq<Member>): (r: seq<Member>)
    ensures |r| == |kept|
  {
    seq(|kept|, i requires 0 <= i < |kept| => CleanMember(kept[i]))
  }

  lemma CleanedObjectIsCleanEach(ms: seq<Member>)
    ensures RemoveNulls(Obj(ms)).members == CleanEach(Filter(KeepMember, ms))
  {
  }

  lemma CleanEachSnoc(kept: seq<Member>, extra: seq<Member>)
    ensures CleanEach(kept + extra) == CleanEach(kept) + CleanEach(extra)
  {
  }

  /** Cleaning an object one member longer: the new member's key is added,
      with its value cleaned, exactly when its original value is kept. */
  lemma CleanMembersSnoc(ms: seq<Member>, m: Member)
    ensures RemoveNulls(Obj(ms + [m])).members ==
      RemoveNulls(Obj(ms)).members + if ShouldKeep(m.value) then [CleanMember(m)] else []
  {
    FilterSnoc(KeepMember, ms, m);
    CleanedObjectIsCleanEach(ms);
    CleanedObjectIsCleanEach(ms + [m]);
    var extra := if KeepMember(m) then [m] else [];
    CleanEachSnoc(Filter(KeepMember, ms), extra);
    assert CleanEach(extra) == if ShouldKeep(m.value) then [CleanMember(m)] else [];
  }

  /** The object branch: one pass over the members. */
  method CleanMembers(ms: seq<Member>) returns (r: seq<Member>)
    ensures r == RemoveNulls(Obj(ms)).members
    decreases Obj(ms), 0
  {
    r := [];
    for i := 0 to |ms|
      invariant r == RemoveNulls(Obj(ms[..i])).members
    {
      assert ms[..i + 1] == ms[..i] + [ms[i]];
      CleanMembersSnoc(ms[..i], ms[i]);
      if ShouldKeep(ms[i].value) {
        assert ms[i] in ms;
        var c := Clean(ms[i].value);
        r := r + [Member(ms[i].key, c)];
      }
    }
    assert ms[..|ms|] == ms;
  }
}
