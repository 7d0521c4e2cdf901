/** `removeDuplicate`: keeps the first of every group of items whose key-sorted
    serialisations agree. The serialisation `JSON.stringify(item,
    Object.keys(item).sort())` lists an object's members in sorted key order
    and omits those whose value is `undefined`; the model compares items by
    the map from each defined key to its value instead. The two agree except
    where the key list also filters the keys of nested objects. */
module Dedup {
  import opened Json
  import opened Sequences

  /** What two items are compared by. Objects are compared by their defined
      members regardless of member order; other items as a whole. */
  datatype Canonical = Fields(fields: map<string, Json>) | Whole(value: Json)

  function KeySet(ms: seq<Member>): set<string> {
    set k | k in KeysOf(ms)
  }

  function DefinedFields(ms: seq<Member>): map<string, Json> {
    map k | k in KeySet(ms) && Lookup(ms, k) != Undefined :: Lookup(ms, k)
  }

  function Canon(item: Json): Canonical {
    if item.Obj? then Fields(DefinedFields(item.members)) else Whole(item)
  }

  lemma {:induction false} LookupDefinedHasKey(ms: seq<Member>, k: string)
    ensures Lookup(ms, k) != Undefined ==> k in KeySet(ms)
  {
    if ms != [] && ms[0].key == k {
      assert KeysOf(ms)[0] == k;
    } else if ms != [] {
      LookupDefinedHasKey(ms[1..], k);
      if k in KeySet(ms[1..]) {
        var i :| 0 <= i < |ms[1..]| && KeysOf(ms[1..])[i] == k;
        assert KeysOf(ms)[i + 1] == ms[1..][i].key == k;
      }
    }
  }

  lemma DefinedFieldsDomain(ms: seq<Member>)
    ensures forall k :: k in DefinedFields(ms) <==> Lookup(ms, k) != Undefined
  {
    forall k ensures k in DefinedFields(ms) <==> Lookup(ms, k) != Undefined {
      LookupDefinedHasKey(ms, k);
    }
  }

  /** Two objects compare alike exactly when every property read gives the
      same value on both: member order and members holding `undefined` make
      no difference, and a single differing defined value does. */
  lemma CanonEqualIff(ms: seq<Member>, ms': seq<Member>)
    ensures Canon(Obj(ms)) == Canon(Obj(ms')) <==> forall k :: Lookup(ms, k) == Lookup(ms', k)
  {
    var f, f' := DefinedFields(ms), DefinedFields(ms');
    DefinedFieldsDomain(ms);
    DefinedFieldsDomain(ms');
    if f == f' {
      forall k ensures Lookup(ms, k) == Lookup(ms', k) {
        if Lookup(ms, k) != Undefined {
          assert f[k] == f'[k];
        }
      }
    } else {
      var k :| (k in f) != (k in f') || (k in f && k in f' && f[k] != f'[k]);
      assert Lookup(ms, k) != Lookup(ms', k);
    }
  }

  /** Reordering the members of an object never changes its comparison key. */
  lemma CanonIgnoresOrder(ms: seq<Member>, ms': seq<Member>)
    requires DistinctKeys(ms) && DistinctKeys(ms')
    requires multiset(ms) == multiset(ms')
    ensures Canon(Obj(ms)) == Canon(Obj(ms'))
  {
    forall k ensures Lookup(ms, k) == Lookup(ms', k) {
      LookupDistinct(ms, k);
      LookupDistinct(ms', k);
      if i :| 0 <= i < |ms| && ms[i].key == k {
        assert ms[i] in multiset(ms');
        var j :| 0 <= j < |ms'| && ms'[j] == ms[i];
      } else if j :| 0 <= j < |ms'| && ms'[j].key == k {
        assert ms'[j] in multiset(ms);
      }
    }
    CanonEqualIff(ms, ms');
  }

  lemma {:induction false} LookupAppendUndefined(ms: seq<Member>, k: string, k': string)
    ensures Lookup(ms + [Member(k, Undefined)], k') == Lookup(ms, k')
  {
    if ms != [] {
      assert (ms + [Member(k, Undefined)])[1..] == ms[1..] + [Member(k, Undefined)];
      LookupAppendUndefined(ms[1..], k, k');
    }
  }

  /** A member holding `undefined` is invisible to the comparison. */
  lemma CanonIgnoresUndefined(ms: seq<Member>, k: string)
    ensures Canon(Obj(ms + [Member(k, Undefined)])) == Canon(Obj(ms))
  {
    forall k' ensures Lookup(ms + [Member(k, Undefined)], k') == Lookup(ms, k') {
      LookupAppendUndefined(ms, k, k');
    }
    CanonEqualIff(ms + [Member(k, Undefined)], ms);
  }

  predicate SeenIn(s: seq<Json>, c: Canonical) {
    exists j :: 0 <= j < |s| && Canon(s[j]) == c
  }

  /** The items of `s`, each dropped when an earlier item compares equal. */
  function Unique(s: seq<Json>): (r: seq<Json>)
    ensures |r| <= |s|
    ensures forall x :: x in r ==> x in s
  {
    if s == [] then []
    else
      var init, last := s[..|s| - 1], s[|s| - 1];
      Unique(init) + (if SeenIn(init, Canon(last)) then [] else [last])
  }

  /** No two items of the result compare equal. */
  lemma {:induction false} UniqueDistinct(s: seq<Json>)
    ensures forall i, j :: 0 <= i < j < |Unique(s)| ==> Canon(Unique(s)[i]) != Canon(Unique(s)[j])
  {
    if s != [] {
      var init, last := s[..|s| - 1], s[|s| - 1];
      UniqueDistinct(init);
      var u := Unique(init);
      if !SeenIn(init, Canon(last)) {
        forall i | 0 <= i < |u| ensures Canon(u[i]) != Canon(last) {
          assert u[i] in init;
        }
      }
    }
  }

  /** Every item of the input has an equal item in the result. */
  lemma {:induction false} UniqueCovers(s: seq<Json>)
    ensures forall j :: 0 <= j < |s| ==> SeenIn(Unique(s), Canon(s[j]))
  {
    if s != [] {
      var init, last := s[..|s| - 1], s[|s| - 1];
      UniqueCovers(init);
      var u := Unique(s);
      assert u[..|Unique(init)|] == Unique(init);
      forall j | 0 <= j < |s| ensures SeenIn(u, Canon(s[j])) {
        if j < |init| {
          assert s[j] == init[j];
          var i :| 0 <= i < |Unique(init)| && Canon(Unique(init)[i]) == Canon(init[j]);
          assert u[i] == Unique(init)[i];
        } else if SeenIn(init, Canon(last)) {
          var j' :| 0 <= j' < |init| && Canon(init[j']) == Canon(last);
          var i :| 0 <= i < |Unique(init)| && Canon(Unique(init)[i]) == Canon(init[j']);
          assert u[i] == Unique(init)[i];
        } else {
          assert u[|u| - 1] == last;
        }
      }
    }
  }

  /** No earlier item of `s` compares equal to `s[j]`. */
  predicate FirstOccurrence(s: seq<Json>, j: nat)
    requires j < |s|
  {
    forall k :: 0 <= k < j ==> Canon(s[k]) != Canon(s[j])
  }

  lemma FirstOccurrenceInPrefix(s: seq<Json>, j: nat)
    requires j < |s| - 1
    ensures FirstOccurrence(s, j) <==> FirstOccurrence(s[..|s| - 1], j)
  {
    assert forall k :: 0 <= k <= j ==> s[k] == s[..|s| - 1][k];
  }

  /** The result is a subsequence of the input made of first occurrences,
      and every first occurrence is in it. */
  lemma {:induction false} UniqueKeepsFirsts(s: seq<Json>) returns (idx: seq<nat>)
    ensures Embeds(idx, Unique(s), s)
    ensures forall i :: 0 <= i < |idx| ==> FirstOccurrence(s, idx[i])
    ensures forall j :: 0 <= j < |s| && FirstOccurrence(s, j) ==> j in idx
  {
    if s == [] {
      idx := [];
    } else {
      var init, last := s[..|s| - 1], s[|s| - 1];
      assert s == init + [last];
      var sub := UniqueKeepsFirsts(init);
      forall j | 0 <= j < |init| ensures FirstOccurrence(s, j) <==> FirstOccurrence(init, j) {
        FirstOccurrenceInPrefix(s, j);
      }
      EmbedsExtend(sub, Unique(init), init, last);
      if SeenIn(init, Canon(last)) {
        idx := sub;
        var k :| 0 <= k < |init| && Canon(init[k]) == Canon(last);
        assert s[k] == init[k];
        assert !FirstOccurrence(s, |s| - 1);
      } else {
        idx := sub + [|s| - 1];
        forall k | 0 <= k < |s| - 1 ensures Canon(s[k]) != Canon(last) {
          assert s[k] == init[k];
        }
        assert FirstOccurrence(s, |s| - 1);
      }
    }
  }

  /** `removeDuplicate` as the source runs it: one pass that remembers the
      comparison keys seen so far and appends each item not yet seen. */
  method RemoveDuplicate(items: seq<Json>) returns (unique: seq<Json>)
    requires forall i :: 0 <= i < |items| ==> !Nullish(items[i])
    ensures unique == Unique(items)
  {
    var seen: set<Canonical> := {};
    unique := [];
    for i := 0 to |items|
      invariant unique == Unique(items[..i])
      invariant forall c :: c in seen <==> SeenIn(items[..i], c)
    {
      var key := Canon(items[i]);
      assert items[..i + 1][..i] == items[..i];
      assert forall j :: 0 <= j < i ==> items[..i + 1][j] == items[..i][j];
      if key !in seen {
        seen := seen + {key};
        unique := unique + [items[i]];
      }
    }
    assert items[..|items|] == items;
  }
}
