/** Order-preserving selection from a sequence (`Array.prototype.filter`) and
    the subsequence relation used to state that a result keeps input order. */
module Sequences {

  /** `idx` picks the elements of `r` out of `s` at strictly increasing positions. */
  ghost predicate Embeds<T>(idx: seq<nat>, r: seq<T>, s: seq<T>) {
    && |idx| == |r|
    && (forall i :: 0 <= i < |idx| ==> idx[i] < |s| && s[idx[i]] == r[i])
    && (forall i, j :: 0 <= i < j < |idx| ==> idx[i] < idx[j])
  }

  lemma EmbedsExtend<T>(idx: seq<nat>, r: seq<T>, s: seq<T>, x: T)
    requires Embeds(idx, r, s)
    ensures Embeds(idx, r, s + [x])
    ensures Embeds(idx + [|s|], r + [x], s + [x])
  {
  }

  /** The elements of `s` that satisfy `p`, in their order. */
  function Filter<T>(p: T -> bool, s: seq<T>): (r: seq<T>)
    ensures |r| <= |s|
    ensures forall x :: x in r ==> x in s && p(x)
    ensures forall x :: x in s && p(x) ==> x in r
  {
    if s == [] then []
    else
      var last := s[|s| - 1];
      Filter(p, s[..|s| - 1]) + (if p(last) then [last] else [])
  }

  /** Filtering only leaves elements out: it never reorders. */
  lemma {:induction false} FilterEmbedding<T>(p: T -> bool, s: seq<T>) returns (idx: seq<nat>)
    ensures Embeds(idx, Filter(p, s), s)
    ensures forall j :: 0 <= j < |s| && p(s[j]) ==> j in idx
  {
    if s == [] {
      idx := [];
    } else {
      var init, last := s[..|s| - 1], s[|s| - 1];
      assert s == init + [last];
      var sub := FilterEmbedding(p, init);
      EmbedsExtend(sub, Filter(p, init), init, last);
      if p(last) {
        idx := sub + [|init|];
      } else {
        idx := sub;
      }
      forall j | 0 <= j < |s| && p(s[j]) ensures j in idx {
        if j < |init| {
          assert init[j] == s[j];
        }
      }
    }
  }

  /** Filtering a sequence whose every element passes returns it unchanged. */
  lemma {:induction false} FilterAllPass<T>(p: T -> bool, s: seq<T>)
    requires forall i :: 0 <= i < |s| ==> p(s[i])
    ensures Filter(p, s) == s
  {
    if s != [] {
      FilterAllPass(p, s[..|s| - 1]);
      assert s[..|s| - 1] + [s[|s| - 1]] == s;
    }
  }

  /** Filtering a sequence none of whose elements passes leaves nothing. */
  lemma {:induction false} FilterNonePass<T>(p: T -> bool, s: seq<T>)
    requires forall i :: 0 <= i < |s| ==> !p(s[i])
    ensures Filter(p, s) == []
  {
    if s != [] {
      FilterNonePass(p, s[..|s| - 1]);
    }
  }

  lemma FilterSnoc<T>(p: T -> bool, s: seq<T>, x: T)
    ensures Filter(p, s + [x]) == Filter(p, s) + if p(x) then [x] else []
  {
    assert (s + [x])[..|s|] == s;
  }

  lemma FilterSingle<T>(p: T -> bool, x: T)
    ensures Filter(p, [x]) == if p(x) then [x] else []
  {
    assert [x][..0] == [];
  }
}
