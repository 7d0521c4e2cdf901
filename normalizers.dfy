/** The two field normalisers: `removeTimeZone`, which cuts a timestamp at its
    first dot and appends `Z`, and the repair of the defanged scheme
    `hXXps[:]` in incident and alert links (`String.prototype.replace` with a
    string pattern, which replaces the first occurrence only). */
module Normalizers {
  import opened Json

  /** `s.split('.')[0]`: the text before the first dot, or all of `s`. */
  function BeforeFirstDot(s: string): (r: string)
    ensures |r| <= |s| && r == s[..|r|]
    ensures '.' !in r
    ensures |r| < |s| ==> s[|r|] == '.'
  {
    if s == [] || s[0] == '.' then [] else [s[0]] + BeforeFirstDot(s[1..])
  }

  /** What `removeTimeZone` accepts without throwing: a falsy value, or a
      string (`time.split` does not exist on other values). */
  predicate TimeArgument(t: Json) {
    !Truthy(t) || t.Str?
  }

  /** `removeTimeZone`: null for a falsy argument, otherwise the text before
      the first dot followed by `Z`. */
  function RemoveTimeZone(t: Json): Json
    requires TimeArgument(t)
  {
    if !Truthy(t) then Null else Str(BeforeFirstDot(t.s) + "Z")
  }

  /** The result is null exactly for a falsy argument (absent, null or the
      empty string); otherwise it is a string ending in `Z` with no dot, made
      of the argument's text up to its first dot, or of all of it. */
  lemma RemoveTimeZoneShape(t: Json)
    requires TimeArgument(t)
    ensures RemoveTimeZone(t) == Null <==> !Truthy(t)
    ensures Truthy(t) ==> var r := RemoveTimeZone(t);
      && r.Str? && |r.s| >= 1 && r.s[|r.s| - 1] == 'Z' && '.' !in r.s
      && var p := r.s[..|r.s| - 1];
         p == t.s[..|p|] && (p == t.s || t.s[|p|] == '.')
  {
    if Truthy(t) {
      var p := BeforeFirstDot(t.s);
      assert (p + "Z")[..|p|] == p;
      assert '.' !in p + "Z" by {
        assert forall i :: 0 <= i < |p| ==> (p + "Z")[i] == p[i];
      }
    }
  }

  /** The text before the first dot is exactly the part that has no dot. */
  lemma {:induction false} BeforeFirstDotSplit(a: string, b: string)
    requires '.' !in a
    ensures BeforeFirstDot(a + "." + b) == a
  {
    if a != [] {
      assert (a + "." + b)[1..] == a[1..] + "." + b;
      BeforeFirstDotSplit(a[1..], b);
    }
  }

  /** A timestamp is cut at its first dot: whatever follows, fraction and
      offset alike, is replaced by `Z`. */
  lemma RemoveTimeZoneCut(date: string, rest: string)
    requires '.' !in date
    ensures RemoveTimeZone(Str(date + "." + rest)) == Str(date + "Z")
  {
    BeforeFirstDotSplit(date, rest);
  }

  /** Sub-second precision and the original offset are discarded. */
  lemma RemoveTimeZoneExample()
    ensures RemoveTimeZone(Str("2024-01-02T03:04:05.123456+02:00")) == Str("2024-01-02T03:04:05Z")
  {
    var date, fraction := "2024-01-02T03:04:05", "123456+02:00";
    assert "2024-01-02T03:04:05.123456+02:00" == date + "." + fraction;
    RemoveTimeZoneCut(date, fraction);
    assert date + "Z" == "2024-01-02T03:04:05Z";
  }

  /** A timestamp without a dot simply gains a `Z`. */
  lemma RemoveTimeZoneNoDot(s: string)
    requires s != [] && '.' !in s
    ensures RemoveTimeZone(Str(s)) == Str(s + "Z")
  {
    var r := BeforeFirstDot(s);
    assert forall i :: 0 <= i < |s| ==> s[i] != '.';
    assert r == s[..|s|];
  }

  predicate OccursAt(s: string, pat: string, i: nat) {
    i + |pat| <= |s| && s[i..i + |pat|] == pat
  }

  /** The first position at or after `from` where `pat` occurs in `s`. */
  function IndexFrom(s: string, pat: string, from: nat): (r: Option<nat>)
    requires from <= |s|
    ensures r.Some? ==> from <= r.value && OccursAt(s, pat, r.value)
    ensures r.Some? ==> forall i :: from <= i < r.value ==> !OccursAt(s, pat, i)
    ensures r.None? ==> forall i :: from <= i ==> !OccursAt(s, pat, i)
    decreases |s| - from
  {
    if from + |pat| > |s| then None
    else if s[from..from + |pat|] == pat then Some(from)
    else IndexFrom(s, pat, from + 1)
  }

  /** `s.indexOf(pat)` */
  function IndexOf(s: string, pat: string): Option<nat> {
    IndexFrom(s, pat, 0)
  }

  /** `s.replace(pat, rep)` with a string pattern and a replacement without
      `$` patterns: the first occurrence only is replaced. */
  function ReplaceFirst(s: string, pat: string, rep: string): string {
    match IndexOf(s, pat)
    case None => s
    case Some(i) => s[..i] + rep + s[i + |pat|..]
  }

  /** A string in which the pattern does not occur is returned unchanged. */
  lemma ReplaceFirstNoMatch(s: string, pat: string, rep: string)
    requires forall i :: !OccursAt(s, pat, i)
    ensures ReplaceFirst(s, pat, rep) == s
  {
  }

  /** The first occurrence, and only it, is replaced: whatever follows it,
      further occurrences included, is kept as it is. */
  lemma ReplaceFirstAt(a: string, pat: string, b: string, rep: string)
    requires forall i :: 0 <= i < |a| ==> !OccursAt(a + pat + b, pat, i)
    ensures ReplaceFirst(a + pat + b, pat, rep) == a + rep + b
  {
    var s := a + pat + b;
    assert s[|a|..|a| + |pat|] == pat;
    assert OccursAt(s, pat, |a|);
    var r := IndexOf(s, pat);
    assert r == Some(|a|);
    assert s[..|a|] == a && s[|a| + |pat|..] == b;
  }

  const DefangedScheme: string := "hXXps[:]"
  const Scheme: string := "https:"

  /** The repair applied to `incidentUri` and `link`. */
  function RepairUri(s: string): string {
    ReplaceFirst(s, DefangedScheme, Scheme)
  }

  lemma RepairUriExample()
    ensures RepairUri("hXXps[:]//example.com/a") == "https://example.com/a"
  {
    var rest := "//example.com/a";
    assert "hXXps[:]//example.com/a" == "" + DefangedScheme + rest;
    ReplaceFirstAt("", DefangedScheme, rest, Scheme);
    assert "" + Scheme + rest == "https://example.com/a";
  }

  /** A second defanged scheme later in the string is left alone. */
  lemma RepairUriFirstOnly()
    ensures RepairUri("hXXps[:]//a/?next=hXXps[:]//b") == "https://a/?next=hXXps[:]//b"
  {
    var rest := "//a/?next=hXXps[:]//b";
    assert "hXXps[:]//a/?next=hXXps[:]//b" == "" + DefangedScheme + rest;
    ReplaceFirstAt("", DefangedScheme, rest, Scheme);
    assert "" + Scheme + rest == "https://a/?next=hXXps[:]//b";
  }
}
