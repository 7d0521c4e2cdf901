/** JavaScript values as the MDE log normaliser sees them once a log has been
    parsed: the JSON value kinds plus `undefined`, which is what reading a
    missing property yields and what object literals in the normaliser store
    for absent source fields. */
module Json {

  datatype Option<+T> = None | Some(value: T)

  /** An object's members are in the order `Object.entries` lists them.
      Numbers are whole numbers: the normaliser never does arithmetic on them. */
  datatype Json =
    | Undefined
    | Null
    | Bool(b: bool)
    | Num(n: int)
    | Str(s: string)
    | Arr(items: seq<Json>)
    | Obj(members: seq<Member>)

  datatype Member = Member(key: string, value: Json)

  /** `null` and `undefined`: the two values whose properties cannot be read. */
  predicate Nullish(v: Json) {
    v.Undefined? || v.Null?
  }

  /** JavaScript truthiness (`if (v)`, `!v`, `a && b`). */
  predicate Truthy(v: Json) {
    match v
    case Undefined => false
    case Null => false
    case Bool(b) => b
    case Num(n) => n != 0
    case Str(s) => s != ""
    case Arr(_) => true
    case Obj(_) => true
  }

  /** Property read `v.key`: reading a property of `null` or `undefined`
      throws, so callers must exclude those; a value that is not an object
      has none of the properties the normaliser reads. */
  function Get(v: Json, key: string): Json
    requires !Nullish(v)
  {
    if v.Obj? then Lookup(v.members, key) else Undefined
  }

  function Lookup(ms: seq<Member>, key: string): Json {
    if ms == [] then Undefined
    else if ms[0].key == key then ms[0].value
    else Lookup(ms[1..], key)
  }

  predicate HasKey(ms: seq<Member>, key: string) {
    exists i :: 0 <= i < |ms| && ms[i].key == key
  }

  /** The keys of an object, in member order. */
  function KeysOf(ms: seq<Member>): (r: seq<string>)
    ensures |r| == |ms|
  {
    seq(|ms|, i requires 0 <= i < |ms| => ms[i].key)
  }

  predicate DistinctStrings(s: seq<string>) {
    forall i, j :: 0 <= i < j < |s| ==> s[i] != s[j]
  }

  /** A JavaScript object never holds the same key twice. */
  predicate DistinctKeys(ms: seq<Member>) {
    DistinctStrings(KeysOf(ms))
  }

  lemma DistinctKeysIff(ms: seq<Member>)
    ensures DistinctKeys(ms) <==> forall i, j :: 0 <= i < j < |ms| ==> ms[i].key != ms[j].key
  {
    assert forall i :: 0 <= i < |ms| ==> KeysOf(ms)[i] == ms[i].key;
  }

  /** In an object with distinct keys, a property read finds the value stored
      under that key, and `undefined` when there is no such key. */
  lemma {:induction false} LookupDistinct(ms: seq<Member>, key: string)
    requires DistinctKeys(ms)
    ensures forall i :: 0 <= i < |ms| && ms[i].key == key ==> Lookup(ms, key) == ms[i].value
    ensures !HasKey(ms, key) ==> Lookup(ms, key) == Undefined
  {
    if ms != [] {
      DistinctKeysIff(ms);
      DistinctKeysIff(ms[1..]);
      LookupDistinct(ms[1..], key);
      if ms[0].key != key {
        assert forall i :: 1 <= i < |ms| ==> ms[1..][i - 1] == ms[i];
      }
    }
  }

  /** The characters `String.prototype.trim` removes: ECMAScript WhiteSpace
      and LineTerminator code points. */
  predicate IsSpace(c: char) {
    c == '\t' || c == '\n' || c == '\U{000B}' || c == '\U{000C}' || c == '\r' || c == ' '
    || c == '\U{00A0}' || c == '\U{1680}' || ('\U{2000}' <= c <= '\U{200A}')
    || c == '\U{2028}' || c == '\U{2029}' || c == '\U{202F}' || c == '\U{205F}'
    || c == '\U{3000}' || c == '\U{FEFF}'
  }

  predicate Blank(s: string) {
    forall i :: 0 <= i < |s| ==> IsSpace(s[i])
  }

  function TrimStart(s: string): (r: string)
    ensures r == [] || !IsSpace(r[0])
    ensures |r| <= |s| && r == s[|s| - |r|..]
  {
    if s != [] && IsSpace(s[0]) then TrimStart(s[1..]) else s
  }

  function TrimEnd(s: string): (r: string)
    ensures r == [] || !IsSpace(r[|r| - 1])
    ensures |r| <= |s| && r == s[..|r|]
  {
    if s != [] && IsSpace(s[|s| - 1]) then TrimEnd(s[..|s| - 1]) else s
  }

  /** `s.trim()` */
  function Trim(s: string): string {
    TrimEnd(TrimStart(s))
  }

  lemma {:induction false} TrimStartEmpty(s: string)
    ensures TrimStart(s) == [] <==> Blank(s)
  {
    if s != [] && IsSpace(s[0]) {
      TrimStartEmpty(s[1..]);
      assert Blank(s[1..]) ==> Blank(s) by {
        assert forall i :: 1 <= i < |s| ==> s[i] == s[1..][i - 1];
      }
    }
  }

  lemma {:induction false} TrimEndEmpty(s: string)
    ensures TrimEnd(s) == [] <==> Blank(s)
  {
    if s != [] && IsSpace(s[|s| - 1]) {
      TrimEndEmpty(s[..|s| - 1]);
      assert Blank(s[..|s| - 1]) ==> Blank(s) by {
        assert forall i :: 0 <= i < |s| - 1 ==> s[i] == s[..|s| - 1][i];
      }
    }
  }

  /** `s.trim() === ''` holds exactly for strings made of white space only. */
  lemma TrimEmptyIffBlank(s: string)
    ensures Trim(s) == [] <==> Blank(s)
  {
    TrimStartEmpty(s);
    TrimEndEmpty(TrimStart(s));
    if TrimStart(s) != [] {
      assert !IsSpace(TrimStart(s)[0]);
    }
  }

  /** The keep/drop test of the cleaner. */
  predicate ShouldKeep(v: Json) {
    match v
    case Undefined => false
    case Null => false
    case Str(s) => !(Trim(s) == "" || s == "Unknown")
    case Arr(items) => |items| != 0
    case Obj(ms) => |ms| != 0
    case _ => true
  }

  /** A value is dropped exactly when it is null or undefined, a blank string,
      the placeholder "Unknown", an empty array or an empty object; numbers
      (0 too), booleans (false too) and other strings, with their surrounding
      white space, are kept. */
  lemma ShouldKeepExactly(v: Json)
    ensures !ShouldKeep(v) <==>
      Nullish(v) || (v.Str? && (Blank(v.s) || v.s == "Unknown")) || v == Arr([]) || v == Obj([])
  {
    if v.Str? {
      TrimEmptyIffBlank(v.s);
    }
  }

  /** A string with a character other than white space is kept unless it is
      the placeholder itself. */
  lemma StringKept(s: string, i: nat)
    requires i < |s| && !IsSpace(s[i]) && s != "Unknown"
    ensures ShouldKeep(Str(s))
  {
    TrimEmptyIffBlank(s);
  }

  /** Decimal text of a whole number, as JavaScript prints it. */
  function NatText(n: nat): string {
    if n < 10 then ["0123456789"[n]] else NatText(n / 10) + ["0123456789"[n % 10]]
  }

  function IntText(n: int): string {
    if n < 0 then "-" + NatText(-n) else NatText(n)
  }

  function JoinComma(parts: seq<string>): string {
    if parts == [] then ""
    else if |parts| == 1 then parts[0]
    else JoinComma(parts[..|parts| - 1]) + "," + parts[|parts| - 1]
  }

  /** String conversion inside a template literal (`${v}`): arrays join their
      elements with commas, printing null and undefined elements as nothing. */
  function ToText(v: Json): string {
    match v
    case Undefined => "undefined"
    case Null => "null"
    case Bool(b) => if b then "true" else "false"
    case Num(n) => IntText(n)
    case Str(s) => s
    case Arr(items) =>
      JoinComma(seq(|items|, i requires 0 <= i < |items| =>
        if Nullish(items[i]) then "" else ToText(items[i])))
    case Obj(_) => "[object Object]"
  }
}
