/** The parts of JavaScript value semantics the pages lean on: optional
    values, truthiness, `||` and `??` on strings, String.prototype.trim,
    startsWith / endsWith / includes, toLowerCase, and the `%` operator. */
module Js {

  /** A JSON field that may be absent (`undefined` or `null`). */
  datatype Option<+T> = None | Some(value: T)

  /** `x ?? d`: the value when present, even an empty one, else the default. */
  function Coalesce<T>(x: Option<T>, d: T): T {
    match x
    case Some(v) => v
    case None => d
  }

  /** Truthiness of an optional string: present and not empty. */
  predicate Truthy(s: Option<string>) {
    s.Some? && s.value != ""
  }

  /** `s || fallback` for an optional string. */
  function OrElse(s: Option<string>, fallback: string): string {
    if Truthy(s) then s.value else fallback
  }

  /** `c0 || c1 || ... || ""`: the first truthy candidate, else the empty string. */
  function FirstTruthy(cs: seq<Option<string>>): (r: string)
    ensures r == "" <==> forall i :: 0 <= i < |cs| ==> !Truthy(cs[i])
    ensures r != "" ==>
      exists i :: 0 <= i < |cs| && Truthy(cs[i]) && r == cs[i].value
        && forall j :: 0 <= j < i ==> !Truthy(cs[j])
  {
    if cs == [] then ""
    else if Truthy(cs[0]) then cs[0].value
    else
      var r := FirstTruthy(cs[1..]);
      assert forall i :: 1 <= i < |cs| ==> cs[i] == cs[1..][i - 1];
      r
  }

  function Max(a: int, b: int): int {
    if a < b then b else a
  }

  /** `a % b` as JavaScript computes it: the remainder takes the sign of the
      dividend (Dafny's own `%` is Euclidean). */
  function JsRem(a: int, b: int): (r: int)
    requires b > 0
    ensures -b < r < b
    ensures a >= 0 ==> r == a % b
    ensures a < 0 ==> r <= 0
  {
    if a >= 0 then a % b else -((-a) % b)
  }

  /** The characters String.prototype.trim removes: WhiteSpace and
      LineTerminator of ECMA-262 (sections 12.2 and 12.3). */
  predicate IsSpace(c: char) {
    var n := c as int;
    || n == 0x09 || n == 0x0A || n == 0x0B || n == 0x0C || n == 0x0D
    || n == 0x20 || n == 0xA0 || n == 0x1680 || (0x2000 <= n <= 0x200A)
    || n == 0x2028 || n == 0x2029 || n == 0x202F || n == 0x205F
    || n == 0x3000 || n == 0xFEFF
  }

  /** Drops leading white space: the result is a suffix of `s` and only
      white space was dropped. */
  function TrimStart(s: string): (r: string)
    ensures |r| <= |s| && r == s[|s| - |r|..]
    ensures forall k :: 0 <= k < |s| - |r| ==> IsSpace(s[k])
    ensures r == [] || !IsSpace(r[0])
  {
    if s != [] && IsSpace(s[0]) then TrimStart(s[1..]) else s
  }

  /** Drops trailing white space: the result is a prefix of `s` and only
      white space was dropped. */
  function TrimEnd(s: string): (r: string)
    ensures |r| <= |s| && r == s[..|r|]
    ensures forall k :: |r| <= k < |s| ==> IsSpace(s[k])
    ensures r == [] || !IsSpace(r[|r| - 1])
  {
    if s != [] && IsSpace(s[|s| - 1]) then TrimEnd(s[..|s| - 1]) else s
  }

  /** String.prototype.trim. */
  function Trim(s: string): (r: string)
    ensures |r| <= |s|
    ensures r == [] || (!IsSpace(r[0]) && !IsSpace(r[|r| - 1]))
  {
    TrimEnd(TrimStart(s))
  }

  /** Trimming leaves nothing exactly when the string is all white space. */
  lemma TrimBlank(s: string)
    ensures Trim(s) == [] <==> forall k :: 0 <= k < |s| ==> IsSpace(s[k])
  {
    var t := TrimStart(s);
    assert (forall k :: 0 <= k < |s| ==> IsSpace(s[k])) ==> t == [];
  }

  /** Trimming twice is trimming once. */
  lemma TrimIdempotent(s: string)
    ensures Trim(Trim(s)) == Trim(s)
  {
    var r := Trim(s);
    assert TrimStart(r) == r;
    assert TrimEnd(r) == r;
  }

  lemma {:induction false} TrimStartSnoc(a: string, c: char)
    ensures TrimStart(a + [c]) ==
      (if TrimStart(a) == [] && IsSpace(c) then [] else TrimStart(a) + [c])
    decreases |a|
  {
    if a == [] {
      assert a + [c] == [c];
      assert TrimStart([c][1..]) == [];
    } else if IsSpace(a[0]) {
      assert (a + [c])[1..] == a[1..] + [c];
      TrimStartSnoc(a[1..], c);
    } else {
      assert (a + [c])[0] == a[0];
    }
  }

  /** A trailing white-space character never survives a trim. */
  lemma TrimDropsTrailingSpace(a: string, c: char)
    requires IsSpace(c)
    ensures Trim(a + [c]) == Trim(a)
  {
    TrimStartSnoc(a, c);
    var t := TrimStart(a);
    if t != [] {
      assert (t + [c])[..|t|] == t;
    }
  }

  /** The same, for a text that ends in white space. */
  lemma TrimDropsLastSpace(s: string)
    requires s != [] && IsSpace(s[|s| - 1])
    ensures Trim(s[..|s| - 1]) == Trim(s)
  {
    TrimDropsTrailingSpace(s[..|s| - 1], s[|s| - 1]);
    assert s[..|s| - 1] + [s[|s| - 1]] == s;
  }

  predicate StartsWith(s: string, p: string) {
    |p| <= |s| && s[..|p|] == p
  }

  predicate EndsWith(s: string, p: string) {
    |p| <= |s| && s[|s| - |p|..] == p
  }

  /** String.prototype.includes. */
  predicate Contains(s: string, t: string)
    decreases |s|
  {
    StartsWith(s, t) || (s != [] && Contains(s[1..], t))
  }

  function LowerChar(c: char): char {
    if 'A' <= c <= 'Z' then (c as int + 32) as char else c
  }

  /** toLowerCase, on the ASCII letters a host name is made of. */
  function Lower(s: string): (r: string)
    ensures |r| == |s|
    ensures forall i :: 0 <= i < |s| ==> r[i] == LowerChar(s[i])
    ensures forall i :: 0 <= i < |r| ==> !('A' <= r[i] <= 'Z')
  {
    seq(|s|, i requires 0 <= i < |s| => LowerChar(s[i]))
  }

  lemma LowerIdempotent(s: string)
    ensures Lower(Lower(s)) == Lower(s)
  {
  }

  /** A character outside the Basic Multilingual Plane takes two UTF-16
      code units. */
  function Units(c: char): nat {
    if c as int > 0xFFFF then 2 else 1
  }

  /** `.length` of a JS string: UTF-16 code units, not characters. */
  function Utf16Length(s: string): (r: nat)
    ensures |s| <= r <= 2 * |s|
    ensures (forall i :: 0 <= i < |s| ==> s[i] as int <= 0xFFFF) ==> r == |s|
    ensures (exists i :: 0 <= i < |s| && s[i] as int > 0xFFFF) ==> r > |s|
  {
    if s == [] then 0
    else
      assert forall i :: 1 <= i < |s| ==> s[1..][i - 1] == s[i];
      Units(s[0]) + Utf16Length(s[1..])
  }

  /** An emoji is one character but two code units. */
  lemma EmojiIsTwoUnits()
    ensures |"\U{1F600}"| == 1 && Utf16Length("\U{1F600}") == 2
  {
  }
}
