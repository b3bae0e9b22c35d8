/** String helpers shared by the model: substring search, ASCII lower-casing,
    decimal rendering of numbers and `Array.prototype.join`. */
module Text {

  /** `sub` occurs in `s` starting at index `i`. */
  predicate OccursAt(s: string, sub: string, i: int) {
    0 <= i && i + |sub| <= |s| && s[i..i + |sub|] == sub
  }

  /** `p` is a prefix of `s`. */
  predicate IsPrefix(p: string, s: string) {
    |p| <= |s| && s[..|p|] == p
  }

  /** `String.prototype.includes`: the search scans `s` from the left. */
  function Contains(s: string, sub: string): bool
    decreases |s|
  {
    if |s| < |sub| then false
    else if s[..|sub|] == sub then true
    else Contains(s[1..], sub)
  }

  /** The scan finds `sub` exactly when `sub` occurs somewhere in `s`. */
  lemma {:induction false} ContainsIff(s: string, sub: string)
    ensures Contains(s, sub) <==> exists i :: OccursAt(s, sub, i)
    decreases |s|
  {
    if |s| < |sub| {
    } else if s[..|sub|] == sub {
      assert OccursAt(s, sub, 0);
    } else {
      ContainsIff(s[1..], sub);
      if Contains(s[1..], sub) {
        var j :| OccursAt(s[1..], sub, j);
        assert s[j + 1..j + 1 + |sub|] == s[1..][j..j + |sub|];
        assert OccursAt(s, sub, j + 1);
      } else {
        forall i | OccursAt(s, sub, i) ensures OccursAt(s[1..], sub, i - 1) {
          assert i != 0;
          assert s[1..][i - 1..i - 1 + |sub|] == s[i..i + |sub|];
        }
      }
    }
  }

  /** A witness position is enough to show that `sub` occurs in `s`. */
  lemma ContainsAt(s: string, sub: string, i: int)
    requires OccursAt(s, sub, i)
    ensures Contains(s, sub)
  {
    ContainsIff(s, sub);
  }

  /** ASCII upper-case letters map to lower case; every other character is kept. */
  function LowerChar(c: char): (d: char)
    ensures 'A' <= c <= 'Z' ==> 'a' <= d <= 'z'
    ensures !('A' <= c <= 'Z') ==> d == c
  {
    if 'A' <= c <= 'Z' then (c as int - 'A' as int + 'a' as int) as char else c
  }

  /** Character-wise ASCII lower-casing. */
  function AsciiLower(s: string): string {
    seq(|s|, i requires 0 <= i < |s| => LowerChar(s[i]))
  }

  /** A string with no ASCII upper-case letter is its own lower-casing. */
  lemma AsciiLowerFixes(s: string)
    requires forall i :: 0 <= i < |s| ==> !('A' <= s[i] <= 'Z')
    ensures AsciiLower(s) == s
  {
  }

  predicate IsDigit(c: char) {
    '0' <= c <= '9'
  }

  function DigitChar(d: nat): (c: char)
    requires d < 10
    ensures IsDigit(c)
  {
    ('0' as int + d) as char
  }

  /** Decimal digits of a natural number, most significant first. */
  function NatToString(n: nat): (r: string)
    ensures |r| > 0
    ensures forall i :: 0 <= i < |r| ==> IsDigit(r[i])
    decreases n
  {
    if n < 10 then [DigitChar(n)] else NatToString(n / 10) + [DigitChar(n % 10)]
  }

  /** The value of a string of decimal digits. */
  function ParseDigits(s: string): nat
    requires forall i :: 0 <= i < |s| ==> IsDigit(s[i])
  {
    if s == [] then 0
    else
      assert IsDigit(s[|s| - 1]);
      10 * ParseDigits(s[..|s| - 1]) + (s[|s| - 1] as int - '0' as int)
  }

  /** Reading the rendered digits back gives the number: the rendering loses nothing. */
  lemma {:induction false} ParseNatToString(n: nat)
    ensures ParseDigits(NatToString(n)) == n
    decreases n
  {
    var r := NatToString(n);
    if n >= 10 {
      ParseNatToString(n / 10);
      assert r[..|r| - 1] == NatToString(n / 10);
    }
  }

  /** How a JavaScript integer appears in a template literal. */
  function IntToString(i: int): string {
    if i < 0 then "-" + NatToString(-i) else NatToString(i)
  }

  /** How a JavaScript boolean appears in a template literal. */
  function BoolToString(b: bool): string {
    if b then "true" else "false"
  }

  /** `items.join(sep)`. */
  function Join(items: seq<string>, sep: string): string {
    if |items| == 0 then ""
    else if |items| == 1 then items[0]
    else items[0] + sep + Join(items[1..], sep)
  }

  /** Where the `i`-th item begins inside `Join(items, sep)`. */
  function JoinOffset(items: seq<string>, sep: string, i: nat): nat
    requires i <= |items|
  {
    if i == 0 then 0 else JoinOffset(items, sep, i - 1) + |items[i - 1]| + |sep|
  }

  /** Shifting every item by one drops the first item and its separator from the offset. */
  lemma {:induction false} JoinOffsetTail(items: seq<string>, sep: string, i: nat)
    requires 1 <= i <= |items|
    ensures JoinOffset(items, sep, i) == |items[0]| + |sep| + JoinOffset(items[1..], sep, i - 1)
  {
    if i > 1 {
      JoinOffsetTail(items, sep, i - 1);
    }
  }

  /** Every item appears in the joined string, in input order: item `i` starts at
      `JoinOffset(items, sep, i)`, right after items `0..i-1` and their separators. */
  lemma {:induction false} JoinItemAt(items: seq<string>, sep: string, i: nat)
    requires i < |items|
    ensures OccursAt(Join(items, sep), items[i], JoinOffset(items, sep, i))
  {
    if i == 0 {
      if |items| > 1 {
        assert Join(items, sep)[..|items[0]|] == items[0];
      }
    } else {
      JoinItemAt(items[1..], sep, i - 1);
      JoinOffsetTail(items, sep, i);
      var rest := Join(items[1..], sep);
      var k := JoinOffset(items[1..], sep, i - 1);
      var head := items[0] + sep;
      assert Join(items, sep) == head + rest;
      assert (head + rest)[|head| + k..|head| + k + |items[i]|] == rest[k..k + |items[i]|];
    }
  }

  /** An occurrence inside an occurrence is an occurrence, at the summed offset. */
  lemma OccursWithin(s: string, t: string, u: string, i: int, j: int)
    requires OccursAt(s, t, i) && OccursAt(t, u, j)
    ensures OccursAt(s, u, i + j)
  {
    forall k | 0 <= k < |u| ensures s[i + j + k] == u[k] {
      assert u[k] == t[j..j + |u|][k] == t[j + k];
      assert t[j + k] == s[i..i + |t|][j + k];
    }
    assert s[i + j..i + j + |u|] == u;
  }

  /** An item of a join nested as item `j` of an outer join appears at the summed offset. */
  lemma NestedItemAt(outer: seq<string>, outerSep: string, j: nat, items: seq<string>, sep: string, i: nat)
    requires j < |outer| && outer[j] == Join(items, sep) && i < |items|
    ensures OccursAt(Join(outer, outerSep), items[i], JoinOffset(outer, outerSep, j) + JoinOffset(items, sep, i))
  {
    JoinItemAt(outer, outerSep, j);
    JoinItemAt(items, sep, i);
    OccursWithin(Join(outer, outerSep), outer[j], items[i], JoinOffset(outer, outerSep, j), JoinOffset(items, sep, i));
  }
}
