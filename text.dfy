/** String helpers shared by the JavaScript front end and the Python back end:
    substring search (`includes` / `in`), prefix test (`startswith`),
    decimal rendering of naturals (template literals, f-strings) and
    ASCII lower-casing (`str.lower`). */
module Text {

  /** `w` occurs in `s` starting at position `k`. */
  ghost predicate OccursAt(s: string, w: string, k: int)
  {
    0 <= k && k + |w| <= |s| && s[k..k + |w|] == w
  }

  /** `p` is a prefix of `s` (Python `s.startswith(p)`). */
  predicate StartsWith(s: string, p: string)
  {
    |p| <= |s| && s[..|p|] == p
  }

  /** Substring test (JavaScript `s.includes(w)`, Python `w in s`): some start
      position of `s` begins with `w`. */
  predicate Contains(s: string, w: string)
  {
    exists k | 0 <= k <= |s| :: StartsWith(s[k..], w)
  }

  /** A witness position is enough to establish `Contains`. */
  lemma ContainsAt(s: string, w: string, k: nat)
    requires k + |w| <= |s| && s[k..k + |w|] == w
    ensures Contains(s, w)
  {
    assert s[k..][..|w|] == s[k..k + |w|];
  }

  /** The search agrees with the occurrence predicate, in both directions. */
  lemma ContainsIff(s: string, w: string)
    ensures Contains(s, w) <==> exists k :: OccursAt(s, w, k)
  {
    if Contains(s, w) {
      var k :| 0 <= k <= |s| && StartsWith(s[k..], w);
      assert s[k..][..|w|] == s[k..k + |w|];
      assert OccursAt(s, w, k);
    }
    if exists k :: OccursAt(s, w, k) {
      var k :| OccursAt(s, w, k);
      ContainsAt(s, w, k);
    }
  }

  /** Decimal digit for 0..9. */
  function Digit(d: nat): (c: char)
    requires d < 10
    ensures '0' <= c <= '9'
  {
    "0123456789"[d]
  }

  /** Decimal rendering of a natural number, most significant digit first, no leading zeros. */
  function NatToString(n: nat): (r: string)
    ensures 1 <= |r|
    ensures forall i :: 0 <= i < |r| ==> '0' <= r[i] <= '9'
    ensures |r| > 1 ==> r[0] != '0'
    decreases n
  {
    if n < 10 then [Digit(n)] else NatToString(n / 10) + [Digit(n % 10)]
  }

  /** Numeric value of a string of decimal digits. */
  function DigitsValue(s: string): nat
    requires forall i :: 0 <= i < |s| ==> '0' <= s[i] <= '9'
  {
    if s == [] then 0 else DigitsValue(s[..|s| - 1]) * 10 + ((s[|s| - 1] as int) - ('0' as int))
  }

  /** Reading the rendering back gives the number again. */
  lemma {:induction false} NatToStringRoundTrip(n: nat)
    ensures DigitsValue(NatToString(n)) == n
    decreases n
  {
    var r := NatToString(n);
    if n < 10 {
      assert r == [Digit(n)];
      assert r[..0] == [];
    } else {
      NatToStringRoundTrip(n / 10);
      assert r[..|r| - 1] == NatToString(n / 10);
    }
  }

  /** One character through ASCII lower-casing. */
  function LowerChar(c: char): (r: char)
    ensures 'A' <= c <= 'Z' ==> 'a' <= r <= 'z'
    ensures !('A' <= c <= 'Z') ==> r == c
  {
    if 'A' <= c <= 'Z' then (c as int - 'A' as int + 'a' as int) as char else c
  }

  /** Python `s.lower()`, restricted to the ASCII letters. */
  function Lower(s: string): (r: string)
    ensures |r| == |s|
    ensures forall i :: 0 <= i < |s| ==> r[i] == LowerChar(s[i])
  {
    seq(|s|, i requires 0 <= i < |s| => LowerChar(s[i]))
  }
}
