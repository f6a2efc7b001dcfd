/**
 * The PHP string primitives the section storages rely on: `strpos` for a
 * single character, `explode('.', $s, $limit)` with a positive limit, the
 * inverse `implode('.')`, substring search and integer-to-string conversion.
 */
module PhpStrings {

  /** `strpos($s, $c)`: the first position of `c` in `s`, or -1 for FALSE. */
  function IndexOf(s: string, c: char): (r: int)
    ensures -1 <= r < |s|
    ensures r == -1 <==> c !in s
    ensures 0 <= r ==> s[r] == c && c !in s[..r]
  {
    if |s| == 0 then -1
    else if s[0] == c then 0
    else
      var k := IndexOf(s[1..], c);
      assert s == [s[0]] + s[1..];
      if k < 0 then -1
      else
        assert s[..k + 1] == [s[0]] + s[1..][..k];
        k + 1
  }

  /**
   * The pieces Explode can produce with the given limit: no dot before the
   * last piece, and none in the last one either when there are fewer than
   * `limit` pieces.
   */
  predicate Canonical(parts: seq<string>, limit: nat) {
    && (forall k :: 0 <= k < |parts| - 1 ==> '.' !in parts[k])
    && (0 < |parts| < limit ==> '.' !in parts[|parts| - 1])
  }

  /** `implode('.', $parts)`. */
  function Implode(parts: seq<string>): string
    requires |parts| >= 1
  {
    if |parts| == 1 then parts[0] else parts[0] + "." + Implode(parts[1..])
  }

  /**
   * `explode('.', $s, $limit)` for a positive limit: at most `limit` pieces,
   * every piece but the last free of dots, the last one keeping the rest of
   * the string; a string without a dot is returned as a single piece.
   */
  function Explode(s: string, limit: nat): (parts: seq<string>)
    requires limit >= 1
    ensures 1 <= |parts| <= limit
    ensures Implode(parts) == s
    ensures Canonical(parts, limit)
    ensures limit >= 2 && '.' in s ==> |parts| >= 2
    decreases limit
  {
    var i := IndexOf(s, '.');
    if limit == 1 || i < 0 then [s]
    else
      var rest := Explode(s[i + 1..], limit - 1);
      var parts := [s[..i]] + rest;
      assert parts[0] == s[..i] && parts[1..] == rest;
      assert Implode(parts) == s[..i] + "." + Implode(rest);
      assert s == s[..i] + "." + s[i + 1..];
      CanonicalCons(s[..i], rest, limit);
      parts
  }

  /** A dot-free piece in front of a canonical list for one fewer piece keeps it canonical. */
  lemma CanonicalCons(head: string, rest: seq<string>, limit: nat)
    requires limit >= 2 && |rest| >= 1
    requires '.' !in head && Canonical(rest, limit - 1)
    ensures Canonical([head] + rest, limit)
  {
    var parts := [head] + rest;
    forall k | 0 <= k < |parts| - 1 ensures '.' !in parts[k] {
      if k > 0 {
        assert parts[k] == rest[k - 1];
      }
    }
    assert parts[|parts| - 1] == rest[|rest| - 1];
  }

  /**
   * Explode undoes Implode: pieces that Explode could have produced come
   * back unchanged, so the split is the unique canonical one.
   */
  lemma ExplodeImplode(parts: seq<string>, limit: nat)
    requires 1 <= |parts| <= limit
    requires Canonical(parts, limit)
    ensures Explode(Implode(parts), limit) == parts
  {
    ImplodeInjective(Explode(Implode(parts), limit), parts, limit);
  }

  /** Two canonical piece lists with the same limit that implode alike are equal. */
  lemma {:induction false} ImplodeInjective(p: seq<string>, q: seq<string>, limit: nat)
    requires 1 <= |p| <= limit && 1 <= |q| <= limit
    requires Canonical(p, limit) && Canonical(q, limit)
    requires Implode(p) == Implode(q)
    ensures p == q
    decreases limit
  {
    if |p| == 1 && |q| == 1 {
    } else if |p| == 1 {
      ImplodeHasDot(q);
    } else if |q| == 1 {
      ImplodeHasDot(p);
    } else {
      var pt, qt := p[1..], q[1..];
      assert Implode(p) == p[0] + "." + Implode(pt);
      assert Implode(q) == q[0] + "." + Implode(qt);
      FirstDotAfter(p[0], Implode(pt));
      FirstDotAfter(q[0], Implode(qt));
      var s := Implode(p);
      assert p[0] == s[..|p[0]|] == q[0];
      assert Implode(pt) == s[|p[0]| + 1..] == Implode(qt);
      assert forall k :: 0 <= k < |pt| ==> pt[k] == p[k + 1];
      assert forall k :: 0 <= k < |qt| ==> qt[k] == q[k + 1];
      ImplodeInjective(pt, qt, limit - 1);
      assert p == [p[0]] + pt && q == [q[0]] + qt;
    }
  }

  /** Imploding two or more pieces puts a dot in the result. */
  lemma ImplodeHasDot(parts: seq<string>)
    requires |parts| >= 2
    ensures '.' in Implode(parts)
  {
    var s := Implode(parts);
    assert s == parts[0] + "." + Implode(parts[1..]);
    assert s[|parts[0]|] == '.';
  }

  /** The first dot of `head + "." + rest` is the one after a dot-free `head`. */
  lemma FirstDotAfter(head: string, rest: string)
    requires '.' !in head
    ensures IndexOf(head + "." + rest, '.') == |head|
  {
    var s := head + "." + rest;
    assert s[|head|] == '.';
    assert s[..|head|] == head;
  }

  /** `strpos($s, $t) !== FALSE` for a non-empty needle. */
  predicate HasSubstring(s: string, t: string) {
    exists i :: 0 <= i <= |s| - |t| && OccursAt(s, t, i)
  }

  /** `t` occurs in `s` starting at position `i`. */
  predicate OccursAt(s: string, t: string, i: int)
    requires 0 <= i <= |s| - |t|
  {
    s[i..i + |t|] == t
  }

  /** The number a string of decimal digits denotes, most significant digit first. */
  function DigitsValue(s: string): int
    decreases |s|
  {
    if |s| == 0 then 0 else 10 * DigitsValue(s[..|s| - 1]) + (s[|s| - 1] as int - '0' as int)
  }

  /** The number a decimal spelling with an optional leading '-' denotes. */
  function DecimalValue(s: string): int {
    if |s| > 0 && s[0] == '-' then -DigitsValue(s[1..]) else DigitsValue(s)
  }

  /** The decimal spelling of a natural number: digits only, no leading zero, denoting `n`. */
  function NatToString(n: nat): (r: string)
    ensures |r| >= 1
    ensures forall k :: 0 <= k < |r| ==> '0' <= r[k] <= '9'
    ensures r[0] == '0' ==> r == "0"
    ensures DigitsValue(r) == n
  {
    var digit := ('0' as int + n % 10) as char;
    if n < 10 then
      assert [digit][..0] == [];
      [digit]
    else
      var r := NatToString(n / 10) + [digit];
      assert r[..|r| - 1] == NatToString(n / 10);
      r
  }

  /**
   * PHP's string conversion of an integer: the decimal spelling, with a
   * leading '-' exactly when the integer is negative.
   */
  function IntToString(i: int): (r: string)
    ensures DecimalValue(r) == i
    ensures |r| >= 1 && (r[0] == '-' <==> i < 0)
    ensures i < 0 ==> |r| >= 2
    ensures forall k :: (if i < 0 then 1 else 0) <= k < |r| ==> '0' <= r[k] <= '9'
    ensures r[if i < 0 then 1 else 0] == '0' ==> r == "0"
    ensures '.' !in r
  {
    if i < 0 then
      var r := "-" + NatToString(-i);
      assert r[1..] == NatToString(-i);
      r
    else NatToString(i)
  }

  /** Distinct integers have distinct spellings, so an integer array key names one entry. */
  lemma IntToStringInjective(i: int, j: int)
    requires IntToString(i) == IntToString(j)
    ensures i == j
  {
    assert DecimalValue(IntToString(i)) == DecimalValue(IntToString(j));
  }
}
