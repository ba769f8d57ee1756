/**
 The string tests the validators are built from: substring presence
 (`String.prototype.includes`) and anchored digit-run patterns such as
 `^\d{10}$` and `^\d{5,6}$` (JavaScript `\d` without the `u` flag is the
 ASCII range '0'..'9').
 */
module Text {

  /** A character matched by the `\d` class. */
  predicate IsDigit(c: char)
  {
    '0' <= c <= '9'
  }

  /** Every character of `s` is a decimal digit (vacuously true of ""). */
  predicate AllDigits(s: string)
  {
    forall i :: 0 <= i < |s| ==> IsDigit(s[i])
  }

  /** `sub` occurs in `s` starting at position `i`. */
  predicate OccursAt(s: string, sub: string, i: nat)
  {
    i + |sub| <= |s| && s[i..i + |sub|] == sub
  }

  /** Occurrences in the tail of `s` are occurrences in `s` shifted by one. */
  lemma OccursInTail(s: string, sub: string)
    requires |s| > 0
    ensures (exists i: nat :: OccursAt(s[1..], sub, i)) <==> (exists i: nat :: 1 <= i && OccursAt(s, sub, i))
  {
    if i: nat :| OccursAt(s[1..], sub, i) {
      assert s[1..][i..i + |sub|] == s[i + 1..i + 1 + |sub|];
      assert OccursAt(s, sub, i + 1);
    }
    if i: nat :| 1 <= i && OccursAt(s, sub, i) {
      assert s[1..][i - 1..i - 1 + |sub|] == s[i..i + |sub|];
      assert OccursAt(s[1..], sub, i - 1);
    }
  }

  /**
   `s.includes(sub)`: whether `sub` occurs anywhere in `s`, found by trying
   each start position from the left.
   */
  function Includes(s: string, sub: string): (b: bool)
    ensures b <==> exists i: nat :: OccursAt(s, sub, i)
    decreases |s|
  {
    if |sub| <= |s| && s[..|sub|] == sub then
      assert OccursAt(s, sub, 0);
      true
    else if |s| == 0 then
      false
    else
      OccursInTail(s, sub);
      Includes(s[1..], sub)
  }

  /** Looking for a one-character string is looking for that character. */
  lemma IncludesOneChar(s: string, c: char)
    ensures Includes(s, [c]) <==> c in s
  {
    if c in s {
      var i :| 0 <= i < |s| && s[i] == c;
      assert s[i..i + 1] == [c];
      assert OccursAt(s, [c], i);
    }
    if Includes(s, [c]) {
      var i: nat :| OccursAt(s, [c], i);
      assert s[i] == s[i..i + 1][0];
    }
  }

  /**
   `/^\d{lo,hi}$/.test(s)`: the whole of `s` is a run of between `lo` and
   `hi` digits, matched one character at a time.
   */
  function MatchesDigits(s: string, lo: nat, hi: nat): (b: bool)
    ensures b <==> lo <= |s| <= hi && AllDigits(s)
    decreases |s|
  {
    if s == [] then
      lo == 0
    else
      hi > 0 && IsDigit(s[0]) && MatchesDigits(s[1..], if lo == 0 then 0 else lo - 1, hi - 1)
  }
}
