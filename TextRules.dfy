/** String rules used by the store list and the product rows: lower-casing,
    substring search and product-name truncation. */
module TextRules {

  /** Longest product name shown in full on a store card. */
  const MAX_NAME_LENGTH: nat := 30
  const ELLIPSIS: string := "..."

  predicate IsAsciiUpper(c: char) {
    'A' <= c <= 'Z'
  }

  const LOWER_ALPHABET: string := "abcdefghijklmnopqrstuvwxyz"

  /** `toLowerCase` on one character, restricted to ASCII letters: an upper-case
      letter becomes the same letter of the lower-case alphabet, and every other
      character is kept. */
  function LowerChar(c: char): (r: char)
    ensures IsAsciiUpper(c) ==> r == LOWER_ALPHABET[c as int - 'A' as int]
    ensures !IsAsciiUpper(c) ==> r == c
  {
    if IsAsciiUpper(c) then (c as int + 32) as char else c
  }

  /** `toLowerCase` on a string, restricted to ASCII letters: each character is
      lower-cased on its own, and no upper-case ASCII letter is left. */
  function Lower(s: string): (r: string)
    ensures |r| == |s|
    ensures forall i :: 0 <= i < |s| ==> r[i] == LowerChar(s[i])
    ensures forall i :: 0 <= i < |r| ==> !IsAsciiUpper(r[i])
  {
    seq(|s|, i requires 0 <= i < |s| => LowerChar(s[i]))
  }

  /** Lower-casing twice is lower-casing once. */
  lemma LowerIdempotent(s: string)
    ensures Lower(Lower(s)) == Lower(s)
  {
  }

  /** `a` and `b` are the same letter up to ASCII case, or the same character. */
  predicate SameIgnoringCase(a: char, b: char) {
    a == b
    || (IsAsciiUpper(a) && b == LOWER_ALPHABET[a as int - 'A' as int])
    || (IsAsciiUpper(b) && a == LOWER_ALPHABET[b as int - 'A' as int])
  }

  /** Strings that differ only in the case of ASCII letters lower-case to the
      same string: this is what makes the name search case-insensitive. */
  lemma LowerIgnoresCase(s: string, t: string)
    requires |s| == |t|
    requires forall i :: 0 <= i < |s| ==> SameIgnoringCase(s[i], t[i])
    ensures Lower(s) == Lower(t)
  {
    forall i | 0 <= i < |s|
      ensures Lower(s)[i] == Lower(t)[i]
    {
      assert SameIgnoringCase(s[i], t[i]);
    }
  }

  /** A search for "green" finds the store "Green Room". */
  lemma GreenRoomExample()
    ensures Includes(Lower("Green Room"), Lower("green"))
  {
    assert Lower("green") == "green";
    assert Lower("Green Room")[..5] == "green";
  }

  /** `t` occurs in `s` starting at index `i`. */
  ghost predicate OccursAt(s: string, t: string, i: int) {
    0 <= i && i + |t| <= |s| && s[i..i + |t|] == t
  }

  /** The reference meaning of `s.includes(t)`. */
  ghost predicate Occurs(s: string, t: string) {
    exists i :: OccursAt(s, t, i)
  }

  /** `s.includes(t)`: scans the start positions of `s` from left to right. */
  function Includes(s: string, t: string): bool
    decreases |s|
  {
    if |t| > |s| then false
    else if s[..|t|] == t then true
    else Includes(s[1..], t)
  }

  lemma OccursAtShift(s: string, t: string, i: int)
    requires |s| > 0 && i >= 0
    ensures OccursAt(s[1..], t, i) <==> OccursAt(s, t, i + 1)
  {
    if 0 <= i && i + |t| <= |s| - 1 {
      assert s[1..][i..i + |t|] == s[i + 1..i + 1 + |t|];
    }
  }

  /** The scanning search agrees with the reference meaning in both directions. */
  lemma {:induction false} IncludesIsOccurs(s: string, t: string)
    ensures Includes(s, t) <==> Occurs(s, t)
    decreases |s|
  {
    if |t| > |s| {
    } else if s[..|t|] == t {
      assert OccursAt(s, t, 0);
    } else {
      IncludesIsOccurs(s[1..], t);
      if Occurs(s, t) {
        var i :| OccursAt(s, t, i);
        assert i != 0;
        OccursAtShift(s, t, i - 1);
        assert OccursAt(s[1..], t, i - 1);
      }
      if Occurs(s[1..], t) {
        var i :| OccursAt(s[1..], t, i);
        OccursAtShift(s, t, i);
        assert OccursAt(s, t, i + 1);
      }
    }
  }

  /** Every string includes the empty string. */
  lemma IncludesEmpty(s: string)
    ensures Includes(s, "")
  {
  }

  /** A product name as shown on a store card: names longer than 30 characters
      are cut to their first 30 characters followed by an ellipsis. */
  function TruncateName(name: string): (r: string)
    ensures |name| <= MAX_NAME_LENGTH ==> r == name
    ensures |name| > MAX_NAME_LENGTH ==>
      |r| == MAX_NAME_LENGTH + |ELLIPSIS| && r[..MAX_NAME_LENGTH] == name[..MAX_NAME_LENGTH]
      && r[MAX_NAME_LENGTH..] == ELLIPSIS
    ensures |r| <= MAX_NAME_LENGTH + |ELLIPSIS|
  {
    if |name| > MAX_NAME_LENGTH then name[..MAX_NAME_LENGTH] + ELLIPSIS else name
  }
}
