/** The string operations the source leans on. */
module Text {

  /** ASCII `toLowerCase`, which is all an address or an SDK error needs. */
  function Lower(s: string): (r: string)
    ensures |r| == |s|
    ensures forall i :: 0 <= i < |s| ==> !('A' <= r[i] <= 'Z')
    ensures forall i :: 0 <= i < |s| ==>
      r[i] as int == if 'A' <= s[i] <= 'Z' then 'a' as int + (s[i] as int - 'A' as int) else s[i] as int
  {
    seq(|s|, i requires 0 <= i < |s| => LowerChar(s[i]))
  }

  function LowerChar(c: char): char {
    if 'A' <= c <= 'Z' then c - 'A' + 'a' else c
  }

  /** `c` and `d` are one character, or a capital and its small letter. */
  predicate SameButCase(c: char, d: char) {
    || c == d
    || ('A' <= c <= 'Z' && d as int == c as int + 32)
    || ('A' <= d <= 'Z' && c as int == d as int + 32)
  }

  /** The strings are equal but for the case of ASCII letters. */
  predicate SameWord(a: string, b: string) {
    |a| == |b| && forall i :: 0 <= i < |a| ==> SameButCase(a[i], b[i])
  }

  /** Lowercasing forgets exactly the case. */
  lemma LowerForgetsCase(a: string, b: string)
    ensures Lower(a) == Lower(b) <==> SameWord(a, b)
  {
    if Lower(a) == Lower(b) {
      forall i | 0 <= i < |a| ensures SameButCase(a[i], b[i]) { assert Lower(a)[i] == Lower(b)[i]; }
    }
    if SameWord(a, b) {
      forall i | 0 <= i < |a| ensures Lower(a)[i] == Lower(b)[i] { assert SameButCase(a[i], b[i]); }
    }
  }

  /** Whether `part` occurs in `s`. */
  predicate Contains(s: string, part: string) {
    exists i :: 0 <= i <= |s| && part <= s[i..]
  }

  lemma ContainsMeaning(s: string, part: string)
    ensures Contains(s, part) <==> exists front, back :: s == front + part + back
  {
    if i :| 0 <= i <= |s| && part <= s[i..] {
      assert s == s[..i] + part + s[i + |part|..];
    }
    if front, back :| s == front + part + back {
      assert s[|front|..] == part + back;
    }
  }

  /** The whitespace of ASCII. */
  predicate IsSpace(c: char) {
    c == ' ' || 9 <= c as int <= 13
  }

  predicate Blank(s: string) {
    forall i :: 0 <= i < |s| ==>
      || s[i] == ' ' || s[i] == '\t' || s[i] == '\n' || s[i] == '\r'
      || s[i] as int == 11 || s[i] as int == 12
  }

  function Trim(s: string): string {
    if s == "" then ""
    else if IsSpace(s[0]) then Trim(s[1..])
    else if IsSpace(s[|s| - 1]) then Trim(s[..|s| - 1])
    else s
  }

  lemma BlankMeaning(c: char)
    ensures Blank([c]) <==> IsSpace(c)
  {
    assert [c][0] == c;
  }

  /** Trimming takes blanks off both ends, and all of them. */
  lemma {:induction false} TrimMeaning(s: string) returns (front: string, back: string)
    ensures s == front + Trim(s) + back && Blank(front) && Blank(back)
    ensures Trim(s) != "" ==> !Blank([Trim(s)[0]]) && !Blank([Trim(s)[|Trim(s)| - 1]])
  {
    front, back := "", "";
    if s != "" {
      BlankMeaning(s[0]);
      BlankMeaning(s[|s| - 1]);
      if IsSpace(s[0]) {
        front, back := TrimMeaning(s[1..]);
        assert s == [s[0]] + s[1..];
        BlankJoin([s[0]], front);
        front := [s[0]] + front;
      } else if IsSpace(s[|s| - 1]) {
        front, back := TrimMeaning(s[..|s| - 1]);
        assert s == s[..|s| - 1] + [s[|s| - 1]];
        BlankJoin(back, [s[|s| - 1]]);
        back := back + [s[|s| - 1]];
      }
    }
  }

  lemma BlankJoin(a: string, b: string)
    ensures Blank(a + b) <==> Blank(a) && Blank(b)
  {
    if Blank(a + b) {
      forall i | 0 <= i < |a| ensures Blank([a[i]]) { assert (a + b)[i] == a[i]; }
      forall i | 0 <= i < |b| ensures Blank([b[i]]) { assert (a + b)[|a| + i] == b[i]; }
      assert forall i :: 0 <= i < |a| ==> [a[i]][0] == a[i];
      assert forall i :: 0 <= i < |b| ==> [b[i]][0] == b[i];
    }
  }

  /** Only a blank text trims to nothing. */
  lemma BlankTrimsToNothing(s: string)
    ensures Trim(s) == "" <==> Blank(s)
  {
    var front, back := TrimMeaning(s);
    BlankJoin(front + Trim(s), back);
    BlankJoin(front, Trim(s));
    if Trim(s) != "" { assert [Trim(s)[0]][0] == Trim(s)[0]; }
  }
}
