/** Trimming and case, over ASCII. */
module Text {

  predicate Space(c: char) {
    c == ' ' || 9 <= c as int <= 13
  }

  function TrimLeft(s: string): string {
    if s != [] && Space(s[0]) then TrimLeft(s[1..]) else s
  }

  function TrimRight(s: string): string {
    if s != [] && Space(s[|s| - 1]) then TrimRight(s[..|s| - 1]) else s
  }

  function Trim(s: string): string {
    TrimRight(TrimLeft(s))
  }

  predicate Trimmed(s: string) {
    s == [] || (!Space(s[0]) && !Space(s[|s| - 1]))
  }

  function LowerChar(c: char): char {
    if 'A' <= c <= 'Z' then (c as int + 32) as char else c
  }

  function UpperChar(c: char): char {
    if 'a' <= c <= 'z' then (c as int - 32) as char else c
  }

  function Lower(s: string): string {
    seq(|s|, i requires 0 <= i < |s| => LowerChar(s[i]))
  }

  function Upper(s: string): string {
    seq(|s|, i requires 0 <= i < |s| => UpperChar(s[i]))
  }

  lemma {:induction false} TrimRightTrims(s: string)
    ensures var r := TrimRight(s); r == [] || !Space(r[|r| - 1])
    ensures s != [] && !Space(s[0]) ==> TrimRight(s) != [] && TrimRight(s)[0] == s[0]
    decreases |s|
  {
    if s != [] && Space(s[|s| - 1]) {
      TrimRightTrims(s[..|s| - 1]);
    }
  }

  lemma {:induction false} TrimLeftTrims(s: string)
    ensures var r := TrimLeft(s); r == [] || !Space(r[0])
    decreases |s|
  {
    if s != [] && Space(s[0]) {
      TrimLeftTrims(s[1..]);
    }
  }

  lemma {:induction false} TrimIsTrimmed(s: string)
    ensures Trimmed(Trim(s))
  {
    TrimLeftTrims(s);
    TrimRightTrims(TrimLeft(s));
  }

  lemma {:induction false} TrimmedStays(s: string)
    requires Trimmed(s)
    ensures Trim(s) == s
  {
  }

  // Trimming takes space off the two ends and nothing else.
  lemma {:induction false} TrimTakesSpaceOff(s: string) returns (before: string, after: string)
    ensures s == before + Trim(s) + after && Trimmed(Trim(s))
    ensures (forall c :: c in before ==> Space(c)) && (forall c :: c in after ==> Space(c))
  {
    TrimIsTrimmed(s);
    before := LeftSpace(s);
    after := RightSpace(TrimLeft(s));
  }

  lemma {:induction false} LeftSpace(s: string) returns (before: string)
    ensures s == before + TrimLeft(s) && forall c :: c in before ==> Space(c)
    decreases |s|
  {
    before := [];
    if s != [] && Space(s[0]) {
      var rest := LeftSpace(s[1..]);
      before := [s[0]] + rest;
    }
  }

  lemma {:induction false} RightSpace(s: string) returns (after: string)
    ensures s == TrimRight(s) + after && forall c :: c in after ==> Space(c)
    decreases |s|
  {
    after := [];
    if s != [] && Space(s[|s| - 1]) {
      var rest := RightSpace(s[..|s| - 1]);
      after := rest + [s[|s| - 1]];
    }
  }

  // Trimming again, lowering the case again, or both in either order, changes nothing more.
  lemma {:induction false} TrimLowerStable(s: string)
    ensures Trim(Trim(s)) == Trim(s)
    ensures Trim(Lower(Trim(s))) == Lower(Trim(s)) && Lower(Lower(s)) == Lower(s)
    ensures Trim(Upper(Trim(s))) == Upper(Trim(s)) && Upper(Upper(s)) == Upper(s)
  {
    TrimIsTrimmed(s);
    TrimmedStays(Trim(s));
    TrimmedStays(Lower(Trim(s)));
    TrimmedStays(Upper(Trim(s)));
  }

  // A word without capitals or space is its own lower-case trimmed form.
  lemma {:induction false} Plain(s: string)
    requires Trimmed(s) && forall i :: 0 <= i < |s| ==> !('A' <= s[i] <= 'Z')
    ensures Lower(Trim(s)) == s
  {
    TrimmedStays(s);
  }
}
