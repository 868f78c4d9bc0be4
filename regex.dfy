/**
 * The fragment of Python's `re.match` needed by the case-number validator:
 * an anchored pattern `^a1a2...an$` in which each atom is a character class
 * repeated a fixed number of times (`[A-Z]{3}`, `\d{4}`, a literal `-`).
 * Digits are ASCII digits and `$` matches only at the very end of the input.
 */
module Regex {
  import opened Text

  datatype CharClass = UpperAZ | AsciiDigit | Literal(c: char)

  /** `cls{times}` */
  datatype Atom = Atom(cls: CharClass, times: nat)

  predicate InClass(cls: CharClass, c: char) {
    match cls
    case UpperAZ => IsUpper(c)
    case AsciiDigit => IsDigit(c)
    case Literal(l) => c == l
  }

  predicate AllIn(cls: CharClass, s: string) {
    forall i :: 0 <= i < |s| ==> InClass(cls, s[i])
  }

  /** `re.match('^' + pattern + '$', s)` succeeds. */
  predicate FullMatch(pattern: seq<Atom>, s: string)
    decreases |pattern|
  {
    if pattern == [] then s == []
    else
      var a := pattern[0];
      a.times <= |s| && AllIn(a.cls, s[..a.times]) && FullMatch(pattern[1..], s[a.times..])
  }

  /** Total number of characters a pattern of fixed repetitions consumes. */
  function Width(pattern: seq<Atom>): nat
    decreases |pattern|
  {
    if pattern == [] then 0 else pattern[0].times + Width(pattern[1..])
  }

  /** A fixed-repetition pattern matches only inputs of exactly its width. */
  lemma {:induction false} FullMatchWidth(pattern: seq<Atom>, s: string)
    requires FullMatch(pattern, s)
    ensures |s| == Width(pattern)
    decreases |pattern|
  {
    if pattern != [] {
      FullMatchWidth(pattern[1..], s[pattern[0].times..]);
    }
  }

  /** `[A-Z]{3}-\d{3}-\d{4}` */
  const CaseNumberPattern: seq<Atom> :=
    [Atom(UpperAZ, 3), Atom(Literal('-'), 1), Atom(AsciiDigit, 3), Atom(Literal('-'), 1), Atom(AsciiDigit, 4)]

  /** A case number written out position by position: `ABC-123-2023`. */
  predicate IsCaseNumber(s: string) {
    |s| == 12
    && (forall i :: 0 <= i < 3 ==> IsUpper(s[i]))
    && s[3] == '-'
    && (forall i :: 4 <= i < 7 ==> IsDigit(s[i]))
    && s[7] == '-'
    && (forall i :: 8 <= i < 12 ==> IsDigit(s[i]))
  }

  /** One step of the matcher: the first atom takes its characters, the rest match the remainder. */
  lemma FullMatchStep(a: Atom, rest: seq<Atom>, s: string)
    ensures FullMatch([a] + rest, s)
        <==> a.times <= |s| && AllIn(a.cls, s[..a.times]) && FullMatch(rest, s[a.times..])
  {
  }

  /** The case-number regex accepts exactly the strings of the shape `ABC-123-2023`. */
  lemma CaseNumberPatternSpec(s: string)
    ensures FullMatch(CaseNumberPattern, s) <==> IsCaseNumber(s)
  {
    var p := CaseNumberPattern;
    assert p == [p[0]] + p[1..];
    assert p[1..] == [p[1]] + p[2..];
    assert p[2..] == [p[2]] + p[3..];
    assert p[3..] == [p[3]] + p[4..];
    assert p[4..] == [p[4]] + [];
    FullMatchStep(p[0], p[1..], s);
    if 3 <= |s| {
      var s1 := s[3..];
      FullMatchStep(p[1], p[2..], s1);
      if 1 <= |s1| {
        var s2 := s1[1..];
        FullMatchStep(p[2], p[3..], s2);
        if 3 <= |s2| {
          var s3 := s2[3..];
          FullMatchStep(p[3], p[4..], s3);
          if 1 <= |s3| {
            var s4 := s3[1..];
            FullMatchStep(p[4], [], s4);
            if 4 <= |s4| {
              assert s4[4..] == [] <==> |s| == 12;
            }
          }
        }
      }
    }
    if IsCaseNumber(s) {
      assert AllIn(UpperAZ, s[..3]);
      assert AllIn(AsciiDigit, s[4..][..3]);
      assert AllIn(AsciiDigit, s[8..][..4]);
    }
    if FullMatch(p, s) {
      FullMatchWidth(p, s);
      assert s[..3][0] == s[0] && s[..3][1] == s[1] && s[..3][2] == s[2];
      assert forall i :: 4 <= i < 7 ==> s[i] == s[4..][..3][i - 4];
      assert forall i :: 8 <= i < 12 ==> s[i] == s[8..][..4][i - 8];
    }
  }
}
