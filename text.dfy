/**
 * The parts of Python's built-in `str` behaviour that the validators and the
 * pipeline rely on: `str.lower()`, the substring test `p in s`,
 * `s.replace(c, '')` for a one-character `c`, and `s.split(sep)`.
 * Characters are modelled as Dafny `char`s; lower-casing covers ASCII only.
 */
module Text {

  predicate IsUpper(c: char) { 'A' <= c <= 'Z' }

  predicate IsDigit(c: char) { '0' <= c <= '9' }

  function LowerChar(c: char): char {
    if IsUpper(c) then (c as int + 32) as char else c
  }

  /** `s.lower()`, restricted to ASCII letters. */
  function Lower(s: string): string {
    seq(|s|, i requires 0 <= i < |s| => LowerChar(s[i]))
  }

  lemma LowerOfLowercase(s: string)
    requires forall i :: 0 <= i < |s| ==> !IsUpper(s[i])
    ensures Lower(s) == s
  {
  }

  // ---------------------------------------------------------------------------
  // Substring test: Python's `p in s`
  // ---------------------------------------------------------------------------

  predicate IsPrefix(p: string, s: string) {
    |p| <= |s| && s[..|p|] == p
  }

  /** a is a final segment of s. */
  predicate IsSuffix(a: string, s: string) {
    |a| <= |s| && s[|s| - |a|..] == a
  }

  /** p occurs in s starting at position i. */
  predicate OccursAt(s: string, p: string, i: nat) {
    i + |p| <= |s| && s[i..i + |p|] == p
  }

  /** `p in s`: p occurs as a contiguous block somewhere in s. */
  predicate Contains(s: string, p: string)
    decreases |s|
  {
    IsPrefix(p, s) || (|s| > 0 && Contains(s[1..], p))
  }

  /** An occurrence of p at position i makes `p in s` true. */
  lemma {:induction false} ContainsAt(s: string, p: string, i: nat)
    requires i + |p| <= |s| && s[i..i + |p|] == p
    ensures Contains(s, p)
    decreases i
  {
    if i == 0 {
      assert s[..|p|] == p;
    } else {
      assert s[1..][i - 1..i - 1 + |p|] == s[i..i + |p|];
      ContainsAt(s[1..], p, i - 1);
    }
  }

  /** `p in s` holds only because of an occurrence at some position. */
  lemma {:induction false} ContainsWitness(s: string, p: string) returns (i: nat)
    requires Contains(s, p)
    ensures i + |p| <= |s| && s[i..i + |p|] == p
    decreases |s|
  {
    if IsPrefix(p, s) {
      i := 0;
    } else {
      var j := ContainsWitness(s[1..], p);
      assert s[1..][j..j + |p|] == s[j + 1..j + 1 + |p|];
      i := j + 1;
    }
  }

  /** `p in s` is exactly "p occurs at some position of s". */
  lemma ContainsIff(s: string, p: string)
    ensures Contains(s, p) <==> exists i: nat :: OccursAt(s, p, i)
  {
    if Contains(s, p) {
      var i := ContainsWitness(s, p);
      assert OccursAt(s, p, i);
    }
    if exists i: nat :: OccursAt(s, p, i) {
      var i: nat :| OccursAt(s, p, i);
      ContainsAt(s, p, i);
    }
  }

  /** If p occurs in s and q occurs in p, then q occurs in s. */
  lemma {:induction false} ContainsTransitive(s: string, p: string, q: string)
    requires Contains(s, p) && Contains(p, q)
    ensures Contains(s, q)
  {
    var i := ContainsWitness(s, p);
    var j := ContainsWitness(p, q);
    forall k | 0 <= k < |q|
      ensures s[i + j..i + j + |q|][k] == q[k]
    {
      assert q[k] == p[j + k] == s[i + j + k];
    }
    ContainsAt(s, q, i + j);
  }

  // ---------------------------------------------------------------------------
  // Removing a character: Python's `s.replace(c, '')`
  // ---------------------------------------------------------------------------

  /** Number of occurrences of c in s. */
  function Count(s: string, c: char): nat
    decreases |s|
  {
    if s == [] then 0 else (if s[0] == c then 1 else 0) + Count(s[1..], c)
  }

  /** a can be obtained from b by deleting characters (order kept). */
  predicate IsSubsequence(a: string, b: string)
    decreases |b|
  {
    if a == [] then true
    else if b == [] then false
    else if a[0] == b[0] then IsSubsequence(a[1..], b[1..])
    else IsSubsequence(a, b[1..])
  }

  /** `s.replace(c, '')` for the one-character string c. */
  function RemoveChar(s: string, c: char): string
    decreases |s|
  {
    if s == [] then [] else (if s[0] == c then [] else [s[0]]) + RemoveChar(s[1..], c)
  }

  /**
   * What `s.replace(c, '')` returns: no c is left, the result is s with
   * characters deleted in order, and exactly the occurrences of c were deleted.
   */
  lemma {:induction false} RemoveCharSpec(s: string, c: char)
    ensures c !in RemoveChar(s, c)
    ensures IsSubsequence(RemoveChar(s, c), s)
    ensures |RemoveChar(s, c)| == |s| - Count(s, c)
    decreases |s|
  {
    if s != [] {
      RemoveCharSpec(s[1..], c);
      var rest := RemoveChar(s[1..], c);
      if s[0] == c {
        assert RemoveChar(s, c) == rest;
        SubsequenceOfTail(rest, s);
      } else {
        assert RemoveChar(s, c) == [s[0]] + rest;
        assert ([s[0]] + rest)[1..] == rest;
      }
    }
  }

  lemma {:induction false} SubsequenceOfTail(a: string, b: string)
    requires b != [] && IsSubsequence(a, b[1..])
    ensures IsSubsequence(a, b)
    decreases |b|, |a|
  {
    if a != [] && a[0] == b[0] {
      SubsequenceDropHead(a, b[1..]);
    }
  }

  lemma {:induction false} SubsequenceDropHead(a: string, b: string)
    requires a != [] && IsSubsequence(a, b)
    ensures IsSubsequence(a[1..], b)
    decreases |b|, |a|
  {
    if a[0] == b[0] {
      if a[1..] != [] {
        SubsequenceOfTail(a[1..], b);
      }
    } else {
      SubsequenceDropHead(a, b[1..]);
      if a[1..] != [] {
        SubsequenceOfTail(a[1..], b);
      }
    }
  }

  /** Removing c from a string that has none leaves it unchanged. */
  lemma {:induction false} RemoveCharAbsent(s: string, c: char)
    requires c !in s
    ensures RemoveChar(s, c) == s
    decreases |s|
  {
    if s != [] {
      assert c !in s[1..];
      RemoveCharAbsent(s[1..], c);
    }
  }

  /** `s.replace(c, '')` distributes over concatenation. */
  lemma {:induction false} RemoveCharAppend(a: string, b: string, c: char)
    ensures RemoveChar(a + b, c) == RemoveChar(a, c) + RemoveChar(b, c)
    decreases |a|
  {
    if a != [] {
      assert (a + b)[1..] == a[1..] + b;
      RemoveCharAppend(a[1..], b, c);
    } else {
      assert a + b == b;
    }
  }

  // ---------------------------------------------------------------------------
  // Splitting: Python's `s.split(sep)` for a one-character separator
  // ---------------------------------------------------------------------------

  /** `s.split(sep)`: the pieces between separators; never an empty list. */
  function Split(s: string, sep: char): (pieces: seq<string>)
    ensures |pieces| >= 1
    decreases |s|
  {
    if s == [] then [""]
    else
      var rest := Split(s[1..], sep);
      if s[0] == sep then [""] + rest else [[s[0]] + rest[0]] + rest[1..]
  }

  /** `sep.join(pieces)`. */
  function Join(pieces: seq<string>, sep: char): string
    decreases |pieces|
  {
    if |pieces| == 0 then ""
    else if |pieces| == 1 then pieces[0]
    else pieces[0] + [sep] + Join(pieces[1..], sep)
  }

  /** Splitting then joining with the same separator gives back the input, and no piece holds the separator. */
  lemma {:induction false} SplitJoin(s: string, sep: char)
    ensures Join(Split(s, sep), sep) == s
    ensures forall k :: 0 <= k < |Split(s, sep)| ==> sep !in Split(s, sep)[k]
    ensures |Split(s, sep)| == Count(s, sep) + 1
    decreases |s|
  {
    if s != [] {
      SplitJoin(s[1..], sep);
      var rest := Split(s[1..], sep);
      var pieces := Split(s, sep);
      if s[0] == sep {
        assert pieces == [""] + rest;
        assert pieces[1..] == rest;
        assert s == [s[0]] + s[1..];
      } else {
        var head := [s[0]] + rest[0];
        assert pieces == [head] + rest[1..];
        if |rest| == 1 {
          assert s == [s[0]] + s[1..];
        } else {
          assert Join(rest, sep) == rest[0] + [sep] + Join(rest[1..], sep);
          assert pieces[1..] == rest[1..];
          assert s == [s[0]] + s[1..];
        }
        forall k | 0 <= k < |pieces|
          ensures sep !in pieces[k]
        {
          if k > 0 {
            assert pieces[k] == rest[k];
          }
        }
      }
    }
  }

  /** Joining at least two pieces puts the last one after the final separator. */
  lemma {:induction false} JoinLast(pieces: seq<string>, sep: char)
    requires |pieces| >= 2
    ensures Join(pieces, sep) == Join(pieces[..|pieces| - 1], sep) + [sep] + pieces[|pieces| - 1]
    decreases |pieces|
  {
    if |pieces| > 2 {
      JoinLast(pieces[1..], sep);
      assert pieces[1..][..|pieces| - 2] == pieces[..|pieces| - 1][1..];
    }
  }
}
