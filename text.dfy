/** The string operations the handlers are built from: JavaScript's global
    replacement of one character (`s.replace(/c/g, rep)`), character counts and
    substring containment. */
module Text {

  /** How many times `c` occurs in `s`. */
  function Occurrences(s: string, c: char): nat {
    if s == [] then 0 else (if s[0] == c then 1 else 0) + Occurrences(s[1..], c)
  }

  /** `part` occurs somewhere inside `whole`. */
  predicate Infix(part: string, whole: string) {
    exists i | 0 <= i <= |whole| :: part <= whole[i..]
  }

  /** `s.replace(/c/g, rep)` for a one-character pattern and a replacement
      string without `$` substitutions: every `c` becomes `rep`, scanning left
      to right, and no replaced text is scanned again. */
  function ReplaceAll(s: string, c: char, rep: string): string {
    if s == [] then []
    else (if s[0] == c then rep else [s[0]]) + ReplaceAll(s[1..], c, rep)
  }

  // ---------------------------------------------------------------------------
  // Occurrences

  /** A character count is zero exactly when the character is absent. */
  lemma {:induction false} OccurrencesZero(s: string, c: char)
    ensures Occurrences(s, c) == 0 <==> c !in s
  {
    if s != [] {
      assert c in s <==> s[0] == c || c in s[1..];
      OccurrencesZero(s[1..], c);
    }
  }

  /** Counting distributes over concatenation. */
  lemma {:induction false} OccurrencesAppend(a: string, b: string, c: char)
    ensures Occurrences(a + b, c) == Occurrences(a, c) + Occurrences(b, c)
  {
    if a == [] {
      assert a + b == b;
    } else {
      assert (a + b)[0] == a[0];
      assert (a + b)[1..] == a[1..] + b;
      OccurrencesAppend(a[1..], b, c);
    }
  }

  /** Counting over a concatenation of five parts. */
  lemma OccurrencesOfFive(p1: string, p2: string, p3: string, p4: string, p5: string, c: char)
    ensures Occurrences(p1 + p2 + p3 + p4 + p5, c)
         == Occurrences(p1, c) + Occurrences(p2, c) + Occurrences(p3, c) + Occurrences(p4, c) + Occurrences(p5, c)
  {
    OccurrencesAppend(p1, p2, c);
    OccurrencesAppend(p1 + p2, p3, c);
    OccurrencesAppend(p1 + p2 + p3, p4, c);
    OccurrencesAppend(p1 + p2 + p3 + p4, p5, c);
  }

  /** Counting over a concatenation of seven parts. */
  lemma OccurrencesOfSeven(p1: string, p2: string, p3: string, p4: string, p5: string, p6: string, p7: string, c: char)
    ensures Occurrences(p1 + p2 + p3 + p4 + p5 + p6 + p7, c)
         == Occurrences(p1, c) + Occurrences(p2, c) + Occurrences(p3, c) + Occurrences(p4, c)
          + Occurrences(p5, c) + Occurrences(p6, c) + Occurrences(p7, c)
  {
    OccurrencesAppend(p1, p2, c);
    OccurrencesAppend(p1 + p2, p3, c);
    OccurrencesAppend(p1 + p2 + p3, p4, c);
    OccurrencesAppend(p1 + p2 + p3 + p4, p5, c);
    OccurrencesAppend(p1 + p2 + p3 + p4 + p5, p6, c);
    OccurrencesAppend(p1 + p2 + p3 + p4 + p5 + p6, p7, c);
  }

  // ---------------------------------------------------------------------------
  // Infix

  lemma InfixSelf(s: string)
    ensures Infix(s, s)
  {
    assert s <= s[0..];
  }

  /** Text inside `whole` stays inside it when text is added after it... */
  lemma InfixAppend(part: string, whole: string, after: string)
    requires Infix(part, whole)
    ensures Infix(part, whole + after)
  {
    var i :| 0 <= i <= |whole| && part <= whole[i..];
    assert (whole + after)[i..] == whole[i..] + after;
  }

  /** ... or before it. */
  lemma InfixPrepend(part: string, whole: string, before: string)
    requires Infix(part, whole)
    ensures Infix(part, before + whole)
  {
    var i :| 0 <= i <= |whole| && part <= whole[i..];
    assert (before + whole)[|before| + i..] == whole[i..];
  }

  // ---------------------------------------------------------------------------
  // ReplaceAll

  /** Replacement works piece by piece: it distributes over concatenation. */
  lemma {:induction false} ReplaceAllAppend(a: string, b: string, c: char, rep: string)
    ensures ReplaceAll(a + b, c, rep) == ReplaceAll(a, c, rep) + ReplaceAll(b, c, rep)
  {
    if a == [] {
      assert a + b == b;
    } else {
      assert (a + b)[0] == a[0];
      assert (a + b)[1..] == a[1..] + b;
      ReplaceAllAppend(a[1..], b, c, rep);
    }
  }

  /** A string without the pattern character comes back unchanged. */
  lemma {:induction false} ReplaceAllUnchanged(s: string, c: char, rep: string)
    requires c !in s
    ensures ReplaceAll(s, c, rep) == s
  {
    if s != [] {
      assert c !in s[1..];
      ReplaceAllUnchanged(s[1..], c, rep);
    }
  }

  /** Every character count of the result: each `c` is gone and contributes
      the characters of `rep` instead; every other character is kept. */
  lemma {:induction false} ReplaceAllCounts(s: string, c: char, rep: string, d: char)
    ensures Occurrences(ReplaceAll(s, c, rep), d)
         == (if d == c then 0 else Occurrences(s, d)) + Occurrences(s, c) * Occurrences(rep, d)
  {
    if s != [] {
      var rest := s[1..];
      var head := if s[0] == c then rep else [s[0]];
      OccurrencesAppend(head, ReplaceAll(rest, c, rep), d);
      ReplaceAllCounts(rest, c, rep, d);
      if s[0] == c {
        MulSucc(Occurrences(rest, c), Occurrences(rep, d));
      } else {
        assert Occurrences(head, d) == (if s[0] == d then 1 else 0);
      }
    }
  }

  /** A replacement that does not contain the pattern character removes it. */
  lemma ReplaceAllRemoves(s: string, c: char, rep: string)
    requires c !in rep
    ensures c !in ReplaceAll(s, c, rep)
  {
    OccurrencesZero(rep, c);
    ReplaceAllCounts(s, c, rep, c);
    OccurrencesZero(ReplaceAll(s, c, rep), c);
  }

  /** A character absent from the input and from the replacement stays absent. */
  lemma ReplaceAllKeepsAbsent(s: string, c: char, rep: string, d: char)
    requires d !in s && d !in rep
    ensures d !in ReplaceAll(s, c, rep)
  {
    OccurrencesZero(s, d);
    OccurrencesZero(rep, d);
    ReplaceAllCounts(s, c, rep, d);
    OccurrencesZero(ReplaceAll(s, c, rep), d);
  }

  /** The result grows by `|rep| - 1` characters per occurrence of `c`. */
  lemma {:induction false} ReplaceAllLength(s: string, c: char, rep: string)
    ensures |ReplaceAll(s, c, rep)| == |s| + Occurrences(s, c) * (|rep| - 1)
  {
    if s != [] {
      ReplaceAllLength(s[1..], c, rep);
      if s[0] == c {
        MulSucc(Occurrences(s[1..], c), |rep| - 1);
      }
    }
  }

  /** `ReplaceAllLength` with the growth per occurrence given as a number, so
      that a caller with a literal replacement (`Dsar.SanitizeLength`) gets a
      linear fact. */
  lemma ReplaceAllGrowth(s: string, c: char, rep: string, k: int)
    requires |rep| == k + 1
    ensures |ReplaceAll(s, c, rep)| == |s| + k * Occurrences(s, c)
  {
    ReplaceAllLength(s, c, rep);
  }

  /** A character other than the pattern, absent from the replacement, keeps its count. */
  lemma ReplaceAllKeepsCount(s: string, c: char, rep: string, d: char)
    requires d != c && d !in rep
    ensures Occurrences(ReplaceAll(s, c, rep), d) == Occurrences(s, d)
  {
    OccurrencesZero(rep, d);
    ReplaceAllCounts(s, c, rep, d);
  }

  /** One more factor of `m`: the step the induction on occurrences needs. */
  lemma MulSucc(k: nat, m: int)
    ensures (k + 1) * m == k * m + m
  {
  }
}
