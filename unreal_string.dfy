/**
 * The behaviour of Unreal's `FString` that the building code depends on.
 *
 * Stated axioms (Unreal's documented defaults, `ESearchCase::IgnoreCase` unless noted):
 *  - `==` / `!=` compare whole strings ignoring case (`EqualsIgnoreCase`);
 *  - `Equals` compares exactly (plain `==` on `string` here);
 *  - `Contains`, `StartsWith`, `Replace` and `ReplaceInline` search ignoring case;
 *  - an empty search string is never found, and `Replace` with an empty `From` returns its input;
 *  - `Replace` rewrites left to right, never overlapping, and never re-scans what it inserted.
 * Case folding is ASCII only: 'A'..'Z' fold to 'a'..'z', every other character compares exactly.
 */
module UnrealString {
  import opened Wrappers

  function FoldChar(c: char): char
  {
    if 'A' <= c <= 'Z' then (c as int + 32) as char else c
  }

  /** `ToLower()` under ASCII folding. */
  function Fold(s: string): (r: string)
    ensures |r| == |s|
    ensures forall i :: 0 <= i < |s| ==> r[i] == FoldChar(s[i])
  {
    seq(|s|, i requires 0 <= i < |s| => FoldChar(s[i]))
  }

  /** `A == B` on two `FString`s. */
  predicate EqualsIgnoreCase(a: string, b: string)
  {
    Fold(a) == Fold(b)
  }

  /** `t` occurs in `s` at index `i`, ignoring case. */
  predicate MatchAt(s: string, t: string, i: int)
  {
    0 <= i && i + |t| <= |s| && Fold(s[i..i + |t|]) == Fold(t)
  }

  /** `s.Contains(t)`. */
  predicate Contains(s: string, t: string)
  {
    |t| > 0 && exists i :: 0 <= i <= |s| - |t| && MatchAt(s, t, i)
  }

  /** `s.StartsWith(t)`. */
  predicate StartsWith(s: string, t: string)
  {
    |t| > 0 && MatchAt(s, t, 0)
  }

  /** `s.Replace(from, to)`. */
  function Replace(s: string, from: string, to: string): string
    decreases |s|
  {
    if |from| == 0 || |s| < |from| then s
    else if Fold(s[..|from|]) == Fold(from) then to + Replace(s[|from|..], from, to)
    else [s[0]] + Replace(s[1..], from, to)
  }

  /** `s.FindChar(c, index)`: exact search for one character; the first index, if any. */
  function FindChar(s: string, c: char): (r: Option<nat>)
    ensures r.Some? ==> r.value < |s| && s[r.value] == c
    ensures r.Some? ==> forall j :: 0 <= j < r.value ==> s[j] != c
    ensures r.None? ==> forall j :: 0 <= j < |s| ==> s[j] != c
  {
    if |s| == 0 then None
    else if s[0] == c then Some(0)
    else match FindChar(s[1..], c)
      case None => None
      case Some(i) => Some(i + 1)
  }

  // ---------------------------------------------------------------------
  // Facts about folding and searching
  // ---------------------------------------------------------------------

  lemma FoldIdempotent(s: string)
    ensures Fold(Fold(s)) == Fold(s)
  {
    assert forall i :: 0 <= i < |s| ==> Fold(Fold(s))[i] == Fold(s)[i];
  }

  /** Characters that are not ASCII letters only ever match themselves. */
  lemma FoldCharNonLetter(x: char, c: char)
    requires !('A' <= c <= 'Z') && !('a' <= c <= 'z')
    ensures FoldChar(x) == FoldChar(c) <==> x == c
  {
  }

  lemma FoldSingleton(x: char, c: char)
    ensures Fold([x]) == Fold([c]) <==> FoldChar(x) == FoldChar(c)
  {
    if FoldChar(x) == FoldChar(c) {
      assert Fold([x]) == [FoldChar(x)];
      assert Fold([c]) == [FoldChar(c)];
    } else {
      assert Fold([x])[0] != Fold([c])[0];
    }
  }

  /** Searching for a one-character string is a per-character comparison. */
  lemma ContainsChar(s: string, c: char)
    ensures Contains(s, [c]) <==> exists i :: 0 <= i < |s| && FoldChar(s[i]) == FoldChar(c)
  {
    if Contains(s, [c]) {
      var i :| 0 <= i <= |s| - 1 && MatchAt(s, [c], i);
      assert s[i..i + 1] == [s[i]];
      FoldSingleton(s[i], c);
    }
    if exists i :: 0 <= i < |s| && FoldChar(s[i]) == FoldChar(c) {
      var i :| 0 <= i < |s| && FoldChar(s[i]) == FoldChar(c);
      assert s[i..i + 1] == [s[i]];
      FoldSingleton(s[i], c);
      assert MatchAt(s, [c], i);
    }
  }

  /** An exact occurrence of `t` at `i` is one that `Contains` finds. */
  lemma ContainsAt(s: string, t: string, i: nat)
    requires |t| > 0 && i + |t| <= |s| && s[i..i + |t|] == t
    ensures Contains(s, t)
  {
    assert MatchAt(s, t, i);
  }

  /** Whatever occurs inside an occurrence of `t` in `s` occurs in `s`. */
  lemma ContainsWithin(s: string, t: string, u: string)
    requires Contains(s, t) && Contains(t, u)
    ensures Contains(s, u)
  {
    var i :| 0 <= i <= |s| - |t| && MatchAt(s, t, i);
    var j :| 0 <= j <= |t| - |u| && MatchAt(t, u, j);
    forall k | 0 <= k < |u|
      ensures Fold(s[i + j..i + j + |u|])[k] == Fold(u)[k]
    {
      assert Fold(s[i..i + |t|])[j + k] == FoldChar(s[i + j + k]);
      assert Fold(t[j..j + |u|])[k] == FoldChar(t[j + k]);
    }
    assert MatchAt(s, u, i + j);
  }

  /** A string equal to `t` ignoring case, or containing it, contains whatever `t` contains. */
  lemma ContainsVia(s: string, t: string, u: string)
    requires Contains(t, u)
    ensures EqualsIgnoreCase(s, t) || Contains(s, t) ==> Contains(s, u)
  {
    if EqualsIgnoreCase(s, t) {
      assert s[0..|t|] == s;
      assert MatchAt(s, t, 0);
    }
    if Contains(s, t) {
      ContainsWithin(s, t, u);
    }
  }

  /** Replacing one character works character by character. */
  lemma {:induction false} ReplaceCharAppend(a: string, b: string, c: char, t: string)
    ensures Replace(a + b, [c], t) == Replace(a, [c], t) + Replace(b, [c], t)
    decreases |a|
  {
    if |a| == 0 {
      assert a + b == b;
    } else {
      assert (a + b)[..1] == a[..1];
      assert (a + b)[1..] == a[1..] + b;
      assert (a + b)[0] == a[0];
      ReplaceCharAppend(a[1..], b, c, t);
    }
  }

  lemma ReplaceCharSingleton(x: char, c: char, t: string)
    ensures Replace([x], [c], t) == if FoldChar(x) == FoldChar(c) then t else [x]
  {
    FoldSingleton(x, c);
    assert [x][..1] == [x];
    assert [x][1..] == [];
  }

  /** What `Replace` with a one-character pattern produces, character by character. */
  function ReplaceEach(s: string, c: char, t: string): string
  {
    if |s| == 0 then [] else (if FoldChar(s[0]) == FoldChar(c) then t else [s[0]]) + ReplaceEach(s[1..], c, t)
  }

  lemma {:induction false} ReplaceCharIsEach(s: string, c: char, t: string)
    ensures Replace(s, [c], t) == ReplaceEach(s, c, t)
    decreases |s|
  {
    if |s| > 0 {
      assert s == [s[0]] + s[1..];
      ReplaceCharAppend([s[0]], s[1..], c, t);
      ReplaceCharSingleton(s[0], c, t);
      ReplaceCharIsEach(s[1..], c, t);
    }
  }

  /** Replacing a character by a character keeps the length and rewrites exactly the matching positions. */
  lemma {:induction false} ReplaceCharByChar(s: string, a: char, b: char)
    ensures |Replace(s, [a], [b])| == |s|
    ensures forall i :: 0 <= i < |s| ==>
      Replace(s, [a], [b])[i] == if FoldChar(s[i]) == FoldChar(a) then b else s[i]
    decreases |s|
  {
    if |s| > 0 {
      assert s == [s[0]] + s[1..];
      ReplaceCharAppend([s[0]], s[1..], a, [b]);
      ReplaceCharSingleton(s[0], a, [b]);
      ReplaceCharByChar(s[1..], a, b);
    }
  }

  /** A `Replace` whose pattern never occurs changes nothing. */
  lemma {:induction false} ReplaceAbsent(s: string, from: string, to: string)
    requires |from| > 0
    requires forall i :: !MatchAt(s, from, i)
    ensures Replace(s, from, to) == s
    decreases |s|
  {
    if |s| >= |from| {
      assert !MatchAt(s, from, 0);
      assert s[0..|from|] == s[..|from|];
      forall i ensures !MatchAt(s[1..], from, i) {
        if MatchAt(s[1..], from, i) {
          assert s[1..][i..i + |from|] == s[i + 1..i + 1 + |from|];
          assert MatchAt(s, from, i + 1);
        }
      }
      ReplaceAbsent(s[1..], from, to);
      assert s == [s[0]] + s[1..];
    }
  }
}
