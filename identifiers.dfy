/**
 * Building identifier rules of `ABuildingEnergyDisplay`.
 *
 * A building has a "modified" id, the key of the data caches (`DEBW_001000wrHDD`), and an
 * "actual" gml id used by the attributes service (`DEBWL001000wrHDD`).
 */
module Identifiers {
  import opened Wrappers
  import opened UnrealString

  /** The '_' -> 'L' rewrite, one character at a time (the reference definition). */
  function UnderscoreToL(s: string): (r: string)
    ensures |r| == |s|
  {
    seq(|s|, i requires 0 <= i < |s| => if s[i] == '_' then 'L' else s[i])
  }

  /** The ignore-case 'L' -> '_' rewrite, one character at a time: both 'L' and 'l' become '_'. */
  function LToUnderscore(s: string): (r: string)
    ensures |r| == |s|
  {
    seq(|s|, i requires 0 <= i < |s| => if s[i] == 'L' || s[i] == 'l' then '_' else s[i])
  }

  /** `ConvertGmlIdToBuildingKey`: the call-tracking statistics are left out. */
  function ConvertGmlIdToBuildingKey(gmlId: string): (r: string)
    ensures r == UnderscoreToL(gmlId)
  {
    UnderscoreRewrite(gmlId);
    if Contains(gmlId, "_") then Replace(gmlId, "_", "L")
    else gmlId
  }

  lemma UnderscoreRewrite(s: string)
    ensures Replace(s, "_", "L") == UnderscoreToL(s)
    ensures !Contains(s, "_") ==> s == UnderscoreToL(s)
  {
    ReplaceCharByChar(s, '_', 'L');
    forall x: char ensures FoldChar(x) == FoldChar('_') <==> x == '_' {
      FoldCharNonLetter(x, '_');
    }
    ContainsChar(s, '_');
  }

  /** `ConvertActualGmlIdToModified`: the search is case-insensitive, so 'l' is rewritten too. */
  function ConvertActualGmlIdToModified(actualGmlId: string): (r: string)
    ensures r == LToUnderscore(actualGmlId)
  {
    ReplaceCharByChar(actualGmlId, 'L', '_');
    if Contains(actualGmlId, "L") then Replace(actualGmlId, "L", "_")
    else
      ContainsChar(actualGmlId, 'L');
      actualGmlId
  }

  /** An id without any '_' is its own building key. */
  lemma BuildingKeyWithoutUnderscore(id: string)
    requires forall i :: 0 <= i < |id| ==> id[i] != '_'
    ensures ConvertGmlIdToBuildingKey(id) == id
  {
  }

  /** For ids with no 'L' or 'l', converting back undoes the conversion to a building key. */
  lemma {:induction false} ModifiedAfterBuildingKey(id: string)
    requires forall i :: 0 <= i < |id| ==> id[i] != 'L' && id[i] != 'l'
    ensures ConvertActualGmlIdToModified(ConvertGmlIdToBuildingKey(id)) == id
  {
    var k := ConvertGmlIdToBuildingKey(id);
    var m := ConvertActualGmlIdToModified(k);
    assert forall i :: 0 <= i < |id| ==> m[i] == id[i];
  }

  /** For ids with no '_' and no 'l', converting to a building key undoes the conversion back. */
  lemma {:induction false} BuildingKeyAfterModified(id: string)
    requires forall i :: 0 <= i < |id| ==> id[i] != '_' && id[i] != 'l'
    ensures ConvertGmlIdToBuildingKey(ConvertActualGmlIdToModified(id)) == id
  {
    var m := ConvertActualGmlIdToModified(id);
    var k := ConvertGmlIdToBuildingKey(m);
    assert forall i :: 0 <= i < |id| ==> k[i] == id[i];
  }

  /** The documented example, in both directions. */
  lemma DocumentedExample()
    ensures ConvertGmlIdToBuildingKey("DEBW_001000wrHDD") == "DEBWL001000wrHDD"
    ensures ConvertActualGmlIdToModified("DEBWL001000wrHDD") == "DEBW_001000wrHDD"
  {
    CharwiseExample("DEBW_001000wrHDD", "DEBWL001000wrHDD");
  }

  /** Two ids that differ only at position 4, '_' against 'L', and hold no other '_', 'L' or 'l'. */
  lemma CharwiseExample(modified: string, actual: string)
    requires |modified| == |actual| > 4
    requires modified[4] == '_' && actual[4] == 'L'
    requires forall i :: 0 <= i < |modified| && i != 4 ==>
      modified[i] == actual[i] && modified[i] != '_' && modified[i] != 'L' && modified[i] != 'l'
    ensures ConvertGmlIdToBuildingKey(modified) == actual
    ensures ConvertActualGmlIdToModified(actual) == modified
  {
    var a := ConvertGmlIdToBuildingKey(modified);
    assert forall i :: 0 <= i < |a| ==> a[i] == actual[i];
    var b := ConvertActualGmlIdToModified(actual);
    assert forall i :: 0 <= i < |b| ==> b[i] == modified[i];
  }

  /** An id that already holds an 'L' does not survive the round trip. */
  lemma RoundTripNeedsNoL()
    ensures ConvertGmlIdToBuildingKey("AL_1") == "ALL1"
    ensures ConvertActualGmlIdToModified("ALL1") == "A__1"
  {
    KeyOfAL1();
    ModifiedOfALL1();
  }

  lemma KeyOfAL1()
    ensures ConvertGmlIdToBuildingKey("AL_1") == "ALL1"
  {
    var a := ConvertGmlIdToBuildingKey("AL_1");
    assert a[0] == 'A' && a[1] == 'L' && a[2] == 'L' && a[3] == '1';
  }

  lemma ModifiedOfALL1()
    ensures ConvertActualGmlIdToModified("ALL1") == "A__1"
  {
    var b := ConvertActualGmlIdToModified("ALL1");
    assert b[0] == 'A' && b[1] == '_' && b[2] == '_' && b[3] == '1';
  }

  // ---------------------------------------------------------------------
  // The id rule of the attributes requests
  // ---------------------------------------------------------------------

  /**
   * The id that `GetBuildingAttributes` and `UpdateBuildingAttributes` put in the request:
   * an id starting with "DEBW_" (ignoring case) has every "DEBW_" rewritten to "DEBWL",
   * any other id with an '_' has every '_' rewritten to 'L'.
   */
  function AttributesApiId(buildingKey: string): (r: string)
    ensures !StartsWith(buildingKey, "DEBW_") ==> r == ConvertGmlIdToBuildingKey(buildingKey)
    ensures StartsWith(buildingKey, "DEBW_") ==> |r| == |buildingKey| && r[..5] == "DEBWL"
  {
    if Contains(buildingKey, "_") then
      if StartsWith(buildingKey, "DEBW_") then
        ReplaceSameLength(buildingKey, "DEBW_", "DEBWL");
        assert buildingKey[..5] == buildingKey[0..5];
        Replace(buildingKey, "DEBW_", "DEBWL")
      else Replace(buildingKey, "_", "L")
    else
      assert !StartsWith(buildingKey, "DEBW_") by {
        if StartsWith(buildingKey, "DEBW_") {
          assert MatchAt(buildingKey, "_", 4) by {
            assert buildingKey[4..5] == buildingKey[0..5][4..5];
          }
        }
      }
      buildingKey
  }

  /** `Replace` with a pattern and a replacement of the same length keeps the length. */
  lemma {:induction false} ReplaceSameLength(s: string, from: string, to: string)
    requires |from| == |to|
    ensures |Replace(s, from, to)| == |s|
    decreases |s|
  {
    if |from| > 0 && |s| >= |from| {
      if Fold(s[..|from|]) == Fold(from) {
        ReplaceSameLength(s[|from|..], from, to);
      } else {
        ReplaceSameLength(s[1..], from, to);
      }
    }
  }

  /** No occurrence of `from` (ignoring case) covers index `i` of `s`. */
  predicate OutsideMatches(s: string, from: string, i: int)
  {
    forall j :: i - |from| < j <= i ==> !MatchAt(s, from, j)
  }

  /** An occurrence inside a suffix of `s` is an occurrence in `s`, shifted by the cut. */
  lemma MatchInSuffix(s: string, from: string, k: nat, j: int)
    requires k <= |s|
    ensures MatchAt(s[k..], from, j) ==> MatchAt(s, from, j + k)
  {
    if 0 <= j && j + |from| <= |s| - k {
      assert s[k..][j..j + |from|] == s[j + k..j + k + |from|];
    }
  }

  /**
   * `Replace` with a replacement as long as the pattern rewrites only inside occurrences of the
   * pattern: every character that no occurrence covers stays where it was.
   */
  lemma {:induction false} ReplaceKeepsUnmatched(s: string, from: string, to: string, i: nat)
    requires |from| == |to| && i < |s| && OutsideMatches(s, from, i)
    ensures |Replace(s, from, to)| == |s| && Replace(s, from, to)[i] == s[i]
    decreases |s|
  {
    ReplaceSameLength(s, from, to);
    if |from| > 0 && |s| >= |from| {
      var n := |from|;
      if Fold(s[..n]) == Fold(from) {
        assert s[0..n] == s[..n];
        assert MatchAt(s, from, 0);
        assert i >= n;
        var t := s[n..];
        forall j | i - n - n < j <= i - n
          ensures !MatchAt(t, from, j)
        {
          MatchInSuffix(s, from, n, j);
        }
        ReplaceKeepsUnmatched(t, from, to, i - n);
        ReplaceSameLength(t, from, to);
      } else if i > 0 {
        var t := s[1..];
        forall j | i - 1 - n < j <= i - 1
          ensures !MatchAt(t, from, j)
        {
          MatchInSuffix(s, from, 1, j);
        }
        ReplaceKeepsUnmatched(t, from, to, i - 1);
      }
    }
  }

  /**
   * The `DEBW_` rule of the attributes id rewrites only the occurrences of `DEBW_`: every other
   * character of the key, an '_' included, is sent unchanged and in its place.
   */
  lemma AttributesApiIdKeepsOtherCharacters(buildingKey: string, i: nat)
    requires StartsWith(buildingKey, "DEBW_") && i < |buildingKey| && OutsideMatches(buildingKey, "DEBW_", i)
    ensures |AttributesApiId(buildingKey)| == |buildingKey| && AttributesApiId(buildingKey)[i] == buildingKey[i]
  {
    assert MatchAt(buildingKey, "_", 4) by {
      assert buildingKey[4..5] == buildingKey[0..5][4..5];
    }
    ReplaceKeepsUnmatched(buildingKey, "DEBW_", "DEBWL", i);
  }

  /** The two rules differ on ids that hold an '_' besides the one of "DEBW_". */
  lemma AttributesRuleKeepsOtherUnderscores()
    ensures AttributesApiId("DEBW_a_1") == "DEBWLa_1"
    ensures ConvertGmlIdToBuildingKey("DEBW_a_1") == "DEBWLaL1"
  {
    AttributesIdOfExample();
    KeyOfExample();
  }

  lemma AttributesIdOfExample()
    ensures AttributesApiId("DEBW_a_1") == "DEBWLa_1"
  {
    var s := "DEBW_a_1";
    assert s[..5] == "DEBW_";
    assert MatchAt(s, "_", 4) by { assert s[4..5] == "_"; }
    assert s[5..] == "a_1";
    assert Replace("a_1", "DEBW_", "DEBWL") == "a_1";
  }

  lemma KeyOfExample()
    ensures ConvertGmlIdToBuildingKey("DEBW_a_1") == "DEBWLaL1"
  {
    var s := "DEBW_a_1";
    var k := ConvertGmlIdToBuildingKey(s);
    assert k[4] == 'L' && k[6] == 'L';
    assert forall i :: 0 <= i < 8 && i != 4 && i != 6 ==> k[i] == s[i];
  }

  // ---------------------------------------------------------------------
  // Case check
  // ---------------------------------------------------------------------

  predicate IsUpper(c: char) { 'A' <= c <= 'Z' }
  predicate IsLower(c: char) { 'a' <= c <= 'z' }

  predicate HasUpper(s: string) { exists i :: 0 <= i < |s| && IsUpper(s[i]) }
  predicate HasLower(s: string) { exists i :: 0 <= i < |s| && IsLower(s[i]) }

  /**
   * `IsGmlIdCaseSensitive`: scans the id until it has seen both an upper- and a lower-case
   * letter. Mixed case is accepted, upper case only is accepted when longer than 5
   * characters, lower case only and no letters at all are rejected.
   */
  method IsGmlIdCaseSensitive(gmlId: string) returns (r: bool)
    ensures HasUpper(gmlId) && HasLower(gmlId) ==> r
    ensures HasUpper(gmlId) && !HasLower(gmlId) ==> (r <==> |gmlId| > 5)
    ensures !HasUpper(gmlId) ==> !r
  {
    var hasUpper, hasLower := false, false;
    var i := 0;
    while i < |gmlId|
      invariant 0 <= i <= |gmlId|
      invariant hasUpper <==> exists j :: 0 <= j < i && IsUpper(gmlId[j])
      invariant hasLower <==> exists j :: 0 <= j < i && IsLower(gmlId[j])
      invariant !(hasUpper && hasLower)
    {
      var c := gmlId[i];
      if IsUpper(c) {
        hasUpper := true;
      } else if IsLower(c) {
        hasLower := true;
      }
      if hasUpper && hasLower {
        return true;
      }
      i := i + 1;
    }
    if hasUpper && !hasLower {
      return |gmlId| > 5;
    } else if hasLower && !hasUpper {
      return false;
    }
    return hasUpper && hasLower;
  }

  // ---------------------------------------------------------------------
  // Tileset selection
  // ---------------------------------------------------------------------

  /** An actor in the world: its identity and its object name. */
  datatype ActorRef = ActorRef(id: nat, name: string)

  /**
   * `IsTargetBuildingsTileset`: there must be an actor; an explicitly assigned actor is
   * matched by identity; otherwise the configured name must be non-empty and occur in
   * the actor's name, both lower-cased.
   */
  function IsTargetBuildingsTileset(actor: Option<ActorRef>, actorOverride: Option<ActorRef>,
                                    tilesetName: string): (r: bool)
    ensures r <==> (actor.Some? &&
      (if actorOverride.Some? then actor.value.id == actorOverride.value.id
       else |tilesetName| > 0 && Contains(actor.value.name, tilesetName)))
  {
    if actor.None? then false
    else if actorOverride.Some? then actor.value.id == actorOverride.value.id
    else
      var target := Fold(tilesetName);
      if |target| == 0 then false
      else
        ContainsFolded(actor.value.name, tilesetName);
        Contains(Fold(actor.value.name), target)
  }

  /** Lower-casing both sides first does not change an ignore-case search. */
  lemma ContainsFolded(s: string, t: string)
    ensures Contains(Fold(s), Fold(t)) <==> Contains(s, t)
  {
    forall i | 0 <= i <= |s| - |t|
      ensures MatchAt(Fold(s), Fold(t), i) <==> MatchAt(s, t, i)
    {
      assert Fold(s)[i..i + |t|] == Fold(s[i..i + |t|]);
      FoldIdempotent(s[i..i + |t|]);
      FoldIdempotent(t);
    }
    if Contains(Fold(s), Fold(t)) {
      var i :| 0 <= i <= |Fold(s)| - |Fold(t)| && MatchAt(Fold(s), Fold(t), i);
      assert MatchAt(s, t, i);
    }
    if Contains(s, t) {
      var i :| 0 <= i <= |s| - |t| && MatchAt(s, t, i);
      assert MatchAt(Fold(s), Fold(t), i);
    }
  }
}
