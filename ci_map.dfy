/**
 * `TMap<FString, V>` as the building code uses it.
 *
 * Stated axioms (Unreal's `TMap` with the default `FString` key functions):
 *  - keys are compared and hashed ignoring case, so a map never holds two keys that differ only in case;
 *  - iteration visits elements in insertion order (no element is ever removed from these maps, only
 *    whole maps are emptied, so no hole is ever refilled);
 *  - `Add` on a key that is already present replaces that element, key string included, in place;
 *  - `Map[Key] = V` on a present key changes only the value and keeps the stored key string.
 * A map is therefore a sequence of (key, value) pairs with case-insensitively unique keys.
 */
module CaseInsensitiveMap {
  import opened Wrappers
  import opened UnrealString

  type CIMap<V> = seq<(string, V)>

  predicate UniqueKeys<V>(m: CIMap<V>)
  {
    forall i, j :: 0 <= i < j < |m| ==> !EqualsIgnoreCase(m[i].0, m[j].0)
  }

  /** The position of the element whose key matches `k`, if there is one. */
  function IndexOf<V>(m: CIMap<V>, k: string): (r: Option<nat>)
    ensures r.Some? ==> r.value < |m| && EqualsIgnoreCase(m[r.value].0, k)
    ensures r.Some? ==> forall j :: 0 <= j < r.value ==> !EqualsIgnoreCase(m[j].0, k)
    ensures r.None? <==> forall j :: 0 <= j < |m| ==> !EqualsIgnoreCase(m[j].0, k)
  {
    if |m| == 0 then None
    else if EqualsIgnoreCase(m[0].0, k) then Some(0)
    else match IndexOf(m[1..], k)
      case None => None
      case Some(i) => Some(i + 1)
  }

  /** The first matching position determines `IndexOf`. */
  lemma IndexOfIs<V>(m: CIMap<V>, k: string, i: nat)
    requires i < |m| && EqualsIgnoreCase(m[i].0, k)
    requires forall j :: 0 <= j < i ==> !EqualsIgnoreCase(m[j].0, k)
    ensures IndexOf(m, k) == Some(i)
  {
    var r := IndexOf(m, k);
    assert r.Some? && r.value == i;
  }

  /** `Map.Find(k)`. */
  function Find<V>(m: CIMap<V>, k: string): Option<V>
  {
    match IndexOf(m, k)
    case None => None
    case Some(i) => Some(m[i].1)
  }

  /** `Map.Contains(k)`. */
  predicate ContainsKey<V>(m: CIMap<V>, k: string)
  {
    IndexOf(m, k).Some?
  }

  /** `Map.Add(k, v)`. */
  function Add<V>(m: CIMap<V>, k: string, v: V): CIMap<V>
  {
    match IndexOf(m, k)
    case Some(i) => m[i := (k, v)]
    case None => m + [(k, v)]
  }

  /** `Map[k] = v` on a key that is present. */
  function SetValue<V>(m: CIMap<V>, k: string, v: V): CIMap<V>
    requires ContainsKey(m, k)
  {
    var i := IndexOf(m, k).value;
    m[i := (m[i].0, v)]
  }

  // ---------------------------------------------------------------------
  // Lookup after update
  // ---------------------------------------------------------------------

  /** After `Add(k, v)` the key `k` finds `v` and every other key finds what it found before. */
  lemma FindAdd<V>(m: CIMap<V>, k: string, v: V, q: string)
    ensures Find(Add(m, k, v), q) == if EqualsIgnoreCase(q, k) then Some(v) else Find(m, q)
  {
    var m' := Add(m, k, v);
    match IndexOf(m, k)
    case Some(i) =>
      if EqualsIgnoreCase(q, k) {
        IndexOfIs(m', q, i);
      } else {
        IndexOfUnchanged(m, m', q);
      }
    case None =>
      if EqualsIgnoreCase(q, k) {
        IndexOfIs(m', q, |m|);
      } else {
        IndexOfUnchanged(m, m', q);
      }
  }

  /** A map whose old elements match `q` as before, and whose new ones do not, finds `q` at the same place. */
  lemma IndexOfUnchanged<V>(m: CIMap<V>, m': CIMap<V>, q: string)
    requires |m| <= |m'|
    requires forall j :: 0 <= j < |m| ==> EqualsIgnoreCase(m'[j].0, q) == EqualsIgnoreCase(m[j].0, q)
    requires forall j :: |m| <= j < |m'| ==> !EqualsIgnoreCase(m'[j].0, q)
    ensures IndexOf(m', q) == IndexOf(m, q)
  {
    match IndexOf(m, q)
    case Some(i) => IndexOfIs(m', q, i);
    case None =>
  }

  /** After `Map[k] = v` the key `k` finds `v` and every other key finds what it found before. */
  lemma FindSetValue<V>(m: CIMap<V>, k: string, v: V, q: string)
    requires ContainsKey(m, k)
    ensures Find(SetValue(m, k, v), q) == if EqualsIgnoreCase(q, k) then Some(v) else Find(m, q)
  {
    var i := IndexOf(m, k).value;
    var m' := SetValue(m, k, v);
    assert forall j :: 0 <= j < |m| && j != i ==> m'[j] == m[j];
    if EqualsIgnoreCase(q, k) {
      IndexOfIs(m', q, i);
    } else {
      assert IndexOf(m', q) == IndexOf(m, q);
    }
  }

  lemma AddUnique<V>(m: CIMap<V>, k: string, v: V)
    requires UniqueKeys(m)
    ensures UniqueKeys(Add(m, k, v))
  {
  }

  lemma SetValueUnique<V>(m: CIMap<V>, k: string, v: V)
    requires ContainsKey(m, k) && UniqueKeys(m)
    ensures UniqueKeys(SetValue(m, k, v))
  {
  }

  /** A key is present exactly when some element's key matches it. */
  lemma ContainsKeyIff<V>(m: CIMap<V>, k: string)
    ensures ContainsKey(m, k) <==> exists j :: 0 <= j < |m| && EqualsIgnoreCase(m[j].0, k)
  {
  }

  // ---------------------------------------------------------------------
  // Rebuilding a map with the first element per key
  // ---------------------------------------------------------------------

  /**
   * The map obtained by visiting `m` in order and adding each element whose key
   * is not yet present: the first element per key survives.
   */
  function Dedup<V>(m: CIMap<V>): CIMap<V>
  {
    if |m| == 0 then []
    else
      var c := Dedup(m[..|m| - 1]);
      if ContainsKey(c, m[|m| - 1].0) then c else Add(c, m[|m| - 1].0, m[|m| - 1].1)
  }

  lemma {:induction false} DedupUnique<V>(m: CIMap<V>)
    ensures UniqueKeys(Dedup(m))
  {
    if |m| > 0 {
      DedupUnique(m[..|m| - 1]);
      AddUnique(Dedup(m[..|m| - 1]), m[|m| - 1].0, m[|m| - 1].1);
    }
  }

  /** On a map whose keys are already unique, rebuilding changes nothing. */
  lemma {:induction false} DedupIdentity<V>(m: CIMap<V>)
    requires UniqueKeys(m)
    ensures Dedup(m) == m
  {
    if |m| > 0 {
      var p := m[..|m| - 1];
      DedupIdentity(p);
      assert forall j :: 0 <= j < |p| ==> !EqualsIgnoreCase(p[j].0, m[|m| - 1].0);
      assert p + [m[|m| - 1]] == m;
    }
  }

  /** Rebuilding twice is rebuilding once. */
  lemma DedupIdempotent<V>(m: CIMap<V>)
    ensures Dedup(Dedup(m)) == Dedup(m)
  {
    DedupUnique(m);
    DedupIdentity(Dedup(m));
  }

  /** Every lookup answers the same after rebuilding: the value of the first element per key is kept. */
  lemma {:induction false} DedupFind<V>(m: CIMap<V>, q: string)
    ensures Find(Dedup(m), q) == Find(m, q)
  {
    if |m| > 0 {
      var p, e := m[..|m| - 1], m[|m| - 1];
      assert m == p + [e];
      DedupFind(p, q);
      FindSnoc(p, e, q);
      var c := Dedup(p);
      if ContainsKey(c, e.0) {
        if EqualsIgnoreCase(q, e.0) {
          assert ContainsKey(c, q);
          DedupFind(p, q);
        }
      } else {
        FindAdd(c, e.0, e.1, q);
        if EqualsIgnoreCase(q, e.0) {
          DedupFind(p, e.0);
          assert Find(p, e.0).None?;
          assert Find(p, q).None?;
        }
      }
    }
  }

  /** Looking up in a map extended at the end. */
  lemma FindSnoc<V>(p: CIMap<V>, e: (string, V), q: string)
    ensures Find(p + [e], q) ==
      if ContainsKey(p, q) then Find(p, q) else if EqualsIgnoreCase(e.0, q) then Some(e.1) else None
  {
    var m := p + [e];
    assert forall j :: 0 <= j < |p| ==> m[j] == p[j];
    match IndexOf(p, q)
    case Some(i) =>
      IndexOfIs(m, q, i);
    case None =>
      if EqualsIgnoreCase(e.0, q) {
        IndexOfIs(m, q, |p|);
      } else {
        assert IndexOf(m, q).None?;
      }
  }
}
