/**
 Snapshot isolation over collections kept as maps and as append-only sequences.
 A transaction reads the state it started from (`was`), leaves its private view (`mine`), and commits onto whatever
 has been committed meanwhile (`now`): documents it changed must still be as it read them, and its changes are
 laid over the current documents.
 */
module Snapshots {
  predicate SameAt<K(!new), V(==)>(a: map<K, V>, b: map<K, V>, k: K) {
    (k in a <==> k in b) && (k in a && k in b ==> a[k] == b[k])
  }

  predicate MapMergeable<K(!new), V(==)>(was: map<K, V>, mine: map<K, V>, now: map<K, V>) {
    forall k :: k in was.Keys + mine.Keys + now.Keys && !SameAt(was, mine, k) ==> SameAt(was, now, k)
  }

  function MergeMap<K(!new), V(==)>(was: map<K, V>, mine: map<K, V>, now: map<K, V>): (r: map<K, V>)
    ensures forall k :: SameAt(r, if SameAt(was, mine, k) then now else mine, k)
  {
    map k | k in mine.Keys + now.Keys && (if SameAt(was, mine, k) then k in now else k in mine)
      :: if SameAt(was, mine, k) then now[k] else mine[k]
  }

  /** What a commit leaves of each document: the transaction's value where it changed it, and otherwise what was committed meanwhile. */
  ghost predicate LaidOver<K(!new), V>(was: map<K, V>, mine: map<K, V>, before: map<K, V>, after: map<K, V>) {
    forall k :: if SameAt(was, mine, k) then SameAt(after, before, k) else SameAt(after, mine, k) && SameAt(was, before, k)
  }

  /** The same for rows: changed rows and new rows are the transaction's, every other row is the one committed meanwhile. */
  ghost predicate RowsLaidOver<T>(was: seq<T>, mine: seq<T>, before: seq<T>, after: seq<T>) {
    && |was| <= |mine| && |was| <= |before| && |after| == |before| + |mine| - |was|
    && (forall i :: 0 <= i < |was| && mine[i] != was[i] ==> after[i] == mine[i] && before[i] == was[i])
    && (forall i :: 0 <= i < |was| && mine[i] == was[i] ==> after[i] == before[i])
    && (forall i :: |was| <= i < |before| ==> after[i] == before[i])
    && (forall i :: |was| <= i < |mine| ==> after[|before| + i - |was|] == mine[i])
  }

  lemma MergeLaysOver<K(!new), V>(was: map<K, V>, mine: map<K, V>, now: map<K, V>)
    requires MapMergeable(was, mine, now)
    ensures LaidOver(was, mine, now, MergeMap(was, mine, now))
  {
    forall k
      ensures var r := MergeMap(was, mine, now);
              if SameAt(was, mine, k) then SameAt(r, now, k) else SameAt(r, mine, k) && SameAt(was, now, k)
    {
      assert SameAt(MergeMap(was, mine, now), if SameAt(was, mine, k) then now else mine, k);
    }
  }

  /** Rows inserted after the snapshot follow the rows committed meanwhile. */
  function MergeAppended<T>(was: seq<T>, mine: seq<T>, now: seq<T>): (r: seq<T>)
    requires |was| <= |mine|
  {
    now + mine[|was|..]
  }

  predicate RowsMergeable<T(==)>(was: seq<T>, mine: seq<T>, now: seq<T>)
    requires |was| <= |mine| && |was| <= |now|
  {
    forall i :: 0 <= i < |was| && mine[i] != was[i] ==> now[i] == was[i]
  }

  /** Rows of a collection whose documents are also updated in place. */
  function MergeRows<T(==)>(was: seq<T>, mine: seq<T>, now: seq<T>): seq<T>
    requires |was| <= |mine| && |was| <= |now|
  {
    seq(|now|, i requires 0 <= i < |now| => if i < |was| && mine[i] != was[i] then mine[i] else now[i]) + mine[|was|..]
  }

  lemma MergeOneKey<K(!new), V>(was: map<K, V>, now: map<K, V>, k: K, v: V)
    requires MapMergeable(was, was[k := v], now)
    ensures k in was && was[k] == v ==> MergeMap(was, was[k := v], now) == now
    ensures !(k in was && was[k] == v) ==> MergeMap(was, was[k := v], now) == now[k := v] && SameAt(was, now, k)
  {
    var mine := was[k := v];
    forall x ensures SameAt(was, mine, x) <==> (x != k || (k in was && was[k] == v)) {}
    var r := MergeMap(was, mine, now);
    if k in was && was[k] == v {
      assert forall x :: SameAt(r, now, x);
      assert r == now;
    } else {
      assert !SameAt(was, mine, k);
      var target := now[k := v];
      assert forall x :: SameAt(r, target, x) by {
        forall x ensures SameAt(r, target, x) {
          assert SameAt(r, if SameAt(was, mine, x) then now else mine, x);
        }
      }
      assert r == target;
    }
  }

  /** A write that commits shows: a changed document differs from what was committed meanwhile. */
  lemma MergeChanges<K(!new), V>(was: map<K, V>, mine: map<K, V>, now: map<K, V>)
    requires MapMergeable(was, mine, now) && mine != was
    ensures MergeMap(was, mine, now) != now
  {
    var r := MergeMap(was, mine, now);
    assert exists k :: k in was.Keys + mine.Keys && !SameAt(was, mine, k) by {
      if forall k :: k in was.Keys + mine.Keys ==> SameAt(was, mine, k) {
        forall k ensures (k in mine <==> k in was) && (k in mine ==> mine[k] == was[k]) {
          assert k in was.Keys + mine.Keys ==> SameAt(was, mine, k);
        }
        assert false;
      }
    }
    var k :| k in was.Keys + mine.Keys && !SameAt(was, mine, k);
    assert SameAt(was, now, k) && SameAt(r, mine, k);
  }

  lemma MergeChangesRows<T>(was: seq<T>, mine: seq<T>, now: seq<T>)
    requires |was| <= |mine| && |was| <= |now| && RowsMergeable(was, mine, now) && mine != was
    ensures MergeRows(was, mine, now) != now
  {
    var r := MergeRows(was, mine, now);
    if |mine| == |was| {
      var i :| 0 <= i < |was| && mine[i] != was[i];
      assert r[i] == mine[i] && now[i] == was[i];
    } else {
      assert |r| > |now|;
    }
  }

  lemma MergeUntouched<K(!new), V>(was: map<K, V>, now: map<K, V>)
    ensures MapMergeable(was, was, now) && MergeMap(was, was, now) == now
  {
    var r := MergeMap(was, was, now);
    assert forall x :: SameAt(r, now, x) by {
      forall x ensures SameAt(r, now, x) { assert SameAt(was, was, x); }
    }
  }

  lemma MergeOneRow<T>(was: seq<T>, now: seq<T>, i: nat, x: T)
    requires i < |was| <= |now| && x != was[i]
    requires RowsMergeable(was, was[i := x], now)
    ensures now[i] == was[i] && MergeRows(was, was[i := x], now) == now[i := x]
  {
    assert was[i := x][i] != was[i];
  }

  lemma MergeOneInsert<T>(was: seq<T>, now: seq<T>, x: T)
    requires |was| <= |now|
    ensures RowsMergeable(was, was + [x], now) && MergeRows(was, was + [x], now) == now + [x]
    ensures MergeAppended(was, was + [x], now) == now + [x]
  {
  }

  lemma MergeNoRows<T>(was: seq<T>, now: seq<T>)
    requires |was| <= |now|
    ensures RowsMergeable(was, was, now) && MergeRows(was, was, now) == now && MergeAppended(was, was, now) == now
  {
  }
}
