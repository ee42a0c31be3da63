/**
 * The on-device store of snapshots used when the warehouse is not configured: an append-only list
 * of snapshots tagged with their trader hash, and the evolution view read from it.
 */
module LocalStore {
  import opened Types
  import opened Seqs

  /** A stored entry: the snapshot spread together with its `trader_hash`. */
  datatype StoredSnapshot = StoredSnapshot(snapshot: BehavioralSnapshot, traderHash: string)

  /** The entries of one trader, in the order they were stored. */
  function TraderSnapshots(stored: seq<StoredSnapshot>, traderHash: string): (r: seq<StoredSnapshot>)
    ensures |r| <= |stored|
    ensures forall i :: 0 <= i < |r| ==> r[i].traderHash == traderHash
  {
    Filter(stored, (s: StoredSnapshot) => s.traderHash == traderHash)
  }

  /** The `map` over a trader's entries: sessions numbered from 1, improvement relative to the previous entry. */
  function ToEvolution(ts: seq<StoredSnapshot>): seq<EvolutionDataPoint>
  {
    seq(|ts|, (index: int) requires 0 <= index < |ts| =>
      EvolutionDataPoint(
        index + 1,
        ts[index].snapshot.timestamp,
        ts[index].snapshot.emotionalSelfScore,
        ts[index].snapshot.rationalSelfScore,
        ts[index].snapshot.disciplineDelta,
        if index > 0 then Some(ts[index].snapshot.disciplineDelta - ts[index - 1].snapshot.disciplineDelta) else None,
        ts[index].snapshot.dominantBias))
  }

  /** Consecutive points are linked: the first has no improvement, every later one the change in discipline delta. */
  predicate Chained(points: seq<EvolutionDataPoint>)
  {
    forall i :: 0 <= i < |points| ==> LinkedAt(points, i)
  }

  predicate LinkedAt(points: seq<EvolutionDataPoint>, i: nat)
    requires i < |points|
  {
    && points[i].sessionNumber == i + 1
    && points[i].disciplineImprovement
       == if i == 0 then None else Some(points[i].disciplineDelta - points[i - 1].disciplineDelta)
  }

  /** `getLocalEvolutionData`: one point per entry of the trader, in stored order. */
  function LocalEvolution(stored: seq<StoredSnapshot>, traderHash: string): (r: seq<EvolutionDataPoint>)
    ensures |r| == |TraderSnapshots(stored, traderHash)| <= |stored|
    ensures Chained(r)
    ensures forall i :: 0 <= i < |r| ==> PointFrom(r[i], TraderSnapshots(stored, traderHash)[i].snapshot)
  {
    ToEvolution(TraderSnapshots(stored, traderHash))
  }

  /** A point carries the timestamp, the two scores, the discipline delta and the bias of its snapshot. */
  predicate PointFrom(p: EvolutionDataPoint, s: BehavioralSnapshot)
  {
    && p.timestamp == s.timestamp
    && p.emotionalScore == s.emotionalSelfScore
    && p.rationalScore == s.rationalSelfScore
    && p.disciplineDelta == s.disciplineDelta
    && p.dominantBias == s.dominantBias
  }

  /** Every trader's view holds only entries tagged with that trader's hash, all taken from the store. */
  lemma TraderSnapshotsBelong(stored: seq<StoredSnapshot>, traderHash: string)
    ensures forall e :: e in TraderSnapshots(stored, traderHash) <==> e in stored && e.traderHash == traderHash
  {
    forall e ensures e in TraderSnapshots(stored, traderHash) <==> e in stored && e.traderHash == traderHash {
      FilterMembership(stored, (s: StoredSnapshot) => s.traderHash == traderHash, e);
    }
  }

  /**
   * `after` is `before` with one more point at the end, numbered next, carrying the fields of
   * `snapshot` and the improvement over the previous last point.
   */
  predicate ExtendedBy(before: seq<EvolutionDataPoint>, after: seq<EvolutionDataPoint>, snapshot: BehavioralSnapshot)
  {
    && |after| == |before| + 1
    && after[..|before|] == before
    && after[|before|].sessionNumber == |before| + 1
    && PointFrom(after[|before|], snapshot)
    && after[|before|].disciplineImprovement
       == if before == [] then None else Some(snapshot.disciplineDelta - before[|before| - 1].disciplineDelta)
  }

  /** Insert followed by query: storing a snapshot under `traderHash` extends that trader's evolution by its point. */
  lemma StoreThenEvolution(stored: seq<StoredSnapshot>, snapshot: BehavioralSnapshot, traderHash: string)
    ensures ExtendedBy(LocalEvolution(stored, traderHash), LocalEvolution(stored + [StoredSnapshot(snapshot, traderHash)], traderHash), snapshot)
  {
    var entry := StoredSnapshot(snapshot, traderHash);
    FilterSnoc(stored, entry, (s: StoredSnapshot) => s.traderHash == traderHash);
    var ts := TraderSnapshots(stored, traderHash);
    assert TraderSnapshots(stored + [entry], traderHash) == ts + [entry];
    EvolutionSnoc(ts, entry);
  }

  lemma EvolutionSnoc(ts: seq<StoredSnapshot>, entry: StoredSnapshot)
    ensures ExtendedBy(ToEvolution(ts), ToEvolution(ts + [entry]), entry.snapshot)
  {
    var before, after := ToEvolution(ts), ToEvolution(ts + [entry]);
    forall i | 0 <= i < |before| ensures after[i] == before[i] {
      assert (ts + [entry])[i] == ts[i];
      assert i > 0 ==> (ts + [entry])[i - 1] == ts[i - 1];
    }
    assert after[..|before|] == before;
    if ts != [] {
      assert (ts + [entry])[|ts| - 1] == ts[|ts| - 1];
    }
  }

  /** Storing a snapshot under one trader hash leaves every other trader's evolution as it was. */
  lemma StoreKeepsOtherTraders(stored: seq<StoredSnapshot>, snapshot: BehavioralSnapshot, traderHash: string, other: string)
    requires other != traderHash
    ensures LocalEvolution(stored + [StoredSnapshot(snapshot, traderHash)], other) == LocalEvolution(stored, other)
  {
    FilterSnoc(stored, StoredSnapshot(snapshot, traderHash), (s: StoredSnapshot) => s.traderHash == other);
  }

  /** What a point reports as improvement; nothing for the first point. */
  function ImprovementOf(p: EvolutionDataPoint): real
  {
    match p.disciplineImprovement
    case None => 0.0
    case Some(d) => d
  }

  /** The improvements that the points report, added up. */
  function TotalImprovement(points: seq<EvolutionDataPoint>): real
  {
    if points == [] then 0.0 else TotalImprovement(points[..|points| - 1]) + ImprovementOf(points[|points| - 1])
  }

  /** The improvements telescope: over a trader's history they add up to the last delta minus the first. */
  lemma {:induction false} ImprovementsTelescope(points: seq<EvolutionDataPoint>)
    requires Chained(points) && points != []
    ensures TotalImprovement(points) == points[|points| - 1].disciplineDelta - points[0].disciplineDelta
  {
    var n := |points|;
    var init := points[..n - 1];
    if n == 1 {
      assert init == [];
      assert LinkedAt(points, 0);
    } else {
      assert Chained(init) by {
        forall i | 0 <= i < |init| ensures LinkedAt(init, i) {
          assert LinkedAt(points, i);
        }
      }
      ImprovementsTelescope(init);
      assert LinkedAt(points, n - 1);
    }
  }
}
