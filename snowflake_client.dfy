/**
 * The `SnowflakeClient` class of market-mirror/lib/snowflake-client.ts: it pseudonymises the user
 * id and either appends the snapshot to the local store or hands it to the remote warehouse.
 */
module Snowflake {
  import opened Types
  import opened TraderHash
  import opened SqlRules
  import opened LocalStore

  /** What `insertSnapshot` did: saved locally, or built the remote INSERT with these values. */
  datatype InsertOutcome =
    | SavedLocally(success: bool)
    | RemoteInsert(traderHash: string, snapshot: BehavioralSnapshot, columns: OptionalColumns)

  /** What `getTraderEvolution` answered: the local history, or the remote query for this hash. */
  datatype EvolutionAnswer =
    | LocalHistory(points: seq<EvolutionDataPoint>)
    | RemoteQuery(traderHash: string)

  class SnowflakeClient {
    var accountUrl: string
    var accessToken: string
    /** The array kept under the `behavioral_snapshots` storage key. */
    var snapshots: seq<StoredSnapshot>

    /** The two settings come from the environment (missing ones become ""); `stored` is what the device already holds. */
    constructor (accountUrl: string, accessToken: string, stored: seq<StoredSnapshot>)
      ensures this.accountUrl == accountUrl && this.accessToken == accessToken && snapshots == stored
    {
      this.accountUrl := accountUrl;
      this.accessToken := accessToken;
      snapshots := stored;
    }

    /** `!this.accountUrl || !this.accessToken`: without both settings, everything stays on the device. */
    predicate UsesLocalStore()
      reads this
    {
      accountUrl == "" || accessToken == ""
    }

    /** `storeLocally`: appends one entry, the snapshot with its trader hash, and keeps every earlier entry. */
    method StoreLocally(traderHash: string, snapshot: BehavioralSnapshot) returns (success: bool)
      modifies this`snapshots
      ensures snapshots == old(snapshots) + [StoredSnapshot(snapshot, traderHash)]
      ensures success
    {
      snapshots := snapshots + [StoredSnapshot(snapshot, traderHash)];
      success := true;
    }

    /** `insertSnapshot`: the local path appends; the remote path builds the statement's values and leaves the store alone. */
    method InsertSnapshot(userId: seq<CodeUnit>, snapshot: BehavioralSnapshot) returns (outcome: InsertOutcome)
      modifies this`snapshots
      ensures UsesLocalStore() ==>
        outcome == SavedLocally(true) && snapshots == old(snapshots) + [StoredSnapshot(snapshot, HashHex(userId))]
      ensures !UsesLocalStore() ==>
        outcome == RemoteInsert(HashHex(userId), snapshot, OptionalColumnsOf(snapshot)) && snapshots == old(snapshots)
    {
      var traderHash := HashUserId(userId);
      if accountUrl == "" || accessToken == "" {
        var success := StoreLocally(traderHash, snapshot);
        outcome := SavedLocally(success);
        return;
      }
      outcome := RemoteInsert(traderHash, snapshot, OptionalColumnsOf(snapshot));
    }

    /** `getTraderEvolution`: the local path reads the trader's history from the store. */
    method GetTraderEvolution(userId: seq<CodeUnit>) returns (answer: EvolutionAnswer)
      ensures UsesLocalStore() ==> answer == LocalHistory(LocalEvolution(snapshots, HashHex(userId)))
      ensures !UsesLocalStore() ==> answer == RemoteQuery(HashHex(userId))
    {
      var traderHash := HashUserId(userId);
      if accountUrl == "" || accessToken == "" {
        answer := LocalHistory(LocalEvolution(snapshots, traderHash));
        return;
      }
      answer := RemoteQuery(traderHash);
    }
  }

  /**
   * A caller's view of the local round trip: after inserting for `userId`, that user's history has
   * grown by the snapshot's point, and a user whose id hashes differently sees no change.
   */
  method InsertThenQuery(client: SnowflakeClient, userId: seq<CodeUnit>, otherId: seq<CodeUnit>, snapshot: BehavioralSnapshot)
    returns (before: seq<EvolutionDataPoint>, after: seq<EvolutionDataPoint>, otherBefore: seq<EvolutionDataPoint>, otherAfter: seq<EvolutionDataPoint>)
    requires client.UsesLocalStore()
    requires HashHex(otherId) != HashHex(userId)
    modifies client`snapshots
    ensures client.snapshots == old(client.snapshots) + [StoredSnapshot(snapshot, HashHex(userId))]
    ensures before == LocalEvolution(old(client.snapshots), HashHex(userId))
    ensures after == LocalEvolution(client.snapshots, HashHex(userId))
    ensures otherBefore == LocalEvolution(old(client.snapshots), HashHex(otherId))
    ensures otherAfter == LocalEvolution(client.snapshots, HashHex(otherId))
    ensures ExtendedBy(before, after, snapshot)
    ensures otherAfter == otherBefore
  {
    var a := client.GetTraderEvolution(userId);
    var b := client.GetTraderEvolution(otherId);
    ghost var stored := client.snapshots;
    var outcome := client.InsertSnapshot(userId, snapshot);
    var c := client.GetTraderEvolution(userId);
    var d := client.GetTraderEvolution(otherId);
    StoreThenEvolution(stored, snapshot, HashHex(userId));
    StoreKeepsOtherTraders(stored, snapshot, HashHex(userId), HashHex(otherId));
    before, after, otherBefore, otherAfter := a.points, c.points, b.points, d.points;
  }
}
