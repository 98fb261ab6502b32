/**
 * The per-player buffering list of a view model (`VideoBufferingState`) and
 * its keyed upsert, `updateBufferingState` minus the emission.
 */
module Buffering {
  import opened Wrappers

  /** `VideoBufferingState(playerId, buffering)`. */
  datatype BufferingEntry = BufferingEntry(playerId: nat, buffering: bool)

  /** The player ids that have an entry. */
  function Ids(entries: seq<BufferingEntry>): set<nat>
  {
    if |entries| == 0 then {} else {entries[0].playerId} + Ids(entries[1..])
  }

  /** No player id has more than one entry: the head's id is not among the tail's, recursively. */
  predicate UniqueIds(entries: seq<BufferingEntry>)
  {
    |entries| == 0 || (entries[0].playerId !in Ids(entries[1..]) && UniqueIds(entries[1..]))
  }

  /** `find { it.playerId == id }?.buffering`: the flag of the first entry for `id`. */
  function Lookup(entries: seq<BufferingEntry>, id: nat): Option<bool>
  {
    if |entries| == 0 then None
    else if entries[0].playerId == id then Some(entries[0].buffering)
    else Lookup(entries[1..], id)
  }

  /** The lookup misses exactly the ids that have no entry. */
  lemma {:induction false} LookupMissesIffAbsent(entries: seq<BufferingEntry>, id: nat)
    ensures Lookup(entries, id).None? <==> id !in Ids(entries)
  {
    if |entries| > 0 && entries[0].playerId != id {
      LookupMissesIffAbsent(entries[1..], id);
    }
  }

  /** The list read as a map from player id to flag, the first entry for an id winning. */
  function AsMap(entries: seq<BufferingEntry>): map<nat, bool>
  {
    if |entries| == 0 then map[]
    else AsMap(entries[1..])[entries[0].playerId := entries[0].buffering]
  }

  /** The map and the lookup agree: same keys as the found ids, same flags. */
  lemma {:induction false} AsMapAgreesWithLookup(entries: seq<BufferingEntry>, id: nat)
    ensures id in AsMap(entries) <==> Lookup(entries, id).Some?
    ensures id in AsMap(entries) ==> AsMap(entries)[id] == Lookup(entries, id).value
  {
    if |entries| > 0 && entries[0].playerId != id {
      AsMapAgreesWithLookup(entries[1..], id);
    }
  }

  /**
   * Sets the flag of the first entry for `id`, or appends a new entry when
   * there is none.
   */
  function Upsert(entries: seq<BufferingEntry>, id: nat, isBuffering: bool): (r: seq<BufferingEntry>)
    ensures Lookup(r, id) == Some(isBuffering)
    ensures id in Ids(entries) ==> |r| == |entries|
    ensures id !in Ids(entries) ==> r == entries + [BufferingEntry(id, isBuffering)]
  {
    if |entries| == 0 then [BufferingEntry(id, isBuffering)]
    else if entries[0].playerId == id then [BufferingEntry(id, isBuffering)] + entries[1..]
    else
      var rest := Upsert(entries[1..], id, isBuffering);
      assert entries == [entries[0]] + entries[1..];
      [entries[0]] + rest
  }

  /** The upsert adds its id to the ids that have an entry, and no other. */
  lemma {:induction false} UpsertIds(entries: seq<BufferingEntry>, id: nat, isBuffering: bool)
    ensures Ids(Upsert(entries, id, isBuffering)) == Ids(entries) + {id}
  {
    if |entries| > 0 {
      var r := Upsert(entries, id, isBuffering);
      if entries[0].playerId == id {
        assert r[1..] == entries[1..];
      } else {
        UpsertIds(entries[1..], id, isBuffering);
        assert r[1..] == Upsert(entries[1..], id, isBuffering);
      }
    }
  }

  /** The upsert leaves every other id's flag alone. */
  lemma {:induction false} UpsertKeepsOtherLookups(entries: seq<BufferingEntry>, id: nat, isBuffering: bool, k: nat)
    requires k != id
    ensures Lookup(Upsert(entries, id, isBuffering), k) == Lookup(entries, k)
  {
    if |entries| > 0 && entries[0].playerId != id {
      UpsertKeepsOtherLookups(entries[1..], id, isBuffering, k);
    }
  }

  /** The upsert keeps every position's id and changes no entry of another id. */
  lemma {:induction false} UpsertKeepsPositions(entries: seq<BufferingEntry>, id: nat, isBuffering: bool)
    ensures |entries| <= |Upsert(entries, id, isBuffering)|
    ensures forall i :: 0 <= i < |entries| ==> Upsert(entries, id, isBuffering)[i].playerId == entries[i].playerId
    ensures forall i :: 0 <= i < |entries| && entries[i].playerId != id ==> Upsert(entries, id, isBuffering)[i] == entries[i]
  {
    if |entries| > 0 && entries[0].playerId != id {
      var r := Upsert(entries, id, isBuffering);
      UpsertKeepsPositions(entries[1..], id, isBuffering);
      assert r == [entries[0]] + Upsert(entries[1..], id, isBuffering);
    }
  }

  /** The upsert is exactly a map update of the list read as a map. */
  lemma {:induction false} UpsertIsMapUpdate(entries: seq<BufferingEntry>, id: nat, isBuffering: bool)
    ensures AsMap(Upsert(entries, id, isBuffering)) == AsMap(entries)[id := isBuffering]
  {
    if |entries| > 0 {
      var r := Upsert(entries, id, isBuffering);
      var head := entries[0];
      if head.playerId == id {
        assert r[1..] == entries[1..];
        assert AsMap(r) == AsMap(entries[1..])[id := isBuffering];
      } else {
        var rest: map<nat, bool> := AsMap(entries[1..]);
        UpsertIsMapUpdate(entries[1..], id, isBuffering);
        assert r[0] == head && r[1..] == Upsert(entries[1..], id, isBuffering);
        assert AsMap(r) == rest[id := isBuffering][head.playerId := head.buffering];
        UpdatesCommute(rest, id, isBuffering, head.playerId, head.buffering);
      }
    }
  }

  lemma UpdatesCommute(m: map<nat, bool>, a: nat, x: bool, b: nat, y: bool)
    requires a != b
    ensures m[a := x][b := y] == m[b := y][a := x]
  {
  }

  /** Upserting the same flag twice is the same as upserting it once. */
  lemma {:induction false} UpsertIdempotent(entries: seq<BufferingEntry>, id: nat, isBuffering: bool)
    ensures Upsert(Upsert(entries, id, isBuffering), id, isBuffering) == Upsert(entries, id, isBuffering)
  {
    if |entries| > 0 && entries[0].playerId != id {
      var r := Upsert(entries, id, isBuffering);
      UpsertIdempotent(entries[1..], id, isBuffering);
      assert r[1..] == Upsert(entries[1..], id, isBuffering);
    } else if |entries| > 0 {
      var r := Upsert(entries, id, isBuffering);
      assert r[1..] == entries[1..];
    }
  }

  /** An id has an entry exactly when some position of the list holds it. */
  lemma {:induction false} InIds(entries: seq<BufferingEntry>, id: nat)
    ensures id in Ids(entries) <==> exists i :: 0 <= i < |entries| && entries[i].playerId == id
  {
    if |entries| > 0 {
      InIds(entries[1..], id);
      if id in Ids(entries[1..]) {
        var i :| 0 <= i < |entries[1..]| && entries[1..][i].playerId == id;
        assert entries[i + 1].playerId == id;
      }
      if exists i :: 0 <= i < |entries| && entries[i].playerId == id {
        var i :| 0 <= i < |entries| && entries[i].playerId == id;
        if i > 0 {
          assert entries[1..][i - 1].playerId == id;
        }
      }
    }
  }

  /** Unique ids, read positionally: no two positions hold the same id. */
  lemma {:induction false} UniqueIdsPairwise(entries: seq<BufferingEntry>)
    ensures UniqueIds(entries) <==>
      forall i, j :: 0 <= i < j < |entries| ==> entries[i].playerId != entries[j].playerId
  {
    if |entries| > 0 {
      var tail := entries[1..];
      UniqueIdsPairwise(tail);
      InIds(tail, entries[0].playerId);
      if UniqueIds(entries) {
        forall i, j | 0 <= i < j < |entries| ensures entries[i].playerId != entries[j].playerId {
          assert entries[j] == tail[j - 1];
          if i > 0 {
            assert entries[i] == tail[i - 1];
          }
        }
      }
      if forall i, j :: 0 <= i < j < |entries| ==> entries[i].playerId != entries[j].playerId {
        forall i, j | 0 <= i < j < |tail| ensures tail[i].playerId != tail[j].playerId {
          assert tail[i] == entries[i + 1] && tail[j] == entries[j + 1];
        }
      }
    }
  }

  /** The upsert never creates a second entry for an id. */
  lemma {:induction false} UpsertKeepsUniqueIds(entries: seq<BufferingEntry>, id: nat, isBuffering: bool)
    requires UniqueIds(entries)
    ensures UniqueIds(Upsert(entries, id, isBuffering))
  {
    var r := Upsert(entries, id, isBuffering);
    if |entries| == 0 {
      assert r[1..] == [];
    } else if entries[0].playerId == id {
      assert r[1..] == entries[1..];
    } else {
      UpsertKeepsUniqueIds(entries[1..], id, isBuffering);
      UpsertIds(entries[1..], id, isBuffering);
      assert r[1..] == Upsert(entries[1..], id, isBuffering);
    }
  }

  /**
   * On a list with unique ids the upserted id ends up with exactly one entry
   * (it has one, ids stay unique), and that entry carries the new flag.
   */
  lemma UpsertSingleEntry(entries: seq<BufferingEntry>, id: nat, isBuffering: bool)
    requires UniqueIds(entries)
    ensures var r := Upsert(entries, id, isBuffering);
      id in Ids(r) && UniqueIds(r) &&
      forall j :: 0 <= j < |r| && r[j].playerId == id ==> r[j].buffering == isBuffering
  {
    var r := Upsert(entries, id, isBuffering);
    UpsertKeepsUniqueIds(entries, id, isBuffering);
    forall j | 0 <= j < |r| && r[j].playerId == id ensures r[j].buffering == isBuffering {
      LookupFindsUnique(r, j);
    }
  }

  /** With unique ids, `Lookup` returns the flag of the entry that holds the id. */
  lemma {:induction false} LookupFindsUnique(entries: seq<BufferingEntry>, i: nat)
    requires UniqueIds(entries) && i < |entries|
    ensures Lookup(entries, entries[i].playerId) == Some(entries[i].buffering)
  {
    if i > 0 {
      assert entries[1..][i - 1] == entries[i];
      InIds(entries[1..], entries[i].playerId);
      LookupFindsUnique(entries[1..], i - 1);
    }
  }

  /** The buffering list after the first `n` streams have each been marked buffering. */
  function MarkedBuffering(entries: seq<BufferingEntry>, n: nat): seq<BufferingEntry>
  {
    if n == 0 then entries else Upsert(MarkedBuffering(entries, n - 1), n - 1, true)
  }

  /** Marking the first `n` ids buffering overrides exactly those ids. */
  lemma {:induction false} MarkedBufferingLooksUp(entries: seq<BufferingEntry>, n: nat)
    ensures forall k: nat :: Lookup(MarkedBuffering(entries, n), k) == if k < n then Some(true) else Lookup(entries, k)
  {
    forall k: nat
      ensures Lookup(MarkedBuffering(entries, n), k) == if k < n then Some(true) else Lookup(entries, k)
    {
      MarkedBufferingLooksUpAt(entries, n, k);
    }
  }

  lemma {:induction false} MarkedBufferingLooksUpAt(entries: seq<BufferingEntry>, n: nat, k: nat)
    ensures Lookup(MarkedBuffering(entries, n), k) == if k < n then Some(true) else Lookup(entries, k)
  {
    if n > 0 {
      var before := MarkedBuffering(entries, n - 1);
      var after := Upsert(before, n - 1, true);
      assert MarkedBuffering(entries, n) == after;
      if k == n - 1 {
        assert Lookup(after, k) == Some(true);
      } else {
        MarkedBufferingLooksUpAt(entries, n - 1, k);
        UpsertKeepsOtherLookups(before, n - 1, true, k);
        assert Lookup(after, k) == Lookup(before, k);
      }
    }
  }

  /** Marking the first `n` ids buffering adds exactly those ids. */
  lemma {:induction false} MarkedBufferingIds(entries: seq<BufferingEntry>, n: nat)
    ensures forall k: nat :: k in Ids(MarkedBuffering(entries, n)) <==> (k < n || k in Ids(entries))
  {
    if n > 0 {
      var before := MarkedBuffering(entries, n - 1);
      MarkedBufferingIds(entries, n - 1);
      UpsertIds(before, n - 1, true);
    }
  }

  /** Marking ids buffering never duplicates an id. */
  lemma {:induction false} MarkedBufferingUnique(entries: seq<BufferingEntry>, n: nat)
    requires UniqueIds(entries)
    ensures UniqueIds(MarkedBuffering(entries, n))
  {
    if n > 0 {
      MarkedBufferingUnique(entries, n - 1);
      UpsertKeepsUniqueIds(MarkedBuffering(entries, n - 1), n - 1, true);
    }
  }
}
