/**
 * The older leafset manager of `lib/leafsetmgr.js`: the same dictionary and
 * merge, but `getRoutingHop` answers with the bare nearest ID.
 */
module LegacyLeafsetMgr {
  import opened Options
  import opened NodeIds
  import opened MapMerge
  import opened Leafsets
  import LeafsetMgr

  class LegacyLeafsetManager {
    /** The module-level `leafset` dictionary. */
    var leafset: Leafset

    constructor ()
      ensures leafset == map[]
    {
      leafset := map[];
    }

    /** `updateLeafset(a, b)`: the same last-write-wins merge as the newer manager. */
    method UpdateLeafset(update: LeafsetUpdate)
      modifies this
      ensures leafset == Updated(old(leafset), update)
    {
      if IsFalsy(update) {
        return;
      }
      var nodes: map<NodeId, string> := if update.Single? then map[update.id := update.addr] else update.nodes;
      var pending := nodes.Keys;
      while pending != {}
        invariant pending <= nodes.Keys
        invariant leafset.Keys == old(leafset).Keys + (nodes.Keys - pending)
        invariant forall k :: k in nodes && k !in pending ==> leafset[k] == nodes[k]
        invariant forall k :: k in old(leafset) && (k !in nodes || k in pending) ==> leafset[k] == old(leafset)[k]
        decreases pending
      {
        var id :| id in pending;
        leafset := leafset[id := nodes[id]];
        pending := pending - {id};
      }
      assert leafset == Overwrite(old(leafset), nodes);
    }

    /**
     * `getRoutingHop(id)`: the nearest candidate ID, but only when `id` lies
     * between the lowest and highest candidates; otherwise none.
     */
    function RoutingHop(id: NodeId, localId: NodeId, getNearestId: (NodeId, set<NodeId>) -> Nearest): (hop: Option<NodeId>)
      reads this
      requires NearestContract(getNearestId)
      ensures var res := getNearestId(id, Candidates(leafset, localId));
        && (hop.Some? <==> WithinRange(res, id))
        && (hop.Some? ==> hop.value == res.nearest.value)
      ensures hop.Some? ==> hop.value in leafset || hop.value == localId
    {
      var res := getNearestId(id, Candidates(leafset, localId));
      assert AmongCandidates(res, Candidates(leafset, localId));
      if WithinRange(res, id) then Some(res.nearest.value) else None
    }
  }

  /**
   * Over the same leafset, local ID and `getNearestId`, the older manager
   * answers exactly when the newer one does, with the ID of the newer one's
   * hop. Each manager loads its own `node` and `ringutil`, so this says they
   * agree as far as those two answer alike.
   */
  lemma AgreesWithNewerManager(legacy: LegacyLeafsetManager, current: LeafsetMgr.LeafsetManager,
                               id: NodeId, localId: NodeId, getNearestId: (NodeId, set<NodeId>) -> Nearest)
    requires NearestContract(getNearestId)
    requires legacy.leafset == current.leafset
    ensures var old_hop := legacy.RoutingHop(id, localId, getNearestId);
            var new_hop := current.RoutingHop(id, localId, getNearestId);
      && (old_hop.Some? <==> new_hop.Some?)
      && (old_hop.Some? ==> old_hop.value == new_hop.value.id)
  {
  }
}
