/**
 * The leafset manager of `lib/core/leafsetmgr.js`: a dictionary from node
 * ID to `"host:port"`, merged into by `updateLeafset` and queried by
 * `getRoutingHop`, which answers only for IDs inside the leafset's range.
 */
module LeafsetMgr {
  import opened Options
  import opened NodeIds
  import opened Strings
  import opened MapMerge
  import opened Leafsets

  /** A routing hop: the local node (`{id}`) or a leafset member with its address split in two. */
  datatype Hop =
    | LocalHop(id: NodeId)
    | RemoteHop(id: NodeId, addr: string, port: Option<string>)

  class LeafsetManager {
    /** The module-level `leafset` dictionary. */
    var leafset: Leafset

    constructor ()
      ensures leafset == map[]
    {
      leafset := map[];
    }

    /**
     * `updateLeafset(a, b)`: merge one pair or a whole dictionary into the
     * leafset, last write wins; a falsy `a` does nothing.
     */
    method UpdateLeafset(update: LeafsetUpdate)
      modifies this
      ensures leafset == Updated(old(leafset), update)
    {
      if IsFalsy(update) {
        return;
      }
      var nodes: map<NodeId, string> := if update.Single? then map[update.id := update.addr] else update.nodes;
      var pending := nodes.Keys;
      while pending != {}
        invariant pending <= nodes.Keys
        invariant leafset.Keys == old(leafset).Keys + (nodes.Keys - pending)
        invariant forall k :: k in nodes && k !in pending ==> leafset[k] == nodes[k]
        invariant forall k :: k in old(leafset) && (k !in nodes || k in pending) ==> leafset[k] == old(leafset)[k]
        decreases pending
      {
        var id :| id in pending;
        leafset := leafset[id := nodes[id]];
        pending := pending - {id};
      }
      assert leafset == Overwrite(old(leafset), nodes);
    }

    /**
     * `getRoutingHop(id)`: the candidate nearest to `id`, but only when `id`
     * lies between the lowest and highest candidates; otherwise no hop.
     */
    function RoutingHop(id: NodeId, localId: NodeId, getNearestId: (NodeId, set<NodeId>) -> Nearest): (hop: Option<Hop>)
      reads this
      requires NearestContract(getNearestId)
      ensures var res := getNearestId(id, Candidates(leafset, localId));
        && (hop.Some? <==> WithinRange(res, id))
        && (hop.Some? ==> hop.value.id == res.nearest.value)
      ensures hop.Some? ==> hop.value.id in leafset || hop.value.id == localId
      ensures hop.Some? ==> (hop.value.LocalHop? <==> hop.value.id == localId)
      ensures hop.Some? && hop.value.RemoteHop? ==>
        hop.value.id in leafset && HostPort(leafset[hop.value.id], hop.value.addr, hop.value.port)
    {
      var res := getNearestId(id, Candidates(leafset, localId));
      assert AmongCandidates(res, Candidates(leafset, localId));
      if !WithinRange(res, id) then None
      else if res.nearest.value == localId then Some(LocalHop(localId))
      else
        var (addr, port) := SplitHostPort(leafset[res.nearest.value]);
        Some(RemoteHop(res.nearest.value, addr, port))
    }
  }

  /**
   * An ID numerically above, or below, the local ID and every leafset key
   * gets no hop: the leafset never routes outside its own range.
   */
  lemma NoHopOutsideLeafsetRange(mgr: LeafsetManager, id: NodeId, localId: NodeId,
                                 getNearestId: (NodeId, set<NodeId>) -> Nearest)
    requires NearestContract(getNearestId)
    requires (Value(localId) < Value(id) && forall k :: k in mgr.leafset ==> Value(k) < Value(id))
          || (Value(id) < Value(localId) && forall k :: k in mgr.leafset ==> Value(id) < Value(k))
    ensures mgr.RoutingHop(id, localId, getNearestId) == None
  {
    OutsideSpanNotInRange(getNearestId, Candidates(mgr.leafset, localId), id);
  }
}
