/**
 * What the two leafset managers share: the leafset itself (node ID to
 * `"host:port"`), the arguments `updateLeafset` accepts and the leafset it
 * leaves behind, and the ring utility's nearest-ID query that
 * `getRoutingHop` relies on.
 */
module Leafsets {
  import opened Options
  import opened NodeIds
  import opened MapMerge

  /** Node ID to its `"host:port"` address. Unbounded: nothing limits its size. */
  type Leafset = map<NodeId, string>

  /**
   * The first argument of `updateLeafset`: missing (`undefined`), one ID
   * string with its address, or a whole dictionary of ID to address.
   */
  datatype LeafsetUpdate =
    | Absent
    | Single(id: NodeId, addr: string)
    | Nodes(nodes: map<NodeId, string>)

  /** `!a`: an absent argument or the empty ID string. A dictionary is never falsy. */
  predicate IsFalsy(u: LeafsetUpdate) {
    u.Absent? || (u.Single? && u.id == "")
  }

  /** The entries an update writes into the leafset. */
  function Supplied(u: LeafsetUpdate): map<NodeId, string> {
    if IsFalsy(u) then map[]
    else match u
      case Single(id, addr) => map[id := addr]
      case Nodes(nodes) => nodes
  }

  /** The leafset after `updateLeafset(u)`. */
  function Updated(ls: Leafset, u: LeafsetUpdate): Leafset {
    Overwrite(ls, Supplied(u))
  }

  /** A falsy first argument leaves the leafset as it was. */
  lemma UpdateFalsyIsNoOp(ls: Leafset, u: LeafsetUpdate)
    requires IsFalsy(u)
    ensures Updated(ls, u) == ls
  {
  }

  /** One `(id, addr)` pair: `id` now maps to `addr`, and every other entry is as it was. */
  lemma UpdateSingle(ls: Leafset, id: NodeId, addr: string)
    requires id != ""
    ensures var r := Updated(ls, Single(id, addr));
      && r.Keys == ls.Keys + {id}
      && r[id] == addr
      && forall k :: k in ls && k != id ==> r[k] == ls[k]
  {
  }

  /**
   * A dictionary: each supplied ID maps to its supplied address, each other
   * ID keeps its old address, and no ID appears that was in neither.
   */
  lemma UpdateNodes(ls: Leafset, nodes: map<NodeId, string>)
    ensures var r := Updated(ls, Nodes(nodes));
      && r.Keys == ls.Keys + nodes.Keys
      && (forall k :: k in nodes ==> r[k] == nodes[k])
      && (forall k :: k in ls && k !in nodes ==> r[k] == ls[k])
  {
  }

  /** No update removes an entry; the leafset never shrinks. */
  lemma UpdateNeverShrinks(ls: Leafset, u: LeafsetUpdate)
    ensures ls.Keys <= Updated(ls, u).Keys
    ensures |ls| <= |Updated(ls, u)|
  {
    OverwriteGrows(ls, Supplied(u));
  }

  /** Applying the same update twice leaves the same leafset as applying it once. */
  lemma UpdateIdempotent(ls: Leafset, u: LeafsetUpdate)
    ensures Updated(Updated(ls, u), u) == Updated(ls, u)
  {
    OverwriteIdempotent(ls, Supplied(u));
  }

  /** `n` distinct IDs ("0", "00", ...), all at the one address `addr`. */
  function ZeroIds(n: nat, addr: string): (nodes: map<NodeId, string>)
    ensures |nodes| == n
    ensures forall k :: k in nodes ==> 1 <= |k| <= n
  {
    if n == 0 then map[]
    else
      var rest := ZeroIds(n - 1, addr);
      assert Zeros(n) !in rest;
      rest[Zeros(n) := addr]
  }

  /** There is no size bound: whatever the leafset and whatever the bound, one update exceeds it. */
  lemma NoSizeBound(ls: Leafset, bound: nat, addr: string)
    ensures |Updated(ls, Nodes(ZeroIds(bound + 1, addr)))| > bound
  {
    OverwriteGrows(ls, ZeroIds(bound + 1, addr));
  }

  /**
   * What `ringutil.getNearestId(id, ids)` returns: its `nearest`, `lowest`
   * and `highest` IDs, each possibly missing. Nothing is assumed of how they
   * are chosen beyond `NearestContract`.
   */
  datatype Nearest = Nearest(nearest: Option<NodeId>, lowest: Option<NodeId>, highest: Option<NodeId>)

  /** What is known of getNearestId's answer: whatever it returns is one of the candidates. */
  predicate AmongCandidates(res: Nearest, ids: set<NodeId>) {
    && (res.nearest.Some? ==> res.nearest.value in ids)
    && (res.lowest.Some? ==> res.lowest.value in ids)
    && (res.highest.Some? ==> res.highest.value in ids)
  }

  ghost predicate NearestContract(getNearestId: (NodeId, set<NodeId>) -> Nearest) {
    forall id, ids :: AmongCandidates(getNearestId(id, ids), ids)
  }

  /**
   * The IDs `getRoutingHop` considers: the leafset's keys and the local
   * node's ID, as a set (their order and any repeat are dropped).
   */
  function Candidates(ls: Leafset, localId: NodeId): set<NodeId> {
    ls.Keys + {localId}
  }

  /** JavaScript truthiness of an optional ID: present and not the empty string. */
  predicate Truthy(o: Option<NodeId>) {
    o.Some? && o.value != ""
  }

  /**
   * The guard of `getRoutingHop`: a nearest ID exists, and `id` lies between
   * the lowest and the highest as plain unsigned integers (not around the ring).
   */
  predicate WithinRange(res: Nearest, id: NodeId) {
    && Truthy(res.nearest)
    && Truthy(res.highest) && Value(id) <= Value(res.highest.value)
    && Truthy(res.lowest) && Value(res.lowest.value) <= Value(id)
  }

  /**
   * The range guard never lets through an ID numerically above every
   * candidate, or below every candidate.
   */
  lemma OutsideSpanNotInRange(getNearestId: (NodeId, set<NodeId>) -> Nearest, ids: set<NodeId>, id: NodeId)
    requires NearestContract(getNearestId)
    requires (forall c :: c in ids ==> Value(c) < Value(id)) || (forall c :: c in ids ==> Value(id) < Value(c))
    ensures !WithinRange(getNearestId(id, ids), id)
  {
  }
}
