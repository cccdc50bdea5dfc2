/** The template-to-instance graph copy of Node.copyToGraph.

    Graphs are arenas: a map from node id to node, where each node lists its
    outgoing routes ("options") and each route names its endpoints by id.
    The template's per-node `copied` flags are the set `Template.copied`; the
    NarrativeInstance being filled is an `Instance` with its `nodes` and
    `narratives` maps. */
module NodeCopy {
  import opened Common

  type NodeId = string
  type RouteId = string

  /** A primitive value held in a property bag. */
  datatype Value = IntValue(i: int) | StringValue(s: string) | BoolValue(b: bool)

  /** An android.os.BaseBundle.  Bags are values, so `new BaseBundle(b)` is
      just `b`: a later write to the copy cannot reach the original. */
  type Bag = map<string, Value>

  /** The reserved key under which the copier keeps a node's entry count. */
  const EntriesKey: string := "Impl.Node.Entries"

  /** The two concrete node classes. */
  datatype Kind = Choice | Synchronization

  /** A Narrative (one directed edge). */
  datatype Route = Route(id: RouteId, from: NodeId, to: NodeId, props: Option<Bag>)

  datatype Node = Node(id: NodeId, kind: Kind, props: Option<Bag>, options: seq<Route>)

  /** BaseBundle.getInt: the int stored under `key`, or 0 when there is none. */
  function GetInt(b: Bag, key: string): int {
    if key in b && b[key].IntValue? then b[key].i else 0
  }

  /** Node.createProperties: give the node an empty bag, unless it has one. */
  function CreateProperties(n: Node): (r: Node)
    ensures r.id == n.id && r.kind == n.kind && r.options == n.options
    ensures r.props.Some?
    ensures n.props.Some? ==> r.props == n.props
    ensures n.props.None? ==> r.props == Some(map[])
  {
    if n.props.None? then n.(props := Some(map[])) else n
  }

  /** The bag of a node after createProperties. */
  function BagOf(props: Option<Bag>): Bag {
    if props.Some? then props.value else map[]
  }

  /** The properties an instance node ends up with when `count` template
      routes have entered it: the template's bag when none has, otherwise
      that bag (or a new one) with the counter under EntriesKey. */
  function EntryProps(base: Option<Bag>, count: nat): Option<Bag> {
    if count == 0 then base else Some(BagOf(base)[EntriesKey := IntValue(count)])
  }

  /** The instance route built for template route `r`: same id and
      endpoints, and no bag (the Narrative constructor is given none). */
  function Mirror(r: Route): Route {
    Route(r.id, r.from, r.to, None)
  }

  /** A template as the copier expects it: every node is stored under its
      own id, every option starts at its node and ends at a node of the
      graph, and a route id names one route only. */
  ghost predicate WellFormed(nodes: map<NodeId, Node>) {
    && (forall id | id in nodes :: nodes[id].id == id)
    && (forall id, k | id in nodes && 0 <= k < |nodes[id].options| ::
          nodes[id].options[k].from == id && nodes[id].options[k].to in nodes)
    && UniqueIds(nodes)
  }

  /** The id of option `k` of node `m`. */
  ghost function IdAt(nodes: map<NodeId, Node>, m: NodeId, k: int): RouteId
    requires m in nodes && 0 <= k < |nodes[m].options|
  {
    nodes[m].options[k].id
  }

  /** A route id names one route only. */
  ghost predicate UniqueIds(nodes: map<NodeId, Node>) {
    forall a, i, b, j | a in nodes && b in nodes && 0 <= i < |nodes[a].options| && 0 <= j < |nodes[b].options|
      :: IdAt(nodes, a, i) == IdAt(nodes, b, j) ==> a == b && i == j
  }

  /** `rank` decreases strictly along every route that leaves a ranked node:
      the part of the template reachable from a ranked node has no cycle. */
  ghost predicate Ranked(nodes: map<NodeId, Node>, rank: map<NodeId, nat>) {
    && (forall id | id in rank :: id in nodes)
    && (forall id, k | id in rank && id in nodes && 0 <= k < |nodes[id].options| ::
          nodes[id].options[k].to in rank && rank[nodes[id].options[k].to] < rank[id])
  }

  /** Option `k` of node `m` has been processed, according to `progress`,
      which maps each copied node to how many of its options the copier has
      gone through. */
  ghost predicate Processed(nodes: map<NodeId, Node>, progress: map<NodeId, nat>, m: NodeId, k: int) {
    m in progress && m in nodes && 0 <= k < progress[m] && k < |nodes[m].options|
  }

  /** The processed routes that end at `e`, by position (node, index). */
  ghost function Arrivals(nodes: map<NodeId, Node>, progress: map<NodeId, nat>, e: NodeId): set<(NodeId, int)> {
    set m, k | m in progress && m in nodes && 0 <= k < progress[m] && k < |nodes[m].options|
                 && nodes[m].options[k].to == e :: (m, k)
  }

  /** The template routes that leave a node of `from` and end at `m`, by
      position: parallel routes count separately. */
  ghost function EnteringRoutes(nodes: map<NodeId, Node>, from: set<NodeId>, m: NodeId): set<(NodeId, int)> {
    set n, k | n in from && n in nodes && 0 <= k < |nodes[n].options| && nodes[n].options[k].to == m :: (n, k)
  }

  /** No processed route ends at `x`. */
  ghost predicate NoneEnter(nodes: map<NodeId, Node>, progress: map<NodeId, nat>, x: NodeId) {
    forall m, k {:trigger Processed(nodes, progress, m, k)} | Processed(nodes, progress, m, k) :: nodes[m].options[k].to != x
  }

  /** Bookkeeping of a partly built instance: the copied nodes are those
      with a progress entry, a registered node has been gone through
      completely, and every processed route ends at a copied node. */
  ghost predicate Registered(nodes: map<NodeId, Node>, copied: set<NodeId>, progress: map<NodeId, nat>,
                             inodes: map<NodeId, Node>) {
    && copied <= nodes.Keys
    && progress.Keys == copied
    && inodes.Keys <= copied
    && (forall m {:trigger progress[m]} | m in progress && m in nodes :: progress[m] <= |nodes[m].options|)
    && (forall m {:trigger inodes[m]} | m in inodes && m in nodes && m in progress :: progress[m] == |nodes[m].options|)
    && (forall m, k {:trigger Processed(nodes, progress, m, k)} | Processed(nodes, progress, m, k) :: nodes[m].options[k].to in copied)
  }

  /** Instance nodes mirror their template nodes option by option. */
  ghost predicate Mirrored(nodes: map<NodeId, Node>, inodes: map<NodeId, Node>) {
    forall m {:trigger inodes[m]} | m in inodes && m in nodes ::
      && inodes[m].id == m
      && inodes[m].kind == nodes[m].kind
      && |inodes[m].options| == |nodes[m].options|
      && (forall k {:trigger inodes[m].options[k]} | 0 <= k < |nodes[m].options| :: inodes[m].options[k] == Mirror(nodes[m].options[k]))
  }

  /** The ids of the processed routes. */
  ghost function ProcessedIds(nodes: map<NodeId, Node>, progress: map<NodeId, nat>): set<RouteId> {
    set m, k | m in progress && m in nodes && 0 <= k < progress[m] && k < |nodes[m].options| :: nodes[m].options[k].id
  }

  /** The instance's narratives are the processed routes' mirrors, each
      stored under its id, and nothing else. */
  ghost predicate Stored(nodes: map<NodeId, Node>, progress: map<NodeId, nat>, narratives: map<RouteId, Route>) {
    && narratives.Keys == ProcessedIds(nodes, progress)
    && forall m, k {:trigger Processed(nodes, progress, m, k)} | Processed(nodes, progress, m, k) ::
         nodes[m].options[k].id in narratives && narratives[nodes[m].options[k].id] == Mirror(nodes[m].options[k])
  }

  /** Each registered node's properties are the template's with the number
      of processed routes that entered it. */
  ghost predicate Counted(nodes: map<NodeId, Node>, progress: map<NodeId, nat>, inodes: map<NodeId, Node>) {
    forall e {:trigger inodes[e]} | e in inodes && e in nodes :: inodes[e].props == EntryProps(nodes[e].props, |Arrivals(nodes, progress, e)|)
  }

  /** What holds between a template, its copied flags, the copier's progress
      and a partly built instance. */
  ghost predicate Consistent(nodes: map<NodeId, Node>, copied: set<NodeId>, progress: map<NodeId, nat>,
                             inodes: map<NodeId, Node>, narratives: map<RouteId, Route>)
  {
    && Registered(nodes, copied, progress, inodes)
    && Mirrored(nodes, inodes)
    && Stored(nodes, progress, narratives)
    && Counted(nodes, progress, inodes)
  }

  /** Processing option `i` of `x` adds its position to the arrivals at its end. */
  lemma ArrivalsStep(nodes: map<NodeId, Node>, progress: map<NodeId, nat>, x: NodeId, i: nat)
    requires x in nodes && x in progress && progress[x] == i && i < |nodes[x].options|
    ensures forall e :: |Arrivals(nodes, progress[x := i + 1], e)|
                        == |Arrivals(nodes, progress, e)| + (if nodes[x].options[i].to == e then 1 else 0)
  {
    forall e
      ensures |Arrivals(nodes, progress[x := i + 1], e)|
              == |Arrivals(nodes, progress, e)| + (if nodes[x].options[i].to == e then 1 else 0)
    {
      ArrivalsStepAt(nodes, progress, x, i, e);
    }
  }

  /** ArrivalsStep for one end node `e`. */
  lemma ArrivalsStepAt(nodes: map<NodeId, Node>, progress: map<NodeId, nat>, x: NodeId, i: nat, e: NodeId)
    requires x in nodes && x in progress && progress[x] == i && i < |nodes[x].options|
    ensures |Arrivals(nodes, progress[x := i + 1], e)|
            == |Arrivals(nodes, progress, e)| + (if nodes[x].options[i].to == e then 1 else 0)
  {
    var before := Arrivals(nodes, progress, e);
    var after := Arrivals(nodes, progress[x := i + 1], e);
    var extra := if nodes[x].options[i].to == e then {(x, i)} else {};
    forall p | p in after ensures p in before + extra {
      if p.0 != x || p.1 != i {
        assert Processed(nodes, progress, p.0, p.1);
      }
    }
    forall p | p in before + extra ensures p in after {
      if p in before {
        assert Processed(nodes, progress[x := i + 1], p.0, p.1);
      }
    }
    assert after == before + extra;
    assert (x, i) !in before;
  }

  /** A second putInt under the same key overwrites the first. */
  lemma PutTwice(b: Bag, key: string, v: Value, w: Value)
    ensures b[key := v][key := w] == b[key := w]
  {
  }

  /** A node entered by no processed route has no arrivals. */
  lemma ArrivalsNone(nodes: map<NodeId, Node>, progress: map<NodeId, nat>, x: NodeId)
    requires NoneEnter(nodes, progress, x)
    ensures Arrivals(nodes, progress, x) == {}
  {
    if p :| p in Arrivals(nodes, progress, x) {
      assert Processed(nodes, progress, p.0, p.1);
      assert false;
    }
  }

  /** A node that has just been given a progress entry of 0 changes no count. */
  lemma ArrivalsStart(nodes: map<NodeId, Node>, progress: map<NodeId, nat>, x: NodeId)
    requires x !in progress
    ensures forall e :: Arrivals(nodes, progress[x := 0], e) == Arrivals(nodes, progress, e)
  {
  }

  /** Copying `x` starts with its flag set and none of its options processed. */
  lemma StartNode(nodes: map<NodeId, Node>, copied: set<NodeId>, progress: map<NodeId, nat>,
                  inodes: map<NodeId, Node>, narratives: map<RouteId, Route>, x: NodeId)
    requires Consistent(nodes, copied, progress, inodes, narratives)
    requires x in nodes && x !in copied
    ensures Consistent(nodes, copied + {x}, progress[x := 0], inodes, narratives)
    ensures NoneEnter(nodes, progress[x := 0], x)
    ensures forall e :: Arrivals(nodes, progress[x := 0], e) == Arrivals(nodes, progress, e)
  {
    ArrivalsStart(nodes, progress, x);
    IdsStart(nodes, progress, x);
    var progress' := progress[x := 0];
    assert forall m, k | Processed(nodes, progress', m, k) :: Processed(nodes, progress, m, k);
    assert Registered(nodes, copied + {x}, progress', inodes);
    assert Stored(nodes, progress', narratives);
    assert Counted(nodes, progress', inodes);
  }

  /** Processing option `i` of `x`, whose end is registered: the end's
      counter goes up by one and the route's mirror is stored. */
  lemma ProcessRoute(nodes: map<NodeId, Node>, copied: set<NodeId>, progress: map<NodeId, nat>,
                     inodes: map<NodeId, Node>, narratives: map<RouteId, Route>, x: NodeId, i: nat, props: Option<Bag>)
    requires WellFormed(nodes)
    requires Consistent(nodes, copied, progress, inodes, narratives)
    requires x in nodes && x in progress && progress[x] == i && i < |nodes[x].options| && x !in inodes
    requires nodes[x].options[i].to in inodes
    requires props == EntryProps(nodes[nodes[x].options[i].to].props, |Arrivals(nodes, progress, nodes[x].options[i].to)| + 1)
    ensures Consistent(nodes, copied, progress[x := i + 1],
                       inodes[nodes[x].options[i].to := inodes[nodes[x].options[i].to].(props := props)],
                       narratives[nodes[x].options[i].id := Mirror(nodes[x].options[i])])
    ensures forall e :: |Arrivals(nodes, progress[x := i + 1], e)|
                        == |Arrivals(nodes, progress, e)| + (if nodes[x].options[i].to == e then 1 else 0)
  {
    var r := nodes[x].options[i];
    ArrivalsStep(nodes, progress, x, i);
    ProcessRegistered(nodes, copied, progress, inodes, x, i, props);
    ProcessStored(nodes, progress, narratives, x, i);
    ProcessCounted(nodes, progress, inodes, x, i, props);
    assert Mirrored(nodes, inodes[r.to := inodes[r.to].(props := props)]);
  }

  /** ProcessRoute's bookkeeping part. */
  lemma ProcessRegistered(nodes: map<NodeId, Node>, copied: set<NodeId>, progress: map<NodeId, nat>,
                          inodes: map<NodeId, Node>, x: NodeId, i: nat, props: Option<Bag>)
    requires Registered(nodes, copied, progress, inodes)
    requires x in nodes && x in progress && progress[x] == i && i < |nodes[x].options| && x !in inodes
    requires nodes[x].options[i].to in inodes
    ensures Registered(nodes, copied, progress[x := i + 1],
                       inodes[nodes[x].options[i].to := inodes[nodes[x].options[i].to].(props := props)])
  {
    var progress' := progress[x := i + 1];
    assert forall m, k | Processed(nodes, progress', m, k) :: Processed(nodes, progress, m, k) || (m == x && k == i);
  }

  /** ProcessRoute's narratives part: route ids are unique, so storing the
      new mirror overwrites no other. */
  lemma ProcessStored(nodes: map<NodeId, Node>, progress: map<NodeId, nat>, narratives: map<RouteId, Route>,
                      x: NodeId, i: nat)
    requires WellFormed(nodes) && Stored(nodes, progress, narratives)
    requires x in nodes && x in progress && progress[x] == i && i < |nodes[x].options|
    ensures Stored(nodes, progress[x := i + 1], narratives[nodes[x].options[i].id := Mirror(nodes[x].options[i])])
  {
    var progress' := progress[x := i + 1];
    var narratives' := narratives[nodes[x].options[i].id := Mirror(nodes[x].options[i])];
    IdsStep(nodes, progress, x, i);
    forall m, k | Processed(nodes, progress', m, k)
      ensures nodes[m].options[k].id in narratives' && narratives'[nodes[m].options[k].id] == Mirror(nodes[m].options[k])
    {
      if !(m == x && k == i) {
        assert Processed(nodes, progress, m, k);
        assert IdAt(nodes, m, k) != IdAt(nodes, x, i);
      }
    }
  }

  /** ProcessRoute's counter part. */
  lemma ProcessCounted(nodes: map<NodeId, Node>, progress: map<NodeId, nat>, inodes: map<NodeId, Node>,
                       x: NodeId, i: nat, props: Option<Bag>)
    requires Counted(nodes, progress, inodes)
    requires x in nodes && x in progress && progress[x] == i && i < |nodes[x].options|
    requires nodes[x].options[i].to in inodes && nodes[x].options[i].to in nodes
    requires props == EntryProps(nodes[nodes[x].options[i].to].props, |Arrivals(nodes, progress, nodes[x].options[i].to)| + 1)
    ensures Counted(nodes, progress[x := i + 1],
                    inodes[nodes[x].options[i].to := inodes[nodes[x].options[i].to].(props := props)])
  {
    var r := nodes[x].options[i];
    var progress' := progress[x := i + 1];
    var inodes' := inodes[r.to := inodes[r.to].(props := props)];
    forall e | e in inodes' && e in nodes
      ensures inodes'[e].props == EntryProps(nodes[e].props, |Arrivals(nodes, progress', e)|)
    {
      ArrivalsStepAt(nodes, progress, x, i, e);
    }
  }

  /** A node given a progress entry of 0 adds no processed route. */
  lemma IdsStart(nodes: map<NodeId, Node>, progress: map<NodeId, nat>, x: NodeId)
    requires x !in progress
    ensures ProcessedIds(nodes, progress[x := 0]) == ProcessedIds(nodes, progress)
  {
    var progress' := progress[x := 0];
    forall id | id in ProcessedIds(nodes, progress') ensures id in ProcessedIds(nodes, progress) {
      var m, k :| m in progress' && m in nodes && 0 <= k < progress'[m] && k < |nodes[m].options|
                  && nodes[m].options[k].id == id;
      assert m != x;
    }
  }

  /** Processing option `i` of `x` adds its id to the processed ones. */
  lemma IdsStep(nodes: map<NodeId, Node>, progress: map<NodeId, nat>, x: NodeId, i: nat)
    requires x in nodes && x in progress && progress[x] == i && i < |nodes[x].options|
    ensures ProcessedIds(nodes, progress[x := i + 1]) == ProcessedIds(nodes, progress) + {nodes[x].options[i].id}
  {
    var progress' := progress[x := i + 1];
    forall id | id in ProcessedIds(nodes, progress')
      ensures id in ProcessedIds(nodes, progress) + {nodes[x].options[i].id}
    {
      var m, k :| m in progress' && m in nodes && 0 <= k < progress'[m] && k < |nodes[m].options|
                  && nodes[m].options[k].id == id;
      if !(m == x && k == i) {
        assert Processed(nodes, progress, m, k);
      }
    }
    forall id | id in ProcessedIds(nodes, progress) ensures id in ProcessedIds(nodes, progress') {
      var m, k :| m in progress && m in nodes && 0 <= k < progress[m] && k < |nodes[m].options|
                  && nodes[m].options[k].id == id;
      assert Processed(nodes, progress', m, k);
    }
    assert Processed(nodes, progress', x, i);
  }

  /** Processing a route that does not end at `x` keeps `x` unentered. */
  lemma NoneEnterStep(nodes: map<NodeId, Node>, progress: map<NodeId, nat>, y: NodeId, i: nat, x: NodeId)
    requires NoneEnter(nodes, progress, x)
    requires y in nodes && y in progress && progress[y] == i && i < |nodes[y].options|
    requires nodes[y].options[i].to != x
    ensures NoneEnter(nodes, progress[y := i + 1], x)
  {
    var progress' := progress[y := i + 1];
    forall m, k | Processed(nodes, progress', m, k)
      ensures nodes[m].options[k].to != x
    {
      if !(m == y && k == i) {
        assert Processed(nodes, progress, m, k);
      }
    }
  }

  /** Routes that leave nodes ranked below `x` do not enter `x`. */
  lemma NoneEnterKept(nodes: map<NodeId, Node>, rank: map<NodeId, nat>, before: map<NodeId, nat>,
                      after: map<NodeId, nat>, x: NodeId)
    requires Ranked(nodes, rank) && x in rank
    requires NoneEnter(nodes, before, x)
    requires forall m | m in before :: m in after && after[m] == before[m]
    requires forall m | m in after && m !in before :: m in rank && rank[m] < rank[x]
    ensures NoneEnter(nodes, after, x)
  {
    forall m, k | Processed(nodes, after, m, k)
      ensures nodes[m].options[k].to != x
    {
      if m in before {
        assert Processed(nodes, before, m, k);
      }
    }
  }

  /** Registering a node all of whose options have been processed. */
  lemma RegisterNode(nodes: map<NodeId, Node>, copied: set<NodeId>, progress: map<NodeId, nat>,
                     inodes: map<NodeId, Node>, narratives: map<RouteId, Route>, x: NodeId, node: Node)
    requires Consistent(nodes, copied, progress, inodes, narratives)
    requires x in nodes && x in progress && x !in inodes && progress[x] == |nodes[x].options|
    requires node.id == x && node.kind == nodes[x].kind && |node.options| == |nodes[x].options|
    requires forall k | 0 <= k < |nodes[x].options| :: node.options[k] == Mirror(nodes[x].options[k])
    requires node.props == EntryProps(nodes[x].props, |Arrivals(nodes, progress, x)|)
    ensures Consistent(nodes, copied, progress, inodes[x := node], narratives)
  {
    var inodes' := inodes[x := node];
    assert Registered(nodes, copied, progress, inodes');
    assert Mirrored(nodes, inodes');
    assert Counted(nodes, progress, inodes');
  }

  /** Once every copied node has been gone through, the arrivals at `m` are
      the template routes from copied nodes that end at `m`. */
  lemma ArrivalsComplete(nodes: map<NodeId, Node>, copied: set<NodeId>, progress: map<NodeId, nat>, m: NodeId)
    requires progress.Keys == copied
    requires forall n | n in progress && n in nodes :: progress[n] == |nodes[n].options|
    ensures Arrivals(nodes, progress, m) == EnteringRoutes(nodes, copied, m)
  {
  }

  /** What the copy builds besides the copied node: the template's copied
      flags and the instance's node and narrative maps. */
  datatype Build = Build(copied: set<NodeId>, inodes: map<NodeId, Node>, narratives: map<RouteId, Route>)

  /** The copied nodes that are not registered yet: those whose copies are
      still on the call stack. */
  ghost predicate StackAbove(b: Build, rank: map<NodeId, nat>, r: nat) {
    forall s | s in b.copied && s !in b.inodes :: s in rank && rank[s] > r
  }

  /** The state of copyToGraph on `x` after `i` of its options, when the
      call started from `b0` and `p0`: only the copies of `x` and of nodes
      ranked below it were added, every copy but the one of `x` is
      registered, the first `i` narratives of `result` mirror the template's,
      and no processed route enters `x`. */
  ghost predicate CopyLoop(nodes: map<NodeId, Node>, rank: map<NodeId, nat>, x: NodeId, i: int,
                           b0: Build, p0: map<NodeId, nat>, b: Build, p: map<NodeId, nat>, result: Node)
  {
    && LoopFrame(nodes, rank, x, i, b0, p0, b, p, result)
    && Consistent(nodes, b.copied, p, b.inodes, b.narratives)
    && (forall m | m in b.inodes :: |Arrivals(nodes, p, m)| > 0)
    && NoneEnter(nodes, p, x)
  }

  /** The part of CopyLoop that relates the state to the one the call
      started from, and the copy of `x` to its template. */
  ghost predicate LoopFrame(nodes: map<NodeId, Node>, rank: map<NodeId, nat>, x: NodeId, i: int,
                            b0: Build, p0: map<NodeId, nat>, b: Build, p: map<NodeId, nat>, result: Node)
  {
    && x in nodes && x in rank && 0 <= i <= |nodes[x].options|
    && x in b.copied && x !in b.inodes && b0.copied <= b.copied
    && x in p && p[x] == i && x !in p0
    && (forall s | s in b.copied && s !in b.inodes :: s == x || (s in b0.copied && s !in b0.inodes))
    && (forall m | m in b.copied && m !in b0.copied :: m in rank && rank[m] <= rank[x])
    && (forall m | m in p0 :: m in p && p[m] == p0[m])
    && result.id == x && result.kind == nodes[x].kind && result.props == nodes[x].props
    && |result.options| == i
    && (forall k | 0 <= k < i :: result.options[k] == Mirror(nodes[x].options[k]))
  }

  /** What copyToGraph on `x` guarantees about the state `b'`, `p'` it
      leaves after `b`, `p`: the copy of `x` is registered with the
      template's properties, every copy it adds is registered and ranked
      at most as high as `x`, and no processed route enters `x` yet. */
  ghost predicate NodeCopied(nodes: map<NodeId, Node>, rank: map<NodeId, nat>, x: NodeId,
                             b: Build, p: map<NodeId, nat>, result: Node, b': Build, p': map<NodeId, nat>)
    requires x in nodes && x in rank
  {
    && Consistent(nodes, b'.copied, p', b'.inodes, b'.narratives)
    && x in b'.copied && b.copied <= b'.copied
    && (forall s | s in b'.copied && s !in b'.inodes :: s in b.copied && s !in b.inodes)
    && (forall m | m in b'.copied && m !in b.copied :: m in rank && rank[m] <= rank[x])
    && (forall m | m in p :: m in p' && p'[m] == p[m])
    && x in b'.inodes && result == b'.inodes[x]
    && result.props == nodes[x].props
    && NoneEnter(nodes, p', x)
    && (forall m | m in b'.inodes && m != x :: |Arrivals(nodes, p', m)| > 0)
  }

  /** Node.copyToGraph on template node `x`, with the copied flags and the
      instance threaded through `b`.  `rank` witnesses that no cycle is
      reachable from `x`. */
  method CopyNode(nodes: map<NodeId, Node>, x: NodeId, b: Build, ghost progress: map<NodeId, nat>,
                  ghost rank: map<NodeId, nat>)
    returns (result: Node, b': Build, ghost progress': map<NodeId, nat>)
    requires WellFormed(nodes) && Ranked(nodes, rank)
    requires x in rank && x !in b.copied
    requires Consistent(nodes, b.copied, progress, b.inodes, b.narratives)
    requires forall m | m in b.inodes :: |Arrivals(nodes, progress, m)| > 0
    requires StackAbove(b, rank, rank[x])
    decreases rank[x], 3
    ensures NodeCopied(nodes, rank, x, b, progress, result, b', progress')
    ensures result.id == x && result.kind == nodes[x].kind && result.props == nodes[x].props
    ensures |result.options| == |nodes[x].options|
    ensures forall k | 0 <= k < |result.options| :: result.options[k] == Mirror(nodes[x].options[k])
    ensures x in b'.copied && x in b'.inodes && b'.inodes[x] == result
  {
    var t := nodes[x];
    // callConstructor(id), then a by-value copy of the bag
    result := Node(x, t.kind, None, []);
    if t.props.Some? {
      result := result.(props := Some(t.props.value));
    }
    StartNode(nodes, b.copied, progress, b.inodes, b.narratives, x);
    b' := b.(copied := b.copied + {x});
    progress' := progress[x := 0];

    var i := 0;
    while i < |t.options|
      invariant CopyLoop(nodes, rank, x, i, b, progress, b', progress', result)
      decreases |t.options| - i
    {
      b', progress', result := CopyOption(nodes, x, i, b, progress, b', progress', result, rank);
      i := i + 1;
    }
    ArrivalsNone(nodes, progress', x);
    RegisterNode(nodes, b'.copied, progress', b'.inodes, b'.narratives, x, result);
    b' := b'.(inodes := b'.inodes[x := result]);
  }

  /** One turn of copyToGraph's loop: copy option `i` of `x` (and, first,
      its end node if that has no copy yet). */
  method CopyOption(nodes: map<NodeId, Node>, x: NodeId, i: nat, ghost b0: Build, ghost p0: map<NodeId, nat>,
                    b: Build, ghost p: map<NodeId, nat>, result: Node, ghost rank: map<NodeId, nat>)
    returns (b': Build, ghost p': map<NodeId, nat>, result': Node)
    requires WellFormed(nodes) && Ranked(nodes, rank) && x in rank
    requires StackAbove(b0, rank, rank[x])
    requires CopyLoop(nodes, rank, x, i, b0, p0, b, p, result) && i < |nodes[x].options|
    decreases rank[x], 2
    ensures CopyLoop(nodes, rank, x, i + 1, b0, p0, b', p', result')
    ensures result'.options == result.options + [Mirror(nodes[x].options[i])]
    ensures nodes[x].options[i].id in b'.narratives && b'.narratives[nodes[x].options[i].id] == Mirror(nodes[x].options[i])
  {
    var r := nodes[x].options[i];
    var entered, props;
    ghost var pe;
    StackKept(nodes, rank, x, i, b0, p0, b, p, result);
    entered, props, pe := EnterEnd(nodes, x, i, b, p, rank);
    var copy := Mirror(r);
    // the end copy's counter, then the new narrative in the instance
    b' := Arrived(entered, r, props);
    p' := pe[x := i + 1];
    result' := result.(options := result.options + [copy]);
    LoopStep(nodes, rank, x, i, b0, p0, b, p, result, entered, pe, props);
  }

  /** The loop state meets EnterEnd's precondition. */
  lemma StackKept(nodes: map<NodeId, Node>, rank: map<NodeId, nat>, x: NodeId, i: int,
                  b0: Build, p0: map<NodeId, nat>, b: Build, p: map<NodeId, nat>, result: Node)
    requires x in rank && StackAbove(b0, rank, rank[x])
    requires CopyLoop(nodes, rank, x, i, b0, p0, b, p, result)
    ensures forall s | s in b.copied && s !in b.inodes :: s in rank && rank[s] >= rank[x]
  {
  }

  /** What EnterEnd guarantees about the state `b'`, `p'` it leaves after
      `b`, `p`, and the properties `props` it computes for the end of option
      `i` of `x`. */
  ghost predicate EndEntered(nodes: map<NodeId, Node>, rank: map<NodeId, nat>, x: NodeId, i: nat,
                             b: Build, p: map<NodeId, nat>, b': Build, p': map<NodeId, nat>, props: Option<Bag>)
    requires x in rank && x in nodes && i < |nodes[x].options|
  {
    EndFrame(rank, x, b, p, b', p') && EndState(nodes, x, i, b', p', props)
  }

  /** EnterEnd only adds copies of nodes ranked below `x`, registers every
      copy it adds, and keeps the progress of the nodes already copied. */
  ghost predicate EndFrame(rank: map<NodeId, nat>, x: NodeId, b: Build, p: map<NodeId, nat>,
                           b': Build, p': map<NodeId, nat>)
    requires x in rank
  {
    && b.copied <= b'.copied
    && (forall s | s in b'.copied && s !in b'.inodes :: s in b.copied && s !in b.inodes)
    && (forall m | m in b'.copied && m !in b.copied :: m in rank && rank[m] < rank[x])
    && (forall m | m in p :: m in p' && p'[m] == p[m])
  }

  /** After EnterEnd the end of option `i` of `x` has a registered copy,
      and `props` is that copy's properties with option `i` counted. */
  ghost predicate EndState(nodes: map<NodeId, Node>, x: NodeId, i: nat, b': Build, p': map<NodeId, nat>,
                           props: Option<Bag>)
    requires x in nodes && i < |nodes[x].options|
  {
    && Consistent(nodes, b'.copied, p', b'.inodes, b'.narratives)
    && x in p' && p'[x] == i && x !in b'.inodes
    && NoneEnter(nodes, p', x)
    && EndCounted(nodes, nodes[x].options[i].to, b', p', props)
  }

  /** The end node `e` has a registered copy, `props` is that copy's
      properties with one more route counted, and every other registered
      copy has been entered. */
  ghost predicate EndCounted(nodes: map<NodeId, Node>, e: NodeId, b': Build, p': map<NodeId, nat>, props: Option<Bag>)
  {
    && e in nodes && e in b'.inodes
    && props == EntryProps(nodes[e].props, |Arrivals(nodes, p', e)| + 1)
    && (forall m | m in b'.inodes && m != e :: |Arrivals(nodes, p', m)| > 0)
  }

  /** `b` after the end copy of `r` received the properties `props` and the
      instance received the narrative copied from `r`. */
  function Arrived(b: Build, r: Route, props: Option<Bag>): (b': Build)
    requires r.to in b.inodes
    ensures b'.copied == b.copied && b'.inodes.Keys == b.inodes.Keys
    ensures b'.inodes[r.to].props == props && r.id in b'.narratives && b'.narratives[r.id] == Mirror(r)
  {
    b.(inodes := b.inodes[r.to := b.inodes[r.to].(props := props)],
       narratives := b.narratives[r.id := Mirror(r)])
  }

  /** Counting option `i` of `x` after EnterEnd restores the loop state. */
  lemma LoopStep(nodes: map<NodeId, Node>, rank: map<NodeId, nat>, x: NodeId, i: nat,
                 b0: Build, p0: map<NodeId, nat>, b: Build, p: map<NodeId, nat>, result: Node,
                 be: Build, pe: map<NodeId, nat>, props: Option<Bag>)
    requires WellFormed(nodes) && x in rank
    requires LoopFrame(nodes, rank, x, i, b0, p0, b, p, result) && i < |nodes[x].options|
    requires EndEntered(nodes, rank, x, i, b, p, be, pe, props)
    ensures CopyLoop(nodes, rank, x, i + 1, b0, p0,
                     Arrived(be, nodes[x].options[i], props),
                     pe[x := i + 1], result.(options := result.options + [Mirror(nodes[x].options[i])]))
  {
    FrameStep(nodes, rank, x, i, b0, p0, b, p, result, be, pe, props);
    StateStep(nodes, x, i, be, pe, props);
  }

  /** LoopFrame carries over to the next option. */
  lemma FrameStep(nodes: map<NodeId, Node>, rank: map<NodeId, nat>, x: NodeId, i: nat,
                  b0: Build, p0: map<NodeId, nat>, b: Build, p: map<NodeId, nat>, result: Node,
                  be: Build, pe: map<NodeId, nat>, props: Option<Bag>)
    requires x in rank && LoopFrame(nodes, rank, x, i, b0, p0, b, p, result) && i < |nodes[x].options|
    requires EndFrame(rank, x, b, p, be, pe) && x !in be.inodes && nodes[x].options[i].to in be.inodes
    ensures LoopFrame(nodes, rank, x, i + 1, b0, p0, Arrived(be, nodes[x].options[i], props),
                      pe[x := i + 1], result.(options := result.options + [Mirror(nodes[x].options[i])]))
  {
    var result' := result.(options := result.options + [Mirror(nodes[x].options[i])]);
    assert forall k | 0 <= k < i :: result'.options[k] == result.options[k];
    assert result'.options[i] == Mirror(nodes[x].options[i]);
  }

  /** Counting option `i` keeps the copy consistent, every registered
      copy entered, and `x` unentered. */
  lemma StateStep(nodes: map<NodeId, Node>, x: NodeId, i: nat, be: Build, pe: map<NodeId, nat>, props: Option<Bag>)
    requires WellFormed(nodes) && x in nodes && i < |nodes[x].options|
    requires EndState(nodes, x, i, be, pe, props)
    ensures var b' := Arrived(be, nodes[x].options[i], props);
            && Consistent(nodes, b'.copied, pe[x := i + 1], b'.inodes, b'.narratives)
            && (forall m | m in b'.inodes :: |Arrivals(nodes, pe[x := i + 1], m)| > 0)
            && NoneEnter(nodes, pe[x := i + 1], x)
  {
    ProcessRoute(nodes, be.copied, pe, be.inodes, be.narratives, x, i, props);
    NoneEnterStep(nodes, pe, x, i, x);
  }

  /** The body of copyToGraph's loop up to the new narrative: make sure the
      end of option `i` of `x` has a copy, and compute that copy's
      properties with the route counted. */
  method EnterEnd(nodes: map<NodeId, Node>, x: NodeId, i: nat, b: Build, ghost progress: map<NodeId, nat>,
                  ghost rank: map<NodeId, nat>)
    returns (b': Build, props: Option<Bag>, ghost progress': map<NodeId, nat>)
    requires WellFormed(nodes) && Ranked(nodes, rank)
    requires x in rank && x in nodes && i < |nodes[x].options|
    requires x in b.copied && x !in b.inodes && x in progress && progress[x] == i
    requires Consistent(nodes, b.copied, progress, b.inodes, b.narratives)
    requires forall m | m in b.inodes :: |Arrivals(nodes, progress, m)| > 0
    requires forall s | s in b.copied && s !in b.inodes :: s in rank && rank[s] >= rank[x]
    requires NoneEnter(nodes, progress, x)
    decreases rank[x], 1
    ensures EndEntered(nodes, rank, x, i, b, progress, b', progress', props)
    ensures b.copied <= b'.copied && nodes[x].options[i].to in b'.inodes
    ensures props.Some? && EntriesKey in props.value && props.value[EntriesKey].IntValue?
    ensures props.value[EntriesKey].i >= 1
  {
    var endId := nodes[x].options[i].to;
    if endId !in b.copied {
      b', props, progress' := EnterFresh(nodes, x, i, b, progress, rank);
    } else {
      // already copied: look its copy up and add one to its counter
      b', progress' := b, progress;
      KnownEnd(nodes, rank, x, i, b, progress);
      var endCopy := b.inodes[endId];
      var entries := GetInt(endCopy.props.value, EntriesKey);
      props := Some(endCopy.props.value[EntriesKey := IntValue(entries + 1)]);
    }
  }

  /** EnterEnd on an end node not copied yet: copy it, then start its
      counter at 1. */
  method EnterFresh(nodes: map<NodeId, Node>, x: NodeId, i: nat, b: Build, ghost progress: map<NodeId, nat>,
                    ghost rank: map<NodeId, nat>)
    returns (b': Build, props: Option<Bag>, ghost progress': map<NodeId, nat>)
    requires WellFormed(nodes) && Ranked(nodes, rank)
    requires x in rank && x in nodes && i < |nodes[x].options|
    requires x in b.copied && x !in b.inodes && x in progress && progress[x] == i
    requires Consistent(nodes, b.copied, progress, b.inodes, b.narratives)
    requires forall m | m in b.inodes :: |Arrivals(nodes, progress, m)| > 0
    requires forall s | s in b.copied && s !in b.inodes :: s in rank && rank[s] >= rank[x]
    requires NoneEnter(nodes, progress, x)
    requires nodes[x].options[i].to !in b.copied
    decreases rank[x], 0
    ensures EndEntered(nodes, rank, x, i, b, progress, b', progress', props)
    ensures Arrivals(nodes, progress', nodes[x].options[i].to) == {}
    ensures props == EntryProps(nodes[nodes[x].options[i].to].props, 1)
  {
    var endCopy;
    endCopy, b', progress' := CopyNode(nodes, nodes[x].options[i].to, b, progress, rank);
    var created := CreateProperties(endCopy);
    props := Some(created.props.value[EntriesKey := IntValue(1)]);
    FreshEnd(nodes, rank, x, i, b, progress, endCopy, b', progress', props);
    ArrivalsNone(nodes, progress', nodes[x].options[i].to);
  }

  /** EnterEnd's guarantee when the end of option `i` had no copy yet. */
  lemma FreshEnd(nodes: map<NodeId, Node>, rank: map<NodeId, nat>, x: NodeId, i: nat,
                 b: Build, p: map<NodeId, nat>, endCopy: Node, b': Build, p': map<NodeId, nat>, props: Option<Bag>)
    requires WellFormed(nodes) && Ranked(nodes, rank)
    requires x in rank && x in nodes && i < |nodes[x].options| && x in p && p[x] == i
    requires NoneEnter(nodes, p, x) && p.Keys == b.copied
    requires nodes[x].options[i].to !in b.copied
    requires NodeCopied(nodes, rank, nodes[x].options[i].to, b, p, endCopy, b', p')
    requires props == Some(BagOf(endCopy.props)[EntriesKey := IntValue(1)])
    ensures EndEntered(nodes, rank, x, i, b, p, b', p', props)
  {
    var endId := nodes[x].options[i].to;
    ArrivalsNone(nodes, p', endId);
    assert props == EntryProps(nodes[endId].props, 1);
    NoneEnterKept(nodes, rank, p, p', x);
  }

  /** When the end of option `i` already has a copy, that copy is registered
      and counts the routes processed so far. */
  lemma KnownEnd(nodes: map<NodeId, Node>, rank: map<NodeId, nat>, x: NodeId, i: nat,
                 b: Build, p: map<NodeId, nat>)
    requires WellFormed(nodes) && Ranked(nodes, rank)
    requires x in rank && x in nodes && i < |nodes[x].options|
    requires x in b.copied && x !in b.inodes && x in p && p[x] == i
    requires Consistent(nodes, b.copied, p, b.inodes, b.narratives)
    requires forall m | m in b.inodes :: |Arrivals(nodes, p, m)| > 0
    requires forall s | s in b.copied && s !in b.inodes :: s in rank && rank[s] >= rank[x]
    requires NoneEnter(nodes, p, x)
    requires nodes[x].options[i].to in b.copied
    ensures nodes[x].options[i].to in b.inodes && b.inodes[nodes[x].options[i].to].props.Some?
    ensures var bag := b.inodes[nodes[x].options[i].to].props.value;
            EndEntered(nodes, rank, x, i, b, p, b, p, Some(bag[EntriesKey := IntValue(GetInt(bag, EntriesKey) + 1)]))
  {
    var e := nodes[x].options[i].to;
    var n := |Arrivals(nodes, p, e)|;
    assert b.inodes[e].props == Some(BagOf(nodes[e].props)[EntriesKey := IntValue(n)]);
    PutTwice(BagOf(nodes[e].props), EntriesKey, IntValue(n), IntValue(n + 1));
  }

  /** The ids of the routes that leave the nodes of `from`. */
  ghost function RouteIds(nodes: map<NodeId, Node>, from: set<NodeId>): set<RouteId> {
    set m, k | m in from && m in nodes && 0 <= k < |nodes[m].options| :: nodes[m].options[k].id
  }

  /** What a complete copy from `root` is: the copied nodes are closed
      under routes and each but `root` is entered by a route from another
      copied node (so, with `rank`, they are exactly the nodes reachable
      from `root`: see CopiedReachable and ReachableCopied); the instance
      holds one copy of each, and its narratives are the mirrors of the
      routes leaving them and nothing else; each copy's entry counter is
      the number of those routes that end at it. */
  ghost predicate Instantiated(nodes: map<NodeId, Node>, rank: map<NodeId, nat>, root: NodeId, copied: set<NodeId>,
                               inodes: map<NodeId, Node>, narratives: map<RouteId, Route>)
    requires root in rank
  {
    && root in copied && inodes.Keys == copied && copied <= nodes.Keys
    && (forall m | m in copied :: m in rank && rank[m] <= rank[root])
    && (forall m, k | m in copied && 0 <= k < |nodes[m].options| :: nodes[m].options[k].to in copied)
    && (forall m | m in copied :: inodes[m].id == m && inodes[m].kind == nodes[m].kind
                                  && |inodes[m].options| == |nodes[m].options|)
    && (forall m, k | m in copied && 0 <= k < |nodes[m].options| :: inodes[m].options[k] == Mirror(nodes[m].options[k]))
    && (forall m, k | m in copied && 0 <= k < |nodes[m].options| ::
          nodes[m].options[k].id in narratives && narratives[nodes[m].options[k].id] == Mirror(nodes[m].options[k]))
    && (forall m | m in copied :: inodes[m].props == EntryProps(nodes[m].props, |EnteringRoutes(nodes, copied, m)|))
    && (forall m | m in copied && m != root :: |EnteringRoutes(nodes, copied, m)| > 0)
    && narratives.Keys == RouteIds(nodes, copied)
  }

  /** Some route leads from `a` to `c`. */
  ghost predicate Edge(nodes: map<NodeId, Node>, a: NodeId, c: NodeId) {
    a in nodes && exists k | 0 <= k < |nodes[a].options| :: nodes[a].options[k].to == c
  }

  /** A walk along routes through the nodes of `path`, in order. */
  ghost predicate IsPath(nodes: map<NodeId, Node>, path: seq<NodeId>) {
    |path| > 0 && forall j | 0 <= j < |path| - 1 :: Edge(nodes, path[j], path[j + 1])
  }

  /** Every node a walk from `root` reaches has been copied. */
  lemma ReachableCopied(nodes: map<NodeId, Node>, rank: map<NodeId, nat>, root: NodeId,
                        copied: set<NodeId>, inodes: map<NodeId, Node>,
                        narratives: map<RouteId, Route>, path: seq<NodeId>)
    requires root in rank && Instantiated(nodes, rank, root, copied, inodes, narratives)
    requires IsPath(nodes, path) && path[0] == root
    ensures path[|path| - 1] in copied
  {
    WalkStaysIn(nodes, copied, path);
  }

  /** A walk that starts in a set closed under routes stays in it. */
  lemma {:induction false} WalkStaysIn(nodes: map<NodeId, Node>, copied: set<NodeId>, path: seq<NodeId>)
    requires forall m, k | m in copied && m in nodes && 0 <= k < |nodes[m].options| :: nodes[m].options[k].to in copied
    requires IsPath(nodes, path) && path[0] in copied
    ensures path[|path| - 1] in copied
    decreases |path|
  {
    if |path| > 1 {
      var prefix := path[..|path| - 1];
      forall j | 0 <= j < |prefix| - 1 ensures Edge(nodes, prefix[j], prefix[j + 1]) {
        assert prefix[j] == path[j] && prefix[j + 1] == path[j + 1];
      }
      WalkStaysIn(nodes, copied, prefix);
      assert Edge(nodes, path[|path| - 2], path[|path| - 1]);
    }
  }

  /** Every copied node is reached by a walk from `root`. */
  lemma CopiedReachable(nodes: map<NodeId, Node>, rank: map<NodeId, nat>, root: NodeId,
                        copied: set<NodeId>, inodes: map<NodeId, Node>,
                        narratives: map<RouteId, Route>, m: NodeId)
    returns (path: seq<NodeId>)
    requires Ranked(nodes, rank) && root in rank && Instantiated(nodes, rank, root, copied, inodes, narratives)
    requires m in copied
    ensures IsPath(nodes, path) && path[0] == root && path[|path| - 1] == m
  {
    path := WalkTo(nodes, rank, root, copied, m);
  }

  /** In a set of nodes ranked at most as high as `root`, each but `root`
      entered from within the set, every node has a walk from `root`. */
  lemma {:induction false} WalkTo(nodes: map<NodeId, Node>, rank: map<NodeId, nat>, root: NodeId,
                                  copied: set<NodeId>, m: NodeId)
    returns (path: seq<NodeId>)
    requires Ranked(nodes, rank) && root in rank
    requires forall n | n in copied :: n in rank && rank[n] <= rank[root]
    requires forall n | n in copied && n != root :: |EnteringRoutes(nodes, copied, n)| > 0
    requires m in copied
    ensures IsPath(nodes, path) && path[0] == root && path[|path| - 1] == m
    decreases rank[root] - rank[m]
  {
    if m == root {
      path := [root];
    } else {
      var p :| p in EnteringRoutes(nodes, copied, m);
      var n := p.0;
      assert nodes[n].options[p.1].to == m;
      var prefix := WalkTo(nodes, rank, root, copied, n);
      path := prefix + [m];
      forall j | 0 <= j < |path| - 1 ensures Edge(nodes, path[j], path[j + 1]) {
        if j < |prefix| - 1 {
          assert path[j] == prefix[j] && path[j + 1] == prefix[j + 1];
        } else {
          assert path[j] == n && path[j + 1] == m;
        }
      }
    }
  }

  /** copyToGraph from `root` with every flag clear and an empty instance. */
  method CopyGraph(nodes: map<NodeId, Node>, root: NodeId, ghost rank: map<NodeId, nat>) returns (result: Node, b: Build)
    requires WellFormed(nodes) && Ranked(nodes, rank) && root in rank
    ensures Instantiated(nodes, rank, root, b.copied, b.inodes, b.narratives)
    ensures result == b.inodes[root] && result.props == nodes[root].props
  {
    ghost var progress;
    result, b, progress := CopyNode(nodes, root, Build({}, map[], map[]), map[], rank);
    Complete(nodes, rank, root, b, progress);
  }

  /** A copy that left nothing on the stack is complete. */
  lemma Complete(nodes: map<NodeId, Node>, rank: map<NodeId, nat>, root: NodeId, b: Build, progress: map<NodeId, nat>)
    requires root in rank && root in b.inodes
    requires Consistent(nodes, b.copied, progress, b.inodes, b.narratives)
    requires b.copied <= b.inodes.Keys
    requires forall m | m in b.copied :: m in rank && rank[m] <= rank[root]
    requires forall m | m in b.inodes && m != root :: |Arrivals(nodes, progress, m)| > 0
    ensures Instantiated(nodes, rank, root, b.copied, b.inodes, b.narratives)
  {
    assert ProcessedIds(nodes, progress) == RouteIds(nodes, b.copied);
    forall m, k | m in b.copied && 0 <= k < |nodes[m].options|
      ensures nodes[m].options[k].to in b.copied
      ensures nodes[m].options[k].id in b.narratives && b.narratives[nodes[m].options[k].id] == Mirror(nodes[m].options[k])
      ensures b.inodes[m].options[k] == Mirror(nodes[m].options[k])
    {
      assert m in b.inodes;
      assert Processed(nodes, progress, m, k);
    }
    forall m | m in b.copied
      ensures Arrivals(nodes, progress, m) == EnteringRoutes(nodes, b.copied, m)
    {
      ArrivalsComplete(nodes, b.copied, progress, m);
    }
  }

  /** The graph of SaveTest's fixture: start -> choice1, which branches to
      left and right, both of which lead to end. */
  function Fixture(): map<NodeId, Node> {
    map["start" := Node("start", Synchronization, None, [Route("link1", "start", "choice1", None)]),
        "choice1" := Node("choice1", Choice, None, [Route("link2", "choice1", "left", None),
                                                    Route("link3", "choice1", "right", None)]),
        "left" := Node("left", Synchronization, None, [Route("link4", "left", "end", None)]),
        "right" := Node("right", Synchronization, None, [Route("link5", "right", "end", None)]),
        "end" := Node("end", Synchronization, None, [])]
  }

  /** How far each fixture node is from the end. */
  function FixtureRank(): map<NodeId, nat> {
    map["start" := 3, "choice1" := 2, "left" := 1, "right" := 1, "end" := 0]
  }

  /** Copying the fixture from "start" copies all five nodes; "end", entered
      by link4 and link5, counts two entries, and "start", entered by none,
      keeps its (absent) bag. */
  method CopyFixture() returns (result: Node, b: Build)
    ensures b.inodes.Keys == {"start", "choice1", "left", "right", "end"}
    ensures b.inodes["end"].props == Some(map[EntriesKey := IntValue(2)])
    ensures b.inodes["left"].props == Some(map[EntriesKey := IntValue(1)])
    ensures result.id == "start" && result.props == None
  {
    FixtureWellFormed();
    result, b := CopyGraph(Fixture(), "start", FixtureRank());
    FixtureCounts(b);
  }

  lemma FixtureWellFormed()
    ensures WellFormed(Fixture()) && Ranked(Fixture(), FixtureRank())
  {
    FixtureKeys();
    FixtureRoutes();
    FixtureUnique();
  }

  lemma FixtureRoutes()
    ensures forall id, k | id in Fixture() && 0 <= k < |Fixture()[id].options| ::
              Fixture()[id].options[k].from == id && Fixture()[id].options[k].to in Fixture()
    ensures Ranked(Fixture(), FixtureRank())
  {
  }

  lemma FixtureUnique()
    ensures UniqueIds(Fixture())
  {
    var nodes := Fixture();
    forall a, i, c, j | a in nodes && c in nodes && 0 <= i < |nodes[a].options| && 0 <= j < |nodes[c].options|
      ensures IdAt(nodes, a, i) == IdAt(nodes, c, j) ==> a == c && i == j
    {
      FixtureIds(a, i);
      FixtureIds(c, j);
      if IdAt(nodes, a, i) == IdAt(nodes, c, j) {
        assert ("link" + [IdDigit(a, i)])[4] == IdDigit(a, i);
        assert IdDigit(a, i) == IdDigit(c, j);
        DigitNames(a, i);
        DigitNames(c, j);
      }
    }
  }

  lemma DigitNames(a: NodeId, i: int)
    requires a in Fixture() && 0 <= i < |Fixture()[a].options|
    ensures IdDigit(a, i) == '1' ==> a == "start" && i == 0
    ensures IdDigit(a, i) == '2' ==> a == "choice1" && i == 0
    ensures IdDigit(a, i) == '3' ==> a == "choice1" && i == 1
    ensures IdDigit(a, i) == '4' ==> a == "left" && i == 0
    ensures IdDigit(a, i) == '5' ==> a == "right" && i == 0
  {
  }

  /** The fixture's nodes and what they hold. */
  lemma FixtureKeys()
    ensures Fixture().Keys == FixtureRank().Keys == {"start", "choice1", "left", "right", "end"}
    ensures forall id | id in Fixture() :: Fixture()[id].id == id
  {
  }

  /** Each fixture route's id is "link" followed by a digit of its own. */
  lemma FixtureIds(a: NodeId, i: int)
    requires a in Fixture() && 0 <= i < |Fixture()[a].options|
    ensures IdAt(Fixture(), a, i) == "link" + [IdDigit(a, i)]
  {
  }

  function IdDigit(a: NodeId, i: int): char {
    if a == "start" then '1'
    else if a == "choice1" then (if i == 0 then '2' else '3')
    else if a == "left" then '4'
    else '5'
  }

  lemma FixtureCounts(b: Build)
    requires Instantiated(Fixture(), FixtureRank(), "start", b.copied, b.inodes, b.narratives)
    ensures b.inodes.Keys == {"start", "choice1", "left", "right", "end"}
    ensures b.inodes["end"].props == Some(map[EntriesKey := IntValue(2)])
    ensures b.inodes["left"].props == Some(map[EntriesKey := IntValue(1)])
    ensures b.inodes["start"].props == None
  {
    FixtureAllCopied(b.copied);
    FixtureEntering();
    FixtureBags();
    var all := {"start", "choice1", "left", "right", "end"};
    assert |EnteringRoutes(Fixture(), all, "end")| == 2;
    assert |EnteringRoutes(Fixture(), all, "left")| == 1;
    EntryCount(b, "end", 2);
    EntryCount(b, "left", 1);
  }

  /** No fixture node has a bag. */
  lemma FixtureBags()
    ensures forall id | id in Fixture() :: Fixture()[id].props == None
  {
  }

  /** A copied fixture node entered by `n` routes holds just the counter. */
  lemma EntryCount(b: Build, m: NodeId, n: nat)
    requires m in b.inodes && m in Fixture() && Fixture()[m].props == None && n > 0
    requires b.inodes[m].props == EntryProps(Fixture()[m].props, n)
    ensures b.inodes[m].props == Some(map[EntriesKey := IntValue(n)])
  {
  }

  /** The fixture nodes a copy from "start" reaches: all of them. */
  lemma FixtureAllCopied(copied: set<NodeId>)
    requires "start" in copied && copied <= Fixture().Keys
    requires forall m, k | m in copied && 0 <= k < |Fixture()[m].options| :: Fixture()[m].options[k].to in copied
    ensures copied == {"start", "choice1", "left", "right", "end"}
  {
    FixtureKeys();
    var nodes := Fixture();
    assert nodes["start"].options[0].to == "choice1";
    assert nodes["choice1"].options[0].to == "left" && nodes["choice1"].options[1].to == "right";
    assert nodes["left"].options[0].to == "end";
  }

  /** The routes into "end", "left" and "start" once all nodes are copied. */
  lemma FixtureEntering()
    ensures EnteringRoutes(Fixture(), {"start", "choice1", "left", "right", "end"}, "end") == {("left", 0), ("right", 0)}
    ensures EnteringRoutes(Fixture(), {"start", "choice1", "left", "right", "end"}, "left") == {("choice1", 0)}
    ensures EnteringRoutes(Fixture(), {"start", "choice1", "left", "right", "end"}, "start") == {}
  {
    FixtureKeys();
  }

  /** A NarrativeInstance under construction. */
  class Instance {
    var nodes: map<NodeId, Node>
    var narratives: map<RouteId, Route>

    constructor ()
      ensures nodes == map[] && narratives == map[]
    {
      nodes := map[];
      narratives := map[];
    }
  }

  /** A template graph with the nodes' `copied` flags. */
  class Template {
    const nodes: map<NodeId, Node>
    var copied: set<NodeId>

    constructor (nodes: map<NodeId, Node>)
      ensures this.nodes == nodes && copied == {}
    {
      this.nodes := nodes;
      copied := {};
    }

    /** Node.resetCopied: clear one node's flag and nothing else. */
    method ResetCopied(id: NodeId)
      modifies this
      ensures copied == old(copied) - {id}
    {
      copied := copied - {id};
    }

    /** copyToGraph on the start node of a template whose flags are all
        clear, into an empty instance. */
    method CopyToGraph(root: NodeId, inst: Instance, ghost rank: map<NodeId, nat>) returns (result: Node)
      requires WellFormed(nodes) && Ranked(nodes, rank) && root in rank
      requires copied == {} && inst.nodes == map[] && inst.narratives == map[]
      modifies this, inst
      ensures Instantiated(nodes, rank, root, copied, inst.nodes, inst.narratives)
      ensures result == inst.nodes[root] && result.props == nodes[root].props
    {
      var b;
      result, b := CopyGraph(nodes, root, rank);
      copied := b.copied;
      inst.nodes := b.inodes;
      inst.narratives := b.narratives;
    }
  }
}
