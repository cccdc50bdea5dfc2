/** The state the editor's operations act on, and the primitive updates they
    are made of.

    The editor keeps a GUINarrative (nodes, routes, properties) behind
    NarrativeOperations and a view of it (graph nodes and edges, one
    property controller per property, route-type check boxes) behind
    ControllerOperations.  The view is taken to mirror the narrative, so one
    `State` stands for both, and a look-up in the view graph is a look-up in
    `nodes` or `routes`.  The primitives below are the updates the
    operations ask of those two classes. */
module EditorState {
  import opened Common

  type Name = string

  /** A javafx Color, as an opaque token. */
  type Colour = nat

  /** A property type: Strings.TYPE_BOOLEAN, or any other type name. */
  datatype PropType = Boolean | Other(name: string)

  /** A node's or route's property bag: property name to value, the value
      kept in the string form the editor reads and writes. */
  type Props = map<Name, string>

  /** A node: ChoiceNode or SynchronizationNode, and its bag (null allowed). */
  datatype NodeInfo = NodeInfo(choice: bool, props: Option<Props>)

  /** A route and its endpoints by name. */
  datatype RouteInfo = RouteInfo(from: Name, to: Name, props: Option<Props>)

  /** A property: its type, its values in the order the property controller
      lists them, and the colours assigned to some of them. */
  datatype Property = Property(ptype: PropType, values: seq<string>, colours: map<string, Colour>)

  datatype State = State(nodes: map<Name, NodeInfo>, routes: map<Name, RouteInfo>,
                         properties: map<Name, Property>, routeTypes: set<Name>)

  /** What newNarrative and clearGraph leave: nothing at all. */
  const Empty := State(map[], map[], map[], {})

  // ---------------------------------------------------------------- sequences

  predicate Distinct(xs: seq<string>) {
    forall i, j | 0 <= i < j < |xs| :: xs[i] != xs[j]
  }

  /** List.indexOf: the first position of `v`, or -1. */
  function IndexOf(xs: seq<string>, v: string): (r: int)
    ensures -1 <= r < |xs|
    ensures r == -1 <==> v !in xs
    ensures 0 <= r ==> xs[r] == v && v !in xs[..r]
  {
    if |xs| == 0 then -1
    else if xs[0] == v then 0
    else
      var k := IndexOf(xs[1..], v);
      assert xs[1..][..k + 1] == xs[1..k + 2];
      if k == -1 then -1 else k + 1
  }

  /** List.add(index, v). */
  function Insert(xs: seq<string>, i: nat, v: string): (r: seq<string>)
    requires i <= |xs|
    ensures |r| == |xs| + 1 && r[i] == v
    ensures r[..i] == xs[..i] && r[i + 1..] == xs[i..]
  {
    xs[..i] + [v] + xs[i..]
  }

  /** List.remove(v) on a list holding `v` at most once. */
  function Without(xs: seq<string>, v: string): (r: seq<string>)
    ensures v !in r
    ensures forall x | x in r :: x in xs
    ensures forall x | x in xs && x != v :: x in r
    ensures v !in xs ==> r == xs
  {
    if |xs| == 0 then []
    else if xs[0] == v then Without(xs[1..], v)
    else [xs[0]] + Without(xs[1..], v)
  }

  // ------------------------------------------------------------- tidy states

  /** A state the GUI can produce: every route joins two nodes, and every
      property lists each value once and colours only listed values. */
  ghost predicate Tidy(s: State) {
    && (forall r | r in s.routes :: s.routes[r].from in s.nodes && s.routes[r].to in s.nodes)
    && (forall p | p in s.properties :: TidyProperty(s.properties[p]))
  }

  ghost predicate TidyProperty(p: Property) {
    Distinct(p.values) && forall v | v in p.colours :: v in p.values
  }

  /** The routes that end at `n` (Node.getEntering). */
  function Entering(s: State, n: Name): set<Name> {
    set r | r in s.routes && s.routes[r].to == n
  }

  /** The routes that start at `n` (Node.getExiting). */
  function Exiting(s: State, n: Name): set<Name> {
    set r | r in s.routes && s.routes[r].from == n
  }

  // ------------------------------------------------------- nodes and routes

  /** addChoiceNode / addSynchNode: a node without a bag. */
  function AddNode(s: State, n: Name, choice: bool): Result<State> {
    if n in s.nodes then Err(ItemAlreadyExists(n))
    else Ok(s.(nodes := s.nodes[n := NodeInfo(choice, None)]))
  }

  /** deleteNode: the node only; routes are removed by their own operations. */
  function DeleteNode(s: State, n: Name): Result<State> {
    if n !in s.nodes then Err(ItemDoesNotExist(n))
    else Ok(s.(nodes := s.nodes - {n}))
  }

  /** Node.assignProperties. */
  function AssignNodeProperties(s: State, n: Name, b: Props): Result<State> {
    if n !in s.nodes then Err(ItemDoesNotExist(n))
    else Ok(s.(nodes := s.nodes[n := s.nodes[n].(props := Some(b))]))
  }

  /** addRoute: a route without a bag between two existing nodes. */
  function AddRoute(s: State, r: Name, from: Name, to: Name): Result<State> {
    if r in s.routes then Err(ItemAlreadyExists(r))
    else if from !in s.nodes then Err(ItemDoesNotExist(from))
    else if to !in s.nodes then Err(ItemDoesNotExist(to))
    else Ok(s.(routes := s.routes[r := RouteInfo(from, to, None)]))
  }

  /** deleteRoute. */
  function DeleteRoute(s: State, r: Name): Result<State> {
    if r !in s.routes then Err(ItemDoesNotExist(r))
    else Ok(s.(routes := s.routes - {r}))
  }

  /** Route.assignProperties. */
  function AssignRouteProperties(s: State, r: Name, b: Props): Result<State> {
    if r !in s.routes then Err(ItemDoesNotExist(r))
    else Ok(s.(routes := s.routes[r := s.routes[r].(props := Some(b))]))
  }

  /** setStart: the route now leaves node `n`. */
  function SetStart(s: State, r: Name, n: Name): Result<State> {
    if r !in s.routes then Err(ItemDoesNotExist(r))
    else if n !in s.nodes then Err(ItemDoesNotExist(n))
    else Ok(s.(routes := s.routes[r := s.routes[r].(from := n)]))
  }

  /** setEnd: the route now enters node `n`. */
  function SetEnd(s: State, r: Name, n: Name): Result<State> {
    if r !in s.routes then Err(ItemDoesNotExist(r))
    else if n !in s.nodes then Err(ItemDoesNotExist(n))
    else Ok(s.(routes := s.routes[r := s.routes[r].(to := n)]))
  }

  /** A route with endpoint `from` renamed to `to`. */
  function RenameEnds(ri: RouteInfo, from: Name, to: Name): RouteInfo {
    ri.(from := if ri.from == from then to else ri.from,
        to := if ri.to == from then to else ri.to)
  }

  /** renameNode: the node and every endpoint naming it. */
  function RenameNode(s: State, from: Name, to: Name): Result<State> {
    if from !in s.nodes then Err(ItemDoesNotExist(from))
    else if to in s.nodes then Err(ItemAlreadyExists(to))
    else Ok(s.(nodes := (s.nodes - {from})[to := s.nodes[from]],
               routes := map r | r in s.routes :: RenameEnds(s.routes[r], from, to)))
  }

  /** renameRoute. */
  function RenameRoute(s: State, from: Name, to: Name): Result<State> {
    if from !in s.routes then Err(ItemDoesNotExist(from))
    else if to in s.routes then Err(ItemAlreadyExists(to))
    else Ok(s.(routes := (s.routes - {from})[to := s.routes[from]]))
  }

  /** setAsRouteType / clearAsRouteType. */
  function SetRouteType(s: State, p: Name, on: bool): State {
    if on then s.(routeTypes := s.routeTypes + {p}) else s.(routeTypes := s.routeTypes - {p})
  }

  /** A bag with `key` set to `v`, or removed when `v` is null. */
  function Put(b: Props, key: Name, v: Option<string>): Props {
    if v.Some? then b[key := v.value] else b - {key}
  }

  /** assignPropertyToNode: a null value clears the property. */
  function AssignPropertyToNode(s: State, n: Name, p: Name, v: Option<string>): Result<State> {
    if n !in s.nodes then Err(ItemDoesNotExist(n))
    else
      var b := if s.nodes[n].props.Some? then s.nodes[n].props.value else map[];
      Ok(s.(nodes := s.nodes[n := s.nodes[n].(props := Some(Put(b, p, v)))]))
  }

  /** assignPropertyToRoute: a null value clears the property. */
  function AssignPropertyToRoute(s: State, r: Name, p: Name, v: Option<string>): Result<State> {
    if r !in s.routes then Err(ItemDoesNotExist(r))
    else
      var b := if s.routes[r].props.Some? then s.routes[r].props.value else map[];
      Ok(s.(routes := s.routes[r := s.routes[r].(props := Some(Put(b, p, v)))]))
  }

  // ------------------------------------------------------------- properties

  /** addValue, and the controller's addValue(value, index). */
  function AddValue(s: State, p: Name, v: string, i: int): Result<State> {
    if p !in s.properties then Err(ItemDoesNotExist(p))
    else if v in s.properties[p].values then Err(ItemAlreadyExists(v))
    else if !(0 <= i <= |s.properties[p].values|) then Err(IndexOutOfBounds(i))
    else
      var q := s.properties[p];
      Ok(s.(properties := s.properties[p := q.(values := Insert(q.values, i, v))]))
  }

  /** removeValue, and the controller's removeValue(value): the value and
      its colour go. */
  function RemoveValue(s: State, p: Name, v: string): Result<State> {
    if p !in s.properties then Err(ItemDoesNotExist(p))
    else if v !in s.properties[p].values then Err(ItemDoesNotExist(v))
    else
      var q := s.properties[p];
      Ok(s.(properties := s.properties[p := q.(values := Without(q.values, v), colours := q.colours - {v})]))
  }

  /** getColor: the colour of a value, or null. */
  function GetColor(s: State, p: Name, v: string): Option<Colour> {
    if p in s.properties && v in s.properties[p].colours then Some(s.properties[p].colours[v]) else None
  }

  /** setColor on a listed value; a null colour clears it. */
  function SetColor(s: State, p: Name, v: string, c: Option<Colour>): Result<State> {
    if p !in s.properties then Err(ItemDoesNotExist(p))
    else if v !in s.properties[p].values then Err(ItemDoesNotExist(v))
    else
      var q := s.properties[p];
      var cs := if c.Some? then q.colours[v := c.value] else q.colours - {v};
      Ok(s.(properties := s.properties[p := q.(colours := cs)]))
  }

  /** setPropertyType. */
  function SetPropertyType(s: State, p: Name, t: PropType): Result<State> {
    if p !in s.properties then Err(ItemDoesNotExist(p))
    else Ok(s.(properties := s.properties[p := s.properties[p].(ptype := t)]))
  }

  /** getPropertyType: the type, or null for an unknown property. */
  function GetPropertyType(s: State, p: Name): Option<PropType> {
    if p in s.properties then Some(s.properties[p].ptype) else None
  }
}
