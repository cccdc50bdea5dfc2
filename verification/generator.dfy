/** The single operations of OperationsManager.Generator.

    Each Java operation is an object built by a generator method: the
    constructor checks its arguments against the current state and captures
    what undo will need; execute and undo then call into the narrative and
    the view.  Here an operation is a `Step` value holding what its
    constructor captured, a generator is a function from the state to a
    `Step` or the error its constructor throws, and `Execute` / `Undo` give
    the state after execute or undo. */
module Generator {
  import opened Common
  import opened EditorState

  datatype Step =
    | SetStartStep(edge: Name, oldStart: Name, newStart: Name)
    | SetEndStep(edge: Name, oldEnd: Name, newEnd: Name)
    | AddRouteStep(name: Name, from: Name, to: Name)
    | RemoveRouteStep(name: Name, from: Name, to: Name, props: Option<Props>)
    | RenameNodeStep(from: Name, to: Name)
    | RenameRouteStep(from: Name, to: Name)
    | SetRouteTypeStep(prop: Name, on: bool)
    | AssignToNodeStep(node: Name, prop: Name, newValue: Option<string>, prior: Option<string>)
    | AssignToRouteStep(route: Name, prop: Name, newValue: Option<string>, prior: Option<string>)
    | RemoveValueStep(prop: Name, value: string, index: int, colour: Option<Colour>)
    | AddValueStep(prop: Name, value: string, index: int)
    | SetColorStep(prop: Name, value: string, colour: Option<Colour>, oldColour: Option<Colour>)
    | SetTypeStep(prop: Name, oldType: Option<PropType>, newType: PropType)
    | RemoveNodeStep(name: Name, choice: bool, props: Option<Props>)
    | AddChoiceNodeStep(name: Name)
    | TranslateRouteStep(name: Name)

  // ------------------------------------------------------------- generators

  /** setStart: both names must be non-null, the route and the new start
      must exist; the old start is captured. */
  function SetStart(s: State, name: Option<Name>, start: Option<Name>): (r: Result<Step>)
    ensures name.None? || start.None? ==> r == Err(ItemDoesNotExist("null"))
    ensures name.Some? && start.Some? && name.value !in s.routes ==> r == Err(ItemDoesNotExist(name.value))
    ensures name.Some? && start.Some? && name.value in s.routes && start.value !in s.nodes ==>
              r == Err(ItemDoesNotExist(start.value))
    ensures r.Ok? <==> name.Some? && start.Some? && name.value in s.routes && start.value in s.nodes
    ensures r.Ok? ==> r.value.SetStartStep? && r.value.edge == name.value && r.value.newStart == start.value
                      && Undoable(r.value, s)
  {
    if name.None? || start.None? then Err(ItemDoesNotExist("null"))
    else if name.value !in s.routes then Err(ItemDoesNotExist(name.value))
    else if start.value !in s.nodes then Err(ItemDoesNotExist(start.value))
    else Ok(SetStartStep(name.value, s.routes[name.value].from, start.value))
  }

  /** setEnd: as setStart, for the other end. */
  function SetEnd(s: State, name: Option<Name>, end: Option<Name>): (r: Result<Step>)
    ensures name.None? || end.None? ==> r == Err(ItemDoesNotExist("null"))
    ensures name.Some? && end.Some? && name.value !in s.routes ==> r == Err(ItemDoesNotExist(name.value))
    ensures name.Some? && end.Some? && name.value in s.routes && end.value !in s.nodes ==>
              r == Err(ItemDoesNotExist(end.value))
    ensures r.Ok? <==> name.Some? && end.Some? && name.value in s.routes && end.value in s.nodes
    ensures r.Ok? ==> r.value.SetEndStep? && r.value.edge == name.value && r.value.newEnd == end.value
                      && Undoable(r.value, s)
  {
    if name.None? || end.None? then Err(ItemDoesNotExist("null"))
    else if name.value !in s.routes then Err(ItemDoesNotExist(name.value))
    else if end.value !in s.nodes then Err(ItemDoesNotExist(end.value))
    else Ok(SetEndStep(name.value, s.routes[name.value].to, end.value))
  }

  /** addRoute: both endpoints must exist, the start checked first. */
  function AddRoute(s: State, name: Name, from: Name, to: Name): (r: Result<Step>)
    ensures from !in s.nodes ==> r == Err(ItemDoesNotExist(from))
    ensures from in s.nodes && to !in s.nodes ==> r == Err(ItemDoesNotExist(to))
    ensures r.Ok? <==> from in s.nodes && to in s.nodes
    ensures r.Ok? ==> r.value == AddRouteStep(name, from, to)
  {
    if from !in s.nodes then Err(ItemDoesNotExist(from))
    else if to !in s.nodes then Err(ItemDoesNotExist(to))
    else Ok(AddRouteStep(name, from, to))
  }

  /** removeRoute: the route must exist; its endpoints and bag are captured. */
  function RemoveRoute(s: State, name: Name): (r: Result<Step>)
    ensures r.Err? <==> name !in s.routes
    ensures r.Err? ==> r.error == ItemDoesNotExist(name)
    ensures r.Ok? ==> r.value.RemoveRouteStep? && r.value.name == name && Undoable(r.value, s)
  {
    if name !in s.routes then Err(ItemDoesNotExist(name))
    else
      var ri := s.routes[name];
      Ok(RemoveRouteStep(name, ri.from, ri.to, ri.props))
  }

  /** assignPropertyToNode: reading the node's bag fails on a missing node or
      a node without a bag; the old value (or null) is captured. */
  function AssignPropertyToNode(s: State, node: Name, prop: Name, value: Option<string>): (r: Result<Step>)
    ensures r.Err? <==> node !in s.nodes || s.nodes[node].props.None?
    ensures r.Err? ==> r.error == NullReference
    ensures r.Ok? ==> r.value.AssignToNodeStep? && r.value.node == node && r.value.prop == prop
                      && r.value.newValue == value && Undoable(r.value, s)
  {
    if node !in s.nodes || s.nodes[node].props.None? then Err(NullReference)
    else
      var b := s.nodes[node].props.value;
      Ok(AssignToNodeStep(node, prop, value, if prop in b then Some(b[prop]) else None))
  }

  /** assignPropertyToRoute: as assignPropertyToNode, for a route. */
  function AssignPropertyToRoute(s: State, route: Name, prop: Name, value: Option<string>): (r: Result<Step>)
    ensures r.Err? <==> route !in s.routes || s.routes[route].props.None?
    ensures r.Err? ==> r.error == NullReference
    ensures r.Ok? ==> r.value.AssignToRouteStep? && r.value.route == route && r.value.prop == prop
                      && r.value.newValue == value && Undoable(r.value, s)
  {
    if route !in s.routes || s.routes[route].props.None? then Err(NullReference)
    else
      var b := s.routes[route].props.value;
      Ok(AssignToRouteStep(route, prop, value, if prop in b then Some(b[prop]) else None))
  }

  /** removeValue: captures the value's position in the list and its colour. */
  function RemoveValue(s: State, prop: Name, value: string): (r: Step)
    ensures r.RemoveValueStep? && r.prop == prop && r.value == value && Undoable(r, s)
  {
    var values := if prop in s.properties then s.properties[prop].values else [];
    RemoveValueStep(prop, value, IndexOf(values, value), GetColor(s, prop, value))
  }

  /** setColor: captures the colour it replaces. */
  function SetColor(s: State, prop: Name, value: string, colour: Option<Colour>): (r: Step)
    ensures r.SetColorStep? && r.prop == prop && r.value == value && r.colour == colour && Undoable(r, s)
  {
    SetColorStep(prop, value, colour, GetColor(s, prop, value))
  }

  /** removeNodeSolo: the node must exist; its kind and bag are captured. */
  function RemoveNodeSolo(s: State, name: Name): (r: Result<Step>)
    ensures r.Err? <==> name !in s.nodes
    ensures r.Err? ==> r.error == ItemDoesNotExist(name)
    ensures r.Ok? ==> r.value.RemoveNodeStep? && r.value.name == name && Undoable(r.value, s)
  {
    if name !in s.nodes then Err(ItemDoesNotExist(name))
    else Ok(RemoveNodeStep(name, s.nodes[name].choice, s.nodes[name].props))
  }

  /** translateRoute: the route must exist. */
  function TranslateRoute(s: State, name: Name): (r: Result<Step>)
    ensures r.Err? <==> name !in s.routes
    ensures r.Err? ==> r.error == ItemDoesNotExist(name)
    ensures r.Ok? ==> r.value == TranslateRouteStep(name)
  {
    if name !in s.routes then Err(ItemDoesNotExist(name)) else Ok(TranslateRouteStep(name))
  }

  // ----------------------------------------------------- execute and undo

  /** Undo's half of RemoveRouteStep / RemoveNodeStep: a bag newValue only
      when one was captured. */
  function AfterNodeAssign(r: Result<State>, n: Name, b: Option<Props>): Result<State> {
    if r.Err? || b.None? then r else AssignNodeProperties(r.value, n, b.value)
  }

  function AfterRouteAssign(r: Result<State>, n: Name, b: Option<Props>): Result<State> {
    if r.Err? || b.None? then r else AssignRouteProperties(r.value, n, b.value)
  }

  /** Operation.execute. */
  function Execute(step: Step, s: State): Result<State> {
    match step
    case SetStartStep(e, _, n) => EditorState.SetStart(s, e, n)
    case SetEndStep(e, _, n) => EditorState.SetEnd(s, e, n)
    case AddRouteStep(n, f, t) => EditorState.AddRoute(s, n, f, t)
    case RemoveRouteStep(n, _, _, _) => DeleteRoute(s, n)
    case RenameNodeStep(f, t) => EditorState.RenameNode(s, f, t)
    case RenameRouteStep(f, t) => EditorState.RenameRoute(s, f, t)
    case SetRouteTypeStep(p, on) => Ok(EditorState.SetRouteType(s, p, on))
    case AssignToNodeStep(n, p, v, _) => EditorState.AssignPropertyToNode(s, n, p, v)
    case AssignToRouteStep(n, p, v, _) => EditorState.AssignPropertyToRoute(s, n, p, v)
    case RemoveValueStep(p, v, _, _) => EditorState.RemoveValue(s, p, v)
    case AddValueStep(p, v, i) => EditorState.AddValue(s, p, v, i)
    case SetColorStep(p, v, c, _) => EditorState.SetColor(s, p, v, c)
    case SetTypeStep(p, _, t) => EditorState.SetPropertyType(s, p, t)
    case RemoveNodeStep(n, _, _) => DeleteNode(s, n)
    case AddChoiceNodeStep(n) => AddNode(s, n, true)
    case TranslateRouteStep(n) => if n in s.routes then Ok(s) else Err(ItemDoesNotExist(n))
  }

  /** Operation.undo. */
  function Undo(step: Step, s: State): Result<State> {
    match step
    case SetStartStep(e, o, _) => EditorState.SetStart(s, e, o)
    case SetEndStep(e, o, _) => EditorState.SetEnd(s, e, o)
    case AddRouteStep(n, _, _) => DeleteRoute(s, n)
    case RemoveRouteStep(n, f, t, b) => AfterRouteAssign(EditorState.AddRoute(s, n, f, t), n, b)
    case RenameNodeStep(f, t) => EditorState.RenameNode(s, t, f)
    case RenameRouteStep(f, t) => EditorState.RenameRoute(s, t, f)
    case SetRouteTypeStep(p, on) => Ok(EditorState.SetRouteType(s, p, !on))
    case AssignToNodeStep(n, p, _, o) => EditorState.AssignPropertyToNode(s, n, p, o)
    case AssignToRouteStep(n, p, _, o) => EditorState.AssignPropertyToRoute(s, n, p, o)
    case RemoveValueStep(p, v, i, c) =>
      var r := EditorState.AddValue(s, p, v, i);
      if r.Err? then r else EditorState.SetColor(r.value, p, v, c)
    case AddValueStep(p, v, _) => EditorState.RemoveValue(s, p, v)
    case SetColorStep(p, v, _, o) => EditorState.SetColor(s, p, v, o)
    case SetTypeStep(p, o, _) =>
      // setPropertyType with the type read before: null when the property was unknown
      if o.None? then Err(NullReference) else EditorState.SetPropertyType(s, p, o.value)
    case RemoveNodeStep(n, c, b) => AfterNodeAssign(AddNode(s, n, c), n, b)
    case AddChoiceNodeStep(n) => DeleteNode(s, n)
    case TranslateRouteStep(n) => if n in s.routes then Ok(s) else Err(ItemDoesNotExist(n))
  }

  /** What a step captured still describes `s`: the condition under which
      undo after execute gives `s` back.  The generators above establish it;
      the steps built without a look at the state (renameNode, setRouteType,
      setPropertyTypeSolo with a caller's old type) need it of their caller. */
  ghost predicate Undoable(step: Step, s: State) {
    match step
    case SetStartStep(e, o, _) => e in s.routes ==> s.routes[e].from == o
    case SetEndStep(e, o, _) => e in s.routes ==> s.routes[e].to == o
    case RemoveRouteStep(n, f, t, b) => n in s.routes ==> s.routes[n] == RouteInfo(f, t, b)
    case SetRouteTypeStep(p, on) => (p in s.routeTypes) != on
    case AssignToNodeStep(n, p, _, o) =>
      n in s.nodes ==> s.nodes[n].props.Some? && o == Lookup(s.nodes[n].props.value, p)
    case AssignToRouteStep(n, p, _, o) =>
      n in s.routes ==> s.routes[n].props.Some? && o == Lookup(s.routes[n].props.value, p)
    case RemoveValueStep(p, v, i, c) =>
      p in s.properties ==> i == IndexOf(s.properties[p].values, v) && c == GetColor(s, p, v)
    case SetColorStep(p, v, _, o) => o == GetColor(s, p, v)
    case SetTypeStep(p, o, _) => o == GetPropertyType(s, p)
    case RemoveNodeStep(n, c, b) => n in s.nodes ==> s.nodes[n] == NodeInfo(c, b)
    case _ => true
  }

  /** BaseBundle.get: the value, or null. */
  function Lookup(b: Props, key: Name): Option<string> {
    if key in b then Some(b[key]) else None
  }

  // --------------------------------------------------------------- undo

  lemma {:induction false} PutBack(b: Props, key: Name, v: Option<string>)
    ensures Put(Put(b, key, v), key, Lookup(b, key)) == b
  {
    if key in b {
      assert Put(Put(b, key, v), key, Lookup(b, key)) == Put(b, key, v)[key := b[key]];
    } else {
      assert Put(Put(b, key, v), key, Lookup(b, key)) == Put(b, key, v) - {key};
    }
  }

  /** A list with each value once: removing a value and inserting it back
      where it was gives the list back. */
  lemma {:induction false} ReinsertWithout(xs: seq<string>, v: string)
    requires Distinct(xs) && v in xs
    ensures IndexOf(xs, v) <= |Without(xs, v)|
    ensures Insert(Without(xs, v), IndexOf(xs, v), v) == xs
  {
    var i := IndexOf(xs, v);
    WithoutAt(xs, i);
    assert xs == xs[..i] + [v] + xs[i + 1..];
  }

  lemma {:induction false} WithoutAt(xs: seq<string>, i: nat)
    requires Distinct(xs) && i < |xs|
    ensures Without(xs, xs[i]) == xs[..i] + xs[i + 1..]
    decreases i
  {
    if i == 0 {
      assert xs[0] !in xs[1..];
      assert xs[1..] == xs[..0] + xs[1..];
    } else {
      assert Distinct(xs[1..]);
      WithoutAt(xs[1..], i - 1);
      SplitAround(xs, i);
    }
  }

  /** The list without position `i`, seen from its tail. */
  lemma SplitAround(xs: seq<string>, i: nat)
    requires 0 < i < |xs|
    ensures xs[1..][..i - 1] + xs[1..][i..] == xs[1..i] + xs[i + 1..]
    ensures xs[..i] + xs[i + 1..] == [xs[0]] + (xs[1..i] + xs[i + 1..])
  {
    assert xs[1..][..i - 1] == xs[1..i] && xs[1..][i..] == xs[i + 1..];
    assert xs[..i] == [xs[0]] + xs[1..i];
  }

  /** Inserting a value not in the list and removing it again. */
  lemma {:induction false} WithoutInsert(xs: seq<string>, i: nat, v: string)
    requires i <= |xs| && v !in xs
    ensures Without(Insert(xs, i, v), v) == xs
    decreases i
  {
    if i == 0 {
      assert Insert(xs, 0, v) == [v] + xs;
      assert Insert(xs, 0, v)[1..] == xs;
    } else {
      assert Insert(xs, i, v) == [xs[0]] + Insert(xs[1..], i - 1, v);
      WithoutInsert(xs[1..], i - 1, v);
    }
  }

  lemma InsertDistinct(xs: seq<string>, i: nat, v: string)
    requires i <= |xs| && v !in xs && Distinct(xs)
    ensures Distinct(Insert(xs, i, v))
  {
    var r := Insert(xs, i, v);
    forall a, b | 0 <= a < b < |r| ensures r[a] != r[b] {
      var ia := if a < i then a else if a == i then -1 else a - 1;
      var ib := if b < i then b else if b == i then -1 else b - 1;
      assert ia == -1 || r[a] == xs[ia];
      assert ib == -1 || r[b] == xs[ib];
    }
  }

  lemma {:induction false} WithoutDistinct(xs: seq<string>, v: string)
    requires Distinct(xs)
    ensures Distinct(Without(xs, v))
  {
    if |xs| > 0 {
      assert Distinct(xs[1..]);
      WithoutDistinct(xs[1..], v);
      if xs[0] != v {
        assert xs[0] !in xs[1..];
      }
    }
  }

  lemma UndoRemoveValue(step: Step, s: State)
    requires step.RemoveValueStep? && Tidy(s) && Undoable(step, s) && Execute(step, s).Ok?
    ensures Undo(step, Execute(step, s).value) == Ok(s)
  {
    var RemoveValueStep(p, v, i, c) := step;
    assert TidyProperty(s.properties[p]);
    var s2 := ReAddValue(s, p, v, i);
    ReColour(s2, s, p, v, c);
  }

  /** The first half of removeValue's undo: the value back at its index. */
  lemma ReAddValue(s: State, p: Name, v: string, i: int) returns (s2: State)
    requires p in s.properties && TidyProperty(s.properties[p]) && v in s.properties[p].values
    requires i == IndexOf(s.properties[p].values, v)
    ensures EditorState.RemoveValue(s, p, v).Ok?
    ensures EditorState.AddValue(EditorState.RemoveValue(s, p, v).value, p, v, i) == Ok(s2)
    ensures s2 == s.(properties := s.properties[p := s.properties[p].(colours := s.properties[p].colours - {v})])
  {
    var q := s.properties[p];
    var q1 := q.(values := Without(q.values, v), colours := q.colours - {v});
    var s1 := s.(properties := s.properties[p := q1]);
    assert EditorState.RemoveValue(s, p, v) == Ok(s1);
    s2 := AddBack(s, p, v, i, s1);
  }

  lemma AddBack(s: State, p: Name, v: string, i: int, s1: State) returns (s2: State)
    requires p in s.properties && TidyProperty(s.properties[p]) && v in s.properties[p].values
    requires i == IndexOf(s.properties[p].values, v)
    requires s1 == s.(properties := s.properties[p := s.properties[p].(
                        values := Without(s.properties[p].values, v), colours := s.properties[p].colours - {v})])
    ensures EditorState.AddValue(s1, p, v, i) == Ok(s2)
    ensures s2 == s.(properties := s.properties[p := s.properties[p].(colours := s.properties[p].colours - {v})])
  {
    var q := s.properties[p];
    ReinsertWithout(q.values, v);
    var q2 := s1.properties[p].(values := q.values);
    s2 := s1.(properties := s1.properties[p := q2]);
    assert EditorState.AddValue(s1, p, v, i) == Ok(s2);
    assert s1.properties[p := q2] == s.properties[p := q2];
  }

  /** The second half of removeValue's undo: the colour read before. */
  lemma ReColour(s2: State, s: State, p: Name, v: string, c: Option<Colour>)
    requires p in s.properties && TidyProperty(s.properties[p]) && v in s.properties[p].values
    requires s2 == s.(properties := s.properties[p := s.properties[p].(colours := s.properties[p].colours - {v})])
    requires c == GetColor(s, p, v)
    ensures EditorState.SetColor(s2, p, v, c) == Ok(s)
  {
    var q := s.properties[p];
    var q2 := s2.properties[p];
    var cs := if c.Some? then q2.colours[v := c.value] else q2.colours - {v};
    assert cs == q.colours;
    assert EditorState.SetColor(s2, p, v, c) == Ok(s2.(properties := s2.properties[p := q2.(colours := cs)]));
    assert s2.properties[p := q] == s.properties;
  }

  lemma UndoAddValue(step: Step, s: State)
    requires step.AddValueStep? && Tidy(s) && Execute(step, s).Ok?
    ensures Undo(step, Execute(step, s).value) == Ok(s)
  {
    var AddValueStep(p, v, i) := step;
    var q := s.properties[p];
    assert TidyProperty(q);
    var s1 := s.(properties := s.properties[p := q.(values := Insert(q.values, i, v))]);
    assert Execute(step, s) == Ok(s1);
    InsertedBack(s, p, v, i, s1);
  }

  /** Removing a value just inserted gives the property back. */
  lemma InsertedBack(s: State, p: Name, v: string, i: int, s1: State)
    requires p in s.properties && v !in s.properties[p].values && v !in s.properties[p].colours
    requires 0 <= i <= |s.properties[p].values|
    requires s1 == s.(properties := s.properties[p := s.properties[p].(values := Insert(s.properties[p].values, i, v))])
    ensures EditorState.RemoveValue(s1, p, v) == Ok(s)
  {
    var q := s.properties[p];
    var q1 := s1.properties[p];
    WithoutInsert(q.values, i, v);
    assert q1.(values := Without(q1.values, v), colours := q1.colours - {v}) == q;
    assert s1.properties[p := q] == s.properties;
  }

  lemma UndoRenameNode(step: Step, s: State)
    requires step.RenameNodeStep? && Tidy(s) && Execute(step, s).Ok?
    ensures Undo(step, Execute(step, s).value) == Ok(s)
  {
    var f, t := step.from, step.to;
    var s1 := Execute(step, s).value;
    assert s1.nodes == (s.nodes - {f})[t := s.nodes[f]];
    var routes := map r | r in s1.routes :: RenameEnds(s1.routes[r], t, f);
    forall r | r in s.routes ensures routes[r] == s.routes[r] {
      assert s.routes[r].from != t && s.routes[r].to != t;
    }
    assert routes == s.routes;
    assert (s1.nodes - {t})[f := s1.nodes[t]] == s.nodes;
  }

  lemma UndoRenameRoute(step: Step, s: State)
    requires step.RenameRouteStep? && Execute(step, s).Ok?
    ensures Undo(step, Execute(step, s).value) == Ok(s)
  {
    var f, t := step.from, step.to;
    var s1 := Execute(step, s).value;
    assert (s1.routes - {t})[f := s1.routes[t]] == s.routes;
  }

  lemma UndoAssignToNode(step: Step, s: State)
    requires step.AssignToNodeStep? && Undoable(step, s) && Execute(step, s).Ok?
    ensures Undo(step, Execute(step, s).value) == Ok(s)
  {
    var AssignToNodeStep(n, p, v, o) := step;
    var b := s.nodes[n].props.value;
    var ni1 := s.nodes[n].(props := Some(Put(b, p, v)));
    var s1 := s.(nodes := s.nodes[n := ni1]);
    assert Execute(step, s) == Ok(s1);
    PutBack(b, p, v);
    assert ni1.(props := Some(Put(Put(b, p, v), p, o))) == s.nodes[n];
    assert Undo(step, s1) == Ok(s1.(nodes := s1.nodes[n := s.nodes[n]]));
    assert s1.nodes[n := s.nodes[n]] == s.nodes;
  }

  lemma UndoAssignToRoute(step: Step, s: State)
    requires step.AssignToRouteStep? && Undoable(step, s) && Execute(step, s).Ok?
    ensures Undo(step, Execute(step, s).value) == Ok(s)
  {
    var AssignToRouteStep(n, p, v, o) := step;
    var b := s.routes[n].props.value;
    var ri1 := s.routes[n].(props := Some(Put(b, p, v)));
    var s1 := s.(routes := s.routes[n := ri1]);
    assert Execute(step, s) == Ok(s1);
    PutBack(b, p, v);
    assert ri1.(props := Some(Put(Put(b, p, v), p, o))) == s.routes[n];
    assert Undo(step, s1) == Ok(s1.(routes := s1.routes[n := s.routes[n]]));
    assert s1.routes[n := s.routes[n]] == s.routes;
  }

  lemma UndoRemoveRoute(step: Step, s: State)
    requires step.RemoveRouteStep? && Tidy(s) && Undoable(step, s) && Execute(step, s).Ok?
    ensures Undo(step, Execute(step, s).value) == Ok(s)
  {
    var RemoveRouteStep(n, f, t, b) := step;
    var s1 := s.(routes := s.routes - {n});
    assert Execute(step, s) == Ok(s1);
    var s2 := s1.(routes := s1.routes[n := RouteInfo(f, t, None)]);
    assert EditorState.AddRoute(s1, n, f, t) == Ok(s2);
    if b.Some? {
      assert AssignRouteProperties(s2, n, b.value) == Ok(s2.(routes := s2.routes[n := s.routes[n]]));
      assert s2.routes[n := s.routes[n]] == s.routes;
    } else {
      assert s2.routes == s.routes;
    }
  }

  lemma UndoRemoveNode(step: Step, s: State)
    requires step.RemoveNodeStep? && Undoable(step, s) && Execute(step, s).Ok?
    ensures Undo(step, Execute(step, s).value) == Ok(s)
  {
    var RemoveNodeStep(n, c, b) := step;
    var s1 := s.(nodes := s.nodes - {n});
    assert Execute(step, s) == Ok(s1);
    var s2 := s1.(nodes := s1.nodes[n := NodeInfo(c, None)]);
    assert AddNode(s1, n, c) == Ok(s2);
    if b.Some? {
      assert AssignNodeProperties(s2, n, b.value) == Ok(s2.(nodes := s2.nodes[n := s.nodes[n]]));
      assert s2.nodes[n := s.nodes[n]] == s.nodes;
    } else {
      assert s2.nodes == s.nodes;
    }
  }

  lemma UndoEndpoint(step: Step, s: State)
    requires (step.SetStartStep? || step.SetEndStep?) && Tidy(s) && Undoable(step, s) && Execute(step, s).Ok?
    ensures Undo(step, Execute(step, s).value) == Ok(s)
  {
    var e := step.edge;
    var ri := s.routes[e];
    if step.SetStartStep? {
      var s1 := s.(routes := s.routes[e := ri.(from := step.newStart)]);
      assert Execute(step, s) == Ok(s1);
      assert ri.(from := step.newStart).(from := step.oldStart) == ri;
      assert Undo(step, s1) == Ok(s1.(routes := s1.routes[e := ri]));
      assert s1.routes[e := ri] == s.routes;
    } else {
      var s1 := s.(routes := s.routes[e := ri.(to := step.newEnd)]);
      assert Execute(step, s) == Ok(s1);
      assert ri.(to := step.newEnd).(to := step.oldEnd) == ri;
      assert Undo(step, s1) == Ok(s1.(routes := s1.routes[e := ri]));
      assert s1.routes[e := ri] == s.routes;
    }
  }

  lemma UndoSetColor(step: Step, s: State)
    requires step.SetColorStep? && Undoable(step, s) && Execute(step, s).Ok?
    ensures Undo(step, Execute(step, s).value) == Ok(s)
  {
    var SetColorStep(p, v, c, o) := step;
    var q := s.properties[p];
    var cs := if c.Some? then q.colours[v := c.value] else q.colours - {v};
    var s1 := s.(properties := s.properties[p := q.(colours := cs)]);
    assert Execute(step, s) == Ok(s1);
    var cs2 := if o.Some? then cs[v := o.value] else cs - {v};
    assert cs2 == q.colours;
    assert Undo(step, s1) == Ok(s1.(properties := s1.properties[p := q.(colours := cs2)]));
    assert s1.properties[p := q] == s.properties;
  }

  lemma UndoSetType(step: Step, s: State)
    requires step.SetTypeStep? && Undoable(step, s) && Execute(step, s).Ok?
    ensures Undo(step, Execute(step, s).value) == Ok(s)
  {
    var SetTypeStep(p, o, t) := step;
    var q := s.properties[p];
    var s1 := s.(properties := s.properties[p := q.(ptype := t)]);
    assert Execute(step, s) == Ok(s1);
    assert Undo(step, s1) == Ok(s1.(properties := s1.properties[p := q]));
    assert s1.properties[p := q] == s.properties;
  }

  lemma UndoRouteType(step: Step, s: State)
    requires step.SetRouteTypeStep? && Undoable(step, s)
    ensures Undo(step, Execute(step, s).value) == Ok(s)
  {
    var p := step.prop;
    if step.on { assert s.routeTypes + {p} - {p} == s.routeTypes; }
    else { assert s.routeTypes - {p} + {p} == s.routeTypes; }
  }

  /** Undo after execute gives back the state execute started from, for
      every operation whose captured fields still describe that state. */
  lemma UndoExecute(step: Step, s: State)
    requires Tidy(s) && Undoable(step, s) && Execute(step, s).Ok?
    ensures Undo(step, Execute(step, s).value) == Ok(s)
  {
    match step
    case SetStartStep(_, _, _) => UndoEndpoint(step, s);
    case SetEndStep(_, _, _) => UndoEndpoint(step, s);
    case AddRouteStep(n, _, _) =>
      assert (s.routes[n := RouteInfo(step.from, step.to, None)]) - {n} == s.routes;
    case RemoveRouteStep(_, _, _, _) => UndoRemoveRoute(step, s);
    case RenameNodeStep(_, _) => UndoRenameNode(step, s);
    case RenameRouteStep(_, _) => UndoRenameRoute(step, s);
    case SetRouteTypeStep(_, _) => UndoRouteType(step, s);
    case AssignToNodeStep(_, _, _, _) => UndoAssignToNode(step, s);
    case AssignToRouteStep(_, _, _, _) => UndoAssignToRoute(step, s);
    case RemoveValueStep(_, _, _, _) => UndoRemoveValue(step, s);
    case AddValueStep(_, _, _) => UndoAddValue(step, s);
    case SetColorStep(_, _, _, _) => UndoSetColor(step, s);
    case SetTypeStep(_, _, _) => UndoSetType(step, s);
    case RemoveNodeStep(_, _, _) => UndoRemoveNode(step, s);
    case AddChoiceNodeStep(n) =>
      assert s.nodes[n := NodeInfo(true, None)] - {n} == s.nodes;
    case TranslateRouteStep(_) =>
  }

  /** setRouteType's undo gives the state back exactly when the check box
      really changed: undo writes the negation of the new value, not the
      old one. */
  lemma SetRouteTypeUndo(p: Name, on: bool, s: State)
    ensures Undo(SetRouteTypeStep(p, on), Execute(SetRouteTypeStep(p, on), s).value) == Ok(s)
            <==> (p in s.routeTypes) != on
  {
    var s2 := Undo(SetRouteTypeStep(p, on), Execute(SetRouteTypeStep(p, on), s).value).value;
    if on { assert p !in s2.routeTypes; } else { assert p in s2.routeTypes; }
    if (p in s.routeTypes) != on { UndoRouteType(SetRouteTypeStep(p, on), s); }
  }

  // ---------------------------------------------------------- tidy states

  /** A step that leaves no route without its nodes: every step but the
      removal of a node that still has routes. */
  ghost predicate Detached(step: Step, s: State) {
    step.RemoveNodeStep? ==> Entering(s, step.name) == {} && Exiting(s, step.name) == {}
  }

  lemma ExecuteTidyProperty(step: Step, s: State)
    requires Tidy(s) && Execute(step, s).Ok?
    requires step.RemoveValueStep? || step.AddValueStep? || step.SetColorStep? || step.SetTypeStep?
    ensures Tidy(Execute(step, s).value)
  {
    var p := step.prop;
    var q := s.properties[p];
    var s1 := Execute(step, s).value;
    assert TidyProperty(q);
    assert s1.nodes == s.nodes && s1.routes == s.routes;
    var q1 := s1.properties[p];
    if step.RemoveValueStep? {
      WithoutDistinct(q.values, step.value);
    } else if step.AddValueStep? {
      InsertDistinct(q.values, step.index, step.value);
      forall v | v in q1.colours ensures v in q1.values {
        assert v in q.values;
        var k :| 0 <= k < |q.values| && q.values[k] == v;
        if k < step.index { assert q1.values[k] == v; } else { assert q1.values[k + 1] == v; }
      }
    }
    assert TidyProperty(q1);
  }

  lemma ExecuteTidyRoute(step: Step, s: State)
    requires Tidy(s) && Execute(step, s).Ok?
    requires step.RenameNodeStep? || step.RemoveNodeStep? || step.AddChoiceNodeStep?
    requires Detached(step, s)
    ensures Tidy(Execute(step, s).value)
  {
    var s1 := Execute(step, s).value;
    assert s1.properties == s.properties;
    if step.RemoveNodeStep? {
      forall r | r in s1.routes ensures s1.routes[r].from in s1.nodes && s1.routes[r].to in s1.nodes {
        assert r !in Entering(s, step.name) && r !in Exiting(s, step.name);
      }
    } else if step.RenameNodeStep? {
      forall r | r in s1.routes ensures s1.routes[r].from in s1.nodes && s1.routes[r].to in s1.nodes {
        assert r in s.routes;
      }
    }
  }

  /** Execute keeps a state tidy, unless it removes a node routes still use. */
  lemma ExecuteTidy(step: Step, s: State)
    requires Tidy(s) && Detached(step, s) && Execute(step, s).Ok?
    ensures Tidy(Execute(step, s).value)
  {
    match step
    case RemoveValueStep(_, _, _, _) => ExecuteTidyProperty(step, s);
    case AddValueStep(_, _, _) => ExecuteTidyProperty(step, s);
    case SetColorStep(_, _, _, _) => ExecuteTidyProperty(step, s);
    case SetTypeStep(_, _, _) => ExecuteTidyProperty(step, s);
    case RenameNodeStep(_, _) => ExecuteTidyRoute(step, s);
    case RemoveNodeStep(_, _, _) => ExecuteTidyRoute(step, s);
    case AddChoiceNodeStep(_) => ExecuteTidyRoute(step, s);
    case _ =>
      var s1 := Execute(step, s).value;
      assert s1.properties == s.properties && s1.nodes.Keys == s.nodes.Keys;
  }
}
