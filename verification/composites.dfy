/** The composite operations of OperationsManager.Generator.

    A composite is a list of OperationGenerators: each builds one single
    operation.  CompositeOperation is not part of this model; it is taken to
    build each operation just before executing it, so that a later step sees
    what the earlier ones did, and to undo the operations it ran in the
    reverse order. */
module Composites {
  import opened Common
  import opened EditorState
  import opened Generator

  /** The generator calls the composites are made of. */
  datatype Gen =
    | RemoveRouteGen(route: Name)
    | RemoveNodeSoloGen(node: Name)
    | AddChoiceNodeSoloGen(node: Name)
    | AddRouteGen(route: Name, from: Name, to: Name)
    | SetEndGen(route: Name, end: Name)
    | TranslateRouteGen(route: Name)
    | RemoveValueGen(prop: Name, value: string)
    | AddValueGen(prop: Name, value: string, index: int)
    | SetTypeSoloGen(prop: Name, oldType: Option<PropType>, newType: PropType)
    | SetColorGen(prop: Name, value: string, colour: Option<Colour>)

  /** OperationGenerator.generate: the operation, built on the current state. */
  function Build(g: Gen, s: State): (r: Result<Step>)
    ensures r.Ok? && (g.SetTypeSoloGen? ==> g.oldType == GetPropertyType(s, g.prop)) ==> Undoable(r.value, s)
  {
    match g
    case RemoveRouteGen(x) => Generator.RemoveRoute(s, x)
    case RemoveNodeSoloGen(n) => RemoveNodeSolo(s, n)
    case AddChoiceNodeSoloGen(n) => Ok(AddChoiceNodeStep(n))
    case AddRouteGen(x, f, t) => Generator.AddRoute(s, x, f, t)
    case SetEndGen(x, e) => Generator.SetEnd(s, Some(x), Some(e))
    case TranslateRouteGen(x) => TranslateRoute(s, x)
    case RemoveValueGen(p, v) => Ok(Generator.RemoveValue(s, p, v))
    case AddValueGen(p, v, i) => Ok(AddValueStep(p, v, i))
    case SetTypeSoloGen(p, o, t) => Ok(SetTypeStep(p, o, t))
    case SetColorGen(p, v, c) => Ok(Generator.SetColor(s, p, v, c))
  }

  /** CompositeOperation.execute: build and execute each step in turn; the
      steps run are kept for undo.  The first failure is the result. */
  function Run(gens: seq<Gen>, s: State): Result<(seq<Step>, State)>
    decreases |gens|
  {
    if gens == [] then Ok(([], s))
    else
      match Build(gens[0], s)
      case Err(e) => Err(e)
      case Ok(step) =>
        match Execute(step, s)
        case Err(e) => Err(e)
        case Ok(s1) =>
          match Run(gens[1..], s1)
          case Err(e) => Err(e)
          case Ok((done, s2)) => Ok(([step] + done, s2))
  }

  /** CompositeOperation.undo: the steps undone from the last to the first. */
  function UndoAll(done: seq<Step>, s: State): Result<State>
    decreases |done|
  {
    if done == [] then Ok(s)
    else
      match UndoAll(done[1..], s)
      case Err(e) => Err(e)
      case Ok(s1) => Undo(done[0], s1)
  }

  /** Every step of the run starts from a tidy state its captured fields
      describe. */
  ghost predicate RunUndoable(gens: seq<Gen>, s: State)
    decreases |gens|
  {
    gens != [] && Build(gens[0], s).Ok? && Execute(Build(gens[0], s).value, s).Ok? ==>
      && Tidy(s) && Undoable(Build(gens[0], s).value, s)
      && RunUndoable(gens[1..], Execute(Build(gens[0], s).value, s).value)
  }

  /** Undoing a composite gives back the state it started from. */
  lemma {:induction false} UndoRun(gens: seq<Gen>, s: State)
    requires RunUndoable(gens, s) && Run(gens, s).Ok?
    ensures UndoAll(Run(gens, s).value.0, Run(gens, s).value.1) == Ok(s)
    decreases |gens|
  {
    if gens != [] {
      var step := Build(gens[0], s).value;
      var s1 := Execute(step, s).value;
      UndoRun(gens[1..], s1);
      var done := Run(gens, s).value.0;
      assert done[1..] == Run(gens[1..], s1).value.0;
      UndoExecute(step, s);
    }
  }

  /** Running two lists one after the other is running their concatenation. */
  lemma {:induction false} RunAppend(g1: seq<Gen>, g2: seq<Gen>, s: State)
    requires Run(g1, s).Ok? && Run(g2, Run(g1, s).value.1).Ok?
    ensures Run(g1 + g2, s) == Ok((Run(g1, s).value.0 + Run(g2, Run(g1, s).value.1).value.0,
                                   Run(g2, Run(g1, s).value.1).value.1))
    decreases |g1|, 1
  {
    if g1 == [] {
      assert g1 + g2 == g2;
      assert [] + Run(g2, s).value.0 == Run(g2, s).value.0;
    } else {
      var step := Build(g1[0], s).value;
      var s1 := Execute(step, s).value;
      RunCons(g1[0], g1[1..], s, s1);
      SplitHead(g1, g2);
      RunAppendHead(g1[0], g1[1..], g2, s, step, s1);
    }
  }

  /** RunAppend for a list with a head: the tail's run, then the head put in
      front. */
  lemma {:induction false} RunAppendHead(g: Gen, rest: seq<Gen>, g2: seq<Gen>, s: State, step: Step, s1: State)
    requires Build(g, s) == Ok(step) && Execute(step, s) == Ok(s1)
    requires Run(rest, s1).Ok? && Run(g2, Run(rest, s1).value.1).Ok?
    ensures Run([g] + (rest + g2), s) == Ok(([step] + Run(rest, s1).value.0 + Run(g2, Run(rest, s1).value.1).value.0,
                                            Run(g2, Run(rest, s1).value.1).value.1))
    decreases |rest| + 1, 0
  {
    RunAppend(rest, g2, s1);
    RunCons(g, rest + g2, s, s1);
    var d1 := Run(rest, s1).value.0;
    var d2 := Run(g2, Run(rest, s1).value.1).value.0;
    assert [step] + (d1 + d2) == [step] + d1 + d2;
  }

  /** A run of two lists is undoable when both halves are. */
  lemma {:induction false} RunAppendUndoable(g1: seq<Gen>, g2: seq<Gen>, s: State)
    requires Run(g1, s).Ok? && RunUndoable(g1, s) && RunUndoable(g2, Run(g1, s).value.1)
    ensures RunUndoable(g1 + g2, s)
    decreases |g1|
  {
    if g1 == [] {
      assert g1 + g2 == g2;
    } else {
      var s1 := Execute(Build(g1[0], s).value, s).value;
      RunCons(g1[0], g1[1..], s, s1);
      RunAppendUndoable(g1[1..], g2, s1);
      SplitHead(g1, g2);
      RunCons(g1[0], g1[1..] + g2, s, s1);
    }
  }

  /** A non-empty list, and its concatenation, split at the head. */
  lemma SplitHead(g1: seq<Gen>, g2: seq<Gen>)
    requires g1 != []
    ensures g1 == [g1[0]] + g1[1..]
    ensures g1 + g2 == [g1[0]] + (g1[1..] + g2)
  {
    assert g1 + g2 == [g1[0]] + g1[1..] + g2;
  }

  /** A run of one generator. */
  lemma RunOne(g: Gen, s: State)
    ensures Build(g, s).Err? ==> Run([g], s) == Err(Build(g, s).error)
    ensures Build(g, s).Ok? && Execute(Build(g, s).value, s).Err? ==>
              Run([g], s) == Err(Execute(Build(g, s).value, s).error)
    ensures Build(g, s).Ok? && Execute(Build(g, s).value, s).Ok? ==>
              Run([g], s) == Ok(([Build(g, s).value], Execute(Build(g, s).value, s).value))
    ensures (&& Build(g, s).Ok? && Execute(Build(g, s).value, s).Ok? && Tidy(s)
             && (g.SetTypeSoloGen? ==> g.oldType == GetPropertyType(s, g.prop)))
            ==> RunUndoable([g], s)
  {
    assert [g][1..] == [];
    if Build(g, s).Ok? {
      assert [Build(g, s).value] + [] == [Build(g, s).value];
    }
  }

  // ------------------------------------------------------------ removeNode

  /** A list of route names, each named once, that are exactly `rs`. */
  ghost predicate Lists(xs: seq<Name>, rs: set<Name>) {
    Distinct(xs) && (forall x | x in xs :: x in rs) && (forall x | x in rs :: x in xs)
  }

  /** The removal of each route in turn. */
  function RemoveRoutes(xs: seq<Name>): seq<Gen> {
    seq(|xs|, k requires 0 <= k < |xs| => RemoveRouteGen(xs[k]))
  }

  /** Collection.addAll on a set of routes: some order, each route once. */
  method ListRoutes(rs: set<Name>) returns (xs: seq<Name>)
    ensures Lists(xs, rs) && |xs| == |rs|
  {
    xs := [];
    var rest := rs;
    while rest != {}
      invariant rest <= rs && Distinct(xs)
      invariant forall x | x in xs :: x in rs && x !in rest
      invariant forall x | x in rs :: x in xs || x in rest
      invariant |xs| + |rest| == |rs|
      decreases |rest|
    {
      var x :| x in rest;
      xs := xs + [x];
      rest := rest - {x};
    }
  }

  /** The items of removeNode: one removeRoute per listed route, then
      removeNodeSolo. */
  method RemovalItems(routes: seq<Name>, name: Name) returns (items: seq<Gen>)
    ensures items == RemoveRoutes(routes) + [RemoveNodeSoloGen(name)]
  {
    items := [];
    for k := 0 to |routes|
      invariant items == RemoveRoutes(routes[..k])
    {
      assert RemoveRoutes(routes[..k + 1]) == RemoveRoutes(routes[..k]) + [RemoveRouteGen(routes[k])];
      items := items + [RemoveRouteGen(routes[k])];
    }
    assert routes[..|routes|] == routes;
    items := items + [RemoveNodeSoloGen(name)];
  }

  /** removeNode as written: the entering routes, then the exiting routes,
      then the node.  A route from the node to itself is in both lists. */
  method RemoveNodeAsWritten(s: State, name: Name) returns (r: Result<seq<Gen>>, routes: seq<Name>)
    ensures r.Err? <==> name !in s.nodes
    ensures r.Err? ==> r.error == ItemDoesNotExist(name)
    ensures r.Ok? ==> && |Entering(s, name)| <= |routes|
                      && Lists(routes[..|Entering(s, name)|], Entering(s, name))
                      && Lists(routes[|Entering(s, name)|..], Exiting(s, name))
                      && r.value == RemoveRoutes(routes) + [RemoveNodeSoloGen(name)]
  {
    if name !in s.nodes {
      return Err(ItemDoesNotExist(name)), [];
    }
    var ins := ListRoutes(Entering(s, name));
    var outs := ListRoutes(Exiting(s, name));
    routes := ins + outs;
    assert routes[..|ins|] == ins && routes[|ins|..] == outs;
    var items := RemovalItems(routes, name);
    r := Ok(items);
  }

  /** removeNode with each route removed once. */
  method RemoveNode(s: State, name: Name) returns (r: Result<seq<Gen>>, routes: seq<Name>)
    ensures r.Err? <==> name !in s.nodes
    ensures r.Err? ==> r.error == ItemDoesNotExist(name)
    ensures r.Ok? ==> Lists(routes, Entering(s, name) + Exiting(s, name))
                      && r.value == RemoveRoutes(routes) + [RemoveNodeSoloGen(name)]
  {
    if name !in s.nodes {
      return Err(ItemDoesNotExist(name)), [];
    }
    var ins := ListRoutes(Entering(s, name));
    var outs := ListRoutes(Exiting(s, name) - Entering(s, name));
    routes := ins + outs;
    forall i, j | 0 <= i < j < |routes| ensures routes[i] != routes[j] {
      if i < |ins| && |ins| <= j {
        assert routes[i] in ins && routes[j] in outs;
      }
    }
    var items := RemovalItems(routes, name);
    r := Ok(items);
  }

  /** Removing listed routes that all exist, one at a time. */
  lemma {:induction false} RemoveRoutesRun(xs: seq<Name>, s: State)
    requires Distinct(xs) && forall x | x in xs :: x in s.routes
    ensures Run(RemoveRoutes(xs), s).Ok?
    ensures Run(RemoveRoutes(xs), s).value.1 == s.(routes := s.routes - set x | x in xs)
    ensures Tidy(s) ==> RunUndoable(RemoveRoutes(xs), s)
    decreases |xs|
  {
    if xs != [] {
      var s1 := s.(routes := s.routes - {xs[0]});
      assert Build(RemoveRouteGen(xs[0]), s).Ok?;
      assert Execute(Build(RemoveRouteGen(xs[0]), s).value, s) == Ok(s1);
      assert Distinct(xs[1..]);
      forall x | x in xs[1..] ensures x in s1.routes {
        assert x != xs[0];
      }
      RemoveRoutesRun(xs[1..], s1);
      assert RemoveRoutes(xs)[1..] == RemoveRoutes(xs[1..]);
      assert s1.routes - (set x | x in xs[1..]) == s.routes - (set x | x in xs);
      if Tidy(s) {
        assert Tidy(s1);
      }
    }
  }

  /** A removal list that names a missing route, or one route twice. */
  lemma {:induction false} RemovalsFail(xs: seq<Name>, tail: seq<Gen>, s: State, i: nat, j: nat)
    requires i < |xs| && j < |xs|
    requires xs[i] !in s.routes || (i < j && xs[i] == xs[j])
    ensures Run(RemoveRoutes(xs) + tail, s).Err?
    decreases |xs|
  {
    var gens := RemoveRoutes(xs) + tail;
    assert gens[0] == RemoveRouteGen(xs[0]);
    if xs[0] in s.routes {
      var s1 := s.(routes := s.routes - {xs[0]});
      assert Execute(Build(gens[0], s).value, s) == Ok(s1);
      assert Run(gens[1..], s1).Err? ==> Run(gens, s).Err?;
      assert gens[1..] == RemoveRoutes(xs[1..]) + tail;
      if i == 0 {
        RemovalsFail(xs[1..], tail, s1, j - 1, j - 1);
      } else if xs[i] !in s.routes {
        RemovalsFail(xs[1..], tail, s1, i - 1, i - 1);
      } else {
        RemovalsFail(xs[1..], tail, s1, i - 1, j - 1);
      }
    }
  }

  /** As written, removeNode fails on a node with a route to itself: the
      route is listed as entering and as exiting, and its second removal
      finds it gone. */
  lemma SelfLoopBlocksRemoveNode(s: State, name: Name, routes: seq<Name>, x: Name)
    requires x in s.routes && s.routes[x].from == name && s.routes[x].to == name
    requires |Entering(s, name)| <= |routes|
    requires Lists(routes[..|Entering(s, name)|], Entering(s, name))
    requires Lists(routes[|Entering(s, name)|..], Exiting(s, name))
    ensures Run(RemoveRoutes(routes) + [RemoveNodeSoloGen(name)], s).Err?
  {
    var n := |Entering(s, name)|;
    assert x in Entering(s, name) && x in Exiting(s, name);
    assert x in routes[..n];
    var i :| 0 <= i < n && routes[..n][i] == x;
    assert x in routes[n..];
    var j :| 0 <= j < |routes| - n && routes[n..][j] == x;
    RemovalsFail(routes, [RemoveNodeSoloGen(name)], s, i, n + j);
  }

  /** As written, removeNode on a node with no route to itself lists each
      of its routes once, so it runs as the corrected one does. */
  lemma AsWrittenWithoutLoop(s: State, name: Name, routes: seq<Name>)
    requires forall x | x in s.routes :: !(s.routes[x].from == name && s.routes[x].to == name)
    requires |Entering(s, name)| <= |routes|
    requires Lists(routes[..|Entering(s, name)|], Entering(s, name))
    requires Lists(routes[|Entering(s, name)|..], Exiting(s, name))
    ensures Lists(routes, Entering(s, name) + Exiting(s, name))
    ensures Tidy(s) && name in s.nodes ==>
              && Run(RemoveRoutes(routes) + [RemoveNodeSoloGen(name)], s).Ok?
              && Run(RemoveRoutes(routes) + [RemoveNodeSoloGen(name)], s).value.1
                 == s.(nodes := s.nodes - {name}, routes := s.routes - (Entering(s, name) + Exiting(s, name)))
  {
    var n := |Entering(s, name)|;
    var ins, outs := routes[..n], routes[n..];
    assert routes == ins + outs;
    forall i, j | 0 <= i < j < |routes| ensures routes[i] != routes[j] {
      if i < n && n <= j {
        assert routes[i] == ins[i] && routes[j] == outs[j - n];
        assert routes[i] in Entering(s, name) && routes[j] in Exiting(s, name);
      } else if j < n {
        assert routes[i] == ins[i] && routes[j] == ins[j];
      } else {
        assert routes[i] == outs[i - n] && routes[j] == outs[j - n];
      }
    }
    if Tidy(s) && name in s.nodes {
      RemoveNodeRuns(s, name, routes);
    }
  }

  /** Corrected removeNode: it removes every route of the node, then the
      node, leaves the rest of a tidy state alone, keeps it tidy, and undo
      gives the state back. */
  lemma RemoveNodeRuns(s: State, name: Name, routes: seq<Name>)
    requires Tidy(s) && name in s.nodes
    requires Lists(routes, Entering(s, name) + Exiting(s, name))
    ensures Run(RemoveRoutes(routes) + [RemoveNodeSoloGen(name)], s).Ok?
    ensures Run(RemoveRoutes(routes) + [RemoveNodeSoloGen(name)], s).value.1
            == s.(nodes := s.nodes - {name}, routes := s.routes - (Entering(s, name) + Exiting(s, name)))
    ensures Tidy(Run(RemoveRoutes(routes) + [RemoveNodeSoloGen(name)], s).value.1)
    ensures RunUndoable(RemoveRoutes(routes) + [RemoveNodeSoloGen(name)], s)
  {
    var s1 := RoutesGone(s, name, routes);
    var s2 := NodeGone(s1, name);
    RunAppend(RemoveRoutes(routes), [RemoveNodeSoloGen(name)], s);
    RunAppendUndoable(RemoveRoutes(routes), [RemoveNodeSoloGen(name)], s);
  }

  lemma RoutesGone(s: State, name: Name, routes: seq<Name>) returns (s1: State)
    requires Tidy(s)
    requires Lists(routes, Entering(s, name) + Exiting(s, name))
    ensures Run(RemoveRoutes(routes), s).Ok? && Run(RemoveRoutes(routes), s).value.1 == s1
    ensures RunUndoable(RemoveRoutes(routes), s)
    ensures s1 == s.(routes := s.routes - (Entering(s, name) + Exiting(s, name)))
    ensures Tidy(s1) && Entering(s1, name) == {} && Exiting(s1, name) == {}
  {
    var touching := Entering(s, name) + Exiting(s, name);
    RemoveRoutesRun(routes, s);
    assert (set x | x in routes) == touching;
    s1 := s.(routes := s.routes - touching);
  }

  lemma NodeGone(s1: State, name: Name) returns (s2: State)
    requires Tidy(s1) && name in s1.nodes && Entering(s1, name) == {} && Exiting(s1, name) == {}
    ensures Run([RemoveNodeSoloGen(name)], s1).Ok? && Run([RemoveNodeSoloGen(name)], s1).value.1 == s2
    ensures RunUndoable([RemoveNodeSoloGen(name)], s1)
    ensures s2 == s1.(nodes := s1.nodes - {name}) && Tidy(s2)
  {
    var step := RemoveNodeStep(name, s1.nodes[name].choice, s1.nodes[name].props);
    assert Build(RemoveNodeSoloGen(name), s1) == Ok(step);
    s2 := s1.(nodes := s1.nodes - {name});
    assert Execute(step, s1) == Ok(s2);
    ExecuteTidy(step, s1);
    RunOne(RemoveNodeSoloGen(name), s1);
  }

  /** One more generator in front of a run. */
  lemma RunCons(g: Gen, rest: seq<Gen>, s: State, s1: State)
    requires Build(g, s).Ok? && Execute(Build(g, s).value, s) == Ok(s1)
    ensures Run(rest, s1).Err? ==> Run([g] + rest, s) == Run(rest, s1)
    ensures Run(rest, s1).Ok? ==>
              Run([g] + rest, s) == Ok(([Build(g, s).value] + Run(rest, s1).value.0, Run(rest, s1).value.1))
    ensures Tidy(s) && Undoable(Build(g, s).value, s) && RunUndoable(rest, s1) ==> RunUndoable([g] + rest, s)
    ensures RunUndoable([g] + rest, s) ==> RunUndoable(rest, s1)
  {
    assert ([g] + rest)[0] == g && ([g] + rest)[1..] == rest;
  }

  // --------------------------------------------------------- addChoiceNode

  /** addChoiceNode: a choice node `name` placed on route `split`: the new
      route `route2` runs from it to where `split` ended, `split` now ends at
      it, and `split` is moved. */
  function AddChoiceNode(name: Name, split: Name, splitEnd: Name, route2: Name): (r: seq<Gen>)
    ensures |r| == 4
  {
    [AddChoiceNodeSoloGen(name), AddRouteGen(route2, name, splitEnd), SetEndGen(split, name),
     TranslateRouteGen(split)]
  }

  /** addChoiceNode on a fresh node name and a fresh route name puts the node
      on the route, keeps the state tidy, and undo gives the state back. */
  lemma AddChoiceNodeRuns(s: State, name: Name, split: Name, route2: Name)
    requires Tidy(s) && split in s.routes && name !in s.nodes && route2 !in s.routes
    ensures Run(AddChoiceNode(name, split, s.routes[split].to, route2), s).Ok?
    ensures Run(AddChoiceNode(name, split, s.routes[split].to, route2), s).value.1
            == s.(nodes := s.nodes[name := NodeInfo(true, None)],
                  routes := s.routes[split := s.routes[split].(to := name)]
                                    [route2 := RouteInfo(name, s.routes[split].to, None)])
    ensures Tidy(Run(AddChoiceNode(name, split, s.routes[split].to, route2), s).value.1)
    ensures RunUndoable(AddChoiceNode(name, split, s.routes[split].to, route2), s)
  {
    var e := s.routes[split].to;
    var g0, g1, g2, g3 := AddChoiceNodeSoloGen(name), AddRouteGen(route2, name, e), SetEndGen(split, name),
                          TranslateRouteGen(split);
    var s1 := ChoiceStep1(s, name);
    var s2 := ChoiceStep2(s1, name, e, route2);
    var s3 := ChoiceStep3(s2, name, split);
    ChoiceStep4(s3, split);
    ChoiceFinal(s, name, split, route2, s1, s2, s3);
    FourSplit([g0, g1, g2, g3]);
    RunOne(g3, s3);
    RunCons(g2, [g3], s2, s3);
    RunCons(g1, [g2, g3], s1, s2);
    RunCons(g0, [g1, g2, g3], s, s1);
  }

  lemma ChoiceStep4(s3: State, split: Name)
    requires Tidy(s3) && split in s3.routes
    ensures Build(TranslateRouteGen(split), s3) == Ok(TranslateRouteStep(split))
    ensures Execute(TranslateRouteStep(split), s3) == Ok(s3)
    ensures Undoable(TranslateRouteStep(split), s3)
  {
  }

  lemma ChoiceFinal(s: State, name: Name, split: Name, route2: Name, s1: State, s2: State, s3: State)
    requires split in s.routes && route2 != split
    requires s1 == s.(nodes := s.nodes[name := NodeInfo(true, None)])
    requires s2 == s1.(routes := s1.routes[route2 := RouteInfo(name, s.routes[split].to, None)])
    requires s3 == s2.(routes := s2.routes[split := s2.routes[split].(to := name)])
    ensures s3 == s.(nodes := s.nodes[name := NodeInfo(true, None)],
                     routes := s.routes[split := s.routes[split].(to := name)]
                                       [route2 := RouteInfo(name, s.routes[split].to, None)])
  {
    assert s3.routes == s.routes[split := s.routes[split].(to := name)][route2 := RouteInfo(name, s.routes[split].to, None)];
  }

  /** A list of four, built up from its last element. */
  lemma FourSplit(gens: seq<Gen>)
    requires |gens| == 4
    ensures [gens[3]] + [] == [gens[3]]
    ensures [gens[2]] + [gens[3]] == [gens[2], gens[3]]
    ensures [gens[1]] + [gens[2], gens[3]] == [gens[1], gens[2], gens[3]]
    ensures gens == [gens[0]] + [gens[1], gens[2], gens[3]]
  {
  }

  lemma ChoiceStep1(s: State, name: Name) returns (s1: State)
    requires Tidy(s) && name !in s.nodes
    ensures Build(AddChoiceNodeSoloGen(name), s).Ok?
    ensures Execute(Build(AddChoiceNodeSoloGen(name), s).value, s) == Ok(s1)
    ensures Undoable(Build(AddChoiceNodeSoloGen(name), s).value, s)
    ensures s1 == s.(nodes := s.nodes[name := NodeInfo(true, None)]) && Tidy(s1)
  {
    s1 := s.(nodes := s.nodes[name := NodeInfo(true, None)]);
    ExecuteTidy(AddChoiceNodeStep(name), s);
  }

  lemma ChoiceStep2(s1: State, name: Name, e: Name, route2: Name) returns (s2: State)
    requires Tidy(s1) && name in s1.nodes && e in s1.nodes && route2 !in s1.routes
    ensures Build(AddRouteGen(route2, name, e), s1).Ok?
    ensures Execute(Build(AddRouteGen(route2, name, e), s1).value, s1) == Ok(s2)
    ensures Undoable(Build(AddRouteGen(route2, name, e), s1).value, s1)
    ensures s2 == s1.(routes := s1.routes[route2 := RouteInfo(name, e, None)]) && Tidy(s2)
  {
    s2 := s1.(routes := s1.routes[route2 := RouteInfo(name, e, None)]);
    ExecuteTidy(AddRouteStep(route2, name, e), s1);
  }

  lemma ChoiceStep3(s2: State, name: Name, split: Name) returns (s3: State)
    requires Tidy(s2) && name in s2.nodes && split in s2.routes
    ensures Build(SetEndGen(split, name), s2).Ok?
    ensures Execute(Build(SetEndGen(split, name), s2).value, s2) == Ok(s3)
    ensures Undoable(Build(SetEndGen(split, name), s2).value, s2)
    ensures s3 == s2.(routes := s2.routes[split := s2.routes[split].(to := name)]) && Tidy(s3)
  {
    var step := SetEndStep(split, s2.routes[split].to, name);
    assert Build(SetEndGen(split, name), s2) == Ok(step);
    s3 := s2.(routes := s2.routes[split := s2.routes[split].(to := name)]);
    ExecuteTidy(step, s2);
  }

  // ------------------------------------------------------- setPropertyType

  /** The values of a list that are not in `a`, in their order. */
  function KeepOut(xs: seq<string>, a: set<string>): (r: seq<string>)
    ensures forall x :: x in r <==> x in xs && x !in a
    ensures Distinct(xs) ==> Distinct(r)
  {
    if xs == [] then []
    else
      var rest := KeepOut(xs[1..], a);
      assert Distinct(xs) ==> xs[0] !in xs[1..];
      if xs[0] in a then rest else [xs[0]] + rest
  }

  /** The values of a list that do not format for type `t`, in their order. */
  function Misfits(xs: seq<string>, t: PropType, correct: (PropType, string) -> bool): (r: seq<string>)
    ensures forall x :: x in r <==> x in xs && !correct(t, x)
    ensures Distinct(xs) ==> Distinct(r)
  {
    if xs == [] then []
    else
      var init := Misfits(xs[..|xs| - 1], t, correct);
      var last := xs[|xs| - 1];
      assert xs == xs[..|xs| - 1] + [last];
      assert Distinct(xs) ==> last !in xs[..|xs| - 1];
      if correct(t, last) then init else init + [last]
  }

  /** The removal of each listed value of `prop` in turn. */
  function RemoveValues(prop: Name, ws: seq<string>): seq<Gen> {
    seq(|ws|, k requires 0 <= k < |ws| => RemoveValueGen(prop, ws[k]))
  }

  /** The values a boolean type needs that the property does not list. */
  function BooleanFill(prop: Name, t: PropType, vs: seq<string>): seq<Gen> {
    if t != Boolean then []
    else (if "true" in vs then [] else [AddValueGen(prop, "true", 0)])
         + (if "false" in vs then [] else [AddValueGen(prop, "false", 1)])
  }

  /** The items of setPropertyType on a property listing `vs`. */
  function SetTypeItems(prop: Name, oldType: Option<PropType>, t: PropType, vs: seq<string>,
                        correct: (PropType, string) -> bool): seq<Gen>
  {
    RemoveValues(prop, Misfits(vs, t, correct)) + ([SetTypeSoloGen(prop, oldType, t)] + BooleanFill(prop, t, vs))
  }

  /** setPropertyType: remove every value that does not format for the new
      type, set the type, and for a boolean type add "true" at 0 and "false"
      at 1 when the property did not list them. */
  method SetPropertyType(s: State, prop: Name, t: PropType, correct: (PropType, string) -> bool)
    returns (r: Result<seq<Gen>>)
    ensures prop !in s.properties ==> r == Err(ItemDoesNotExist(prop))
    ensures prop in s.properties ==>
              r == Ok(SetTypeItems(prop, GetPropertyType(s, prop), t, s.properties[prop].values, correct))
  {
    var oldType := GetPropertyType(s, prop);
    if prop !in s.properties {
      return Err(ItemDoesNotExist(prop));
    }
    var vs := s.properties[prop].values;
    var removals := [];
    for k := 0 to |vs|
      invariant removals == RemoveValues(prop, Misfits(vs[..k], t, correct))
    {
      MisfitsSnoc(prop, vs, k, t, correct);
      if !correct(t, vs[k]) {
        removals := removals + [RemoveValueGen(prop, vs[k])];
      }
    }
    assert vs[..|vs|] == vs;
    var rest := [SetTypeSoloGen(prop, oldType, t)];
    if t == Boolean {
      if "true" !in vs {
        rest := rest + [AddValueGen(prop, "true", 0)];
      }
      if "false" !in vs {
        rest := rest + [AddValueGen(prop, "false", 1)];
      }
    }
    assert rest == [SetTypeSoloGen(prop, oldType, t)] + BooleanFill(prop, t, vs);
    r := Ok(removals + rest);
  }

  /** One more value looked at by setPropertyType's loop. */
  lemma MisfitsSnoc(prop: Name, vs: seq<string>, k: nat, t: PropType, correct: (PropType, string) -> bool)
    requires k < |vs|
    ensures correct(t, vs[k]) ==>
              RemoveValues(prop, Misfits(vs[..k + 1], t, correct)) == RemoveValues(prop, Misfits(vs[..k], t, correct))
    ensures !correct(t, vs[k]) ==>
              RemoveValues(prop, Misfits(vs[..k + 1], t, correct))
              == RemoveValues(prop, Misfits(vs[..k], t, correct)) + [RemoveValueGen(prop, vs[k])]
  {
    assert vs[..k + 1][..k] == vs[..k];
    if !correct(t, vs[k]) {
      assert RemoveValues(prop, Misfits(vs[..k + 1], t, correct))
             == RemoveValues(prop, Misfits(vs[..k], t, correct)) + [RemoveValueGen(prop, vs[k])];
    }
  }

  /** Removing a value, then the values of `a`, keeps what is in neither. */
  lemma {:induction false} KeepOutWithout(xs: seq<string>, v: string, a: set<string>)
    ensures KeepOut(Without(xs, v), a) == KeepOut(xs, a + {v})
    decreases |xs|
  {
    if xs != [] {
      KeepOutWithout(xs[1..], v, a);
      if xs[0] != v {
        assert ([xs[0]] + Without(xs[1..], v))[1..] == Without(xs[1..], v);
      }
    }
  }

  /** The state with the values `a` of `prop` and their colours gone. */
  function WithoutValues(s: State, prop: Name, a: set<string>): State
    requires prop in s.properties
  {
    var q := s.properties[prop];
    s.(properties := s.properties[prop := q.(values := KeepOut(q.values, a), colours := q.colours - a)])
  }

  /** Removing listed values of a property that are all there, one at a
      time. */
  lemma {:induction false} RemoveValuesRun(prop: Name, ws: seq<string>, s: State)
    requires Tidy(s) && prop in s.properties
    requires Distinct(ws) && forall w | w in ws :: w in s.properties[prop].values
    ensures Run(RemoveValues(prop, ws), s).Ok?
    ensures Run(RemoveValues(prop, ws), s).value.1 == WithoutValues(s, prop, set w | w in ws)
    ensures Tidy(WithoutValues(s, prop, set w | w in ws))
    ensures RunUndoable(RemoveValues(prop, ws), s)
    decreases |ws|
  {
    var q := s.properties[prop];
    if ws == [] {
      assert RemoveValues(prop, ws) == [];
      assert (set w | w in ws) == {};
      assert KeepOut(q.values, {}) == q.values by { KeepOutNone(q.values); }
      assert q.colours - {} == q.colours;
      assert s.properties[prop := q] == s.properties;
    } else {
      var step := Generator.RemoveValue(s, prop, ws[0]);
      var s1 := RemoveOne(s, prop, ws[0]);
      assert Distinct(ws[1..]);
      forall w | w in ws[1..] ensures w in s1.properties[prop].values {
        assert w != ws[0];
      }
      RemoveValuesRun(prop, ws[1..], s1);
      RemoveValuesShift(prop, ws, s, s1);
      RunCons(RemoveValueGen(prop, ws[0]), RemoveValues(prop, ws[1..]), s, s1);
    }
  }

  lemma {:induction false} KeepOutNone(xs: seq<string>)
    ensures KeepOut(xs, {}) == xs
    decreases |xs|
  {
    if xs != [] {
      KeepOutNone(xs[1..]);
    }
  }

  /** One value removed by its generator. */
  lemma RemoveOne(s: State, prop: Name, w: string) returns (s1: State)
    requires Tidy(s) && prop in s.properties && w in s.properties[prop].values
    ensures Build(RemoveValueGen(prop, w), s).Ok?
    ensures Execute(Build(RemoveValueGen(prop, w), s).value, s) == Ok(s1)
    ensures Undoable(Build(RemoveValueGen(prop, w), s).value, s)
    ensures s1 == s.(properties := s.properties[prop := s.properties[prop].(
                       values := Without(s.properties[prop].values, w),
                       colours := s.properties[prop].colours - {w})])
    ensures Tidy(s1)
  {
    var step := Generator.RemoveValue(s, prop, w);
    assert Build(RemoveValueGen(prop, w), s) == Ok(step);
    s1 := EditorState.RemoveValue(s, prop, w).value;
    ExecuteTidy(step, s);
  }

  /** The removals after the first, from the state the first leaves, end
      where all of them would. */
  lemma RemoveValuesShift(prop: Name, ws: seq<string>, s: State, s1: State)
    requires ws != [] && prop in s.properties
    requires s1 == s.(properties := s.properties[prop := s.properties[prop].(
                        values := Without(s.properties[prop].values, ws[0]),
                        colours := s.properties[prop].colours - {ws[0]})])
    ensures RemoveValues(prop, ws) == [RemoveValueGen(prop, ws[0])] + RemoveValues(prop, ws[1..])
    ensures WithoutValues(s1, prop, set w | w in ws[1..]) == WithoutValues(s, prop, set w | w in ws)
  {
    var a := set w | w in ws[1..];
    assert (set w | w in ws) == a + {ws[0]};
    WithoutValuesShift(prop, ws[0], a, s, s1);
    RemoveValuesHead(prop, ws);
  }

  /** The removal list split at its head. */
  lemma RemoveValuesHead(prop: Name, ws: seq<string>)
    requires ws != []
    ensures RemoveValues(prop, ws) == [RemoveValueGen(prop, ws[0])] + RemoveValues(prop, ws[1..])
  {
    assert RemoveValues(prop, ws) == [RemoveValueGen(prop, ws[0])] + RemoveValues(prop, ws[1..]);
  }

  /** Removing `v` first, then the values of `a`, is removing both. */
  lemma WithoutValuesShift(prop: Name, v: string, a: set<string>, s: State, s1: State)
    requires prop in s.properties
    requires s1 == s.(properties := s.properties[prop := s.properties[prop].(
                        values := Without(s.properties[prop].values, v),
                        colours := s.properties[prop].colours - {v})])
    ensures WithoutValues(s1, prop, a) == WithoutValues(s, prop, a + {v})
  {
    var q := s.properties[prop];
    var q1 := q.(values := Without(q.values, v), colours := q.colours - {v});
    var r := q.(values := KeepOut(q.values, a + {v}), colours := q.colours - (a + {v}));
    assert q1.(values := KeepOut(q1.values, a), colours := q1.colours - a) == r by {
      KeepOutWithout(q.values, v, a);
      assert q.colours - {v} - a == q.colours - (a + {v});
    }
    assert s1.properties[prop := r] == s.properties[prop := r];
  }

  /** The values after the boolean fill: "true" first, "false" second, when
      they were missing. */
  function Filled(ks: seq<string>, vs: seq<string>, t: PropType): (r: seq<string>)
    requires t == Boolean ==> ("true" in vs <==> "true" in ks) && ("false" in vs <==> "false" in ks)
    ensures forall x :: x in r <==> x in ks || (t == Boolean && (x == "true" || x == "false"))
    ensures Distinct(ks) ==> Distinct(r)
  {
    if t != Boolean then ks
    else
      var k1 := if "true" in vs then ks else Insert(ks, 0, "true");
      assert Distinct(ks) ==> Distinct(k1) by {
        if Distinct(ks) && "true" !in vs { InsertDistinct(ks, 0, "true"); }
      }
      if "false" in vs then k1
      else
        assert Distinct(k1) ==> Distinct(Insert(k1, 1, "false")) by {
          if Distinct(k1) { InsertDistinct(k1, 1, "false"); }
        }
        Insert(k1, 1, "false")
  }

  /** The state with property `prop` listing `vs`. */
  function WithValues(s: State, prop: Name, vs: seq<string>): State
    requires prop in s.properties
  {
    s.(properties := s.properties[prop := s.properties[prop].(values := vs)])
  }

  /** One value added by its generator. */
  lemma AddOne(s: State, prop: Name, v: string, i: int) returns (s1: State)
    requires Tidy(s) && prop in s.properties && v !in s.properties[prop].values
    requires 0 <= i <= |s.properties[prop].values|
    ensures Build(AddValueGen(prop, v, i), s).Ok?
    ensures Execute(Build(AddValueGen(prop, v, i), s).value, s) == Ok(s1)
    ensures Undoable(Build(AddValueGen(prop, v, i), s).value, s)
    ensures s1 == WithValues(s, prop, Insert(s.properties[prop].values, i, v)) && Tidy(s1)
  {
    s1 := EditorState.AddValue(s, prop, v, i).value;
    ExecuteTidy(AddValueStep(prop, v, i), s);
  }

  /** The boolean fill adds the missing values and can be undone. */
  lemma FillRun(s: State, prop: Name, t: PropType, vs: seq<string>)
    requires Tidy(s) && prop in s.properties
    requires t == Boolean ==> && ("true" in vs <==> "true" in s.properties[prop].values)
                              && ("false" in vs <==> "false" in s.properties[prop].values)
    ensures Run(BooleanFill(prop, t, vs), s).Ok?
    ensures Run(BooleanFill(prop, t, vs), s).value.1 == WithValues(s, prop, Filled(s.properties[prop].values, vs, t))
    ensures RunUndoable(BooleanFill(prop, t, vs), s)
  {
    var ks := s.properties[prop].values;
    if t != Boolean || ("true" in vs && "false" in vs) {
      assert BooleanFill(prop, t, vs) == [];
      assert WithValues(s, prop, ks) == s;
    } else if "true" in vs {
      FillOne(s, prop, vs, "false", 1);
    } else if "false" in vs {
      FillOne(s, prop, vs, "true", 0);
    } else {
      FillTwo(s, prop, vs);
    }
  }

  lemma FillOne(s: State, prop: Name, vs: seq<string>, v: string, i: int)
    requires Tidy(s) && prop in s.properties
    requires ("true" in vs <==> "true" in s.properties[prop].values)
    requires ("false" in vs <==> "false" in s.properties[prop].values)
    requires || ((v, i) == ("false", 1) && "true" in vs && "false" !in vs)
             || ((v, i) == ("true", 0) && "false" in vs && "true" !in vs)
    ensures BooleanFill(prop, Boolean, vs) == [AddValueGen(prop, v, i)]
    ensures Run([AddValueGen(prop, v, i)], s).Ok?
    ensures Run([AddValueGen(prop, v, i)], s).value.1
            == WithValues(s, prop, Filled(s.properties[prop].values, vs, Boolean))
    ensures RunUndoable([AddValueGen(prop, v, i)], s)
  {
    var s1 := AddOne(s, prop, v, i);
    RunOne(AddValueGen(prop, v, i), s);
  }

  lemma FillTwo(s: State, prop: Name, vs: seq<string>)
    requires Tidy(s) && prop in s.properties
    requires "true" !in vs && "true" !in s.properties[prop].values
    requires "false" !in vs && "false" !in s.properties[prop].values
    ensures BooleanFill(prop, Boolean, vs) == [AddValueGen(prop, "true", 0)] + [AddValueGen(prop, "false", 1)]
    ensures Run(BooleanFill(prop, Boolean, vs), s).Ok?
    ensures Run(BooleanFill(prop, Boolean, vs), s).value.1
            == WithValues(s, prop, Filled(s.properties[prop].values, vs, Boolean))
    ensures RunUndoable(BooleanFill(prop, Boolean, vs), s)
  {
    var s1 := AddOne(s, prop, "true", 0);
    var s2 := AddOne(s1, prop, "false", 1);
    RunOne(AddValueGen(prop, "false", 1), s1);
    RunCons(AddValueGen(prop, "true", 0), [AddValueGen(prop, "false", 1)], s, s1);
  }

  /** The type set by its generator. */
  lemma SetTypeOne(s: State, prop: Name, t: PropType) returns (s1: State)
    requires Tidy(s) && prop in s.properties
    ensures Build(SetTypeSoloGen(prop, GetPropertyType(s, prop), t), s).Ok?
    ensures Execute(Build(SetTypeSoloGen(prop, GetPropertyType(s, prop), t), s).value, s) == Ok(s1)
    ensures Undoable(Build(SetTypeSoloGen(prop, GetPropertyType(s, prop), t), s).value, s)
    ensures s1 == s.(properties := s.properties[prop := s.properties[prop].(ptype := t)]) && Tidy(s1)
  {
    s1 := EditorState.SetPropertyType(s, prop, t).value;
    ExecuteTidy(SetTypeStep(prop, GetPropertyType(s, prop), t), s);
  }

  /** The values of `prop` that do not format for `t`. */
  function MisfitSet(s: State, prop: Name, t: PropType, correct: (PropType, string) -> bool): (m: set<string>)
    requires prop in s.properties
    ensures forall x :: x in m <==> x in s.properties[prop].values && !correct(t, x)
  {
    set x | x in s.properties[prop].values && !correct(t, x)
  }

  /** The state setPropertyType leaves: the misfits and their colours gone,
      the type set, and the boolean values filled in. */
  function TypedState(s: State, prop: Name, t: PropType, correct: (PropType, string) -> bool): State
    requires prop in s.properties
    requires t == Boolean ==> correct(Boolean, "true") && correct(Boolean, "false")
  {
    var q := s.properties[prop];
    var m := MisfitSet(s, prop, t, correct);
    s.(properties := s.properties[prop := Property(t, Filled(KeepOut(q.values, m), q.values, t), q.colours - m)])
  }

  /** setPropertyType on a tidy state succeeds, ends in the typed state, and
      undo gives the state back. */
  lemma SetPropertyTypeRuns(s: State, prop: Name, t: PropType, correct: (PropType, string) -> bool)
    requires Tidy(s) && prop in s.properties
    requires t == Boolean ==> correct(Boolean, "true") && correct(Boolean, "false")
    ensures Run(SetTypeItems(prop, GetPropertyType(s, prop), t, s.properties[prop].values, correct), s).Ok?
    ensures Run(SetTypeItems(prop, GetPropertyType(s, prop), t, s.properties[prop].values, correct), s).value.1
            == TypedState(s, prop, t, correct)
    ensures RunUndoable(SetTypeItems(prop, GetPropertyType(s, prop), t, s.properties[prop].values, correct), s)
  {
    var vs := s.properties[prop].values;
    var ws := Misfits(vs, t, correct);
    var m := MisfitSet(s, prop, t, correct);
    var s1 := RemoveMisfits(s, prop, t, correct);
    var s2 := SetTypeOne(s1, prop, t);
    FillRun(s2, prop, t, vs);
    var head := SetTypeSoloGen(prop, GetPropertyType(s, prop), t);
    var fill := BooleanFill(prop, t, vs);
    RunCons(head, fill, s1, s2);
    RunAppend(RemoveValues(prop, ws), [head] + fill, s);
    RunAppendUndoable(RemoveValues(prop, ws), [head] + fill, s);
    TypedStateIs(s, prop, t, correct, s2);
  }

  lemma RemoveMisfits(s: State, prop: Name, t: PropType, correct: (PropType, string) -> bool) returns (s1: State)
    requires Tidy(s) && prop in s.properties
    ensures Run(RemoveValues(prop, Misfits(s.properties[prop].values, t, correct)), s).Ok?
    ensures Run(RemoveValues(prop, Misfits(s.properties[prop].values, t, correct)), s).value.1 == s1
    ensures RunUndoable(RemoveValues(prop, Misfits(s.properties[prop].values, t, correct)), s)
    ensures s1 == WithoutValues(s, prop, MisfitSet(s, prop, t, correct)) && Tidy(s1)
    ensures GetPropertyType(s1, prop) == GetPropertyType(s, prop)
    ensures t == Boolean && correct(Boolean, "true") && correct(Boolean, "false") ==>
              && ("true" in s.properties[prop].values <==> "true" in s1.properties[prop].values)
              && ("false" in s.properties[prop].values <==> "false" in s1.properties[prop].values)
  {
    var ws := Misfits(s.properties[prop].values, t, correct);
    assert (set w | w in ws) == MisfitSet(s, prop, t, correct);
    RemoveValuesRun(prop, ws, s);
    s1 := WithoutValues(s, prop, MisfitSet(s, prop, t, correct));
  }

  lemma TypedStateIs(s: State, prop: Name, t: PropType, correct: (PropType, string) -> bool, s2: State)
    requires prop in s.properties
    requires t == Boolean ==> correct(Boolean, "true") && correct(Boolean, "false")
    requires s2 == WithoutValues(s, prop, MisfitSet(s, prop, t, correct)).(properties :=
                     WithoutValues(s, prop, MisfitSet(s, prop, t, correct)).properties[prop :=
                       WithoutValues(s, prop, MisfitSet(s, prop, t, correct)).properties[prop].(ptype := t)])
    requires t == Boolean ==> && ("true" in s.properties[prop].values <==> "true" in s2.properties[prop].values)
                              && ("false" in s.properties[prop].values <==> "false" in s2.properties[prop].values)
    ensures WithValues(s2, prop, Filled(s2.properties[prop].values, s.properties[prop].values, t))
            == TypedState(s, prop, t, correct)
  {
  }

  /** The typed state is tidy, has the new type, lists exactly the old
      values that format for it (and "true" and "false" for a boolean), and
      so only values that format. */
  lemma TypedStateFits(s: State, prop: Name, t: PropType, correct: (PropType, string) -> bool)
    requires Tidy(s) && prop in s.properties
    requires t == Boolean ==> correct(Boolean, "true") && correct(Boolean, "false")
    ensures Tidy(TypedState(s, prop, t, correct))
    ensures TypedState(s, prop, t, correct).properties[prop].ptype == t
    ensures forall v :: v in TypedState(s, prop, t, correct).properties[prop].values <==>
                          (v in s.properties[prop].values && correct(t, v))
                          || (t == Boolean && (v == "true" || v == "false"))
    ensures forall v | v in TypedState(s, prop, t, correct).properties[prop].values :: correct(t, v)
  {
    var s1 := TypedState(s, prop, t, correct);
    var q := s.properties[prop];
    var q1 := s1.properties[prop];
    assert TidyProperty(q1) by {
      assert Distinct(q.values);
      forall v | v in q1.colours ensures v in q1.values {
        assert v in q.values;
      }
    }
    forall p | p in s1.properties ensures TidyProperty(s1.properties[p]) {
      if p != prop { assert s1.properties[p] == s.properties[p]; }
    }
  }

  // ----------------------------------------------------------- renameValue

  /** The items of renameValue: remove the value, add the new one where it
      stood, and give it the old one's colour. */
  function RenameValueItems(prop: Name, value: string, newValue: string, i: int, c: Option<Colour>): seq<Gen> {
    [RemoveValueGen(prop, value), AddValueGen(prop, newValue, i), SetColorGen(prop, newValue, c)]
  }

  /** renameValue as written: it checks that the OLD value formats for the
      type. */
  function RenameValueAsWritten(s: State, prop: Name, t: PropType, value: string, newValue: string,
                                correct: (PropType, string) -> bool): (r: Result<seq<Gen>>)
    ensures r.Ok? <==> correct(t, value) && prop in s.properties && newValue !in s.properties[prop].values
  {
    if !correct(t, value) then Err(CannotFormat(value))
    else if prop !in s.properties then Err(ItemDoesNotExist(prop))
    else if newValue in s.properties[prop].values then Err(ItemAlreadyExists(newValue))
    else Ok(RenameValueItems(prop, value, newValue, IndexOf(s.properties[prop].values, value),
                             GetColor(s, prop, value)))
  }

  /** renameValue corrected: it checks that the NEW value formats. */
  function RenameValue(s: State, prop: Name, t: PropType, value: string, newValue: string,
                       correct: (PropType, string) -> bool): (r: Result<seq<Gen>>)
    ensures r.Ok? <==> correct(t, newValue) && prop in s.properties && newValue !in s.properties[prop].values
  {
    if !correct(t, newValue) then Err(CannotFormat(newValue))
    else if prop !in s.properties then Err(ItemDoesNotExist(prop))
    else if newValue in s.properties[prop].values then Err(ItemAlreadyExists(newValue))
    else Ok(RenameValueItems(prop, value, newValue, IndexOf(s.properties[prop].values, value),
                             GetColor(s, prop, value)))
  }

  /** The colours with the colour of `v`, if any, moved to `w`. */
  function MoveColour(cs: map<string, Colour>, v: string, w: string): map<string, Colour> {
    if v in cs then (cs - {v})[w := cs[v]] else cs - {v}
  }

  /** The state renameValue leaves: `value` replaced by `newValue` in place,
      with its colour. */
  function RenamedState(s: State, prop: Name, value: string, newValue: string): State
    requires prop in s.properties && value in s.properties[prop].values
  {
    var q := s.properties[prop];
    s.(properties := s.properties[prop := q.(values := q.values[IndexOf(q.values, value) := newValue],
                                            colours := MoveColour(q.colours, value, newValue))])
  }

  /** A colour set by its generator. */
  lemma SetColorOne(s: State, prop: Name, v: string, c: Option<Colour>) returns (s1: State)
    requires Tidy(s) && prop in s.properties && v in s.properties[prop].values
    ensures Build(SetColorGen(prop, v, c), s).Ok?
    ensures Execute(Build(SetColorGen(prop, v, c), s).value, s) == Ok(s1)
    ensures Undoable(Build(SetColorGen(prop, v, c), s).value, s)
    ensures s1 == EditorState.SetColor(s, prop, v, c).value && Tidy(s1)
  {
    var step := Generator.SetColor(s, prop, v, c);
    assert Build(SetColorGen(prop, v, c), s) == Ok(step);
    s1 := EditorState.SetColor(s, prop, v, c).value;
    ExecuteTidy(step, s);
  }

  /** The renaming run on a tidy state where the value is listed and the new
      one is not: it replaces the value in place, moves its colour, keeps
      the state tidy, and undo gives the state back. */
  lemma RenameValueRuns(s: State, prop: Name, value: string, newValue: string)
    requires Tidy(s) && prop in s.properties
    requires value in s.properties[prop].values && newValue !in s.properties[prop].values
    ensures Run(RenameValueItems(prop, value, newValue, IndexOf(s.properties[prop].values, value),
                                 GetColor(s, prop, value)), s).Ok?
    ensures Run(RenameValueItems(prop, value, newValue, IndexOf(s.properties[prop].values, value),
                                 GetColor(s, prop, value)), s).value.1
            == RenamedState(s, prop, value, newValue)
    ensures RunUndoable(RenameValueItems(prop, value, newValue, IndexOf(s.properties[prop].values, value),
                                         GetColor(s, prop, value)), s)
    ensures Tidy(RenamedState(s, prop, value, newValue))
  {
    var i := IndexOf(s.properties[prop].values, value);
    var c := GetColor(s, prop, value);
    var g0, g1, g2 := RemoveValueGen(prop, value), AddValueGen(prop, newValue, i), SetColorGen(prop, newValue, c);
    var s1, s2, s3 := RenameSteps(s, prop, value, newValue);
    assert RenameValueItems(prop, value, newValue, i, c) == [g0] + ([g1] + [g2]);
    RunOne(g2, s2);
    RunCons(g1, [g2], s1, s2);
    RunCons(g0, [g1] + [g2], s, s1);
  }

  /** The three steps of the renaming, one after the other. */
  lemma RenameSteps(s: State, prop: Name, value: string, newValue: string) returns (s1: State, s2: State, s3: State)
    requires Tidy(s) && prop in s.properties
    requires value in s.properties[prop].values && newValue !in s.properties[prop].values
    ensures Build(RemoveValueGen(prop, value), s).Ok?
    ensures Execute(Build(RemoveValueGen(prop, value), s).value, s) == Ok(s1)
    ensures Undoable(Build(RemoveValueGen(prop, value), s).value, s) && Tidy(s1)
    ensures Build(AddValueGen(prop, newValue, IndexOf(s.properties[prop].values, value)), s1).Ok?
    ensures Execute(Build(AddValueGen(prop, newValue, IndexOf(s.properties[prop].values, value)), s1).value, s1) == Ok(s2)
    ensures Undoable(Build(AddValueGen(prop, newValue, IndexOf(s.properties[prop].values, value)), s1).value, s1)
    ensures Tidy(s2)
    ensures Build(SetColorGen(prop, newValue, GetColor(s, prop, value)), s2).Ok?
    ensures Execute(Build(SetColorGen(prop, newValue, GetColor(s, prop, value)), s2).value, s2) == Ok(s3)
    ensures Undoable(Build(SetColorGen(prop, newValue, GetColor(s, prop, value)), s2).value, s2)
    ensures s3 == RenamedState(s, prop, value, newValue) && Tidy(s3)
  {
    var q := s.properties[prop];
    var i := IndexOf(q.values, value);
    s1 := RemoveOne(s, prop, value);
    ReplaceAt(q.values, i, newValue);
    s2 := AddOne(s1, prop, newValue, i);
    s3 := SetColorOne(s2, prop, newValue, GetColor(s, prop, value));
    assert TidyProperty(q);
    ReplacedState(s, prop, value, newValue, s1, s2);
    RenamedStateIs(s, prop, value, newValue, s2, s3);
  }

  /** Removing the value at `i` and inserting `w` there replaces it. */
  lemma ReplaceAt(xs: seq<string>, i: int, w: string)
    requires Distinct(xs) && 0 <= i < |xs|
    ensures |Without(xs, xs[i])| == |xs| - 1
    ensures Insert(Without(xs, xs[i]), i, w) == xs[i := w]
  {
    WithoutAt(xs, i);
    assert Insert(Without(xs, xs[i]), i, w) == xs[..i] + [w] + xs[i + 1..];
  }

  /** The removal then the insertion at the same place replace the value. */
  lemma ReplacedState(s: State, prop: Name, value: string, newValue: string, s1: State, s2: State)
    requires prop in s.properties && value in s.properties[prop].values
    requires |Without(s.properties[prop].values, value)| == |s.properties[prop].values| - 1
    requires Insert(Without(s.properties[prop].values, value), IndexOf(s.properties[prop].values, value), newValue)
             == s.properties[prop].values[IndexOf(s.properties[prop].values, value) := newValue]
    requires s1 == s.(properties := s.properties[prop := s.properties[prop].(
                        values := Without(s.properties[prop].values, value),
                        colours := s.properties[prop].colours - {value})])
    requires s2 == WithValues(s1, prop, Insert(s1.properties[prop].values, IndexOf(s.properties[prop].values, value), newValue))
    ensures s2 == s.(properties := s.properties[prop := s.properties[prop].(
                       values := s.properties[prop].values[IndexOf(s.properties[prop].values, value) := newValue],
                       colours := s.properties[prop].colours - {value})])
  {
  }

  lemma RenamedStateIs(s: State, prop: Name, value: string, newValue: string, s2: State, s3: State)
    requires prop in s.properties && value in s.properties[prop].values
    requires newValue !in s.properties[prop].colours
    requires s2 == s.(properties := s.properties[prop := s.properties[prop].(
                        values := s.properties[prop].values[IndexOf(s.properties[prop].values, value) := newValue],
                        colours := s.properties[prop].colours - {value})])
    requires EditorState.SetColor(s2, prop, newValue, GetColor(s, prop, value)) == Ok(s3)
    ensures s3 == RenamedState(s, prop, value, newValue)
  {
    var q := s.properties[prop];
    var q2 := s2.properties[prop];
    var cs := MoveColour(q.colours, value, newValue);
    if value in q.colours {
      assert q2.colours[newValue := q.colours[value]] == cs;
    } else {
      assert q2.colours - {newValue} == cs;
    }
    var vs := q.values[IndexOf(q.values, value) := newValue];
    assert s3 == s2.(properties := s2.properties[prop := q2.(colours := cs)]);
    assert q2.(colours := cs) == q.(values := vs, colours := cs);
    assert s2.properties[prop := q2.(colours := cs)] == s.properties[prop := q.(values := vs, colours := cs)];
  }

  /** renameValue of a value the property does not list fails when run, at
      the removal. */
  lemma RenameMissingValueFails(s: State, prop: Name, value: string, newValue: string, i: int, c: Option<Colour>)
    requires prop in s.properties && value !in s.properties[prop].values
    ensures Run(RenameValueItems(prop, value, newValue, i, c), s) == Err(ItemDoesNotExist(value))
  {
    assert Build(RemoveValueGen(prop, value), s) == Ok(Generator.RemoveValue(s, prop, value));
  }

  /** As written, renameValue lets through a new value that does not format
      for the type, as long as the old one does; the run then lists it. */
  lemma RenameValueAdmitsMisfit(s: State, prop: Name, t: PropType, value: string, newValue: string,
                                correct: (PropType, string) -> bool)
    requires Tidy(s) && prop in s.properties
    requires value in s.properties[prop].values && newValue !in s.properties[prop].values
    requires correct(t, value) && !correct(t, newValue)
    ensures RenameValueAsWritten(s, prop, t, value, newValue, correct).Ok?
    ensures Run(RenameValueAsWritten(s, prop, t, value, newValue, correct).value, s).Ok?
    ensures Run(RenameValueAsWritten(s, prop, t, value, newValue, correct).value, s).value.1
            == RenamedState(s, prop, value, newValue)
    ensures newValue in RenamedState(s, prop, value, newValue).properties[prop].values
  {
    RenameValueRuns(s, prop, value, newValue);
    var q := s.properties[prop];
    assert q.values[IndexOf(q.values, value) := newValue][IndexOf(q.values, value)] == newValue;
  }

  /** Corrected renameValue keeps a property whose values all format for
      the type in that condition. */
  lemma RenameValueKeepsFit(s: State, prop: Name, t: PropType, value: string, newValue: string,
                            correct: (PropType, string) -> bool)
    requires Tidy(s) && RenameValue(s, prop, t, value, newValue, correct).Ok?
    requires value in s.properties[prop].values
    requires forall v | v in s.properties[prop].values :: correct(t, v)
    ensures Run(RenameValue(s, prop, t, value, newValue, correct).value, s).Ok?
    ensures Run(RenameValue(s, prop, t, value, newValue, correct).value, s).value.1
            == RenamedState(s, prop, value, newValue)
    ensures forall v | v in RenamedState(s, prop, value, newValue).properties[prop].values :: correct(t, v)
  {
    RenameValueRuns(s, prop, value, newValue);
    var q := s.properties[prop];
    var vs := q.values[IndexOf(q.values, value) := newValue];
    forall v | v in vs ensures correct(t, v) {
      var k :| 0 <= k < |vs| && vs[k] == v;
      if k != IndexOf(q.values, value) {
        assert v == q.values[k];
      }
    }
  }
}
