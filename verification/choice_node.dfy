/** ChoiceNode: a node at a branch point of the narrative, where a decision
    in the game picks the route taken next.  A node knows the routes that
    enter it and, in order, the routes that leave it. */
module ChoiceNodes {
  import opened Common
  import opened NodeCopy

  datatype ChoiceNode = ChoiceNode(id: NodeId, props: Option<Bag>, entering: set<Route>, exiting: seq<Route>)

  /** The actions a GameChoice can ask of the game; a choice node asks for a
      major decision. */
  datatype Action = MajorDecision

  /** What the game is told on reaching a node: whether the decision is a
      major one, the node it is taken at, the action, and the routes to
      choose from. */
  datatype GameChoice = GameChoice(major: bool, source: NodeId, action: Action, options: seq<Route>)

  /** create: a new choice node with the given id, no bag and no routes, as
      the Node constructor leaves it. */
  function Create(id: NodeId): (r: ChoiceNode)
    ensures r.id == id && r.props.None?
    ensures r.entering == {} && r.exiting == []
  {
    ChoiceNode(id, None, {}, [])
  }

  /** startRoute: the bag of the route taken, as it is. */
  function StartRoute(n: ChoiceNode, option: Route): (r: Option<Bag>)
    ensures r == option.props
  {
    option.props
  }

  /** onEntry: the node is entered along `completed`.  A route that does not
      enter the node is refused with its id; otherwise the game is asked for
      a major decision among the routes leaving the node. */
  function OnEntry(n: ChoiceNode, completed: Route): (r: Result<GameChoice>)
    ensures r.Err? <==> completed !in n.entering
    ensures r.Err? ==> r.error == GraphElementNotFound(completed.id)
    ensures r.Ok? ==> && r.value.major && r.value.source == n.id
                      && r.value.action == MajorDecision && r.value.options == n.exiting
  {
    if completed !in n.entering then Err(GraphElementNotFound(completed.id))
    else Ok(GameChoice(true, n.id, MajorDecision, n.exiting))
  }

  /** The node's routes are in place: those entering end at it and those
      leaving start at it. */
  predicate Attached(n: ChoiceNode) {
    && (forall e | e in n.entering :: e.to == n.id)
    && (forall k | 0 <= k < |n.exiting| :: n.exiting[k].from == n.id)
  }

  /** On an attached node, a route is admitted exactly when it enters the
      node, and every option offered leaves the node it was reached along. */
  lemma OnEntryOffersExits(n: ChoiceNode, completed: Route)
    requires Attached(n)
    ensures OnEntry(n, completed).Ok? ==> completed.to == n.id
    ensures OnEntry(n, completed).Ok? ==>
              forall k | 0 <= k < |OnEntry(n, completed).value.options| ::
                OnEntry(n, completed).value.options[k].from == completed.to
  {
  }

  /** A node made by create admits no route: its first entry is refused
      until a route is attached to it. */
  lemma CreatedAdmitsNothing(id: NodeId, completed: Route)
    ensures OnEntry(Create(id), completed) == Err(GraphElementNotFound(completed.id))
  {
  }
}
