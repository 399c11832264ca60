/** Reviews and comments of the changed pull requests: collectAttempt, collectReviews, collectComments and the merge. */
module NestedCollection {
  import opened Basics
  import opened Text
  import opened Pagination

  const REVIEW_AND_COMMENT_NODES: nat := 2_000

  // ----- the provider -----

  datatype Connection = Connection(nodes: seq<Node>, info: PageInfo)

  /**
   A page of reviews or comments. `parent` and `pullRequest` are the ids it claims to belong to; a missing part is None.
   */
  datatype NestedResponse =
    | Failed
    | Nested(parent: Option<Id>, pullRequest: Option<Id>, updatedAt: Option<Time>, connection: Option<Connection>,
             heartbeat: bool)

  /**
   Any answers at all: to request number n for a pull request's reviews, and for a review's comments while in that pull
   request.
   */
  datatype Provider = Provider(reviews: (Id, nat) -> NestedResponse, comments: (Id, Id, nat) -> NestedResponse)

  ghost predicate CursorsWithin(p: Provider, cursors: set<Text>) {
    && (forall pr, n :: HasContinuationIn(p.reviews(pr, n), cursors))
    && (forall pr, review, n :: HasContinuationIn(p.comments(pr, review, n), cursors))
  }

  predicate HasContinuationIn(r: NestedResponse, cursors: set<Text>) {
    r.Nested? && r.connection.Some? ==> Continuation(r.connection.value.info) in cursors
  }

  /** The checks on a page before its nodes are read. None: the pull request has moved past the cutoff. */
  function Accept(r: NestedResponse, parent: Id, pullRequest: Option<Id>, cutoff: Time): (a: Result<Option<Connection>>)
    ensures a.Ok? && a.value.Some? ==> r.Nested? && r.connection == a.value
  {
    match r
    case Failed => Err(Interrupted)
    case Nested(p, owner, updatedAt, connection, heartbeat) =>
      if p != Some(parent) then Err(BadPagination)
      else if pullRequest.Some? && owner != pullRequest then Err(BadPagination)
      else if updatedAt.None? then Err(InvalidDate)
      else if connection.None? then Err(BadPagination)
      else if !heartbeat then Err(Interrupted)
      else if updatedAt.value > cutoff then Ok(None)
      else Ok(connection)
  }

  // ----- what is known of nodes -----

  /** A nodes Map and its owners Map, in insertion order. */
  datatype Owned = Owned(order: seq<Id>, nodes: map<Id, Node>, owners: map<Id, Id>)

  const NONE_OWNED := Owned([], map[], map[])

  datatype State = State(reviews: Owned, comments: Owned, count: nat)

  const EMPTY_STATE := State(NONE_OWNED, NONE_OWNED, 0)

  /** observeOwnedUniqueNode: whether the node is new. */
  function Observe(node: Node, owner: Id, known: Owned): (r: Result<bool>)
    ensures r.Ok? ==> node.id.Some?
    ensures r == Ok(true) ==> node.id.value !in known.nodes
  {
    if node.id.Some? && node.id.value in known.owners && known.owners[node.id.value] != owner then Err(BadPagination)
    else ObserveUnique(node, known.nodes)
  }

  function Remember(known: Owned, id: Id, node: Node, owner: Id): Owned {
    Owned(known.order + [id], known.nodes[id := node], known.owners[id := owner])
  }

  // ----- what the loops compute -----

  datatype Step<T> = Done(value: T, state: State) | Discarded | Fail(error: CollectionError)

  datatype ReviewTree = ReviewTree(review: Node, comments: seq<Node>)

  datatype PullRequestTree = PullRequestTree(pullRequest: Node, reviews: seq<ReviewTree>)

  /** The loop over one page of comments. */
  function TakeComments(nodes: seq<Node>, review: Id, state: State, taken: seq<Node>): Step<seq<Node>>
    decreases |nodes|
  {
    if nodes == [] then Done(taken, state)
    else
      match Observe(nodes[0], review, state.comments)
      case Err(e) => Fail(e)
      case Ok(first) =>
        if !first then TakeComments(nodes[1..], review, state, taken)
        else if state.count + 1 > REVIEW_AND_COMMENT_NODES then Fail(LimitExceeded)
        else if nodes[0].date.None? then Fail(InvalidDate)
        else
          TakeComments(nodes[1..], review,
            state.(comments := Remember(state.comments, nodes[0].id.value, nodes[0], review), count := state.count + 1),
            taken + [nodes[0]])
  }

  /** collectComments from request number i on. */
  ghost function CommentPages(p: Provider, pr: Id, review: Id, cutoff: Time, cursors: set<Text>, i: nat,
                              cursor: Option<Text>, visited: set<Text>, state: State, taken: seq<Node>): Step<seq<Node>>
    requires CursorsWithin(p, cursors) && visited <= cursors
    decreases cursors - visited
  {
    assert HasContinuationIn(p.comments(pr, review, i), cursors);
    match Accept(p.comments(pr, review, i), review, Some(pr), cutoff)
    case Err(e) => Fail(e)
    case Ok(None) => Discarded
    case Ok(Some(page)) =>
      match TakeComments(page.nodes, review, state, taken)
      case Fail(e) => Fail(e)
      case Discarded => Discarded
      case Done(taken', state') =>
        if !page.info.hasNextPage then Done(taken', state')
        else
          match NextCursor(page.info, cursor, |page.nodes|, visited)
          case Err(e) => Fail(e)
          case Ok(next) => CommentPages(p, pr, review, cutoff, cursors, i + 1, Some(next), visited + {next}, state',
                                        taken')
  }

  /** collectComments. */
  ghost function Comments(p: Provider, pr: Id, review: Id, cutoff: Time, cursors: set<Text>,
                          state: State): Step<seq<Node>>
    requires CursorsWithin(p, cursors)
  {
    CommentPages(p, pr, review, cutoff, cursors, 0, None, {}, state, [])
  }

  /** The loop over one page of reviews. */
  ghost function TakeReviews(p: Provider, nodes: seq<Node>, pr: Id, cutoff: Time, cursors: set<Text>, state: State,
                             taken: seq<ReviewTree>): Step<seq<ReviewTree>>
    requires CursorsWithin(p, cursors)
    decreases |nodes|
  {
    if nodes == [] then Done(taken, state)
    else
      match Observe(nodes[0], pr, state.reviews)
      case Err(e) => Fail(e)
      case Ok(first) =>
        if !first then TakeReviews(p, nodes[1..], pr, cutoff, cursors, state, taken)
        else if state.count + 1 > REVIEW_AND_COMMENT_NODES then Fail(LimitExceeded)
        else
          var id := nodes[0].id.value;
          var counted := state.(reviews := Remember(state.reviews, id, nodes[0], pr), count := state.count + 1);
          match Comments(p, pr, id, cutoff, cursors, counted)
          case Fail(e) => Fail(e)
          case Discarded => Discarded
          case Done(comments, state') =>
            TakeReviews(p, nodes[1..], pr, cutoff, cursors, state', taken + [ReviewTree(nodes[0], comments)])
  }

  /** collectReviews from request number i on. */
  ghost function ReviewPages(p: Provider, pr: Id, cutoff: Time, cursors: set<Text>, i: nat, cursor: Option<Text>,
                             visited: set<Text>, state: State, taken: seq<ReviewTree>): Step<seq<ReviewTree>>
    requires CursorsWithin(p, cursors) && visited <= cursors
    decreases cursors - visited
  {
    assert HasContinuationIn(p.reviews(pr, i), cursors);
    match Accept(p.reviews(pr, i), pr, None, cutoff)
    case Err(e) => Fail(e)
    case Ok(None) => Discarded
    case Ok(Some(page)) =>
      match TakeReviews(p, page.nodes, pr, cutoff, cursors, state, taken)
      case Fail(e) => Fail(e)
      case Discarded => Discarded
      case Done(taken', state') =>
        if !page.info.hasNextPage then Done(taken', state')
        else
          match NextCursor(page.info, cursor, |page.nodes|, visited)
          case Err(e) => Fail(e)
          case Ok(next) => ReviewPages(p, pr, cutoff, cursors, i + 1, Some(next), visited + {next}, state', taken')
  }

  /** collectReviews with a state of its own. */
  ghost function Reviews(p: Provider, pr: Id, cutoff: Time, cursors: set<Text>): Step<seq<ReviewTree>>
    requires CursorsWithin(p, cursors)
  {
    ReviewPages(p, pr, cutoff, cursors, 0, None, {}, EMPTY_STATE, [])
  }

  datatype Merged = Merged(known: Owned, count: nat)

  /** mergeOwnedNodes, from the given rest of the source's nodes on. */
  function MergeOwned(order: seq<Id>, source: Owned, target: Owned, count: nat): Result<Merged>
    decreases |order|
  {
    if order == [] then Ok(Merged(target, count))
    else
      var id := order[0];
      if id !in source.nodes || id !in source.owners then Err(BadPagination)
      else if id in target.owners && target.owners[id] != source.owners[id] then Err(BadPagination)
      else if id in target.nodes then
        if target.nodes[id] != source.nodes[id] then Err(BadPagination)
          else MergeOwned(order[1..], source, target, count)
      else if count + 1 > REVIEW_AND_COMMENT_NODES then Err(LimitExceeded)
      else MergeOwned(order[1..], source, Remember(target, id, source.nodes[id], source.owners[id]), count + 1)
  }

  /** mergeCollectionState. */
  function Merge(target: State, source: State): Result<State> {
    match MergeOwned(source.reviews.order, source.reviews, target.reviews, target.count)
    case Err(e) => Err(e)
    case Ok(reviews) =>
      match MergeOwned(source.comments.order, source.comments, target.comments, reviews.count)
      case Err(e) => Err(e)
      case Ok(comments) => Ok(State(reviews.known, comments.known, comments.count))
  }

  datatype Collected = Collected(trees: seq<PullRequestTree>, state: State)

  predicate HaveIds(prs: seq<Node>) {
    forall i | 0 <= i < |prs| :: prs[i].id.Some?
  }

  /** The loop of collectAttempt over the pull requests. */
  ghost function Collect(p: Provider, prs: seq<Node>, cutoff: Time, cursors: set<Text>, state: State,
                         taken: seq<PullRequestTree>): Result<Collected>
    requires CursorsWithin(p, cursors) && HaveIds(prs)
    decreases |prs|
  {
    if prs == [] then Ok(Collected(taken, state))
    else
      match Reviews(p, prs[0].id.value, cutoff, cursors)
      case Discarded => Collect(p, prs[1..], cutoff, cursors, state, taken)
      case Fail(e) => Err(e)
      case Done(reviews, provisional) =>
        match Merge(state, provisional)
        case Err(e) => Err(e)
        case Ok(state') => Collect(p, prs[1..], cutoff, cursors, state', taken + [PullRequestTree(prs[0], reviews)])
  }

  // ----- the loops themselves -----

  class CollectionState {
    var reviews: Owned
    var comments: Owned
    var count: nat

    function Value(): State
      reads this
    {
      State(reviews, comments, count)
    }

    constructor ()
      ensures Value() == EMPTY_STATE
    {
      reviews, comments, count := NONE_OWNED, NONE_OWNED, 0;
    }

    /** mergeOwnedNodes for the reviews. */
    method MergeReviews(source: CollectionState) returns (failed: Option<CollectionError>)
      requires source != this
      modifies this`reviews, this`count
      ensures var merged := MergeOwned(source.reviews.order, source.reviews, old(reviews), old(count));
              && failed == (if merged.Err? then Some(merged.error) else None)
              && (merged.Ok? ==> reviews == merged.value.known && count == merged.value.count)
    {
      var order := source.reviews.order;
      var i := 0;
      while i < |order|
        invariant 0 <= i <= |order|
        invariant MergeOwned(order, source.reviews, old(reviews), old(count)) ==
                    MergeOwned(order[i..], source.reviews, reviews, count)
      {
        var id := order[i];
        assert order[i..][0] == id && order[i..][1..] == order[i + 1..];
        if id !in source.reviews.nodes || id !in source.reviews.owners {
          return Some(BadPagination);
        }
        var owner := source.reviews.owners[id];
        if id in reviews.owners && reviews.owners[id] != owner {
          return Some(BadPagination);
        }
        if id in reviews.nodes {
          if reviews.nodes[id] != source.reviews.nodes[id] {
            return Some(BadPagination);
          }
        } else {
          if count + 1 > REVIEW_AND_COMMENT_NODES {
            return Some(LimitExceeded);
          }
          reviews := Remember(reviews, id, source.reviews.nodes[id], owner);
          count := count + 1;
        }
        i := i + 1;
      }
      return None;
    }

    /** mergeOwnedNodes for the comments. */
    method MergeComments(source: CollectionState) returns (failed: Option<CollectionError>)
      requires source != this
      modifies this`comments, this`count
      ensures var merged := MergeOwned(source.comments.order, source.comments, old(comments), old(count));
              && failed == (if merged.Err? then Some(merged.error) else None)
              && (merged.Ok? ==> comments == merged.value.known && count == merged.value.count)
    {
      var order := source.comments.order;
      var i := 0;
      while i < |order|
        invariant 0 <= i <= |order|
        invariant MergeOwned(order, source.comments, old(comments), old(count)) ==
                    MergeOwned(order[i..], source.comments, comments, count)
      {
        var id := order[i];
        assert order[i..][0] == id && order[i..][1..] == order[i + 1..];
        if id !in source.comments.nodes || id !in source.comments.owners {
          return Some(BadPagination);
        }
        var owner := source.comments.owners[id];
        if id in comments.owners && comments.owners[id] != owner {
          return Some(BadPagination);
        }
        if id in comments.nodes {
          if comments.nodes[id] != source.comments.nodes[id] {
            return Some(BadPagination);
          }
        } else {
          if count + 1 > REVIEW_AND_COMMENT_NODES {
            return Some(LimitExceeded);
          }
          comments := Remember(comments, id, source.comments.nodes[id], owner);
          count := count + 1;
        }
        i := i + 1;
      }
      return None;
    }
  }

  /** How a nested loop ends: its result, null, or an exception. */
  datatype Outcome<T> = Complete(value: T) | MovedOn | Threw(error: CollectionError)

  /** The loop's outcome and the state it leaves agree with the computation. */
  ghost predicate Agrees<T>(r: Outcome<T>, after: State, step: Step<T>) {
    match step
    case Done(value, state) => r == Complete(value) && after == state
    case Discarded => r.MovedOn?
    case Fail(e) => r == Threw(e)
  }

  method ScanComments(nodes: seq<Node>, review: Id, state: CollectionState, taken: seq<Node>)
    returns (r: Outcome<seq<Node>>)
    modifies state
    ensures Agrees(r, state.Value(), TakeComments(nodes, review, old(state.Value()), taken))
  {
    var comments := taken;
    var i := 0;
    while i < |nodes|
      invariant 0 <= i <= |nodes|
      invariant TakeComments(nodes, review, old(state.Value()), taken) ==
                  TakeComments(nodes[i..], review, state.Value(), comments)
    {
      var node := nodes[i];
      assert nodes[i..][0] == node && nodes[i..][1..] == nodes[i + 1..];
      var first := Observe(node, review, state.comments);
      if first.Err? {
        return Threw(first.error);
      }
      if first.value {
        if state.count + 1 > REVIEW_AND_COMMENT_NODES {
          return Threw(LimitExceeded);
        }
        if node.date.None? {
          return Threw(InvalidDate);
        }
        state.comments := Remember(state.comments, node.id.value, node, review);
        state.count := state.count + 1;
        comments := comments + [node];
      }
      i := i + 1;
    }
    return Complete(comments);
  }

  /** collectComments: at most one request per possible cursor and one more. */
  method CollectComments(p: Provider, pr: Id, review: Id, cutoff: Time, state: CollectionState,
                         ghost cursors: set<Text>)
    returns (r: Outcome<seq<Node>>, requests: nat)
    requires CursorsWithin(p, cursors)
    modifies state
    ensures Agrees(r, state.Value(), Comments(p, pr, review, cutoff, cursors, old(state.Value())))
    ensures 1 <= requests <= |cursors| + 1
  {
    hide TakeComments, Accept, CursorsWithin, NextCursor, Continuation, HasContinuationIn;
    var comments: seq<Node> := [];
    var visited: set<Text> := {};
    var cursor: Option<Text> := None;
    requests := 0;
    while true
      invariant requests == |visited| && visited <= cursors
      invariant Comments(p, pr, review, cutoff, cursors, old(state.Value())) ==
                CommentPages(p, pr, review, cutoff, cursors, requests, cursor, visited, state.Value(), comments)
      decreases cursors - visited
    {
      SubsetSize(visited, cursors);
      CommentContinuation(p, pr, review, requests, cursors);
      var accepted := Accept(p.comments(pr, review, requests), review, Some(pr), cutoff);
      requests := requests + 1;
      if accepted.Err? {
        return Threw(accepted.error), requests;
      }
      if accepted.value.None? {
        return MovedOn, requests;
      }
      var page := accepted.value.value;
      var scanned := ScanComments(page.nodes, review, state, comments);
      if !scanned.Complete? || !page.info.hasNextPage {
        return scanned, requests;
      }
      var next := NextCursor(page.info, cursor, |page.nodes|, visited);
      if next.Err? {
        return Threw(next.error), requests;
      }
      cursor, visited, comments := Some(next.value), visited + {next.value}, scanned.value;
    }
  }

  lemma CommentContinuation(p: Provider, pr: Id, review: Id, n: nat, cursors: set<Text>)
    requires CursorsWithin(p, cursors)
    ensures var r := p.comments(pr, review, n); r.Nested? && r.connection.Some? ==>
              Continuation(r.connection.value.info) in cursors
    ensures forall parent, owner, cutoff ::
              var a := Accept(p.comments(pr, review, n), parent, owner, cutoff);
              a.Ok? && a.value.Some? ==> Continuation(a.value.value.info) in cursors
  {
    assert HasContinuationIn(p.comments(pr, review, n), cursors);
  }

  lemma ReviewContinuation(p: Provider, pr: Id, n: nat, cursors: set<Text>)
    requires CursorsWithin(p, cursors)
    ensures forall parent, owner, cutoff ::
              var a := Accept(p.reviews(pr, n), parent, owner, cutoff);
              a.Ok? && a.value.Some? ==> Continuation(a.value.value.info) in cursors
  {
    assert HasContinuationIn(p.reviews(pr, n), cursors);
  }

  method ScanReviews(p: Provider, nodes: seq<Node>, pr: Id, cutoff: Time, state: CollectionState,
                     taken: seq<ReviewTree>, ghost cursors: set<Text>)
    returns (r: Outcome<seq<ReviewTree>>)
    requires CursorsWithin(p, cursors)
    modifies state
    ensures Agrees(r, state.Value(), TakeReviews(p, nodes, pr, cutoff, cursors, old(state.Value()), taken))
  {
    hide Comments, CursorsWithin;
    var reviews := taken;
    var i := 0;
    while i < |nodes|
      invariant 0 <= i <= |nodes|
      invariant TakeReviews(p, nodes, pr, cutoff, cursors, old(state.Value()), taken) ==
                TakeReviews(p, nodes[i..], pr, cutoff, cursors, state.Value(), reviews)
    {
      var node := nodes[i];
      assert nodes[i..][0] == node && nodes[i..][1..] == nodes[i + 1..];
      var first := Observe(node, pr, state.reviews);
      if first.Err? {
        return Threw(first.error);
      }
      if first.value {
        if state.count + 1 > REVIEW_AND_COMMENT_NODES {
          return Threw(LimitExceeded);
        }
        state.reviews := Remember(state.reviews, node.id.value, node, pr);
        state.count := state.count + 1;
        var comments, requests := CollectComments(p, pr, node.id.value, cutoff, state, cursors);
        if comments.Threw? {
          return Threw(comments.error);
        }
        if comments.MovedOn? {
          return MovedOn;
        }
        reviews := reviews + [ReviewTree(node, comments.value)];
      }
      i := i + 1;
    }
    return Complete(reviews);
  }

  /** collectReviews: at most one request of its own per possible cursor and one more. */
  method CollectReviews(p: Provider, pr: Id, cutoff: Time, state: CollectionState, ghost cursors: set<Text>)
    returns (r: Outcome<seq<ReviewTree>>, requests: nat)
    requires CursorsWithin(p, cursors) && state.Value() == EMPTY_STATE
    modifies state
    ensures Agrees(r, state.Value(), Reviews(p, pr, cutoff, cursors))
    ensures 1 <= requests <= |cursors| + 1
  {
    hide TakeReviews, Accept, CursorsWithin, NextCursor, Continuation, HasContinuationIn;
    var reviews: seq<ReviewTree> := [];
    var visited: set<Text> := {};
    var cursor: Option<Text> := None;
    requests := 0;
    while true
      invariant requests == |visited| && visited <= cursors
      invariant Reviews(p, pr, cutoff, cursors) ==
                ReviewPages(p, pr, cutoff, cursors, requests, cursor, visited, state.Value(), reviews)
      decreases cursors - visited
    {
      SubsetSize(visited, cursors);
      ReviewContinuation(p, pr, requests, cursors);
      var accepted := Accept(p.reviews(pr, requests), pr, None, cutoff);
      requests := requests + 1;
      if accepted.Err? {
        return Threw(accepted.error), requests;
      }
      if accepted.value.None? {
        return MovedOn, requests;
      }
      var page := accepted.value.value;
      var scanned := ScanReviews(p, page.nodes, pr, cutoff, state, reviews, cursors);
      if !scanned.Complete? || !page.info.hasNextPage {
        return scanned, requests;
      }
      var next := NextCursor(page.info, cursor, |page.nodes|, visited);
      if next.Err? {
        return Threw(next.error), requests;
      }
      cursor, visited, reviews := Some(next.value), visited + {next.value}, scanned.value;
    }
  }

  /** collectAttempt after the pull requests are known: a provisional state per pull request, merged or thrown away. */
  method CollectNested(p: Provider, prs: seq<Node>, cutoff: Time, ghost cursors: set<Text>)
    returns (r: Result<seq<PullRequestTree>>, state: CollectionState)
    requires CursorsWithin(p, cursors) && HaveIds(prs)
    ensures fresh(state)
    ensures var collected := Collect(p, prs, cutoff, cursors, EMPTY_STATE, []);
            && r == (if collected.Ok? then Ok(collected.value.trees) else Err(collected.error))
            && (collected.Ok? ==> state.Value() == collected.value.state)
  {
    hide Reviews, CursorsWithin, MergeOwned;
    state := new CollectionState();
    var pullRequests: seq<PullRequestTree> := [];
    var i := 0;
    while i < |prs|
      invariant 0 <= i <= |prs| && fresh(state) && HaveIds(prs[i..])
      invariant Collect(p, prs, cutoff, cursors, EMPTY_STATE, []) ==
                  Collect(p, prs[i..], cutoff, cursors, state.Value(), pullRequests)
    {
      var pr := prs[i];
      assert prs[i..][0] == pr && prs[i..][1..] == prs[i + 1..];
      var provisional := new CollectionState();
      var reviews, requests := CollectReviews(p, pr.id.value, cutoff, provisional, cursors);
      if reviews.Threw? {
        return Err(reviews.error), state;
      }
      if reviews.Complete? {
        var failed := state.MergeReviews(provisional);
        if failed.Some? {
          return Err(failed.value), state;
        }
        failed := state.MergeComments(provisional);
        if failed.Some? {
          return Err(failed.value), state;
        }
        pullRequests := pullRequests + [PullRequestTree(pr, reviews.value)];
      }
      i := i + 1;
    }
    return Ok(pullRequests), state;
  }
}
