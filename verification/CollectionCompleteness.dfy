/**
 Nothing is missing from what nested collection returns: reviews and comments are all those of the pages listed, once
 each.
 */
module CollectionCompleteness {
  import opened Basics
  import opened Text
  import opened Pagination
  import opened NestedCollection
  import opened CollectionProofs
  import Listing = PullRequestCollection

  // ----- what a listing contains -----

  /** Each id at its first occurrence, in order. */
  function Firsts(nodes: seq<Node>): seq<Node> {
    if nodes == [] then []
    else
      var before := nodes[..|nodes| - 1];
      var last := nodes[|nodes| - 1];
      Firsts(before) + (if Listing.IsKnown(before, last.id) then [] else [last])
  }

  lemma FirstsSnoc(nodes: seq<Node>, node: Node)
    ensures Firsts(nodes + [node]) == Firsts(nodes) + (if Listing.IsKnown(nodes, node.id) then [] else [node])
  {
    hide Listing.IsKnown;
    assert (nodes + [node])[..|nodes|] == nodes;
  }

  /** Exactly the nodes of which no earlier one has the id. */
  lemma {:induction false} FirstsMean(nodes: seq<Node>, x: Node)
    ensures x in Firsts(nodes) <==> exists i :: 0 <= i < |nodes| && nodes[i] == x && !Listing.IsKnown(nodes[..i], x.id)
  {
    hide Listing.IsKnown;
    if nodes != [] {
      var n := |nodes| - 1;
      var before := nodes[..n];
      FirstsMean(before, x);
      assert forall i | 0 <= i < n :: before[..i] == nodes[..i] && before[i] == nodes[i];
      if i :| 0 <= i < n && before[i] == x && !Listing.IsKnown(before[..i], x.id) {
        assert nodes[i] == x && !Listing.IsKnown(nodes[..i], x.id);
      }
      if i :| 0 <= i < |nodes| && nodes[i] == x && !Listing.IsKnown(nodes[..i], x.id) {
        assert i < n ==> before[i] == x && !Listing.IsKnown(before[..i], x.id);
      }
    }
  }

  lemma KnownSnoc(nodes: seq<Node>, node: Node, id: Option<Id>)
    ensures Listing.IsKnown(nodes + [node], id) <==> Listing.IsKnown(nodes, id) || node.id == id
  {
    var all := nodes + [node];
    assert all[|nodes|] == node && forall i | 0 <= i < |nodes| :: all[i] == nodes[i];
  }

  predicate IsPage(r: NestedResponse) {
    r.Nested? && r.connection.Some?
  }

  /** The nodes of the first `count` pages. */
  function PagesOf(responses: nat -> NestedResponse, count: nat): seq<Node> {
    if count == 0 then []
    else
      var last := responses(count - 1);
      PagesOf(responses, count - 1) + (if IsPage(last) then last.connection.value.nodes else [])
  }

  predicate HasNext(r: NestedResponse) {
    IsPage(r) && r.connection.value.info.hasNextPage
  }

  function ContinuationOf(r: NestedResponse): Text
    requires IsPage(r)
  {
    Continuation(r.connection.value.info)
  }

  /** The page has nodes and a next page, under a cursor that no earlier page has named. */
  predicate Continues(responses: nat -> NestedResponse, n: nat) {
    && HasNext(responses(n)) && responses(n).connection.value.nodes != [] && ContinuationOf(responses(n)) != []
    && forall m | 0 <= m < n && IsPage(responses(m)) :: ContinuationOf(responses(m)) != ContinuationOf(responses(n))
  }

  /** The first page that has no next one is page number `count`. */
  predicate EndsAfter(responses: nat -> NestedResponse, count: nat) {
    && count > 0 && IsPage(responses(count - 1)) && !HasNext(responses(count - 1))
    && forall n | 0 <= n < count - 1 :: Continues(responses, n)
  }

  /** What the pages of a listing belong to: reviews to a pull request, comments to a review and a pull request. */
  datatype Place = Place(parent: Id, pullRequest: Option<Id>)

  /** The page belongs there, and says when the pull request was last updated; that is not after the cutoff. */
  predicate IsOnTime(r: NestedResponse, place: Place, cutoff: Time) {
    && r.Nested? && r.heartbeat && r.connection.Some? && r.parent == Some(place.parent)
    && (place.pullRequest.Some? ==> r.pullRequest == place.pullRequest)
    && r.updatedAt.Some? && r.updatedAt.value <= cutoff
  }

  /** The page says that its pull request was updated after the cutoff. */
  predicate IsLate(r: NestedResponse, cutoff: Time) {
    r.Nested? && r.updatedAt.Some? && cutoff < r.updatedAt.value
  }

  predicate OnTimeUpTo(responses: nat -> NestedResponse, place: Place, cutoff: Time, count: nat) {
    forall n | 0 <= n < count :: IsOnTime(responses(n), place, cutoff)
  }

  /** Every node has an id, and nodes under one id are equal. */
  predicate IsConsistent(nodes: seq<Node>) {
    && (forall i | 0 <= i < |nodes| :: nodes[i].id.Some?)
    && (forall i, k | 0 <= i < |nodes| && 0 <= k < |nodes| && nodes[i].id == nodes[k].id :: nodes[i] == nodes[k])
  }

  /**
   `nodes` is all that the provider lists, up to its last page, each id once; every page read belongs there and was on
   time, and no two nodes contradict each other.
   */
  ghost predicate IsWholeListing(responses: nat -> NestedResponse, place: Place, cutoff: Time, nodes: seq<Node>) {
    exists count ::
      && EndsAfter(responses, count) && OnTimeUpTo(responses, place, cutoff, count)
      && nodes == Firsts(PagesOf(responses, count)) && IsConsistent(PagesOf(responses, count))
  }

  function CommentPlace(pr: Id, review: Id): Place {
    Place(review, Some(pr))
  }

  function ReviewPlace(pr: Id): Place {
    Place(pr, None)
  }

  predicate AreDated(nodes: seq<Node>) {
    forall node | node in nodes :: node.date.Some?
  }

  /** All comments that the provider lists for the review, each of them dated. */
  ghost predicate AreWhole(p: Provider, pr: Id, review: Id, cutoff: Time, comments: seq<Node>) {
    IsWholeListing(CommentsOf(p, pr, review), CommentPlace(pr, review), cutoff, comments) && AreDated(comments)
  }

  /** The cursors of the pages read are among those visited. */
  predicate AreVisited(responses: nat -> NestedResponse, i: nat, visited: set<Text>) {
    forall n | 0 <= n < i && IsPage(responses(n)) :: ContinuationOf(responses(n)) in visited
  }

  /** A cursor that is new to the pages read so far. */
  lemma PageContinues(responses: nat -> NestedResponse, i: nat, cursor: Option<Text>, visited: set<Text>)
    requires HasNext(responses(i)) && AreVisited(responses, i, visited)
    requires var page := responses(i).connection.value; NextCursor(page.info, cursor, |page.nodes|, visited).Ok?
    ensures Continues(responses, i)
    ensures var page := responses(i).connection.value;
            AreVisited(responses, i + 1, visited + {NextCursor(page.info, cursor, |page.nodes|, visited).value})
  {
    hide Continuation;
  }

  function CommentsOf(p: Provider, pr: Id, review: Id): nat -> NestedResponse {
    (n: nat) => p.comments(pr, review, n)
  }

  function ReviewsOf(p: Provider, pr: Id): nat -> NestedResponse {
    (n: nat) => p.reviews(pr, n)
  }

  // ----- comments -----

  /** What is known under `owner` are the nodes read so far. */
  ghost predicate KnowsOf(known: Owned, owner: Id, read: seq<Node>) {
    && known.nodes.Keys == known.owners.Keys
    && (forall id :: id in known.owners && known.owners[id] == owner <==> Listing.IsKnown(read, Some(id)))
    && (forall node | node in read ::
          node.id.Some? && node.id.value in known.nodes && known.nodes[node.id.value] == node)
  }

  lemma ObserveDecides(node: Node, owner: Id, known: Owned, read: seq<Node>)
    requires KnowsOf(known, owner, read) && Observe(node, owner, known).Ok?
    ensures node.id.Some?
    ensures Observe(node, owner, known).value <==> !Listing.IsKnown(read, node.id)
    ensures var isNew := Observe(node, owner, known).value;
            KnowsOf(if isNew then Remember(known, node.id.value, node, owner) else known, owner, read + [node])
  {
    hide Listing.IsKnown;
    forall id: Id
      ensures Listing.IsKnown(read + [node], Some(id)) <==> Listing.IsKnown(read, Some(id)) || node.id == Some(id)
    {
      KnownSnoc(read, node, Some(id));
    }
  }

  lemma KnownIsConsistent(known: Owned, owner: Id, read: seq<Node>)
    requires KnowsOf(known, owner, read)
    ensures IsConsistent(read)
  {
    hide Listing.IsKnown;
  }

  lemma {:induction false} TakeCommentsFirsts(nodes: seq<Node>, review: Id, state: State, taken: seq<Node>,
                                              read: seq<Node>)
    requires KnowsOf(state.comments, review, read) && taken == Firsts(read) && AreDated(taken)
    ensures var step := TakeComments(nodes, review, state, taken);
            step.Done? ==>
              && step.value == Firsts(read + nodes) && AreDated(step.value)
              && KnowsOf(step.state.comments, review, read + nodes)
    decreases |nodes|
  {
    hide KnowsOf, Firsts, Listing.IsKnown;
    if nodes == [] {
      assert read + nodes == read;
    } else {
      var node := nodes[0];
      assert read + nodes == read + [node] + nodes[1..];
      var first := Observe(node, review, state.comments);
      if first.Ok? {
        ObserveDecides(node, review, state.comments, read);
        FirstsSnoc(read, node);
        if !first.value {
          TakeCommentsFirsts(nodes[1..], review, state, taken, read + [node]);
        } else if state.count + 1 <= REVIEW_AND_COMMENT_NODES && node.date.Some? {
          var state' :=
            state.(comments := Remember(state.comments, node.id.value, node, review), count := state.count + 1);
          TakeCommentsFirsts(nodes[1..], review, state', taken + [node], read + [node]);
        }
      }
    }
  }

  lemma {:induction false} CommentPagesComplete(p: Provider, pr: Id, review: Id, cutoff: Time, cursors: set<Text>,
                                                i: nat, cursor: Option<Text>, visited: set<Text>, state: State,
                                                taken: seq<Node>)
    requires CursorsWithin(p, cursors) && visited <= cursors
    requires var responses := CommentsOf(p, pr, review);
             && KnowsOf(state.comments, review, PagesOf(responses, i))
             && taken == Firsts(PagesOf(responses, i)) && AreDated(taken)
             && OnTimeUpTo(responses, CommentPlace(pr, review), cutoff, i) && AreVisited(responses, i, visited)
             && forall n | 0 <= n < i :: Continues(responses, n)
    ensures var step := CommentPages(p, pr, review, cutoff, cursors, i, cursor, visited, state, taken);
            step.Done? ==> AreWhole(p, pr, review, cutoff, step.value)
    decreases cursors - visited
  {
    hide KnowsOf, Firsts, CursorsWithin, TakeComments, NextCursor, Continuation, HasContinuationIn;
    CommentContinuation(p, pr, review, i, cursors);
    var responses := CommentsOf(p, pr, review);
    assert responses(i) == p.comments(pr, review, i);
    var accepted := Accept(p.comments(pr, review, i), review, Some(pr), cutoff);
    if accepted.Ok? && accepted.value.Some? {
      var page := accepted.value.value;
      TakeCommentsFirsts(page.nodes, review, state, taken, PagesOf(responses, i));
      assert PagesOf(responses, i + 1) == PagesOf(responses, i) + page.nodes;
      var scanned := TakeComments(page.nodes, review, state, taken);
      if scanned.Done? {
        if !page.info.hasNextPage {
          assert EndsAfter(responses, i + 1) && OnTimeUpTo(responses, CommentPlace(pr, review), cutoff, i + 1);
          KnownIsConsistent(scanned.state.comments, review, PagesOf(responses, i + 1));
        } else {
          var next := NextCursor(page.info, cursor, |page.nodes|, visited);
          if next.Ok? {
            PageContinues(responses, i, cursor, visited);
            CommentPagesComplete(p, pr, review, cutoff, cursors, i + 1, Some(next.value), visited + {next.value},
                                 scanned.state, scanned.value);
          }
        }
      }
    }
  }

  /** The comments of a review of which none was known are all that are listed for it. */
  lemma CommentsComplete(p: Provider, pr: Id, review: Id, cutoff: Time, cursors: set<Text>, state: State)
    requires CursorsWithin(p, cursors) && state.comments.nodes.Keys == state.comments.owners.Keys
    requires forall id | id in state.comments.owners :: state.comments.owners[id] != review
    ensures var step := Comments(p, pr, review, cutoff, cursors, state);
            step.Done? ==> AreWhole(p, pr, review, cutoff, step.value)
  {
    hide CursorsWithin, CommentPages, AreWhole;
    CommentPagesComplete(p, pr, review, cutoff, cursors, 0, None, {}, state, []);
  }

  // ----- reviews -----

  function ReviewNodes(reviews: seq<ReviewTree>): seq<Node> {
    seq(|reviews|, i requires 0 <= i < |reviews| => reviews[i].review)
  }

  /** Each review comes with all the comments listed for it. */
  ghost predicate CommentsAreWhole(p: Provider, pr: Id, cutoff: Time, reviews: seq<ReviewTree>) {
    forall i | 0 <= i < |reviews| ::
      reviews[i].review.id.Some? && AreWhole(p, pr, reviews[i].review.id.value, cutoff, reviews[i].comments)
  }

  lemma OneMoreWhole(p: Provider, pr: Id, cutoff: Time, reviews: seq<ReviewTree>, tree: ReviewTree)
    requires CommentsAreWhole(p, pr, cutoff, reviews)
    requires tree.review.id.Some? && AreWhole(p, pr, tree.review.id.value, cutoff, tree.comments)
    ensures CommentsAreWhole(p, pr, cutoff, reviews + [tree])
    ensures ReviewNodes(reviews + [tree]) == ReviewNodes(reviews) + [tree.review]
  {
    hide AreWhole;
  }

  /** What the loops know, when the nodes in `read` have been gone through. */
  ghost predicate ReadSoFar(p: Provider, pr: Id, cutoff: Time, state: State, taken: seq<ReviewTree>, read: seq<Node>) {
    && Holds(state, pr, taken) && KnowsOf(state.reviews, pr, read)
    && ReviewNodes(taken) == Firsts(read) && CommentsAreWhole(p, pr, cutoff, taken)
  }

  lemma ReviewTaken(p: Provider, pr: Id, cutoff: Time, state: State, taken: seq<ReviewTree>, read: seq<Node>,
                    node: Node, comments: seq<Node>, after: State)
    requires ReadSoFar(p, pr, cutoff, state, taken, read) && Observe(node, pr, state.reviews) == Ok(true)
    requires state.count + 1 <= REVIEW_AND_COMMENT_NODES
    requires var counted :=
               state.(reviews := Remember(state.reviews, node.id.value, node, pr), count := state.count + 1);
             CommentsAdded(counted, after, node.id.value, comments)
    requires AreWhole(p, pr, node.id.value, cutoff, comments)
    ensures ReadSoFar(p, pr, cutoff, after, taken + [ReviewTree(node, comments)], read + [node])
  {
    ObserveDecides(node, pr, state.reviews, read);
    FirstsSnoc(read, node);
    OneMoreWhole(p, pr, cutoff, taken, ReviewTree(node, comments));
    OneMoreReview(state, after, pr, taken, node, comments);
    SameReviews(state, after, node, pr, comments);
    hide Holds, KnowsOf, Firsts, CommentsAreWhole, ReviewNodes, Listing.IsKnown, AreWhole, CommentsAdded;
  }

  lemma SameReviews(state: State, after: State, node: Node, pr: Id, comments: seq<Node>)
    requires node.id.Some?
    requires var counted :=
               state.(reviews := Remember(state.reviews, node.id.value, node, pr), count := state.count + 1);
             CommentsAdded(counted, after, node.id.value, comments)
    ensures after.reviews == Remember(state.reviews, node.id.value, node, pr)
  {
  }

  lemma ReviewRepeated(p: Provider, pr: Id, cutoff: Time, state: State, taken: seq<ReviewTree>, read: seq<Node>,
                       node: Node)
    requires ReadSoFar(p, pr, cutoff, state, taken, read) && Observe(node, pr, state.reviews) == Ok(false)
    ensures ReadSoFar(p, pr, cutoff, state, taken, read + [node])
  {
    ObserveDecides(node, pr, state.reviews, read);
    FirstsSnoc(read, node);
    hide Holds, KnowsOf, Firsts, CommentsAreWhole, ReviewNodes, Listing.IsKnown;
  }

  /** No comment is known under a review that is not known. */
  lemma NoComments(state: State, pr: Id, taken: seq<ReviewTree>, review: Id)
    requires Holds(state, pr, taken) && review !in state.reviews.nodes
    ensures state.comments.nodes.Keys == state.comments.owners.Keys && WellKept(state.comments)
    ensures forall id | id in state.comments.owners :: state.comments.owners[id] != review
  {
    hide ReviewIds, CommentIds, TreesHaveIds;
  }

  lemma {:induction false} TakeReviewsComplete(p: Provider, nodes: seq<Node>, pr: Id, cutoff: Time, cursors: set<Text>,
                                               state: State, taken: seq<ReviewTree>, read: seq<Node>)
    requires CursorsWithin(p, cursors) && ReadSoFar(p, pr, cutoff, state, taken, read)
    ensures var step := TakeReviews(p, nodes, pr, cutoff, cursors, state, taken);
            step.Done? ==> ReadSoFar(p, pr, cutoff, step.state, step.value, read + nodes)
    decreases |nodes|
  {
    hide ReadSoFar, Holds, CursorsWithin, CommentPages, CommentsAdded, WellKept, AreWhole;
    if nodes == [] {
      assert read + nodes == read;
    } else {
      var node := nodes[0];
      assert read + nodes == read + [node] + nodes[1..];
      var first := Observe(node, pr, state.reviews);
      if first == Ok(false) {
        ReviewRepeated(p, pr, cutoff, state, taken, read, node);
        TakeReviewsComplete(p, nodes[1..], pr, cutoff, cursors, state, taken, read + [node]);
      } else if first == Ok(true) && state.count + 1 <= REVIEW_AND_COMMENT_NODES {
        var id := node.id.value;
        var counted := state.(reviews := Remember(state.reviews, id, node, pr), count := state.count + 1);
        HeldSoFar(p, pr, cutoff, state, taken, read);
        NoComments(state, pr, taken, id);
        CommentPagesAdd(p, pr, id, cutoff, cursors, 0, None, {}, counted, []);
        CommentsComplete(p, pr, id, cutoff, cursors, counted);
        var comments := Comments(p, pr, id, cutoff, cursors, counted);
        if comments.Done? {
          assert comments.value[0..] == comments.value;
          ReviewTaken(p, pr, cutoff, state, taken, read, node, comments.value, comments.state);
          TakeReviewsComplete(p, nodes[1..], pr, cutoff, cursors, comments.state,
                              taken + [ReviewTree(node, comments.value)], read + [node]);
        }
      }
    }
  }

  lemma HeldSoFar(p: Provider, pr: Id, cutoff: Time, state: State, taken: seq<ReviewTree>, read: seq<Node>)
    requires ReadSoFar(p, pr, cutoff, state, taken, read)
    ensures Holds(state, pr, taken)
  {
    hide Holds, KnowsOf, Firsts, CommentsAreWhole;
  }

  /** All reviews that are listed for the pull request, each once and with all its comments. */
  ghost predicate IsWhole(p: Provider, pr: Id, cutoff: Time, reviews: seq<ReviewTree>) {
    && IsWholeListing(ReviewsOf(p, pr), ReviewPlace(pr), cutoff, ReviewNodes(reviews))
    && CommentsAreWhole(p, pr, cutoff, reviews)
  }

  lemma {:induction false} ReviewPagesComplete(p: Provider, pr: Id, cutoff: Time, cursors: set<Text>, i: nat,
                                               cursor: Option<Text>, visited: set<Text>, state: State,
                                               taken: seq<ReviewTree>)
    requires CursorsWithin(p, cursors) && visited <= cursors
    requires var responses := ReviewsOf(p, pr);
             && ReadSoFar(p, pr, cutoff, state, taken, PagesOf(responses, i))
             && OnTimeUpTo(responses, ReviewPlace(pr), cutoff, i) && AreVisited(responses, i, visited)
             && forall n | 0 <= n < i :: Continues(responses, n)
    ensures var step := ReviewPages(p, pr, cutoff, cursors, i, cursor, visited, state, taken);
            step.Done? ==> IsWhole(p, pr, cutoff, step.value)
    decreases cursors - visited
  {
    hide ReadSoFar, CommentsAreWhole, Firsts, CursorsWithin, TakeReviews, NextCursor, Continuation, HasContinuationIn,
      ReviewNodes;
    ReviewContinuation(p, pr, i, cursors);
    var responses := ReviewsOf(p, pr);
    assert responses(i) == p.reviews(pr, i);
    var accepted := Accept(p.reviews(pr, i), pr, None, cutoff);
    if accepted.Ok? && accepted.value.Some? {
      var page := accepted.value.value;
      TakeReviewsComplete(p, page.nodes, pr, cutoff, cursors, state, taken, PagesOf(responses, i));
      assert PagesOf(responses, i + 1) == PagesOf(responses, i) + page.nodes;
      var scanned := TakeReviews(p, page.nodes, pr, cutoff, cursors, state, taken);
      if scanned.Done? {
        if !page.info.hasNextPage {
          assert EndsAfter(responses, i + 1) && OnTimeUpTo(responses, ReviewPlace(pr), cutoff, i + 1);
          WholeAtTheEnd(p, pr, cutoff, scanned.state, scanned.value, PagesOf(responses, i + 1));
        } else {
          var next := NextCursor(page.info, cursor, |page.nodes|, visited);
          if next.Ok? {
            PageContinues(responses, i, cursor, visited);
            ReviewPagesComplete(p, pr, cutoff, cursors, i + 1, Some(next.value), visited + {next.value}, scanned.state,
                                scanned.value);
          }
        }
      }
    }
  }

  lemma WholeAtTheEnd(p: Provider, pr: Id, cutoff: Time, state: State, reviews: seq<ReviewTree>, read: seq<Node>)
    requires ReadSoFar(p, pr, cutoff, state, reviews, read)
    ensures ReviewNodes(reviews) == Firsts(read) && CommentsAreWhole(p, pr, cutoff, reviews) && IsConsistent(read)
  {
    KnownIsConsistent(state.reviews, pr, read);
    hide Holds, KnowsOf, Firsts, CommentsAreWhole, ReviewNodes;
  }

  /** What is returned for a pull request that was not discarded is whole. */
  lemma ReviewsComplete(p: Provider, pr: Id, cutoff: Time, cursors: set<Text>)
    requires CursorsWithin(p, cursors)
    ensures var step := Reviews(p, pr, cutoff, cursors); step.Done? ==> IsWhole(p, pr, cutoff, step.value)
  {
    assert ReadSoFar(p, pr, cutoff, EMPTY_STATE, [], []);
    hide ReadSoFar, CursorsWithin, IsWhole;
    ReviewPagesComplete(p, pr, cutoff, cursors, 0, None, {}, EMPTY_STATE, []);
  }

  // ----- which pull requests are kept -----

  /** The provider is asked for page number `n` when every page before it has a next one. */
  predicate IsRequested(responses: nat -> NestedResponse, n: nat) {
    forall m | 0 <= m < n :: HasNext(responses(m))
  }

  ghost predicate HasLatePage(responses: nat -> NestedResponse, cutoff: Time) {
    exists n: nat :: IsRequested(responses, n) && IsLate(responses(n), cutoff)
  }

  predicate IsOnPage(r: NestedResponse, id: Id) {
    IsPage(r) && Listing.IsKnown(r.connection.value.nodes, Some(id))
  }

  /** The review is listed on a page of reviews that is asked for. */
  ghost predicate IsListed(p: Provider, pr: Id, review: Id) {
    exists n: nat :: IsRequested(ReviewsOf(p, pr), n) && IsOnPage(p.reviews(pr, n), review)
  }

  /**
   Some page of the pull request's reviews, or of the comments of a review that is listed, says that the pull request
   was updated after the cutoff.
   */
  ghost predicate HasMovedOn(p: Provider, pr: Id, cutoff: Time) {
    || HasLatePage(ReviewsOf(p, pr), cutoff)
    || exists review :: IsListed(p, pr, review) && HasLatePage(CommentsOf(p, pr, review), cutoff)
  }

  /** No page of a listing that was read to its end is late. */
  lemma WholeIsNotLate(responses: nat -> NestedResponse, place: Place, cutoff: Time, nodes: seq<Node>)
    requires IsWholeListing(responses, place, cutoff, nodes)
    ensures !HasLatePage(responses, cutoff)
  {
    hide Firsts, PagesOf;
    var count: nat :|
      && EndsAfter(responses, count) && OnTimeUpTo(responses, place, cutoff, count)
      && nodes == Firsts(PagesOf(responses, count));
    forall n: nat | IsRequested(responses, n) ensures !IsLate(responses(n), cutoff) {
      assert n < count ==> IsOnTime(responses(n), place, cutoff);
    }
  }

  lemma {:induction false} FirstsKnow(nodes: seq<Node>, id: Option<Id>)
    ensures Listing.IsKnown(Firsts(nodes), id) <==> Listing.IsKnown(nodes, id)
  {
    hide Listing.IsKnown;
    if nodes == [] {
      assert Firsts(nodes) == nodes;
    } else {
      var before := nodes[..|nodes| - 1];
      var last := nodes[|nodes| - 1];
      assert nodes == before + [last];
      FirstsKnow(before, id);
      KnownSnoc(before, last, id);
      KnownSnoc(Firsts(before), last, id);
      assert Firsts(before) + [] == Firsts(before);
    }
  }

  lemma KnownInEither(a: seq<Node>, b: seq<Node>, id: Option<Id>)
    requires Listing.IsKnown(a, id) || Listing.IsKnown(b, id)
    ensures Listing.IsKnown(a + b, id)
  {
    assert forall i | 0 <= i < |a| :: (a + b)[i] == a[i];
    assert forall i | 0 <= i < |b| :: (a + b)[|a| + i] == b[i];
  }

  lemma {:induction false} OnPageIsRead(responses: nat -> NestedResponse, n: nat, count: nat, id: Id)
    requires n < count && IsOnPage(responses(n), id)
    ensures Listing.IsKnown(PagesOf(responses, count), Some(id))
    decreases count
  {
    hide Listing.IsKnown;
    var last := responses(count - 1);
    var nodes := if IsPage(last) then last.connection.value.nodes else [];
    if n < count - 1 {
      OnPageIsRead(responses, n, count - 1, id);
    }
    KnownInEither(PagesOf(responses, count - 1), nodes, Some(id));
  }

  /** A review on a page that is asked for is one of those of the whole listing. */
  lemma ListedIsReturned(p: Provider, pr: Id, cutoff: Time, reviews: seq<ReviewTree>, review: Id)
    requires IsWholeListing(ReviewsOf(p, pr), ReviewPlace(pr), cutoff, ReviewNodes(reviews)) && IsListed(p, pr, review)
    ensures exists i :: 0 <= i < |reviews| && reviews[i].review.id == Some(review)
  {
    hide Firsts, PagesOf;
    var responses := ReviewsOf(p, pr);
    var count: nat :|
      && EndsAfter(responses, count) && OnTimeUpTo(responses, ReviewPlace(pr), cutoff, count)
      && ReviewNodes(reviews) == Firsts(PagesOf(responses, count));
    var n: nat :| IsRequested(responses, n) && IsOnPage(p.reviews(pr, n), review);
    assert n < count;
    assert responses(n) == p.reviews(pr, n);
    OnPageIsRead(responses, n, count, review);
    FirstsKnow(PagesOf(responses, count), Some(review));
    var i :| 0 <= i < |ReviewNodes(reviews)| && ReviewNodes(reviews)[i].id == Some(review);
    assert reviews[i].review.id == Some(review);
  }

  /** What is returned for a pull request shows that it did not move past the cutoff. */
  lemma WholeHasNotMovedOn(p: Provider, pr: Id, cutoff: Time, reviews: seq<ReviewTree>)
    requires IsWhole(p, pr, cutoff, reviews)
    ensures !HasMovedOn(p, pr, cutoff)
  {
    hide IsWholeListing, HasLatePage, IsListed, ReviewNodes;
    WholeIsNotLate(ReviewsOf(p, pr), ReviewPlace(pr), cutoff, ReviewNodes(reviews));
    forall review: Id | IsListed(p, pr, review) ensures !HasLatePage(CommentsOf(p, pr, review), cutoff) {
      ListedIsReturned(p, pr, cutoff, reviews, review);
      var i :| 0 <= i < |reviews| && reviews[i].review.id == Some(review);
      WholeIsNotLate(CommentsOf(p, pr, review), CommentPlace(pr, review), cutoff, reviews[i].comments);
    }
  }

  lemma {:induction false} TakeCommentsKeeps(nodes: seq<Node>, review: Id, state: State, taken: seq<Node>)
    ensures !TakeComments(nodes, review, state, taken).Discarded?
    decreases |nodes|
  {
    if nodes != [] {
      TakeCommentsKeeps(nodes[1..], review, state, taken);
      if nodes[0].id.Some? {
        var known := Remember(state.comments, nodes[0].id.value, nodes[0], review);
        TakeCommentsKeeps(nodes[1..], review, state.(comments := known, count := state.count + 1), taken + [nodes[0]]);
      }
    }
  }

  lemma {:induction false} DroppedCommentsAreLate(p: Provider, pr: Id, review: Id, cutoff: Time, cursors: set<Text>,
                                                  i: nat, cursor: Option<Text>, visited: set<Text>, state: State,
                                                  taken: seq<Node>)
    requires CursorsWithin(p, cursors) && visited <= cursors && IsRequested(CommentsOf(p, pr, review), i)
    requires CommentPages(p, pr, review, cutoff, cursors, i, cursor, visited, state, taken).Discarded?
    ensures HasLatePage(CommentsOf(p, pr, review), cutoff)
    decreases cursors - visited
  {
    hide CursorsWithin, TakeComments, NextCursor, Continuation, HasContinuationIn;
    CommentContinuation(p, pr, review, i, cursors);
    var responses := CommentsOf(p, pr, review);
    assert responses(i) == p.comments(pr, review, i);
    var accepted := Accept(p.comments(pr, review, i), review, Some(pr), cutoff);
    if accepted.value.None? {
      assert IsLate(responses(i), cutoff);
    } else {
      var page := accepted.value.value;
      TakeCommentsKeeps(page.nodes, review, state, taken);
      var scanned := TakeComments(page.nodes, review, state, taken);
      var next := NextCursor(page.info, cursor, |page.nodes|, visited);
      DroppedCommentsAreLate(p, pr, review, cutoff, cursors, i + 1, Some(next.value), visited + {next.value},
                             scanned.state, scanned.value);
    }
  }

  lemma {:induction false} DroppedReviewIsListed(p: Provider, nodes: seq<Node>, pr: Id, cutoff: Time,
                                                 cursors: set<Text>, state: State, taken: seq<ReviewTree>)
    returns (review: Id)
    requires CursorsWithin(p, cursors)
    requires TakeReviews(p, nodes, pr, cutoff, cursors, state, taken).Discarded?
    ensures Listing.IsKnown(nodes, Some(review)) && HasLatePage(CommentsOf(p, pr, review), cutoff)
    decreases |nodes|
  {
    hide CursorsWithin, CommentPages, HasLatePage;
    var node := nodes[0];
    assert nodes == [node] + nodes[1..];
    if Observe(node, pr, state.reviews).value {
      review := node.id.value;
      var counted := state.(reviews := Remember(state.reviews, review, node, pr), count := state.count + 1);
      var comments := Comments(p, pr, review, cutoff, cursors, counted);
      if comments.Discarded? {
        DroppedCommentsAreLate(p, pr, review, cutoff, cursors, 0, None, {}, counted, []);
      } else {
        review := DroppedReviewIsListed(p, nodes[1..], pr, cutoff, cursors, comments.state,
                                        taken + [ReviewTree(node, comments.value)]);
      }
    } else {
      review := DroppedReviewIsListed(p, nodes[1..], pr, cutoff, cursors, state, taken);
    }
    assert Listing.IsKnown([node], node.id);
    KnownInEither([node], nodes[1..], Some(review));
  }

  lemma {:induction false} DroppedPagesAreLate(p: Provider, pr: Id, cutoff: Time, cursors: set<Text>, i: nat,
                                               cursor: Option<Text>, visited: set<Text>, state: State,
                                               taken: seq<ReviewTree>)
    requires CursorsWithin(p, cursors) && visited <= cursors && IsRequested(ReviewsOf(p, pr), i)
    requires ReviewPages(p, pr, cutoff, cursors, i, cursor, visited, state, taken).Discarded?
    ensures HasMovedOn(p, pr, cutoff)
    decreases cursors - visited
  {
    hide CursorsWithin, TakeReviews, NextCursor, Continuation, HasContinuationIn, Listing.IsKnown, CommentsOf;
    ReviewContinuation(p, pr, i, cursors);
    var responses := ReviewsOf(p, pr);
    assert responses(i) == p.reviews(pr, i);
    var accepted := Accept(p.reviews(pr, i), pr, None, cutoff);
    if accepted.value.None? {
      assert IsLate(responses(i), cutoff);
    } else {
      var page := accepted.value.value;
      var scanned := TakeReviews(p, page.nodes, pr, cutoff, cursors, state, taken);
      if scanned.Discarded? {
        var review := DroppedReviewIsListed(p, page.nodes, pr, cutoff, cursors, state, taken);
        assert IsOnPage(p.reviews(pr, i), review);
        assert IsListed(p, pr, review);
      } else {
        var next := NextCursor(page.info, cursor, |page.nodes|, visited);
        DroppedPagesAreLate(p, pr, cutoff, cursors, i + 1, Some(next.value), visited + {next.value}, scanned.state,
                            scanned.value);
      }
    }
  }

  /** A pull request that is read without an error is dropped if and only if it moved past the cutoff. */
  lemma DroppedIffMovedOn(p: Provider, pr: Id, cutoff: Time, cursors: set<Text>)
    requires CursorsWithin(p, cursors)
    ensures var step := Reviews(p, pr, cutoff, cursors);
            !step.Fail? ==> (step.Discarded? <==> HasMovedOn(p, pr, cutoff))
  {
    hide CursorsWithin, ReviewPages, HasMovedOn, IsWhole;
    var step := Reviews(p, pr, cutoff, cursors);
    if step.Done? {
      ReviewsComplete(p, pr, cutoff, cursors);
      WholeHasNotMovedOn(p, pr, cutoff, step.value);
    } else if step.Discarded? {
      DroppedPagesAreLate(p, pr, cutoff, cursors, 0, None, {}, EMPTY_STATE, []);
    }
  }

  /** The pull requests that did not move past the cutoff, in order. */
  ghost function Kept(p: Provider, prs: seq<Node>, cutoff: Time): (kept: seq<Node>)
    requires HaveIds(prs)
    ensures HaveIds(kept)
  {
    if prs == [] then []
    else (if HasMovedOn(p, prs[0].id.value, cutoff) then [] else [prs[0]]) + Kept(p, prs[1..], cutoff)
  }

  // ----- all pull requests -----

  function PullRequestsOf(trees: seq<PullRequestTree>): seq<Node> {
    seq(|trees|, i requires 0 <= i < |trees| => trees[i].pullRequest)
  }

  ghost predicate TreesAreWhole(p: Provider, cutoff: Time, trees: seq<PullRequestTree>) {
    forall i | 0 <= i < |trees| ::
      trees[i].pullRequest.id.Some? && IsWhole(p, trees[i].pullRequest.id.value, cutoff, trees[i].reviews)
  }

  lemma {:induction false} CollectComplete(p: Provider, prs: seq<Node>, cutoff: Time, cursors: set<Text>, state: State,
                                           taken: seq<PullRequestTree>)
    requires CursorsWithin(p, cursors) && HaveIds(prs) && TreesAreWhole(p, cutoff, taken)
    ensures var r := Collect(p, prs, cutoff, cursors, state, taken);
            r.Ok? ==>
              && PullRequestsOf(r.value.trees) == PullRequestsOf(taken) + Kept(p, prs, cutoff)
              && TreesAreWhole(p, cutoff, r.value.trees) && Undiscarded(p, prs, cutoff, cursors) == Kept(p, prs, cutoff)
    decreases |prs|
  {
    hide CursorsWithin, Reviews, Merge, IsWhole, HasMovedOn;
    if prs == [] {
      assert PullRequestsOf(taken) + [] == PullRequestsOf(taken);
    } else {
      DroppedIffMovedOn(p, prs[0].id.value, cutoff, cursors);
      var step := Reviews(p, prs[0].id.value, cutoff, cursors);
      if step.Discarded? {
        CollectComplete(p, prs[1..], cutoff, cursors, state, taken);
      } else if step.Done? && Merge(state, step.state).Ok? {
        ReviewsComplete(p, prs[0].id.value, cutoff, cursors);
        var tree := PullRequestTree(prs[0], step.value);
        assert PullRequestsOf(taken + [tree]) == PullRequestsOf(taken) + [prs[0]];
        CollectComplete(p, prs[1..], cutoff, cursors, Merge(state, step.state).value, taken + [tree]);
      }
    }
  }
}
