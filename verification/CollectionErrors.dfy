/** Why nested collection fails: each error has its reason in what the provider answered. */
module CollectionErrors {
  import opened Basics
  import opened Text
  import opened Pagination
  import opened NestedCollection
  import opened CollectionCompleteness

  // ----- what the provider lists -----

  datatype NodeKind = ReviewNode | CommentNode

  predicate IsAmong(prs: seq<Node>, pr: Id) {
    exists i | 0 <= i < |prs| :: prs[i].id == Some(pr)
  }

  predicate IsNodeOf(r: NestedResponse, node: Node) {
    IsPage(r) && node in r.connection.value.nodes
  }

  /** A page of the pull request's reviews that is asked for has this review. */
  ghost predicate ListsReview(p: Provider, prs: seq<Node>, pr: Id, review: Node) {
    IsAmong(prs, pr) && exists n: nat :: IsRequested(ReviewsOf(p, pr), n) && IsNodeOf(p.reviews(pr, n), review)
  }

  /** Such a page has a review of this id. */
  ghost predicate ListsReviewId(p: Provider, prs: seq<Node>, pr: Id, review: Id) {
    exists node :: ListsReview(p, prs, pr, node) && node.id == Some(review)
  }

  /**
   A page of the review's comments that is asked for, for some pull request that lists the review, has this comment.
   */
  ghost predicate ListsComment(p: Provider, prs: seq<Node>, review: Id, comment: Node) {
    exists pr: Id, n: nat ::
      && ListsReviewId(p, prs, pr, review) && IsRequested(CommentsOf(p, pr, review), n)
      && IsNodeOf(p.comments(pr, review, n), comment)
  }

  ghost predicate Lists(p: Provider, prs: seq<Node>, kind: NodeKind, owner: Id, node: Node) {
    match kind
    case ReviewNode => ListsReview(p, prs, owner, node)
    case CommentNode => ListsComment(p, prs, owner, node)
  }

  /** A list that is read page by page. */
  datatype Source = ReviewsOn(pullRequest: Id) | CommentsOn(pullRequest: Id, review: Id)

  function PagesFrom(p: Provider, source: Source): nat -> NestedResponse {
    match source
    case ReviewsOn(pr) => ReviewsOf(p, pr)
    case CommentsOn(pr, review) => CommentsOf(p, pr, review)
  }

  function PageFrom(p: Provider, source: Source, n: nat): NestedResponse {
    match source
    case ReviewsOn(pr) => p.reviews(pr, n)
    case CommentsOn(pr, review) => p.comments(pr, review, n)
  }

  /** What its pages must name as their parent, and comments as their pull request as well. */
  function ParentOf(source: Source): Id {
    if source.ReviewsOn? then source.pullRequest else source.review
  }

  function OwnerOf(source: Source): Option<Id> {
    if source.ReviewsOn? then None else Some(source.pullRequest)
  }

  /** Page number `n` of the list is asked for. */
  ghost predicate IsAsked(p: Provider, prs: seq<Node>, source: Source, n: nat) {
    && IsRequested(PagesFrom(p, source), n)
    && match source
       case ReviewsOn(pr) => IsAmong(prs, pr)
       case CommentsOn(pr, review) => ListsReviewId(p, prs, pr, review)
  }

  // ----- reasons -----

  /** The answer fails, or the heartbeat after it. */
  predicate IsInterrupted(r: NestedResponse) {
    r.Failed? || !r.heartbeat
  }

  /** The answer does not say when the pull request was updated. */
  predicate IsUndated(r: NestedResponse) {
    r.Nested? && r.updatedAt.None?
  }

  /** The answer is about something else, or has no usable connection. */
  predicate IsMisplaced(r: NestedResponse, parent: Id, owner: Option<Id>) {
    r.Nested? && (r.parent != Some(parent) || (owner.Some? && r.pullRequest != owner) || r.connection.None?)
  }

  /** The page says there is more, but names no cursor or an earlier page's, or has no nodes. */
  predicate IsStuck(p: Provider, source: Source, n: nat) {
    && HasNext(PageFrom(p, source, n))
    && var page := PageFrom(p, source, n).connection.value;
       || Continuation(page.info) == [] || page.nodes == []
       || exists m | 0 <= m < n :: ContinuesWith(PageFrom(p, source, m), Continuation(page.info))
  }

  predicate ContinuesWith(r: NestedResponse, cursor: Text) {
    IsPage(r) && Continuation(r.connection.value.info) == cursor
  }

  /** Two nodes of one kind under one id that differ, in themselves or in where they are listed. */
  ghost predicate HasConflict(p: Provider, prs: seq<Node>, kind: NodeKind) {
    exists a, b, x, y ::
      Lists(p, prs, kind, a, x) && Lists(p, prs, kind, b, y) && x.id.Some? && x.id == y.id && (a != b || x != y)
  }

  ghost predicate AreListed(p: Provider, prs: seq<Node>, kind: NodeKind, ids: set<Id>) {
    forall id | id in ids :: exists owner, node :: Lists(p, prs, kind, owner, node) && node.id == Some(id)
  }

  /** More than two thousand reviews and comments of different ids are listed. */
  ghost predicate AreTooMany(p: Provider, prs: seq<Node>) {
    exists reviews, comments ::
      && |reviews| + |comments| > 2_000
      && AreListed(p, prs, ReviewNode, reviews) && AreListed(p, prs, CommentNode, comments)
  }

  /** The reasons for each error. */
  ghost predicate IsExplained(p: Provider, prs: seq<Node>, error: CollectionError) {
    match error
    case Interrupted =>
      exists source, n: nat :: IsAsked(p, prs, source, n) && IsInterrupted(PageFrom(p, source, n))
    case InvalidDate =>
      || (exists source, n: nat :: IsAsked(p, prs, source, n) && IsUndated(PageFrom(p, source, n)))
      || (exists review, comment :: ListsComment(p, prs, review, comment) && comment.date.None?)
    case BadPagination =>
      || (exists source, n: nat ::
            IsAsked(p, prs, source, n) && IsMisplaced(PageFrom(p, source, n), ParentOf(source), OwnerOf(source)))
      || (exists source, n: nat :: IsAsked(p, prs, source, n) && IsStuck(p, source, n))
      || (exists kind, owner, node :: Lists(p, prs, kind, owner, node) && node.id.None?)
      || HasConflict(p, prs, ReviewNode) || HasConflict(p, prs, CommentNode)
    case LimitExceeded => AreTooMany(p, prs)
  }

  // ----- what is known is listed -----

  ghost predicate KnownAreListed(p: Provider, prs: seq<Node>, kind: NodeKind, known: Owned) {
    && known.nodes.Keys == known.owners.Keys
    && (forall id | id in known.order :: id in known.nodes)
    && (forall id | id in known.nodes ::
          known.nodes[id].id == Some(id) && Lists(p, prs, kind, known.owners[id], known.nodes[id]))
  }

  ghost predicate StateIsListed(p: Provider, prs: seq<Node>, state: State) {
    && KnownAreListed(p, prs, ReviewNode, state.reviews) && KnownAreListed(p, prs, CommentNode, state.comments)
    && state.count == |state.reviews.nodes| + |state.comments.nodes|
  }

  lemma ObserveIsExplained(p: Provider, prs: seq<Node>, kind: NodeKind, node: Node, owner: Id, known: Owned)
    requires KnownAreListed(p, prs, kind, known) && Lists(p, prs, kind, owner, node)
    requires Observe(node, owner, known).Err?
    ensures Observe(node, owner, known).error == BadPagination && IsExplained(p, prs, BadPagination)
  {
    hide Lists;
    if node.id.Some? {
      var id := node.id.value;
      assert Lists(p, prs, kind, known.owners[id], known.nodes[id]);
      assert HasConflict(p, prs, kind);
    }
  }

  lemma RememberedIsListed(p: Provider, prs: seq<Node>, kind: NodeKind, node: Node, owner: Id, known: Owned)
    requires KnownAreListed(p, prs, kind, known) && Lists(p, prs, kind, owner, node)
    requires node.id.Some? && node.id.value !in known.nodes
    ensures KnownAreListed(p, prs, kind, Remember(known, node.id.value, node, owner))
    ensures |Remember(known, node.id.value, node, owner).nodes| == |known.nodes| + 1
  {
    hide Lists;
  }

  lemma KnownIdsAreListed(p: Provider, prs: seq<Node>, kind: NodeKind, known: Owned)
    requires KnownAreListed(p, prs, kind, known)
    ensures AreListed(p, prs, kind, known.nodes.Keys)
  {
    hide Lists;
    forall id | id in known.nodes.Keys
      ensures exists owner, node :: Lists(p, prs, kind, owner, node) && node.id == Some(id)
    {
      assert Lists(p, prs, kind, known.owners[id], known.nodes[id]);
    }
  }

  /** One more node than is allowed. */
  lemma LimitIsExplained(p: Provider, prs: seq<Node>, kind: NodeKind, node: Node, owner: Id, reviews: Owned,
                         comments: Owned)
    requires KnownAreListed(p, prs, ReviewNode, reviews) && KnownAreListed(p, prs, CommentNode, comments)
    requires |reviews.nodes| + |comments.nodes| + 1 > REVIEW_AND_COMMENT_NODES
    requires Lists(p, prs, kind, owner, node) && node.id.Some?
    requires node.id.value !in (if kind == ReviewNode then reviews else comments).nodes
    ensures IsExplained(p, prs, LimitExceeded)
  {
    hide Lists, AreListed;
    var known := if kind == ReviewNode then reviews else comments;
    var more := Remember(known, node.id.value, node, owner);
    RememberedIsListed(p, prs, kind, node, owner, known);
    KnownIdsAreListed(p, prs, kind, more);
    KnownIdsAreListed(p, prs, ReviewNode, reviews);
    KnownIdsAreListed(p, prs, CommentNode, comments);
    assert |more.nodes.Keys| == |more.nodes| && |reviews.nodes.Keys| == |reviews.nodes|;
    assert |comments.nodes.Keys| == |comments.nodes|;
    if kind == ReviewNode {
      assert |more.nodes.Keys| + |comments.nodes.Keys| > 2_000;
    } else {
      assert |reviews.nodes.Keys| + |more.nodes.Keys| > 2_000;
    }
  }

  // ----- pages -----

  lemma PageIsExplained(p: Provider, prs: seq<Node>, source: Source, n: nat, cutoff: Time)
    requires IsAsked(p, prs, source, n)
    requires Accept(PageFrom(p, source, n), ParentOf(source), OwnerOf(source), cutoff).Err?
    ensures IsExplained(p, prs, Accept(PageFrom(p, source, n), ParentOf(source), OwnerOf(source), cutoff).error)
  {
    hide IsAsked, PageFrom, ParentOf, OwnerOf;
    var r := PageFrom(p, source, n);
    assert IsInterrupted(r) || IsUndated(r) || IsMisplaced(r, ParentOf(source), OwnerOf(source));
  }

  /** The cursors visited are those that earlier pages continued with. */
  ghost predicate AreFromPages(p: Provider, source: Source, i: nat, cursor: Option<Text>, visited: set<Text>) {
    && (cursor.Some? ==> cursor.value in visited)
    && forall c | c in visited :: exists m | 0 <= m < i :: ContinuesWith(PageFrom(p, source, m), c)
  }

  lemma CursorIsExplained(p: Provider, prs: seq<Node>, source: Source, i: nat, cursor: Option<Text>, visited: set<Text>)
    requires IsAsked(p, prs, source, i) && HasNext(PageFrom(p, source, i))
    requires AreFromPages(p, source, i, cursor, visited)
    ensures var page := PageFrom(p, source, i).connection.value;
            var next := NextCursor(page.info, cursor, |page.nodes|, visited);
            && (next.Err? ==> next.error == BadPagination && IsExplained(p, prs, BadPagination))
            && (next.Ok? ==> AreFromPages(p, source, i + 1, Some(next.value), visited + {next.value}))
  {
    hide IsAsked, PageFrom, Continuation;
    var page := PageFrom(p, source, i).connection.value;
    var next := NextCursor(page.info, cursor, |page.nodes|, visited);
    if next.Err? {
      assert IsStuck(p, source, i);
    } else {
      assert ContinuesWith(PageFrom(p, source, i), next.value);
    }
  }

  // ----- comments -----

  lemma {:induction false} TakeCommentsIsExplained(p: Provider, prs: seq<Node>, nodes: seq<Node>, review: Id,
                                                   state: State, taken: seq<Node>)
    requires StateIsListed(p, prs, state) && forall node | node in nodes :: Lists(p, prs, CommentNode, review, node)
    ensures var step := TakeComments(nodes, review, state, taken);
            && (step.Done? ==> StateIsListed(p, prs, step.state))
            && (step.Fail? ==> IsExplained(p, prs, step.error))
    decreases |nodes|
  {
    hide Lists, KnownAreListed, IsExplained;
    if nodes != [] {
      var node := nodes[0];
      assert node in nodes;
      var first := Observe(node, review, state.comments);
      if first.Err? {
        ObserveIsExplained(p, prs, CommentNode, node, review, state.comments);
      } else if !first.value {
        TakeCommentsIsExplained(p, prs, nodes[1..], review, state, taken);
      } else if state.count + 1 > REVIEW_AND_COMMENT_NODES {
        LimitIsExplained(p, prs, CommentNode, node, review, state.reviews, state.comments);
      } else if node.date.None? {
        UndatedIsExplained(p, prs, review, node);
      } else {
        RememberedIsListed(p, prs, CommentNode, node, review, state.comments);
        var counted :=
          state.(comments := Remember(state.comments, node.id.value, node, review), count := state.count + 1);
        TakeCommentsIsExplained(p, prs, nodes[1..], review, counted, taken + [node]);
      }
    }
  }

  lemma UndatedIsExplained(p: Provider, prs: seq<Node>, review: Id, node: Node)
    requires Lists(p, prs, CommentNode, review, node) && node.date.None?
    ensures IsExplained(p, prs, InvalidDate)
  {
    hide ListsComment;
  }

  lemma {:induction false} CommentPagesIsExplained(p: Provider, prs: seq<Node>, pr: Id, review: Id, cutoff: Time,
                                                   cursors: set<Text>, i: nat, cursor: Option<Text>, visited: set<Text>,
                                                   state: State, taken: seq<Node>)
    requires CursorsWithin(p, cursors) && visited <= cursors && ListsReviewId(p, prs, pr, review)
    requires IsRequested(CommentsOf(p, pr, review), i) && AreFromPages(p, CommentsOn(pr, review), i, cursor, visited)
    requires StateIsListed(p, prs, state)
    ensures var step := CommentPages(p, pr, review, cutoff, cursors, i, cursor, visited, state, taken);
            && (step.Done? ==> StateIsListed(p, prs, step.state))
            && (step.Fail? ==> IsExplained(p, prs, step.error))
    decreases cursors - visited
  {
    hide CursorsWithin, TakeComments, NextCursor, Continuation, HasContinuationIn, StateIsListed, IsExplained,
      ListsReviewId, AreFromPages;
    CommentContinuation(p, pr, review, i, cursors);
    var responses := CommentsOf(p, pr, review);
    assert responses(i) == p.comments(pr, review, i);
    var accepted := Accept(p.comments(pr, review, i), review, Some(pr), cutoff);
    if accepted.Err? {
      PageIsExplained(p, prs, CommentsOn(pr, review), i, cutoff);
    } else if accepted.value.Some? {
      var page := accepted.value.value;
      forall node | node in page.nodes ensures Lists(p, prs, CommentNode, review, node) {
        assert IsNodeOf(p.comments(pr, review, i), node);
      }
      TakeCommentsIsExplained(p, prs, page.nodes, review, state, taken);
      var scanned := TakeComments(page.nodes, review, state, taken);
      if scanned.Done? && page.info.hasNextPage {
        CursorIsExplained(p, prs, CommentsOn(pr, review), i, cursor, visited);
        var next := NextCursor(page.info, cursor, |page.nodes|, visited);
        if next.Ok? {
          CommentPagesIsExplained(p, prs, pr, review, cutoff, cursors, i + 1, Some(next.value),
                                  visited + {next.value}, scanned.state, scanned.value);
        }
      }
    }
  }

  // ----- reviews -----

  lemma {:induction false} TakeReviewsIsExplained(p: Provider, prs: seq<Node>, nodes: seq<Node>, pr: Id, cutoff: Time,
                                                  cursors: set<Text>, state: State, taken: seq<ReviewTree>)
    requires CursorsWithin(p, cursors) && StateIsListed(p, prs, state)
    requires forall node | node in nodes :: ListsReview(p, prs, pr, node)
    ensures var step := TakeReviews(p, nodes, pr, cutoff, cursors, state, taken);
            && (step.Done? ==> StateIsListed(p, prs, step.state))
            && (step.Fail? ==> IsExplained(p, prs, step.error))
    decreases |nodes|
  {
    hide CursorsWithin, ListsReview, KnownAreListed, IsExplained, CommentPages;
    if nodes != [] {
      var node := nodes[0];
      assert node in nodes && Lists(p, prs, ReviewNode, pr, node);
      var first := Observe(node, pr, state.reviews);
      if first.Err? {
        ObserveIsExplained(p, prs, ReviewNode, node, pr, state.reviews);
      } else if !first.value {
        TakeReviewsIsExplained(p, prs, nodes[1..], pr, cutoff, cursors, state, taken);
      } else if state.count + 1 > REVIEW_AND_COMMENT_NODES {
        LimitIsExplained(p, prs, ReviewNode, node, pr, state.reviews, state.comments);
      } else {
        var id := node.id.value;
        RememberedIsListed(p, prs, ReviewNode, node, pr, state.reviews);
        var counted := state.(reviews := Remember(state.reviews, id, node, pr), count := state.count + 1);
        assert ListsReviewId(p, prs, pr, id);
        CommentPagesIsExplained(p, prs, pr, id, cutoff, cursors, 0, None, {}, counted, []);
        var comments := Comments(p, pr, id, cutoff, cursors, counted);
        if comments.Done? {
          TakeReviewsIsExplained(p, prs, nodes[1..], pr, cutoff, cursors, comments.state,
                                 taken + [ReviewTree(node, comments.value)]);
        }
      }
    }
  }

  lemma {:induction false} ReviewPagesIsExplained(p: Provider, prs: seq<Node>, pr: Id, cutoff: Time, cursors: set<Text>,
                                                  i: nat, cursor: Option<Text>, visited: set<Text>, state: State,
                                                  taken: seq<ReviewTree>)
    requires CursorsWithin(p, cursors) && visited <= cursors && IsAmong(prs, pr)
    requires IsRequested(ReviewsOf(p, pr), i) && AreFromPages(p, ReviewsOn(pr), i, cursor, visited)
    requires StateIsListed(p, prs, state)
    ensures var step := ReviewPages(p, pr, cutoff, cursors, i, cursor, visited, state, taken);
            && (step.Done? ==> StateIsListed(p, prs, step.state))
            && (step.Fail? ==> IsExplained(p, prs, step.error))
    decreases cursors - visited
  {
    hide CursorsWithin, TakeReviews, NextCursor, Continuation, HasContinuationIn, StateIsListed, IsExplained,
      AreFromPages;
    ReviewContinuation(p, pr, i, cursors);
    var responses := ReviewsOf(p, pr);
    assert responses(i) == p.reviews(pr, i);
    var accepted := Accept(p.reviews(pr, i), pr, None, cutoff);
    if accepted.Err? {
      PageIsExplained(p, prs, ReviewsOn(pr), i, cutoff);
    } else if accepted.value.Some? {
      var page := accepted.value.value;
      forall node | node in page.nodes ensures ListsReview(p, prs, pr, node) {
        assert IsNodeOf(p.reviews(pr, i), node);
      }
      TakeReviewsIsExplained(p, prs, page.nodes, pr, cutoff, cursors, state, taken);
      var scanned := TakeReviews(p, page.nodes, pr, cutoff, cursors, state, taken);
      if scanned.Done? && page.info.hasNextPage {
        CursorIsExplained(p, prs, ReviewsOn(pr), i, cursor, visited);
        var next := NextCursor(page.info, cursor, |page.nodes|, visited);
        if next.Ok? {
          ReviewPagesIsExplained(p, prs, pr, cutoff, cursors, i + 1, Some(next.value), visited + {next.value},
                                 scanned.state, scanned.value);
        }
      }
    }
  }

  // ----- the merge -----

  lemma KnownNode(p: Provider, prs: seq<Node>, kind: NodeKind, known: Owned, id: Id)
    requires KnownAreListed(p, prs, kind, known)
    ensures id in known.nodes <==> id in known.owners
    ensures id in known.nodes ==>
              known.nodes[id].id == Some(id) && Lists(p, prs, kind, known.owners[id], known.nodes[id])
  {
    hide Lists;
  }

  /** Merging one kind, while `count` counts the nodes of both. */
  lemma {:induction false} MergeOwnedIsExplained(p: Provider, prs: seq<Node>, kind: NodeKind, order: seq<Id>,
                                                 source: Owned, target: Owned, count: nat, others: Owned)
    requires KnownAreListed(p, prs, kind, source) && KnownAreListed(p, prs, kind, target)
    requires KnownAreListed(p, prs, if kind == ReviewNode then CommentNode else ReviewNode, others)
    requires count == |target.nodes| + |others.nodes| && forall id | id in order :: id in source.nodes
    ensures var merged := MergeOwned(order, source, target, count);
            && (merged.Ok? ==>
                  && KnownAreListed(p, prs, kind, merged.value.known)
                  && merged.value.count == |merged.value.known.nodes| + |others.nodes|)
            && (merged.Err? ==> IsExplained(p, prs, merged.error))
    decreases |order|
  {
    hide Lists, IsExplained, KnownAreListed;
    if order != [] {
      var id := order[0];
      assert id in order;
      KnownNode(p, prs, kind, source, id);
      KnownNode(p, prs, kind, target, id);
      var node, owner := source.nodes[id], source.owners[id];
      if id in target.owners && (target.owners[id] != owner || target.nodes[id] != node) {
        ObserveIsExplained(p, prs, kind, node, owner, target);
      } else if id in target.nodes {
        MergeOwnedIsExplained(p, prs, kind, order[1..], source, target, count, others);
      } else if count + 1 > REVIEW_AND_COMMENT_NODES {
        LimitIsExplained(p, prs, kind, node, owner, if kind == ReviewNode then target else others,
                         if kind == ReviewNode then others else target);
      } else {
        RememberedIsListed(p, prs, kind, node, owner, target);
        MergeOwnedIsExplained(p, prs, kind, order[1..], source, Remember(target, id, node, owner), count + 1, others);
      }
    }
  }

  lemma MergeIsExplained(p: Provider, prs: seq<Node>, target: State, source: State)
    requires StateIsListed(p, prs, target) && StateIsListed(p, prs, source)
    ensures var merged := Merge(target, source);
            && (merged.Ok? ==> StateIsListed(p, prs, merged.value))
            && (merged.Err? ==> IsExplained(p, prs, merged.error))
  {
    hide Lists, IsExplained, MergeOwned;
    OrderIsKnown(p, prs, ReviewNode, source.reviews);
    OrderIsKnown(p, prs, CommentNode, source.comments);
    hide KnownAreListed;
    MergeOwnedIsExplained(p, prs, ReviewNode, source.reviews.order, source.reviews, target.reviews, target.count,
                          target.comments);
    var reviews := MergeOwned(source.reviews.order, source.reviews, target.reviews, target.count);
    if reviews.Ok? {
      MergeOwnedIsExplained(p, prs, CommentNode, source.comments.order, source.comments, target.comments,
                            reviews.value.count, reviews.value.known);
    }
  }

  lemma OrderIsKnown(p: Provider, prs: seq<Node>, kind: NodeKind, known: Owned)
    requires KnownAreListed(p, prs, kind, known)
    ensures forall id | id in known.order :: id in known.nodes
  {
  }

  // ----- the whole collection -----

  lemma {:induction false} CollectIsExplained(p: Provider, all: seq<Node>, prs: seq<Node>, cutoff: Time,
                                              cursors: set<Text>, state: State, taken: seq<PullRequestTree>)
    requires CursorsWithin(p, cursors) && HaveIds(prs) && StateIsListed(p, all, state)
    requires forall pr | pr in prs :: pr in all
    ensures var r := Collect(p, prs, cutoff, cursors, state, taken); r.Err? ==> IsExplained(p, all, r.error)
    decreases |prs|
  {
    hide CursorsWithin, ReviewPages, Merge, IsExplained, StateIsListed;
    if prs != [] {
      var pr := prs[0].id.value;
      assert prs[0] in prs;
      EmptyIsListed(p, all);
      ReviewPagesIsExplained(p, all, pr, cutoff, cursors, 0, None, {}, EMPTY_STATE, []);
      var step := Reviews(p, pr, cutoff, cursors);
      if step.Discarded? {
        CollectIsExplained(p, all, prs[1..], cutoff, cursors, state, taken);
      } else if step.Done? {
        MergeIsExplained(p, all, state, step.state);
        if Merge(state, step.state).Ok? {
          CollectIsExplained(p, all, prs[1..], cutoff, cursors, Merge(state, step.state).value,
                             taken + [PullRequestTree(prs[0], step.value)]);
        }
      }
    }
  }

  lemma EmptyIsListed(p: Provider, prs: seq<Node>)
    ensures StateIsListed(p, prs, EMPTY_STATE)
  {
  }

  /**
   Nested collection fails only for a reason: a page that fails, is about something else or cannot be continued, a
   missing date or id, one id for different nodes or under different parents, or more than two thousand nodes.
   */
  lemma NestedErrorsAreJustified(p: Provider, prs: seq<Node>, cutoff: Time, cursors: set<Text>)
    requires CursorsWithin(p, cursors) && HaveIds(prs)
    ensures var r := Collect(p, prs, cutoff, cursors, EMPTY_STATE, []); r.Err? ==> IsExplained(p, prs, r.error)
  {
    hide CursorsWithin, IsExplained, Collect;
    EmptyIsListed(p, prs);
    CollectIsExplained(p, prs, prs, cutoff, cursors, EMPTY_STATE, []);
  }
}
