/** What nested collection returns is a forest within the limit, and discarded pull requests leave no trace in it. */
module CollectionProofs {
  import opened Basics
  import opened Text
  import opened Pagination
  import opened NestedCollection

  /** The insertion order lists each known node once. */
  ghost predicate WellKept(known: Owned) {
    && NoRepeats(known.order)
    && (forall id :: id in known.order <==> id in known.nodes)
    && (forall id :: id in known.order <==> id in known.owners)
  }

  lemma RememberKeeps(known: Owned, id: Id, node: Node, owner: Id)
    requires WellKept(known) && id !in known.nodes
    ensures WellKept(Remember(known, id, node, owner))
  {
    assert id !in known.order;
  }

  // ----- comments of one review -----

  function IdsOf(nodes: seq<Node>): seq<Id>
    requires HaveIds(nodes)
  {
    seq(|nodes|, i requires 0 <= i < |nodes| => nodes[i].id.value)
  }

  /** Comments were added to what was known, all under `review`, and nothing else changed. */
  ghost predicate CommentsAdded(before: State, after: State, review: Id, added: seq<Node>) {
    && HaveIds(added)
    && after.reviews == before.reviews
    && after.comments.order == before.comments.order + IdsOf(added)
    && after.count == before.count + |added|
    && (before.count <= REVIEW_AND_COMMENT_NODES ==> after.count <= REVIEW_AND_COMMENT_NODES)
    && WellKept(after.comments)
    && (forall id | id in after.comments.owners ::
          if id in before.comments.owners then after.comments.owners[id] == before.comments.owners[id]
          else after.comments.owners[id] == review)
  }

  lemma AddedNothing(state: State, review: Id)
    requires WellKept(state.comments)
    ensures CommentsAdded(state, state, review, [])
  {
    assert state.comments.order + IdsOf([]) == state.comments.order;
  }

  lemma AddedMore(a: State, b: State, c: State, review: Id, first: seq<Node>, second: seq<Node>)
    requires CommentsAdded(a, b, review, first) && CommentsAdded(b, c, review, second)
    requires WellKept(a.comments)
    ensures CommentsAdded(a, c, review, first + second)
  {
    assert IdsOf(first + second) == IdsOf(first) + IdsOf(second);
    forall id | id in c.comments.owners
      ensures if id in a.comments.owners then c.comments.owners[id] == a.comments.owners[id]
                else c.comments.owners[id] == review
    {
      if id in a.comments.owners {
        assert id in a.comments.order && id in b.comments.order && id in b.comments.owners;
      }
    }
  }

  lemma AddedOne(state: State, review: Id, node: Node)
    requires WellKept(state.comments) && node.id.Some? && node.id.value !in state.comments.nodes
    requires state.count + 1 <= REVIEW_AND_COMMENT_NODES
    ensures CommentsAdded(state,
                          state.(comments := Remember(state.comments, node.id.value, node, review),
                                 count := state.count + 1), review, [node])
  {
    RememberKeeps(state.comments, node.id.value, node, review);
    assert IdsOf([node]) == [node.id.value];
  }

  lemma {:induction false} TakeCommentsAdds(nodes: seq<Node>, review: Id, state: State, taken: seq<Node>)
    requires WellKept(state.comments)
    ensures var step := TakeComments(nodes, review, state, taken);
            step.Done? ==> taken <= step.value && CommentsAdded(state, step.state, review, step.value[|taken|..])
    decreases |nodes|
  {
    hide CommentsAdded;
    if nodes == [] {
      AddedNothing(state, review);
      assert taken[|taken|..] == [];
    } else {
      var node := nodes[0];
      var first := Observe(node, review, state.comments);
      if first == Ok(false) {
        TakeCommentsAdds(nodes[1..], review, state, taken);
      } else if first == Ok(true) && state.count + 1 <= REVIEW_AND_COMMENT_NODES && node.date.Some? {
        var state' :=
          state.(comments := Remember(state.comments, node.id.value, node, review), count := state.count + 1);
        AddedOne(state, review, node);
        RememberKeeps(state.comments, node.id.value, node, review);
        TakeCommentsAdds(nodes[1..], review, state', taken + [node]);
        var step := TakeComments(nodes[1..], review, state', taken + [node]);
        if step.Done? {
          AddedMore(state, state', step.state, review, [node], step.value[|taken| + 1..]);
          assert step.value[|taken|..] == [node] + step.value[|taken| + 1..];
        }
      }
    }
  }

  lemma KeptAfter(before: State, after: State, review: Id, added: seq<Node>)
    requires CommentsAdded(before, after, review, added)
    ensures WellKept(after.comments)
  {
  }

  lemma {:induction false} CommentPagesAdd(p: Provider, pr: Id, review: Id, cutoff: Time, cursors: set<Text>, i: nat,
                                           cursor: Option<Text>, visited: set<Text>, state: State, taken: seq<Node>)
    requires CursorsWithin(p, cursors) && visited <= cursors && WellKept(state.comments)
    ensures var step := CommentPages(p, pr, review, cutoff, cursors, i, cursor, visited, state, taken);
            step.Done? ==> taken <= step.value && CommentsAdded(state, step.state, review, step.value[|taken|..])
    decreases cursors - visited
  {
    hide CommentsAdded, CursorsWithin, TakeComments, Accept, WellKept, NextCursor, Continuation, HasContinuationIn;
    CommentContinuation(p, pr, review, i, cursors);
    var accepted := Accept(p.comments(pr, review, i), review, Some(pr), cutoff);
    if accepted.Ok? && accepted.value.Some? {
      var page := accepted.value.value;
      TakeCommentsAdds(page.nodes, review, state, taken);
      var scanned := TakeComments(page.nodes, review, state, taken);
      if scanned.Done? && page.info.hasNextPage {
        KeptAfter(state, scanned.state, review, scanned.value[|taken|..]);
        var next := NextCursor(page.info, cursor, |page.nodes|, visited);
        if next.Ok? {
          CommentPagesAdd(p, pr, review, cutoff, cursors, i + 1, Some(next.value), visited + {next.value},
                          scanned.state, scanned.value);
          var rest := CommentPages(p, pr, review, cutoff, cursors, i + 1, Some(next.value), visited + {next.value},
                                   scanned.state, scanned.value);
          if rest.Done? {
            AddedTwice(state, scanned.state, rest.state, review, taken, scanned.value, rest.value);
          }
        }
      }
    }
  }

  lemma AddedTwice(a: State, b: State, c: State, review: Id, taken: seq<Node>, some: seq<Node>, all: seq<Node>)
    requires WellKept(a.comments) && taken <= some <= all
    requires CommentsAdded(a, b, review, some[|taken|..]) && CommentsAdded(b, c, review, all[|some|..])
    ensures CommentsAdded(a, c, review, all[|taken|..])
  {
    hide CommentsAdded, WellKept;
    AddedMore(a, b, c, review, some[|taken|..], all[|some|..]);
    assert all[|taken|..] == some[|taken|..] + all[|some|..];
  }

  // ----- reviews of one pull request -----

  function CommentIds(reviews: seq<ReviewTree>): seq<Id>
    requires TreesHaveIds(reviews)
  {
    if reviews == [] then [] else CommentIds(reviews[..|reviews| - 1]) + IdsOf(reviews[|reviews| - 1].comments)
  }

  predicate TreesHaveIds(reviews: seq<ReviewTree>) {
    forall i | 0 <= i < |reviews| :: reviews[i].review.id.Some? && HaveIds(reviews[i].comments)
  }

  function ReviewIds(reviews: seq<ReviewTree>): seq<Id>
    requires TreesHaveIds(reviews)
  {
    seq(|reviews|, i requires 0 <= i < |reviews| => reviews[i].review.id.value)
  }

  /**
   The state knows exactly the nodes of these reviews of `pr`, in order, each once; comments belong to known reviews.
   */
  ghost predicate Holds(state: State, pr: Id, reviews: seq<ReviewTree>) {
    && TreesHaveIds(reviews)
    && state.reviews.order == ReviewIds(reviews) && state.comments.order == CommentIds(reviews)
    && WellKept(state.reviews) && WellKept(state.comments)
    && state.count == |state.reviews.order| + |state.comments.order| <= REVIEW_AND_COMMENT_NODES
    && (forall r | r in state.reviews.owners :: state.reviews.owners[r] == pr)
    && (forall c | c in state.comments.owners :: state.comments.owners[c] in state.reviews.nodes)
  }

  lemma OneMoreTree(reviews: seq<ReviewTree>, node: Node, comments: seq<Node>)
    requires TreesHaveIds(reviews) && node.id.Some? && HaveIds(comments)
    ensures var all := reviews + [ReviewTree(node, comments)];
            && TreesHaveIds(all)
            && ReviewIds(all) == ReviewIds(reviews) + [node.id.value]
            && CommentIds(all) == CommentIds(reviews) + IdsOf(comments)
  {
    hide IdsOf, HaveIds;
    var all := reviews + [ReviewTree(node, comments)];
    assert all[..|all| - 1] == reviews;
    assert forall i | 0 <= i < |reviews| :: all[i] == reviews[i];
  }

  lemma OneMoreReview(state: State, after: State, pr: Id, reviews: seq<ReviewTree>, node: Node, comments: seq<Node>)
    requires Holds(state, pr, reviews) && node.id.Some? && node.id.value !in state.reviews.nodes
    requires state.count + 1 <= REVIEW_AND_COMMENT_NODES
    requires var counted :=
               state.(reviews := Remember(state.reviews, node.id.value, node, pr), count := state.count + 1);
             CommentsAdded(counted, after, node.id.value, comments)
    ensures Holds(after, pr, reviews + [ReviewTree(node, comments)])
  {
    hide WellKept, ReviewIds, CommentIds, TreesHaveIds, HaveIds;
    RememberKeeps(state.reviews, node.id.value, node, pr);
    OneMoreTree(reviews, node, comments);
  }

  lemma {:induction false} TakeReviewsHolds(p: Provider, nodes: seq<Node>, pr: Id, cutoff: Time, cursors: set<Text>,
                                            state: State, taken: seq<ReviewTree>)
    requires CursorsWithin(p, cursors) && Holds(state, pr, taken)
    ensures var step := TakeReviews(p, nodes, pr, cutoff, cursors, state, taken);
            step.Done? ==> Holds(step.state, pr, step.value)
    decreases |nodes|
  {
    hide Holds, CursorsWithin, CommentPages, CommentsAdded, WellKept;
    if nodes != [] {
      var node := nodes[0];
      var first := Observe(node, pr, state.reviews);
      if first == Ok(false) {
        TakeReviewsHolds(p, nodes[1..], pr, cutoff, cursors, state, taken);
      } else if first == Ok(true) && state.count + 1 <= REVIEW_AND_COMMENT_NODES {
        var id := node.id.value;
        var counted := state.(reviews := Remember(state.reviews, id, node, pr), count := state.count + 1);
        CommentsKept(state, pr, taken);
        CommentPagesAdd(p, pr, id, cutoff, cursors, 0, None, {}, counted, []);
        var comments := Comments(p, pr, id, cutoff, cursors, counted);
        if comments.Done? {
          assert comments.value[0..] == comments.value;
          OneMoreReview(state, comments.state, pr, taken, node, comments.value);
          TakeReviewsHolds(p, nodes[1..], pr, cutoff, cursors, comments.state,
                           taken + [ReviewTree(node, comments.value)]);
        }
      }
    }
  }

  lemma CommentsKept(state: State, pr: Id, reviews: seq<ReviewTree>)
    requires Holds(state, pr, reviews)
    ensures WellKept(state.comments)
  {
  }

  lemma {:induction false} ReviewPagesHold(p: Provider, pr: Id, cutoff: Time, cursors: set<Text>, i: nat,
                                           cursor: Option<Text>, visited: set<Text>, state: State,
                                           taken: seq<ReviewTree>)
    requires CursorsWithin(p, cursors) && visited <= cursors && Holds(state, pr, taken)
    ensures var step := ReviewPages(p, pr, cutoff, cursors, i, cursor, visited, state, taken);
            step.Done? ==> Holds(step.state, pr, step.value)
    decreases cursors - visited
  {
    hide Holds, CursorsWithin, TakeReviews, Accept, NextCursor, Continuation, HasContinuationIn;
    ReviewContinuation(p, pr, i, cursors);
    var accepted := Accept(p.reviews(pr, i), pr, None, cutoff);
    if accepted.Ok? && accepted.value.Some? {
      var page := accepted.value.value;
      TakeReviewsHolds(p, page.nodes, pr, cutoff, cursors, state, taken);
      var scanned := TakeReviews(p, page.nodes, pr, cutoff, cursors, state, taken);
      if scanned.Done? && page.info.hasNextPage {
        var next := NextCursor(page.info, cursor, |page.nodes|, visited);
        if next.Ok? {
          ReviewPagesHold(p, pr, cutoff, cursors, i + 1, Some(next.value), visited + {next.value}, scanned.state,
                          scanned.value);
        }
      }
    }
  }

  lemma ReviewsHold(p: Provider, pr: Id, cutoff: Time, cursors: set<Text>)
    requires CursorsWithin(p, cursors)
    ensures var step := Reviews(p, pr, cutoff, cursors); step.Done? ==> Holds(step.state, pr, step.value)
  {
    assert Holds(EMPTY_STATE, pr, []);
    hide Holds, CursorsWithin;
    ReviewPagesHold(p, pr, cutoff, cursors, 0, None, {}, EMPTY_STATE, []);
  }

  // ----- merging -----

  /** Any node known to both sides has different parents there. */
  ghost predicate ParentsDiffer(order: seq<Id>, source: Owned, target: Owned) {
    forall id | id in order && id in source.owners && id in target.owners :: source.owners[id] != target.owners[id]
  }

  /** The merge put the listed nodes, with their parents, after everything known before. */
  ghost predicate Appended(order: seq<Id>, source: Owned, target: Owned, count: nat, merged: Merged) {
    && merged.known.order == target.order + order && merged.count == count + |order|
    && (count <= REVIEW_AND_COMMENT_NODES ==> merged.count <= REVIEW_AND_COMMENT_NODES)
    && WellKept(merged.known)
    && (forall id | id in merged.known.owners ::
          if id in target.owners then merged.known.owners[id] == target.owners[id]
          else id in source.owners && merged.known.owners[id] == source.owners[id])
    && (forall id | id in order :: id !in target.nodes)
  }

  lemma AppendedFirst(order: seq<Id>, source: Owned, target: Owned, count: nat, merged: Merged)
    requires order != [] && order[0] in source.nodes && order[0] in source.owners && order[0] !in target.nodes
    requires order[0] !in target.owners
    requires count + 1 <= REVIEW_AND_COMMENT_NODES
    requires Appended(order[1..], source, Remember(target, order[0], source.nodes[order[0]], source.owners[order[0]]),
                      count + 1, merged)
    ensures Appended(order, source, target, count, merged)
  {
    hide WellKept;
    assert target.order + order == (target.order + [order[0]]) + order[1..];
    forall other | other in order ensures other !in target.nodes {
      assert other == order[0] || other in order[1..];
    }
  }

  /** A merge that succeeds although shared nodes would have different parents has met no shared node. */
  lemma {:induction false} MergedAppends(order: seq<Id>, source: Owned, target: Owned, count: nat)
    requires NoRepeats(order) && WellKept(source) && WellKept(target) && ParentsDiffer(order, source, target)
    requires (forall id | id in order :: id in source.nodes) && MergeOwned(order, source, target, count).Ok?
    ensures Appended(order, source, target, count, MergeOwned(order, source, target, count).value)
    decreases |order|
  {
    hide Appended, WellKept, NoRepeats;
    if order == [] {
      AppendedNothing(source, target, count);
    } else {
      var id := order[0];
      FirstIsNew(order, source, target);
      var next := Remember(target, id, source.nodes[id], source.owners[id]);
      RememberKeeps(target, id, source.nodes[id], source.owners[id]);
      RestOf(order);
      MergedAppends(order[1..], source, next, count + 1);
      AppendedFirst(order, source, target, count, MergeOwned(order, source, target, count).value);
    }
  }

  lemma AppendedNothing(source: Owned, target: Owned, count: nat)
    requires WellKept(target)
    ensures Appended([], source, target, count, Merged(target, count))
  {
    hide WellKept;
    assert target.order + [] == target.order;
  }

  /** Of the first node, either the parents clash, or it is known to the target not at all. */
  lemma FirstIsNew(order: seq<Id>, source: Owned, target: Owned)
    requires order != [] && WellKept(source) && WellKept(target) && ParentsDiffer(order, source, target)
    requires order[0] in source.nodes
    ensures order[0] in source.owners
    ensures order[0] in target.nodes <==> order[0] in target.owners
    ensures order[0] in target.owners ==> target.owners[order[0]] != source.owners[order[0]]
  {
    hide NoRepeats;
    assert order[0] in order;
  }

  lemma RestOf(order: seq<Id>)
    requires order != [] && NoRepeats(order)
    ensures NoRepeats(order[1..]) && order[0] !in order[1..] && forall id | id in order[1..] :: id in order
  {
    assert forall i | 0 <= i < |order| - 1 :: order[1..][i] == order[i + 1];
  }

  // ----- all pull requests -----

  function AllReviewIds(trees: seq<PullRequestTree>): seq<Id>
    requires AllHaveIds(trees)
  {
    if trees == [] then [] else AllReviewIds(trees[..|trees| - 1]) + ReviewIds(trees[|trees| - 1].reviews)
  }

  function AllCommentIds(trees: seq<PullRequestTree>): seq<Id>
    requires AllHaveIds(trees)
  {
    if trees == [] then [] else AllCommentIds(trees[..|trees| - 1]) + CommentIds(trees[|trees| - 1].reviews)
  }

  predicate AllHaveIds(trees: seq<PullRequestTree>) {
    forall i | 0 <= i < |trees| :: trees[i].pullRequest.id.Some? && TreesHaveIds(trees[i].reviews)
  }

  predicate IsCollected(trees: seq<PullRequestTree>, pr: Id)
    requires AllHaveIds(trees)
  {
    exists i | 0 <= i < |trees| :: trees[i].pullRequest.id.value == pr
  }

  /**
   The final state is exactly that of the returned trees: the order lists their reviews and their comments, each once,
   under one parent each, and the count is their number, within the limit.
   */
  ghost predicate IsForest(state: State, trees: seq<PullRequestTree>) {
    && AllHaveIds(trees)
    && state.reviews.order == AllReviewIds(trees) && state.comments.order == AllCommentIds(trees)
    && WellKept(state.reviews) && WellKept(state.comments)
    && state.count == |AllReviewIds(trees)| + |AllCommentIds(trees)| <= REVIEW_AND_COMMENT_NODES
    && (forall r | r in state.reviews.owners :: IsCollected(trees, state.reviews.owners[r]))
    && (forall c | c in state.comments.owners :: state.comments.owners[c] in state.reviews.nodes)
  }

  lemma MergeReviewPart(state: State, trees: seq<PullRequestTree>, pr: Node, provisional: State,
                        reviews: seq<ReviewTree>)
    requires IsForest(state, trees) && pr.id.Some? && !IsCollected(trees, pr.id.value)
    requires Holds(provisional, pr.id.value, reviews)
    requires MergeOwned(provisional.reviews.order, provisional.reviews, state.reviews, state.count).Ok?
    ensures var merged := MergeOwned(provisional.reviews.order, provisional.reviews, state.reviews, state.count).value;
            && merged.known.order == state.reviews.order + provisional.reviews.order
            && merged.count == state.count + |provisional.reviews.order| <= REVIEW_AND_COMMENT_NODES
            && WellKept(merged.known)
            && (forall r | r in merged.known.owners ::
                  if r in state.reviews.owners then merged.known.owners[r] == state.reviews.owners[r]
                    else merged.known.owners[r] == pr.id.value)
            && (forall r | r in provisional.reviews.order :: r !in state.reviews.nodes)
  {
    hide AllReviewIds, AllCommentIds, ReviewIds, CommentIds;
    forall r | r in provisional.reviews.order && r in provisional.reviews.owners && r in state.reviews.owners
      ensures provisional.reviews.owners[r] != state.reviews.owners[r]
    {
      assert IsCollected(trees, state.reviews.owners[r]);
    }
    MergedAppends(provisional.reviews.order, provisional.reviews, state.reviews, state.count);
  }

  lemma MergeCommentPart(state: State, trees: seq<PullRequestTree>, pr: Id, provisional: State,
                         reviews: seq<ReviewTree>, count: nat)
    requires IsForest(state, trees) && Holds(provisional, pr, reviews) && count <= REVIEW_AND_COMMENT_NODES
    requires forall r | r in provisional.reviews.order :: r !in state.reviews.nodes
    requires MergeOwned(provisional.comments.order, provisional.comments, state.comments, count).Ok?
    ensures var merged := MergeOwned(provisional.comments.order, provisional.comments, state.comments, count).value;
            && merged.known.order == state.comments.order + provisional.comments.order
            && merged.count == count + |provisional.comments.order| <= REVIEW_AND_COMMENT_NODES
            && WellKept(merged.known)
            && (forall c | c in merged.known.owners ::
                  merged.known.owners[c] in state.reviews.nodes || merged.known.owners[c] in provisional.reviews.nodes)
  {
    hide AllReviewIds, AllCommentIds, ReviewIds, CommentIds;
    forall c | c in provisional.comments.order && c in provisional.comments.owners && c in state.comments.owners
      ensures provisional.comments.owners[c] != state.comments.owners[c]
    {
      assert provisional.comments.owners[c] in provisional.reviews.order;
    }
    MergedAppends(provisional.comments.order, provisional.comments, state.comments, count);
  }

  lemma OrdersGrow(trees: seq<PullRequestTree>, tree: PullRequestTree)
    requires AllHaveIds(trees) && tree.pullRequest.id.Some? && TreesHaveIds(tree.reviews)
    ensures AllHaveIds(trees + [tree])
    ensures AllReviewIds(trees + [tree]) == AllReviewIds(trees) + ReviewIds(tree.reviews)
    ensures AllCommentIds(trees + [tree]) == AllCommentIds(trees) + CommentIds(tree.reviews)
  {
    hide ReviewIds, CommentIds;
    assert (trees + [tree])[..|trees|] == trees;
  }

  lemma OwnersAreCollected(before: Owned, after: Owned, trees: seq<PullRequestTree>, tree: PullRequestTree)
    requires AllHaveIds(trees) && AllHaveIds(trees + [tree]) && tree.pullRequest.id.Some?
    requires forall r | r in before.owners :: IsCollected(trees, before.owners[r])
    requires forall r | r in after.owners ::
               if r in before.owners then after.owners[r] == before.owners[r]
                 else after.owners[r] == tree.pullRequest.id.value
    ensures forall r | r in after.owners :: IsCollected(trees + [tree], after.owners[r])
  {
    hide TreesHaveIds;
    var all := trees + [tree];
    forall r | r in after.owners ensures IsCollected(all, after.owners[r]) {
      assert all[|trees|] == tree;
      if r in before.owners {
        var i :| 0 <= i < |trees| && trees[i].pullRequest.id.value == before.owners[r];
        assert all[i] == trees[i];
      }
    }
  }

  lemma MergeGrowsForest(state: State, trees: seq<PullRequestTree>, pr: Node, provisional: State,
                         reviews: seq<ReviewTree>)
    requires IsForest(state, trees) && pr.id.Some? && !IsCollected(trees, pr.id.value)
    requires Holds(provisional, pr.id.value, reviews)
    requires Merge(state, provisional).Ok?
    ensures IsForest(Merge(state, provisional).value, trees + [PullRequestTree(pr, reviews)])
  {
    hide WellKept, MergeOwned, ReviewIds, CommentIds, AllReviewIds, AllCommentIds, IsCollected, TreesHaveIds,
      AllHaveIds;
    var tree := PullRequestTree(pr, reviews);
    MergeReviewPart(state, trees, pr, provisional, reviews);
    var merged := MergeOwned(provisional.reviews.order, provisional.reviews, state.reviews, state.count).value;
    MergeCommentPart(state, trees, pr.id.value, provisional, reviews, merged.count);
    OrdersGrow(trees, tree);
    OwnersAreCollected(state.reviews, merged.known, trees, tree);
    KnownAfterMerge(state, provisional, merged, Merge(state, provisional).value, pr.id.value, trees, reviews);
  }

  lemma KnownAfterMerge(state: State, provisional: State, merged: Merged, after: State, pr: Id,
                        trees: seq<PullRequestTree>, reviews: seq<ReviewTree>)
    requires WellKept(state.reviews) && WellKept(provisional.reviews) && WellKept(merged.known)
    requires after.reviews == merged.known
    requires merged.known.order == state.reviews.order + provisional.reviews.order
    requires forall c | c in after.comments.owners ::
               after.comments.owners[c] in state.reviews.nodes || after.comments.owners[c] in provisional.reviews.nodes
    ensures forall c | c in after.comments.owners :: after.comments.owners[c] in after.reviews.nodes
  {
  }

  predicate DistinctPullRequests(prs: seq<Node>) {
    HaveIds(prs) && forall i, k | 0 <= i < k < |prs| :: prs[i].id != prs[k].id
  }

  predicate NoneCollected(trees: seq<PullRequestTree>, prs: seq<Node>)
    requires AllHaveIds(trees) && HaveIds(prs)
  {
    forall i | 0 <= i < |prs| :: !IsCollected(trees, prs[i].id.value)
  }

  lemma {:induction false} CollectGrowsForest(p: Provider, prs: seq<Node>, cutoff: Time, cursors: set<Text>,
                                              state: State, taken: seq<PullRequestTree>)
    requires CursorsWithin(p, cursors) && DistinctPullRequests(prs) && IsForest(state, taken)
    requires NoneCollected(taken, prs)
    ensures var r := Collect(p, prs, cutoff, cursors, state, taken); r.Ok? ==> IsForest(r.value.state, r.value.trees)
    decreases |prs|
  {
    hide IsForest, CursorsWithin, Reviews, Merge, Holds, AllHaveIds, IsCollected;
    if prs != [] {
      ForestHasIds(state, taken);
      var step := Reviews(p, prs[0].id.value, cutoff, cursors);
      assert forall i | 0 <= i < |prs[1..]| :: prs[1..][i] == prs[i + 1];
      if step.Discarded? {
        CollectGrowsForest(p, prs[1..], cutoff, cursors, state, taken);
      } else if step.Done? {
        ReviewsHold(p, prs[0].id.value, cutoff, cursors);
        var merged := Merge(state, step.state);
        if merged.Ok? {
          var tree := PullRequestTree(prs[0], step.value);
          MergeGrowsForest(state, taken, prs[0], step.state, step.value);
          ForestHasIds(merged.value, taken + [tree]);
          forall i | 0 <= i < |prs[1..]| ensures !IsCollected(taken + [tree], prs[1..][i].id.value) {
            StillUncollected(taken, tree, prs[1..][i].id.value);
          }
          CollectGrowsForest(p, prs[1..], cutoff, cursors, merged.value, taken + [tree]);
        }
      }
    }
  }

  lemma ForestHasIds(state: State, trees: seq<PullRequestTree>)
    requires IsForest(state, trees)
    ensures AllHaveIds(trees)
  {
  }

  lemma StillUncollected(trees: seq<PullRequestTree>, tree: PullRequestTree, pr: Id)
    requires AllHaveIds(trees) && AllHaveIds(trees + [tree])
    requires !IsCollected(trees, pr) && (trees + [tree])[|trees|].pullRequest.id.value != pr
    ensures !IsCollected(trees + [tree], pr)
  {
    assert forall i | 0 <= i < |trees| :: (trees + [tree])[i] == trees[i];
  }

  /**
   Whatever the provider answers, what is returned is a forest: every review and every comment once, each under one
   parent, and together as many as were counted, at most two thousand.
   */
  lemma NestedCollectionIsAForest(p: Provider, prs: seq<Node>, cutoff: Time, cursors: set<Text>)
    requires CursorsWithin(p, cursors) && DistinctPullRequests(prs)
    requires Collect(p, prs, cutoff, cursors, EMPTY_STATE, []).Ok?
    ensures var collected := Collect(p, prs, cutoff, cursors, EMPTY_STATE, []).value;
            && IsForest(collected.state, collected.trees)
            && NoRepeats(AllReviewIds(collected.trees)) && NoRepeats(AllCommentIds(collected.trees))
            && |AllReviewIds(collected.trees)| + |AllCommentIds(collected.trees)| ==
                 collected.state.count <= 2_000
  {
    assert IsForest(EMPTY_STATE, []);
    hide CursorsWithin, Collect;
    CollectGrowsForest(p, prs, cutoff, cursors, EMPTY_STATE, []);
  }

  // ----- discarded pull requests -----

  /** The pull requests whose reviews are not discarded. */
  ghost function Undiscarded(p: Provider, prs: seq<Node>, cutoff: Time, cursors: set<Text>): (kept: seq<Node>)
    requires CursorsWithin(p, cursors) && HaveIds(prs)
    ensures HaveIds(kept)
  {
    if prs == [] then []
    else
      var first := if Reviews(p, prs[0].id.value, cutoff, cursors).Discarded? then [] else [prs[0]];
      first + Undiscarded(p, prs[1..], cutoff, cursors)
  }

  /** A discarded pull request leaves no trace: the result, or the error, is that of collecting only the others. */
  lemma {:induction false} DiscardedLeaveNoTrace(p: Provider, prs: seq<Node>, cutoff: Time, cursors: set<Text>,
                                                 state: State, taken: seq<PullRequestTree>)
    requires CursorsWithin(p, cursors) && HaveIds(prs)
    ensures Collect(p, prs, cutoff, cursors, state, taken) ==
              Collect(p, Undiscarded(p, prs, cutoff, cursors), cutoff, cursors, state, taken)
    decreases |prs|
  {
    hide CursorsWithin, Reviews, Merge;
    if prs != [] {
      var step := Reviews(p, prs[0].id.value, cutoff, cursors);
      var kept := Undiscarded(p, prs, cutoff, cursors);
      if step.Discarded? {
        assert kept == Undiscarded(p, prs[1..], cutoff, cursors);
        DiscardedLeaveNoTrace(p, prs[1..], cutoff, cursors, state, taken);
      } else {
        assert kept[0] == prs[0] && kept[1..] == Undiscarded(p, prs[1..], cutoff, cursors);
        if step.Done? && Merge(state, step.state).Ok? {
          DiscardedLeaveNoTrace(p, prs[1..], cutoff, cursors, Merge(state, step.state).value,
                                taken + [PullRequestTree(prs[0], step.value)]);
        }
      }
    }
  }
}
