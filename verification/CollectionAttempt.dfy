/** collectAttempt: the listing of pull requests and what is nested in them, together. */
module CollectionAttempt {
  import opened Basics
  import opened Text
  import opened Pagination
  import opened NestedCollection
  import opened CollectionProofs
  import opened CollectionCompleteness
  import opened CollectionErrors
  import Listing = PullRequestCollection

  lemma {:induction false} SelectedAreObserved(nodes: seq<Node>, source: Option<Time>, cutoff: Time)
    ensures forall x | x in Listing.Selected(nodes, source, cutoff) :: x in nodes
  {
    if nodes != [] {
      SelectedAreObserved(nodes[..|nodes| - 1], source, cutoff);
    }
  }

  /** Collected pull requests are pairwise different, so each is read for reviews once. */
  lemma CollectedPullRequestsAreDistinct(responses: nat -> Listing.Response, source: Option<Time>, cutoff: Time,
                                         prs: seq<Node>, requests: nat, observed: seq<Node>, cut: bool)
    requires Listing.Outcome(responses, source, cutoff, Ok(prs), requests, observed, cut)
    ensures DistinctPullRequests(prs) && |prs| <= 100
    ensures forall x | x in prs :: Listing.InWindow(x, source, cutoff)
  {
    hide Listing.Selected, Listing.InWindow;
    Listing.SelectedDistinct(observed, source, cutoff);
    SelectedAreObserved(observed, source, cutoff);
    forall i | 0 <= i < |prs| ensures prs[i].id.Some? {
      assert prs[i] in prs;
    }
  }

  /**
   What one attempt promises: `prs` is what the listing selected, `trees` what is returned, `state` what was counted.
   */
  ghost predicate AttemptOk(p: Provider, prs: seq<Node>, cutoff: Time, cursors: set<Text>, trees: seq<PullRequestTree>,
                            state: State)
    requires CursorsWithin(p, cursors)
  {
    && DistinctPullRequests(prs) && |prs| <= 100
    && PullRequestsOf(trees) == Kept(p, prs, cutoff) && TreesAreWhole(p, cutoff, trees)
    && IsForest(state, trees) && NoRepeats(AllReviewIds(trees)) && NoRepeats(AllCommentIds(trees))
    && state.count == |AllReviewIds(trees)| + |AllCommentIds(trees)| <= 2_000
    && Collect(p, Kept(p, prs, cutoff), cutoff, cursors, EMPTY_STATE, []) == Ok(Collected(trees, state))
  }

  lemma AttemptIsOk(p: Provider, prs: seq<Node>, cutoff: Time, cursors: set<Text>)
    requires CursorsWithin(p, cursors) && DistinctPullRequests(prs) && |prs| <= 100
    requires Collect(p, prs, cutoff, cursors, EMPTY_STATE, []).Ok?
    ensures var collected := Collect(p, prs, cutoff, cursors, EMPTY_STATE, []).value;
            AttemptOk(p, prs, cutoff, cursors, collected.trees, collected.state)
  {
    hide Collect, CursorsWithin, IsForest, NoRepeats, AllReviewIds, AllCommentIds, Undiscarded, Kept, IsWhole;
    NestedCollectionIsAForest(p, prs, cutoff, cursors);
    CollectComplete(p, prs, cutoff, cursors, EMPTY_STATE, []);
    DiscardedLeaveNoTrace(p, prs, cutoff, cursors, EMPTY_STATE, []);
    assert PullRequestsOf([]) + Kept(p, prs, cutoff) == Kept(p, prs, cutoff);
  }

  /**
   collectAttempt. `prs` is what the listing of pull requests came to: the first occurrences in the window, at most a
   hundred. The result has those of them that did not move past the cutoff while they were read, in order, each with all
   the reviews and comments that are listed for it, once each and under one parent; the others leave no trace. An error
   is that of the listing, or has its reason in what the provider answered.
   */
  method CollectAttempt(responses: nat -> Listing.Response, p: Provider, source: Option<Time>, cutoff: Time,
                        ghost cursors: set<Text>)
    returns (r: Result<seq<PullRequestTree>>, state: CollectionState, ghost prs: Result<seq<Node>>, ghost requests: nat,
             ghost observed: seq<Node>, ghost cut: bool)
    requires Listing.CursorsWithin(responses, cursors) && CursorsWithin(p, cursors)
    ensures fresh(state)
    ensures Listing.Outcome(responses, source, cutoff, prs, requests, observed, cut)
    ensures prs.Ok? ==> HaveIds(prs.value) && forall x | x in prs.value :: Listing.InWindow(x, source, cutoff)
    ensures r.Ok? ==> prs.Ok? && AttemptOk(p, prs.value, cutoff, cursors, r.value, state.Value())
    ensures r.Err? <==> prs.Err? || Collect(p, prs.value, cutoff, cursors, EMPTY_STATE, []).Err?
    ensures r.Err? && prs.Err? ==> r.error == prs.error
    ensures r.Err? && prs.Ok? ==> IsExplained(p, prs.value, r.error)
  {
    hide Collect, CursorsWithin, Listing.CursorsWithin, Listing.Outcome, Listing.InWindow, AttemptOk, IsExplained;
    var listed: Result<seq<Node>>;
    var sent: nat;
    listed, sent, observed, cut := Listing.CollectPullRequests(responses, source, cutoff, cursors);
    prs, requests := listed, sent;
    if listed.Err? {
      state := new CollectionState();
      r := Err(listed.error);
      return;
    }
    CollectedPullRequestsAreDistinct(responses, source, cutoff, listed.value, requests, observed, cut);
    r, state := CollectNested(p, listed.value, cutoff, cursors);
    if r.Ok? {
      AttemptIsOk(p, listed.value, cutoff, cursors);
    } else {
      NestedErrorsAreJustified(p, listed.value, cutoff, cursors);
    }
  }
}
