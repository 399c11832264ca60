/** collectPullRequests: the listing of changed pull requests, newest first, read until the last synchronization. */
module PullRequestCollection {
  import opened Basics
  import opened Text
  import opened Pagination

  const CHANGED_PULL_REQUESTS: nat := 100

  /**
   The answer to one request. Failed: the request or the heartbeat after it threw. Malformed: no usable connection.
   */
  datatype Response = Failed | Malformed | Page(nodes: seq<Node>, info: PageInfo)

  // ----- what is to be collected -----

  predicate InWindow(node: Node, source: Option<Time>, cutoff: Time) {
    node.date.Some? && (source.Some? ==> source.value < node.date.value) && node.date.value <= cutoff
  }

  predicate IsKnown(nodes: seq<Node>, id: Option<Id>) {
    exists i | 0 <= i < |nodes| :: nodes[i].id == id
  }

  /** The nodes of the window, each id at its first occurrence only, in order. */
  function Selected(nodes: seq<Node>, source: Option<Time>, cutoff: Time): seq<Node> {
    if nodes == [] then []
    else
      var before := nodes[..|nodes| - 1];
      var last := nodes[|nodes| - 1];
      Selected(before, source, cutoff)
        + (if !IsKnown(before, last.id) && InWindow(last, source, cutoff) then [last] else [])
  }

  /** Selection is exactly: updated after the source and by the cutoff, and the first node under its id. */
  lemma {:induction false} SelectedMeans(nodes: seq<Node>, source: Option<Time>, cutoff: Time, x: Node)
    ensures x in Selected(nodes, source, cutoff) <==>
            && x.date.Some? && x.date.value <= cutoff && (source.None? || x.date.value > source.value)
            && exists i :: 0 <= i < |nodes| && nodes[i] == x && !IsKnown(nodes[..i], x.id)
  {
    if nodes != [] {
      var n := |nodes| - 1;
      var before := nodes[..n];
      SelectedMeans(before, source, cutoff, x);
      forall i | 0 <= i < n ensures before[..i] == nodes[..i] && before[i] == nodes[i] {
      }
      if exists i :: 0 <= i < |before| && before[i] == x && !IsKnown(before[..i], x.id) {
        var i :| 0 <= i < |before| && before[i] == x && !IsKnown(before[..i], x.id);
        assert nodes[i] == x && !IsKnown(nodes[..i], x.id);
      }
      if exists i :: 0 <= i < |nodes| && nodes[i] == x && !IsKnown(nodes[..i], x.id) {
        var i :| 0 <= i < |nodes| && nodes[i] == x && !IsKnown(nodes[..i], x.id);
        assert i < n ==> before[i] == x && !IsKnown(before[..i], x.id);
      }
    }
  }

  predicate DistinctIds(nodes: seq<Node>) {
    forall i, k | 0 <= i < k < |nodes| :: nodes[i].id != nodes[k].id
  }

  lemma {:induction false} SelectedDistinct(nodes: seq<Node>, source: Option<Time>, cutoff: Time)
    ensures DistinctIds(Selected(nodes, source, cutoff))
    ensures forall x | x in Selected(nodes, source, cutoff) :: InWindow(x, source, cutoff) && IsKnown(nodes, x.id)
  {
    if nodes != [] {
      SelectedDistinct(nodes[..|nodes| - 1], source, cutoff);
    }
  }

  /** More nodes never take anything away from the selection. */
  lemma {:induction false} SelectedGrows(nodes: seq<Node>, more: seq<Node>, source: Option<Time>, cutoff: Time)
    ensures Selected(nodes, source, cutoff) <= Selected(nodes + more, source, cutoff)
    decreases |more|
  {
    if more == [] {
      assert nodes + more == nodes;
    } else {
      var all := nodes + more;
      assert all[..|all| - 1] == nodes + more[..|more| - 1];
      SelectedGrows(nodes, more[..|more| - 1], source, cutoff);
    }
  }

  /** Nodes outside the window add nothing. */
  lemma {:induction false} OutsideAddsNothing(nodes: seq<Node>, more: seq<Node>, source: Option<Time>, cutoff: Time)
    requires forall x | x in more :: !InWindow(x, source, cutoff)
    ensures Selected(nodes + more, source, cutoff) == Selected(nodes, source, cutoff)
    decreases |more|
  {
    if more == [] {
      assert nodes + more == nodes;
    } else {
      var all := nodes + more;
      assert all[..|all| - 1] == nodes + more[..|more| - 1];
      OutsideAddsNothing(nodes, more[..|more| - 1], source, cutoff);
    }
  }

  // ----- the loop -----

  /** Every cursor that any response can continue with is one of `cursors`. */
  ghost predicate CursorsWithin(responses: nat -> Response, cursors: set<Text>) {
    forall n: nat :: responses(n).Page? ==> Continuation(responses(n).info) in cursors
  }

  /** The nodes of the first `count` responses. */
  function Flatten(responses: nat -> Response, count: nat): seq<Node> {
    if count == 0 then []
    else Flatten(responses, count - 1) + (if responses(count - 1).Page? then responses(count - 1).nodes else [])
  }

  ghost predicate Seen(seen: map<Id, Node>, observed: seq<Node>) {
    && (forall i | 0 <= i < |observed| ::
        observed[i].id.Some? && observed[i].id.value in seen && seen[observed[i].id.value] == observed[i])
    && (forall id | id in seen :: IsKnown(observed, Some(id)))
  }

  /** How the loop over one page's nodes ends. */
  datatype Scan = ReadAll | ReachedSource

  /**
   The loop over the nodes of one page. `observed` gains the nodes it went through; the one that ends the loop early, at
   or before the last synchronization, is not among them.
   */
  method ScanPage(nodes: seq<Node>, source: Option<Time>, cutoff: Time, seen: map<Id, Node>, collected: seq<Node>,
                  ghost observed: seq<Node>)
    returns (r: Result<Scan>, seen': map<Id, Node>, collected': seq<Node>, ghost read: nat)
    requires Seen(seen, observed) && collected == Selected(observed, source, cutoff)
    requires |collected| <= CHANGED_PULL_REQUESTS
    ensures read <= |nodes|
    ensures r.Ok? ==> forall x | x in nodes[..read] :: x.date.Some?
    ensures r.Ok? ==>
              Seen(seen', observed + nodes[..read]) &&
                collected' == Selected(observed + nodes[..read], source, cutoff) &&
              |collected'| <= CHANGED_PULL_REQUESTS
    ensures r == Ok(ReadAll) ==> read == |nodes| && forall x | x in nodes ::
              x.date.Some? && (source.Some? ==> source.value < x.date.value)
    ensures r == Ok(ReachedSource) ==>
              read < |nodes| && source.Some? && nodes[read].date.Some? && nodes[read].date.value <= source.value
    ensures r == Err(LimitExceeded) ==> |Selected(observed + nodes, source, cutoff)| > CHANGED_PULL_REQUESTS
    ensures r.Err? ==> r.error != Interrupted
    ensures r == Err(BadPagination) ==> HasBadIds(observed + nodes)
    ensures r == Err(InvalidDate) ==> HasUndated(observed + nodes)
  {
    hide Seen, Selected, InWindow, IsKnown, ObserveUnique, HasBadIds, HasUndated;
    r, seen', collected', read := Ok(ReadAll), seen, collected, 0;
    var k := 0;
    assert observed + nodes[..0] == observed;
    while k < |nodes|
      invariant 0 <= k == read <= |nodes|
      invariant Seen(seen', observed + nodes[..k]) && collected' == Selected(observed + nodes[..k], source, cutoff)
      invariant |collected'| <= CHANGED_PULL_REQUESTS
      invariant forall x | x in nodes[..k] :: x.date.Some? && (source.Some? ==> source.value < x.date.value)
    {
      var node := nodes[k];
      ghost var before := observed + nodes[..k];
      assert observed + nodes[..k + 1] == before + [node];
      assert observed + nodes == before + [node] + nodes[k + 1..];
      var first := ObserveUnique(node, seen');
      if first.Err? {
        ConflictFound(before, node, nodes[k + 1..], seen');
        return Err(BadPagination), seen', collected', k;
      }
      if node.date.None? {
        UndatedFound(before, node, nodes[k + 1..]);
        return Err(InvalidDate), seen', collected', k;
      }
      if source.Some? && node.date.value <= source.value {
        return Ok(ReachedSource), seen', collected', k;
      }
      TakeNode(seen', before, node, source, cutoff);
      if first.value {
        seen' := seen'[node.id.value := node];
      }
      if first.value && node.date.value <= cutoff {
        collected' := collected' + [node];
        if |collected'| > CHANGED_PULL_REQUESTS {
          SelectedGrows(before + [node], nodes[k + 1..], source, cutoff);
          return Err(LimitExceeded), seen', collected', k;
        }
      }
      k := k + 1;
      read := k;
    }
    assert nodes[..k] == nodes;
  }

  /** Two nodes under one id that differ. */
  predicate Clash(a: Node, b: Node) {
    a.id == b.id && a != b
  }

  lemma KnownBySeen(seen: map<Id, Node>, before: seq<Node>, node: Node)
    requires Seen(seen, before) && node.id.Some?
    ensures node.id.value in seen <==> IsKnown(before, node.id)
    ensures ObserveUnique(node, seen).Ok? ==>
              Seen(if node.id.value in seen then seen else seen[node.id.value := node], before + [node])
  {
    forall id | id in seen ensures IsKnown(before + [node], Some(id)) {
      assert IsKnown(before, Some(id));
      var i :| 0 <= i < |before| && before[i].id == Some(id);
      assert (before + [node])[i].id == Some(id);
    }
    assert (before + [node])[|before|].id == node.id;
  }

  predicate AreDated(nodes: seq<Node>) {
    forall x | x in nodes :: x.date.Some?
  }

  /** Nodes that were gone through without an error have ids and dates, and do not contradict each other. */
  lemma SeenAreGood(seen: map<Id, Node>, observed: seq<Node>)
    requires Seen(seen, observed) && AreDated(observed)
    ensures !BadNodes(observed)
  {
    hide IsKnown;
    assert forall i | 0 <= i < |observed| :: observed[i] in observed;
  }

  /** What one more node of the window's side of the listing does to the two records. */
  lemma TakeNode(seen: map<Id, Node>, before: seq<Node>, node: Node, source: Option<Time>, cutoff: Time)
    requires Seen(seen, before) && ObserveUnique(node, seen).Ok?
    requires node.date.Some? && (source.Some? ==> source.value < node.date.value)
    ensures node.id.Some?
    ensures var first := ObserveUnique(node, seen).value;
            && Seen(if first then seen[node.id.value := node] else seen, before + [node])
            && Selected(before + [node], source, cutoff) ==
               Selected(before, source, cutoff) + (if first && node.date.value <= cutoff then [node] else [])
  {
    hide Selected, Seen, IsKnown;
    assert node.id.Some?;
    KnownBySeen(seen, before, node);
    SelectedSnoc(before, node, source, cutoff);
  }

  lemma SelectedSnoc(before: seq<Node>, node: Node, source: Option<Time>, cutoff: Time)
    ensures Selected(before + [node], source, cutoff) ==
            Selected(before, source, cutoff)
              + (if !IsKnown(before, node.id) && InWindow(node, source, cutoff) then [node] else [])
  {
    hide IsKnown, InWindow;
    assert (before + [node])[..|before|] == before;
  }

  lemma ConflictFound(before: seq<Node>, node: Node, rest: seq<Node>, seen: map<Id, Node>)
    requires Seen(seen, before) && ObserveUnique(node, seen).Err?
    ensures HasBadIds(before + [node] + rest)
  {
    var all := before + [node] + rest;
    assert all[|before|] == node;
    if node.id.Some? {
      KnownBySeen(seen, before, node);
      var i :| 0 <= i < |before| && before[i].id == node.id;
      assert Clash(all[i], all[|before|]);
    }
  }

  lemma UndatedFound(before: seq<Node>, node: Node, rest: seq<Node>)
    requires node.date.None?
    ensures HasUndated(before + [node] + rest)
  {
    assert (before + [node] + rest)[|before|] == node;
  }

  /**
   What the loop returns after `requests` answers, whatever they were. `observed` are the nodes it went through and
   `cut` says that it stopped at a node from before the last synchronization.
   */
  ghost predicate Outcome(responses: nat -> Response, source: Option<Time>, cutoff: Time, r: Result<seq<Node>>,
                          requests: nat, observed: seq<Node>, cut: bool)
  {
    var fetched := Flatten(responses, requests);
    && requests > 0
    && (forall n | 0 <= n < requests - 1 :: responses(n).Page? && responses(n).info.hasNextPage)
    && (r.Ok? ==>
          && r.value == Selected(observed, source, cutoff) && |r.value| <= 100
          && responses(requests - 1).Page? && observed <= fetched && !BadNodes(observed)
          && (forall n | 0 <= n < requests - 1 :: !BadContinuation(responses, n)))
    && (r.Ok? && !cut ==> observed == fetched && !responses(requests - 1).info.hasNextPage)
    && (r.Ok? && cut ==>
          && |observed| < |fetched| && source.Some?
          && fetched[|observed|].date.Some? && fetched[|observed|].date.value <= source.value)
    && (r.Err? ==> IsExplained(responses, source, cutoff, requests, r.error))
  }

  /**
   collectPullRequests against a provider that may answer anything: `responses(n)` is its answer to request number n.
   The loop ends after at most one request per possible cursor and one more.
   */
  method CollectPullRequests(responses: nat -> Response, source: Option<Time>, cutoff: Time, ghost cursors: set<Text>)
    returns (r: Result<seq<Node>>, requests: nat, ghost observed: seq<Node>, ghost cut: bool)
    requires CursorsWithin(responses, cursors)
    ensures 1 <= requests <= |cursors| + 1
    ensures Outcome(responses, source, cutoff, r, requests, observed, cut)
  {
    hide Seen, Selected, Flatten, Continuations, BadNodes, HasUndated, HasBadIds, BadContinuation, Continuation,
      NextCursor;
    var collected: seq<Node> := [];
    var seen: map<Id, Node> := map[];
    NothingYet(responses, source, cutoff);
    var visited: set<Text> := {};
    var cursor: Option<Text> := None;
    requests, observed, cut := 0, [], false;
    while true
      invariant requests == |visited| && visited <= cursors
      invariant cursor.Some? ==> cursor.value in visited
      invariant visited == Continuations(responses, requests)
      invariant Seen(seen, observed) && collected == Selected(observed, source, cutoff)
      invariant |collected| <= CHANGED_PULL_REQUESTS
      invariant observed == Flatten(responses, requests) && !cut
      invariant forall n | 0 <= n < requests :: responses(n).Page? && responses(n).info.hasNextPage
      invariant forall n | 0 <= n < requests :: !BadContinuation(responses, n)
      invariant AreDated(observed)
      decreases cursors - visited
    {
      SubsetSize(visited, cursors);
      var response := responses(requests);
      requests := requests + 1;
      if !response.Page? {
        NotAPage(responses, source, cutoff, requests);
        return Err(if response.Failed? then Interrupted else BadPagination), requests, observed, cut;
      }
      ghost var fetched := observed + response.nodes;
      OneMorePage(responses, requests - 1);
      var scanned, seen', collected', read := ScanPage(response.nodes, source, cutoff, seen, collected, observed);
      if scanned.Err? {
        return Err(scanned.error), requests, observed, cut;
      }
      if scanned.value == ReachedSource || !response.info.hasNextPage {
        cut := scanned.value == ReachedSource;
        assert cut ==> fetched[|observed + response.nodes[..read]|] == response.nodes[read];
        observed := observed + response.nodes[..read];
        assert !cut ==> response.nodes[..read] == response.nodes;
        SeenAreGood(seen', observed);
        return Ok(collected'), requests, observed, cut;
      }
      assert response.nodes[..read] == response.nodes;
      var next := NextCursor(response.info, cursor, |response.nodes|, visited);
      if next.Err? {
        CursorFault(responses, requests, cursor, visited);
        return Err(next.error), requests, observed, cut;
      }
      GoodContinuation(responses, requests - 1, cursor, visited);
      cursor := Some(next.value);
      visited := visited + {next.value};
      seen, collected, observed := seen', collected', fetched;
    }
  }

  /** A page that continues properly. */
  lemma GoodContinuation(responses: nat -> Response, n: nat, cursor: Option<Text>, visited: set<Text>)
    requires responses(n).Page? && visited == Continuations(responses, n)
    requires NextCursor(responses(n).info, cursor, |responses(n).nodes|, visited).Ok?
    ensures !BadContinuation(responses, n)
  {
    hide Continuations, Continuation;
  }

  lemma NothingYet(responses: nat -> Response, source: Option<Time>, cutoff: Time)
    ensures Seen(map[], []) && Selected([], source, cutoff) == [] && Flatten(responses, 0) == []
    ensures Continuations(responses, 0) == {}
  {
  }

  lemma OneMorePage(responses: nat -> Response, n: nat)
    requires responses(n).Page?
    ensures Flatten(responses, n + 1) == Flatten(responses, n) + responses(n).nodes
    ensures Continuations(responses, n + 1) == Continuations(responses, n) + {Continuation(responses(n).info)}
  {
    hide Continuation;
  }

  lemma NotAPage(responses: nat -> Response, source: Option<Time>, cutoff: Time, count: nat)
    requires count > 0 && !responses(count - 1).Page?
    ensures IsExplained(responses, source, cutoff, count,
                        if responses(count - 1).Failed? then Interrupted else BadPagination)
  {
    hide Flatten, BadContinuation, HasUndated, HasBadIds, Selected;
  }

  /** The cursors that the first `count` responses continued with. */
  ghost function Continuations(responses: nat -> Response, count: nat): set<Text> {
    set n | 0 <= n < count && responses(n).Page? :: Continuation(responses(n).info)
  }

  /** What makes the loop fail for a reason other than the limit, within the first `count` responses. */
  ghost predicate Misbehaved(responses: nat -> Response, count: nat) {
    || (exists n | 0 <= n < count :: !responses(n).Page?)
    || (exists n | 0 <= n < count :: BadContinuation(responses, n))
    || BadNodes(Flatten(responses, count))
  }

  /** The page says there is more but names no cursor, an old cursor, or has no nodes. */
  ghost predicate BadContinuation(responses: nat -> Response, n: nat) {
    && responses(n).Page? && responses(n).info.hasNextPage
    && var next := Continuation(responses(n).info);
       next == [] || responses(n).nodes == [] || next in Continuations(responses, n)
  }

  predicate HasUndated(nodes: seq<Node>) {
    exists i | 0 <= i < |nodes| :: nodes[i].date.None?
  }

  /** A node has no id, or two differ under one. */
  predicate HasBadIds(nodes: seq<Node>) {
    || (exists i | 0 <= i < |nodes| :: nodes[i].id.None?)
    || (exists i, k | 0 <= i < k < |nodes| :: Clash(nodes[i], nodes[k]))
  }

  predicate BadNodes(nodes: seq<Node>) {
    HasUndated(nodes) || HasBadIds(nodes)
  }

  /** The reason for each error, within the first `count` responses. */
  ghost predicate IsExplained(responses: nat -> Response, source: Option<Time>, cutoff: Time, count: nat,
                              error: CollectionError)
  {
    match error
    case Interrupted => exists n | 0 <= n < count :: responses(n).Failed?
    case InvalidDate => HasUndated(Flatten(responses, count))
    case BadPagination =>
      || (exists n | 0 <= n < count :: responses(n).Malformed?)
      || (exists n | 0 <= n < count :: BadContinuation(responses, n))
      || HasBadIds(Flatten(responses, count))
    case LimitExceeded => |Selected(Flatten(responses, count), source, cutoff)| > 100
  }

  /** Any error but the limit's is the provider's fault. */
  lemma ExplainedMisbehaves(responses: nat -> Response, source: Option<Time>, cutoff: Time, count: nat,
                            error: CollectionError)
    requires IsExplained(responses, source, cutoff, count, error) && error != LimitExceeded
    ensures Misbehaved(responses, count)
  {
    hide Flatten, BadContinuation, HasUndated, HasBadIds;
  }

  lemma CursorFault(responses: nat -> Response, count: nat, cursor: Option<Text>, visited: set<Text>)
    requires count > 0 && responses(count - 1).Page? && responses(count - 1).info.hasNextPage
    requires visited == Continuations(responses, count - 1) && (cursor.Some? ==> cursor.value in visited)
    requires NextCursor(responses(count - 1).info, cursor, |responses(count - 1).nodes|, visited).Err?
    ensures forall source, cutoff :: IsExplained(responses, source, cutoff, count, BadPagination)
  {
    hide Continuations, Continuation, Flatten, HasUndated, HasBadIds;
    assert BadContinuation(responses, count - 1);
  }

  // ----- a listing that is sorted -----

  /** The provider answers `pages` requests properly and then says that there is no more. */
  ghost predicate IsListing(responses: nat -> Response, pages: nat) {
    && pages > 0 && !Misbehaved(responses, pages)
    && (forall n | 0 <= n < pages :: responses(n).Page? && (responses(n).info.hasNextPage <==> n < pages - 1))
  }

  /** Newest first; boundary nodes may repeat. */
  predicate NewestFirst(nodes: seq<Node>) {
    forall i, k | 0 <= i < k < |nodes| && nodes[i].date.Some? && nodes[k].date.Some? ::
      nodes[i].date.value >= nodes[k].date.value
  }

  lemma {:induction false} FlattenGrows(responses: nat -> Response, few: nat, many: nat)
    requires few <= many
    ensures Flatten(responses, few) <= Flatten(responses, many)
    decreases many - few
  {
    if few < many {
      FlattenGrows(responses, few, many - 1);
    }
  }

  lemma MisbehaviourStays(responses: nat -> Response, few: nat, many: nat)
    requires few <= many && Misbehaved(responses, few)
    ensures Misbehaved(responses, many)
  {
    hide Flatten, BadContinuation;
    FlattenGrows(responses, few, many);
    var a, b := Flatten(responses, few), Flatten(responses, many);
    assert forall i | 0 <= i < |a| :: a[i] == b[i];
  }

  lemma CutLosesNothing(all: seq<Node>, observed: seq<Node>, source: Option<Time>, cutoff: Time)
    requires NewestFirst(all) && observed <= all && |observed| < |all| && source.Some?
    requires all[|observed|].date.Some? && all[|observed|].date.value <= source.value
    ensures Selected(all, source, cutoff) == Selected(observed, source, cutoff)
  {
    hide Selected;
    var rest := all[|observed|..];
    forall x | x in rest ensures !InWindow(x, source, cutoff) {
      var i :| 0 <= i < |rest| && rest[i] == x;
      assert all[|observed| + i] == x;
    }
    OutsideAddsNothing(observed, rest, source, cutoff);
    assert observed + rest == all;
  }

  /**
   The loop with its early stop refines a filter: on a listing sorted newest first it returns exactly the first
   occurrences with source < updatedAt <= cutoff, in order, and fails, with the limit error, exactly when there are more
   than a hundred of them.
   */
  lemma CollectionRefinesFilter(responses: nat -> Response, pages: nat, source: Option<Time>, cutoff: Time,
                                r: Result<seq<Node>>, requests: nat, observed: seq<Node>, cut: bool)
    requires IsListing(responses, pages) && NewestFirst(Flatten(responses, pages))
    requires Outcome(responses, source, cutoff, r, requests, observed, cut)
    ensures var wanted := Selected(Flatten(responses, pages), source, cutoff);
            r == if |wanted| <= 100 then Ok(wanted) else Err(LimitExceeded)
  {
    hide Selected, Flatten, Misbehaved, NewestFirst, HasUndated, HasBadIds, BadContinuation;
    var all := Flatten(responses, pages);
    assert responses(pages - 1).Page? && !responses(pages - 1).info.hasNextPage;
    assert requests <= pages;
    FlattenGrows(responses, requests, pages);
    var fetched := Flatten(responses, requests);
    if r.Err? {
      if r.error != LimitExceeded {
        ExplainedMisbehaves(responses, source, cutoff, requests, r.error);
        MisbehaviourStays(responses, requests, pages);
      }
      SelectedGrows(fetched, all[|fetched|..], source, cutoff);
      assert fetched + all[|fetched|..] == all;
    } else if cut {
      CutLosesNothing(all, observed, source, cutoff);
    }
  }
}
