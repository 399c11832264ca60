/** What the three pagination loops of repository-collection.service.ts share. */
module Pagination {
  import opened Basics
  import opened Text

  type Id = nat

  /** GithubPaginationError, InvalidGithubDateError, InputLimitExceededError, and a request or heartbeat that fails. */
  datatype CollectionError = BadPagination | InvalidDate | LimitExceeded | Interrupted

  datatype Result<T> = Ok(value: T) | Err(error: CollectionError)

  /**
   A node as the provider sends it. No id: missing or blank. No date: not a GitHub date (updatedAt of a pull request,
   createdAt of a comment; reviews have none that is read). `content` is the rest, so equal nodes serialize alike.
   */
  datatype Node = Node(id: Option<Id>, date: Option<Time>, content: nat)

  /** pageInfo; the cursor text is what the provider sent. */
  datatype PageInfo = PageInfo(hasNextPage: bool, endCursor: Option<Text>)

  /** The cursor that a page would continue with: trimmed. */
  function Continuation(info: PageInfo): Text {
    if info.endCursor.None? then [] else Trim(info.endCursor.value)
  }

  /** nextCursor. */
  function NextCursor(info: PageInfo, current: Option<Text>, nodeCount: nat, visited: set<Text>): (r: Result<Text>)
    ensures r.Ok? <==> ( && Continuation(info) != [] && nodeCount > 0
                         && Continuation(info) !in visited && current != Some(Continuation(info)))
    ensures r.Ok? ==> r.value == Continuation(info)
    ensures r.Err? ==> r.error == BadPagination
  {
    var next := Continuation(info);
    if next == [] then Err(BadPagination)
    else if nodeCount == 0 then Err(BadPagination)
    else if Some(next) == current || next in visited then Err(BadPagination)
    else Ok(next)
  }

  /** The next cursor is the page's own, trimmed, if that leaves anything, the page has nodes and it is a new one. */
  lemma NextCursorIsTrimmed(info: PageInfo, current: Option<Text>, nodeCount: nat, visited: set<Text>)
    ensures var r := NextCursor(info, current, nodeCount, visited);
            && (r.Ok? <==>
                  && info.endCursor.Some? && Trim(info.endCursor.value) != [] && nodeCount > 0
                  && Trim(info.endCursor.value) !in visited && current != Some(Trim(info.endCursor.value)))
            && (r.Ok? ==> r.value == Trim(info.endCursor.value))
  {
  }

  /** observeUniqueNode: whether the node is new, and what is then known. */
  function ObserveUnique(node: Node, seen: map<Id, Node>): Result<bool> {
    if node.id.None? then Err(BadPagination)
    else if node.id.value !in seen then Ok(true)
    else if seen[node.id.value] != node then Err(BadPagination)
    else Ok(false)
  }
}
