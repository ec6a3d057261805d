/** The search for a failure to connect, over the graph of linked exceptions. */
module ExceptionSearch {
  import opened Options

  type ErrorId = nat

  /** One exception. An argument that is not an exception is None. */
  datatype Node = Node(
    connectTimeout: bool,          // a `requests` ConnectTimeout
    refused: bool,                 // a NewConnectionError or a ConnectionRefusedError
    maxRetry: bool,                // a MaxRetryError, the only class whose `reason` is read
    reason: Option<ErrorId>,
    args: seq<Option<ErrorId>>,
    cause: Option<ErrorId>,
    context: Option<ErrorId>)

  type Graph = seq<Node>

  function Listed(link: Option<ErrorId>): seq<ErrorId> {
    if link.Some? then [link.value] else []
  }

  function Present(links: seq<Option<ErrorId>>): seq<ErrorId> {
    if links == [] then [] else Listed(links[0]) + Present(links[1..])
  }

  /** Where the search goes from a node. */
  function Links(n: Node): seq<ErrorId> {
    (if n.maxRetry then Listed(n.reason) else []) + Present(n.args) + Listed(n.cause) + Listed(n.context)
  }

  /** The four ways in which one exception holds another: the reason of a MaxRetryError, an
      argument, its cause, its context. */
  predicate Holds(n: Node, l: ErrorId) {
    || (n.maxRetry && n.reason == Some(l))
    || Some(l) in n.args
    || n.cause == Some(l)
    || n.context == Some(l)
  }

  lemma {:induction false} PresentAre(links: seq<Option<ErrorId>>, l: ErrorId)
    ensures l in Present(links) <==> Some(l) in links
  {
    if links != [] {
      PresentAre(links[1..], l);
      assert links == [links[0]] + links[1..];
    }
  }

  /** The search goes exactly to the exceptions held. */
  lemma LinksAre(n: Node, l: ErrorId)
    ensures l in Links(n) <==> Holds(n, l)
  {
    PresentAre(n.args, l);
  }

  lemma AllLinksAre(n: Node)
    ensures forall l :: l in Links(n) <==> Holds(n, l)
  {
    forall l ensures l in Links(n) <==> Holds(n, l) {
      LinksAre(n, l);
    }
  }

  /** Every link leads to an exception of the graph. Cycles are allowed. */
  ghost predicate Closed(g: Graph) {
    forall i, j: ErrorId :: 0 <= i < |g| && Holds(g[i], j) ==> j < |g|
  }

  ghost predicate IsPath(g: Graph, path: seq<ErrorId>) {
    && path != []
    && (forall i :: 0 <= i < |path| ==> path[i] < |g|)
    && forall i :: 0 <= i < |path| - 1 ==> Holds(g[path[i]], path[i + 1])
  }

  ghost predicate Reaches(g: Graph, from: ErrorId, to: ErrorId) {
    exists path :: IsPath(g, path) && path[0] == from && path[|path| - 1] == to
  }

  /** What the search is for: some exception in reach says no connection was made. */
  ghost predicate NeverConnected(g: Graph, root: ErrorId)
    requires root < |g|
  {
    g[root].connectTimeout || exists e: ErrorId :: e < |g| && g[e].refused && Reaches(g, root, e)
  }

  lemma ReachesItself(g: Graph, e: ErrorId)
    requires e < |g|
    ensures Reaches(g, e, e)
  {
    assert IsPath(g, [e]);
  }

  lemma ReachesFurther(g: Graph, from: ErrorId, via: ErrorId, to: ErrorId)
    requires Closed(g) && Reaches(g, from, via) && via < |g| && Holds(g[via], to)
    ensures Reaches(g, from, to)
  {
    var path :| IsPath(g, path) && path[0] == from && path[|path| - 1] == via;
    assert IsPath(g, path + [to]);
  }

  /** A set that contains the root and follows every link contains all that is in reach. */
  lemma {:induction false} ClosedSetHoldsPath(g: Graph, seen: set<ErrorId>, path: seq<ErrorId>)
    requires IsPath(g, path) && path[0] in seen
    requires forall e, l :: e in seen && e < |g| && Holds(g[e], l) ==> l in seen
    ensures path[|path| - 1] in seen
    decreases |path|
  {
    if |path| > 1 {
      assert IsPath(g, path[1..]);
      ClosedSetHoldsPath(g, seen, path[1..]);
    }
  }

  lemma NothingElseInReach(g: Graph, seen: set<ErrorId>, root: ErrorId)
    requires root in seen
    requires forall e, l :: e in seen && e < |g| && Holds(g[e], l) ==> l in seen
    ensures forall e :: Reaches(g, root, e) ==> e in seen
  {
    forall e | Reaches(g, root, e) ensures e in seen {
      var path :| IsPath(g, path) && path[0] == root && path[|path| - 1] == e;
      ClosedSetHoldsPath(g, seen, path);
    }
  }

  ghost function Below(n: nat): (all: set<ErrorId>)
    ensures forall e: nat :: e in all <==> e < n
  {
    if n == 0 then {} else Below(n - 1) + {n - 1}
  }

  /** What was seen or is still to be looked at is in reach, and nothing seen is a refusal. */
  ghost predicate Sound(g: Graph, root: ErrorId, seen: set<ErrorId>, stack: seq<ErrorId>) {
    && (forall e :: e in stack ==> e < |g| && Reaches(g, root, e))
    && (forall e :: e in seen ==> e < |g| && !g[e].refused)
  }

  /** Nothing in reach was lost: every link of what was seen was seen too, or is on the stack. */
  ghost predicate Covers(g: Graph, root: ErrorId, seen: set<ErrorId>, stack: seq<ErrorId>) {
    && (root in seen || root in stack)
    && forall e, l :: e in seen && e < |g| && Holds(g[e], l) ==> l in seen || l in stack
  }

  lemma Skipping(g: Graph, root: ErrorId, seen: set<ErrorId>, rest: seq<ErrorId>, current: ErrorId)
    requires Sound(g, root, seen, rest + [current]) && Covers(g, root, seen, rest + [current]) && current in seen
    ensures Sound(g, root, seen, rest) && Covers(g, root, seen, rest)
  {
  }

  lemma Expanding(g: Graph, root: ErrorId, seen: set<ErrorId>, rest: seq<ErrorId>, current: ErrorId)
    requires Closed(g)
    requires Sound(g, root, seen, rest + [current]) && Covers(g, root, seen, rest + [current])
    requires current < |g| && !g[current].refused
    ensures Sound(g, root, seen + {current}, rest + Links(g[current]))
    ensures Covers(g, root, seen + {current}, rest + Links(g[current]))
  {
    assert current in rest + [current];
    AllLinksAre(g[current]);
    forall l | l in Links(g[current]) ensures l < |g| && Reaches(g, root, l) {
      ReachesFurther(g, root, current, l);
    }
    var more := rest + Links(g[current]);
    forall e | e in more ensures e < |g| && Reaches(g, root, e) {
      if e !in Links(g[current]) {
        assert e in rest + [current];
      }
    }
    forall e, l | e in seen && e < |g| && Holds(g[e], l) ensures l in seen + {current} || l in more {
      assert l in seen || l in rest + [current];
    }
  }

  lemma Exhausted(g: Graph, root: ErrorId, seen: set<ErrorId>)
    requires root < |g| && !g[root].connectTimeout
    requires Sound(g, root, seen, []) && Covers(g, root, seen, [])
    ensures !NeverConnected(g, root)
  {
    NothingElseInReach(g, seen, root);
  }

  lemma Top(g: Graph, root: ErrorId, seen: set<ErrorId>, stack: seq<ErrorId>)
    requires stack != [] && Sound(g, root, seen, stack)
    ensures stack == stack[..|stack| - 1] + [stack[|stack| - 1]]
    ensures stack[|stack| - 1] < |g| && Reaches(g, root, stack[|stack| - 1])
  {
    assert stack[|stack| - 1] in stack;
  }

  /** `_never_reached_server`: ends on every finite graph, cyclic or not, with the exact answer. */
  method NeverReachedServer(g: Graph, root: ErrorId) returns (found: bool)
    requires Closed(g) && root < |g|
    ensures found <==> NeverConnected(g, root)
  {
    if g[root].connectTimeout {
      return true;
    }
    var seen: set<ErrorId> := {};
    var stack: seq<ErrorId> := [root];
    ReachesItself(g, root);
    while stack != []
      invariant Sound(g, root, seen, stack) && Covers(g, root, seen, stack)
      decreases Below(|g|) - seen, |stack|
    {
      var current := stack[|stack| - 1];
      var rest: seq<ErrorId> := stack[..|stack| - 1];
      Top(g, root, seen, stack);
      stack := rest;
      if current in seen {
        Skipping(g, root, seen, rest, current);
        continue;
      }
      if g[current].refused {
        return true;
      }
      Expanding(g, root, seen, rest, current);
      seen := seen + {current};
      stack := stack + Links(g[current]);
    }
    Exhausted(g, root, seen);
    found := false;
  }
}
