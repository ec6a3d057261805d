/** The exceptions a call raises, and those its caller was handling when it made the call. */
module ExceptionContext {
  import opened Options
  import opened ExceptionSearch

  /** The exceptions the caller is handling when it makes a call: Python links the exceptions
      raised in the call to the one being handled. */
  datatype Context = Context(graph: Graph, handled: Option<ErrorId>)

  ghost predicate IsContext(c: Context) {
    Closed(c.graph) && (c.handled.Some? ==> c.handled.value < |c.graph|)
  }

  function Up(link: Option<ErrorId>, shift: nat): Option<ErrorId> {
    if link.Some? then Some(link.value + shift) else None
  }

  function AllUp(links: seq<Option<ErrorId>>, shift: nat): (r: seq<Option<ErrorId>>)
    ensures |r| == |links|
  {
    if links == [] then [] else [Up(links[0], shift)] + AllUp(links[1..], shift)
  }

  /** The same exception, numbered `shift` further. */
  function Moved(n: Node, shift: nat): Node {
    n.(reason := Up(n.reason, shift), args := AllUp(n.args, shift),
       cause := Up(n.cause, shift), context := Up(n.context, shift))
  }

  lemma {:induction false} ArgsUp(links: seq<Option<ErrorId>>, shift: nat, l: ErrorId)
    ensures Some(l) in AllUp(links, shift) <==> l >= shift && Some(l - shift) in links
  {
    if links != [] {
      ArgsUp(links[1..], shift, l);
      assert links == [links[0]] + links[1..];
    }
  }

  lemma MovedLinks(n: Node, shift: nat, l: ErrorId)
    ensures Holds(Moved(n, shift), l) <==> l >= shift && Holds(n, l - shift)
  {
    ArgsUp(n.args, shift, l);
  }

  /** The first `own` exceptions were raised by the call, the rest is what its caller was
      handling; the call's own link to each other or to the one that was being handled. */
  ghost predicate RaisedIn(g: Graph, own: nat, c: Context) {
    && |g| == own + |c.graph|
    && (forall i :: 0 <= i < |c.graph| ==> g[own + i] == Moved(c.graph[i], own))
    && forall e, l: ErrorId :: 0 <= e < own && Holds(g[e], l) ==> l < own || Up(c.handled, own) == Some(l)
  }

  /** Some exception from outside the call is in reach and says no connection was made. */
  ghost predicate ForeignRefusal(g: Graph, own: nat, root: ErrorId) {
    exists e: ErrorId :: own <= e < |g| && g[e].refused && Reaches(g, root, e)
  }

  /** What the caller is handling, or anything in reach of it, says so. */
  ghost predicate Refuses(c: Context) {
    c.handled.Some? && exists e: ErrorId :: e < |c.graph| && c.graph[e].refused && Handles(c, e)
  }

  /** Outside the call the links are those of the context. */
  lemma OutsideLinks(g: Graph, own: nat, c: Context, i: nat, l: ErrorId)
    requires RaisedIn(g, own, c) && i < |c.graph|
    ensures g[own + i].refused == c.graph[i].refused
    ensures Holds(g[own + i], l) <==> l >= own && Holds(c.graph[i], l - own)
  {
    MovedLinks(c.graph[i], own, l);
  }

  lemma InsideLinks(g: Graph, own: nat, c: Context, e: ErrorId, l: ErrorId)
    requires RaisedIn(g, own, c) && e < own && Holds(g[e], l) && l >= own
    ensures c.handled == Some(l - own)
  {
    assert Up(c.handled, own) == Some(l);
  }

  /** What is in reach of the exception being handled. */
  ghost predicate Handles(c: Context, i: nat) {
    c.handled.Some? && Reaches(c.graph, c.handled.value, i)
  }

  lemma HandlesFurther(c: Context, i: nat, l: nat)
    requires IsContext(c) && Handles(c, i) && i < |c.graph| && Holds(c.graph[i], l)
    ensures Handles(c, l)
  {
    ReachesFurther(c.graph, c.handled.value, i, l);
  }

  lemma HandlesHandled(c: Context)
    requires IsContext(c) && c.handled.Some?
    ensures Handles(c, c.handled.value)
  {
    ReachesItself(c.graph, c.handled.value);
  }

  lemma StaysConfined(g: Graph, own: nat, c: Context, e: ErrorId, l: ErrorId)
    requires IsContext(c) && RaisedIn(g, own, c) && e < |g| && Holds(g[e], l)
    requires e < own || Handles(c, e - own)
    ensures l < own || Handles(c, l - own)
  {
    if e >= own {
      OutsideLinks(g, own, c, e - own, l);
      HandlesFurther(c, e - own, l - own);
    } else if l >= own {
      InsideLinks(g, own, c, e, l);
      HandlesHandled(c);
    }
  }

  lemma {:induction false} PathIsConfined(g: Graph, own: nat, c: Context, path: seq<ErrorId>)
    requires IsContext(c) && RaisedIn(g, own, c) && IsPath(g, path)
    requires path[0] < own || Handles(c, path[0] - own)
    ensures path[|path| - 1] < own || Handles(c, path[|path| - 1] - own)
    decreases |path|
  {
    if |path| > 1 {
      assert Holds(g[path[0]], path[1]);
      StaysConfined(g, own, c, path[0], path[1]);
      PathTail(g, path);
      PathIsConfined(g, own, c, path[1..]);
    }
  }

  lemma PathTail(g: Graph, path: seq<ErrorId>)
    requires IsPath(g, path) && |path| > 1
    ensures IsPath(g, path[1..]) && path[1..][0] == path[1] && path[1..][|path| - 2] == path[|path| - 1]
  {
  }

  /** A search that leaves the call leaves it for the exception that was being handled. */
  lemma ForeignIsHandled(g: Graph, own: nat, c: Context, root: ErrorId)
    requires IsContext(c) && RaisedIn(g, own, c) && root < own && ForeignRefusal(g, own, root)
    ensures Refuses(c)
  {
    var e: ErrorId :| own <= e < |g| && g[e].refused && Reaches(g, root, e);
    var path :| IsPath(g, path) && path[0] == root && path[|path| - 1] == e;
    PathIsConfined(g, own, c, path);
    OutsideLinks(g, own, c, e - own, 0);
  }

  // ---- A call that failed after it was sent ----

  /** One exception of the call's own, a read timeout, raised while `c.handled` was handled. */
  function Lost(c: Context): Graph
    requires IsContext(c)
  {
    [Node(false, false, false, None, [], None, Up(c.handled, 1))] + AllMoved(c.graph)
  }

  function AllMoved(g: Graph): (r: Graph)
    ensures |r| == |g| && forall i :: 0 <= i < |g| ==> r[i] == Moved(g[i], 1)
  {
    if g == [] then [] else [Moved(g[0], 1)] + AllMoved(g[1..])
  }

  lemma LostIsRaised(c: Context)
    requires IsContext(c)
    ensures Closed(Lost(c)) && RaisedIn(Lost(c), 1, c)
  {
    var g := Lost(c);
    forall i, l: ErrorId | 0 <= i < |g| && Holds(g[i], l) ensures l < |g| {
      if i > 0 {
        MovedLinks(c.graph[i - 1], 1, l);
      }
    }
  }

  lemma FoundFurther(g: Graph, own: nat, c: Context, root: ErrorId, i: nat, l: nat)
    requires Closed(g) && RaisedIn(g, own, c) && Reaches(g, root, i + own)
    requires i < |c.graph| && Holds(c.graph[i], l)
    ensures Reaches(g, root, l + own)
  {
    var from, to := own + i, l + own;
    assert Holds(g[from], to) by {
      OutsideLinks(g, own, c, i, to);
    }
    ReachesFurther(g, root, from, to);
  }

  lemma {:induction false} PathIsFound(g: Graph, own: nat, c: Context, root: ErrorId, path: seq<ErrorId>)
    requires Closed(g) && RaisedIn(g, own, c) && IsPath(c.graph, path) && Reaches(g, root, path[0] + own)
    ensures Reaches(g, root, path[|path| - 1] + own)
    decreases |path|
  {
    if |path| > 1 {
      assert Holds(c.graph[path[0]], path[1]);
      FoundFurther(g, own, c, root, path[0], path[1]);
      PathTail(c.graph, path);
      PathIsFound(g, own, c, root, path[1..]);
    }
  }

  /** What is in reach of the exception being handled is in reach of one linked to it. */
  lemma HandledIsFound(g: Graph, own: nat, c: Context, root: ErrorId, e: ErrorId)
    requires Closed(g) && RaisedIn(g, own, c) && Handles(c, e)
    requires Reaches(g, root, c.handled.value + own)
    ensures Reaches(g, root, e + own)
  {
    var path :| IsPath(c.graph, path) && path[0] == c.handled.value && path[|path| - 1] == e;
    PathIsFound(g, own, c, root, path);
  }

  lemma HandledIsForeign(g: Graph, own: nat, c: Context, root: ErrorId)
    requires Closed(g) && IsContext(c) && RaisedIn(g, own, c)
    requires Refuses(c) && Reaches(g, root, c.handled.value + own)
    ensures ForeignRefusal(g, own, root)
  {
    var e: ErrorId :| e < |c.graph| && c.graph[e].refused && Handles(c, e);
    HandledIsFound(g, own, c, root, e);
    OutsideLinks(g, own, c, e, 0);
    assert g[own + e].refused;
  }

  lemma LostReachesContext(c: Context)
    requires IsContext(c) && Refuses(c)
    ensures ForeignRefusal(Lost(c), 1, 0)
  {
    LostIsRaised(c);
    LostReachesHandled(c);
    HandledIsForeign(Lost(c), 1, c, 0);
  }

  lemma LostReachesHandled(c: Context)
    requires IsContext(c) && c.handled.Some?
    ensures Reaches(Lost(c), 0, c.handled.value + 1)
  {
    LostIsRaised(c);
    LostIsLinked(c);
    LinkIsReached(Lost(c), 0, c.handled.value + 1);
  }

  lemma LinkIsReached(g: Graph, root: ErrorId, l: ErrorId)
    requires Closed(g) && root < |g| && Holds(g[root], l)
    ensures Reaches(g, root, l)
  {
    ReachesItself(g, root);
    ReachesFurther(g, root, root, l);
  }

  lemma LostIsLinked(c: Context)
    requires IsContext(c) && c.handled.Some?
    ensures Holds(Lost(c)[0], c.handled.value + 1)
  {
    var n := Lost(c)[0];
    assert n == Node(false, false, false, None, [], None, Some(c.handled.value + 1));
  }
}
