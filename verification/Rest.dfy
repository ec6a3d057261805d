/** What a REST call raises, and what that says about whether the request was applied. */
module Rest {
  import opened Options
  import opened ExceptionSearch
  import opened ExceptionContext

  // ---- Which calls are writes ----

  function LStrip(s: string): string {
    if s != [] && s[0] == '/' then LStrip(s[1..]) else s
  }

  predicate StartsWith(s: string, prefix: string) {
    |prefix| <= |s| && s[..|prefix|] == prefix
  }

  predicate IsWrite(verb: string, endpoint: string) {
    verb == "POST" && var path := LStrip(endpoint); StartsWith(path, "auth/w/") || StartsWith(path, "v2/auth/w/")
  }

  function Slashes(n: nat): string {
    if n == 0 then [] else ['/'] + Slashes(n - 1)
  }

  lemma {:induction false} LStripStrips(s: string) returns (n: nat)
    ensures s == Slashes(n) + LStrip(s)
  {
    if s != [] && s[0] == '/' {
      var m := LStripStrips(s[1..]);
      n := m + 1;
      assert Slashes(n) == ['/'] + Slashes(m);
      assert s == [s[0]] + s[1..];
    } else {
      n := 0;
      assert Slashes(0) == [];
    }
  }

  lemma {:induction false} LStripUndoes(n: nat, path: string)
    requires path == [] || path[0] != '/'
    ensures LStrip(Slashes(n) + path) == path
  {
    if n > 0 {
      assert (Slashes(n) + path)[1..] == Slashes(n - 1) + path;
      LStripUndoes(n - 1, path);
    } else {
      assert Slashes(0) + path == path;
    }
  }

  lemma StartThenRest(s: string, prefix: string)
    requires StartsWith(s, prefix)
    ensures s == prefix + s[|prefix|..]
  {
  }

  lemma StartOf(prefix: string, rest: string)
    ensures StartsWith(prefix + rest, prefix)
  {
  }

  /** A write is a POST to `auth/w/...` or `v2/auth/w/...`, after any number of slashes. */
  lemma WritesAre(verb: string, endpoint: string)
    ensures IsWrite(verb, endpoint) <==>
      verb == "POST" && exists n: nat, version, rest ::
        version in {"", "v2/"} && endpoint == Slashes(n) + (version + "auth/w/" + rest)
  {
    if IsWrite(verb, endpoint) {
      var n := LStripStrips(endpoint);
      var path := LStrip(endpoint);
      var version := if StartsWith(path, "auth/w/") then "" else "v2/";
      var prefix := version + "auth/w/";
      assert prefix == if version == "" then "auth/w/" else "v2/auth/w/";
      StartThenRest(path, prefix);
      assert endpoint == Slashes(n) + (version + "auth/w/" + path[|prefix|..]);
    }
    if n: nat, version, rest :| version in {"", "v2/"} && endpoint == Slashes(n) + (version + "auth/w/" + rest) {
      var path := version + "auth/w/" + rest;
      LStripUndoes(n, path);
      StartOf(version + "auth/w/", rest);
    }
  }

  // ---- What a call raises ----

  /** The classes `is_retryable` tells apart. `RateLimit` covers ApiRateLimitError; `Other` is
      everything the package does not raise itself. */
  datatype Kind =
    | RateLimit(retryAfterMs: int)
    | NonceTooSmall
    | Network(retryable: bool, outcomeUnknown: bool, retryAfter: Option<int>)
    | InvalidCredential
    | InsufficientFunds
    | RequestParameter
    | UnexpectedApi
    | Generic
    | NotConnected
    | Other

  /** `NetworkError(retryable, outcome_unknown)`: an unknown outcome is never retryable. */
  function NetworkError(retryable: bool, unknown: bool, retryAfter: Option<int>): (k: Kind)
    ensures k.Network? && k.outcomeUnknown == unknown && (k.outcomeUnknown ==> !k.retryable)
  {
    Network(retryable && !unknown, unknown, retryAfter)
  }

  // ---- Replies ----

  datatype RateLimitInfo = RateLimitInfo(
    remaining: Option<int>, limit: Option<int>, reset: Option<int>, retryAfterMs: Option<int>)

  const NO_INFO := RateLimitInfo(None, None, None, None)

  /** The second element of an error list. */
  datatype Code =
    | Number(value: int)
    | Falsy
    | Truthy

  datatype Body =
    | NotJson
    | ErrorList(code: Code, insufficient: bool)  // the message names missing funds
    | BareError                                  // `["error"]`
    | Data

  datatype Reply = Reply(status: Option<int>, body: Body, info: RateLimitInfo)

  function Max(a: int, b: int): int {
    if a >= b then a else b
  }

  function RateLimitDelayMs(info: RateLimitInfo, now: int): (ms: int)
    ensures ms >= 1000
  {
    Max(if info.retryAfterMs.Some? then info.retryAfterMs.value
        else if info.reset.Some? && info.reset.value != 0 then (info.reset.value - now) * 1000
        else 60000, 1000)
  }

  function ErrorKind(code: Code, insufficient: bool, delayMs: int): Kind {
    if code == Number(10010) then RateLimit(delayMs)
    else if code == Number(10020) then RequestParameter
    else if code == Number(10100) then InvalidCredential
    else if code == Number(10001) && insufficient then InsufficientFunds
    else if code in {Falsy, Number(0), Number(10000), Number(10001)} then Generic
    else if code == Number(10114) then NonceTooSmall
    else if code == Number(11010) then RateLimit(delayMs)
    else UnexpectedApi
  }

  predicate Refused(status: Option<int>) {
    status.Some? && 400 <= status.value < 500
  }

  /** `__process_response`: what it raises, if anything. */
  function ReplyError(r: Reply, write: bool, now: int): Option<Kind> {
    if r.status == Some(429) then Some(RateLimit(RateLimitDelayMs(r.info, now)))
    else match r.body
      case NotJson =>
        var unknown := write && !Refused(r.status);
        Some(NetworkError(!unknown, unknown, r.info.retryAfterMs))
      case ErrorList(code, insufficient) => Some(ErrorKind(code, insufficient, RateLimitDelayMs(r.info, now)))
      case BareError => Some(Other)
      case Data =>
        if r.status.Some? && r.status.value >= 500 then Some(NetworkError(!write, write, r.info.retryAfterMs)) else None
  }

  predicate Documented(code: Code) {
    || code in {Falsy, Number(0), Number(10000), Number(10001), Number(10010), Number(10020)}
    || code in {Number(10100), Number(10114), Number(11010)}
  }

  /** The error a list with a code stands for, spelled out. */
  predicate AsListed(r: Reply, error: Option<Kind>, now: int)
    requires r.body.ErrorList?
  {
    var code, insufficient := r.body.code, r.body.insufficient;
    && (code in {Number(10010), Number(11010)} ==> error == Some(RateLimit(RateLimitDelayMs(r.info, now))))
    && (code == Number(10020) ==> error == Some(RequestParameter))
    && (code == Number(10100) ==> error == Some(InvalidCredential))
    && (code == Number(10001) && insufficient ==> error == Some(InsufficientFunds))
    && (code == Number(10001) && !insufficient ==> error == Some(Generic))
    && (code in {Number(10000), Number(0), Falsy} ==> error == Some(Generic))
    && (code == Number(10114) ==> error == Some(NonceTooSmall))
    && (!Documented(code) ==> error == Some(UnexpectedApi))
  }

  lemma ReplyIsAsListed(r: Reply, write: bool, now: int)
    requires r.body.ErrorList? && r.status != Some(429)
    ensures AsListed(r, ReplyError(r, write, now), now)
  {
  }

  /** What a rate limit asks to wait: the server's Retry-After, or else the time to its reset, or
      else a minute, and a second at least. */
  lemma LimitAsks(info: RateLimitInfo, now: int)
    ensures
      var ms := RateLimitDelayMs(info, now);
      match info.retryAfterMs
      case Some(asked) => ms == if asked >= 1000 then asked else 1000
      case None =>
        match info.reset
        case Some(reset) =>
          (reset != 0 && reset > now ==> ms == 1000 * (reset - now)) && (reset != 0 && reset <= now ==> ms == 1000)
          && (reset == 0 ==> ms == 60000)
        case None => ms == 60000
  {
  }

  // ---- One call ----

  /** Why a request was never sent: its body, its nonce, or what cannot be encoded. */
  datatype Unsent = NonFiniteBody | BadNonce | Unencodable

  function UnsentKind(why: Unsent): Kind {
    match why
    case NonFiniteBody => RequestParameter
    case BadNonce => InvalidCredential
    case Unencodable => Other
  }

  /** What became of one `requests.post`. `reached` says whether the exchange received it, which
      the client cannot see. Of a failed connection's exceptions the first `own` were raised by
      the call; the others its caller was handling. */
  datatype Exchange =
    | NotSent(why: Unsent)
    | ConnectionFailed(graph: Graph, root: ErrorId, own: nat, reached: bool)  // ConnectionError or Timeout
    | RequestFailed(neverSucceeds: bool, reached: bool)                       // any other `requests` error
    | Broke(reached: bool)                                                    // any other exception
    | Replied(reply: Reply)

  ghost predicate Sane(x: Exchange) {
    x.ConnectionFailed? ==> Closed(x.graph) && x.root < x.own <= |x.graph|
  }

  ghost function TransportError(x: Exchange, write: bool): Kind
    requires Sane(x) && x.ConnectionFailed?
  {
    var unknown := write && !NeverConnected(x.graph, x.root);
    NetworkError(!unknown, unknown, None)
  }

  ghost function Raises(x: Exchange, write: bool, now: int): Option<Kind>
    requires Sane(x)
  {
    match x
    case NotSent(why) => Some(UnsentKind(why))
    case ConnectionFailed(_, _, _, _) => Some(TransportError(x, write))
    case RequestFailed(never, _) =>
      Some(if never then NetworkError(false, false, None) else NetworkError(!write, write, None))
    case Broke(_) => Some(Other)
    case Replied(r) => ReplyError(r, write, now)
  }

  /** The most that can have happened on the exchange: it applies nothing it did not receive and
      nothing it answers with an error list, a 429 or any other 4xx. */
  predicate MayApply(x: Exchange) {
    match x
    case NotSent(_) => false
    case ConnectionFailed(_, _, _, reached) => reached
    case RequestFailed(_, reached) => reached
    case Broke(reached) => reached
    case Replied(r) => !Refused(r.status) && !r.body.ErrorList? && !r.body.BareError?
  }

  /** What the transport library is relied on for: a request that was received fails without a
      connect timeout, and without a refused connection among the exceptions of its own. */
  ghost predicate Genuine(x: Exchange) {
    && Sane(x)
    && (x.ConnectionFailed? && x.reached ==>
          !x.graph[x.root].connectTimeout && forall e :: 0 <= e < x.own ==> !x.graph[e].refused)
  }

  /** A refused connection from outside the call is in reach of the call's exception. */
  ghost predicate Misled(x: Exchange) {
    x.ConnectionFailed? && ForeignRefusal(x.graph, x.own, x.root)
  }

  lemma ReachedIsFoundOut(x: Exchange)
    requires Genuine(x) && x.ConnectionFailed? && x.reached
    ensures NeverConnected(x.graph, x.root) <==> Misled(x)
  {
  }

  /** A write that may have been applied raises a network error marked retryable if and only if
      the search was misled by an exception from outside the call. */
  lemma RetryableIffMisled(x: Exchange, now: int)
    requires Genuine(x) && MayApply(x)
    requires Raises(x, true, now).Some? && Raises(x, true, now).value.Network?
    ensures Raises(x, true, now).value.retryable <==> Misled(x)
  {
    if x.ConnectionFailed? {
      ReachedIsFoundOut(x);
    }
  }

  /** For a write, a network error is marked unknown exactly when the write may have been
      applied, but for three families: a failure that is the same every time, such as too many
      redirects, after the request was received; a search misled; and, on the safe side, a
      request that was not received and whose exceptions do not say so. */
  lemma UnknownIffMayApply(x: Exchange, now: int)
    requires Genuine(x) && Raises(x, true, now).Some? && Raises(x, true, now).value.Network?
    ensures
      (Raises(x, true, now).value.outcomeUnknown <==> MayApply(x))
      <==>
      && !(x.RequestFailed? && x.neverSucceeds && x.reached)
      && !(x.ConnectionFailed? && x.reached && Misled(x))
      && !(x.ConnectionFailed? && !x.reached && !NeverConnected(x.graph, x.root))
      && !(x.RequestFailed? && !x.neverSucceeds && !x.reached)
  {
    if x.ConnectionFailed? && x.reached {
      ReachedIsFoundOut(x);
    }
  }

  /** The error an exchange ends in, by what happened: a request never sent, a failed connection,
      another transport error, another exception, and a reply by its status and its body. */
  lemma RaisesWhat(x: Exchange, write: bool, now: int)
    requires Sane(x)
    ensures x == NotSent(NonFiniteBody) ==> Raises(x, write, now) == Some(RequestParameter)
    ensures x == NotSent(BadNonce) ==> Raises(x, write, now) == Some(InvalidCredential)
    ensures x == NotSent(Unencodable) || x.Broke? ==> Raises(x, write, now) == Some(Other)
    ensures x.ConnectionFailed? ==>
      Raises(x, write, now) == Some(
        if write && !NeverConnected(x.graph, x.root) then Network(false, true, None) else Network(true, false, None))
    ensures x.RequestFailed? ==>
      Raises(x, write, now) == Some(
        if x.neverSucceeds then Network(false, false, None) else if write then Network(false, true, None)
        else Network(true, false, None))
    ensures x.Replied? && x.reply.status == Some(429) ==>
      Raises(x, write, now) == Some(RateLimit(RateLimitDelayMs(x.reply.info, now)))
    ensures x.Replied? && x.reply.status != Some(429) && x.reply.body.ErrorList? ==>
      AsListed(x.reply, Raises(x, write, now), now)
    ensures x.Replied? && x.reply.status != Some(429) && x.reply.body == BareError ==>
      Raises(x, write, now) == Some(Other)
    ensures x.Replied? && x.reply.status != Some(429) && x.reply.body == NotJson ==>
      Raises(x, write, now) == Some(
        if write && (x.reply.status.None? || x.reply.status.value < 400 || x.reply.status.value >= 500)
        then Network(false, true, x.reply.info.retryAfterMs) else Network(true, false, x.reply.info.retryAfterMs))
    ensures x.Replied? && x.reply.status != Some(429) && x.reply.body == Data ==>
      Raises(x, write, now) ==
        if x.reply.status.None? || x.reply.status.value < 500 then None
        else Some(if write then Network(false, true, x.reply.info.retryAfterMs)
                  else Network(true, false, x.reply.info.retryAfterMs))
  {
    if x.Replied? && x.reply.status != Some(429) && x.reply.body.ErrorList? {
      ReplyIsAsListed(x.reply, write, now);
    }
  }

  class Middleware {
    var lastRateLimit: RateLimitInfo
    var lastResponseAt: real

    constructor ()
      ensures lastRateLimit == NO_INFO && lastResponseAt == 0.0
    {
      lastRateLimit, lastResponseAt := NO_INFO, 0.0;
    }

    method RateLimitDelay(now: int) returns (ms: int)
      ensures ms == RateLimitDelayMs(lastRateLimit, now)
    {
      if lastRateLimit.retryAfterMs.Some? {
        ms := lastRateLimit.retryAfterMs.value;
      } else if lastRateLimit.reset.Some? && lastRateLimit.reset.value != 0 {
        ms := (lastRateLimit.reset.value - now) * 1000;
      } else {
        ms := 60000;
      }
      ms := Max(ms, 1000);
    }

    method ProcessResponse(r: Reply, write: bool, at: real, now: int) returns (error: Option<Kind>)
      modifies this
      ensures error == ReplyError(r, write, now)
      ensures r.body.ErrorList? && r.status != Some(429) ==> AsListed(r, error, now)
      ensures lastRateLimit == r.info && lastResponseAt == at
    {
      lastResponseAt := at;
      lastRateLimit := r.info;
      var delayMs := RateLimitDelay(now);
      if r.status == Some(429) {
        return Some(RateLimit(delayMs));
      }
      if r.body.NotJson? {
        var refused := r.status.Some? && 400 <= r.status.value < 500;
        var unknown := write && !refused;
        return Some(NetworkError(!unknown, unknown, lastRateLimit.retryAfterMs));
      }
      if r.body.ErrorList? {
        return Some(ErrorKind(r.body.code, r.body.insufficient, delayMs));
      }
      if r.body.BareError? {
        return Some(Other);
      }
      if r.status.Some? && r.status.value >= 500 {
        return Some(NetworkError(!write, write, lastRateLimit.retryAfterMs));
      }
      error := None;
    }

    /** Only a reply moves the rate limit and the time of the last response. */
    method Post(endpoint: string, x: Exchange, at: real, now: int) returns (error: Option<Kind>)
      requires Sane(x)
      modifies this
      ensures error == Raises(x, IsWrite("POST", endpoint), now)
      ensures x.Replied? && x.reply.body.ErrorList? && x.reply.status != Some(429) ==> AsListed(x.reply, error, now)
      ensures x.Replied? ==> lastRateLimit == x.reply.info && lastResponseAt == at
      ensures !x.Replied? ==> lastRateLimit == old(lastRateLimit) && lastResponseAt == old(lastResponseAt)
    {
      var write := IsWrite("POST", endpoint);
      match x
      case NotSent(why) => error := Some(UnsentKind(why));
      case ConnectionFailed(graph, root, _, _) =>
        var never := NeverReachedServer(graph, root);
        var unknown := write && !never;
        error := Some(NetworkError(!unknown, unknown, None));
      case RequestFailed(never, _) =>
        error := Some(if never then NetworkError(false, false, None) else NetworkError(!write, write, None));
      case Broke(_) => error := Some(Other);
      case Replied(r) => error := ProcessResponse(r, write, at, now);
    }
  }
}
