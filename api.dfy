/**
 * The serverless handler for `/api/qr-codes`: a process-wide store client that
 * is created lazily and dropped after any failure, and a dispatch on the HTTP
 * method over the single store key `qrCodes`. Serialisation is the identity:
 * the store holds the posted collection itself.
 */
module QrApi {
  import opened Wrappers
  import opened QrEntries

  /** The code accepted on every deployment, besides the configured one. */
  const FALLBACK_CODE := "admin123"

  /** Retry counts above this make the reconnect strategy give up. */
  const MAX_RETRIES := 3
  /** Milliseconds of delay per retry. */
  const RETRY_STEP_MS := 100
  /** The cap on one delay, in milliseconds. */
  const MAX_DELAY_MS := 3000

  /** The reconnect strategy's answer: stop with an error, or try again after `ms`. */
  datatype Backoff = GiveUp | RetryAfter(ms: nat)

  /** `reconnectStrategy`. The cap of 3000 ms is never reached: every delay
      handed out is exactly `retries * 100`, at most 300 ms. */
  function ReconnectStrategy(retries: nat): (r: Backoff)
    ensures r.GiveUp? <==> retries > MAX_RETRIES
    ensures r.RetryAfter? ==> r.ms == retries * RETRY_STEP_MS && r.ms <= MAX_RETRIES * RETRY_STEP_MS
  {
    if retries > MAX_RETRIES then GiveUp
    // Math.min(retries * 100, 3000)
    else RetryAfter(if retries * RETRY_STEP_MS <= MAX_DELAY_MS then retries * RETRY_STEP_MS else MAX_DELAY_MS)
  }

  /** The delays the strategy grants for the retry counts `retries`, `retries + 1`, ...
      up to the first count at which it gives up. */
  function Schedule(retries: nat): seq<nat>
    decreases if retries <= MAX_RETRIES then MAX_RETRIES + 1 - retries else 0
  {
    match ReconnectStrategy(retries)
    case GiveUp => []
    case RetryAfter(ms) => [ms] + Schedule(retries + 1)
  }

  /** From retry count `n`, the client is granted `4 - n` more attempts (none past 3),
      the k-th after `(n + k) * 100` ms. */
  lemma {:induction false} ScheduleShape(n: nat)
    ensures |Schedule(n)| == if n <= MAX_RETRIES then MAX_RETRIES + 1 - n else 0
    ensures forall k :: 0 <= k < |Schedule(n)| ==> Schedule(n)[k] == (n + k) * RETRY_STEP_MS
    decreases if n <= MAX_RETRIES then MAX_RETRIES + 1 - n else 0
  {
    if n <= MAX_RETRIES {
      ScheduleShape(n + 1);
      var s := Schedule(n);
      assert s == [n * RETRY_STEP_MS] + Schedule(n + 1);
      forall k | 0 < k < |s| ensures s[k] == (n + k) * RETRY_STEP_MS {
        assert s[k] == Schedule(n + 1)[k - 1];
      }
    }
  }

  /** For the retry counts 0, 1, 2 and 3 the strategy grants 0, 100, 200 and 300 ms; at 4 it gives up. */
  lemma ScheduleFromStart()
    ensures Schedule(0) == [0, 100, 200, 300]
  {
    ScheduleShape(0);
  }

  /** A store client: the order in which it was created, and `isOpen`. */
  datatype Connection = Connection(serial: nat, isOpen: bool)

  /** The server-side state: the value under the key (None when absent), the
      module-level client (None for `null`), and how many clients were created. */
  datatype Server = Server(store: Option<seq<Entry>>, client: Option<Connection>, created: nat)

  /** The JSON body of a POST: `securityCode` is None when the field is missing. */
  datatype PostBody = PostBody(qrCodes: seq<Entry>, securityCode: Option<string>)

  /** An incoming request: `verb` is `req.method`; `body` is None when no body was sent. */
  datatype Request = Request(verb: string, body: Option<PostBody>)

  /** The `error` texts of the handler's failure answers. */
  const INTERNAL_ERROR := "Internal server error"
  const INVALID_CODE_ERROR := "Invalid security code"
  const METHOD_ERROR := "Method not allowed"

  datatype Payload = NoContent | EntryList(entries: seq<Entry>) | SuccessFlag | ErrorMessage(error: string)

  datatype Response = Response(status: nat, payload: Payload)

  /** The state after a request and the answer it got. */
  datatype Reply = Reply(server: Server, response: Response)

  /** The client can be reused: it is not `null` and is open. */
  predicate Usable(c: Option<Connection>): (ok: bool)
    ensures ok ==> c.Some?
    ensures c.Some? ==> (ok <==> c.value.isOpen)
  {
    c.Some? && c.value.isOpen
  }

  /** The POST authorization check: the configured code or the fallback. Both sides may be
      missing, and JavaScript's `!==` treats two missing values as equal. */
  predicate Accepted(configured: Option<string>, posted: Option<string>): (ok: bool)
    ensures posted == Some(FALLBACK_CODE) ==> ok
    ensures posted.None? ==> (ok <==> configured.None?)
    ensures posted.Some? && posted.value != FALLBACK_CODE ==> (ok <==> configured == posted)
  {
    posted == configured || posted == Some(FALLBACK_CODE)
  }

  /** `getRedisClient`: reuse an open client, otherwise create the next one and connect it.
      The boolean is false when `connect` failed; the new client is then left unopened. */
  function Connect(s: Server, connectFails: bool): (r: (Server, bool))
    ensures r.0.store == s.store
    ensures r.1 <==> Usable(r.0.client)
    ensures Usable(s.client) ==> r == (s, true)
    ensures !Usable(s.client) ==>
      r.0.created == s.created + 1 && r.0.client.Some? && r.0.client.value.serial == r.0.created &&
      (r.1 <==> !connectFails)
  {
    if Usable(s.client) then (s, true)
    else (s.(client := Some(Connection(s.created + 1, !connectFails)), created := s.created + 1), !connectFails)
  }

  /** The catch block: the client is quit (errors ignored) and set to `null`, and 500 is sent. */
  function Failed(s: Server): (r: Reply)
    ensures r.server == s.(client := None) && r.response.status == 500
  {
    Reply(s.(client := None), Response(500, ErrorMessage(INTERNAL_ERROR)))
  }

  /** `handler`. `connectFails` is the outcome of `connect` should a client be created,
      `commandFails` that of the store command (`get` or `set`) should one be issued. */
  function Handle(s: Server, configured: Option<string>, req: Request, connectFails: bool, commandFails: bool): (r: Reply)
    ensures r.response.status in {200, 401, 405, 500}
    ensures r.response.status == 500 ==> r.server.client.None?
    ensures r.server.store != s.store ==>
      req.verb == "POST" && req.body.Some? && Accepted(configured, req.body.value.securityCode) &&
      r.server.store == Some(req.body.value.qrCodes) && r.response == Response(200, SuccessFlag)
  {
    if req.verb == "OPTIONS" then Reply(s, Response(200, NoContent))
    else
      var (c, ok) := Connect(s, connectFails);
      if !ok then Failed(c)
      else if req.verb == "GET" then
        if commandFails then Failed(c)
        else Reply(c, Response(200, EntryList(c.store.GetOr([]))))
      else if req.verb == "POST" then
        match req.body
        case None => Failed(c)
        case Some(body) =>
          if !Accepted(configured, body.securityCode) then
            Reply(c, Response(401, ErrorMessage(INVALID_CODE_ERROR)))
          else if commandFails then Failed(c)
          else Reply(c.(store := Some(body.qrCodes)), Response(200, SuccessFlag))
      else Reply(c, Response(405, ErrorMessage(METHOD_ERROR)))
  }

  /** A preflight is answered 200 with no body and touches neither client nor store. */
  lemma OptionsUntouched(s: Server, configured: Option<string>, body: Option<PostBody>, connectFails: bool, commandFails: bool)
    ensures Handle(s, configured, Request("OPTIONS", body), connectFails, commandFails) == Reply(s, Response(200, NoContent))
  {
  }

  /** GET never writes; when it succeeds it returns the stored list, or [] when the key is absent. */
  lemma GetReadsOnly(s: Server, configured: Option<string>, body: Option<PostBody>, connectFails: bool, commandFails: bool)
    ensures var r := Handle(s, configured, Request("GET", body), connectFails, commandFails);
      r.server.store == s.store &&
      (r.response.status == 200 <==> (Usable(s.client) || !connectFails) && !commandFails) &&
      (r.response.status == 200 ==> r.response.payload == EntryList(s.store.GetOr([])))
  {
  }

  /** Two GETs with no write between them answer the same list. */
  lemma GetTwiceSame(s: Server, configured: Option<string>, b1: Option<PostBody>, b2: Option<PostBody>,
                     cf1: bool, mf1: bool, cf2: bool, mf2: bool)
    ensures var r1 := Handle(s, configured, Request("GET", b1), cf1, mf1);
      var r2 := Handle(r1.server, configured, Request("GET", b2), cf2, mf2);
      r1.response.status == 200 && r2.response.status == 200 ==> r1.response == r2.response
  {
  }

  /** A POST with a code that is neither accepted value never writes; once connected it gets 401. */
  lemma RejectedPost(s: Server, configured: Option<string>, body: PostBody, connectFails: bool, commandFails: bool)
    requires !Accepted(configured, body.securityCode)
    ensures var r := Handle(s, configured, Request("POST", Some(body)), connectFails, commandFails);
      r.server.store == s.store &&
      ((Usable(s.client) || !connectFails) ==> r.response == Response(401, ErrorMessage(INVALID_CODE_ERROR)))
  {
  }

  /** An accepted POST overwrites the key whatever it held, answers `{success: true}`,
      and a GET right after returns the posted list. */
  lemma AcceptedPostRoundTrip(s: Server, configured: Option<string>, body: PostBody, connectFails: bool,
                              getBody: Option<PostBody>, cf: bool, mf: bool)
    requires Accepted(configured, body.securityCode)
    requires Usable(s.client) || !connectFails
    ensures var r := Handle(s, configured, Request("POST", Some(body)), connectFails, false);
      r.server.store == Some(body.qrCodes) && r.response == Response(200, SuccessFlag) &&
      var g := Handle(r.server, configured, Request("GET", getBody), cf, mf);
      g.response.status == 200 ==> g.response.payload == EntryList(body.qrCodes)
  {
  }

  /** Every method besides OPTIONS, GET and POST is refused with 405 once connected and never writes. */
  lemma OtherMethodRefused(s: Server, configured: Option<string>, req: Request, connectFails: bool, commandFails: bool)
    requires req.verb !in {"OPTIONS", "GET", "POST"}
    ensures var r := Handle(s, configured, req, connectFails, commandFails);
      r.server.store == s.store &&
      (r.response.status == 405 <==> Usable(s.client) || !connectFails) &&
      (r.response.status != 405 ==> r.response.status == 500)
  {
  }

  /** After a 500 the client is gone, so the next non-preflight request creates a new one. */
  lemma FailureForcesNewClient(s: Server, configured: Option<string>, req: Request, connectFails: bool, commandFails: bool,
                               next: Request, cf: bool, mf: bool)
    requires next.verb != "OPTIONS"
    ensures var r := Handle(s, configured, req, connectFails, commandFails);
      r.response.status == 500 ==>
        var n := Handle(r.server, configured, next, cf, mf);
        n.server.created == r.server.created + 1
  {
  }

  /** When no code is configured, a POST that omits the code is accepted. */
  lemma MissingCodeAcceptedWhenUnconfigured()
    ensures Accepted(None, None)
  {
  }

  /** The module-level state of the handler's process. */
  class QrCodesHandler {
    /** `process.env.SECURITY_CODE`, None when unset. */
    const configuredCode: Option<string>
    /** The value under the key `qrCodes` in the external store. */
    var store: Option<seq<Entry>>
    /** The module-level `client`. */
    var client: Option<Connection>
    /** How many clients `createClient` made so far. */
    var created: nat

    function State(): Server
      reads this
    {
      Server(store, client, created)
    }

    /** A freshly loaded module (`client = null`) over whatever the store holds. */
    constructor (configuredCode: Option<string>, store: Option<seq<Entry>>)
      ensures this.configuredCode == configuredCode
      ensures State() == Server(store, None, 0)
    {
      this.configuredCode := configuredCode;
      this.store := store;
      client := None;
      created := 0;
    }

    /** `getRedisClient`: false when `connect` threw. */
    method GetRedisClient(connectFails: bool) returns (ok: bool)
      modifies this
      ensures (State(), ok) == Connect(old(State()), connectFails)
    {
      if client.None? || !client.value.isOpen {
        created := created + 1;
        client := Some(Connection(created, false));
        if connectFails {
          return false;
        }
        client := Some(client.value.(isOpen := true));
      }
      return true;
    }

    /** The catch block of `handler`. */
    method Fail() returns (response: Response)
      modifies this
      ensures State() == old(State()).(client := None)
      ensures response == Failed(old(State())).response
    {
      if client.Some? {
        client := None;
      }
      response := Response(500, ErrorMessage(INTERNAL_ERROR));
    }

    /** `handler`, against the specification `Handle`. */
    method Handler(req: Request, connectFails: bool, commandFails: bool) returns (response: Response)
      modifies this
      ensures Reply(State(), response) == Handle(old(State()), configuredCode, req, connectFails, commandFails)
    {
      if req.verb == "OPTIONS" {
        return Response(200, NoContent);
      }
      var ok := GetRedisClient(connectFails);
      if !ok {
        response := Fail();
        return;
      }
      if req.verb == "GET" {
        if commandFails {
          response := Fail();
          return;
        }
        var data := store;
        var qrCodes := if data.Some? then data.value else [];
        return Response(200, EntryList(qrCodes));
      }
      if req.verb == "POST" {
        if req.body.None? {
          response := Fail();
          return;
        }
        var body := req.body.value;
        if body.securityCode != configuredCode && body.securityCode != Some(FALLBACK_CODE) {
          return Response(401, ErrorMessage(INVALID_CODE_ERROR));
        }
        if commandFails {
          response := Fail();
          return;
        }
        store := Some(body.qrCodes);
        return Response(200, SuccessFlag);
      }
      return Response(405, ErrorMessage(METHOD_ERROR));
    }

    /** The client closing on its own, as when its reconnect strategy gives up. */
    method ConnectionLost()
      modifies this
      ensures store == old(store) && created == old(created)
      ensures client == if old(client).Some? then Some(old(client).value.(isOpen := false)) else None
    {
      if client.Some? {
        client := Some(client.value.(isOpen := false));
      }
    }
  }
}
