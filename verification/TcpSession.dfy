/**
 * The TCP connection state machine of services/gateway/internal/server/tcp_handler.go.
 *
 * The message loop handles one message at a time; a request that may be routed is handed to a
 * goroutine and answered later.  What the collaborators (authentication, session store, rate
 * limiter, router, transport) answer is part of the event.  A request whose envelope cannot be extracted
 * reaches the validation as a nil request, which ends the process.
 */
module TcpSession {
  import opened Common
  import Wire = WireProtocol

  type Id = string

  /** `hasToken`: the request came in an envelope whose message token is not empty. */
  datatype Req = Req(id: Id, idValid: bool, methodValid: bool, isInitialize: bool, initTokenOk: bool, hasToken: bool)

  datatype Msg =
    | VersionNegotiation(min: Wire.u16, max: Wire.u16)
    | Request(req: Option<Req>)
    | HealthCheck
    | UnexpectedResponse
    | ErrorNotice
    | UnexpectedVersionAck
    | Control
    | ReceiveFailed(timeout: bool)

  datatype Rate = RateError | Denied | Allowed

  /** What the collaborators answer while one message is handled; `messageAuth`: there is a token validator. */
  datatype World = World(
    authOk: bool,
    newSession: Option<nat>,
    messageAuth: bool,
    tokenValid: bool,
    rate: Rate,
    sendOk: bool)

  /** A response sent for a request, and the id it carries. */
  datatype Response = Response(request: Id, carried: Id)

  datatype Conn = Conn(
    open: bool,
    panicked: bool,
    versionNegotiated: bool,
    agreedVersion: Wire.u16,
    authenticated: bool,
    session: Option<nat>,
    inFlight: multiset<Id>,     // requests routed, not answered yet
    responses: seq<Response>)   // response sends attempted, in order

  /** A routed request completes with the id its response carries, or with a routing error. */
  datatype Event =
    | Receive(msg: Msg, w: World)
    | Complete(id: Id, carried: Option<Id>)
    | Cancel

  const FRESH := Conn(true, false, false, 0, false, None, multiset{}, [])

  // ----------------------------------------------------------------------------- the handlers

  function Respond(c: Conn, id: Id, open: bool): Conn {
    c.(responses := c.responses + [Response(id, id)], open := open)
  }

  /** `validatePerMessageAuth`: a request without a token passes even where tokens are validated. */
  predicate MessageTokenOk(req: Req, w: World) {
    !w.messageAuth || !req.hasToken || w.tokenValid
  }

  function HandleVersionNegotiation(c: Conn, min: Wire.u16, max: Wire.u16, w: World): Conn {
    if c.versionNegotiated then c
    else
      var agreed := Wire.NegotiateVersion(min, max, Wire.MIN_VERSION, Wire.MAX_VERSION);
      if agreed.None? then c.(open := false)
      else c.(agreedVersion := agreed.value, versionNegotiated := true, open := w.sendOk)
  }

  function HandleInitialization(c: Conn, req: Req, w: World): Conn {
    if !req.isInitialize || !req.initTokenOk then Respond(c, req.id, true)
    else if !w.authOk then Respond(c, req.id, false)
    else if w.newSession.None? then Respond(c.(session := None), req.id, false)
    else Respond(c.(session := w.newSession, authenticated := true), req.id, w.sendOk)
  }

  function HandleRequest(c: Conn, req: Req, w: World): Conn {
    if !req.idValid || !req.methodValid then Respond(c, req.id, false)
    else if !c.authenticated then HandleInitialization(c, req, w)
    else if !MessageTokenOk(req, w) || w.rate != Allowed then Respond(c, req.id, false)
    else c.(inFlight := c.inFlight + multiset{req.id})
  }

  function HandleMessage(c: Conn, msg: Msg, w: World): Conn {
    match msg
    case VersionNegotiation(min, max) => HandleVersionNegotiation(c, min, max, w)
    case Request(req) => if req.None? then c.(panicked := true) else HandleRequest(c, req.value, w)
    case HealthCheck => c.(open := w.sendOk)
    case ReceiveFailed(_) => c
    case _ => c
  }

  function ProcessNext(c: Conn, msg: Msg, w: World): Conn {
    if msg.ReceiveFailed? then c.(open := msg.timeout && w.sendOk)
    else if !c.versionNegotiated && !msg.VersionNegotiation? then c.(open := false)
    else HandleMessage(c, msg, w)
  }

  predicate Enabled(c: Conn, e: Event) {
    !c.panicked &&
    match e
    case Receive(_, _) => c.open
    case Complete(id, _) => id in c.inFlight
    case Cancel => true
  }

  function Step(c: Conn, e: Event): Conn {
    match e
    case Receive(msg, w) => ProcessNext(c, msg, w)
    case Complete(id, carried) =>
      c.(inFlight := c.inFlight - multiset{id},
         responses := c.responses + [Response(id, if carried.Some? then carried.value else id)])
    case Cancel => c.(open := false)
  }

  function Run(es: seq<Event>): Conn {
    if es == [] then FRESH else Step(Run(es[..|es| - 1]), es[|es| - 1])
  }

  predicate IsRun(es: seq<Event>) {
    es == [] || (IsRun(es[..|es| - 1]) && Enabled(Run(es[..|es| - 1]), es[|es| - 1]))
  }

  // -------------------------------------------------------------------------- what a run means

  /** The event offers a version range that overlaps the server's. */
  predicate Negotiates(e: Event) {
    e.Receive? && e.msg.VersionNegotiation?
    && Wire.NegotiateVersion(e.msg.min, e.msg.max, Wire.MIN_VERSION, Wire.MAX_VERSION).Some?
  }

  predicate IsRequest(e: Event) {
    e.Receive? && e.msg.Request? && e.msg.req.Some?
  }

  /** A well-formed initialize request whose token is accepted and whose session is created. */
  predicate Authenticates(e: Event) {
    && IsRequest(e) && e.msg.req.value.idValid && e.msg.req.value.methodValid
    && e.msg.req.value.isInitialize && e.msg.req.value.initTokenOk && e.w.authOk && e.w.newSession.Some?
  }

  /** The request of `e` was handed to the router. */
  predicate Routes(c: Conn, e: Event) {
    IsRequest(e) && Step(c, e).inFlight == c.inFlight + multiset{e.msg.req.value.id}
  }

  /** The ids of the requests handled, each as often as it was handled. */
  function Handled(es: seq<Event>): multiset<Id> {
    if es == [] then multiset{}
    else
      var before, e := es[..|es| - 1], es[|es| - 1];
      Handled(before) +
      if IsRequest(e) && Run(before).versionNegotiated then multiset{e.msg.req.value.id} else multiset{}
  }

  // -------------------------------------------------------------------------------- main results

  /** The requests answered, each as often as a response was sent for it. */
  function Answered(responses: seq<Response>): multiset<Id> {
    if responses == [] then multiset{}
    else Answered(responses[..|responses| - 1]) + multiset{responses[|responses| - 1].request}
  }

  lemma AnsweredSnoc(responses: seq<Response>, r: Response)
    ensures Answered(responses + [r]) == Answered(responses) + multiset{r.request}
  {
    Snoc(responses, r);
  }

  /** A request is answered under its own id, or goes in flight. */
  predicate TakesIn(c: Conn, c': Conn, id: Id) {
    || (c'.responses == c.responses + [Response(id, id)] && c'.inFlight == c.inFlight)
    || (c'.responses == c.responses && c'.inFlight == c.inFlight + multiset{id})
  }

  lemma ReceiveTakesIn(c: Conn, msg: Msg, w: World)
    ensures var c' := ProcessNext(c, msg, w);
            if IsRequest(Receive(msg, w)) && c.versionNegotiated then TakesIn(c, c', msg.req.value.id)
            else c'.responses == c.responses && c'.inFlight == c.inFlight
  {
  }

  lemma TakenInCounts(c: Conn, c': Conn, id: Id)
    requires TakesIn(c, c', id)
    ensures Answered(c'.responses) + c'.inFlight == Answered(c.responses) + c.inFlight + multiset{id}
  {
    AnsweredSnoc(c.responses, Response(id, id));
  }

  /** One message adds the request it carries, if any, to those answered or in flight. */
  lemma ReceiveConserves(c: Conn, msg: Msg, w: World)
    ensures var c' := ProcessNext(c, msg, w);
            Answered(c'.responses) + c'.inFlight ==
            Answered(c.responses) + c.inFlight +
            if IsRequest(Receive(msg, w)) && c.versionNegotiated then multiset{msg.req.value.id} else multiset{}
  {
    ReceiveTakesIn(c, msg, w);
    if IsRequest(Receive(msg, w)) && c.versionNegotiated {
      TakenInCounts(c, ProcessNext(c, msg, w), msg.req.value.id);
    }
  }

  lemma CompleteConserves(c: Conn, id: Id, carried: Option<Id>)
    requires id in c.inFlight
    ensures var c' := Step(c, Complete(id, carried));
            Answered(c'.responses) + c'.inFlight == Answered(c.responses) + c.inFlight
  {
    AnsweredSnoc(c.responses, Response(id, if carried.Some? then carried.value else id));
    assert c.inFlight - multiset{id} + multiset{id} == c.inFlight;
  }

  /** In every run, each request handled has had exactly one response attempted or is still in flight. */
  lemma {:induction false} ResponsesConserved(es: seq<Event>)
    requires IsRun(es)
    ensures Handled(es) == Answered(Run(es).responses) + Run(es).inFlight
  {
    if es != [] {
      var before, e := es[..|es| - 1], es[|es| - 1];
      ResponsesConserved(before);
      match e
      case Receive(msg, w) => ReceiveConserves(Run(before), msg, w);
      case Complete(id, carried) => CompleteConserves(Run(before), id, carried);
      case Cancel =>
    }
  }

  /** Every response the router gives carries the id of its request. */
  predicate RouterKeepsIds(es: seq<Event>) {
    forall e <- es :: e.Complete? && e.carried.Some? ==> e.carried.value == e.id
  }

  predicate CarriesOwnId(r: Response) { r.carried == r.request }

  /** A response carries the id of the request it answers in every run exactly as far as the router's do. */
  lemma {:induction false} IdsKeptExactly(es: seq<Event>)
    requires IsRun(es)
    ensures (forall r <- Run(es).responses :: CarriesOwnId(r)) <==> RouterKeepsIds(es)
  {
    if es != [] {
      var before, e := es[..|es| - 1], es[|es| - 1];
      IdsKeptExactly(before);
      assert RouterKeepsIds(es) <==>
             RouterKeepsIds(before) && (e.Complete? && e.carried.Some? ==> e.carried.value == e.id) by {
        assert es == before + [e];
      }
      NewResponses(Run(before), e);
    }
  }

  /** A step adds at most one response, and only a completed request's can carry another id. */
  lemma NewResponses(c: Conn, e: Event)
    ensures var rs, rs' := c.responses, Step(c, e).responses;
            (forall r <- rs' :: CarriesOwnId(r)) <==>
            (forall r <- rs :: CarriesOwnId(r)) && (e.Complete? && e.carried.Some? ==> e.carried.value == e.id)
  {
    match e
    case Receive(msg, w) =>
      ReceiveTakesIn(c, msg, w);
      if IsRequest(e) { AllSnoc(c.responses, Response(msg.req.value.id, msg.req.value.id)); }
    case Complete(id, carried) =>
      AllSnoc(c.responses, Response(id, if carried.Some? then carried.value else id));
    case Cancel =>
  }

  lemma AllSnoc(rs: seq<Response>, r: Response)
    ensures (forall q <- rs + [r] :: CarriesOwnId(q)) <==> (forall q <- rs :: CarriesOwnId(q)) && CarriesOwnId(r)
  {
    assert r in rs + [r];
    forall q | q in rs ensures q in rs + [r] {}
  }

  /** A flag goes up only by the event that justifies it, and never comes down. */
  lemma FlagsRise(c: Conn, e: Event)
    ensures var c' := Step(c, e);
            && (c.versionNegotiated ==> c'.versionNegotiated && c'.agreedVersion == c.agreedVersion)
            && (c.authenticated ==> c'.authenticated && c'.session == c.session)
            && (!c.versionNegotiated && c'.versionNegotiated ==>
                  && Negotiates(e)
                  && Some(c'.agreedVersion) ==
                     Wire.NegotiateVersion(e.msg.min, e.msg.max, Wire.MIN_VERSION, Wire.MAX_VERSION))
            && (!c.authenticated && c'.authenticated ==>
                  Authenticates(e) && c.versionNegotiated && c'.session == e.w.newSession)
  {
  }

  /** The events that a connection's state goes back to: the negotiation, then the authentication. */
  lemma {:induction false} StateHasCause(es: seq<Event>) returns (i: nat, j: nat)
    requires IsRun(es)
    ensures Run(es).versionNegotiated ==>
              && i < |es| && Negotiates(es[i])
              && Some(Run(es).agreedVersion) == Wire.NegotiateVersion(es[i].msg.min, es[i].msg.max,
                                                                      Wire.MIN_VERSION, Wire.MAX_VERSION)
    ensures Run(es).authenticated ==>
              && i < j < |es| && Authenticates(es[j])
              && Run(es).versionNegotiated && Run(es).session == es[j].w.newSession
  {
    i, j := 0, 0;
    if es != [] {
      var before, e := es[..|es| - 1], es[|es| - 1];
      i, j := StateHasCause(before);
      FlagsRise(Run(before), e);
      if !Run(before).versionNegotiated { i := |es| - 1; }
      if !Run(before).authenticated { j := |es| - 1; }
    }
  }

  /**
   * Safety of routing, over every run: when the k-th event is routed, an earlier event negotiated
   * a supported version, a later one (still before k) authenticated and created the session the
   * connection now has, and the request itself passed validation and the rate limit, and its
   * message token if it had one and there is a validator for it.
   */
  lemma RoutedOnlyAfterHandshake(es: seq<Event>, k: nat) returns (i: nat, j: nat)
    requires IsRun(es) && k < |es| && Routes(Run(es[..k]), es[k])
    ensures i < j < k && Negotiates(es[i]) && Authenticates(es[j])
    ensures Wire.IsVersionSupported(Run(es[..k]).agreedVersion)
    ensures Run(es[..k]).session == es[j].w.newSession && es[j].w.newSession.Some?
    ensures es[k].msg.req.value.idValid && es[k].msg.req.value.methodValid
    ensures es[k].w.messageAuth && es[k].msg.req.value.hasToken ==> es[k].w.tokenValid
    ensures es[k].w.rate == Allowed
  {
    PrefixIsRun(es, k);
    i, j := StateHasCause(es[..k]);
    RoutedExactly(Run(es[..k]), es[k]);
  }

  /** What it takes for a request to be routed, no more and no less. */
  lemma RoutedExactly(c: Conn, e: Event)
    requires IsRequest(e)
    ensures var req := e.msg.req.value;
            Routes(c, e) <==>
            && c.versionNegotiated && c.authenticated && req.idValid && req.methodValid
            && (!e.w.messageAuth || !req.hasToken || e.w.tokenValid) && e.w.rate == Allowed
  {
    var id := e.msg.req.value.id;
    assert (c.inFlight + multiset{id})[id] == c.inFlight[id] + 1;
  }

  lemma {:induction false} PrefixIsRun(es: seq<Event>, k: nat)
    requires IsRun(es) && k <= |es|
    ensures IsRun(es[..k])
  {
    if k < |es| {
      PrefixIsRun(es[..|es| - 1], k);
      assert es[..|es| - 1][..k] == es[..k];
    } else {
      assert es[..k] == es;
    }
  }

  /** What is settled stays settled: the agreed version, and once authenticated the session. */
  lemma {:induction false} SettledOnce(es: seq<Event>, k: nat)
    requires IsRun(es) && k <= |es|
    ensures Run(es[..k]).versionNegotiated ==>
              Run(es).versionNegotiated && Run(es).agreedVersion == Run(es[..k]).agreedVersion
    ensures Run(es[..k]).authenticated ==>
              Run(es).authenticated && Run(es).session == Run(es[..k]).session
  {
    if k < |es| {
      SettledOnce(es[..|es| - 1], k);
      FlagsRise(Run(es[..|es| - 1]), es[|es| - 1]);
      assert es[..|es| - 1][..k] == es[..k];
    } else {
      assert es[..k] == es;
    }
  }

  // ------------------------------------------------------------------------ what is achieved

  /** Both sides can speak version `v`. */
  predicate Shared(min: Wire.u16, max: Wire.u16, v: Wire.u16) {
    min <= v <= max && Wire.IsVersionSupported(v)
  }

  /**
   * The first offer decides: with a shared version the connection agrees on the greatest one and
   * stays open exactly if the acknowledgement goes out; without one it closes.  Later offers change
   * nothing.
   */
  lemma NegotiationOutcome(c: Conn, min: Wire.u16, max: Wire.u16, w: World)
    requires c.open
    ensures var c' := Step(c, Receive(VersionNegotiation(min, max), w));
            if c.versionNegotiated then c' == c
            else if exists v: Wire.u16 :: Shared(min, max, v) then
              && c'.versionNegotiated && c'.open == w.sendOk
              && Shared(min, max, c'.agreedVersion) && (forall v: Wire.u16 :: Shared(min, max, v) ==> v <= c'.agreedVersion)
              && c' == c.(versionNegotiated := true, agreedVersion := c'.agreedVersion, open := c'.open)
            else c' == c.(open := false)
  {
    var r := Wire.NegotiateVersion(min, max, Wire.MIN_VERSION, Wire.MAX_VERSION);
    if r.Some? {
      assert Shared(min, max, r.value);
      forall v: Wire.u16 | Shared(min, max, v) ensures v <= r.value {
        assert Wire.Supports(min, max, v) && Wire.Supports(Wire.MIN_VERSION, Wire.MAX_VERSION, v);
      }
    } else {
      forall v: Wire.u16 ensures !Shared(min, max, v) {
        assert !(Wire.Supports(min, max, v) && Wire.Supports(Wire.MIN_VERSION, Wire.MAX_VERSION, v));
      }
    }
  }

  /** A request before authentication authenticates exactly if everything about the handshake is in order. */
  lemma InitializationOutcome(c: Conn, req: Req, w: World)
    requires c.open && c.versionNegotiated && !c.authenticated
    ensures var e := Receive(Request(Some(req)), w); var c' := Step(c, e);
            && (c'.authenticated <==> Authenticates(e))
            && (Authenticates(e) ==> c'.session == w.newSession && c'.open == w.sendOk)
            && (c'.session != c.session ==> c'.session == w.newSession)
            && (w.newSession.None? && Authenticates(Receive(Request(Some(req)), w.(newSession := Some(0)))) ==>
                  c'.session == None)
            && c'.responses == c.responses + [Response(req.id, req.id)]
  {
  }

  /** What ends a connection: exactly these. */
  predicate Ends(c: Conn, msg: Msg, w: World) {
    match msg
    case ReceiveFailed(timeout) => !timeout || !w.sendOk
    case VersionNegotiation(min, max) =>
      !c.versionNegotiated && ((forall v: Wire.u16 :: !Shared(min, max, v)) || !w.sendOk)
    case HealthCheck => !c.versionNegotiated || !w.sendOk
    case Request(Some(req)) =>
      || !c.versionNegotiated || !req.idValid || !req.methodValid
      || (if c.authenticated then !MessageTokenOk(req, w) || w.rate != Allowed
          else req.isInitialize && req.initTokenOk && (!w.authOk || w.newSession.None? || !w.sendOk))
    case _ => !c.versionNegotiated
  }

  lemma EndsExactly(c: Conn, msg: Msg, w: World)
    requires c.open
    ensures Step(c, Receive(msg, w)).open <==> !Ends(c, msg, w)
  {
    if msg.VersionNegotiation? { NegotiationOutcome(c, msg.min, msg.max, w); }
  }

  /** In any run, nothing but such a message or cancellation closes a connection, and nothing opens it again. */
  lemma ClosedForGood(c: Conn, e: Event)
    requires Enabled(c, e)
    ensures Step(c, e).open <==> c.open && !e.Cancel? && (e.Receive? ==> !Ends(c, e.msg, e.w))
  {
    if e.Receive? { EndsExactly(c, e.msg, e.w); }
  }

  /** A request that cannot be extracted is the last thing that happens. */
  lemma ExtractionFailureIsFatal(c: Conn, w: World, e: Event)
    requires c.open && c.versionNegotiated
    ensures !Enabled(Step(c, Receive(Request(None), w)), e)
  {
  }

  /** Until then a connection can always be cancelled, and what is in flight can still complete. */
  lemma CancelIsPossible(c: Conn, id: Id, carried: Option<Id>)
    requires !c.panicked
    ensures Enabled(c, Cancel) && !Step(c, Cancel).open
    ensures id in c.inFlight ==> Enabled(Step(c, Cancel), Complete(id, carried))
  {
  }

  /** A well-formed initialize request whose token is accepted. */
  predicate Initializes(req: Req, w: World) {
    && req.idValid && req.methodValid && req.isInitialize && req.initTokenOk
    && w.authOk && w.newSession.Some? && w.sendOk
  }

  /** The handshake leads somewhere: any offer with a shared version, any good initialize, any good request. */
  lemma HandshakePossible(min: Wire.u16, max: Wire.u16, v: Wire.u16, w: World, init: Req, w': World, req: Req, w'': World)
    requires Shared(min, max, v) && w.sendOk && Initializes(init, w')
    requires req.idValid && req.methodValid && MessageTokenOk(req, w'') && w''.rate == Allowed
    ensures var es := [Receive(VersionNegotiation(min, max), w), Receive(Request(Some(init)), w')];
            var e := Receive(Request(Some(req)), w'');
            IsRun(es + [e]) && Routes(Run(es), e) && Run(es + [e]).open
  {
    var offer, start, e := Receive(VersionNegotiation(min, max), w), Receive(Request(Some(init)), w'),
                           Receive(Request(Some(req)), w'');
    NegotiationOutcome(FRESH, min, max, w);
    var c1 := Step(FRESH, offer);
    InitializationOutcome(c1, init, w');
    var c2 := Step(c1, start);
    RoutedExactly(c2, e);
    assert [offer][..0] == [];
    assert Run([offer]) == c1 && IsRun([offer]);
    assert [offer, start][..1] == [offer];
    assert Run([offer, start]) == c2 && IsRun([offer, start]);
    Snoc([offer, start], e);
  }

  // ---------------------------------------------------------------------------- the mutable object

  class Connection {
    var open: bool
    var panicked: bool
    var versionNegotiated: bool
    var agreedVersion: Wire.u16
    var authenticated: bool
    var session: Option<nat>
    var inFlight: multiset<Id>
    var responses: seq<Response>

    function Model(): Conn
      reads this
    {
      Conn(open, panicked, versionNegotiated, agreedVersion, authenticated, session, inFlight, responses)
    }

    constructor ()
      ensures Model() == FRESH
    {
      open, panicked, versionNegotiated, agreedVersion := true, false, false, 0;
      authenticated, session, inFlight, responses := false, None, multiset{}, [];
    }

    method SendResponse(id: Id, carried: Id)
      modifies this`responses
      ensures responses == old(responses) + [Response(id, carried)]
    {
      responses := responses + [Response(id, carried)];
    }

    method ProcessNextMessage(msg: Msg, w: World)
      requires Enabled(Model(), Receive(msg, w))
      modifies this
      ensures Model() == Step(old(Model()), Receive(msg, w))
    {
      if msg.ReceiveFailed? {
        open := msg.timeout && w.sendOk;
        return;
      }
      if !versionNegotiated && !msg.VersionNegotiation? {
        open := false;
        return;
      }
      match msg
      case VersionNegotiation(min, max) => DoVersionNegotiation(min, max, w);
      case Request(req) =>
        if req == None {
          panicked := true;
        } else {
          DoRequest(req.value, w);
        }
      case HealthCheck => open := w.sendOk;
      case _ =>
    }

    method DoVersionNegotiation(min: Wire.u16, max: Wire.u16, w: World)
      requires open
      modifies this
      ensures Model() == HandleVersionNegotiation(old(Model()), min, max, w)
    {
      if versionNegotiated { return; }
      var agreed := Wire.NegotiateVersion(min, max, Wire.MIN_VERSION, Wire.MAX_VERSION);
      if agreed == None {
        open := false;
        return;
      }
      agreedVersion := agreed.value;
      versionNegotiated := true;
      open := w.sendOk;
    }

    method DoRequest(req: Req, w: World)
      requires open
      modifies this
      ensures Model() == HandleRequest(old(Model()), req, w)
    {
      if !req.idValid || !req.methodValid {
        SendResponse(req.id, req.id);
        open := false;
        return;
      }
      if !authenticated {
        DoInitialization(req, w);
        return;
      }
      if !MessageTokenOk(req, w) || w.rate != Allowed {
        SendResponse(req.id, req.id);
        open := false;
        return;
      }
      inFlight := inFlight + multiset{req.id};
    }

    method DoInitialization(req: Req, w: World)
      requires open
      modifies this
      ensures Model() == HandleInitialization(old(Model()), req, w)
    {
      if !req.isInitialize || !req.initTokenOk {
        SendResponse(req.id, req.id);
        return;
      }
      if !w.authOk {
        SendResponse(req.id, req.id);
        open := false;
        return;
      }
      session := w.newSession;
      if session == None {
        SendResponse(req.id, req.id);
        open := false;
        return;
      }
      authenticated := true;
      SendResponse(req.id, req.id);
      open := w.sendOk;
    }

    /** A routed request's goroutine ends: it answers with the response or with the routing error. */
    method ProcessRequestAsync(id: Id, carried: Option<Id>)
      requires Enabled(Model(), Complete(id, carried))
      modifies this
      ensures Model() == Step(old(Model()), Complete(id, carried))
    {
      inFlight := inFlight - multiset{id};
      SendResponse(id, if carried.Some? then carried.value else id);
    }
  }
}
