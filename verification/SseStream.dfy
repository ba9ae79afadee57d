/**
 * Request/response correlation over one SSE stream, services/gateway/internal/router/router.go
 * (`forwardRequestViaSSE` and `readSSEStream`), after section 5 of the JSON-RPC 2.0
 * specification: a response carries the id of its request.
 *
 * A requester registers a one-slot channel under its id, posts, and waits; the reader delivers
 * by id and forgets the entry; when the stream ends the reader closes every channel still
 * registered.  Each step below is one region under the stream's mutex, or one channel receive.
 */
module SseStream {
  import opened Common

  type ID = string

  datatype Response = Response(id: ID, body: string)

  /** A Go channel of capacity one, and how often something was put into it. */
  datatype Chan = Chan(slot: Option<Response>, closed: bool, sends: nat)

  /** What the requesters and the reader share; a channel is named after its requester. */
  datatype Stream = Stream(
    pending: map<ID, nat>,
    chans: map<nat, Chan>,
    open: bool,
    dropped: nat,      // times the non-blocking send took its default branch
    panicked: bool)    // a send to, or a second close of, a closed channel

  datatype Outcome = Got(resp: Response) | StreamClosed | PostFailed | Cancelled

  datatype Phase = Posting | Waiting | Finished(outcome: Outcome)

  /** `early` requesters registered while the reader was still running. */
  datatype Req = Req(id: ID, phase: Phase, early: bool)

  datatype Sys = Sys(stream: Stream, reqs: map<nat, Req>)

  datatype Event =
    | Register(r: nat, id: ID)
    | PostOk(r: nat)
    | PostErr(r: nat)
    | Deliver(resp: Response)
    | CloseStream
    | Receive(r: nat)
    | Abandon(r: nat)

  const NEW_CHAN := Chan(None, false, 0)
  const START := Sys(Stream(map[], map[], true, 0, false), map[])

  // ------------------------------------------------------------------- the shared structure

  function Registered(st: Stream, r: nat, id: ID): Stream {
    st.(pending := st.pending[id := r], chans := st.chans[r := NEW_CHAN])
  }

  function Removed(st: Stream, id: ID): Stream {
    st.(pending := st.pending - {id})
  }

  function Delivered(st: Stream, resp: Response): Stream {
    if resp.id !in st.pending || st.pending[resp.id] !in st.chans then st
    else
      var r := st.pending[resp.id];
      var ch := st.chans[r];
      var st' := Removed(st, resp.id);
      if ch.closed then st'.(panicked := true)
      else if ch.slot.Some? then st'.(dropped := st.dropped + 1)
      else st'.(chans := st.chans[r := Chan(Some(resp), false, ch.sends + 1)])
  }

  function ClosedIn(chans: map<nat, Chan>, rs: set<nat>): map<nat, Chan> {
    map r <- chans :: if r in rs then chans[r].(closed := true) else chans[r]
  }

  predicate SomeClosed(chans: map<nat, Chan>, rs: set<nat>) {
    exists r <- rs :: r in chans && chans[r].closed
  }

  /** Closes the channels of all entries; the entries themselves stay. */
  function Closed(st: Stream): Stream {
    st.(open := false,
        panicked := st.panicked || SomeClosed(st.chans, st.pending.Values),
        chans := ClosedIn(st.chans, st.pending.Values))
  }

  /** What a delivery does to any stream at all, good or bad: it fills an open empty channel and nothing else. */
  lemma DeliverEffects(st: Stream, resp: Response)
    requires resp.id in st.pending && st.pending[resp.id] in st.chans
    ensures var st', r := Delivered(st, resp), st.pending[resp.id]; var ch := st.chans[r];
            && st'.pending == st.pending - {resp.id} && st'.open == st.open
            && (st'.panicked <==> st.panicked || ch.closed)
            && st'.dropped == st.dropped + (if !ch.closed && ch.slot.Some? then 1 else 0)
            && st'.chans == if ch.closed || ch.slot.Some? then st.chans
                            else st.chans[r := Chan(Some(resp), false, ch.sends + 1)]
  {
  }

  /** Ending a stream is bad exactly if a channel it closes was closed already. */
  lemma CloseEffects(st: Stream)
    ensures Closed(st).panicked <==>
            st.panicked || exists id <- st.pending :: st.pending[id] in st.chans && st.chans[st.pending[id]].closed
  {
    if SomeClosed(st.chans, st.pending.Values) {
      var r :| r in st.pending.Values && r in st.chans && st.chans[r].closed;
      var id :| id in st.pending && st.pending[id] == r;
    }
    if id :| id in st.pending && st.pending[id] in st.chans && st.chans[st.pending[id]].closed {
      assert st.pending[id] in st.pending.Values;
    }
  }

  predicate Receivable(st: Stream, r: nat) {
    r in st.chans && (st.chans[r].slot.Some? || st.chans[r].closed)
  }

  function ReceiveFrom(st: Stream, r: nat): (Option<Response>, Stream)
    requires Receivable(st, r)
  {
    (st.chans[r].slot, st.(chans := st.chans[r := st.chans[r].(slot := None)]))
  }

  // ---------------------------------------------------------------------------- the protocol

  predicate InPhase(s: Sys, r: nat, p: Phase) {
    r in s.reqs && s.reqs[r].phase == p
  }

  predicate Enabled(s: Sys, e: Event) {
    match e
    case Register(r, _) => r !in s.reqs
    case PostOk(r) => InPhase(s, r, Posting)
    case PostErr(r) => InPhase(s, r, Posting)
    case Deliver(_) => s.stream.open
    case CloseStream => s.stream.open
    case Receive(r) => InPhase(s, r, Waiting) && Receivable(s.stream, r)
    case Abandon(r) => InPhase(s, r, Waiting)
  }

  function Move(s: Sys, r: nat, p: Phase): map<nat, Req>
    requires r in s.reqs
  {
    s.reqs[r := s.reqs[r].(phase := p)]
  }

  function Step(s: Sys, e: Event): Sys
    requires Enabled(s, e)
  {
    match e
    case Register(r, id) => Sys(Registered(s.stream, r, id), s.reqs[r := Req(id, Posting, s.stream.open)])
    case PostOk(r) => s.(reqs := Move(s, r, Waiting))
    case PostErr(r) => Sys(Removed(s.stream, s.reqs[r].id), Move(s, r, Finished(PostFailed)))
    case Deliver(resp) => s.(stream := Delivered(s.stream, resp))
    case CloseStream => s.(stream := Closed(s.stream))
    case Receive(r) =>
      var (resp, st) := ReceiveFrom(s.stream, r);
      Sys(st, Move(s, r, Finished(if resp.Some? then Got(resp.value) else StreamClosed)))
    case Abandon(r) => Sys(Removed(s.stream, s.reqs[r].id), Move(s, r, Finished(Cancelled)))
  }

  predicate InFlight(s: Sys, r: nat) {
    r in s.reqs && !s.reqs[r].phase.Finished?
  }

  predicate Leads(s: Sys, es: seq<Event>, t: Sys)
    decreases es
  {
    if es == [] then s == t
    else Enabled(s, es[0]) && Leads(Step(s, es[0]), es[1..], t)
  }

  // ------------------------------------------------------------------------------ invariants

  predicate WellFormed(s: Sys) {
    && s.reqs.Keys == s.stream.chans.Keys
    && (forall id <- s.stream.pending ::
          s.stream.pending[id] in s.reqs && s.reqs[s.stream.pending[id]].id == id)
  }

  predicate IsPending(s: Sys, r: nat) {
    r in s.reqs && s.reqs[r].id in s.stream.pending && s.stream.pending[s.reqs[r].id] == r
  }

  /** What is known of requester `r` and its channel. */
  predicate ReqInv(s: Sys, r: nat)
    requires r in s.reqs && r in s.stream.chans
  {
    var q, ch := s.reqs[r], s.stream.chans[r];
    && ch.sends <= 1
    && (ch.slot.Some? ==> ch.slot.value.id == q.id)
    && (q.phase.Finished? && q.phase.outcome.Got? ==> q.phase.outcome.resp.id == q.id)
    && (s.stream.open ==> q.early && !ch.closed)
    && (s.stream.open && IsPending(s, r) ==> InFlight(s, r) && ch == NEW_CHAN)
    && (!q.early ==> ch == NEW_CHAN && (q.phase.Finished? ==>
          q.phase.outcome == PostFailed || q.phase.outcome == Cancelled))
  }

  predicate Inv(s: Sys) {
    && WellFormed(s)
    && (forall r <- s.reqs :: ReqInv(s, r))
    && s.stream.dropped == 0 && !s.stream.panicked
  }

  lemma RegisterKeeps(s: Sys, r: nat, id: ID)
    requires Inv(s) && r !in s.reqs
    ensures Inv(Step(s, Register(r, id)))
  {
    var s' := Step(s, Register(r, id));
    forall q <- s'.reqs ensures ReqInv(s', q) {
      if q != r { assert ReqInv(s, q); }
    }
  }

  /** A requester that gives up removes whatever entry its id has. */
  lemma GiveUpKeeps(s: Sys, r: nat, o: Outcome)
    requires Inv(s) && InFlight(s, r) && (o == PostFailed || o == Cancelled)
    ensures Inv(Sys(Removed(s.stream, s.reqs[r].id), Move(s, r, Finished(o))))
  {
    var s' := Sys(Removed(s.stream, s.reqs[r].id), Move(s, r, Finished(o)));
    forall q <- s'.reqs ensures ReqInv(s', q) {
      assert ReqInv(s, q);
    }
  }

  lemma DeliverKeeps(s: Sys, resp: Response)
    requires Inv(s) && s.stream.open
    ensures Inv(Step(s, Deliver(resp)))
  {
    var s' := Step(s, Deliver(resp));
    if resp.id in s.stream.pending {
      var r := s.stream.pending[resp.id];
      assert ReqInv(s, r) && IsPending(s, r);
    }
    forall q <- s'.reqs ensures ReqInv(s', q) {
      assert ReqInv(s, q);
    }
  }

  lemma CloseKeeps(s: Sys)
    requires Inv(s) && s.stream.open
    ensures Inv(Step(s, CloseStream))
  {
    var s' := Step(s, CloseStream);
    forall q <- s'.reqs ensures ReqInv(s', q) {
      assert ReqInv(s, q);
    }
    forall r <- s.stream.chans ensures !s.stream.chans[r].closed { assert ReqInv(s, r); }
  }

  lemma ReceiveKeeps(s: Sys, r: nat)
    requires Inv(s) && Enabled(s, Receive(r))
    ensures Inv(Step(s, Receive(r)))
  {
    var s' := Step(s, Receive(r));
    assert ReqInv(s, r);
    forall q <- s'.reqs ensures ReqInv(s', q) {
      assert ReqInv(s, q);
    }
  }

  lemma StepKeepsInv(s: Sys, e: Event)
    requires Inv(s) && Enabled(s, e)
    ensures Inv(Step(s, e))
  {
    match e
    case Register(r, id) => RegisterKeeps(s, r, id);
    case PostOk(r) =>
      var s' := Step(s, e);
      forall q <- s'.reqs ensures ReqInv(s', q) { assert ReqInv(s, q); }
    case PostErr(r) => GiveUpKeeps(s, r, PostFailed);
    case Deliver(resp) => DeliverKeeps(s, resp);
    case CloseStream => CloseKeeps(s);
    case Receive(r) => ReceiveKeeps(s, r);
    case Abandon(r) => GiveUpKeeps(s, r, Cancelled);
  }

  lemma {:induction false} RunKeepsInv(s: Sys, es: seq<Event>, t: Sys)
    requires Inv(s) && Leads(s, es, t)
    ensures Inv(t)
    decreases es
  {
    if es != [] {
      StepKeepsInv(s, es[0]);
      RunKeepsInv(Step(s, es[0]), es[1..], t);
    }
  }

  // -------------------------------------------------------------------- who loses its entry

  /** The event takes the entry of `r` from it, on a live stream: another request uses the same id. */
  predicate Displaces(s: Sys, e: Event, r: nat) {
    && s.stream.open && IsPending(s, r)
    && match e
       case Register(q, id) => id == s.reqs[r].id
       case PostErr(q) => q != r && q in s.reqs && s.reqs[q].id == s.reqs[r].id
       case Abandon(q) => q != r && q in s.reqs && s.reqs[q].id == s.reqs[r].id
       case _ => false
  }

  /** Some event of the run from `s` does. */
  predicate Displaced(s: Sys, es: seq<Event>, r: nat)
    decreases es
  {
    es != [] && Enabled(s, es[0]) && (Displaces(s, es[0], r) || Displaced(Step(s, es[0]), es[1..], r))
  }

  /** A displaced requester has nothing coming; any other one in time has, or will when the stream ends. */
  predicate Fate(s: Sys, r: nat, displaced: bool) {
    && (displaced ==> r in s.reqs && r in s.stream.chans && s.reqs[r].early
                      && !IsPending(s, r) && s.stream.chans[r] == NEW_CHAN)
    && (!displaced && r in s.reqs && r in s.stream.chans && s.reqs[r].early && InFlight(s, r) ==>
          if s.stream.open then IsPending(s, r) || s.stream.chans[r].slot.Some? else Receivable(s.stream, r))
  }

  lemma FateStep(s: Sys, e: Event, r: nat, displaced: bool)
    requires Inv(s) && Enabled(s, e) && Fate(s, r, displaced)
    ensures Fate(Step(s, e), r, displaced || Displaces(s, e, r))
  {
    if r in s.reqs { assert ReqInv(s, r); }
    if e.CloseStream? && IsPending(s, r) { assert r in s.stream.pending.Values; }
    if e.Deliver? && e.resp.id in s.stream.pending { assert ReqInv(s, s.stream.pending[e.resp.id]); }
  }

  lemma {:induction false} FateOf(s: Sys, es: seq<Event>, t: Sys, r: nat, displaced: bool)
    requires Inv(s) && Leads(s, es, t) && Fate(s, r, displaced)
    ensures Fate(t, r, displaced || Displaced(s, es, r))
    decreases es
  {
    if es != [] {
      StepKeepsInv(s, es[0]);
      FateStep(s, es[0], r, displaced);
      FateOf(Step(s, es[0]), es[1..], t, r, displaced || Displaces(s, es[0], r));
    }
  }

  // ---------------------------------------------------------------------------- main results

  /**
   * In every interleaving, whatever ids the requests use: nothing is sent to a closed channel, no
   * channel is closed twice, the default branch is never taken, no channel is sent to twice, and a
   * response received answers the receiver's own id.
   */
  lemma CorrelationIsSafe(es: seq<Event>, t: Sys, r: nat)
    requires Leads(START, es, t)
    ensures !t.stream.panicked && t.stream.dropped == 0
    ensures r in t.reqs ==> r in t.stream.chans && t.stream.chans[r].sends <= 1
    ensures r in t.reqs && t.reqs[r].phase.Finished? && t.reqs[r].phase.outcome.Got? ==>
              t.reqs[r].phase.outcome.resp.id == t.reqs[r].id
  {
    RunKeepsInv(START, es, t);
    if r in t.reqs { assert ReqInv(t, r); }
  }

  /**
   * Once the stream has ended, a waiting requester can receive (a response or the closing) exactly
   * if it registered before the end and no other request under its id registered, failed its post
   * or was cancelled while it was pending; one that registered later only ever fails its post or
   * is cancelled.
   */
  lemma AnsweredExactly(es: seq<Event>, t: Sys, r: nat)
    requires Leads(START, es, t) && !t.stream.open && r in t.reqs
    ensures t.reqs[r].phase.Waiting? ==>
              (Enabled(t, Receive(r)) <==> t.reqs[r].early && !Displaced(START, es, r))
    ensures !t.reqs[r].early && t.reqs[r].phase.Finished? ==>
              t.reqs[r].phase.outcome == PostFailed || t.reqs[r].phase.outcome == Cancelled
  {
    RunKeepsInv(START, es, t);
    FateOf(START, es, t, r, false);
    assert ReqInv(t, r);
  }

  /**
   * While the stream lives, the response to an unanswered request reaches its requester exactly if
   * that has not been displaced.
   */
  lemma ResponseFindsItsRequester(es: seq<Event>, t: Sys, r: nat, resp: Response)
    requires Leads(START, es, t) && t.stream.open && InFlight(t, r)
    requires !Receivable(t.stream, r) && resp.id == t.reqs[r].id
    ensures r in Delivered(t.stream, resp).chans
    ensures Delivered(t.stream, resp).chans[r].slot == Some(resp) <==> !Displaced(START, es, r)
  {
    RunKeepsInv(START, es, t);
    FateOf(START, es, t, r, false);
    assert ReqInv(t, r);
  }

  // ------------------------------------------------------------------------ what is received

  /** The response, if any, delivered under the id of `r` while `r` was pending, in the run from `s`. */
  function Mail(s: Sys, es: seq<Event>, r: nat, sofar: Option<Response>): Option<Response>
    decreases es
  {
    if es == [] || !Enabled(s, es[0]) then sofar
    else Mail(Step(s, es[0]), es[1..], r, NextMail(s, es[0], r, sofar))
  }

  function NextMail(s: Sys, e: Event, r: nat, sofar: Option<Response>): Option<Response> {
    if e.Deliver? && IsPending(s, r) && e.resp.id == s.reqs[r].id then Some(e.resp) else sofar
  }

  /** A requester in flight has its mail in its channel; one that has received has it as its outcome. */
  predicate MailInv(s: Sys, r: nat, mail: Option<Response>) {
    if r !in s.reqs || r !in s.stream.chans then mail == None
    else
      match s.reqs[r].phase
      case Finished(Got(resp)) => mail == Some(resp) && s.stream.chans[r].slot == None
      case Finished(StreamClosed) => mail == None && s.stream.chans[r].slot == None
      case Finished(_) => true
      case _ => s.stream.chans[r].slot == mail
  }

  lemma MailStep(s: Sys, e: Event, r: nat, mail: Option<Response>)
    requires Inv(s) && Enabled(s, e) && MailInv(s, r, mail)
    ensures MailInv(Step(s, e), r, NextMail(s, e, r, mail))
  {
    if r in s.reqs { assert ReqInv(s, r); }
  }

  lemma {:induction false} MailArrives(s: Sys, es: seq<Event>, t: Sys, r: nat, mail: Option<Response>)
    requires Inv(s) && Leads(s, es, t) && MailInv(s, r, mail)
    ensures MailInv(t, r, Mail(s, es, r, mail))
    decreases es
  {
    if es != [] {
      StepKeepsInv(s, es[0]);
      MailStep(s, es[0], r, mail);
      MailArrives(Step(s, es[0]), es[1..], t, r, NextMail(s, es[0], r, mail));
    }
  }

  /**
   * In every run a requester that receives gets the very response delivered under its id while it
   * was pending, which then is no longer in the channel, and is told that the stream closed exactly
   * when there was none.
   */
  lemma ReceivesExactly(es: seq<Event>, t: Sys, r: nat)
    requires Leads(START, es, t) && r in t.reqs && t.reqs[r].phase.Finished?
    requires t.reqs[r].phase.outcome.Got? || t.reqs[r].phase.outcome.StreamClosed?
    ensures var mail := Mail(START, es, r, None);
            t.reqs[r].phase.outcome == if mail.Some? then Got(mail.value) else StreamClosed
    ensures r in t.stream.chans && t.stream.chans[r].slot == None
  {
    RunKeepsInv(START, es, t);
    MailArrives(START, es, t, r, None);
  }

  lemma {:induction false} LeadsConcat(s: Sys, es: seq<Event>, t: Sys, fs: seq<Event>, u: Sys)
    requires Leads(s, es, t) && Leads(t, fs, u)
    ensures Leads(s, es + fs, u)
    decreases es
  {
    if es == [] {
      assert es + fs == fs;
    } else {
      LeadsConcat(Step(s, es[0]), es[1..], t, fs, u);
      assert (es + fs)[1..] == es[1..] + fs;
    }
  }

  /** And at any point of any run, while the stream is live, a new request can be posted and answered. */
  lemma ExchangeSucceeds(es: seq<Event>, t: Sys, r: nat, resp: Response) returns (u: Sys)
    requires Leads(START, es, t) && t.stream.open && r !in t.reqs
    ensures Leads(START, es + [Register(r, resp.id), PostOk(r), Deliver(resp), Receive(r)], u)
    ensures r in u.reqs && u.reqs[r] == Req(resp.id, Finished(Got(resp)), true)
  {
    RunKeepsInv(START, es, t);
    var s1 := Step(t, Register(r, resp.id));
    var s2 := Step(s1, PostOk(r));
    var s3 := Step(s2, Deliver(resp));
    u := Step(s3, Receive(r));
    assert Leads(u, [], u);
    assert Leads(s3, [Receive(r)], u);
    assert Leads(s2, [Deliver(resp), Receive(r)], u);
    assert Leads(s1, [PostOk(r), Deliver(resp), Receive(r)], u);
    assert Leads(t, [Register(r, resp.id), PostOk(r), Deliver(resp), Receive(r)], u);
    LeadsConcat(START, es, t, [Register(r, resp.id), PostOk(r), Deliver(resp), Receive(r)], u);
  }

  /** No two requests in flight share an id. */
  predicate Distinct(s: Sys) {
    forall a <- s.reqs, b <- s.reqs :: a != b && InFlight(s, a) && InFlight(s, b) ==> s.reqs[a].id != s.reqs[b].id
  }

  /** All through the run. */
  predicate StaysDistinct(s: Sys, es: seq<Event>)
    decreases es
  {
    Distinct(s) && (es != [] && Enabled(s, es[0]) ==> StaysDistinct(Step(s, es[0]), es[1..]))
  }

  /** So nobody is displaced where requests in flight have distinct ids. */
  lemma {:induction false} DistinctIdsDisplaceNobody(s: Sys, es: seq<Event>, r: nat)
    requires Inv(s) && StaysDistinct(s, es)
    ensures !Displaced(s, es, r)
    decreases es
  {
    if es != [] && Enabled(s, es[0]) {
      StepKeepsInv(s, es[0]);
      DistinctIdsDisplaceNobody(Step(s, es[0]), es[1..], r);
      if Displaces(s, es[0], r) {
        assert ReqInv(s, r);
        var q := match es[0] case Register(q, _) => q case PostErr(q) => q case Abandon(q) => q case _ => r;
        var s' := if es[0].Register? then Step(s, es[0]) else s;
        assert Distinct(s') && q in s'.reqs && InFlight(s', q) && InFlight(s', r);
      }
    }
  }

  lemma LeadsSnoc(s: Sys, es: seq<Event>, t: Sys, e: Event)
    requires Leads(s, es, t) && Enabled(t, e)
    ensures Leads(s, es + [e], Step(t, e))
    decreases es
  {
    if es != [] {
      LeadsSnoc(Step(s, es[0]), es[1..], t, e);
      assert (es + [e])[1..] == es[1..] + [e];
    }
  }

  /** Under a shared id the first requester can be the one left waiting for ever. */
  lemma LaterRegistrationStrands()
    ensures exists es, t: Sys :: Leads(START, es, t) && !t.stream.open && t.reqs.Keys == {0, 1}
                                 && t.reqs[0] == Req("a", Waiting, true) && !Enabled(t, Receive(0))
  {
    var s1 := Step(START, Register(0, "a"));
    var s2 := Step(s1, Register(1, "a"));
    var s3 := Step(s2, PostOk(0));
    LeadsSnoc(START, [], START, Register(0, "a"));
    LeadsSnoc(START, [] + [Register(0, "a")], s1, Register(1, "a"));
    LeadsSnoc(START, [] + [Register(0, "a")] + [Register(1, "a")], s2, PostOk(0));
    LeadsSnoc(START, [] + [Register(0, "a")] + [Register(1, "a")] + [PostOk(0)], s3, CloseStream);
    assert s3.stream.pending == map["a" := 1];
    assert 0 !in s3.stream.pending.Values;
  }

  // -------------------------------------------------------------------------- the mutable object

  class PendingRequests {
    var pending: map<ID, nat>
    var chans: map<nat, Chan>
    var open: bool
    var dropped: nat
    var panicked: bool

    function Model(): Stream
      reads this
    {
      Stream(pending, chans, open, dropped, panicked)
    }

    /** Every entry has its own channel. */
    predicate Valid()
      reads this
    {
      && (forall id <- pending :: pending[id] in chans)
      && (forall a <- pending, b <- pending :: a != b ==> pending[a] != pending[b])
    }

    constructor ()
      ensures Valid() && Model() == START.stream
    {
      pending, chans, open, dropped, panicked := map[], map[], true, 0, false;
    }

    method Register(r: nat, id: ID)
      requires Valid() && r !in chans
      modifies this
      ensures Valid() && Model() == Registered(old(Model()), r, id)
    {
      chans := chans[r := NEW_CHAN];
      pending := pending[id := r];
    }

    method Remove(id: ID)
      requires Valid()
      modifies this
      ensures Valid() && Model() == Removed(old(Model()), id)
    {
      pending := pending - {id};
    }

    method Deliver(resp: Response)
      requires Valid()
      modifies this
      ensures Valid() && Model() == Delivered(old(Model()), resp)
    {
      if resp.id in pending {
        var r := pending[resp.id];
        var ch := chans[r];
        if ch.closed {
          panicked := true;
        } else if ch.slot == None {
          chans := chans[r := Chan(Some(resp), false, ch.sends + 1)];
        } else {
          dropped := dropped + 1;
        }
        pending := pending - {resp.id};
      }
    }

    /** The reader's deferred cleanup: closes the entries' channels one at a time. */
    method CloseAll()
      requires Valid()
      modifies this
      ensures Valid() && Model() == Closed(old(Model()))
    {
      var todo := pending.Values;
      ghost var done: set<nat> := {};
      while todo != {}
        invariant pending == old(pending) && dropped == old(dropped)
        invariant done + todo == pending.Values && done !! todo
        invariant chans == ClosedIn(old(chans), done)
        invariant panicked == (old(panicked) || SomeClosed(old(chans), done))
        decreases todo
      {
        var r :| r in todo;
        if chans[r].closed { panicked := true; }
        assert ClosedIn(old(chans), done + {r}) ==
               ClosedIn(old(chans), done)[r := old(chans)[r].(closed := true)];
        chans := chans[r := chans[r].(closed := true)];
        todo, done := todo - {r}, done + {r};
      }
      open := false;
      assert done == pending.Values;
    }
  }
}
