/**
 * The message batcher of services/gateway/pkg/protocol/converter.go.
 *
 * Producers append under a lock and signal through a one-slot channel that drops a signal
 * when one is already queued; a timer started by the first message of a batch signals too.
 * One consumer takes a signal and then, under the lock again, flushes.  The steps below are
 * the code's lock-protected regions and the moments at which timers, their callbacks, the
 * consumer and the cancellation act, in any order.
 */
module Batcher {
  import opened Common

  type Message = string

  /** Where the consumer goroutine is: in its select, past it, or gone. */
  datatype Consumer = Waiting | AboutToFlush | AboutToFinish | Exited

  datatype State = State(
    messages: seq<Message>,
    timer: Option<nat>,
    armed: set<nat>,      // timers that have not fired
    firing: set<nat>,     // timers that fired and whose callback has not signalled yet
    nextTimer: nat,
    token: bool,          // the slot of the flush channel
    consumer: Consumer,
    cancelled: bool,
    flushed: seq<seq<Message>>,
    added: seq<Message>)

  const EMPTY := State([], None, {}, {}, 0, false, Waiting, false, [], [])

  datatype Event =
    | Add(m: Message)
    | Fire(t: nat)
    | Callback(t: nat)
    | TakeToken
    | Flush
    | Cancel
    | SeeCancel
    | FinalFlush

  predicate Enabled(s: State, e: Event) {
    match e
    case Add(_) => true
    case Fire(t) => t in s.armed
    case Callback(t) => t in s.firing
    case TakeToken => s.consumer == Waiting && s.token
    case Flush => s.consumer == AboutToFlush
    case Cancel => true
    case SeeCancel => s.consumer == Waiting && s.cancelled
    case FinalFlush => s.consumer == AboutToFinish
  }

  function Appended(s: State, maxBatchSize: int, m: Message): State {
    var s' := s.(messages := s.messages + [m], added := s.added + [m]);
    if |s'.messages| >= maxBatchSize then s'.(token := true)
    else if |s'.messages| == 1
    then s'.(timer := Some(s.nextTimer), armed := s.armed + {s.nextTimer}, nextTimer := s.nextTimer + 1)
    else s'
  }

  /** Stopping a timer has no effect on one that already fired. */
  function FlushBatch(s: State): State {
    if s.messages == [] then s
    else s.(messages := [],
            timer := None,
            armed := if s.timer.Some? then s.armed - {s.timer.value} else s.armed,
            flushed := s.flushed + [s.messages])
  }

  function Step(s: State, maxBatchSize: int, e: Event): State
    requires Enabled(s, e)
  {
    match e
    case Add(m) => Appended(s, maxBatchSize, m)
    case Fire(t) => s.(armed := s.armed - {t}, firing := s.firing + {t})
    case Callback(t) => s.(firing := s.firing - {t}, token := true)
    case TakeToken => s.(token := false, consumer := AboutToFlush)
    case Flush => FlushBatch(s).(consumer := Waiting)
    case Cancel => s.(cancelled := true)
    case SeeCancel => s.(consumer := AboutToFinish)
    case FinalFlush => FlushBatch(s).(consumer := Exited)
  }

  /** Running `es` from `s` is possible and ends in `t`. */
  predicate Leads(s: State, maxBatchSize: int, es: seq<Event>, t: State)
    decreases es
  {
    if es == [] then s == t
    else Enabled(s, es[0]) && Leads(Step(s, maxBatchSize, es[0]), maxBatchSize, es[1..], t)
  }

  function Flatten(batches: seq<seq<Message>>): seq<Message> {
    if batches == [] then [] else Flatten(batches[..|batches| - 1]) + batches[|batches| - 1]
  }

  // ----------------------------------------------------------------------------- invariants

  /** Something will make the consumer flush. */
  predicate WakeupPending(s: State) {
    s.token || s.consumer == AboutToFlush || s.consumer == AboutToFinish || s.armed + s.firing != {}
  }

  predicate Inv(s: State) {
    && Flatten(s.flushed) + s.messages == s.added
    && (forall batch <- s.flushed :: batch != [])
    && (s.messages != [] && s.consumer != Exited ==> WakeupPending(s))
  }

  lemma FlushConserves(s: State)
    requires Inv(s)
    ensures Flatten(FlushBatch(s).flushed) == s.added && FlushBatch(s).messages == []
    ensures Inv(FlushBatch(s))
  {
    Snoc(s.flushed, s.messages);
  }

  lemma StepKeepsInv(s: State, maxBatchSize: int, e: Event)
    requires Inv(s) && Enabled(s, e)
    ensures Inv(Step(s, maxBatchSize, e))
  {
    match e
    case Add(m) =>
      assert Flatten(s.flushed) + (s.messages + [m]) == s.added + [m];
      var s' := Appended(s, maxBatchSize, m);
      if !s'.token && |s'.messages| == 1 { assert s.nextTimer in s'.armed; }
    case Fire(t) => assert t in s.firing + {t};
    case Flush => FlushConserves(s);
    case FinalFlush => FlushConserves(s);
    case _ =>
  }

  /**
   * In every run: the flushed batches followed by the buffer are exactly the messages added,
   * in order; no batch is empty; and while the consumer lives, a non-empty buffer always has
   * a signal queued, a consumer about to flush, or a timer still to signal.
   */
  lemma {:induction false} NoLostWakeup(s: State, maxBatchSize: int, es: seq<Event>, t: State)
    requires Inv(s) && Leads(s, maxBatchSize, es, t)
    ensures Inv(t)
    decreases es
  {
    if es != [] {
      StepKeepsInv(s, maxBatchSize, es[0]);
      NoLostWakeup(Step(s, maxBatchSize, es[0]), maxBatchSize, es[1..], t);
    }
  }

  /** None of these steps is a producer's or the canceller's: they happen on their own. */
  predicate OnItsOwn(es: seq<Event>) {
    forall e <- es :: !e.Add? && !e.Cancel?
  }

  /** An unprompted run from `s` that flushes everything added. */
  ghost predicate Flushes(s: State, maxBatchSize: int, es: seq<Event>, t: State) {
    OnItsOwn(es) && Leads(s, maxBatchSize, es, t) && t.messages == [] && Flatten(t.flushed) == s.added
  }

  lemma FlushesAfter(s: State, maxBatchSize: int, e: Event, rest: seq<Event>, t: State)
    requires Enabled(s, e) && !e.Add? && !e.Cancel?
    requires Flushes(Step(s, maxBatchSize, e), maxBatchSize, rest, t)
    ensures Flushes(s, maxBatchSize, [e] + rest, t)
  {
    assert ([e] + rest)[1..] == rest;
  }

  lemma FlushNow(s: State, maxBatchSize: int) returns (e: Event, t: State)
    requires Inv(s) && (s.consumer == AboutToFlush || s.consumer == AboutToFinish)
    ensures (e.Flush? || e.FinalFlush?) && Flushes(s, maxBatchSize, [e], t)
  {
    e := if s.consumer == AboutToFlush then Flush else FinalFlush;
    FlushConserves(s);
    t := Step(s, maxBatchSize, e);
    assert Leads(s, maxBatchSize, [e], t);
  }

  lemma FlushOnToken(s: State, maxBatchSize: int) returns (es: seq<Event>, t: State)
    requires Inv(s) && s.consumer == Waiting && s.token
    ensures |es| == 2 && es[0].TakeToken? && (es[1].Flush? || es[1].FinalFlush?)
    ensures Flushes(s, maxBatchSize, es, t)
  {
    StepKeepsInv(s, maxBatchSize, TakeToken);
    var e;
    e, t := FlushNow(Step(s, maxBatchSize, TakeToken), maxBatchSize);
    FlushesAfter(s, maxBatchSize, TakeToken, [e], t);
    es := [TakeToken] + [e];
  }

  lemma FlushOnCallback(s: State, maxBatchSize: int, id: nat) returns (es: seq<Event>, t: State)
    requires Inv(s) && s.consumer == Waiting && s.messages != [] && id in s.firing
    ensures |es| == 3 && Flushes(s, maxBatchSize, es, t)
  {
    var e := Callback(id);
    StepKeepsInv(s, maxBatchSize, e);
    es, t := FlushOnToken(Step(s, maxBatchSize, e), maxBatchSize);
    FlushesAfter(s, maxBatchSize, e, es, t);
    es := [e] + es;
  }

  lemma FlushOnTimer(s: State, maxBatchSize: int, id: nat) returns (es: seq<Event>, t: State)
    requires Inv(s) && s.consumer == Waiting && s.messages != [] && id in s.armed
    ensures |es| == 4 && Flushes(s, maxBatchSize, es, t)
  {
    var e := Fire(id);
    StepKeepsInv(s, maxBatchSize, e);
    es, t := FlushOnCallback(Step(s, maxBatchSize, e), maxBatchSize, id);
    FlushesAfter(s, maxBatchSize, e, es, t);
    es := [e] + es;
  }

  /** The pending wake-up is enough: at most four unprompted steps flush everything added. */
  lemma BufferGetsFlushed(s: State, maxBatchSize: int) returns (es: seq<Event>, t: State)
    requires Inv(s) && s.messages != [] && s.consumer != Exited
    ensures |es| <= 4 && Flushes(s, maxBatchSize, es, t)
  {
    if s.consumer == AboutToFlush || s.consumer == AboutToFinish {
      var e;
      e, t := FlushNow(s, maxBatchSize);
      es := [e];
    } else if s.token {
      es, t := FlushOnToken(s, maxBatchSize);
    } else if s.firing != {} {
      var id :| id in s.firing;
      es, t := FlushOnCallback(s, maxBatchSize, id);
    } else {
      var id :| id in s.armed;
      es, t := FlushOnTimer(s, maxBatchSize, id);
    }
  }

  // ---- every unprompted run flushes

  predicate Unprompted(e: Event) { !e.Add? && !e.Cancel? }

  /** What the consumer and the timers still have ahead of them. */
  function Ahead(s: State): nat {
    4 * |s.armed| + 3 * |s.firing| + (if s.token then 2 else 0) + Turns(s.consumer)
  }

  function Turns(c: Consumer): nat {
    match c case Exited => 0 case AboutToFinish => 1 case Waiting => 2 case AboutToFlush => 3
  }

  lemma FlushUsesUp(s: State, c: Consumer)
    requires Turns(c) < Turns(s.consumer)
    ensures Ahead(FlushBatch(s).(consumer := c)) < Ahead(s)
  {
    if s.timer.Some? { SizeWithout(s.armed, s.timer.value); }
  }

  lemma TimersUseUp(s: State, t: nat)
    ensures t in s.armed ==> Ahead(s.(armed := s.armed - {t}, firing := s.firing + {t})) < Ahead(s)
    ensures t in s.firing ==> Ahead(s.(firing := s.firing - {t}, token := true)) < Ahead(s)
  {
    SizeWithout(s.armed, t);
    SizeWith(s.firing, t);
    SizeWithout(s.firing, t);
  }

  /** Every step that no producer or canceller takes uses some of it up. */
  lemma UnpromptedStepsUseUp(s: State, maxBatchSize: int, e: Event)
    requires Enabled(s, e) && Unprompted(e)
    ensures Ahead(Step(s, maxBatchSize, e)) < Ahead(s)
  {
    if e.Fire? || e.Callback? {
      TimersUseUp(s, e.t);
    } else if e.Flush? {
      FlushUsesUp(s, Waiting);
    } else if e.FinalFlush? {
      FlushUsesUp(s, Exited);
    }
  }

  lemma SizeWithout(ts: set<nat>, t: nat)
    ensures |ts - {t}| == |ts| - if t in ts then 1 else 0
  {
    if t !in ts { assert ts - {t} == ts; }
  }

  lemma SizeWith(ts: set<nat>, t: nat)
    ensures |ts + {t}| <= |ts| + 1
  {
    if t in ts { assert ts + {t} == ts; }
  }

  /** When none is possible any more and the consumer lives, the buffer is empty. */
  lemma QuietMeansEmpty(s: State)
    requires Inv(s) && s.consumer != Exited
    requires forall e :: Unprompted(e) ==> !Enabled(s, e)
    ensures s.messages == [] && Flatten(s.flushed) == s.added
  {
    assert !Enabled(s, TakeToken) && !Enabled(s, Flush) && !Enabled(s, FinalFlush);
    forall t ensures t !in s.armed && t !in s.firing {
      assert !Enabled(s, Fire(t)) && !Enabled(s, Callback(t));
    }
    assert s.armed + s.firing == {};
    assert s.messages == [];
  }

  /** A consumer that exits leaves nothing behind. */
  lemma {:induction false} ExitIsEmpty(s: State, maxBatchSize: int, es: seq<Event>, t: State)
    requires Inv(s) && OnItsOwn(es) && Leads(s, maxBatchSize, es, t)
    requires s.consumer == Exited ==> s.messages == []
    ensures Inv(t) && t.added == s.added && (t.consumer == Exited ==> t.messages == [])
    ensures |es| + Ahead(t) <= Ahead(s)
    decreases es
  {
    if es != [] {
      StepKeepsInv(s, maxBatchSize, es[0]);
      UnpromptedStepsUseUp(s, maxBatchSize, es[0]);
      ExitIsEmpty(Step(s, maxBatchSize, es[0]), maxBatchSize, es[1..], t);
    }
  }

  /**
   * However the timers and a live consumer go on by themselves, they stop after a bounded number
   * of steps, and when they stop everything added has been flushed.
   */
  lemma EveryUnpromptedRunFlushes(s: State, maxBatchSize: int, es: seq<Event>, t: State)
    requires Inv(s) && s.consumer != Exited && OnItsOwn(es) && Leads(s, maxBatchSize, es, t)
    ensures |es| <= Ahead(s)
    ensures (forall e :: Unprompted(e) ==> !Enabled(t, e)) ==> t.messages == [] && Flatten(t.flushed) == s.added
  {
    ExitIsEmpty(s, maxBatchSize, es, t);
    if forall e :: Unprompted(e) ==> !Enabled(t, e) {
      if t.consumer != Exited { QuietMeansEmpty(t); } else { assert Flatten(t.flushed) + [] == t.added; }
    }
  }

  // ---- when and why the consumer is woken

  /** A buffer that has reached the limit has a signal queued or a consumer on its way, timers apart. */
  predicate FullIsSignalled(s: State, maxBatchSize: int) {
    s.messages != [] && |s.messages| >= maxBatchSize && s.consumer != Exited ==>
      s.token || s.consumer == AboutToFlush || s.consumer == AboutToFinish
  }

  /** The one timer that can be running is the current batch's, which no earlier one is mistaken for; an empty buffer has none. */
  predicate TimerInv(s: State) {
    && s.armed <= (if s.timer.Some? then {s.timer.value} else {})
    && (s.timer.Some? ==> s.messages != [])
    && (forall t <- s.armed :: t < s.nextTimer) && (forall t <- s.firing :: t < s.nextTimer)
  }

  lemma {:induction false} RunKeepsTimers(s: State, maxBatchSize: int, es: seq<Event>, t: State)
    requires TimerInv(s) && FullIsSignalled(s, maxBatchSize) && Leads(s, maxBatchSize, es, t)
    ensures TimerInv(t) && FullIsSignalled(t, maxBatchSize)
    decreases es
  {
    if es != [] { RunKeepsTimers(Step(s, maxBatchSize, es[0]), maxBatchSize, es[1..], t); }
  }

  /**
   * In every run: a full buffer is flushed by at most two steps of the consumer alone, without any
   * timer, and at most one timer is ever waiting.
   */
  lemma FullBufferNeedsNoTimer(maxBatchSize: int, es: seq<Event>, s: State) returns (fs: seq<Event>, t: State)
    requires Leads(EMPTY, maxBatchSize, es, s) && s.consumer != Exited
    requires s.messages != [] && |s.messages| >= maxBatchSize
    ensures |s.armed| <= 1
    ensures |fs| <= 2 && Flushes(s, maxBatchSize, fs, t) && forall e <- fs :: !e.Fire? && !e.Callback?
  {
    NoLostWakeup(EMPTY, maxBatchSize, es, s);
    RunKeepsTimers(EMPTY, maxBatchSize, es, s);
    if s.timer.Some? { SizeWithin(s.armed, s.timer.value); }
    if s.consumer == Waiting {
      fs, t := FlushOnToken(s, maxBatchSize);
    } else {
      var e;
      e, t := FlushNow(s, maxBatchSize);
      fs := [e];
    }
  }

  lemma SizeWithin(ts: set<nat>, t: nat)
    requires ts <= {t}
    ensures |ts| <= 1
  {
    if t in ts { assert ts == {t}; } else { assert ts == {}; }
  }

  /** An event that signals: the message that fills the batch, or a timer's callback. */
  predicate Signals(s: State, maxBatchSize: int, e: Event) {
    e.Callback? || (e.Add? && |s.messages| + 1 >= maxBatchSize)
  }

  /** Whether something signalled since the last signal was taken, starting from `signalled`. */
  predicate Signalled(s: State, maxBatchSize: int, es: seq<Event>, signalled: bool)
    decreases es
  {
    if es == [] || !Enabled(s, es[0]) then signalled
    else Signalled(Step(s, maxBatchSize, es[0]), maxBatchSize, es[1..],
                   !es[0].TakeToken? && (signalled || Signals(s, maxBatchSize, es[0])))
  }

  /** In every run a signal is queued exactly when a full batch or a timer gave one since the last was taken. */
  lemma {:induction false} TokenHasCause(s: State, maxBatchSize: int, es: seq<Event>, t: State)
    requires Leads(s, maxBatchSize, es, t)
    ensures t.token <==> Signalled(s, maxBatchSize, es, s.token)
    decreases es
  {
    if es != [] { TokenHasCause(Step(s, maxBatchSize, es[0]), maxBatchSize, es[1..], t); }
  }

  /** A timer is set exactly when a message begins a batch that has room for more. */
  lemma TimerIsSetExactly(s: State, maxBatchSize: int, m: Message)
    ensures var s' := Step(s, maxBatchSize, Add(m));
            s'.timer != s.timer || s'.armed != s.armed ==>
            && s.messages == [] && 1 < maxBatchSize
            && s'.timer == Some(s.nextTimer) && s'.armed == s.armed + {s.nextTimer}
    ensures s.messages == [] && 1 < maxBatchSize ==> s.nextTimer in Step(s, maxBatchSize, Add(m)).armed
  {
  }

  // ---- shutting down

  /** In every run the consumer winds up only after cancellation, which stands. */
  lemma {:induction false} FinishesOnlyCancelled(s: State, maxBatchSize: int, es: seq<Event>, t: State)
    requires s.consumer == AboutToFinish || s.consumer == Exited ==> s.cancelled
    requires Leads(s, maxBatchSize, es, t)
    ensures t.consumer == AboutToFinish || t.consumer == Exited ==> t.cancelled
    ensures t.cancelled <==> s.cancelled || Cancel in es
    decreases es
  {
    if es != [] {
      FinishesOnlyCancelled(Step(s, maxBatchSize, es[0]), maxBatchSize, es[1..], t);
      assert es == [es[0]] + es[1..];
    }
  }

  /** Cancelled at any point, a waiting consumer flushes what is left and exits. */
  lemma CancelFlushes(s: State, maxBatchSize: int) returns (t: State)
    requires Inv(s) && s.consumer == Waiting
    ensures Leads(s, maxBatchSize, [Cancel, SeeCancel, FinalFlush], t)
    ensures t.consumer == Exited && t.messages == [] && Flatten(t.flushed) == s.added
  {
    var s1 := Step(s, maxBatchSize, Cancel);
    var s2 := Step(s1, maxBatchSize, SeeCancel);
    FlushConserves(s2);
    t := Step(s2, maxBatchSize, FinalFlush);
    assert Leads(s2, maxBatchSize, [FinalFlush], t);
    assert Leads(s1, maxBatchSize, [SeeCancel, FinalFlush], t);
    assert [Cancel, SeeCancel, FinalFlush][1..] == [SeeCancel, FinalFlush];
  }

  // ------------------------------------------------------------------------ the mutable object

  class MessageBatcher {
    const maxBatchSize: int
    var messages: seq<Message>
    var timer: Option<nat>
    var armed: set<nat>
    var firing: set<nat>
    var nextTimer: nat
    var flushCh: bool
    var consumer: Consumer
    var cancelled: bool
    ghost var flushed: seq<seq<Message>>
    ghost var added: seq<Message>

    ghost function Model(): State
      reads this
    {
      State(messages, timer, armed, firing, nextTimer, flushCh, consumer, cancelled, flushed, added)
    }

    constructor (maxBatchSize: int)
      ensures this.maxBatchSize == maxBatchSize && Model() == EMPTY && Inv(Model())
    {
      this.maxBatchSize := maxBatchSize;
      messages, timer, armed, firing, nextTimer := [], None, {}, {}, 0;
      flushCh, consumer, cancelled, flushed, added := false, Waiting, false, [], [];
    }

    /** The non-blocking send: a queued signal makes another one superfluous. */
    method Signal()
      modifies this`flushCh
      ensures flushCh
    {
      if !flushCh { flushCh := true; }
    }

    method AddMessage(m: Message)
      requires Inv(Model())
      modifies this
      ensures Inv(Model()) && Model() == Step(old(Model()), maxBatchSize, Add(m))
    {
      StepKeepsInv(Model(), maxBatchSize, Add(m));
      messages := messages + [m];
      added := added + [m];
      if |messages| >= maxBatchSize {
        Signal();
      } else if |messages| == 1 {
        timer := Some(nextTimer);
        armed := armed + {nextTimer};
        nextTimer := nextTimer + 1;
      }
    }

    method TimerCallback(t: nat)
      requires Inv(Model()) && t in firing
      modifies this
      ensures Inv(Model()) && Model() == Step(old(Model()), maxBatchSize, Callback(t))
    {
      StepKeepsInv(Model(), maxBatchSize, Callback(t));
      firing := firing - {t};
      Signal();
    }

    method FlushOnce()
      requires Inv(Model())
      modifies this
      ensures Inv(Model()) && Model() == FlushBatch(old(Model()))
    {
      FlushConserves(Model());
      if |messages| == 0 { return; }
      if timer != None {
        armed := armed - {timer.value};
        timer := None;
      }
      flushed := flushed + [messages];
      messages := [];
    }

    /** One turn of the consumer's loop, entered with a signal queued or a cancellation seen. */
    method ProcessOnce(preferCancel: bool)
      requires Inv(Model()) && consumer == Waiting && (flushCh || cancelled)
      modifies this
      ensures Inv(Model()) && messages == [] && Flatten(flushed) == added == old(added)
      ensures consumer == Exited ==> cancelled
      ensures consumer == Waiting ==> old(flushCh) && !flushCh
    {
      FlushConserves(Model());
      if cancelled && (preferCancel || !flushCh) {
        consumer := AboutToFinish;
        FlushOnce();
        consumer := Exited;
      } else {
        flushCh := false;
        consumer := AboutToFlush;
        FlushOnce();
        consumer := Waiting;
      }
    }
  }
}
