/**
 One subscription of `rpc/amqp/amqp.go`: the goroutine of `runWithReconnect` against
 `subscription.Close`, with the broker free to drop a channel between any two steps.

 `Close` takes no lock over the rebind, and closes the channel it read before it closes
 `done`. What that order does and does not guarantee is decided here for every run.
 */
module AmqpSubscription {
  import opened Basics

  type ChanId = nat

  /** runWithReconnect: the next access it makes. */
  datatype LoopAt =
    | Delivering(ch: ChanId)
    | CheckDone
    | Backoff
    | Setup
    | Swapping(ch: ChanId)
    | Exited

  /** The body under `closeOnce`. */
  datatype CloseAt = NotCalled | Grab | CloseChan(ch: ChanId) | CloseDone | Returned

  /**
   `current` is the guarded field `ch`; `made` counts the channels set up so far, which are
   named 0, 1, ... in that order, and `late` those set up after `done` was closed.
   */
  datatype State = State(
    loop: LoopAt, close: CloseAt, current: ChanId, done: bool, live: set<ChanId>, made: nat, late: nat)

  /**
   The loop goes on, its backoff timer fires, its setup fails, Close goes on, or a channel dies:
   the broker drops it, or the connection under it is gone.
   */
  datatype Event = Loop | Timer | SetupFails | Close | Drop(ch: ChanId)

  /** `Consume` hands over the first channel. */
  predicate Init(s: State) {
    s == State(Delivering(0), NotCalled, 0, false, {0}, 1, 0)
  }

  /** deliverLoop ends when its channel is dead; the select of the backoff leaves the loop only by `done`. */
  function LoopStep(s: State): Option<State> {
    match s.loop
    case Delivering(ch) => if ch in s.live then None else Some(s.(loop := CheckDone))
    case CheckDone => Some(s.(loop := if s.done then Exited else Backoff))
    case Backoff => if s.done then Some(s.(loop := Exited)) else None
    case Setup =>
      Some(s.(loop := Swapping(s.made), live := s.live + {s.made}, made := s.made + 1,
              late := if s.done then s.late + 1 else s.late))
    case Swapping(ch) => Some(s.(loop := Delivering(ch), current := ch))
    case Exited => None
  }

  function CloseStep(s: State): Option<State> {
    match s.close
    case NotCalled => Some(s.(close := Grab))
    case Grab => Some(s.(close := CloseChan(s.current)))
    case CloseChan(ch) => Some(s.(close := CloseDone, live := s.live - {ch}))
    case CloseDone => Some(s.(close := Returned, done := true))
    case Returned => None
  }

  function Step(s: State, e: Event): Option<State> {
    match e
    case Loop => LoopStep(s)
    // a select with `done` closed and the timer fired takes either case
    case Timer => if s.loop.Backoff? then Some(s.(loop := Setup)) else None
    case SetupFails => if s.loop.Setup? then Some(s.(loop := Backoff)) else None
    case Close => CloseStep(s)
    case Drop(ch) => if ch in s.live then Some(s.(live := s.live - {ch})) else None
  }

  function Run(s: State, es: seq<Event>): Option<State>
    decreases |es|
  {
    if es == [] then Some(s) else
      match Step(s, es[0])
      case None => None
      case Some(s') => Run(s', es[1..])
  }

  ghost predicate Reachable(s: State) {
    exists s0, es :: Init(s0) && Run(s0, es) == Some(s)
  }

  // ---------------------------------------------------------------- invariant

  /** The channel the loop works on, if any. */
  function Held(loop: LoopAt): set<ChanId> {
    match loop
    case Delivering(ch) => {ch}
    case Swapping(ch) => {ch}
    case _ => {}
  }

  /** The loop is past its check of `done` and may set up a channel without meeting another. */
  predicate Rebinds(s: State) {
    s.loop.Backoff? || s.loop.Setup?
  }

  ghost predicate Inv(s: State) {
    && s.live <= Held(s.loop)
    && (forall ch :: ch in Held(s.loop) ==> ch < s.made)
    && (s.loop.Delivering? ==> s.current == s.loop.ch)
    && (s.done <==> s.close.Returned?)
    && s.late <= (if s.done then 1 else 0)
    && (s.late == 1 ==> !Rebinds(s))
  }

  lemma StepKeeps(s: State, e: Event, s': State)
    requires Inv(s) && Step(s, e) == Some(s')
    ensures Inv(s')
  {
  }

  lemma {:induction false} RunKeeps(s: State, es: seq<Event>)
    requires Inv(s) && Run(s, es).Some?
    ensures Inv(Run(s, es).value)
    decreases |es|
  {
    if es != [] {
      StepKeeps(s, es[0], Step(s, es[0]).value);
      RunKeeps(Step(s, es[0]).value, es[1..]);
    }
  }

  /**
   In every reachable state at most one channel of the subscription is up, and the loop works on
   it; after `done` was closed at most one more channel is set up.
   */
  lemma OneChannelAtATime(s: State)
    requires Reachable(s)
    ensures forall ch :: ch in s.live ==> Held(s.loop) == {ch}
    ensures s.live == {} || exists ch :: s.live == {ch}
    ensures s.late <= 1
  {
    var s0, es :| Init(s0) && Run(s0, es) == Some(s);
    RunKeeps(s0, es);
    if ch :| ch in s.live {
      assert s.live == {ch};
    }
  }

  // -------------------------------------------------------------------- Close

  /** The subscription closed, and no channel is up or about to be. */
  predicate Quiet(s: State) {
    s.done && s.live == {} && !Rebinds(s)
  }

  lemma {:induction false} QuietStays(s: State, es: seq<Event>)
    requires Quiet(s) && Run(s, es).Some?
    ensures Quiet(Run(s, es).value) && Run(s, es).value.made == s.made
    decreases |es|
  {
    if es != [] {
      QuietStays(Step(s, es[0]).value, es[1..]);
    }
  }

  /** Some way on from `s` has a channel of the subscription up. */
  ghost predicate MayConsume(s: State) {
    exists es :: Run(s, es).Some? && Run(s, es).value.live != {}
  }

  lemma SetupConsumes(s: State)
    requires s.loop.Setup?
    ensures Run(s, [Loop]).Some? && Run(s, [Loop]).value.live != {}
  {
    var s1 := Step(s, Loop).value;
    assert Run(s, [Loop]) == Run(s1, [Loop][1..]) == Some(s1);
    assert s.made in s1.live;
  }

  lemma MayConsumeIff(s: State)
    requires s.done
    ensures MayConsume(s) <==> s.live != {} || Rebinds(s)
  {
    if s.live != {} {
      assert Run(s, []) == Some(s);
    } else if s.loop.Setup? {
      SetupConsumes(s);
    } else if s.loop.Backoff? {
      var s1 := Step(s, Timer).value;
      SetupConsumes(s1);
      assert [Timer, Loop][1..] == [Loop];
      assert Run(s, [Timer, Loop]) == Run(s1, [Loop]);
    } else {
      forall es | Run(s, es).Some? ensures Run(s, es).value.live == {} {
        QuietStays(s, es);
      }
    }
  }

  /** Once Close returned, the subscription may consume if and only if a channel is up or the loop is in its rebind. */
  lemma ConsumesAfterCloseIff(s: State)
    requires Reachable(s) && s.close.Returned?
    ensures MayConsume(s) <==> s.live != {} || Rebinds(s)
  {
    var s0, es :| Init(s0) && Run(s0, es) == Some(s);
    RunKeeps(s0, es);
    MayConsumeIff(s);
  }

  /**
   A consumer that outlives Close is stuck there: neither its loop nor Close has a step left, and
   nothing but the death of its channel or of the connection under it ends it.
   */
  lemma OnlyChannelDeathEndsIt(s: State, ch: ChanId, e: Event, s': State)
    requires Reachable(s) && s.close.Returned? && s.loop == Delivering(ch) && ch in s.live && Step(s, e) == Some(s')
    ensures e == Drop(ch) && Quiet(s')
  {
    var s0, es :| Init(s0) && Run(s0, es) == Some(s);
    RunKeeps(s0, es);
  }

  predicate Rebinding(s: State) {
    s.loop.Setup? || s.loop.Swapping?
  }

  /** No state of the run sets up or swaps in a channel. */
  predicate NoRebind(s: State, es: seq<Event>)
    requires Run(s, es).Some?
    decreases |es|
  {
    !Rebinding(s) && (es != [] ==> NoRebind(Step(s, es[0]).value, es[1..]))
  }

  /** What Close has made sure of by now. */
  predicate Closing(s: State) {
    match s.close
    case NotCalled => true
    case Grab => true
    case CloseChan(ch) => s.live <= {ch}
    case CloseDone => s.live == {}
    case Returned => s.live == {}
  }

  lemma {:induction false} ClosingStays(s: State, es: seq<Event>)
    requires Inv(s) && Closing(s) && Run(s, es).Some? && NoRebind(s, es)
    ensures Closing(Run(s, es).value) && !Rebinding(Run(s, es).value)
    decreases |es|
  {
    if es != [] {
      StepKeeps(s, es[0], Step(s, es[0]).value);
      ClosingStays(Step(s, es[0]).value, es[1..]);
    }
  }

  /**
   A Close during which no channel is set up or swapped in leaves none up, and for good if and
   only if the loop is not in its backoff when Close returns.
   */
  lemma UndisturbedCloseIsFinal(s: State, es: seq<Event>)
    requires Reachable(s) && s.close.NotCalled? && Run(s, es).Some? && NoRebind(s, es)
    requires Run(s, es).value.close.Returned?
    ensures Run(s, es).value.live == {}
    ensures MayConsume(Run(s, es).value) <==> Run(s, es).value.loop.Backoff?
  {
    var s0, before :| Init(s0) && Run(s0, before) == Some(s);
    RunKeeps(s0, before);
    ClosingStays(s, es);
    RunKeeps(s, es);
    MayConsumeIff(Run(s, es).value);
  }

  lemma {:induction false} RunThen(s: State, es: seq<Event>, e: Event)
    requires Run(s, es).Some?
    ensures Run(s, es + [e]) == Step(Run(s, es).value, e)
    decreases |es|
  {
    var all := es + [e];
    if es == [] {
      assert all == [e];
      match Step(s, e)
      case None =>
      case Some(s') => assert Run(s', all[1..]) == Some(s');
    } else {
      assert all[1..] == es[1..] + [e];
      RunThen(Step(s, es[0]).value, es[1..], e);
    }
  }

  lemma Take(s: State, e: Event) returns (s': State)
    requires Reachable(s) && Step(s, e).Some?
    ensures Reachable(s') && Step(s, e) == Some(s')
  {
    var s0, es :| Init(s0) && Run(s0, es) == Some(s);
    RunThen(s0, es, e);
    s' := Step(s, e).value;
  }

  /** The overlap is real: a rebind that is past its check when Close runs leaves a live consumer behind. */
  lemma ConsumerOutlivesClose()
    ensures exists s :: Reachable(s) && s.close.Returned? && s.loop.Delivering? && s.loop.ch in s.live
  {
    var s0 := State(Delivering(0), NotCalled, 0, false, {0}, 1, 0);
    assert Run(s0, []) == Some(s0);
    var s1 := Take(s0, Drop(0));
    var s2 := Take(s1, Loop);
    var s3 := Take(s2, Loop);
    var s4 := Take(s3, Timer);
    assert s4 == State(Setup, NotCalled, 0, false, {}, 1, 0);
    var s5 := Take(s4, Close);
    var s6 := Take(s5, Close);
    var s7 := Take(s6, Close);
    var s8 := Take(s7, Close);
    assert s8 == State(Setup, Returned, 0, true, {}, 1, 0);
    var s9 := Take(s8, Loop);
    var s10 := Take(s9, Loop);
  }

  // ------------------------------------------------------- never closed at all

  /**
   A subscription that nobody closes, such as one appended after the transport's Close took its
   list, never leaves its loop: with every setup refused it goes back to its backoff for ever.
   */
  lemma {:induction false} UnclosedNeverExits(s: State, es: seq<Event>)
    requires !s.done && s.close.NotCalled? && !s.loop.Exited? && Run(s, es).Some? && Close !in es
    ensures !Run(s, es).value.done && Run(s, es).value.close.NotCalled? && !Run(s, es).value.loop.Exited?
    ensures Run(s, es).value.loop.Backoff? ==> Run(Run(s, es).value, [Timer, SetupFails]) == Run(s, es)
    decreases |es|
  {
    if es == [] {
      if s.loop.Backoff? {
        var s1 := Step(s, Timer).value;
        assert [Timer, SetupFails][1..] == [SetupFails] && [SetupFails][1..] == [];
        assert Run(s1, [SetupFails]) == Some(s);
      }
    } else {
      UnclosedNeverExits(Step(s, es[0]).value, es[1..]);
    }
  }
}
