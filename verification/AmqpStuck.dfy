/**
 Which goroutines of the AMQP transport wait for ever. They are lost before a deadlock
 stands: from the moment a dial has succeeded on the way to a `pubMu` whose holder, a
 publisher, is in `reconnect` or bound to get there. Two conditions are exact. `Trapped`:
 whoever waits for `pubMu` or `dialMu` is lost whatever happens. `Bound`: it is lost unless
 the transport is closed. At `connMu` nobody is ever lost.
 */
module AmqpStuck {
  import opened Basics
  import opened AmqpTransport
  import opened AmqpInvariants
  import opened AmqpDeadlock

  /** The dial succeeded; the lock of `pubMu` is still to come. */
  predicate Swaps(pc: Pc) {
    pc.Sw? && (pc.sw.ConnLock? || pc.sw.ConnSwap? || pc.sw.PubMuLock?)
  }

  /**
   The holder of `pubMu` is a publisher inside `reconnect` that is on its way to `pubMu` itself, or
   waits for a `dialMu` whose holder is.
   */
  ghost predicate Trapped(s: State) {
    s.mu.pub.Some? &&
    match s.Pc(s.mu.pub.value)
    case Sw(Publisher, _) => Swaps(s.Pc(s.mu.pub.value))
    case Rc(Publisher, DialLock) => Swaps(Dialer(s))
    case _ => false
  }

  predicate Waits(pc: Pc) {
    WaitsPub(pc) || WaitsDial(pc)
  }

  // ------------------------------------------------------------- once trapped

  lemma TrappedDialer(s: State)
    requires Inv(s) && Trapped(s)
    ensures s.mu.dial.Some? && Swaps(s.Pc(s.mu.dial.value))
  {
    assert ThreadInv(s, s.mu.pub.value);
  }

  lemma SwapsStep(s: State, e: Event, s': State, t: Tid)
    requires Inv(s) && s.mu.pub.Some? && Swaps(s.Pc(t)) && Step(s, e) == Some(s')
    ensures Swaps(s'.Pc(t)) && s'.Pc(t).role == s.Pc(t).role
  {
    StepKeeps(s, e, s');
    assert ThreadInv(s, t);
  }

  lemma TrapStep(s: State, e: Event, s': State)
    requires Inv(s) && Trapped(s) && Step(s, e) == Some(s')
    ensures Trapped(s')
    ensures forall t :: Waits(s.Pc(t)) ==> s'.Pc(t) == s.Pc(t)
  {
    TrappedDialer(s);
    var w, h := s.mu.pub.value, s.mu.dial.value;
    StepKeeps(s, e, s');
    SwapsStep(s, e, s', h);
    if WaitsDial(s.Pc(w)) {
      DialWaitersStay(s, e, s', w);
    }
    assert ThreadInv(s, w) && ThreadInv(s', w) && ThreadInv(s', h);
    forall t | Waits(s.Pc(t)) ensures s'.Pc(t) == s.Pc(t) {
      if WaitsPub(s.Pc(t)) {
        PubWaitersStay(s, e, s', t);
      } else {
        DialWaitersStay(s, e, s', t);
      }
    }
  }

  lemma {:induction false} TrapIsPermanent(p: seq<State>, i: nat)
    requires IsPath(p) && Inv(p[0]) && Trapped(p[0]) && i < |p|
    ensures Trapped(p[i])
    ensures forall t :: Waits(p[0].Pc(t)) ==> p[i].Pc(t) == p[0].Pc(t)
  {
    if i > 0 {
      TrapIsPermanent(p, i - 1);
      PathKeeps(p, i - 1);
      var e := EventAt(p, i);
      TrapStep(p[i - 1], e, p[i]);
    }
  }

  // ------------------------------------------------- otherwise: somebody closes

  lemma {:induction false} FreshWorker(taken: set<Tid>) returns (n: nat)
    ensures forall k :: k >= n ==> Worker(k) !in taken
  {
    n := 0;
    if t :| t in taken {
      n := FreshWorker(taken - {t});
      if t.Worker? && t.id >= n {
        n := t.id + 1;
      }
    }
  }

  /** A new goroutine calls Close and gets as far as setting `closed`; nobody else notices. */
  lemma SomebodyCloses(s: State, t: Tid) returns (s': State)
    requires Inv(s) && !Trapped(s) && Waits(s.Pc(t))
    ensures Inv(s') && Leads(s, s') && !Trapped(s') && s'.tr.closed && s'.Pc(t) == s.Pc(t)
  {
    LeadsNowhere(s);
    if s.tr.closed {
      return s;
    }
    var n := FreshWorker(s.pcs.Keys);
    var f := Worker(n);
    assert s.Pc(f) == Idle && ThreadInv(s, f);
    var s1 := GoOn(s, s, Act(f, CallClose));
    s' := GoOn(s, s1, Act(f, Go));
    assert s'.mu == s.mu && forall u :: u != f ==> s'.Pc(u) == s.Pc(u);
  }

  // ------------------------------------------------------- until somebody closes

  /** The dial under way leaves the transport without a live connection. */
  ghost predicate StaysDead(s: State) {
    match Dialer(s)
    case Sw(_, ConnLock(c)) => c !in s.net.live
    case Sw(_, ConnSwap(c)) => c !in s.net.live
    case _ => !s.Live(s.tr.conn)
  }

  /** A holder of `pubMu` that is at the dial, or gets there unless the transport is closed. */
  ghost predicate HeadsForDial(s: State, pc: Pc) {
    match pc
    case Sw(Publisher, _) => true
    case Rc(Publisher, DialLock) => true
    case Use(Publisher, UseClosed(_, d)) => !s.tr.closed && d
    case Use(Publisher, UseCheck(c, d)) => !s.tr.closed && d && !s.Live(c)
    case Use(Publisher, UseRead) => !s.tr.closed && !s.Live(s.tr.conn)
    case Use(Publisher, UseRLock) => !s.tr.closed && StaysDead(s)
    case Pub(PubCheck) => !s.tr.closed && !s.ChOpen(s.tr.pubCh) && StaysDead(s)
    case _ => false
  }

  /** The dialer is on its way to `pubMu`, and the holder of `pubMu` on its way to `dialMu`. */
  ghost predicate Bound(s: State) {
    s.mu.pub.Some? && Swaps(Dialer(s)) && HeadsForDial(s, s.Pc(s.mu.pub.value))
  }

  /** On a closed transport nobody is bound who is not trapped already. */
  lemma BoundWhenClosed(s: State)
    requires Inv(s)
    ensures Trapped(s) ==> Bound(s)
    ensures s.tr.closed && Bound(s) ==> Trapped(s)
  {
    if s.mu.pub.Some? {
      assert ThreadInv(s, s.mu.pub.value);
    }
  }

  /** While the dialer swaps no connection comes to life, and the current one changes by the swap alone. */
  lemma NothingComesAlive(s: State, e: Event, s': State)
    requires Inv(s) && Swaps(Dialer(s)) && s.mu.dial.Some? && s.mu.pub.Some? && Step(s, e) == Some(s')
    ensures s'.net.live <= s.net.live && s'.mu.dial == s.mu.dial && Swaps(Dialer(s'))
    ensures s'.tr.conn == s.tr.conn || s'.tr.closed
            || (Dialer(s).sw.ConnSwap? && s'.tr.conn == Some(Dialer(s).sw.dialed))
  {
    StepKeeps(s, e, s');
    var h := s.mu.dial.value;
    SwapsStep(s, e, s', h);
    assert ThreadInv(s, h) && ThreadInv(s', h);
    if e.Act? {
      assert ThreadInv(s, e.t);
    }
  }

  lemma StaysDeadStep(s: State, e: Event, s': State)
    requires Inv(s) && Swaps(Dialer(s)) && s.mu.dial.Some? && s.mu.pub.Some? && Step(s, e) == Some(s')
    requires StaysDead(s) && !s'.tr.closed
    ensures StaysDead(s')
  {
    NothingComesAlive(s, e, s');
    StepKeeps(s, e, s');
    var h := s.mu.dial.value;
    assert ThreadInv(s, h);
    if e.Act? && e.t == h {
      assert s.Pc(h).Sw?;
    }
  }

  lemma DeadNow(s: State)
    requires Inv(s) && Swaps(Dialer(s)) && s.mu.dial.Some? && StaysDead(s)
    ensures !s.Live(s.tr.conn)
  {
    assert ThreadInv(s, s.mu.dial.value);
  }

  /** The holder of `pubMu` goes on towards `dialMu`. */
  lemma HolderHeadsOn(s: State, w: Tid, choice: Choice, s': State)
    requires Inv(s) && Bound(s) && s.mu.pub == Some(w) && ActStep(s, w, choice) == Some(s') && !s'.tr.closed
    ensures HeadsForDial(s', s'.Pc(w))
  {
    var h := s.mu.dial.value;
    assert ThreadInv(s, w) && ThreadInv(s, h);
    if s.Pc(w).Sw? {
      SwapsStep(s, Act(w, choice), s', h);
    } else if s.Pc(w).Pub? {
      StaysDeadStep(s, Act(w, choice), s');
    } else if s.Pc(w).Use? && s.Pc(w).use.UseRLock? {
      DeadNow(s);
    }
  }

  /** And what it saw, or will see, is not changed by the others. */
  lemma HolderKeepsHeading(s: State, w: Tid, e: Event, s': State)
    requires Inv(s) && Bound(s) && s.mu.pub == Some(w) && Step(s, e) == Some(s') && !s'.tr.closed
    requires e.Act? ==> e.t != w
    ensures HeadsForDial(s', s'.Pc(w))
  {
    StepKeeps(s, e, s');
    NothingComesAlive(s, e, s');
    assert ThreadInv(s, w) && ThreadInv(s, s.mu.dial.value);
    assert s'.Pc(w) == s.Pc(w);
    if StaysDead(s) {
      StaysDeadStep(s, e, s');
    }
    if s.Pc(w).Pub? {
      OnlyTheHolderOpens(s, w, e, s');
    }
  }

  /** The cached publish channel comes up by the holder of `pubMu` alone. */
  lemma OnlyTheHolderOpens(s: State, w: Tid, e: Event, s': State)
    requires Inv(s) && s.mu.pub == Some(w) && Step(s, e) == Some(s') && (e.Act? ==> e.t != w)
    ensures s'.tr.pubCh == s.tr.pubCh && s'.net.open <= s.net.open
  {
    if e.Act? {
      assert ThreadInv(s, e.t);
    }
  }

  lemma BoundStep(s: State, e: Event, s': State)
    requires Inv(s) && Bound(s) && Step(s, e) == Some(s') && !s'.tr.closed
    ensures Bound(s')
    ensures forall t :: Waits(s.Pc(t)) ==> s'.Pc(t) == s.Pc(t)
  {
    var w := s.mu.pub.value;
    assert s.mu.dial.Some?;
    NothingComesAlive(s, e, s');
    if e.Act? && e.t == w {
      HolderHeadsOn(s, w, e.choice, s');
    } else {
      HolderKeepsHeading(s, w, e, s');
    }
    HeadingHolds(s, e, s');
    forall t | Waits(s.Pc(t)) ensures s'.Pc(t) == s.Pc(t) {
      if WaitsPub(s.Pc(t)) {
        PubWaitersStay(s, e, s', t);
      } else {
        DialWaitersStay(s, e, s', t);
      }
    }
  }

  lemma HeadingHolds(s: State, e: Event, s': State)
    requires Inv(s) && s.mu.pub.Some? && Step(s, e) == Some(s') && HeadsForDial(s', s'.Pc(s.mu.pub.value))
    requires HeadsForDial(s, s.Pc(s.mu.pub.value))
    ensures s'.mu.pub == s.mu.pub
  {
    StepKeeps(s, e, s');
    var w := s.mu.pub.value;
    assert ThreadInv(s, w) && ThreadInv(s', w);
  }

  lemma {:induction false} BoundUntilClose(p: seq<State>, i: nat)
    requires IsPath(p) && Inv(p[0]) && Bound(p[0]) && i < |p| && !p[i].tr.closed
    ensures Bound(p[i])
    ensures forall t :: Waits(p[0].Pc(t)) ==> p[i].Pc(t) == p[0].Pc(t)
  {
    if i > 0 {
      PathKeeps(p, i - 1);
      var e := EventAt(p, i);
      RecordGrows(p[i - 1], e, p[i]);
      BoundUntilClose(p, i - 1);
      BoundStep(p[i - 1], e, p[i]);
    }
  }

  // ------------------------------------------- otherwise: the holders are played to the end

  /** Steps to go, when dials and opens fail, until the goroutine holds neither `pubMu` nor `dialMu`. */
  function Left(pc: Pc): nat {
    match pc
    case Idle => 0
    case Use(_, at) =>
      (match at
       case UseRLock => 14
       case UseRead => 13
       case UseCheck(_, _) => 12
       case UseClosed(_, _) => 11
       case UseReturn(_) => 3)
    case Rc(_, at) =>
      (match at
       case DialLock => 10
       case ConnRLock => 9
       case ConnRead => 8
       case CheckClosed => 7
       case DialStart => 6
       case Dialing => 5)
    case Sw(_, at) =>
      (match at
       case ConnLock(_) => 8
       case ConnSwap(_) => 7
       case PubMuLock(_) => 6
       case PubReset(_) => 5
       case DialUnlock(_) => 4)
    case Pub(at) =>
      (match at
       case PubLock => 16
       case PubCheck => 15
       case PubOpen(_) => 2
       case PubStore(_) => 2
       case PubUnlock(_) => 1)
    case Cl(_) => 1
    case Sd(_) => 0
    case Wd(_) => 0
  }

  /** The steps the holders of `pubMu` and `dialMu` have to go. */
  ghost function ToGo(s: State): nat {
    (if s.mu.pub.Some? then Left(s.Pc(s.mu.pub.value)) else 0)
    + if s.mu.dial.Some? && s.mu.dial != s.mu.pub then Left(s.Pc(s.mu.dial.value)) else 0
  }

  predicate Holds(pc: Pc) {
    HoldsPub(pc) || HoldsDial(pc)
  }

  predicate HoldsConn(pc: Pc) {
    HoldsR(pc) || HoldsW(pc)
  }

  lemma ReconnectLeftDrops(s: State, y: Tid, s': State)
    requires InReconnect(s.Pc(y)) && ActStep(s, y, Fail) == Some(s')
    ensures s'.tr.closed == s.tr.closed && Left(s'.Pc(y)) < Left(s.Pc(y))
    ensures !Swaps(s.Pc(y)) ==> !Swaps(s'.Pc(y))
  {
  }

  lemma LeftDrops(s: State, y: Tid, s': State)
    requires ThreadInv(s, y) && Holds(s.Pc(y)) && ActStep(s, y, Fail) == Some(s')
    ensures s'.tr.closed == s.tr.closed && (Holds(s'.Pc(y)) ==> Left(s'.Pc(y)) < Left(s.Pc(y)))
    ensures !Swaps(s.Pc(y)) ==> !Swaps(s'.Pc(y))
  {
    if InReconnect(s.Pc(y)) {
      ReconnectLeftDrops(s, y, s');
    }
  }

  /** A step of a holder brings the holders closer to the end. */
  lemma HolderStep(s: State, y: Tid, s': State)
    requires Inv(s) && Inv(s') && Local(s, y, s') && Holds(s.Pc(y)) && ActStep(s, y, Fail) == Some(s')
    ensures s'.tr.closed == s.tr.closed && ToGo(s') < ToGo(s)
  {
    assert ThreadInv(s, y) && ThreadInv(s', y);
    LeftDrops(s, y, s');
  }

  /** Readers and the writer of `connMu` leave it, and take no other mutex on the way. */
  lemma ConnStep(s: State, y: Tid, s': State)
    requires Inv(s) && Inv(s') && Local(s, y, s') && HoldsConn(s.Pc(y)) && !Holds(s.Pc(y))
    requires ActStep(s, y, Fail) == Some(s')
    ensures s'.tr.closed == s.tr.closed && ToGo(s') == ToGo(s) && (Bound(s') ==> Bound(s))
    ensures s'.mu.connR < s.mu.connR || (s'.mu.connR == s.mu.connR && s.mu.connW.Some? && s'.mu.connW.None?)
  {
    assert ThreadInv(s, y) && ThreadInv(s', y);
  }

  /** A dial that does not swap, or ends, binds nobody. */
  lemma DialerFrees(s: State, y: Tid, s': State)
    requires Inv(s) && Inv(s') && Local(s, y, s') && !Bound(s)
    requires s.mu.dial == Some(y) && ActStep(s, y, Fail) == Some(s')
    ensures !Bound(s')
  {
    assert ThreadInv(s, y) && ThreadInv(s', y);
    LeftDrops(s, y, s');
    if s.mu.pub.Some? {
      assert ThreadInv(s, s.mu.pub.value) && ThreadInv(s', s.mu.pub.value);
    }
  }

  /** With the dialer at `pubMu`, the holder of `pubMu` that is not bound does not become so. */
  lemma HolderFrees(s: State, y: Tid, s': State)
    requires Inv(s) && Inv(s') && Local(s, y, s') && !Bound(s) && !HasDialed(Dialer(s))
    requires s.mu.pub == Some(y) && s.mu.dial != Some(y) && ActStep(s, y, Fail) == Some(s')
    ensures !Bound(s')
  {
    assert ThreadInv(s, y) && ThreadInv(s', y);
    LeftDrops(s, y, s');
    if s.mu.dial.Some? {
      assert ThreadInv(s, s.mu.dial.value) && ThreadInv(s', s.mu.dial.value);
    }
  }

  /** Whom a goroutine at a taken `pubMu` or `dialMu` waits for in the end, `connMu` aside; a swap comes first. */
  lemma FindHolder(s: State, t: Tid) returns (x: Tid)
    requires Inv(s) && !Bound(s) && Waits(s.Pc(t)) && ActStep(s, t, Fail).None?
    ensures x != t && Holds(s.Pc(x)) && (ActStep(s, x, Fail).Some? || WaitsR(s.Pc(x)) || WaitsW(s.Pc(x)))
    ensures HasDialed(Dialer(s)) ==> s.mu.dial == Some(x)
  {
    assert ThreadInv(s, t);
    if HasDialed(Dialer(s)) {
      x := s.mu.dial.value;
      assert ThreadInv(s, x);
      return;
    }
    x := if WaitsPub(s.Pc(t)) then s.mu.pub.value else s.mu.dial.value;
    assert ThreadInv(s, x);
    if Waits(s.Pc(x)) && ActStep(s, x, Fail).None? {
      x := if WaitsPub(s.Pc(x)) then s.mu.pub.value else s.mu.dial.value;
      assert ThreadInv(s, x);
    }
  }

  /** And, when that one is at `connMu`, who keeps it there. */
  lemma FindRunner(s: State, x: Tid) returns (y: Tid)
    requires Inv(s) && (ActStep(s, x, Fail).Some? || WaitsR(s.Pc(x)) || WaitsW(s.Pc(x)))
    ensures ActStep(s, y, Fail).Some? && (y == x || (HoldsConn(s.Pc(y)) && !Waits(s.Pc(y))))
  {
    y := x;
    if ActStep(s, x, Fail).None? {
      y := if s.mu.connW.Some? then s.mu.connW.value else var r :| r in s.mu.connR; r;
      assert ThreadInv(s, y) && ThreadInv(s, x);
    }
  }

  lemma RunnerFrees(s: State, x: Tid, y: Tid, s': State)
    requires Inv(s) && Inv(s') && Local(s, y, s') && !Bound(s) && (HasDialed(Dialer(s)) ==> s.mu.dial == Some(x))
    requires Holds(s.Pc(y)) && (y == x || HoldsConn(s.Pc(y))) && ActStep(s, y, Fail) == Some(s')
    ensures !Bound(s')
  {
    assert ThreadInv(s, y);
    if s.mu.dial == Some(y) {
      DialerFrees(s, y, s');
    } else if HasDialed(Dialer(s)) {
      // a publisher that reads under `connMu` while a swap waits sees a dead connection
      assert ThreadInv(s, x);
      if s.tr.closed {
        BoundWhenClosed(s');
        assert ThreadInv(s', y);
      }
    } else {
      HolderFrees(s, y, s');
    }
  }

  /** Played on like this, the goroutine that waits gets its mutex, and nobody closes the transport. */
  lemma {:induction false} LetGo(s0: State, s: State, t: Tid) returns (s': State)
    requires Inv(s) && Leads(s0, s) && !Bound(s) && Waits(s.Pc(t))
    ensures Inv(s') && Leads(s0, s') && s'.tr.closed == s.tr.closed && s'.Pc(t) != s.Pc(t)
    ensures s.Pc(t).Sw? ==> s'.Pc(t).Sw? && s'.Pc(t).sw.PubReset?
    decreases ToGo(s), s.mu.connR, s.mu.connW.Some?
  {
    if ActStep(s, t, Fail).Some? {
      s' := GoOn(s0, s, Act(t, Fail));
      return;
    }
    var x := FindHolder(s, t);
    var y := FindRunner(s, x);
    var s1 := GoOn(s0, s, Act(y, Fail));
    ActKeeps(s, y, Fail, s1);
    if Holds(s.Pc(y)) {
      HolderStep(s, y, s1);
      RunnerFrees(s, x, y, s1);
    } else {
      ConnStep(s, y, s1);
    }
    s' := LetGo(s0, s1, t);
  }

  // ------------------------------------------------------------------ theorems

  /**
   In every reachable state of an open transport a goroutine at `pubMu` or `dialMu`, the watchdog
   included, stays there until somebody closes the transport if and only if the state is bound.
   */
  lemma LostUntilCloseIff(s: State, t: Tid)
    requires Reachable(s) && !s.tr.closed && Waits(s.Pc(t))
    ensures (forall s' :: Leads(s, s') && !s'.tr.closed ==> s'.Pc(t) == s.Pc(t)) <==> Bound(s)
  {
    ReachableInv(s);
    if Bound(s) {
      forall s' | Leads(s, s') && !s'.tr.closed ensures s'.Pc(t) == s.Pc(t) {
        var p: seq<State> :| IsPath(p) && p[0] == s && p[|p| - 1] == s';
        BoundUntilClose(p, |p| - 1);
      }
    } else {
      LeadsNowhere(s);
      var s' := LetGo(s, s, t);
    }
  }

  /**
   In every reachable state a goroutine at `pubMu` or `dialMu`, Close included, stays there on every
   path if and only if the state is trapped.
   */
  lemma WaitsForEverIff(s: State, t: Tid)
    requires Reachable(s) && Waits(s.Pc(t))
    ensures (forall s' :: Leads(s, s') ==> s'.Pc(t) == s.Pc(t)) <==> Trapped(s)
  {
    ReachableInv(s);
    if Trapped(s) {
      forall s' | Leads(s, s') ensures s'.Pc(t) == s.Pc(t) {
        var p: seq<State> :| IsPath(p) && p[0] == s && p[|p| - 1] == s';
        TrapIsPermanent(p, |p| - 1);
      }
    } else {
      var s1 := SomebodyCloses(s, t);
      BoundWhenClosed(s1);
      var s2 := LetGo(s, s1, t);
    }
  }

  /** A deadlock that stands is a trap, a trap is bound, and without a publisher inside `reconnect` there is no trap. */
  lemma DeadlockTraps(s: State)
    requires Reachable(s)
    ensures PublisherCycle(s) ==> Trapped(s)
    ensures Trapped(s) ==> Bound(s) && PublisherReconnects(s.Pc(s.mu.pub.value))
  {
    ReachableInv(s);
    BoundWhenClosed(s);
  }

  // -------------------------------------------------------------------- connMu

  /** Readers and a writer of `connMu` can always go on and leave it to a goroutine that waits for it. */
  lemma ConnMuDrains(s: State, s1: State, u: Tid) returns (s2: State)
    requires Inv(s1) && Leads(s, s1) && (WaitsR(s1.Pc(u)) || WaitsW(s1.Pc(u)))
    ensures Inv(s2) && Leads(s, s2) && s2.Pc(u) == s1.Pc(u) && s1.hist.installed <= s2.hist.installed
    ensures s2.tr.closed == s1.tr.closed && s2.mu.dial == s1.mu.dial && s2.mu.connW == None && s2.mu.connR == {}
    decreases s1.mu.connR, s1.mu.connW.Some?
  {
    if s1.mu.connR == {} && s1.mu.connW == None {
      return s1;
    }
    var t := if s1.mu.connW.Some? then s1.mu.connW.value else var r :| r in s1.mu.connR; r;
    assert ThreadInv(s1, t) && ThreadInv(s1, u);
    var s' := GoOn(s, s1, Act(t, Go));
    s2 := ConnMuDrains(s, s', u);
  }

  /** At `connMu` nobody is ever lost: some path, without a Close, lets each waiting goroutine on. */
  lemma NobodyLostAtConnMu(s: State, t: Tid)
    requires Reachable(s) && (WaitsR(s.Pc(t)) || WaitsW(s.Pc(t)))
    ensures exists s' :: Leads(s, s') && s'.tr.closed == s.tr.closed && s'.Pc(t) != s.Pc(t)
  {
    ReachableInv(s);
    LeadsNowhere(s);
    var s1 := ConnMuDrains(s, s, t);
    var s2 := GoOn(s, s1, Act(t, Go));
  }
}
