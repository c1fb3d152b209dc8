/**
 Which deadlocks the AMQP transport can reach over `dialMu`, `connMu` and `pubMu`.

 `publishChannel` keeps `pubMu` locked while `connectionForUse` may enter `reconnect`,
 and `reconnect` locks `pubMu` again after its swap. The theorems say that this is the
 only source of deadlock, exactly when it strikes, and that it is permanent.
 */
module AmqpDeadlock {
  import opened Basics
  import opened AmqpTransport
  import opened AmqpInvariants

  predicate WaitsDial(pc: Pc) {
    pc.Rc? && pc.rc.DialLock?
  }

  predicate WaitsPub(pc: Pc) {
    (pc.Pub? && pc.pub.PubLock?) || (pc.Cl? && pc.cl.ClPubLock?) || (pc.Sw? && pc.sw.PubMuLock?)
  }

  predicate WaitsW(pc: Pc) {
    (pc.Sw? && pc.sw.ConnLock?) || (pc.Cl? && pc.cl.ClConnLock?) || (pc.Sd? && pc.sd.SdLock?)
  }

  predicate WaitsR(pc: Pc) {
    (pc.Use? && pc.use.UseRLock?) || (pc.Rc? && pc.rc.ConnRLock?) || (pc.Wd? && pc.wd.DogRLock?)
  }

  predicate AtLock(pc: Pc) {
    WaitsDial(pc) || WaitsPub(pc) || WaitsW(pc) || WaitsR(pc)
  }

  /**
   `t` stands at a lock and `u` is one it has to wait for: a holder, or for a read lock
   also a writer already queued, since a queued writer holds up new readers.
   */
  ghost predicate WaitsFor(s: State, t: Tid, u: Tid) {
    || (WaitsDial(s.Pc(t)) && s.mu.dial == Some(u))
    || (WaitsPub(s.Pc(t)) && s.mu.pub == Some(u))
    || (WaitsW(s.Pc(t)) && (s.mu.connW == Some(u) || u in s.mu.connR))
    || (WaitsR(s.Pc(t)) && (s.mu.connW == Some(u) || WaitsW(s.Pc(u))))
  }

  /** A set of goroutines each of which waits for another member of the set. */
  ghost predicate Deadlocked(s: State, d: set<Tid>) {
    d != {} && forall t {:trigger WaitsWithin(s, d, t)} :: t in d ==> WaitsWithin(s, d, t)
  }

  ghost predicate WaitsWithin(s: State, d: set<Tid>, t: Tid) {
    exists u :: u in d && WaitsFor(s, t, u)
  }

  /**
   The holder of `pubMu` is a publisher inside `reconnect` that waits for `pubMu` itself, or
   for a `dialMu` whose holder waits for `pubMu`.
   */
  ghost predicate PublisherCycle(s: State) {
    s.mu.pub.Some? &&
    match s.Pc(s.mu.pub.value)
    case Sw(Publisher, PubMuLock(_)) => true
    case Rc(Publisher, DialLock) => Dialer(s).Sw? && Dialer(s).sw.PubMuLock?
    case _ => false
  }

  function Rank(pc: Pc): nat {
    if WaitsW(pc) then 1
    else if WaitsR(pc) then 2
    else if WaitsDial(pc) then if pc.role.Publisher? then 3 else 5
    else if WaitsPub(pc) then 4
    else 0
  }

  /** Outside a publisher cycle every wait-for edge leads to a goroutine of lower rank. */
  lemma EdgeDescends(s: State, t: Tid, u: Tid)
    requires Inv(s) && !PublisherCycle(s) && WaitsFor(s, t, u)
    ensures Rank(s.Pc(u)) < Rank(s.Pc(t))
  {
    assert ThreadInv(s, t) && ThreadInv(s, u);
  }

  lemma {:induction false} NoDescendingSet(s: State, d: set<Tid>, t: Tid)
    requires Inv(s) && !PublisherCycle(s) && Deadlocked(s, d) && t in d
    ensures false
    decreases Rank(s.Pc(t))
  {
    assert WaitsWithin(s, d, t);
    var u :| u in d && WaitsFor(s, t, u);
    EdgeDescends(s, t, u);
    NoDescendingSet(s, d, u);
  }

  /** In every reachable state: some set of goroutines is deadlocked if and only if a publisher cycle stands. */
  lemma DeadlockIff(s: State)
    requires Reachable(s)
    ensures (exists d: set<Tid> :: Deadlocked(s, d)) <==> PublisherCycle(s)
  {
    ReachableInv(s);
    if PublisherCycle(s) {
      var p := s.mu.pub.value;
      assert ThreadInv(s, p);
      if WaitsPub(s.Pc(p)) {
        assert WaitsFor(s, p, p);
        assert Deadlocked(s, {p});
      } else {
        var h := s.mu.dial.value;
        assert WaitsFor(s, p, h) && WaitsFor(s, h, p);
        assert Deadlocked(s, {p, h});
      }
    } else if d: set<Tid> :| Deadlocked(s, d) {
      var t :| t in d;
      NoDescendingSet(s, d, t);
    }
  }

  /** A publisher inside `reconnect`, with `pubMu` locked all the while. */
  predicate PublisherReconnects(pc: Pc) {
    InReconnect(pc) && pc.role.Publisher?
  }

  /** Ranks for a set without such a publisher: whoever waits for `dialMu` comes last. */
  function RankAlone(pc: Pc): nat {
    if WaitsDial(pc) then 5 else Rank(pc)
  }

  lemma {:induction false} NoSetWithoutPublisher(s: State, d: set<Tid>, t: Tid)
    requires Inv(s) && Deadlocked(s, d) && t in d
    requires s.mu.pub.Some? && s.mu.pub.value in d ==> !PublisherReconnects(s.Pc(s.mu.pub.value))
    ensures false
    decreases RankAlone(s.Pc(t))
  {
    assert WaitsWithin(s, d, t);
    var u :| u in d && WaitsFor(s, t, u);
    assert ThreadInv(s, t) && ThreadInv(s, u);
    NoSetWithoutPublisher(s, d, u);
  }

  /** Every deadlocked set of a reachable state contains the holder of `pubMu`, a publisher inside `reconnect`. */
  lemma EveryDeadlockHasPublisher(s: State, d: set<Tid>)
    requires Reachable(s) && Deadlocked(s, d)
    ensures s.mu.pub.Some? && s.mu.pub.value in d && PublisherReconnects(s.Pc(s.mu.pub.value))
    ensures PublisherCycle(s)
  {
    ReachableInv(s);
    var t :| t in d;
    if !(s.mu.pub.Some? && s.mu.pub.value in d && PublisherReconnects(s.Pc(s.mu.pub.value))) {
      NoSetWithoutPublisher(s, d, t);
    }
    DeadlockIff(s);
  }

  /** A wait-for path: each goroutine waits for the next. */
  ghost predicate WaitPath(s: State, q: seq<Tid>) {
    |q| > 0 && forall i :: 0 <= i < |q| - 1 ==> WaitsFor(s, q[i], q[i + 1])
  }

  lemma {:induction false} PathDescends(s: State, q: seq<Tid>)
    requires Inv(s) && !PublisherCycle(s) && WaitPath(s, q) && |q| > 1
    ensures Rank(s.Pc(q[|q| - 1])) < Rank(s.Pc(q[0]))
  {
    var r := q[..|q| - 1];
    assert WaitsFor(s, q[|q| - 2], q[|q| - 2 + 1]);
    EdgeDescends(s, q[|q| - 2], q[|q| - 1]);
    if |r| > 1 {
      PathDescends(s, r);
    }
  }

  /** Without a publisher inside `reconnect` the wait-for relation has no cycle. */
  lemma AcyclicWithoutPublisher(s: State, q: seq<Tid>)
    requires Reachable(s) && WaitPath(s, q) && |q| > 1
    requires forall t :: !PublisherReconnects(s.Pc(t))
    ensures q[0] != q[|q| - 1]
  {
    ReachableInv(s);
    PathDescends(s, q);
  }

  /** The goroutine can take a step of its own. */
  ghost predicate Runnable(s: State, t: Tid) {
    exists c :: ActStep(s, t, c).Some?
  }

  predicate Resting(pc: Pc) {
    pc.Wd? && (pc.wd.DogPark? || pc.wd.DogOff? || pc.wd.DogDone?)
  }

  lemma AwayFromLocksRuns(s: State, t: Tid)
    requires ThreadInv(s, t) && !AtLock(s.Pc(t)) && !Resting(s.Pc(t))
    ensures Runnable(s, t)
  {
    var c := if s.Pc(t).Idle? then CallUse else Go;
    assert ActStep(s, t, c).Some?;
  }

  lemma BlockedHasEdge(s: State, t: Tid)
    requires Inv(s) && AtLock(s.Pc(t)) && !Runnable(s, t)
    ensures exists u :: WaitsFor(s, t, u) && !Resting(s.Pc(u))
  {
    assert ActStep(s, t, Go).None?;
    var u := if WaitsDial(s.Pc(t)) then s.mu.dial.value
             else if WaitsPub(s.Pc(t)) then s.mu.pub.value
             else if s.mu.connW.Some? then s.mu.connW.value
             else var r :| r in s.mu.connR; r;
    assert ThreadInv(s, u);
    assert WaitsFor(s, t, u);
  }

  /** Outside a publisher cycle, whoever is blocked waits, in the end, for a goroutine that can run. */
  lemma {:induction false} BlockedReachesRunnable(s: State, t: Tid)
    requires Reachable(s) && !PublisherCycle(s) && !Resting(s.Pc(t))
    ensures exists q :: WaitPath(s, q) && q[0] == t && Runnable(s, q[|q| - 1])
    decreases Rank(s.Pc(t))
  {
    ReachableInv(s);
    assert ThreadInv(s, t);
    if Runnable(s, t) {
      assert WaitPath(s, [t]);
    } else {
      if !AtLock(s.Pc(t)) {
        AwayFromLocksRuns(s, t);
      }
      BlockedHasEdge(s, t);
      var u :| WaitsFor(s, t, u) && !Resting(s.Pc(u));
      EdgeDescends(s, t, u);
      BlockedReachesRunnable(s, u);
      var q :| WaitPath(s, q) && q[0] == u && Runnable(s, q[|q| - 1]);
      assert WaitPath(s, [t] + q);
    }
  }

  // ---------------------------------------------------------------- for ever

  /** A publisher whose own `reconnect` dialed: on its way to, or at, the second lock of `pubMu`. */
  predicate Doomed(pc: Pc) {
    pc.Sw? && pc.role.Publisher? && (pc.sw.ConnLock? || pc.sw.ConnSwap? || pc.sw.PubMuLock?)
  }

  lemma DoomedStep(s: State, t: Tid, e: Event, s': State)
    requires Inv(s) && Doomed(s.Pc(t)) && Step(s, e) == Some(s')
    ensures Doomed(s'.Pc(t))
  {
    assert ThreadInv(s, t);
    StepKeeps(s, e, s');
  }

  /** A publisher that dialed successfully never leaves `reconnect` again and never releases `pubMu`. */
  lemma {:induction false} PublisherDialIsFatal(p: seq<State>, t: Tid, i: nat)
    requires IsPath(p) && Reachable(p[0]) && Doomed(p[0].Pc(t)) && i < |p|
    ensures Doomed(p[i].Pc(t)) && p[i].mu.pub == Some(t) && p[i].mu.dial == Some(t)
  {
    ReachableInv(p[0]);
    PathKeeps(p, i);
    if i > 0 {
      PublisherDialIsFatal(p, t, i - 1);
      PathKeeps(p, i - 1);
      var e := EventAt(p, i);
      DoomedStep(p[i - 1], t, e, p[i]);
    }
    assert ThreadInv(p[i], t);
  }

  /** While `pubMu` stays taken, nobody gets past a lock of it. */
  lemma PubWaitersStay(s: State, e: Event, s': State, t: Tid)
    requires Inv(s) && s.mu.pub.Some? && WaitsPub(s.Pc(t)) && Step(s, e) == Some(s')
    ensures s'.Pc(t) == s.Pc(t)
  {
    StepKeeps(s, e, s');
    assert ThreadInv(s, t);
  }

  lemma DialWaitersStay(s: State, e: Event, s': State, t: Tid)
    requires Inv(s) && s.mu.dial.Some? && WaitsDial(s.Pc(t)) && Step(s, e) == Some(s')
    ensures s'.Pc(t) == s.Pc(t)
  {
    StepKeeps(s, e, s');
    assert ThreadInv(s, t);
  }

  /** The goroutine of a cycle that holds `dialMu` and waits for `pubMu`. */
  lemma CycleDialer(s: State)
    requires Inv(s) && PublisherCycle(s)
    ensures s.mu.dial.Some? && WaitsPub(s.Pc(s.mu.dial.value)) && InReconnect(s.Pc(s.mu.dial.value))
  {
    assert ThreadInv(s, s.mu.pub.value);
  }

  lemma CycleStep(s: State, e: Event, s': State)
    requires Inv(s) && PublisherCycle(s) && Step(s, e) == Some(s')
    ensures PublisherCycle(s') && s'.mu.pub == s.mu.pub && s'.mu.dial == s.mu.dial
  {
    var p := s.mu.pub.value;
    CycleDialer(s);
    var h := s.mu.dial.value;
    StepKeeps(s, e, s');
    PubWaitersStay(s, e, s', h);
    assert ThreadInv(s, p) && ThreadInv(s', p) && ThreadInv(s', h);
    if !WaitsPub(s.Pc(p)) {
      DialWaitersStay(s, e, s', p);
    }
  }

  /** Dials end and connections are installed by the holder of `dialMu` alone. */
  lemma OnlyTheDialerInstalls(s: State, e: Event, s': State)
    requires Inv(s) && Step(s, e) == Some(s')
    requires s.mu.dial.Some? && WaitsPub(s.Pc(s.mu.dial.value))
    ensures s'.hist.redials == s.hist.redials && s'.hist.installed == s.hist.installed
  {
    assert ThreadInv(s, s.mu.dial.value);
    if e.Act? {
      assert ThreadInv(s, e.t);
    }
  }

  /** What a deadlock leaves as it is. */
  ghost predicate Frozen(s: State, s': State) {
    && s'.mu.pub == s.mu.pub && s'.mu.dial == s.mu.dial
    && s'.hist.redials == s.hist.redials && s'.hist.installed == s.hist.installed
    && forall t :: WaitsPub(s.Pc(t)) || WaitsDial(s.Pc(t)) ==> s'.Pc(t) == s.Pc(t)
  }

  lemma CycleFreezes(s: State, e: Event, s': State)
    requires Inv(s) && PublisherCycle(s) && Step(s, e) == Some(s')
    ensures PublisherCycle(s') && Frozen(s, s')
  {
    CycleDialer(s);
    CycleStep(s, e, s');
    OnlyTheDialerInstalls(s, e, s');
    forall t | WaitsPub(s.Pc(t)) || WaitsDial(s.Pc(t)) ensures s'.Pc(t) == s.Pc(t) {
      if WaitsPub(s.Pc(t)) {
        PubWaitersStay(s, e, s', t);
      } else {
        DialWaitersStay(s, e, s', t);
      }
    }
  }

  lemma CycleStays(p: seq<State>, i: nat)
    requires IsPath(p) && Inv(p[0]) && 0 < i < |p| && PublisherCycle(p[i - 1])
    ensures PublisherCycle(p[i]) && Frozen(p[i - 1], p[i])
  {
    var s, s' := p[i - 1], p[i];
    var e := EventAt(p, i);
    assert Inv(s) by {
      PathKeeps(p, i - 1);
    }
    CycleFreezes(s, e, s');
  }

  /**
   A deadlock is permanent: `pubMu` and `dialMu` keep their holders, whoever waits for either,
   `Close` and the watchdog included, waits for ever, and no connection is ever dialed or
   installed again.
   */
  lemma {:induction false} DeadlockIsPermanent(p: seq<State>, i: nat)
    requires IsPath(p) && Reachable(p[0]) && PublisherCycle(p[0]) && i < |p|
    ensures PublisherCycle(p[i]) && Frozen(p[0], p[i])
  {
    if i > 0 {
      DeadlockIsPermanent(p, i - 1);
      assert Inv(p[0]) by {
        ReachableInv(p[0]);
      }
      CycleStays(p, i);
    }
  }

  // ---------------------------------------------------------------- witness

  /** The deadlock is real: one Publish after the connection died is enough. */
  lemma DeadlockHappens(s0: State)
    requires Init(s0) && s0.tr.dialFn && s0.net.live == {0}
    ensures exists s :: Reachable(s) && PublisherCycle(s)
  {
    var t := Worker(0);
    InitReachable(s0);
    var s1 := Take(s0, DropConn(0));
    var s2 := Take(s1, Act(t, CallPublish));
    var s3 := Take(s2, Act(t, Go));
    var s4 := Take(s3, Act(t, Go));
    assert s4.Pc(t) == Use(Publisher, UseRLock) && s4.mu.pub == Some(t);
    var s5 := UseFindsDead(s4, t);
    var s6 := ReconnectReachesDial(s5, t);
    var s7 := DialInstalls(s6, t);
    assert PublisherCycle(s7);
  }
}
