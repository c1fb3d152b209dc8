/**
 What the reconnect path of the AMQP transport promises on every run: dial storms
 collapse, when `Close` stops the dialing and when a dial outruns it, what can hold up
 the watchdog on a dead connection, and that the cached publish channel follows the
 connection.
 */
module AmqpReconnect {
  import opened Basics
  import opened AmqpTransport
  import opened AmqpInvariants
  import opened AmqpDeadlock
  import opened AmqpStuck

  // ------------------------------------------------------------ dial storms

  /** Installed connections that died so far. */
  ghost function Deaths(s: State): set<ConnId> {
    s.hist.installed - s.net.live
  }

  /** Deaths are final, so their number counts what happened: no connection comes back to life. */
  lemma DeathsAreFinal(s: State, e: Event, s': State)
    requires Reachable(s) && Step(s, e) == Some(s')
    ensures Deaths(s) <= Deaths(s')
  {
    ReachableInv(s);
    if e.Act? {
      assert ThreadInv(s, e.t);
    }
  }

  /**
   For any number of goroutines: dials never overlap, the swap never replaces a live
   connection, and there are never more successful re-dials than dead connections.
   */
  lemma StormsCollapse(s: State)
    requires Reachable(s)
    ensures forall t, u :: s.Pc(t).Rc? && s.Pc(t).rc.Dialing? && s.Pc(u).Rc? && s.Pc(u).rc.Dialing? ==> t == u
    ensures forall t :: s.Pc(t).Sw? && s.Pc(t).sw.ConnSwap? ==> !s.Live(s.tr.conn)
    ensures s.hist.redials <= |Deaths(s)|
  {
    ReachableInv(s);
    forall t, u | s.Pc(t).Rc? && s.Pc(t).rc.Dialing? && s.Pc(u).Rc? && s.Pc(u).rc.Dialing? ensures t == u {
      assert ThreadInv(s, t) && ThreadInv(s, u);
    }
    forall t | s.Pc(t).Sw? && s.Pc(t).sw.ConnSwap? ensures !s.Live(s.tr.conn) {
      assert ThreadInv(s, t);
    }
    if HasDialed(Dialer(s)) {
      assert ThreadInv(s, s.mu.dial.value);
    }
    RedialsBounded(s);
  }

  /** The counting: of the installed connections at most one is alive, and none while a new one waits. */
  lemma RedialsBounded(s: State)
    requires OneAlive(s) && Counts(s) && (HasDialed(Dialer(s)) ==> NoneAlive(s))
    ensures s.hist.redials <= |Deaths(s)|
  {
    if c :| c in s.hist.installed && c in s.net.live {
      assert forall d :: d in s.hist.installed && d in s.net.live ==> d == c;
      assert Deaths(s) == s.hist.installed - {c};
    } else {
      assert Deaths(s) == s.hist.installed;
    }
  }

  // ------------------------------------------------------- publish channel

  /**
   While the transport is open and no `reconnect` is between its swap and its reset, the
   cached publish channel is nil or was opened on the current connection.
   */
  lemma PublishChannelIsCurrent(s: State)
    requires Reachable(s) && !s.tr.closed
    requires forall t :: !InResetWindow(s.Pc(t))
    ensures s.tr.pubCh.Some? ==> s.tr.conn == Some(s.tr.pubCh.value.on)
  {
    ReachableInv(s);
  }

  // --------------------------------------------------------------- watchdog

  /** A parked watchdog of an open transport sleeps on the current connection or on a dead one. */
  lemma ParkedOnCurrentOrDead(s: State)
    requires Reachable(s) && !s.tr.closed && s.Pc(Dog).Wd? && s.Pc(Dog).wd.DogPark?
    ensures s.tr.conn == Some(s.Pc(Dog).wd.on) || s.Pc(Dog).wd.on !in s.net.live
  {
    ReachableInv(s);
    assert ThreadInv(s, Dog);
  }

  /**
   Once started and until Close, a watchdog facing a dead current connection has an enabled
   step unless it is at a lock that is taken; it is never off, done or asleep.
   */
  lemma NoLostWakeUp(s: State)
    requires Reachable(s) && s.tr.dogStarted && !s.tr.closed && !s.Live(s.tr.conn)
    ensures ActStep(s, Dog, Go).Some?
            || (s.Pc(Dog) == Wd(DogRLock) && s.mu.connW.Some?)
            || (s.Pc(Dog) == Rc(Watchdog, DialLock) && s.mu.dial.Some?)
            || (s.Pc(Dog) == Rc(Watchdog, ConnRLock) && s.mu.connW.Some?)
            || (s.Pc(Dog).Sw? && s.Pc(Dog).sw.ConnLock? && (s.mu.connW.Some? || s.mu.connR != {}))
            || (s.Pc(Dog).Sw? && s.Pc(Dog).sw.PubMuLock? && s.mu.pub.Some?)
  {
    ReachableInv(s);
    assert ThreadInv(s, Dog);
  }

  /** Outside a publisher cycle some goroutine it waits for can run; whether it is let go, `AmqpStuck` decides. */
  lemma WatchdogReachesRunnable(s: State)
    requires Reachable(s) && s.tr.dogStarted && !s.tr.closed && !s.Live(s.tr.conn) && !PublisherCycle(s)
    ensures exists q :: WaitPath(s, q) && q[0] == Dog && Runnable(s, q[|q| - 1])
  {
    NoLostWakeUp(s);
    if ActStep(s, Dog, Go).Some? {
      assert Runnable(s, Dog) && WaitPath(s, [Dog]);
    } else {
      BlockedReachesRunnable(s, Dog);
    }
  }

  // ------------------------------------------------------------------ Close

  /** `Close` was called and no `reconnect` is past its `closed` check with its swap to come. */
  ghost predicate Quiet(s: State) {
    s.tr.closed && forall t :: !PastCheck(s.Pc(t))
  }

  /** After `closed` is set at most one dial starts, by the holder of `dialMu` that was past the check. */
  lemma AtMostOneLateDial(s: State, e: Event, s': State)
    requires Reachable(s) && Step(s, e) == Some(s')
    ensures s'.hist.lateDials <= 1
    ensures s'.hist.lateDials != s.hist.lateDials ==>
              s.tr.closed && e.Act? && s.mu.dial == Some(e.t) && s.Pc(e.t).Rc? && s.Pc(e.t).rc.DialStart?
  {
    ReachableInv(s);
    StepKeeps(s, e, s');
    if e.Act? {
      assert ThreadInv(s, e.t);
    }
  }

  /** The `closed` check is the only way in: once `closed` is set nobody gets past it. */
  lemma CheckGuards(s: State, t: Tid, choice: Choice, s': State)
    requires s.tr.closed && !PastCheck(s.Pc(t)) && ActStep(s, t, choice) == Some(s')
    ensures !PastCheck(s'.Pc(t))
  {
    match s.Pc(t)
    case Rc(_, at) => assert at.CheckClosed? ==> s'.Pc(t).Sw?;
    case _ =>
  }

  lemma ReconnectChecksFirst(s: State, t: Tid, choice: Choice, s': State)
    requires s.tr.closed && !PastCheck(s.Pc(t)) && s.Pc(t).Rc? && ActStep(s, t, choice) == Some(s')
    ensures s'.tr == s.tr && s'.hist == s.hist
  {
  }

  /** A goroutine that is not past the check dials nothing and installs nothing. */
  lemma OnlyPastCheckInstalls(s: State, t: Tid, choice: Choice, s': State)
    requires s.tr.closed && !PastCheck(s.Pc(t)) && ActStep(s, t, choice) == Some(s')
    ensures s'.tr.closed && s'.hist == s.hist
    ensures s.tr.conn == None ==> s'.tr.conn == None
  {
    if s.Pc(t).Rc? {
      ReconnectChecksFirst(s, t, choice, s');
    }
  }

  lemma QuietStep(s: State, e: Event, s': State)
    requires Inv(s) && Quiet(s) && Step(s, e) == Some(s')
    ensures Quiet(s') && s'.hist == s.hist
    ensures s.tr.conn == None ==> s'.tr.conn == None
  {
    StepKeeps(s, e, s');
    if e.Act? {
      OnlyPastCheckInstalls(s, e.t, e.choice, s');
      forall u ensures !PastCheck(s'.Pc(u)) {
        if u == e.t {
          CheckGuards(s, u, e.choice, s');
        } else if u == Mover(s, e.t) {
          assert s'.Pc(u) == Wd(DogTop);
        }
      }
    }
  }

  /** From a quiet state on no dial starts or succeeds, nothing is installed, and a nil connection stays nil. */
  lemma {:induction false} CloseStopsDialing(p: seq<State>, i: nat)
    requires IsPath(p) && Reachable(p[0]) && Quiet(p[0]) && i < |p|
    ensures Quiet(p[i]) && p[i].hist == p[0].hist
    ensures p[0].tr.conn == None ==> p[i].tr.conn == None
  {
    ReachableInv(p[0]);
    if i > 0 {
      CloseStopsDialing(p, i - 1);
      PathKeeps(p, i - 1);
      var e := EventAt(p, i);
      QuietStep(p[i - 1], e, p[i]);
    }
  }

  /** `Close` has set `closed` and has yet to take the connection out. */
  predicate BeforeGrab(pc: Pc) {
    pc.Cl? && !pc.cl.ClSet? && !pc.cl.ClKill?
  }

  ghost predicate NilOrClosing(s: State, t: Tid) {
    s.hist.closer == Some(t) && (s.tr.conn == None || BeforeGrab(s.Pc(t)))
  }

  lemma NilOrClosingStep(s: State, t: Tid, e: Event, s': State)
    requires Inv(s) && Quiet(s) && NilOrClosing(s, t) && Step(s, e) == Some(s')
    ensures NilOrClosing(s', t)
  {
    StepKeeps(s, e, s');
    QuietStep(s, e, s');
    assert ThreadInv(s, t);
    if e.Act? {
      assert ThreadInv(s, e.t);
    }
  }

  lemma NilOrClosingAlong(p: seq<State>, t: Tid, i: nat)
    requires IsPath(p) && Reachable(p[0]) && Quiet(p[0]) && 0 < i < |p| && NilOrClosing(p[i - 1], t)
    ensures NilOrClosing(p[i], t)
  {
    CloseStopsDialing(p, i - 1);
    ReachableInv(p[0]);
    PathKeeps(p, i - 1);
    var e := EventAt(p, i);
    NilOrClosingStep(p[i - 1], t, e, p[i]);
  }

  /**
   If nobody was past the check when `t` set `closed`, the connection is nil from the moment
   `t`'s Close has taken it out, and in particular ever after that Close returned.
   */
  lemma {:induction false} CloseLeavesNil(p: seq<State>, t: Tid, i: nat)
    requires IsPath(p) && Reachable(p[0]) && Quiet(p[0]) && i < |p|
    requires p[0].hist.closer == Some(t) && p[0].Pc(t) == Cl(ClPubLock)
    ensures NilOrClosing(p[i], t)
  {
    if i > 0 {
      CloseLeavesNil(p, t, i - 1);
      NilOrClosingAlong(p, t, i);
    }
  }

  /** And once that Close returned, no connection the transport ever held is up, now or later. */
  lemma CloseShutsEverything(p: seq<State>, t: Tid, i: nat)
    requires IsPath(p) && Reachable(p[0]) && Quiet(p[0]) && i < |p|
    requires p[0].hist.closer == Some(t) && p[0].Pc(t) == Cl(ClPubLock)
    requires p[i].Pc(t).Cl? ==> p[i].Pc(t).cl.ClSet?
    ensures p[i].hist.installed !! p[i].net.live
  {
    CloseLeavesNil(p, t, i);
    ReachableInv(p[0]);
    PathKeeps(p, i);
  }

  /** A `connectionForUse` that started after the connection was gone and has not returned. */
  predicate SeesNothing(pc: Pc) {
    pc.Use? && match pc.use
               case UseRLock => true
               case UseRead => true
               case UseCheck(c, _) => c == None
               case UseClosed(c, _) => c == None
               case UseReturn(out) => out == ErrClosed
  }

  predicate Returned(pc: Pc) {
    pc.Use? && pc.use.UseReturn?
  }

  lemma SeesNothingStep(s: State, t: Tid, e: Event, s': State)
    requires Inv(s) && s.tr.closed && s.tr.conn == None && Step(s, e) == Some(s')
    requires SeesNothing(s.Pc(t)) && !Returned(s.Pc(t))
    ensures SeesNothing(s'.Pc(t))
  {
    StepKeeps(s, e, s');
    assert ThreadInv(s, t);
  }

  /**
   Every `connectionForUse` begun in a quiet state with the connection gone returns ErrClosed:
   up to its return it is on that way, whatever the other goroutines do.
   */
  lemma {:induction false} LaterCallsGetErrClosed(p: seq<State>, t: Tid, i: nat)
    requires IsPath(p) && Reachable(p[0]) && Quiet(p[0]) && p[0].tr.conn == None && i < |p|
    requires p[0].Pc(t).Use? && p[0].Pc(t).use == UseRLock
    requires forall k :: 0 <= k < i ==> !Returned(p[k].Pc(t))
    ensures SeesNothing(p[i].Pc(t))
    ensures Returned(p[i].Pc(t)) ==> p[i].Pc(t).use.out == ErrClosed
  {
    ReachableInv(p[0]);
    if i > 0 {
      LaterCallsGetErrClosed(p, t, i - 1);
      CloseStopsDialing(p, i - 1);
      PathKeeps(p, i - 1);
      var e := EventAt(p, i);
      SeesNothingStep(p[i - 1], t, e, p[i]);
    }
  }

  // ----------------------------------------------------- dials that outrun Close

  /** A goroutine past the check can finish its dial. */
  lemma DialEnds(s: State, u: Tid) returns (s': State)
    requires Inv(s) && s.Pc(u).Rc? && PastCheck(s.Pc(u))
    ensures Inv(s') && Leads(s, s') && s'.Pc(u).Sw? && s'.Pc(u).sw.ConnLock? && s'.hist.installed == s.hist.installed
  {
    LeadsNowhere(s);
    s' := s;
    if s.Pc(u).rc.DialStart? {
      s' := GoOn(s, s, Act(u, Go));
    }
    s' := GoOn(s, s', Act(u, Go));
  }

  /** And a dialed connection can be installed, whatever became of `closed`. */
  lemma SwapEnds(s: State, s1: State, u: Tid) returns (s': State)
    requires Inv(s1) && Leads(s, s1) && HasDialed(s1.Pc(u)) && s.hist.installed <= s1.hist.installed
    ensures Leads(s, s') && s.hist.installed < s'.hist.installed && s'.tr.closed == s1.tr.closed
  {
    s' := s1;
    if s'.Pc(u).sw.ConnLock? {
      s' := ConnMuDrains(s, s', u);
      s' := GoOn(s, s', Act(u, Go));
    }
    assert ThreadInv(s', u);
    var c := s'.Pc(u).sw.dialed;
    s' := GoOn(s, s', Act(u, Go));
    assert c in s'.hist.installed && c !in s.hist.installed;
  }

  /**
   After `closed` is set a connection can still be installed if and only if some goroutine is past
   the check of `reconnect` with its swap to come.
   */
  lemma InstallsAfterCloseIff(s: State)
    requires Reachable(s) && s.tr.closed
    ensures (exists s' :: Leads(s, s') && s.hist.installed < s'.hist.installed) <==> exists u :: PastCheck(s.Pc(u))
  {
    ReachableInv(s);
    if u :| PastCheck(s.Pc(u)) {
      LeadsNowhere(s);
      var s1 := s;
      if s.Pc(u).Rc? {
        s1 := DialEnds(s, u);
      }
      var s2 := SwapEnds(s, s1, u);
    } else if s' :| Leads(s, s') && s.hist.installed < s'.hist.installed {
      var p: seq<State> :| IsPath(p) && p[0] == s && p[|p| - 1] == s';
      CloseStopsDialing(p, |p| - 1);
    }
  }

  // -------------------------------------------------------------- witnesses

  /** `Close` undisturbed, from the call to its return. */
  lemma CloseRuns(s: State, t: Tid) returns (s': State)
    requires Reachable(s) && s.Pc(t).Idle? && !t.Dog? && !s.tr.closed
    requires s.mu.pub == None && s.mu.connW == None && s.mu.connR == {}
    ensures Reachable(s') && (forall u :: u != t ==> s'.Pc(u) == s.Pc(u))
    ensures s'.Pc(t).Idle? && s'.mu == s.mu && s'.tr == s.tr.(closed := true, conn := None, pubCh := None)
    ensures s'.net == s.net.(live := Without(s.net.live, s.tr.conn), open := Without(s.net.open, s.tr.pubCh))
  {
    var s1 := Take(s, Act(t, CallClose));
    var s2 := Take(s1, Act(t, Go));
    var s3 := Take(s2, Act(t, Go));
    var s4 := Take(s3, Act(t, Go));
    var s5 := Take(s4, Act(t, Go));
    var s6 := Take(s5, Act(t, Go));
    s' := Take(s6, Act(t, Go));
  }

  /** No Close is past its test of `closed`. */
  ghost predicate NoCloseUnderWay(s: State) {
    forall t :: s.Pc(t).Cl? ==> s.Pc(t).cl.ClSet?
  }

  lemma SecondCloseReturns(s: State, t: Tid, choice: Choice, s': State)
    requires s.tr.closed && (s.Pc(t).Cl? ==> s.Pc(t).cl.ClSet?) && ActStep(s, t, choice) == Some(s')
    ensures s'.Pc(t).Cl? ==> s'.Pc(t).cl.ClSet?
  {
  }

  lemma NoCloseStarts(s: State, e: Event, s': State)
    requires Inv(s) && s.tr.closed && NoCloseUnderWay(s) && Step(s, e) == Some(s')
    ensures NoCloseUnderWay(s')
  {
    StepKeeps(s, e, s');
    if e.Act? {
      forall u ensures s'.Pc(u).Cl? ==> s'.Pc(u).cl.ClSet? {
        if u == e.t {
          SecondCloseReturns(s, u, e.choice, s');
        } else if u == Mover(s, e.t) {
          assert s'.Pc(u) == Wd(DogTop);
        }
      }
    }
  }

  /**
   And nobody closes a connection that was installed late: once no Close is under way, it stays
   the transport's and stays up until the broker drops it.
   */
  lemma LateConnectionStays(s: State, c: ConnId, e: Event, s': State)
    requires Reachable(s) && s.tr.closed && NoCloseUnderWay(s) && s.tr.conn == Some(c) && s.Live(s.tr.conn)
    requires Step(s, e) == Some(s')
    ensures s'.tr.closed && NoCloseUnderWay(s') && s'.tr.conn == Some(c) && (c in s'.net.live || e == DropConn(c))
  {
    ReachableInv(s);
    NoCloseStarts(s, e, s');
    if e.Act? {
      assert ThreadInv(s, e.t);
    }
  }

  /**
   The exception is real: a goroutine past the check when `closed` is set still dials and
   installs, so that after Close returned the transport holds a live connection.
   */
  lemma LateInstallHappens(s0: State)
    requires Init(s0) && s0.tr.dialFn && s0.net.live == {0}
    ensures exists s :: Reachable(s) && s.tr.closed && s.Live(s.tr.conn) && (forall t :: !s.Pc(t).Cl?)
  {
    var t := Worker(0);
    InitReachable(s0);
    var s1 := Take(s0, DropConn(0));
    var s2 := Take(s1, Act(t, CallUse));
    var s3 := UseFindsDead(s2, t);
    var s4 := ReconnectReachesDial(s3, t);
    var s5 := CloseRuns(s4, Worker(1));
    var s6 := DialInstalls(s5, t);
  }

  /** In a publisher cycle the wake-up is lost: open transport, dead connection, and a watchdog at `pubMu` for ever. */
  lemma WatchdogLossHappens(s0: State)
    requires Init(s0) && s0.tr.dialFn && s0.net.live == {0}
    ensures exists s :: Reachable(s) && !s.tr.closed && !s.Live(s.tr.conn) && PublisherCycle(s) && WaitsPub(s.Pc(Dog))
  {
    var t := Worker(0);
    InitReachable(s0);
    var s1 := Take(s0, DropConn(0));
    var s2 := Take(s1, Act(t, CallPublish));
    var s3 := Take(s2, Act(t, Go));
    var s4 := Take(s3, Act(t, Go));
    var s5 := UseFindsDead(s4, t);
    var s6 := DogFindsDead(s5);
    var s7 := ReconnectReachesDial(s6, Dog);
    var s8 := DialInstalls(s7, Dog);
    var s9 := Take(s8, DropConn(s8.tr.conn.value));
  }

  lemma DogFindsDead(s: State) returns (s': State)
    requires Reachable(s) && s.Pc(Dog) == Wd(DogTop) && s.mu.connW == None && Dog !in s.mu.connR
    requires s.tr.dialFn && !s.tr.closed && !s.Live(s.tr.conn)
    ensures Reachable(s') && OnlyMoved(s, Dog, s') && s'.Pc(Dog) == Rc(Watchdog, DialLock) && s'.mu == s.mu
  {
    var s1 := Take(s, Act(Dog, Go));
    var s2 := Take(s1, Act(Dog, Go));
    var s3 := Take(s2, Act(Dog, Go));
    s' := Take(s3, Act(Dog, Go));
    assert s'.mu.connR == s.mu.connR;
  }
}
