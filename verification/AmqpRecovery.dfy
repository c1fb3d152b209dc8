/**
 When the AMQP transport can recover: a transport with a watchdog, not closed, whose current
 connection is dead gets another connection on some path without a Close, unless the dialer
 stands at a `pubMu` whose holder is bound for `dialMu`.
 */
module AmqpRecovery {
  import opened Basics
  import opened AmqpTransport
  import opened AmqpInvariants
  import opened AmqpDeadlock
  import opened AmqpStuck
  import opened AmqpReconnect

  /** Open, watched, and without a live connection. */
  ghost predicate Down(s: State) {
    !s.tr.closed && s.tr.dogStarted && !s.Live(s.tr.conn)
  }

  /** Another connection was installed. */
  ghost predicate Installed(s: State, s': State) {
    s.hist.installed < s'.hist.installed
  }

  lemma DownStep(s: State, e: Event, s': State)
    requires Inv(s) && Down(s) && Step(s, e) == Some(s') && !s'.tr.closed
    ensures Installed(s, s') || (Down(s') && s'.hist.installed == s.hist.installed)
  {
    if e.Act? {
      assert ThreadInv(s, e.t);
      if s.Pc(e.t).Sw? && s.Pc(e.t).sw.ConnSwap? {
        assert s.Pc(e.t).sw.dialed in s'.hist.installed;
      }
    }
  }

  /** A transport that is down stays so until another connection is installed or it is closed. */
  lemma {:induction false} DownUntilInstalled(p: seq<State>, i: nat)
    requires IsPath(p) && Inv(p[0]) && Down(p[0]) && i < |p| && !p[i].tr.closed
    ensures Installed(p[0], p[i]) || (Down(p[i]) && p[i].hist.installed == p[0].hist.installed)
  {
    if i > 0 {
      PathKeeps(p, i - 1);
      var e := EventAt(p, i);
      RecordGrows(p[i - 1], e, p[i]);
      DownUntilInstalled(p, i - 1);
      if Down(p[i - 1]) {
        DownStep(p[i - 1], e, p[i]);
      }
    }
  }

  lemma StillDown(s: State, s': State)
    requires Inv(s) && Down(s) && Leads(s, s') && !s'.tr.closed
    ensures Installed(s, s') || (Down(s') && s'.hist.installed == s.hist.installed)
  {
    var p: seq<State> :| IsPath(p) && p[0] == s && p[|p| - 1] == s';
    DownUntilInstalled(p, |p| - 1);
  }

  // ------------------------------------------------------------------ a way up

  /** From inside `reconnect`: the dialer passes its checks, dials and installs. */
  lemma {:induction false} DialerInstalls(s: State, h: Tid) returns (s': State)
    requires Inv(s) && Down(s) && s.Pc(h).Rc? && !s.Pc(h).rc.DialLock?
    ensures Leads(s, s') && !s'.tr.closed && Installed(s, s')
    decreases Left(s.Pc(h))
  {
    LeadsNowhere(s);
    var s1 := s;
    if s.Pc(h).rc.ConnRLock? {
      s1 := ConnMuDrains(s, s, h);
      StillDown(s, s1);
      if Installed(s, s1) {
        return s1;
      }
    }
    var s2 := GoOn(s, s1, Act(h, Go));
    assert ThreadInv(s1, h);
    if s2.Pc(h).Sw? {
      s' := SwapEnds(s, s2, h);
    } else {
      StillDown(s, s2);
      s' := DialerInstalls(s2, h);
      LeadsOn(s, s2, s');
    }
  }

  /** Steps of the watchdog to `dialMu`. */
  function ToDial(pc: Pc): nat {
    if !pc.Wd? then 0 else
      match pc.wd
      case DogTop => 4
      case DogRLock => 3
      case DogRead => 2
      case DogCheck(_, _) => 1
      case _ => 5
  }

  /** With `dialMu` free, the watchdog gets there and installs. */
  lemma {:induction false} WatchdogInstalls(s: State) returns (s': State)
    requires Inv(s) && Down(s) && s.mu.dial == None
    ensures Leads(s, s') && !s'.tr.closed && Installed(s, s')
    decreases ToDial(s.Pc(Dog))
  {
    LeadsNowhere(s);
    assert ThreadInv(s, Dog);
    var s1 := s;
    if s.Pc(Dog) == Wd(DogRLock) {
      s1 := ConnMuDrains(s, s, Dog);
      StillDown(s, s1);
      if Installed(s, s1) {
        return s1;
      }
    }
    var s2 := GoOn(s, s1, Act(Dog, Go));
    StillDown(s, s2);
    if s.Pc(Dog).Rc? {
      s' := DialerInstalls(s2, Dog);
    } else {
      s' := WatchdogInstalls(s2);
    }
    LeadsOn(s, s2, s');
  }

  /** A dialer that has swapped gives `dialMu` back. */
  lemma DialerLeaves(s: State, h: Tid) returns (s': State)
    requires Inv(s) && !Bound(s) && s.mu.dial == Some(h) && s.Pc(h).Sw? && !HasDialed(s.Pc(h))
    ensures Inv(s') && Leads(s, s') && s'.tr.closed == s.tr.closed && s'.mu.dial == None
  {
    LeadsNowhere(s);
    s' := s;
    if s.Pc(h).sw.PubMuLock? {
      s' := LetGo(s, s, h);
    }
    if s'.Pc(h).sw.PubReset? {
      s' := GoOn(s, s', Act(h, Go));
    }
    assert ThreadInv(s', h);
    s' := GoOn(s, s', Act(h, Go));
  }

  /** The dialer waits for a `pubMu` that it gets only after a Close. */
  ghost predicate DialerLost(s: State) {
    Bound(s) && Dialer(s).Sw? && Dialer(s).sw.PubMuLock?
  }

  lemma Recovers(s: State) returns (s': State)
    requires Inv(s) && Down(s) && !DialerLost(s)
    ensures Leads(s, s') && !s'.tr.closed && Installed(s, s')
  {
    LeadsNowhere(s);
    if s.mu.dial == None {
      s' := WatchdogInstalls(s);
      return;
    }
    var h := s.mu.dial.value;
    assert ThreadInv(s, h);
    if s.Pc(h).Rc? {
      s' := DialerInstalls(s, h);
    } else if HasDialed(s.Pc(h)) {
      s' := SwapEnds(s, s, h);
    } else {
      var s1 := DialerLeaves(s, h);
      StillDown(s, s1);
      if Installed(s, s1) {
        return s1;
      }
      s' := WatchdogInstalls(s1);
      LeadsOn(s, s1, s');
    }
  }

  // ----------------------------------------------------------------- no way up

  lemma {:induction false} LostDialerStays(p: seq<State>, i: nat)
    requires IsPath(p) && Inv(p[0]) && DialerLost(p[0]) && i < |p| && !p[i].tr.closed
    ensures DialerLost(p[i]) && p[i].hist.installed == p[0].hist.installed
  {
    if i > 0 {
      PathKeeps(p, i - 1);
      var e := EventAt(p, i);
      RecordGrows(p[i - 1], e, p[i]);
      LostDialerStays(p, i - 1);
      LostDialerStep(p[i - 1], e, p[i]);
    }
  }

  lemma LostDialerStep(s: State, e: Event, s': State)
    requires Inv(s) && DialerLost(s) && Step(s, e) == Some(s') && !s'.tr.closed
    ensures DialerLost(s') && s'.hist.installed == s.hist.installed
  {
    BoundStep(s, e, s');
    NothingComesAlive(s, e, s');
    OnlyTheDialerInstalls(s, e, s');
  }

  /**
   A reachable transport that is open, watched and down gets another connection on some path
   without a Close if and only if its dialer is not lost at `pubMu`.
   */
  lemma RecoversIff(s: State)
    requires Reachable(s) && Down(s)
    ensures (exists s' :: Leads(s, s') && !s'.tr.closed && Installed(s, s')) <==> !DialerLost(s)
  {
    ReachableInv(s);
    if DialerLost(s) {
      forall s' | Leads(s, s') && !s'.tr.closed ensures !Installed(s, s') {
        var p: seq<State> :| IsPath(p) && p[0] == s && p[|p| - 1] == s';
        LostDialerStays(p, |p| - 1);
      }
    } else {
      var s' := Recovers(s);
    }
  }

  // ------------------------------------------------------------------- witness

  /** Lost before any deadlock: the watchdog is at `pubMu`, whose holder has not entered `reconnect` yet. */
  lemma WatchdogBoundHappens(s0: State)
    requires Init(s0) && s0.tr.dialFn && s0.net.live == {0}
    ensures exists s :: Reachable(s) && Down(s) && DialerLost(s) && !Trapped(s) && s.mu.dial == Some(Dog)
  {
    var t := Worker(0);
    InitReachable(s0);
    var s1 := Take(s0, DropConn(0));
    var s2 := Take(s1, Act(t, CallPublish));
    var s3 := Take(s2, Act(t, Go));
    var s4 := Take(s3, Act(t, Go));
    assert s4.Pc(t) == Use(Publisher, UseRLock) && s4.mu.pub == Some(t);
    var s5 := DogFindsDead(s4);
    var s6 := ReconnectReachesDial(s5, Dog);
    var s7 := DialInstalls(s6, Dog);
    var s8 := Take(s7, DropConn(s7.tr.conn.value));
    assert DialerLost(s8);
  }
}
