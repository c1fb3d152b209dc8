/**
 What each operation of the AMQP transport does when nobody interferes: the sequential
 meaning of `connectionForUse`, `publishChannel`, `SetDialFunc` and one turn of
 `watchdogLoop`, read off the step system from call to return.
 */
module AmqpAlone {
  import opened Basics
  import opened AmqpTransport
  import opened AmqpInvariants
  import opened AmqpReconnect

  /** No mutex is taken. */
  ghost predicate Free(s: State) {
    s.mu.dial == None && s.mu.pub == None && s.mu.connW == None && s.mu.connR == {}
  }

  /** All shared fields are as they were, and only `t` moved. */
  ghost predicate Untouched(s: State, t: Tid, s': State) {
    OnlyMoved(s, t, s') && s'.mu == s.mu
  }

  // ------------------------------------------------------------ connectionForUse

  /**
   With a live connection it returns that one; with a dead one, ErrClosed on a closed transport,
   and without a dial function the dead connection itself. Nothing changes.
   */
  lemma UseWithoutDial(s: State, t: Tid) returns (s': State)
    requires Reachable(s) && Free(s) && s.Pc(t) == Use(Client, UseRLock)
    requires s.Live(s.tr.conn) || s.tr.closed || !s.tr.dialFn
    ensures Reachable(s') && Untouched(s, t, s')
    ensures s'.Pc(t) == Use(Client, UseReturn(if s.Live(s.tr.conn) then Got(s.tr.conn)
                                             else if s.tr.closed then ErrClosed else Got(s.tr.conn)))
  {
    var s1 := Take(s, Act(t, Go));
    var s2 := Take(s1, Act(t, Go));
    s' := Take(s2, Act(t, Go));
    if !s.Live(s.tr.conn) {
      s' := Take(s', Act(t, Go));
    }
    assert s'.mu.connR == s.mu.connR;
  }

  /** On a dead connection of an open transport it dials; a failed dial is its error and changes nothing. */
  lemma UseDialFails(s: State, t: Tid) returns (s': State)
    requires Reachable(s) && Free(s) && s.Pc(t) == Use(Client, UseRLock)
    requires !s.Live(s.tr.conn) && !s.tr.closed && s.tr.dialFn
    ensures Reachable(s') && Untouched(s, t, s') && s'.Pc(t) == Use(Client, UseReturn(ErrDial))
  {
    var s1 := UseFindsDead(s, t);
    var s2 := ReconnectReachesDial(s1, t);
    var s3 := Take(s2, Act(t, Go));
    var s4 := Take(s3, Act(t, Fail));
    s' := Take(s4, Act(t, Go));
  }

  /**
   A dial that succeeds is the new connection and what the call returns; the old connection and the
   old publish channel are closed, and the cached channel is gone.
   */
  lemma UseDials(s: State, t: Tid) returns (s': State)
    requires Reachable(s) && Free(s) && s.Pc(t) == Use(Client, UseRLock)
    requires !s.Live(s.tr.conn) && !s.tr.closed && s.tr.dialFn
    ensures Reachable(s') && s'.Pc(t) == Use(Client, UseReturn(Got(Some(s.net.nextConn)))) && s'.mu == s.mu
    ensures s'.tr == s.tr.(conn := Some(s.net.nextConn), pubCh := None)
    ensures s'.net.open == Without(s.net.open, s.tr.pubCh)
    ensures s'.net.live == Without(s.net.live + {s.net.nextConn}, s.tr.conn) && s'.Live(s'.tr.conn)
    ensures forall u :: u != t ==> s'.Pc(u) == s.Pc(u)
  {
    ReachableInv(s);
    var s1 := UseFindsDead(s, t);
    var s2 := ReconnectReachesDial(s1, t);
    var s3 := DialInstalls(s2, t);
    var s4 := Take(s3, Act(t, Go));
    var s5 := Take(s4, Act(t, Go));
    s' := Take(s5, Act(t, Go));
  }

  // -------------------------------------------------------------- publishChannel

  /** An open cached channel is returned, and nothing changes. */
  lemma PublishCached(s: State, t: Tid) returns (s': State)
    requires Reachable(s) && Free(s) && s.Pc(t) == Pub(PubLock) && s.ChOpen(s.tr.pubCh)
    ensures Reachable(s') && OnlyMoved(s, t, s') && s'.Pc(t) == Pub(PubUnlock(s.tr.pubCh))
    ensures s'.mu == s.mu.(pub := Some(t))
  {
    var s1 := Take(s, Act(t, Go));
    s' := Take(s1, Act(t, Go));
  }

  /** On a live connection a new channel is opened there, cached and returned; a failed open is an error. */
  lemma PublishOpens(s: State, t: Tid, fails: bool) returns (s': State)
    requires Reachable(s) && Free(s) && s.Pc(t) == Pub(PubLock) && !s.ChOpen(s.tr.pubCh) && s.Live(s.tr.conn)
    ensures Reachable(s') && s'.mu == s.mu.(pub := Some(t)) && s'.hist == s.hist
    ensures fails ==> s'.Pc(t) == Pub(PubUnlock(None)) && s'.tr == s.tr && s'.net == s.net
    ensures !fails ==> var ch := Chan(s.tr.conn.value, s.net.nextCh);
                       && s'.Pc(t) == Pub(PubUnlock(Some(ch))) && s'.tr == s.tr.(pubCh := Some(ch))
                       && s'.net == s.net.(open := s.net.open + {ch}, nextCh := s.net.nextCh + 1)
  {
    var s1 := Take(s, Act(t, Go));
    var s2 := Take(s1, Act(t, Go));
    var s3 := PublisherSees(s2, t);
    s' := Take(s3, Act(t, if fails then Fail else Go));
    if !fails {
      s' := Take(s', Act(t, Go));
    }
  }

  lemma PublisherSees(s: State, t: Tid) returns (s': State)
    requires Reachable(s) && s.Pc(t) == Use(Publisher, UseRLock) && s.Live(s.tr.conn)
    requires s.mu.connW == None && s.mu.connR == {}
    ensures Reachable(s') && Untouched(s, t, s') && s'.Pc(t) == Pub(PubOpen(s.tr.conn))
  {
    var s1 := Take(s, Act(t, Go));
    var s2 := Take(s1, Act(t, Go));
    var s3 := Take(s2, Act(t, Go));
    s' := Take(s3, Act(t, Go));
    assert s'.mu.connR == s.mu.connR;
  }

  /** On a closed transport whose connection is gone it is an error, and nothing changes. */
  lemma PublishClosed(s: State, t: Tid) returns (s': State)
    requires Reachable(s) && Free(s) && s.Pc(t) == Pub(PubLock) && !s.ChOpen(s.tr.pubCh)
    requires s.tr.closed && !s.Live(s.tr.conn)
    ensures Reachable(s') && OnlyMoved(s, t, s') && s'.Pc(t) == Pub(PubUnlock(None))
  {
    var s1 := Take(s, Act(t, Go));
    var s2 := Take(s1, Act(t, Go));
    var s3 := Take(s2, Act(t, Go));
    var s4 := Take(s3, Act(t, Go));
    var s5 := Take(s4, Act(t, Go));
    var s6 := Take(s5, Act(t, Go));
    s' := Take(s6, Act(t, Go));
  }

  // ----------------------------------------------------------------- SetDialFunc

  /** The dial function is set and the watchdog runs; one that ran already is left alone. */
  lemma SetDialSets(s: State, t: Tid) returns (s': State)
    requires Reachable(s) && Free(s) && s.Pc(t) == Sd(SdLock)
    ensures Reachable(s') && s'.mu == s.mu && s'.net == s.net && s'.hist == s.hist
    ensures s'.tr == s.tr.(dialFn := true, dogStarted := true) && s'.Pc(t) == Idle
    ensures s'.Pc(Dog) == if s.tr.dogStarted then s.Pc(Dog) else Wd(DogTop)
  {
    ReachableInv(s);
    assert ThreadInv(s, t);
    var s1 := Take(s, Act(t, Go));
    var s2 := Take(s1, Act(t, Go));
    var s3 := Take(s2, Act(t, Go));
    s' := s3;
    if !s.tr.dogStarted {
      s' := Take(s3, Act(t, Go));
    }
  }

  // ---------------------------------------------------------------- watchdogLoop

  /** A watchdog of an open transport parks on the live connection it finds. */
  lemma WatchdogParks(s: State) returns (s': State)
    requires Reachable(s) && s.Pc(Dog) == Wd(DogTop) && s.mu.connW == None && Dog !in s.mu.connR
    requires !s.tr.closed && s.Live(s.tr.conn)
    ensures Reachable(s') && Untouched(s, Dog, s') && s'.Pc(Dog) == Wd(DogPark(s.tr.conn.value))
  {
    ReachableInv(s);
    var s1 := Take(s, Act(Dog, Go));
    var s2 := Take(s1, Act(Dog, Go));
    var s3 := Take(s2, Act(Dog, Go));
    s' := Take(s3, Act(Dog, Go));
    assert s'.mu.connR == s.mu.connR;
  }

  /** A failed dial sends it to its backoff and back to the top. */
  lemma WatchdogBacksOff(s: State) returns (s': State)
    requires Reachable(s) && s.Pc(Dog) == Wd(DogTop) && Free(s)
    requires !s.tr.closed && s.tr.dialFn && !s.Live(s.tr.conn)
    ensures Reachable(s') && Untouched(s, Dog, s') && s'.Pc(Dog) == Wd(DogBackoff)
    ensures Step(s', Act(Dog, Go)) == Some(s'.Goto(Dog, Wd(DogTop)))
  {
    var s1 := DogFindsDead(s);
    var s2 := ReconnectReachesDial(s1, Dog);
    var s3 := Take(s2, Act(Dog, Go));
    var s4 := Take(s3, Act(Dog, Fail));
    s' := Take(s4, Act(Dog, Go));
  }

  /** On a closed transport it ends, from the top of its loop, asleep or backing off. */
  lemma WatchdogEnds(s: State)
    requires s.tr.closed && s.Pc(Dog).Wd? && (s.Pc(Dog).wd.DogTop? || s.Pc(Dog).wd.DogPark? || s.Pc(Dog).wd.DogBackoff?)
    ensures Step(s, Act(Dog, Go)) == Some(s.Goto(Dog, Wd(DogDone)))
    ensures forall e: Event :: e.Act? && e.t == Dog && s.Pc(Dog).wd.DogTop? && Step(s, e).Some? ==>
              Step(s, e).value.Pc(Dog) == Wd(DogDone)
  {
  }
}
