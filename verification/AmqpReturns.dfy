/**
 What the calls of the AMQP transport return, on every path: `connectionForUse` (and the
 `reconnect` inside it) and `publishChannel`. A call is followed from its first shared
 access to its return, whatever the other goroutines do meanwhile.
 */
module AmqpReturns {
  import opened Basics
  import opened AmqpTransport
  import opened AmqpInvariants

  // -------------------------------------------------- what was seen on the way

  /** The connection was up at some point of the path. */
  ghost predicate LiveSeen(p: seq<State>, i: nat, c: ConnId)
    requires i < |p|
  {
    exists k: nat :: k <= i && UpAt(p, k, c)
  }

  ghost predicate UpAt(p: seq<State>, k: nat, c: ConnId) {
    k < |p| && c in p[k].net.live
  }

  /** The transport had no dial function at some point of the path. */
  ghost predicate NoDialSeen(p: seq<State>, i: nat)
    requires i < |p|
  {
    exists k: nat :: k <= i && NoDialAt(p, k)
  }

  ghost predicate NoDialAt(p: seq<State>, k: nat) {
    k < |p| && !p[k].tr.dialFn
  }

  /** The goroutine's own dial failed: it was dialing, and went on with no connection made. */
  ghost predicate DialFailed(p: seq<State>, t: Tid, i: nat)
    requires i < |p|
  {
    exists k: nat :: k < i && FailsAt(p, t, k)
  }

  ghost predicate FailsAt(p: seq<State>, t: Tid, k: nat) {
    && k + 1 < |p| && p[k].Pc(t).Rc? && p[k].Pc(t).rc.Dialing?
    && p[k + 1].Pc(t).Sw? && p[k + 1].net == p[k].net && p[k + 1].hist == p[k].hist
  }

  /** What may be returned at point `i`: never a nil connection. */
  ghost predicate Warranted(p: seq<State>, t: Tid, i: nat, out: Outcome)
    requires i < |p|
  {
    match out
    case Got(None) => false
    case Got(Some(c)) => LiveSeen(p, i, c) || NoDialSeen(p, i)
    case ErrClosed => p[i].tr.closed
    case ErrDial => DialFailed(p, t, i)
  }

  /** What is known of a call at point `i` by where it stands. */
  ghost predicate Tracked(p: seq<State>, t: Tid, i: nat)
    requires i < |p|
  {
    match p[i].Pc(t)
    case Use(_, UseCheck(_, d)) => d || NoDialSeen(p, i)
    case Use(_, UseClosed(_, d)) => d || NoDialSeen(p, i)
    case Use(_, UseReturn(out)) => Warranted(p, t, i, out)
    case Use(_, _) => true
    case Rc(_, _) => true
    case Sw(_, DialUnlock(out)) => Warranted(p, t, i, out)
    case Sw(_, at) => LiveSeen(p, i, at.dialed)
    case _ => false
  }

  predicate Returned(pc: Pc) {
    pc.Use? && pc.use.UseReturn?
  }

  // ------------------------------------------------------------------ one step

  lemma SeenLater(p: seq<State>, t: Tid, i: nat)
    requires 0 < i < |p|
    ensures forall c :: LiveSeen(p, i - 1, c) ==> LiveSeen(p, i, c)
    ensures NoDialSeen(p, i - 1) ==> NoDialSeen(p, i)
    ensures DialFailed(p, t, i - 1) ==> DialFailed(p, t, i)
  {
  }

  /** While the others move, what is known of the call stays known. */
  lemma OthersTrack(p: seq<State>, t: Tid, i: nat)
    requires 0 < i < |p| && Tracked(p, t, i - 1) && p[i].Pc(t) == p[i - 1].Pc(t)
    requires p[i - 1].tr.closed ==> p[i].tr.closed
    ensures Tracked(p, t, i)
  {
    SeenLater(p, t, i);
  }

  lemma UseTracks(p: seq<State>, t: Tid, i: nat)
    requires 0 < i < |p| && Tracked(p, t, i - 1) && ThreadInv(p[i - 1], t) && OneAlive(p[i - 1])
    requires p[i - 1].Pc(t).Use? && !Returned(p[i - 1].Pc(t))
    requires UseStep(p[i - 1], t, p[i - 1].Pc(t).role, p[i - 1].Pc(t).use) == Some(p[i])
    ensures Tracked(p, t, i)
  {
    SeenLater(p, t, i);
    var s := p[i - 1];
    assert s.tr.conn.Some? ==> (s.Live(s.tr.conn) ==> UpAt(p, i - 1, s.tr.conn.value));
    assert !s.tr.dialFn ==> NoDialAt(p, i - 1);
    if s.Pc(t).use.UseCheck? && s.Live(s.Pc(t).use.seen) {
      assert UpAt(p, i - 1, s.Pc(t).use.seen.value);
    }
  }

  lemma ReconnectTracks(p: seq<State>, t: Tid, i: nat, choice: Choice)
    requires 0 < i < |p| && p[i - 1].Pc(t).Rc?
    requires ReconnectStep(p[i - 1], t, p[i - 1].Pc(t).role, p[i - 1].Pc(t).rc, choice) == Some(p[i])
    ensures Tracked(p, t, i)
  {
    var s := p[i - 1];
    assert s.Live(s.tr.conn) ==> UpAt(p, i - 1, s.tr.conn.value);
    if s.Pc(t).rc.Dialing? {
      assert choice == Fail ==> FailsAt(p, t, i - 1);
      assert choice != Fail ==> UpAt(p, i, s.net.nextConn);
    }
  }

  lemma SwapTracks(p: seq<State>, t: Tid, i: nat)
    requires 0 < i < |p| && Tracked(p, t, i - 1) && p[i - 1].Pc(t).Sw? && !p[i - 1].Pc(t).role.Watchdog?
    requires SwapStep(p[i - 1], t, p[i - 1].Pc(t).role, p[i - 1].Pc(t).sw) == Some(p[i])
    ensures Tracked(p, t, i)
  {
    SeenLater(p, t, i);
  }

  lemma CallTracks(p: seq<State>, t: Tid, i: nat)
    requires IsPath(p) && 0 < i < |p| && Inv(p[i - 1]) && !t.Dog?
    requires Tracked(p, t, i - 1) && !Returned(p[i - 1].Pc(t))
    ensures Tracked(p, t, i)
  {
    var e := EventAt(p, i);
    var s := p[i - 1];
    assert ThreadInv(s, t);
    if e.Act? && e.t == t {
      match s.Pc(t)
      case Use(_, _) => UseTracks(p, t, i);
      case Rc(_, _) => ReconnectTracks(p, t, i, e.choice);
      case Sw(_, _) => SwapTracks(p, t, i);
    } else {
      StepKeeps(s, e, p[i]);
      RecordGrows(s, e, p[i]);
      OthersTrack(p, t, i);
    }
  }

  lemma {:induction false} CallTracked(p: seq<State>, t: Tid, i: nat)
    requires IsPath(p) && Inv(p[0]) && i < |p| && !t.Dog? && p[0].Pc(t).Use? && p[0].Pc(t).use.UseRLock?
    requires forall k: nat :: k < i ==> !Returned(p[k].Pc(t))
    ensures Tracked(p, t, i)
  {
    if i > 0 {
      CallTracked(p, t, i - 1);
      PathKeeps(p, i - 1);
      CallTracks(p, t, i);
    }
  }

  // ------------------------------------------------------------ its own install

  /** From the swap of `c` on: what the goroutine may still be doing, up to its return. */
  predicate Installs(pc: Pc, c: ConnId) {
    match pc
    case Sw(_, ConnSwap(d)) => d == c
    case Sw(_, PubMuLock(d)) => d == c
    case Sw(_, PubReset(d)) => d == c
    case Sw(_, DialUnlock(out)) => out == Got(Some(c))
    case Use(_, UseReturn(out)) => out == Got(Some(c))
    case Wd(at) => at.DogTop?
    case _ => false
  }

  predicate Over(pc: Pc) {
    Returned(pc) || pc.Wd?
  }

  lemma InstallsStep(s: State, t: Tid, e: Event, s': State, c: ConnId)
    requires Inv(s) && Installs(s.Pc(t), c) && !Over(s.Pc(t)) && Step(s, e) == Some(s')
    ensures Installs(s'.Pc(t), c)
  {
    StepKeeps(s, e, s');
    assert ThreadInv(s, t);
  }

  /**
   A goroutine that swapped in `c` returns `c` and no error; the watchdog goes back to the top of
   its loop, not to its backoff.
   */
  lemma {:induction false} InstallerReturnsIt(p: seq<State>, t: Tid, i: nat, c: ConnId)
    requires IsPath(p) && Inv(p[0]) && i < |p| && p[0].Pc(t).Sw? && p[0].Pc(t).sw == ConnSwap(c)
    requires forall k: nat :: k < i ==> !Over(p[k].Pc(t))
    ensures Installs(p[i].Pc(t), c)
  {
    if i > 0 {
      InstallerReturnsIt(p, t, i - 1, c);
      PathKeeps(p, i - 1);
      var e := EventAt(p, i);
      InstallsStep(p[i - 1], t, e, p[i], c);
    }
  }

  // ------------------------------------------------------------------- theorem

  /**
   What a call of `connectionForUse` returns, begun at point 0 and returning at point `i`:
   ErrClosed only if the transport is closed; the error of the dial only if its own dial failed,
   never after a swap of its own; a connection that was up at some point of the call, or any if
   the transport had no dial function; never a nil connection; and if it swapped in a connection
   itself, that one.
   */
  lemma ReturnMeans(p: seq<State>, t: Tid, i: nat)
    requires IsPath(p) && Reachable(p[0]) && i < |p| && !t.Dog? && p[0].Pc(t).Use? && p[0].Pc(t).use.UseRLock?
    requires (forall k: nat :: k < i ==> !Returned(p[k].Pc(t))) && Returned(p[i].Pc(t))
    ensures Warranted(p, t, i, p[i].Pc(t).use.out)
    ensures forall k: nat, c :: k < i && p[k].Pc(t).Sw? && p[k].Pc(t).sw == ConnSwap(c) ==>
              p[i].Pc(t).use.out == Got(Some(c))
  {
    ReachableInv(p[0]);
    CallTracked(p, t, i);
    forall k: nat, c | k < i && p[k].Pc(t).Sw? && p[k].Pc(t).sw == ConnSwap(c)
      ensures p[i].Pc(t).use.out == Got(Some(c))
    {
      OwnInstallReturns(p, t, k, i, c);
    }
  }

  lemma OwnInstallReturns(p: seq<State>, t: Tid, k: nat, i: nat, c: ConnId)
    requires IsPath(p) && Inv(p[0]) && k < i < |p| && !t.Dog? && p[k].Pc(t).Sw? && p[k].Pc(t).sw == ConnSwap(c)
    requires (forall j: nat :: j < i ==> !Returned(p[j].Pc(t))) && Returned(p[i].Pc(t))
    ensures p[i].Pc(t).use.out == Got(Some(c))
  {
    PathKeeps(p, k);
    var q := p[k..];
    forall j: nat | j + 1 < |q| ensures NextAt(q, j) {
      assert NextAt(p, k + j);
    }
    forall j: nat | j < i - k ensures !Over(q[j].Pc(t)) {
      PathKeeps(p, k + j);
      assert ThreadInv(p[k + j], t);
    }
    InstallerReturnsIt(q, t, i - k, c);
  }

  // ------------------------------------------------------------ publishChannel

  /** The channel was open at some point of the path. */
  ghost predicate OpenSeen(p: seq<State>, i: nat, ch: Chan)
    requires i < |p|
  {
    exists k: nat :: k <= i && OpenAt(p, k, ch)
  }

  ghost predicate OpenAt(p: seq<State>, k: nat, ch: Chan) {
    k < |p| && p[k].ChOpen(Some(ch))
  }

  predicate Published(pc: Pc) {
    pc.Pub? && pc.pub.PubUnlock?
  }

  /** What is known of a call of `publishChannel` at point `i` by where it stands. */
  ghost predicate PublishTracked(p: seq<State>, t: Tid, i: nat)
    requires i < |p|
  {
    match p[i].Pc(t)
    case Pub(PubStore(ch)) => OpenSeen(p, i, ch)
    case Pub(PubUnlock(got)) => got.Some? ==> p[i].tr.pubCh == got && OpenSeen(p, i, got.value)
    case Pub(_) => true
    case Use(r, _) => r.Publisher?
    case Rc(r, _) => r.Publisher?
    case Sw(r, _) => r.Publisher?
    case _ => false
  }

  lemma PublishMoves(p: seq<State>, t: Tid, i: nat, choice: Choice)
    requires 0 < i < |p| && PublishTracked(p, t, i - 1) && p[i - 1].Pc(t).Pub? && !Published(p[i - 1].Pc(t))
    requires PublishStep(p[i - 1], t, p[i - 1].Pc(t).pub, choice) == Some(p[i])
    ensures PublishTracked(p, t, i)
  {
    var s, s' := p[i - 1], p[i];
    if s.tr.pubCh.Some? && s.ChOpen(s.tr.pubCh) {
      assert OpenAt(p, i - 1, s.tr.pubCh.value);
    }
    if s'.Pc(t).Pub? && s'.Pc(t).pub.PubStore? {
      assert OpenAt(p, i, s'.Pc(t).pub.ch);
    }
  }

  lemma PublishTracks(p: seq<State>, t: Tid, i: nat)
    requires IsPath(p) && 0 < i < |p| && Inv(p[i - 1])
    requires PublishTracked(p, t, i - 1) && !Published(p[i - 1].Pc(t))
    ensures PublishTracked(p, t, i)
  {
    var e := EventAt(p, i);
    assert ThreadInv(p[i - 1], t);
    if e.Act? && e.t == t {
      if p[i - 1].Pc(t).Pub? {
        PublishMoves(p, t, i, e.choice);
      }
    } else {
      StepKeeps(p[i - 1], e, p[i]);
    }
  }

  /**
   A call of `publishChannel` that returns a channel returns one that was open at some point of
   the call, and that channel is then the cached one.
   */
  lemma {:induction false} PublishReturns(p: seq<State>, t: Tid, i: nat)
    requires IsPath(p) && Inv(p[0]) && i < |p| && p[0].Pc(t) == Pub(PubLock)
    requires forall k: nat :: k < i ==> !Published(p[k].Pc(t))
    ensures PublishTracked(p, t, i)
  {
    if i > 0 {
      PublishReturns(p, t, i - 1);
      PathKeeps(p, i - 1);
      PublishTracks(p, t, i);
    }
  }
}
