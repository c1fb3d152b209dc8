/**
 What every step of the AMQP transport keeps, and hence what holds in every
 reachable state: which goroutine holds which mutex, which connections can still be
 alive, and how the history counters relate to them.

 The invariant is a fact about the shared fields (`Global`) plus one about each
 goroutine (`ThreadInv`). A step is checked against the goroutine that makes it;
 `Frame` says how little a step changes for all the others.
 */
module AmqpInvariants {
  import opened Basics
  import opened AmqpTransport

  /** A publisher past its second lock of `pubMu`, which it already holds: no goroutine gets there. */
  predicate PublisherResets(pc: Pc) {
    pc.Sw? && pc.role.Publisher? && pc.sw.PubReset?
  }

  /** The mutexes agree with the program counter of `t`. */
  ghost predicate LocksAgree(s: State, t: Tid) {
    && (s.mu.dial == Some(t) <==> HoldsDial(s.Pc(t)))
    && (s.mu.pub == Some(t) <==> HoldsPub(s.Pc(t)))
    && (s.mu.connW == Some(t) <==> HoldsW(s.Pc(t)))
    && (t in s.mu.connR <==> HoldsR(s.Pc(t)))
    && FitsThread(t, s.Pc(t))
    && !PublisherResets(s.Pc(t))
  }

  ghost predicate Was(s: State, c: Option<ConnId>) {
    c.Some? ==> c.value in s.hist.installed
  }

  ghost predicate WasGot(s: State, out: Outcome) {
    out.Got? ==> Was(s, out.conn)
  }

  /** Connections a goroutine remembers were installed, except the one it just dialed. */
  ghost predicate Remembers(s: State, pc: Pc) {
    match pc
    case Use(_, UseCheck(c, _)) => Was(s, c) && (c == None ==> s.tr.closed)
    case Use(_, UseClosed(c, _)) => Was(s, c) && (c == None ==> s.tr.closed)
    case Use(_, UseReturn(out)) => WasGot(s, out)
    case Sw(_, ConnLock(c)) => c !in s.hist.installed && c < s.net.nextConn
    case Sw(_, ConnSwap(c)) => c !in s.hist.installed && c < s.net.nextConn
    case Sw(_, PubMuLock(c)) => c in s.hist.installed
    case Sw(_, PubReset(c)) => c in s.hist.installed
    case Sw(_, DialUnlock(out)) => WasGot(s, out)
    case Pub(PubOpen(c)) => Was(s, c)
    case Cl(ClKill(c)) => Was(s, c)
    case Wd(DogCheck(c, d)) => d && Was(s, c)
    case Wd(DogPark(c)) => c in s.hist.installed
    case Wd(DogDone) => s.tr.closed
    case Sd(SdStart) => s.tr.dialFn
    case _ => true
  }

  ghost predicate NoneAlive(s: State) {
    s.hist.installed !! s.net.live
  }

  /** Where the holder of `dialMu` stands. */
  ghost function Dialer(s: State): Pc {
    if s.mu.dial.Some? then s.Pc(s.mu.dial.value) else Idle
  }

  /** A successful dial waits to be installed. */
  predicate HasDialed(pc: Pc) {
    pc.Sw? && (pc.sw.ConnLock? || pc.sw.ConnSwap?)
  }

  predicate AboutToDial(pc: Pc) {
    pc.Rc? && pc.rc.DialStart?
  }

  /** Some `reconnect` is between its swap and its reset of the publish channel. */
  ghost predicate Resetting(s: State) {
    InResetWindow(Dialer(s))
  }

  /** The goroutine has read a dial function. */
  predicate SawDial(pc: Pc) {
    InReconnect(pc) || (pc.Use? && (pc.use.UseCheck? || pc.use.UseClosed?) && pc.use.hasDial)
  }

  ghost predicate ThreadInv(s: State, t: Tid) {
    && LocksAgree(s, t)
    && Remembers(s, s.Pc(t))
    && (SawDial(s.Pc(t)) ==> s.tr.dialFn)
    && (s.Pc(t).Cl? && !s.Pc(t).cl.ClSet? ==> s.hist.closer == Some(t))
    && (PastCheck(s.Pc(t)) ==> NoneAlive(s))
    && (s.Pc(t).Rc? && s.Pc(t).rc.CheckClosed? && !s.tr.closed ==> NoneAlive(s))
    && (s.Pc(t).Pub? && s.Pc(t).pub.PubStore? && !s.tr.closed && !Resetting(s) ==>
          s.tr.conn == Some(s.Pc(t).pub.ch.on))
  }

  /** The connection `Close` took out of the transport and has yet to shut. */
  ghost function Grabbed(s: State): Option<ConnId> {
    if s.hist.closer.None? then None else
      match s.Pc(s.hist.closer.value)
      case Cl(ClKill(c)) => c
      case _ => None
  }

  /** At most one installed connection is alive: the current one, or the one `Close` is shutting. */
  ghost predicate OneAlive(s: State) {
    && Was(s, s.tr.conn) && Was(s, Grabbed(s))
    && (s.tr.closed <==> s.hist.closer.Some?)
    && (!s.tr.closed ==> s.tr.conn.Some?)
    && (forall c :: c in s.hist.installed && c in s.net.live ==> s.tr.conn == Some(c) || Grabbed(s) == Some(c))
    && (s.Live(Grabbed(s)) ==> s.tr.conn == None)
  }

  ghost predicate Counts(s: State) {
    && |s.hist.installed| + (if HasDialed(Dialer(s)) then 1 else 0) == s.hist.redials + 1
    && (!s.tr.closed ==> s.hist.lateDials == 0)
    && s.hist.lateDials + (if s.tr.closed && AboutToDial(Dialer(s)) then 1 else 0) <= 1
  }

  ghost predicate Global(s: State) {
    && (s.mu.connW.Some? ==> s.mu.connR == {})
    && (s.tr.dogStarted <==> s.Pc(Dog) != Wd(DogOff))
    && (s.tr.dogStarted ==> s.tr.dialFn)
    && (forall c :: c in s.hist.installed || c in s.net.live ==> c < s.net.nextConn)
    && OneAlive(s)
    && Counts(s)
    && (s.tr.pubCh.Some? && !s.tr.closed && !Resetting(s) ==> s.tr.conn == Some(s.tr.pubCh.value.on))
  }

  ghost predicate Inv(s: State) {
    Global(s) && forall t :: ThreadInv(s, t)
  }

  // ------------------------------------------------- what a step leaves alone

  ghost predicate SameHolder(before: Option<Tid>, t: Tid, after: Option<Tid>) {
    after == before || (before == None && after == Some(t)) || (before == Some(t) && after == None)
  }

  /** Only `t` moved, and every mutex is as before or was taken or given up by `t`. */
  ghost predicate Local(s: State, t: Tid, s': State) {
    && (forall u :: u != t ==> s'.Pc(u) == s.Pc(u))
    && SameHolder(s.mu.dial, t, s'.mu.dial)
    && SameHolder(s.mu.pub, t, s'.mu.pub)
    && SameHolder(s.mu.connW, t, s'.mu.connW)
    && (forall u :: u != t ==> (u in s'.mu.connR <==> u in s.mu.connR))
  }

  /** What a step of `t` may do to the shared fields, as far as other goroutines care. */
  ghost predicate Frame(s: State, t: Tid, s': State) {
    && s.hist.installed <= s'.hist.installed
    && s.net.nextConn <= s'.net.nextConn
    && (s.tr.closed ==> s'.tr.closed)
    && (s.tr.dialFn ==> s'.tr.dialFn)
    && (s'.hist.closer == s.hist.closer || s.hist.closer == None)
    && (s'.hist.installed == s.hist.installed || HoldsDial(s.Pc(t)))
    && (HoldsDial(s.Pc(t)) || forall c :: c in s'.hist.installed && c in s'.net.live ==> c in s.net.live)
    && (s'.tr.conn == s.tr.conn || s'.tr.closed || Resetting(s'))
    && (Resetting(s) && !Resetting(s') ==> HoldsPub(s.Pc(t)))
  }

  lemma OthersKeep(s: State, t: Tid, s': State)
    requires forall u :: ThreadInv(s, u)
    requires Local(s, t, s') && Frame(s, t, s')
    ensures forall u :: u != t ==> ThreadInv(s', u)
  {
    forall u | u != t ensures ThreadInv(s', u) {
      assert ThreadInv(s, u) && ThreadInv(s, t) && s'.Pc(u) == s.Pc(u);
    }
  }

  // ---------------------------------------------------- mutexes, function by function

  ghost predicate RwExclusive(s: State) {
    s.mu.connW.Some? ==> s.mu.connR == {}
  }

  ghost predicate Moved(s: State, t: Tid, s': State) {
    LocksAgree(s', t) && Local(s, t, s') && RwExclusive(s')
  }

  lemma MoveCall(s: State, t: Tid, choice: Choice, s': State)
    requires LocksAgree(s, t) && RwExclusive(s) && s.Pc(t).Idle? && CallStep(s, t, choice) == Some(s')
    ensures Moved(s, t, s')
  {
  }

  lemma MoveUse(s: State, t: Tid, s': State)
    requires LocksAgree(s, t) && RwExclusive(s) && s.Pc(t).Use?
    requires UseStep(s, t, s.Pc(t).role, s.Pc(t).use) == Some(s')
    ensures Moved(s, t, s')
  {
  }

  lemma MoveReconnect(s: State, t: Tid, choice: Choice, s': State)
    requires LocksAgree(s, t) && RwExclusive(s) && s.Pc(t).Rc?
    requires ReconnectStep(s, t, s.Pc(t).role, s.Pc(t).rc, choice) == Some(s')
    ensures Moved(s, t, s')
  {
    if QuietRc(s.Pc(t).rc) {
      MoveRcQuiet(s, t, choice, s');
    }
  }

  lemma MoveRcQuiet(s: State, t: Tid, choice: Choice, s': State)
    requires LocksAgree(s, t) && RwExclusive(s) && s.Pc(t).Rc? && QuietRc(s.Pc(t).rc)
    requires ReconnectStep(s, t, s.Pc(t).role, s.Pc(t).rc, choice) == Some(s')
    ensures Moved(s, t, s')
  {
  }

  lemma MoveSwap(s: State, t: Tid, s': State)
    requires LocksAgree(s, t) && RwExclusive(s) && s.Pc(t).Sw? && SwapStep(s, t, s.Pc(t).role, s.Pc(t).sw) == Some(s')
    ensures Moved(s, t, s')
  {
  }

  lemma MovePublish(s: State, t: Tid, choice: Choice, s': State)
    requires LocksAgree(s, t) && RwExclusive(s) && s.Pc(t).Pub? && PublishStep(s, t, s.Pc(t).pub, choice) == Some(s')
    ensures Moved(s, t, s')
  {
  }

  lemma MoveClose(s: State, t: Tid, s': State)
    requires LocksAgree(s, t) && RwExclusive(s) && s.Pc(t).Cl? && CloseStep(s, t, s.Pc(t).cl) == Some(s')
    ensures Moved(s, t, s')
  {
  }

  lemma MoveDog(s: State, t: Tid, choice: Choice, s': State)
    requires LocksAgree(s, t) && RwExclusive(s) && s.Pc(t).Wd? && DogStep(s, t, s.Pc(t).wd, choice) == Some(s')
    ensures Moved(s, t, s')
  {
  }

  // ------------------------------------------------------------- quiet steps

  ghost predicate SameShared(s: State, s': State) {
    s'.tr == s.tr && s'.net == s.net && s'.hist == s.hist
  }

  /** `t` moved between places that the global facts do not tell apart. */
  ghost predicate Unremarkable(s: State, t: Tid, s': State) {
    && HasDialed(s'.Pc(t)) == HasDialed(s.Pc(t))
    && (AboutToDial(s'.Pc(t)) ==> AboutToDial(s.Pc(t)) || !s.tr.closed)
    && InResetWindow(s'.Pc(t)) == InResetWindow(s.Pc(t))
    && !(s.Pc(t).Cl? && s.Pc(t).cl.ClKill?) && !(s'.Pc(t).Cl? && s'.Pc(t).cl.ClKill?)
    && (s'.Pc(t) != Wd(DogOff)) == (s.Pc(t) != Wd(DogOff))
  }

  lemma QuietKeeps(s: State, t: Tid, s': State)
    requires Global(s) && LocksAgree(s, t)
    requires Moved(s, t, s') && SameShared(s, s') && Unremarkable(s, t, s')
    ensures Global(s') && Frame(s, t, s')
  {
  }

  lemma CallKeeps(s: State, t: Tid, choice: Choice, s': State)
    requires Global(s) && ThreadInv(s, t) && s.Pc(t).Idle? && CallStep(s, t, choice) == Some(s')
    ensures Global(s') && ThreadInv(s', t) && Local(s, t, s') && Frame(s, t, s')
  {
    MoveCall(s, t, choice, s');
    QuietKeeps(s, t, s');
  }

  lemma UseKeeps(s: State, t: Tid, s': State)
    requires Global(s) && ThreadInv(s, t) && s.Pc(t).Use? && UseStep(s, t, s.Pc(t).role, s.Pc(t).use) == Some(s')
    ensures Global(s') && ThreadInv(s', t) && Local(s, t, s') && Frame(s, t, s')
  {
    MoveUse(s, t, s');
    QuietKeeps(s, t, s');
  }

  lemma DogKeeps(s: State, t: Tid, choice: Choice, s': State)
    requires Global(s) && ThreadInv(s, t) && s.Pc(t).Wd? && DogStep(s, t, s.Pc(t).wd, choice) == Some(s')
    ensures Global(s') && ThreadInv(s', t) && Local(s, t, s') && Frame(s, t, s')
  {
    MoveDog(s, t, choice, s');
    QuietKeeps(s, t, s');
  }

  // ------------------------------------------- steps that change shared fields

  lemma DialStartKeeps(s: State, t: Tid, choice: Choice, s': State)
    requires Global(s) && ThreadInv(s, t) && s.Pc(t).Rc? && s.Pc(t).rc.DialStart?
    requires ReconnectStep(s, t, s.Pc(t).role, s.Pc(t).rc, choice) == Some(s')
    ensures Global(s') && ThreadInv(s', t) && Local(s, t, s') && Frame(s, t, s')
  {
    MoveReconnect(s, t, choice, s');
  }

  lemma DialingKeeps(s: State, t: Tid, choice: Choice, s': State)
    requires Global(s) && ThreadInv(s, t) && s.Pc(t).Rc? && s.Pc(t).rc.Dialing?
    requires ReconnectStep(s, t, s.Pc(t).role, s.Pc(t).rc, choice) == Some(s')
    ensures Global(s') && ThreadInv(s', t) && Local(s, t, s') && Frame(s, t, s')
  {
    MoveReconnect(s, t, choice, s');
    if choice == Fail { QuietKeeps(s, t, s'); }
  }

  predicate QuietRc(at: RcAt) {
    at.DialLock? || at.ConnRLock? || at.ConnRead? || at.CheckClosed?
  }

  lemma RcQuietKeeps(s: State, t: Tid, choice: Choice, s': State)
    requires Global(s) && ThreadInv(s, t) && s.Pc(t).Rc? && QuietRc(s.Pc(t).rc)
    requires ReconnectStep(s, t, s.Pc(t).role, s.Pc(t).rc, choice) == Some(s')
    ensures Global(s') && ThreadInv(s', t) && Local(s, t, s') && Frame(s, t, s')
  {
    MoveReconnect(s, t, choice, s');
    QuietKeeps(s, t, s');
  }

  lemma ReconnectKeeps(s: State, t: Tid, choice: Choice, s': State)
    requires Global(s) && ThreadInv(s, t) && s.Pc(t).Rc?
    requires ReconnectStep(s, t, s.Pc(t).role, s.Pc(t).rc, choice) == Some(s')
    ensures Global(s') && ThreadInv(s', t) && Local(s, t, s') && Frame(s, t, s')
  {
    if s.Pc(t).rc.DialStart? {
      DialStartKeeps(s, t, choice, s');
    } else if s.Pc(t).rc.Dialing? {
      DialingKeeps(s, t, choice, s');
    } else {
      RcQuietKeeps(s, t, choice, s');
    }
  }

  lemma ConnSwapKeeps(s: State, t: Tid, s': State)
    requires Global(s) && ThreadInv(s, t) && s.Pc(t).Sw? && s.Pc(t).sw.ConnSwap?
    requires SwapStep(s, t, s.Pc(t).role, s.Pc(t).sw) == Some(s')
    ensures Global(s') && ThreadInv(s', t) && Local(s, t, s') && Frame(s, t, s')
  {
    MoveSwap(s, t, s');
  }

  lemma PubResetKeeps(s: State, t: Tid, s': State)
    requires Global(s) && ThreadInv(s, t) && s.Pc(t).Sw? && s.Pc(t).sw.PubReset?
    requires SwapStep(s, t, s.Pc(t).role, s.Pc(t).sw) == Some(s')
    ensures Global(s') && ThreadInv(s', t) && Local(s, t, s') && Frame(s, t, s')
  {
    MoveSwap(s, t, s');
  }

  lemma SwapKeeps(s: State, t: Tid, s': State)
    requires Global(s) && ThreadInv(s, t) && s.Pc(t).Sw? && SwapStep(s, t, s.Pc(t).role, s.Pc(t).sw) == Some(s')
    ensures Global(s') && ThreadInv(s', t) && Local(s, t, s') && Frame(s, t, s')
  {
    if s.Pc(t).sw.ConnSwap? {
      ConnSwapKeeps(s, t, s');
    } else if s.Pc(t).sw.PubReset? {
      PubResetKeeps(s, t, s');
    } else {
      MoveSwap(s, t, s');
      QuietKeeps(s, t, s');
    }
  }

  lemma PubOpenKeeps(s: State, t: Tid, choice: Choice, s': State)
    requires Global(s) && ThreadInv(s, t) && s.Pc(t).Pub? && s.Pc(t).pub.PubOpen?
    requires PublishStep(s, t, s.Pc(t).pub, choice) == Some(s')
    ensures Global(s') && ThreadInv(s', t) && Local(s, t, s') && Frame(s, t, s')
  {
    MovePublish(s, t, choice, s');
  }

  lemma PubStoreKeeps(s: State, t: Tid, choice: Choice, s': State)
    requires Global(s) && ThreadInv(s, t) && s.Pc(t).Pub? && s.Pc(t).pub.PubStore?
    requires PublishStep(s, t, s.Pc(t).pub, choice) == Some(s')
    ensures Global(s') && ThreadInv(s', t) && Local(s, t, s') && Frame(s, t, s')
  {
    MovePublish(s, t, choice, s');
  }

  lemma PublishKeeps(s: State, t: Tid, choice: Choice, s': State)
    requires Global(s) && ThreadInv(s, t) && s.Pc(t).Pub? && PublishStep(s, t, s.Pc(t).pub, choice) == Some(s')
    ensures Global(s') && ThreadInv(s', t) && Local(s, t, s') && Frame(s, t, s')
  {
    if s.Pc(t).pub.PubOpen? {
      PubOpenKeeps(s, t, choice, s');
    } else if s.Pc(t).pub.PubStore? {
      PubStoreKeeps(s, t, choice, s');
    } else {
      MovePublish(s, t, choice, s');
      QuietKeeps(s, t, s');
    }
  }

  lemma ClSetKeeps(s: State, t: Tid, s': State)
    requires Global(s) && ThreadInv(s, t) && s.Pc(t).Cl? && s.Pc(t).cl.ClSet?
    requires CloseStep(s, t, s.Pc(t).cl) == Some(s')
    ensures Global(s') && ThreadInv(s', t) && Local(s, t, s') && Frame(s, t, s')
  {
    MoveClose(s, t, s');
  }

  lemma ClPubKeeps(s: State, t: Tid, s': State)
    requires Global(s) && ThreadInv(s, t) && s.Pc(t).Cl? && s.Pc(t).cl.ClPub?
    requires CloseStep(s, t, s.Pc(t).cl) == Some(s')
    ensures Global(s') && ThreadInv(s', t) && Local(s, t, s') && Frame(s, t, s')
  {
    MoveClose(s, t, s');
  }

  lemma ClConnKeeps(s: State, t: Tid, s': State)
    requires Global(s) && ThreadInv(s, t) && s.Pc(t).Cl? && s.Pc(t).cl.ClConn?
    requires CloseStep(s, t, s.Pc(t).cl) == Some(s')
    ensures Global(s') && ThreadInv(s', t) && Local(s, t, s') && Frame(s, t, s')
  {
    MoveClose(s, t, s');
  }

  lemma ClKillKeeps(s: State, t: Tid, s': State)
    requires Global(s) && ThreadInv(s, t) && s.Pc(t).Cl? && s.Pc(t).cl.ClKill?
    requires CloseStep(s, t, s.Pc(t).cl) == Some(s')
    ensures Global(s') && ThreadInv(s', t) && Local(s, t, s') && Frame(s, t, s')
  {
    MoveClose(s, t, s');
  }

  lemma CloseKeeps(s: State, t: Tid, s': State)
    requires Global(s) && ThreadInv(s, t) && s.Pc(t).Cl? && CloseStep(s, t, s.Pc(t).cl) == Some(s')
    ensures Global(s') && ThreadInv(s', t) && Local(s, t, s') && Frame(s, t, s')
  {
    match s.Pc(t).cl {
      case ClSet => ClSetKeeps(s, t, s');
      case ClPub => ClPubKeeps(s, t, s');
      case ClConn => ClConnKeeps(s, t, s');
      case ClKill(_) => ClKillKeeps(s, t, s');
      case _ =>
        MoveClose(s, t, s');
        QuietKeeps(s, t, s');
    }
  }

  lemma SetDialKeeps(s: State, t: Tid, s': State)
    requires Global(s) && ThreadInv(s, t) && s.Pc(t).Sd? && !Spawns(s, t) && SetDialStep(s, t, s.Pc(t).sd) == Some(s')
    ensures Global(s') && ThreadInv(s', t) && Local(s, t, s') && Frame(s, t, s')
  {
    assert Moved(s, t, s');
    if !s.Pc(t).sd.SdWrite? {
      QuietKeeps(s, t, s');
    }
  }

  ghost predicate Spawns(s: State, t: Tid) {
    s.Pc(t).Sd? && s.Pc(t).sd.SdStart? && !s.tr.dogStarted
  }

  /** The spawn moves the watchdog, not the goroutine that spawns it. */
  lemma SpawnKeeps(s: State, t: Tid, s': State)
    requires Global(s) && ThreadInv(s, t) && ThreadInv(s, Dog) && Spawns(s, t)
    requires SetDialStep(s, t, s.Pc(t).sd) == Some(s')
    ensures Global(s') && ThreadInv(s', Dog) && Local(s, Dog, s') && Frame(s, Dog, s')
  {
    assert Moved(s, Dog, s');
  }

  lemma DropKeeps(s: State, e: Event, s': State)
    requires Inv(s) && !e.Act? && Step(s, e) == Some(s')
    ensures Inv(s')
  {
    forall u ensures ThreadInv(s', u) {
      assert ThreadInv(s, u) && s'.Pc(u) == s.Pc(u);
    }
  }

  // ------------------------------------------------------------- every run

  /** Whose program counter a step of `t` changes. */
  ghost function Mover(s: State, t: Tid): Tid {
    if Spawns(s, t) then Dog else t
  }

  lemma ActKeeps(s: State, t: Tid, choice: Choice, s': State)
    requires Inv(s) && ActStep(s, t, choice) == Some(s')
    ensures Inv(s') && Local(s, Mover(s, t), s')
  {
    assert ThreadInv(s, t);
    if Spawns(s, t) {
      assert ThreadInv(s, Dog);
      SpawnKeeps(s, t, s');
      OthersKeep(s, Dog, s');
    } else {
      match s.Pc(t) {
        case Idle => CallKeeps(s, t, choice, s');
        case Use(_, _) => UseKeeps(s, t, s');
        case Rc(_, _) => ReconnectKeeps(s, t, choice, s');
        case Sw(_, _) => SwapKeeps(s, t, s');
        case Pub(_) => PublishKeeps(s, t, choice, s');
        case Cl(_) => CloseKeeps(s, t, s');
        case Sd(_) => SetDialKeeps(s, t, s');
        case Wd(_) => DogKeeps(s, t, choice, s');
      }
      OthersKeep(s, t, s');
    }
  }

  lemma StepKeeps(s: State, e: Event, s': State)
    requires Inv(s) && Step(s, e) == Some(s')
    ensures Inv(s')
    ensures forall u :: (e.Act? ==> u != Mover(s, e.t)) ==> s'.Pc(u) == s.Pc(u)
  {
    match e {
      case Act(t, choice) => ActKeeps(s, t, choice, s');
      case DropConn(_) => DropKeeps(s, e, s');
      case DropChan(_) => DropKeeps(s, e, s');
    }
  }

  lemma InitKeeps(s: State)
    requires Init(s)
    ensures Inv(s)
  {
  }

  /** The event between two neighbours of a path. */
  lemma EventAt(p: seq<State>, i: nat) returns (e: Event)
    requires IsPath(p) && 0 < i < |p|
    ensures Step(p[i - 1], e) == Some(p[i])
  {
    assert NextAt(p, i - 1);
    e :| Step(p[i - 1], e) == Some(p[i]);
  }

  /** The invariant holds along every path that starts where it holds. */
  lemma {:induction false} PathKeeps(p: seq<State>, i: nat)
    requires IsPath(p) && Inv(p[0]) && i < |p|
    ensures Inv(p[i])
  {
    if i > 0 {
      PathKeeps(p, i - 1);
      var e := EventAt(p, i);
      StepKeeps(p[i - 1], e, p[i]);
    }
  }

  /** Every interleaving of every number of goroutines keeps the invariant. */
  lemma ReachableInv(s: State)
    requires Reachable(s)
    ensures Inv(s)
  {
    var p: seq<State> :| IsPath(p) && Init(p[0]) && p[|p| - 1] == s;
    InitKeeps(p[0]);
    PathKeeps(p, |p| - 1);
  }

  lemma InitReachable(s: State)
    requires Init(s)
    ensures Reachable(s)
  {
    assert IsPath([s]);
  }

  /** The state after an enabled event, reachable when the state before it is. */
  lemma Take(s: State, e: Event) returns (s': State)
    requires Reachable(s) && Step(s, e).Some?
    ensures Reachable(s') && Step(s, e) == Some(s')
  {
    s' := Step(s, e).value;
    var p: seq<State> :| IsPath(p) && Init(p[0]) && p[|p| - 1] == s;
    PathGrows(p, e, s');
    assert (p + [s'])[0] == p[0];
  }

  /** Some path leads from `s` to `s'`. */
  ghost predicate Leads(s: State, s': State) {
    exists p: seq<State> :: IsPath(p) && p[0] == s && p[|p| - 1] == s'
  }

  lemma LeadsNowhere(s: State)
    ensures Leads(s, s)
  {
    assert IsPath([s]);
  }

  /** Nothing is taken back: a closed transport stays closed, and what was installed stays on record. */
  lemma RecordGrows(s: State, e: Event, s': State)
    requires Step(s, e) == Some(s')
    ensures s.tr.closed ==> s'.tr.closed
    ensures s.hist.installed <= s'.hist.installed
  {
  }

  lemma LeadsOn(s: State, s1: State, s2: State)
    requires Leads(s, s1) && Leads(s1, s2)
    ensures Leads(s, s2)
  {
    var p: seq<State> :| IsPath(p) && p[0] == s && p[|p| - 1] == s1;
    var q: seq<State> :| IsPath(q) && q[0] == s1 && q[|q| - 1] == s2;
    var r := p + q[1..];
    forall i: nat | i + 1 < |r| ensures NextAt(r, i) {
      if i + 1 < |p| {
        assert NextAt(p, i);
      } else {
        assert NextAt(q, i + 1 - |p|);
        assert r[i] == q[i + 1 - |p|];
      }
    }
    assert IsPath(r) && r[0] == s && r[|r| - 1] == s2;
  }

  /** One more event at the end of a path. */
  lemma GoOn(s: State, s1: State, e: Event) returns (s2: State)
    requires Inv(s1) && Leads(s, s1) && Step(s1, e).Some?
    ensures Step(s1, e) == Some(s2) && Inv(s2) && Leads(s, s2)
  {
    s2 := Step(s1, e).value;
    StepKeeps(s1, e, s2);
    var p: seq<State> :| IsPath(p) && p[0] == s && p[|p| - 1] == s1;
    PathGrows(p, e, s2);
    assert (p + [s2])[0] == s;
  }

  lemma PathGrows(p: seq<State>, e: Event, s': State)
    requires IsPath(p) && Step(p[|p| - 1], e) == Some(s')
    ensures IsPath(p + [s'])
  {
    var q := p + [s'];
    forall i: nat | i + 1 < |q| ensures NextAt(q, i) {
      if i + 1 < |p| {
        assert NextAt(p, i);
      }
    }
  }

  // ------------------------------------- undisturbed stretches of one goroutine

  /** As `s`, except for where `t` stands. */
  ghost predicate OnlyMoved(s: State, t: Tid, s': State) {
    (forall u :: u != t ==> s'.Pc(u) == s.Pc(u)) && s'.tr == s.tr && s'.net == s.net && s'.hist == s.hist
  }

  /** `connectionForUse` on a dead connection goes on to `reconnect`. */
  lemma UseFindsDead(s: State, t: Tid) returns (s': State)
    requires Reachable(s) && s.Pc(t).Use? && s.Pc(t).use.UseRLock? && t !in s.mu.connR
    requires s.mu.connW == None && s.tr.dialFn && !s.tr.closed && !s.Live(s.tr.conn)
    ensures Reachable(s') && OnlyMoved(s, t, s') && s'.Pc(t) == Rc(s.Pc(t).role, DialLock)
    ensures s'.mu == s.mu
  {
    var s1 := Take(s, Act(t, Go));
    var s2 := Take(s1, Act(t, Go));
    var s3 := Take(s2, Act(t, Go));
    s' := Take(s3, Act(t, Go));
    assert s'.mu.connR == s.mu.connR;
  }

  /** `reconnect` on a dead connection of an open transport gets past its checks. */
  lemma ReconnectReachesDial(s: State, t: Tid) returns (s': State)
    requires Reachable(s) && s.Pc(t).Rc? && s.Pc(t).rc.DialLock? && s.mu.dial == None && t !in s.mu.connR
    requires s.mu.connW == None && !s.tr.closed && !s.Live(s.tr.conn)
    ensures Reachable(s') && OnlyMoved(s, t, s') && s'.Pc(t) == Rc(s.Pc(t).role, DialStart)
    ensures s'.mu == s.mu.(dial := Some(t))
  {
    var s1 := Take(s, Act(t, Go));
    var s2 := Take(s1, Act(t, Go));
    var s3 := Take(s2, Act(t, Go));
    s' := Take(s3, Act(t, Go));
    assert s'.mu.connR == s.mu.connR;
  }

  /** A dial that succeeds is installed, whatever became of `closed` meanwhile. */
  lemma DialInstalls(s: State, t: Tid) returns (s': State)
    requires Reachable(s) && s.Pc(t).Rc? && s.Pc(t).rc.DialStart? && s.mu.connW == None && s.mu.connR == {}
    requires s.tr.conn != Some(s.net.nextConn)
    ensures Reachable(s') && (forall u :: u != t ==> s'.Pc(u) == s.Pc(u))
    ensures s'.Pc(t) == Sw(s.Pc(t).role, PubMuLock(s.net.nextConn)) && s'.mu == s.mu
    ensures s'.tr == s.tr.(conn := Some(s.net.nextConn)) && s'.Live(s'.tr.conn)
    ensures s'.net == s.net.(live := Without(s.net.live + {s.net.nextConn}, s.tr.conn), nextConn := s.net.nextConn + 1)
    ensures s'.hist.redials == s.hist.redials + 1 && s'.hist.installed == s.hist.installed + {s.net.nextConn}
  {
    var s1 := Take(s, Act(t, Go));
    var s2 := Take(s1, Act(t, Go));
    var s3 := Take(s2, Act(t, Go));
    s' := Take(s3, Act(t, Go));
  }
}
