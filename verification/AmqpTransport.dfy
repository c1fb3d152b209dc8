/**
 The AMQP transport of `rpc/amqp/amqp.go` as a step system over its shared fields
 and mutexes.

 Any number of worker goroutines run `connectionForUse`, `publishChannel`, `Close`
 and `SetDialFunc`; one more goroutine, `Dog`, runs `watchdogLoop`. A program counter
 names the next shared access of each goroutine, so every interleaving of those
 accesses is a run. Between any two steps the broker may drop a connection or a
 channel. Mutexes are not reentrant, as Go's are not.
 */
module AmqpTransport {
  import opened Basics

  type ConnId = nat

  /** A channel remembers the connection it was opened on. */
  datatype Chan = Chan(on: ConnId, id: nat)

  datatype Tid = Dog | Worker(id: nat)

  /** On whose behalf `connectionForUse` or `reconnect` runs. */
  datatype Role = Client | Publisher | Watchdog

  /** What `connectionForUse` and `reconnect` return; `Got(None)` is a nil connection. */
  datatype Outcome = Got(conn: Option<ConnId>) | ErrClosed | ErrDial

  /** Where a goroutine stands: the call it is in, and the shared access it makes next. */
  datatype Pc =
    | Idle
    | Use(role: Role, use: UseAt)
    | Rc(role: Role, rc: RcAt)
    | Sw(role: Role, sw: SwapAt)
    | Pub(pub: PubAt)
    | Cl(cl: CloseAt)
    | Sd(sd: SetDialAt)
    | Wd(wd: DogAt)

  /** connectionForUse */
  datatype UseAt =
    | UseRLock
    | UseRead
    | UseCheck(seen: Option<ConnId>, hasDial: bool)
    | UseClosed(seen: Option<ConnId>, hasDial: bool)
    | UseReturn(out: Outcome)

  /** reconnect, up to the end of the dial */
  datatype RcAt = DialLock | ConnRLock | ConnRead | CheckClosed | DialStart | Dialing

  /** reconnect, from the swap on */
  datatype SwapAt =
    | ConnLock(dialed: ConnId)
    | ConnSwap(dialed: ConnId)
    | PubMuLock(dialed: ConnId)
    | PubReset(dialed: ConnId)
    | DialUnlock(out: Outcome)

  /** publishChannel; `got` is the channel it returns, None an error */
  datatype PubAt =
    | PubLock
    | PubCheck
    | PubOpen(seen: Option<ConnId>)
    | PubStore(ch: Chan)
    | PubUnlock(got: Option<Chan>)

  /** Close */
  datatype CloseAt = ClSet | ClPubLock | ClPub | ClConnLock | ClConn | ClKill(seen: Option<ConnId>)

  /** SetDialFunc */
  datatype SetDialAt = SdLock | SdWrite | SdStart

  /** watchdogLoop */
  datatype DogAt =
    | DogOff
    | DogTop
    | DogRLock
    | DogRead
    | DogCheck(seen: Option<ConnId>, hasDial: bool)
    | DogPark(on: ConnId)
    | DogBackoff
    | DogDone

  /** The fields of `Transport`. */
  datatype Fields = Fields(conn: Option<ConnId>, dialFn: bool, pubCh: Option<Chan>, closed: bool, dogStarted: bool)

  /** Who holds each mutex; `connMu` is a reader/writer lock. */
  datatype Mutexes = Mutexes(dial: Option<Tid>, pub: Option<Tid>, connW: Option<Tid>, connR: set<Tid>)

  /** The broker's side: which connections and channels are up, and the next fresh names. */
  datatype Broker = Broker(live: set<ConnId>, nextConn: nat, open: set<Chan>, nextCh: nat)

  /**
   What happened so far: every connection that was ever the current one, the successful
   dials of `reconnect`, the dials it started after `closed` was set, and who set `closed`.
   */
  datatype History = History(installed: set<ConnId>, redials: nat, lateDials: nat, closer: Option<Tid>)

  datatype State = State(pcs: map<Tid, Pc>, tr: Fields, mu: Mutexes, net: Broker, hist: History) {
    function Pc(t: Tid): Pc {
      if t in pcs then pcs[t] else if t.Dog? then Wd(DogOff) else Idle
    }

    function Goto(t: Tid, pc: Pc): State {
      this.(pcs := pcs[t := pc])
    }

    predicate Live(c: Option<ConnId>) {
      c.Some? && c.value in net.live
    }

    predicate ChOpen(ch: Option<Chan>) {
      ch.Some? && ch.value in net.open && ch.value.on in net.live
    }
  }

  /** The environment's choice at a step: the call to make, a dial or open that fails, the case a select takes. */
  datatype Choice = Go | Fail | CallUse | CallPublish | CallClose | CallSetDial

  datatype Event = Act(t: Tid, choice: Choice) | DropConn(c: ConnId) | DropChan(ch: Chan)

  /** `New(conn)` (no dial function) and `NewWithDial` (dial function set, watchdog spawned). */
  ghost predicate Init(s: State) {
    && s.tr.conn == Some(0) && s.net.live <= {0} && s.net.nextConn == 1 && s.hist.installed == {0}
    && s.tr.pubCh == None && !s.tr.closed && s.net.open == {} && s.net.nextCh == 0
    && s.mu.dial == None && s.mu.pub == None && s.mu.connW == None && s.mu.connR == {}
    && s.hist.redials == 0 && s.hist.lateDials == 0 && s.hist.closer == None
    && s.tr.dogStarted == s.tr.dialFn
    && s.pcs == if s.tr.dialFn then map[Dog := Wd(DogTop)] else map[]
  }

  // ------------------------------------------------------------------ steps

  /** Closing a connection or channel that may be nil. */
  function Without<T>(up: set<T>, x: Option<T>): set<T> {
    if x.Some? then up - {x.value} else up
  }

  /** One step of `connectionForUse`, and its return to the caller. */
  function UseStep(s: State, t: Tid, r: Role, at: UseAt): Option<State> {
    match at
    case UseRLock =>
      if s.mu.connW.Some? then None else Some(s.Goto(t, Use(r, UseRead)).(mu := s.mu.(connR := s.mu.connR + {t})))
    case UseRead =>
      Some(s.Goto(t, Use(r, UseCheck(s.tr.conn, s.tr.dialFn))).(mu := s.mu.(connR := s.mu.connR - {t})))
    case UseCheck(c, d) =>
      Some(s.Goto(t, Use(r, if s.Live(c) then UseReturn(Got(c)) else UseClosed(c, d))))
    case UseClosed(c, d) =>
      Some(s.Goto(t,
        if s.tr.closed then Use(r, UseReturn(ErrClosed))
        else if !d then Use(r, UseReturn(Got(c)))
        else Rc(r, DialLock)))
    case UseReturn(out) =>
      Some(s.Goto(t, if !r.Publisher? then Idle else if out.Got? then Pub(PubOpen(out.conn)) else Pub(PubUnlock(None))))
  }

  /** One step of `reconnect` up to the end of the dial. */
  function ReconnectStep(s: State, t: Tid, r: Role, at: RcAt, choice: Choice): Option<State> {
    match at
    case DialLock =>
      if s.mu.dial.Some? then None else Some(s.Goto(t, Rc(r, ConnRLock)).(mu := s.mu.(dial := Some(t))))
    case ConnRLock =>
      if s.mu.connW.Some? then None
      else Some(s.Goto(t, Rc(r, ConnRead)).(mu := s.mu.(connR := s.mu.connR + {t})))
    case ConnRead =>
      var s' := s.(mu := s.mu.(connR := s.mu.connR - {t}));
      Some(s'.Goto(t, if s.Live(s.tr.conn) then Sw(r, DialUnlock(Got(s.tr.conn))) else Rc(r, CheckClosed)))
    case CheckClosed =>
      Some(s.Goto(t, if s.tr.closed then Sw(r, DialUnlock(ErrClosed)) else Rc(r, DialStart)))
    case DialStart =>
      Some(s.Goto(t, Rc(r, Dialing)).(
        hist := if s.tr.closed then s.hist.(lateDials := s.hist.lateDials + 1) else s.hist))
    case Dialing =>
      if choice == Fail then Some(s.Goto(t, Sw(r, DialUnlock(ErrDial))))
      else Some(s.Goto(t, Sw(r, ConnLock(s.net.nextConn))).(
        net := s.net.(live := s.net.live + {s.net.nextConn}, nextConn := s.net.nextConn + 1),
        hist := s.hist.(redials := s.hist.redials + 1)))
  }

  /** One step of `reconnect` from the swap on, and its return to the caller. */
  function SwapStep(s: State, t: Tid, r: Role, at: SwapAt): Option<State> {
    match at
    case ConnLock(c) =>
      if s.mu.connW.Some? || s.mu.connR != {} then None
      else Some(s.Goto(t, Sw(r, ConnSwap(c))).(mu := s.mu.(connW := Some(t))))
    case ConnSwap(c) =>
      Some(s.Goto(t, Sw(r, PubMuLock(c))).(
        net := s.net.(live := Without(s.net.live, s.tr.conn)),
        tr := s.tr.(conn := Some(c)),
        mu := s.mu.(connW := None),
        hist := s.hist.(installed := s.hist.installed + {c})))
    case PubMuLock(c) =>
      if s.mu.pub.Some? then None else Some(s.Goto(t, Sw(r, PubReset(c))).(mu := s.mu.(pub := Some(t))))
    case PubReset(c) =>
      Some(s.Goto(t, Sw(r, DialUnlock(Got(Some(c))))).(
        net := s.net.(open := Without(s.net.open, s.tr.pubCh)),
        tr := s.tr.(pubCh := None),
        mu := s.mu.(pub := None)))
    case DialUnlock(out) =>
      var s' := s.(mu := s.mu.(dial := None));
      Some(s'.Goto(t,
        if !r.Watchdog? then Use(r, UseReturn(out)) else Wd(if out.Got? then DogTop else DogBackoff)))
  }

  /** One step of `publishChannel` outside its call of `connectionForUse`. */
  function PublishStep(s: State, t: Tid, at: PubAt, choice: Choice): Option<State> {
    match at
    case PubLock =>
      if s.mu.pub.Some? then None else Some(s.Goto(t, Pub(PubCheck)).(mu := s.mu.(pub := Some(t))))
    case PubCheck =>
      Some(s.Goto(t, if s.ChOpen(s.tr.pubCh) then Pub(PubUnlock(s.tr.pubCh)) else Use(Publisher, UseRLock)))
    case PubOpen(c) =>
      if !s.Live(c) || choice == Fail then Some(s.Goto(t, Pub(PubUnlock(None))))
      else
        var ch := Chan(c.value, s.net.nextCh);
        Some(s.Goto(t, Pub(PubStore(ch))).(net := s.net.(open := s.net.open + {ch}, nextCh := s.net.nextCh + 1)))
    case PubStore(ch) =>
      Some(s.Goto(t, Pub(PubUnlock(Some(ch)))).(tr := s.tr.(pubCh := Some(ch))))
    case PubUnlock(_) =>
      Some(s.Goto(t, Idle).(mu := s.mu.(pub := None)))
  }

  /** One step of `Close`; the test-and-set of `closed` under `closeMu` is one step. */
  function CloseStep(s: State, t: Tid, at: CloseAt): Option<State> {
    match at
    case ClSet =>
      if s.tr.closed then Some(s.Goto(t, Idle))
      else Some(s.Goto(t, Cl(ClPubLock)).(tr := s.tr.(closed := true), hist := s.hist.(closer := Some(t))))
    case ClPubLock =>
      if s.mu.pub.Some? then None else Some(s.Goto(t, Cl(ClPub)).(mu := s.mu.(pub := Some(t))))
    case ClPub =>
      Some(s.Goto(t, Cl(ClConnLock)).(
        net := s.net.(open := Without(s.net.open, s.tr.pubCh)),
        tr := s.tr.(pubCh := None),
        mu := s.mu.(pub := None)))
    case ClConnLock =>
      if s.mu.connW.Some? || s.mu.connR != {} then None
      else Some(s.Goto(t, Cl(ClConn)).(mu := s.mu.(connW := Some(t))))
    case ClConn =>
      Some(s.Goto(t, Cl(ClKill(s.tr.conn))).(tr := s.tr.(conn := None), mu := s.mu.(connW := None)))
    case ClKill(c) =>
      Some(s.Goto(t, Idle).(net := s.net.(live := Without(s.net.live, c))))
  }

  /** One step of `SetDialFunc`; `watchdogOnce` spawns the watchdog if nobody did, then the call returns. */
  function SetDialStep(s: State, t: Tid, at: SetDialAt): Option<State> {
    match at
    case SdLock =>
      if s.mu.connW.Some? || s.mu.connR != {} then None
      else Some(s.Goto(t, Sd(SdWrite)).(mu := s.mu.(connW := Some(t))))
    case SdWrite =>
      Some(s.Goto(t, Sd(SdStart)).(tr := s.tr.(dialFn := true), mu := s.mu.(connW := None)))
    case SdStart =>
      if s.tr.dogStarted then Some(s.Goto(t, Idle))
      else Some(s.Goto(Dog, Wd(DogTop)).(tr := s.tr.(dogStarted := true)))
  }

  /**
   One step of `watchdogLoop`; a parked watchdog wakes when its connection is dead or `closed` is
   set. A select with both cases ready takes either, `Fail` standing for the one that is not `closed`.
   */
  function DogStep(s: State, t: Tid, at: DogAt, choice: Choice): Option<State> {
    match at
    case DogTop =>
      Some(s.Goto(t, Wd(if s.tr.closed then DogDone else DogRLock)))
    case DogRLock =>
      if s.mu.connW.Some? then None else Some(s.Goto(t, Wd(DogRead)).(mu := s.mu.(connR := s.mu.connR + {t})))
    case DogRead =>
      Some(s.Goto(t, Wd(DogCheck(s.tr.conn, s.tr.dialFn))).(mu := s.mu.(connR := s.mu.connR - {t})))
    case DogCheck(c, d) =>
      Some(s.Goto(t, if !d then Wd(DogDone) else if s.Live(c) then Wd(DogPark(c.value)) else Rc(Watchdog, DialLock)))
    case DogPark(c) =>
      if s.tr.closed && choice != Fail then Some(s.Goto(t, Wd(DogDone)))
      else if c !in s.net.live then Some(s.Goto(t, Wd(DogTop)))
      else None
    case DogBackoff =>
      Some(s.Goto(t, Wd(if s.tr.closed && choice != Fail then DogDone else DogTop)))
    case DogOff => None
    case DogDone => None
  }

  /** An idle worker makes a call. */
  function CallStep(s: State, t: Tid, choice: Choice): Option<State> {
    if t.Dog? then None else
      match choice
      case CallUse => Some(s.Goto(t, Use(Client, UseRLock)))
      case CallPublish => Some(s.Goto(t, Pub(PubLock)))
      case CallClose => Some(s.Goto(t, Cl(ClSet)))
      case CallSetDial => Some(s.Goto(t, Sd(SdLock)))
      case _ => None
  }

  function ActStep(s: State, t: Tid, choice: Choice): Option<State> {
    match s.Pc(t)
    case Idle => CallStep(s, t, choice)
    case Use(r, at) => UseStep(s, t, r, at)
    case Rc(r, at) => ReconnectStep(s, t, r, at, choice)
    case Sw(r, at) => SwapStep(s, t, r, at)
    case Pub(at) => PublishStep(s, t, at, choice)
    case Cl(at) => CloseStep(s, t, at)
    case Sd(at) => SetDialStep(s, t, at)
    case Wd(at) => DogStep(s, t, at, choice)
  }

  /** The state after event `e`, or None when `e` is not enabled. */
  function Step(s: State, e: Event): Option<State> {
    match e
    case Act(t, choice) => ActStep(s, t, choice)
    case DropConn(c) => if c in s.net.live then Some(s.(net := s.net.(live := s.net.live - {c}))) else None
    case DropChan(ch) => if ch in s.net.open then Some(s.(net := s.net.(open := s.net.open - {ch}))) else None
  }

  ghost predicate Next(s: State, s': State) {
    exists e :: Step(s, e) == Some(s')
  }

  ghost predicate NextAt(p: seq<State>, i: nat)
    requires i + 1 < |p|
  {
    Next(p[i], p[i + 1])
  }

  ghost predicate IsPath(p: seq<State>) {
    |p| > 0 && forall i: nat :: i + 1 < |p| ==> NextAt(p, i)
  }

  /** Some run from an initial state ends in `s`. */
  ghost predicate Reachable(s: State) {
    exists p: seq<State> :: IsPath(p) && Init(p[0]) && p[|p| - 1] == s
  }

  // ------------------------------------------------------- what a pc means

  predicate InReconnect(pc: Pc) {
    pc.Rc? || pc.Sw?
  }

  predicate HoldsDial(pc: Pc) {
    pc.Sw? || (pc.Rc? && !pc.rc.DialLock?)
  }

  predicate HoldsPub(pc: Pc) {
    match pc
    case Idle => false
    case Use(r, _) => r.Publisher?
    case Rc(r, _) => r.Publisher?
    case Sw(r, at) => r.Publisher? || at.PubReset?
    case Pub(at) => !at.PubLock?
    case Cl(at) => at.ClPub?
    case Sd(_) => false
    case Wd(_) => false
  }

  predicate HoldsR(pc: Pc) {
    (pc.Use? && pc.use.UseRead?) || (pc.Rc? && pc.rc.ConnRead?) || (pc.Wd? && pc.wd.DogRead?)
  }

  predicate HoldsW(pc: Pc) {
    (pc.Sw? && pc.sw.ConnSwap?) || (pc.Cl? && pc.cl.ClConn?) || (pc.Sd? && pc.sd.SdWrite?)
  }

  /** Past the `closed` check of `reconnect` and not yet past its swap. */
  predicate PastCheck(pc: Pc) {
    (pc.Rc? && (pc.rc.DialStart? || pc.rc.Dialing?)) || (pc.Sw? && (pc.sw.ConnLock? || pc.sw.ConnSwap?))
  }

  /** Between the swap of `reconnect` and its reset of the publish channel. */
  predicate InResetWindow(pc: Pc) {
    pc.Sw? && (pc.sw.PubMuLock? || pc.sw.PubReset?)
  }

  /** The watchdog goroutine runs the watchdog loop and no other goroutine does. */
  predicate FitsThread(t: Tid, pc: Pc) {
    if t.Dog? then pc.Wd? || (InReconnect(pc) && pc.role.Watchdog?)
    else !pc.Wd? && (pc.Use? || InReconnect(pc) ==> !pc.role.Watchdog?)
  }
}
