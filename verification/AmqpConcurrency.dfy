/**
 How many handlers of a subscription run at once, across the rebinds of
 `runWithReconnect`. The semaphore is the deliver loop's, so the configured Concurrency
 bounds each loop; whether it bounds the subscription is decided at every rebind.
 */
module AmqpConcurrency {
  import opened Basics
  import opened AmqpDelivery
  import opened AmqpDeliveryProofs

  /** The handlers in flight on any of these channels. */
  ghost function InFlightOn(cs: Consumers, chs: set<ChanId>): set<Tag> {
    set tag | tag in cs.runs && cs.runs[tag].ch in chs && Busy(cs.runs[tag].at)
  }

  /** The channels of a subscription, past and present, whose deliver loops have handlers in flight. */
  ghost function BusyLoops(cs: Consumers, sub: SubId): set<ChanId> {
    set ch | ch in cs.owner && cs.owner[ch] == sub && InFlight(cs, ch) != {}
  }

  /** The handlers of a subscription in flight. */
  ghost function InFlightOf(cs: Consumers, sub: SubId): set<Tag> {
    InFlightOn(cs, BusyLoops(cs, sub))
  }

  lemma OneMoreLoop(cs: Consumers, chs: set<ChanId>, ch: ChanId)
    requires ch in chs
    ensures |InFlightOn(cs, chs)| <= |InFlightOn(cs, chs - {ch})| + |InFlight(cs, ch)|
  {
    assert InFlightOn(cs, chs) == InFlightOn(cs, chs - {ch}) + InFlight(cs, ch);
  }

  lemma OneMoreTime(n: nat, k: nat)
    ensures n * (k + 1) == n * k + n
  {
  }

  lemma {:induction false} LoopsAdd(cs: Consumers, chs: set<ChanId>, k: nat, n: nat)
    requires |chs| == k && forall ch :: ch in chs ==> |InFlight(cs, ch)| <= n
    ensures |InFlightOn(cs, chs)| <= n * k
  {
    if k == 0 {
      assert InFlightOn(cs, chs) == {};
    } else {
      var ch :| ch in chs;
      LoopsAdd(cs, chs - {ch}, k - 1, n);
      OneMoreLoop(cs, chs, ch);
      OneMoreTime(n, k - 1);
    }
  }

  /**
   The semaphore is the deliver loop's, and a rebind starts a new loop: a subscription has at most
   Concurrency handlers in flight per loop that is still busy, hence at most Concurrency in all
   unless handlers of a channel that died are still running.
   */
  lemma SubscriptionConcurrency(p: seq<State>, i: nat, sub: SubId)
    requires IsRun(p) && i < |p| && sub in p[i].cs.subs
    ensures |InFlightOf(p[i].cs, sub)| <= p[i].cs.subs[sub].concurrency * |BusyLoops(p[i].cs, sub)|
    ensures |InFlightOf(p[i].cs, sub)| > p[i].cs.subs[sub].concurrency ==> |BusyLoops(p[i].cs, sub)| >= 2
  {
    var cs := p[i].cs;
    var loops, n := BusyLoops(cs, sub), cs.subs[sub].concurrency;
    assert Throttled(cs) by {
      RunKeeps(p, i);
    }
    LoopsAdd(cs, loops, |loops|, n);
    assert |loops| == 0 ==> n * |loops| == 0;
    assert |loops| == 1 ==> n * |loops| == n;
  }

  // --------------------------------------------------------- continuations

  function After(s: State, es: seq<Event>): Option<State>
    decreases |es|
  {
    if es == [] then Some(s) else
      match After(s, es[..|es| - 1])
      case None => None
      case Some(s') => Step(s', es[|es| - 1])
  }

  predicate Rebinds(e: Event, sub: SubId) {
    e.Rebind? && e.sub == sub
  }

  /** Some continuation without a further rebind of `sub` leads from `s` to `s'`. */
  ghost predicate Follows(s: State, s': State, sub: SubId) {
    exists es :: After(s, es) == Some(s') && forall i :: 0 <= i < |es| ==> !Rebinds(es[i], sub)
  }

  lemma FollowsItself(s: State, sub: SubId)
    ensures Follows(s, s, sub)
  {
    assert After(s, []) == Some(s);
  }

  lemma GoOn(s: State, s1: State, sub: SubId, e: Event) returns (s2: State)
    requires Inv(s1) && Follows(s, s1, sub) && Step(s1, e).Some? && !Rebinds(e, sub)
    ensures Step(s1, e) == Some(s2) && Inv(s2) && Follows(s, s2, sub)
  {
    s2 := Step(s1, e).value;
    StepKeeps(s1, e, s2);
    var es :| After(s, es) == Some(s1) && forall i :: 0 <= i < |es| ==> !Rebinds(es[i], sub);
    var more := es + [e];
    assert more[..|more| - 1] == es;
    assert After(s, more) == Some(s2);
  }

  /** More handlers than Concurrency may be in flight before the next rebind. */
  ghost predicate MayExceed(s: State, sub: SubId) {
    exists s' :: Follows(s, s', sub) && Exceeds(s', sub)
  }

  ghost predicate Exceeds(s: State, sub: SubId) {
    sub in s.cs.subs && |InFlightOf(s.cs, sub)| > s.cs.subs[sub].concurrency
  }

  // ------------------------------------------------------- nothing left behind

  predicate OwnedBy(cs: Consumers, ch: ChanId, sub: SubId) {
    ch in cs.owner && cs.owner[ch] == sub
  }

  /** The deliver loops of a subscription are over: every channel of it is dead. */
  ghost predicate LoopOver(s: State, sub: SubId) {
    sub in s.cs.subs && forall ch :: OwnedBy(s.cs, ch, sub) ==> ch !in s.mq.live
  }

  /** A delivery of the subscription that is not settled and done with. */
  ghost predicate Unfinished(s: State, sub: SubId, tag: Tag) {
    tag in s.cs.runs && OwnedBy(s.cs, s.cs.runs[tag].ch, sub) && !s.cs.runs[tag].at.Done?
  }

  /** All that goes on in a subscription goes on over one channel. */
  ghost predicate OnlyOn(s: State, sub: SubId, ch: ChanId) {
    && sub in s.cs.subs && OwnedBy(s.cs, ch, sub)
    && (forall c :: OwnedBy(s.cs, c, sub) && c != ch ==> c !in s.mq.live)
    && (forall tag :: Unfinished(s, sub, tag) ==> s.cs.runs[tag].ch == ch)
  }

  /** New deliveries come over live channels; the others keep their channel, and finished ones stay so. */
  lemma RunsStep(s: State, e: Event, s': State, tag: Tag)
    requires Step(s, e) == Some(s') && tag in s'.cs.runs
    ensures if tag in s.cs.runs
            then s'.cs.runs[tag].ch == s.cs.runs[tag].ch && (s.cs.runs[tag].at.Done? ==> s'.cs.runs[tag].at.Done?)
            else s'.cs.runs[tag].ch in s.mq.live && s'.cs.runs[tag].ch in s.cs.owner
  {
  }

  /** A subscription gets channels by its rebinds alone, and a dead channel stays dead. */
  lemma ChannelsStep(s: State, e: Event, s': State, sub: SubId, c: ChanId)
    requires Step(s, e) == Some(s') && sub in s.cs.subs && !Rebinds(e, sub)
    ensures sub in s'.cs.subs && (OwnedBy(s'.cs, c, sub) <==> OwnedBy(s.cs, c, sub))
    ensures c in s.cs.owner ==> c in s'.cs.owner && s'.cs.owner[c] == s.cs.owner[c]
    ensures c in s.cs.owner && c !in s.mq.live ==> c !in s'.mq.live
  {
  }

  lemma OnlyOnStep(s: State, e: Event, s': State, sub: SubId, ch: ChanId)
    requires RunsOk(s) && OnlyOn(s, sub, ch) && Step(s, e) == Some(s') && !Rebinds(e, sub)
    ensures OnlyOn(s', sub, ch)
  {
    forall c ensures OwnedBy(s'.cs, c, sub) <==> OwnedBy(s.cs, c, sub) {
      ChannelsStep(s, e, s', sub, c);
    }
    forall c | OwnedBy(s'.cs, c, sub) && c != ch ensures c !in s'.mq.live {
      ChannelsStep(s, e, s', sub, c);
    }
    forall tag | Unfinished(s', sub, tag) ensures s'.cs.runs[tag].ch == ch {
      RunsStep(s, e, s', tag);
      assert tag in s.cs.runs ==> Unfinished(s, sub, tag);
    }
    ChannelsStep(s, e, s', sub, ch);
  }

  lemma {:induction false} OnlyOnStays(s: State, es: seq<Event>, sub: SubId, ch: ChanId)
    requires Inv(s) && OnlyOn(s, sub, ch) && After(s, es).Some?
    requires forall i :: 0 <= i < |es| ==> !Rebinds(es[i], sub)
    ensures Inv(After(s, es).value) && OnlyOn(After(s, es).value, sub, ch)
    decreases |es|
  {
    if es != [] {
      var init := es[..|es| - 1];
      OnlyOnStays(s, init, sub, ch);
      StepKeeps(After(s, init).value, es[|es| - 1], After(s, es).value);
      OnlyOnStep(After(s, init).value, es[|es| - 1], After(s, es).value, sub, ch);
    }
  }

  lemma OnlyOnBounds(s: State, sub: SubId, ch: ChanId)
    requires Inv(s) && OnlyOn(s, sub, ch)
    ensures !Exceeds(s, sub)
  {
    var cs := s.cs;
    forall c | c in BusyLoops(cs, sub) ensures c == ch {
      var tag :| tag in InFlight(cs, c);
      assert Unfinished(s, sub, tag);
    }
    assert InFlightOf(cs, sub) <= InFlight(cs, ch);
    FewerThan(InFlightOf(cs, sub), InFlight(cs, ch));
  }

  lemma {:induction false} FewerThan<T>(a: set<T>, b: set<T>)
    requires a <= b
    ensures |a| <= |b|
  {
    assert b == a + (b - a);
  }

  // --------------------------------------------------------- a handler left behind

  lemma {:induction false} FreshNat(taken: set<nat>) returns (n: nat)
    ensures forall k :: k >= n ==> k !in taken
  {
    n := 0;
    if t :| t in taken {
      n := FreshNat(taken - {t});
      assert taken == taken - {t} + {t};
      if t >= n {
        n := t + 1;
      }
    }
  }

  /** Publish, deliver, start: one more handler of a channel is in flight, and all else is as it was. */
  ghost predicate Added(s: State, ch: ChanId, s': State) {
    && s'.cs.subs == s.cs.subs && s'.cs.owner == s.cs.owner && s'.mq.live == s.mq.live
    && ch in s.cs.sem && s'.cs.sem == s.cs.sem[ch := s.cs.sem[ch] + 1]
    && forall tag :: tag in s.cs.runs ==> tag in s'.cs.runs && s'.cs.runs[tag] == s.cs.runs[tag]
  }

  ghost predicate HasRoom(s: State, sub: SubId, ch: ChanId) {
    && sub in s.cs.subs && OwnedBy(s.cs, ch, sub) && ch in s.mq.live
    && ch in s.cs.sem && s.cs.sem[ch] < s.cs.subs[sub].concurrency
  }

  lemma ThreeSteps(s: State, sub: SubId, ch: ChanId, m: MsgId, tag: Tag) returns (sa: State, sb: State, sc: State)
    requires HasRoom(s, sub, ch) && m !in s.mq.msgs && tag !in s.cs.runs
    ensures Step(s, Publish(m, Msg(s.cs.subs[sub].queue, [], "", None))) == Some(sa)
    ensures Step(sa, Deliver(tag, m, ch)) == Some(sb) && Step(sb, Start(tag)) == Some(sc) && Added(s, ch, sc)
  {
    sa := Step(s, Publish(m, Msg(s.cs.subs[sub].queue, [], "", None))).value;
    sb := Step(sa, Deliver(tag, m, ch)).value;
    sc := Step(sb, Start(tag)).value;
  }

  lemma AddOne(s: State, s1: State, sub: SubId, ch: ChanId) returns (s2: State)
    requires Inv(s1) && Follows(s, s1, sub) && HasRoom(s1, sub, ch)
    ensures Inv(s2) && Follows(s, s2, sub) && Added(s1, ch, s2)
  {
    var m := FreshNat(s1.mq.msgs.Keys);
    var tag := FreshNat(s1.cs.runs.Keys);
    assert m !in s1.mq.msgs.Keys && tag !in s1.cs.runs.Keys;
    var sa, sb, sc := ThreeSteps(s1, sub, ch, m, tag);
    var _ := GoOn(s, s1, sub, Publish(m, Msg(s1.cs.subs[sub].queue, [], "", None)));
    var _ := GoOn(s, sa, sub, Deliver(tag, m, ch));
    s2 := GoOn(s, sb, sub, Start(tag));
  }

  /** A live channel can be filled up while a handler of another channel runs on. */
  lemma {:induction false} FillUp(s: State, s1: State, sub: SubId, ch: ChanId, tag: Tag) returns (s2: State)
    requires Inv(s1) && Follows(s, s1, sub) && sub in s1.cs.subs && OwnedBy(s1.cs, ch, sub) && ch in s1.mq.live
    requires tag in s1.cs.runs && Busy(s1.cs.runs[tag].at) && OwnedBy(s1.cs, s1.cs.runs[tag].ch, sub)
    requires s1.cs.runs[tag].ch != ch
    ensures Follows(s, s2, sub) && Exceeds(s2, sub)
    decreases s1.cs.subs[sub].concurrency - |InFlight(s1.cs, ch)|
  {
    assert Throttled(s1.cs);
    if |InFlight(s1.cs, ch)| == s1.cs.subs[sub].concurrency {
      OneTooMany(s1.cs, sub, ch, tag);
      return s1;
    }
    var s' := AddOne(s, s1, sub, ch);
    assert Throttled(s'.cs);
    s2 := FillUp(s, s', sub, ch, tag);
  }

  lemma OneTooMany(cs: Consumers, sub: SubId, ch: ChanId, tag: Tag)
    requires OwnedBy(cs, ch, sub) && tag in cs.runs && Busy(cs.runs[tag].at)
    requires OwnedBy(cs, cs.runs[tag].ch, sub) && cs.runs[tag].ch != ch
    ensures |InFlightOf(cs, sub)| > |InFlight(cs, ch)|
  {
    assert tag in InFlight(cs, cs.runs[tag].ch);
    assert InFlight(cs, ch) + {tag} <= InFlightOf(cs, sub);
    FewerThan(InFlight(cs, ch) + {tag}, InFlightOf(cs, sub));
  }

  /** An unfinished delivery of a loop means, now or after one step, a handler of that loop in flight. */
  lemma SomeHandlerRuns(s: State, s1: State, sub: SubId, tag: Tag) returns (s2: State, other: Tag)
    requires Inv(s1) && Follows(s, s1, sub) && Unfinished(s1, sub, tag)
    requires sub in s1.cs.subs && s1.cs.subs[sub].concurrency > 0
    ensures Inv(s2) && Follows(s, s2, sub) && s2.cs.subs == s1.cs.subs && s2.cs.owner == s1.cs.owner
    ensures s2.mq.live == s1.mq.live
    ensures other in s2.cs.runs && Busy(s2.cs.runs[other].at) && s2.cs.runs[other].ch == s1.cs.runs[tag].ch
  {
    var ch := s1.cs.runs[tag].ch;
    s2, other := s1, tag;
    if s1.cs.runs[tag].at.Buffered? {
      assert Throttled(s1.cs);
      if s1.cs.sem[ch] < s1.cs.subs[sub].concurrency {
        s2 := GoOn(s, s1, sub, Start(tag));
      } else {
        assert InFlight(s1.cs, ch) != {};
        other :| other in InFlight(s1.cs, ch);
      }
    }
  }

  // ------------------------------------------------------------------ theorem

  predicate Positive(cs: Consumers) {
    forall sub :: sub in cs.subs ==> cs.subs[sub].concurrency > 0
  }

  lemma PositiveStep(s: State, e: Event, s': State)
    requires Positive(s.cs) && Step(s, e) == Some(s')
    ensures Positive(s'.cs)
  {
  }

  lemma {:induction false} PositiveRun(p: seq<State>, i: nat)
    requires IsRun(p) && i < |p|
    ensures Positive(p[i].cs)
  {
    if i > 0 {
      PositiveRun(p, i - 1);
      assert NextAt(p, i - 1);
      var e :| Step(p[i - 1], e) == Some(p[i]);
      PositiveStep(p[i - 1], e, p[i]);
    }
  }

  lemma RebindKeepsUnfinished(s: State, sub: SubId, ch: ChanId, s': State)
    requires Inv(s) && LoopOver(s, sub) && RebindStep(s, sub, ch) == Some(s')
    ensures forall tag :: Unfinished(s', sub, tag) <==> Unfinished(s, sub, tag)
    ensures forall tag :: Unfinished(s, sub, tag) ==> s'.cs.runs[tag].ch != ch
    ensures (forall tag :: !Unfinished(s, sub, tag)) ==> OnlyOn(s', sub, ch)
  {
    forall tag | tag in s.cs.runs ensures s.cs.runs[tag].ch != ch {
      assert RunOk(s, s.cs.runs[tag]);
    }
  }

  /**
   After a rebind, and before the next, more than Concurrency handlers of the subscription may be
   in flight if and only if some delivery of it was unfinished when it rebound.
   */
  lemma RebindExceedsIff(p: seq<State>, i: nat, sub: SubId, ch: ChanId, s': State)
    requires IsRun(p) && i < |p| && LoopOver(p[i], sub) && RebindStep(p[i], sub, ch) == Some(s')
    ensures MayExceed(s', sub) <==> exists tag :: Unfinished(p[i], sub, tag)
  {
    var s := p[i];
    RunKeeps(p, i);
    PositiveRun(p, i);
    StepKeeps(s, Rebind(sub, ch), s');
    RebindKeepsUnfinished(s, sub, ch, s');
    if tag :| Unfinished(s, sub, tag) {
      FollowsItself(s', sub);
      var s1, other := SomeHandlerRuns(s', s', sub, tag);
      var s2 := FillUp(s', s1, sub, ch, other);
    } else {
      forall s2 | Follows(s', s2, sub) ensures !Exceeds(s2, sub) {
        var es :| After(s', es) == Some(s2) && forall i :: 0 <= i < |es| ==> !Rebinds(es[i], sub);
        OnlyOnStays(s', es, sub, ch);
        OnlyOnBounds(s2, sub, ch);
      }
    }
  }

  // ------------------------------------------------------------------ witness

  /** Some run ends in `s`. */
  ghost predicate Reachable(s: State) {
    exists p: seq<State> :: IsRun(p) && p[|p| - 1] == s
  }

  lemma Take(s: State, e: Event) returns (s': State)
    requires Reachable(s) && Step(s, e).Some?
    ensures Reachable(s') && Step(s, e) == Some(s')
  {
    s' := Step(s, e).value;
    var p: seq<State> :| IsRun(p) && p[|p| - 1] == s;
    var q := p + [s'];
    forall i: nat | i + 1 < |q| ensures NextAt(q, i) {
      if i + 1 < |p| {
        assert NextAt(p, i);
      }
    }
    assert IsRun(q);
  }

  /** A handler in flight and another message waiting, with a concurrency of one. */
  lemma OneInFlight() returns (s: State)
    ensures Reachable(s) && s.cs.subs == map[0 := Sub("q", 1, 0)] && s.cs.owner == map[0 := 0] && 0 in s.mq.live
    ensures s.cs.runs.Keys == {0} && s.cs.runs[0].ch == 0 && s.cs.runs[0].at == Handling
    ensures 1 in s.mq.ready && 1 in s.mq.msgs && s.mq.msgs[1].queue == "q"
  {
    var msg := Msg("q", [], "", None);
    var s0 := State(Broker(map[], {}, map[], {}, {}, {}), Consumers(map[], map[], map[], map[]), map[]);
    assert IsRun([s0]);
    var s1 := Take(s0, Consume(0, "q", 1, 0));
    var s2 := Take(s1, Publish(0, msg));
    var s3 := Take(s2, Publish(1, msg));
    var s4 := Take(s3, Deliver(0, 0, 0));
    s := Take(s4, Start(0));
  }

  /** It does happen: the channel dies, the loop rebinds, and two handlers run with a concurrency of one. */
  lemma ConcurrencyExceeded()
    ensures exists s, sub :: Reachable(s) && sub in s.cs.subs && s.cs.subs[sub].concurrency == 1
                             && |InFlightOf(s.cs, sub)| == 2
  {
    var s0 := OneInFlight();
    var s1 := Take(s0, Kill(0));
    var s2 := Take(s1, Rebind(0, 1));
    var s3 := Take(s2, Deliver(1, 1, 1));
    var s4 := Take(s3, Start(1));
    TwoInFlight(s4.cs);
  }

  lemma TwoInFlight(cs: Consumers)
    requires cs.runs.Keys == {0, 1} && cs.runs[0].ch == 0 && cs.runs[1].ch == 1
    requires Busy(cs.runs[0].at) && Busy(cs.runs[1].at) && cs.owner == map[0 := 0, 1 := 0]
    ensures |InFlightOf(cs, 0)| == 2
  {
    assert 0 in InFlight(cs, 0) && 1 in InFlight(cs, 1);
    assert InFlightOf(cs, 0) == {0, 1};
  }
}
