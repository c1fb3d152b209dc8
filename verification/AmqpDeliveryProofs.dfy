/**
 No message is lost and replies match requests: what every step of `AmqpDelivery`
 keeps, and the theorems over all its runs.
 */
module AmqpDeliveryProofs {
  import opened Basics
  import opened AmqpDelivery

  ghost predicate IsUnacked(mq: Broker, m: MsgId) {
    exists tag :: tag in mq.unacked && mq.unacked[tag] == m
  }

  /** Every published message is in some place, and in no two. */
  ghost predicate Conserved(mq: Broker) {
    && (forall m :: m in mq.msgs ==> m in mq.ready || m in mq.acked || m in mq.discarded || IsUnacked(mq, m))
    && mq.ready !! mq.acked !! mq.discarded
    && mq.ready <= mq.msgs.Keys && mq.acked <= mq.msgs.Keys && mq.discarded <= mq.msgs.Keys
    && (forall tag :: tag in mq.unacked ==>
          && mq.unacked[tag] in mq.msgs
          && mq.unacked[tag] !in mq.ready && mq.unacked[tag] !in mq.acked && mq.unacked[tag] !in mq.discarded)
    && (forall i, j :: i in mq.unacked && j in mq.unacked && mq.unacked[i] == mq.unacked[j] ==> i == j)
  }

  /** An outstanding tag belongs to an unfinished delivery of that message over a live channel. */
  ghost predicate Outstanding(s: State) {
    forall tag :: tag in s.mq.unacked ==>
      && tag in s.cs.runs && s.cs.runs[tag].msg == s.mq.unacked[tag]
      && s.cs.runs[tag].ch in s.mq.live && !s.cs.runs[tag].at.Done?
  }

  ghost predicate RunOk(s: State, run: Run) {
    && run.msg in s.mq.msgs && s.mq.msgs[run.msg] == run.raw
    && run.ch in s.cs.owner
    && (run.result.Some? <==> run.at.Replying? || run.at.Settling? || run.at.Done?)
    && (run.replied ==> run.raw.replyTo.Some? && (run.at.Settling? || run.at.Done?))
    && (run.at.Settling? ==> run.at.verdict == Judge(run.result.value, run.replied))
  }

  ghost predicate RunsOk(s: State) {
    forall tag :: tag in s.cs.runs ==> RunOk(s, s.cs.runs[tag])
  }

  /** A finished delivery of `m` whose handler succeeded and whose reply was published. */
  ghost predicate AckedFor(s: State, m: MsgId, tag: Tag) {
    && tag in s.cs.runs && s.cs.runs[tag].msg == m && s.cs.runs[tag].at.Done?
    && s.cs.runs[tag].result.Some? && s.cs.runs[tag].result.value.Ok? && s.cs.runs[tag].replied
  }

  /** A finished delivery of `m` whose handler failed. */
  ghost predicate DiscardedFor(s: State, m: MsgId, tag: Tag) {
    && tag in s.cs.runs && s.cs.runs[tag].msg == m && s.cs.runs[tag].at.Done?
    && s.cs.runs[tag].result.Some? && s.cs.runs[tag].result.value.Err?
  }

  ghost predicate Justified(s: State) {
    && (forall m :: m in s.mq.acked ==> exists tag :: AckedFor(s, m, tag))
    && (forall m :: m in s.mq.discarded ==> exists tag :: DiscardedFor(s, m, tag))
  }

  predicate Busy(at: RunAt) {
    at.Handling? || at.Replying? || at.Settling?
  }

  /** The handlers of one deliver loop in flight. */
  ghost function InFlight(cs: Consumers, ch: ChanId): set<Tag> {
    set tag | tag in cs.runs && cs.runs[tag].ch == ch && Busy(cs.runs[tag].at)
  }

  ghost predicate Throttled(cs: Consumers) {
    forall ch :: ch in cs.owner ==>
      && cs.owner[ch] in cs.subs && ch in cs.sem
      && cs.sem[ch] == |InFlight(cs, ch)| && cs.sem[ch] <= cs.subs[cs.owner[ch]].concurrency
  }

  /** A reply in the queue of `r` answers `r`'s request, or is a stray with a foreign correlation id. */
  ghost predicate ReplyOk(s: State, r: ReqId, corr: string, reply: Reply) {
    if reply.origin.None? then reply.corr != corr else
      var tag := reply.origin.value;
      && tag in s.cs.runs && s.cs.runs[tag].raw.replyTo == Some(r) && s.cs.runs[tag].replied
      && reply.corr == s.cs.runs[tag].raw.corr
      && s.cs.runs[tag].result.Some? && reply.body == s.cs.runs[tag].result.value.body
  }

  ghost predicate ReqOk(s: State, r: ReqId, q: Req) {
    && q.msg in s.mq.msgs && s.mq.msgs[q.msg].replyTo == Some(r) && s.mq.msgs[q.msg].corr == q.corr
    && (forall i :: 0 <= i < |q.queue| ==> ReplyOk(s, r, q.corr, q.queue[i]))
    && (q.state.Returned? ==> ReplyOk(s, r, q.corr, q.state.reply) && q.state.reply.corr == q.corr)
  }

  ghost predicate RequestsOk(s: State) {
    && (forall r :: r in s.reqs ==> ReqOk(s, r, s.reqs[r]))
    && (forall m :: m in s.mq.msgs && s.mq.msgs[m].replyTo.Some? ==>
          s.mq.msgs[m].replyTo.value in s.reqs && s.reqs[s.mq.msgs[m].replyTo.value].msg == m)
  }

  ghost predicate Inv(s: State) {
    Conserved(s.mq) && Outstanding(s) && RunsOk(s) && Justified(s) && Throttled(s.cs) && RequestsOk(s)
  }

  // ---------------------------------------------------------------- the broker

  /** Publishing puts exactly the new message into ready. */
  lemma PostConserves(mq: Broker, m: MsgId, msg: Msg)
    requires Conserved(mq) && m !in mq.msgs
    ensures Conserved(Post(mq, m, msg))
  {
  }

  /** A message is where it was. */
  ghost predicate Stays(mq: Broker, mq': Broker, m: MsgId) {
    && (m in mq'.ready <==> m in mq.ready) && (m in mq'.acked <==> m in mq.acked)
    && (m in mq'.discarded <==> m in mq.discarded) && (IsUnacked(mq', m) <==> IsUnacked(mq, m))
  }

  /** The place a verdict sends a message to. */
  predicate IsAt(mq: Broker, m: MsgId, v: Verdict) {
    match v
    case Ack => m in mq.acked
    case Nack(requeue) => if requeue then m in mq.ready else m in mq.discarded
  }

  /**
   A settlement over a live channel moves the one message under its tag, out of unacked and into
   the place of the verdict; over a dead channel, or a second time, it moves nothing.
   */
  lemma SettledConserves(mq: Broker, tag: Tag, ch: ChanId, v: Verdict)
    requires Conserved(mq)
    ensures Conserved(Settled(mq, tag, ch, v))
    ensures forall m :: !(ch in mq.live && tag in mq.unacked && m == mq.unacked[tag]) ==>
              Stays(mq, Settled(mq, tag, ch, v), m)
    ensures ch in mq.live && tag in mq.unacked ==> IsAt(Settled(mq, tag, ch, v), mq.unacked[tag], v)
  {
    var mq' := Settled(mq, tag, ch, v);
    forall k | k in mq'.msgs
      ensures k in mq'.ready || k in mq'.acked || k in mq'.discarded || IsUnacked(mq', k)
    {
      if IsUnacked(mq, k) {
        var i :| i in mq.unacked && mq.unacked[i] == k;
        assert i != tag ==> i in mq'.unacked && mq'.unacked[i] == k;
      }
    }
  }

  /** Delivered over `ch` and not settled. */
  ghost predicate UnackedOn(s: State, ch: ChanId, m: MsgId) {
    exists tag :: tag in TagsOn(s, ch) && s.mq.unacked[tag] == m
  }

  /** The death of a channel moves its unacknowledged messages back to ready and nothing else. */
  lemma KillConserves(s: State, ch: ChanId, s': State)
    requires Conserved(s.mq) && KillStep(s, ch) == Some(s')
    ensures Conserved(s'.mq)
    ensures forall m :: if UnackedOn(s, ch, m) then m in s'.mq.ready else Stays(s.mq, s'.mq, m)
  {
    forall k | k in s'.mq.msgs
      ensures k in s'.mq.ready || k in s'.mq.acked || k in s'.mq.discarded || IsUnacked(s'.mq, k)
    {
      if IsUnacked(s.mq, k) {
        var i :| i in s.mq.unacked && s.mq.unacked[i] == k;
        assert i !in TagsOn(s, ch) ==> i in s'.mq.unacked && s'.mq.unacked[i] == k;
      }
    }
  }

  lemma DeliverConserves(s: State, tag: Tag, m: MsgId, ch: ChanId, s': State)
    requires Conserved(s.mq) && Outstanding(s) && DeliverStep(s, tag, m, ch) == Some(s')
    ensures Conserved(s'.mq)
  {
    forall k | k in s'.mq.msgs
      ensures k in s'.mq.ready || k in s'.mq.acked || k in s'.mq.discarded || IsUnacked(s'.mq, k)
    {
      if k == m {
        assert tag in s'.mq.unacked && s'.mq.unacked[tag] == k;
      } else if IsUnacked(s.mq, k) {
        var i :| i in s.mq.unacked && s.mq.unacked[i] == k;
        assert i in s'.mq.unacked && s'.mq.unacked[i] == k;
      }
    }
  }

  // ------------------------------------------------------ deliveries only go forward

  /** Deliveries keep their identity, a finished one keeps everything, a published reply stays published. */
  ghost predicate Grows(cs: Consumers, cs': Consumers) {
    forall tag :: tag in cs.runs ==>
      && tag in cs'.runs
      && cs'.runs[tag].msg == cs.runs[tag].msg && cs'.runs[tag].raw == cs.runs[tag].raw
      && (cs.runs[tag].at.Done? ==> cs'.runs[tag] == cs.runs[tag])
      && (cs.runs[tag].replied ==> cs'.runs[tag].replied && cs'.runs[tag].result == cs.runs[tag].result)
  }

  lemma JustifiedGrows(s: State, s': State)
    requires Justified(s) && Grows(s.cs, s'.cs)
    requires s'.mq.acked <= s.mq.acked && s'.mq.discarded <= s.mq.discarded
    ensures Justified(s')
  {
    forall m | m in s'.mq.acked ensures exists tag :: AckedFor(s', m, tag) {
      var tag :| AckedFor(s, m, tag);
      assert AckedFor(s', m, tag);
    }
    forall m | m in s'.mq.discarded ensures exists tag :: DiscardedFor(s', m, tag) {
      var tag :| DiscardedFor(s, m, tag);
      assert DiscardedFor(s', m, tag);
    }
  }

  lemma ReplyGrows(s: State, s': State, r: ReqId, corr: string, reply: Reply)
    requires ReplyOk(s, r, corr, reply) && Grows(s.cs, s'.cs)
    ensures ReplyOk(s', r, corr, reply)
  {
  }

  lemma RequestsGrow(s: State, s': State)
    requires RequestsOk(s) && Grows(s.cs, s'.cs) && s'.mq.msgs == s.mq.msgs && s'.reqs == s.reqs
    ensures RequestsOk(s')
  {
  }

  // ------------------------------------------------------------- the semaphore

  /** The slots a delivery holds in its loop's semaphore. */
  function Slot(at: RunAt): nat {
    if Busy(at) then 1 else 0
  }

  /** Taking a slot, keeping it and freeing it, as one delivery moves on. */
  lemma SlotMoves(cs: Consumers, tag: Tag, run: Run, n: nat)
    requires Throttled(cs) && tag in cs.runs && run.ch == cs.runs[tag].ch && run.ch in cs.owner
    requires n + Slot(cs.runs[tag].at) == cs.sem[run.ch] + Slot(run.at)
    requires n <= cs.subs[cs.owner[run.ch]].concurrency
    ensures Throttled(SetRun(cs, tag, run).(sem := cs.sem[run.ch := n]))
  {
    var cs' := SetRun(cs, tag, run).(sem := cs.sem[run.ch := n]);
    var was, now := Busy(cs.runs[tag].at), Busy(run.at);
    assert was ==> InFlight(cs', run.ch) == (if now then InFlight(cs, run.ch) else InFlight(cs, run.ch) - {tag});
    assert !was ==> InFlight(cs', run.ch) == (if now then InFlight(cs, run.ch) + {tag} else InFlight(cs, run.ch));
    forall ch | ch in cs'.owner
      ensures ch in cs'.sem && cs'.sem[ch] == |InFlight(cs', ch)|
    {
      if ch != run.ch {
        assert InFlight(cs', ch) == InFlight(cs, ch);
      }
    }
  }

  lemma SlotKept(cs: Consumers, tag: Tag, run: Run)
    requires Throttled(cs) && tag in cs.runs && run.ch == cs.runs[tag].ch && run.ch in cs.owner
    requires Slot(cs.runs[tag].at) == Slot(run.at)
    ensures Throttled(SetRun(cs, tag, run))
  {
    SlotMoves(cs, tag, run, cs.sem[run.ch]);
    assert cs.sem[run.ch := cs.sem[run.ch]] == cs.sem;
  }

  /** One unfinished delivery moves on; what was known of the deliveries stays known. */
  lemma RunMoves(s: State, tag: Tag, run: Run, s': State)
    requires RunsOk(s) && tag in s.cs.runs && !s.cs.runs[tag].at.Done? && !s.cs.runs[tag].replied
    requires s'.cs.runs == s.cs.runs[tag := run] && s'.cs.owner == s.cs.owner && s'.mq.msgs == s.mq.msgs
    requires RunOk(s', run) && run.msg == s.cs.runs[tag].msg && run.raw == s.cs.runs[tag].raw
    ensures RunsOk(s') && Grows(s.cs, s'.cs)
  {
  }

  // -------------------------------------------------------------- event by event

  lemma PublishKeeps(s: State, m: MsgId, msg: Msg, s': State)
    requires Inv(s) && PublishStep(s, m, msg) == Some(s')
    ensures Inv(s')
  {
    PostConserves(s.mq, m, msg);
    JustifiedGrows(s, s');
    forall r | r in s'.reqs ensures ReqOk(s', r, s'.reqs[r]) {
      assert ReqOk(s, r, s.reqs[r]);
      forall i | 0 <= i < |s.reqs[r].queue| ensures ReplyOk(s', r, s.reqs[r].corr, s.reqs[r].queue[i]) {
        ReplyGrows(s, s', r, s.reqs[r].corr, s.reqs[r].queue[i]);
      }
    }
  }

  lemma RequestKeeps(s: State, r: ReqId, m: MsgId, msg: Msg, s': State)
    requires Inv(s) && RequestStep(s, r, m, msg) == Some(s')
    ensures Inv(s')
  {
    PostConserves(s.mq, m, msg);
    JustifiedGrows(s, s');
    NewRequestOk(s, r, m, msg, s');
  }

  lemma NewRequestOk(s: State, r: ReqId, m: MsgId, msg: Msg, s': State)
    requires RequestsOk(s) && RequestStep(s, r, m, msg) == Some(s')
    ensures RequestsOk(s')
  {
  }

  /** Opening channels and swapping the current one leave messages and deliveries alone. */
  lemma ChannelKeeps(s: State, e: Event, s': State)
    requires Inv(s) && (e.Consume? || e.Rebind? || e.Swap?) && Step(s, e) == Some(s')
    ensures Inv(s')
  {
    ChannelThrottles(s, e, s');
    forall i | i in s'.cs.runs ensures RunOk(s', s'.cs.runs[i]) {
      assert RunOk(s, s.cs.runs[i]);
    }
    JustifiedGrows(s, s');
    RequestsGrow(s, s');
  }

  lemma ChannelThrottles(s: State, e: Event, s': State)
    requires RunsOk(s) && Throttled(s.cs) && (e.Consume? || e.Rebind? || e.Swap?) && Step(s, e) == Some(s')
    ensures Throttled(s'.cs) && s'.cs.runs == s.cs.runs && s'.reqs == s.reqs && s.mq.live <= s'.mq.live
    ensures s'.mq == s.mq.(live := s'.mq.live) && s.cs.owner.Keys <= s'.cs.owner.Keys
  {
    forall ch | ch in s'.cs.owner
      ensures ch in s'.cs.sem && s'.cs.sem[ch] == |InFlight(s'.cs, ch)|
    {
      if ch in s.cs.owner {
        assert InFlight(s'.cs, ch) == InFlight(s.cs, ch);
      } else {
        forall tag | tag in s.cs.runs ensures s.cs.runs[tag].ch != ch {
          assert RunOk(s, s.cs.runs[tag]);
        }
        assert InFlight(s'.cs, ch) == {};
      }
    }
  }

  lemma KillKeeps(s: State, ch: ChanId, s': State)
    requires Inv(s) && KillStep(s, ch) == Some(s')
    ensures Inv(s')
  {
    KillConserves(s, ch, s');
    JustifiedGrows(s, s');
    RequestsGrow(s, s');
  }

  lemma DeliverKeeps(s: State, tag: Tag, m: MsgId, ch: ChanId, s': State)
    requires Inv(s) && DeliverStep(s, tag, m, ch) == Some(s')
    ensures Inv(s')
  {
    DeliverConserves(s, tag, m, ch, s');
    DeliverRuns(s, tag, m, ch, s');
    JustifiedGrows(s, s');
    RequestsGrow(s, s');
  }

  lemma DeliverRuns(s: State, tag: Tag, m: MsgId, ch: ChanId, s': State)
    requires Conserved(s.mq) && Outstanding(s) && RunsOk(s) && Throttled(s.cs) && DeliverStep(s, tag, m, ch) == Some(s')
    ensures Outstanding(s') && RunsOk(s') && Throttled(s'.cs) && Grows(s.cs, s'.cs)
    ensures s'.mq.msgs == s.mq.msgs && s'.mq.acked == s.mq.acked && s'.mq.discarded == s.mq.discarded
    ensures s'.reqs == s.reqs
  {
    forall i | i in s'.cs.runs ensures RunOk(s', s'.cs.runs[i]) {
      assert i != tag ==> RunOk(s, s.cs.runs[i]);
    }
    forall k | k in s'.cs.owner ensures InFlight(s'.cs, k) == InFlight(s.cs, k) {
    }
  }

  /** A step that only moves one delivery on, short of its settlement. */
  lemma AdvanceKeeps(s: State, tag: Tag, run: Run, s': State)
    requires Inv(s) && tag in s.cs.runs && !s.cs.runs[tag].at.Done? && !s.cs.runs[tag].replied
    requires s'.mq == s.mq && s'.reqs == s.reqs
    requires s'.cs.runs == s.cs.runs[tag := run] && s'.cs.owner == s.cs.owner && Throttled(s'.cs)
    requires RunOk(s', run) && !run.at.Done?
    requires run.msg == s.cs.runs[tag].msg && run.raw == s.cs.runs[tag].raw && run.ch == s.cs.runs[tag].ch
    ensures Inv(s')
  {
    RunMoves(s, tag, run, s');
    JustifiedGrows(s, s');
    RequestsGrow(s, s');
  }

  lemma StartKeeps(s: State, tag: Tag, s': State)
    requires Inv(s) && StartStep(s, tag) == Some(s')
    ensures Inv(s')
  {
    var run := s.cs.runs[tag].(at := Handling);
    assert RunOk(s, s.cs.runs[tag]);
    SlotMoves(s.cs, tag, run, s.cs.sem[run.ch] + 1);
    AdvanceKeeps(s, tag, run, s');
  }

  lemma ReturnKeeps(s: State, tag: Tag, result: Result, s': State)
    requires Inv(s) && ReturnStep(s, tag, result) == Some(s')
    ensures Inv(s')
  {
    var run := s.cs.runs[tag].(at := Replying, result := Some(result));
    assert RunOk(s, s.cs.runs[tag]);
    SlotKept(s.cs, tag, run);
    AdvanceKeeps(s, tag, run, s');
  }

  /** A reply that fits the queue it arrives in. */
  lemma ArriveKeeps(s: State, r: ReqId, reply: Reply)
    requires RequestsOk(s) && (r in s.reqs ==> ReplyOk(s, r, s.reqs[r].corr, reply))
    ensures RequestsOk(s.(reqs := Arrive(s.reqs, r, reply)))
  {
  }

  lemma SendReplyKeeps(s: State, tag: Tag, fails: bool, s': State)
    requires Inv(s) && SendReplyStep(s, tag, fails) == Some(s')
    ensures Inv(s')
  {
    var was, run := s.cs.runs[tag], s'.cs.runs[tag];
    assert RunOk(s, was);
    SlotKept(s.cs, tag, run);
    var s1 := s'.(reqs := s.reqs);
    AdvanceKeeps(s, tag, run, s1);
    if CanReply(s, was, fails) {
      assert RunOk(s1, run);
      ReplyArrives(s1, tag);
    }
  }

  /** The reply of a handler lands in the queue of the request that was handled. */
  lemma ReplyArrives(s: State, tag: Tag)
    requires Inv(s) && tag in s.cs.runs && s.cs.runs[tag].replied && RunOk(s, s.cs.runs[tag])
    ensures var run := s.cs.runs[tag];
            var reply := Reply(run.raw.corr, run.result.value.body, Some(tag));
            Inv(s.(reqs := Arrive(s.reqs, run.raw.replyTo.value, reply)))
  {
    var run := s.cs.runs[tag];
    var reply := Reply(run.raw.corr, run.result.value.body, Some(tag));
    ArriveKeeps(s, run.raw.replyTo.value, reply);
    JustifiedGrows(s, s.(reqs := Arrive(s.reqs, run.raw.replyTo.value, reply)));
  }

  lemma SettleKeeps(s: State, tag: Tag, s': State)
    requires Inv(s) && SettleStep(s, tag) == Some(s')
    ensures Inv(s')
  {
    var run := s.cs.runs[tag];
    assert RunOk(s, run);
    SettledConserves(s.mq, tag, run.ch, run.at.verdict);
    SlotMoves(s.cs, tag, run.(at := Done), s.cs.sem[run.ch] - 1);
    SettleRuns(s, tag, s');
    RequestsGrow(s, s');
    JustifiedGrows(s, s'.(mq := s.mq));
    SettleJustifies(s, tag, s');
  }

  lemma SettleRuns(s: State, tag: Tag, s': State)
    requires RunsOk(s) && Outstanding(s) && SettleStep(s, tag) == Some(s')
    ensures RunsOk(s') && Outstanding(s') && Grows(s.cs, s'.cs) && s'.mq.msgs == s.mq.msgs
  {
    assert RunOk(s, s.cs.runs[tag]);
    forall i | i in s'.cs.runs ensures RunOk(s', s'.cs.runs[i]) {
      assert RunOk(s, s.cs.runs[i]);
    }
  }

  lemma SettleJustifies(s: State, tag: Tag, s': State)
    requires RunsOk(s) && Outstanding(s) && SettleStep(s, tag) == Some(s') && Justified(s'.(mq := s.mq))
    ensures Justified(s')
  {
    var run := s.cs.runs[tag];
    assert RunOk(s, run);
    forall m | m in s'.mq.acked ensures exists i :: AckedFor(s', m, i) {
      if m in s.mq.acked {
        var i :| AckedFor(s'.(mq := s.mq), m, i);
        assert AckedFor(s', m, i);
      } else {
        assert AckedFor(s', m, tag);
      }
    }
    forall m | m in s'.mq.discarded ensures exists i :: DiscardedFor(s', m, i) {
      if m in s.mq.discarded {
        var i :| DiscardedFor(s'.(mq := s.mq), m, i);
        assert DiscardedFor(s', m, i);
      } else {
        assert DiscardedFor(s', m, tag);
      }
    }
  }

  lemma ReceiveKeeps(s: State, r: ReqId, s': State)
    requires Inv(s) && ReceiveStep(s, r) == Some(s')
    ensures Inv(s')
  {
    JustifiedGrows(s, s');
    forall k | k in s'.reqs ensures ReqOk(s', k, s'.reqs[k]) {
      assert ReqOk(s, k, s.reqs[k]);
      forall i | 0 <= i < |s'.reqs[k].queue| ensures ReplyOk(s', k, s'.reqs[k].corr, s'.reqs[k].queue[i]) {
        assert s'.reqs[k].queue[i] == s.reqs[k].queue[if k == r then i + 1 else i];
      }
    }
  }

  lemma GiveUpKeeps(s: State, r: ReqId, s': State)
    requires Inv(s) && GiveUpStep(s, r) == Some(s')
    ensures Inv(s')
  {
    JustifiedGrows(s, s');
    forall k | k in s'.reqs ensures ReqOk(s', k, s'.reqs[k]) {
      assert ReqOk(s, k, s.reqs[k]);
      assert k != r ==> forall i :: 0 <= i < |s.reqs[k].queue| ==> ReplyOk(s, k, s.reqs[k].corr, s.reqs[k].queue[i]);
    }
  }

  lemma StepKeeps(s: State, e: Event, s': State)
    requires Inv(s) && Step(s, e) == Some(s')
    ensures Inv(s')
  {
    match e
    case Publish(m, msg) => PublishKeeps(s, m, msg, s');
    case Request(r, m, msg) => RequestKeeps(s, r, m, msg, s');
    case Consume(_, _, _, _) => ChannelKeeps(s, e, s');
    case Rebind(_, _) => ChannelKeeps(s, e, s');
    case Swap(_, _) => ChannelKeeps(s, e, s');
    case Kill(ch) => KillKeeps(s, ch, s');
    case Deliver(tag, m, ch) => DeliverKeeps(s, tag, m, ch, s');
    case Start(tag) => StartKeeps(s, tag, s');
    case Return(tag, result) => ReturnKeeps(s, tag, result, s');
    case SendReply(tag, fails) => SendReplyKeeps(s, tag, fails, s');
    case Settle(tag) => SettleKeeps(s, tag, s');
    case Stray(r, corr, body) =>
      JustifiedGrows(s, s');
      ArriveKeeps(s, r, Reply(corr, body, None));
    case Receive(r) => ReceiveKeeps(s, r, s');
    case GiveUp(r) => GiveUpKeeps(s, r, s');
  }

  lemma {:induction false} RunKeeps(p: seq<State>, i: nat)
    requires IsRun(p) && i < |p|
    ensures Inv(p[i])
  {
    if i > 0 {
      RunKeeps(p, i - 1);
      assert NextAt(p, i - 1);
      var e :| Step(p[i - 1], e) == Some(p[i]);
      StepKeeps(p[i - 1], e, p[i]);
    }
  }

  // ------------------------------------------------------------------ theorems

  ghost function Bit(b: bool): nat {
    if b then 1 else 0
  }

  /** The number of places a message is in. */
  ghost function Places(mq: Broker, m: MsgId): nat {
    Bit(m in mq.ready) + Bit(IsUnacked(mq, m)) + Bit(m in mq.acked) + Bit(m in mq.discarded)
  }

  /**
   No message is lost or duplicated at the broker: at every point of every run each published
   message is in exactly one of ready, unacked (under one tag, on one live channel), acked and discarded.
   */
  lemma NoMessageIsLost(p: seq<State>, i: nat, m: MsgId)
    requires IsRun(p) && i < |p| && m in p[i].mq.msgs
    ensures Places(p[i].mq, m) == 1
    ensures forall t, u | t in p[i].mq.unacked && u in p[i].mq.unacked ::
              p[i].mq.unacked[t] == m && p[i].mq.unacked[u] == m ==> t == u
    ensures forall t | t in p[i].mq.unacked && p[i].mq.unacked[t] == m ::
              t in p[i].cs.runs && p[i].cs.runs[t].ch in p[i].mq.live
  {
    RunKeeps(p, i);
  }

  /** An ack or a discard is final, and what was published stays accounted for. */
  lemma SettlementsAreFinal(s: State, e: Event, s': State)
    requires Step(s, e) == Some(s')
    ensures s.mq.acked <= s'.mq.acked && s.mq.discarded <= s'.mq.discarded
    ensures forall m :: m in s.mq.msgs ==> m in s'.mq.msgs && s'.mq.msgs[m] == s.mq.msgs[m]
  {
  }

  /**
   Under `wrap` a message is acked only after a handler succeeded on it and the reply was
   published, and discarded only after a handler failed on it; a message without reply_to
   is never acked, however often its handler succeeds.
   */
  lemma SettledForAReason(p: seq<State>, i: nat, m: MsgId)
    requires IsRun(p) && i < |p|
    ensures m in p[i].mq.acked ==> exists tag :: AckedFor(p[i], m, tag)
    ensures m in p[i].mq.discarded ==> exists tag :: DiscardedFor(p[i], m, tag)
    ensures m in p[i].mq.msgs && p[i].mq.msgs[m].replyTo.None? ==> m !in p[i].mq.acked
  {
    RunKeeps(p, i);
    if m in p[i].mq.acked {
      var tag :| AckedFor(p[i], m, tag);
      assert RunOk(p[i], p[i].cs.runs[tag]);
    }
  }

  /**
   Every reply `Request` returns carries the request's correlation id and is what a handler
   run on exactly this request's message answered, whatever other requesters, redeliveries,
   rebinds and stale replies did meanwhile.
   */
  lemma RepliesMatchRequests(p: seq<State>, i: nat, r: ReqId)
    requires IsRun(p) && i < |p| && r in p[i].reqs && p[i].reqs[r].state.Returned?
    ensures var q, s := p[i].reqs[r], p[i];
            && q.state.reply.corr == q.corr
            && q.msg in s.mq.msgs && s.mq.msgs[q.msg].corr == q.corr
            && q.state.reply.origin.Some? && q.state.reply.origin.value in s.cs.runs
            && var run := s.cs.runs[q.state.reply.origin.value];
               && run.msg == q.msg && run.raw == s.mq.msgs[q.msg]
               && run.result.Some? && q.state.reply.body == run.result.value.body
  {
    RunKeeps(p, i);
    var q := p[i].reqs[r];
    assert ReqOk(p[i], r, q) && ReplyOk(p[i], r, q.corr, q.state.reply);
    assert RunOk(p[i], p[i].cs.runs[q.state.reply.origin.value]);
  }

  /** The reply loop skips strays only: what a handler sent to a queue is never passed over. */
  lemma OnlyStraysAreSkipped(p: seq<State>, i: nat, r: ReqId, k: nat)
    requires IsRun(p) && i < |p| && r in p[i].reqs && k < |p[i].reqs[r].queue|
    ensures p[i].reqs[r].queue[k].corr != p[i].reqs[r].corr <==> p[i].reqs[r].queue[k].origin.None?
  {
    RunKeeps(p, i);
    var reply := p[i].reqs[r].queue[k];
    assert ReqOk(p[i], r, p[i].reqs[r]) && ReplyOk(p[i], r, p[i].reqs[r].corr, reply);
    if reply.origin.Some? {
      assert RunOk(p[i], p[i].cs.runs[reply.origin.value]);
    }
  }

  /** At most Concurrency handlers of one deliver loop are in flight, and each can settle and leave. */
  lemma ConcurrencyIsBounded(p: seq<State>, i: nat, ch: ChanId)
    requires IsRun(p) && i < |p| && ch in p[i].cs.owner
    ensures p[i].cs.owner[ch] in p[i].cs.subs
    ensures |InFlight(p[i].cs, ch)| <= p[i].cs.subs[p[i].cs.owner[ch]].concurrency
    ensures forall tag :: tag in InFlight(p[i].cs, ch) && p[i].cs.runs[tag].at.Settling? ==> SettleStep(p[i], tag).Some?
  {
    RunKeeps(p, i);
    forall tag | tag in InFlight(p[i].cs, ch) ensures p[i].cs.sem[ch] > 0 {
      assert {tag} <= InFlight(p[i].cs, ch);
      assert InFlight(p[i].cs, ch) != {};
    }
  }
}
