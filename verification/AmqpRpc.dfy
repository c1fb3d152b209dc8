/**
 What becomes of one delivery and of one request: where the settlement of `wrap` puts the
 message, over which channel the reply goes, and the request and its reply from end to end.
 */
module AmqpRpc {
  import opened Basics
  import opened AmqpDelivery
  import opened AmqpDeliveryProofs
  import opened AmqpConcurrency

  // ---------------------------------------------------------------- settlement

  /**
   Where a settlement puts its message, while it is outstanding: to the discarded after a handler
   error, to the acked after a success whose reply went out, back to ready after a success whose
   reply did not. A settlement that comes too late changes nothing at the broker.
   */
  lemma SettleOutcome(s: State, tag: Tag, s': State)
    requires Reachable(s) && SettleStep(s, tag) == Some(s')
    ensures s.cs.runs[tag].result.Some?
    ensures tag !in s.mq.unacked ==> s'.mq == s.mq
    ensures tag in s.mq.unacked ==>
              var run := s.cs.runs[tag];
              && s.mq.unacked[tag] == run.msg
              && match run.result.value
                 case Err(_) => run.msg in s'.mq.discarded
                 case Ok(_) => if run.replied then run.msg in s'.mq.acked else run.msg in s'.mq.ready
  {
    var p: seq<State> :| IsRun(p) && p[|p| - 1] == s;
    RunKeeps(p, |p| - 1);
    assert RunOk(s, s.cs.runs[tag]);
  }

  // ------------------------------------------------------------------ the reply

  /** The event makes `ch` the current channel of the subscription. */
  predicate SwapsIn(e: Event, sub: SubId, ch: ChanId) {
    e == Swap(sub, ch) || (e.Consume? && e.sub == sub && e.ch == ch)
  }

  lemma CurrentStep(s: State, e: Event, s': State, sub: SubId)
    requires sub in s.cs.subs && Step(s, e) == Some(s') && !(e.Swap? && e.sub == sub)
    ensures sub in s'.cs.subs && s'.cs.subs[sub] == s.cs.subs[sub]
  {
  }

  lemma {:induction false} CurrentStays(s: State, es: seq<Event>, sub: SubId)
    requires sub in s.cs.subs && After(s, es).Some?
    requires forall i :: 0 <= i < |es| ==> !(es[i].Swap? && es[i].sub == sub)
    ensures sub in After(s, es).value.cs.subs && After(s, es).value.cs.subs[sub] == s.cs.subs[sub]
    decreases |es|
  {
    if es != [] {
      var init := es[..|es| - 1];
      CurrentStays(s, init, sub);
      CurrentStep(After(s, init).value, es[|es| - 1], After(s, es).value, sub);
    }
  }

  /**
   A handler's reply is published if and only if its message has a reply_to, the publish does not
   fail, and the channel last swapped in for the subscription is up, whether or not the channel that
   delivered the message still is. It then stands at the end of the queue of its request, with the
   message's correlation id, if the request still waits.
   */
  lemma ReplySentIff(s0: State, e: Event, sub: SubId, ch: ChanId, s1: State, es: seq<Event>, s: State,
                     tag: Tag, fails: bool, s': State)
    requires Step(s0, e) == Some(s1) && SwapsIn(e, sub, ch) && After(s1, es) == Some(s)
    requires forall i :: 0 <= i < |es| ==> !(es[i].Swap? && es[i].sub == sub)
    requires SendReplyStep(s, tag, fails) == Some(s') && OwnedBy(s.cs, s.cs.runs[tag].ch, sub)
    ensures var raw := s.cs.runs[tag].raw;
            s'.cs.runs[tag].replied <==> raw.replyTo.Some? && !fails && ch in s.mq.live
    ensures !s'.cs.runs[tag].replied ==> s'.reqs == s.reqs
    ensures s'.cs.runs[tag].replied ==>
              var r, raw := s.cs.runs[tag].raw.replyTo.value, s.cs.runs[tag].raw;
              && (r in s.reqs && s.reqs[r].state.Waiting? ==>
                    r in s'.reqs && s'.reqs[r].queue
                                    == s.reqs[r].queue + [Reply(raw.corr, s.cs.runs[tag].result.value.body, Some(tag))])
              && forall k :: k in s.reqs && k != r ==> k in s'.reqs && s'.reqs[k] == s.reqs[k]
  {
    CurrentStays(s1, es, sub);
  }

  // ---------------------------------------------------------------- the request

  /** `Receive` taken `n` times. */
  function Receives(s: State, r: ReqId, n: nat): Option<State>
    decreases n
  {
    if n == 0 then Some(s) else
      match ReceiveStep(s, r)
      case None => None
      case Some(s') => Receives(s', r, n - 1)
  }

  /** The reply loop passes over the replies with a foreign correlation id and returns the first that matches. */
  lemma {:induction false} FirstMatchReturns(s: State, r: ReqId, n: nat)
    requires r in s.reqs && s.reqs[r].state.Waiting? && n < |s.reqs[r].queue|
    requires forall k :: 0 <= k < n ==> s.reqs[r].queue[k].corr != s.reqs[r].corr
    requires s.reqs[r].queue[n].corr == s.reqs[r].corr
    ensures Receives(s, r, n + 1).Some? && r in Receives(s, r, n + 1).value.reqs
    ensures Receives(s, r, n + 1).value.reqs[r].state == Returned(s.reqs[r].queue[n])
    decreases n
  {
    var s' := ReceiveStep(s, r).value;
    if n == 0 {
      assert Receives(s', r, 0) == Some(s');
    } else {
      FirstMatchReturns(s', r, n - 1);
    }
  }

  /** A request reaches a handler over a live channel with room. */
  lemma RequestIsHandled(s: State, sub: SubId, ch: ChanId, r: ReqId, m: MsgId, msg: Msg, tag: Tag) returns (s': State)
    requires Reachable(s) && HasRoom(s, sub, ch) && s.cs.subs[sub].queue == msg.queue && s.cs.subs[sub].current == ch
    requires r !in s.reqs && m !in s.mq.msgs && tag !in s.cs.runs && msg.replyTo == Some(r)
    ensures Reachable(s') && s'.cs.subs == s.cs.subs && s'.cs.owner == s.cs.owner && s'.mq.live == s.mq.live
    ensures tag in s'.cs.runs && s'.cs.runs[tag] == Run(m, msg, ch, Handling, None, false)
    ensures tag in s'.mq.unacked && s'.mq.unacked[tag] == m && s'.reqs == s.reqs[r := Req(m, msg.corr, [], Waiting)]
    ensures ch in s'.cs.sem && s'.cs.sem == s.cs.sem[ch := s.cs.sem[ch] + 1]
  {
    var s1 := Take(s, Request(r, m, msg));
    var s2 := Take(s1, Deliver(tag, m, ch));
    s' := Take(s2, Start(tag));
  }

  /** And what its handler returns reaches the requester; the message is settled and the slot is free again. */
  lemma HandlerAnswers(s: State, sub: SubId, ch: ChanId, r: ReqId, m: MsgId, msg: Msg, tag: Tag, result: Result)
    returns (s': State)
    requires Reachable(s) && sub in s.cs.subs && OwnedBy(s.cs, ch, sub)
    requires ch in s.mq.live && s.cs.subs[sub].current == ch
    requires tag in s.cs.runs && s.cs.runs[tag] == Run(m, msg, ch, Handling, None, false) && msg.replyTo == Some(r)
    requires tag in s.mq.unacked && s.mq.unacked[tag] == m && r in s.reqs && s.reqs[r] == Req(m, msg.corr, [], Waiting)
    requires ch in s.cs.sem && s.cs.sem[ch] > 0
    ensures Reachable(s') && r in s'.reqs && s'.reqs[r].state == Returned(Reply(msg.corr, result.body, Some(tag)))
    ensures if result.Ok? then m in s'.mq.acked else m in s'.mq.discarded
    ensures s'.cs.sem == s.cs.sem[ch := s.cs.sem[ch] - 1]
    ensures forall k :: k in s.reqs && k != r ==> k in s'.reqs && s'.reqs[k] == s.reqs[k]
  {
    var s1 := Take(s, Return(tag, result));
    var s2 := Take(s1, SendReply(tag, false));
    var s3 := Take(s2, Settle(tag));
    s' := Take(s3, Receive(r));
  }

  /**
   A request from end to end, undisturbed: the requester gets exactly what the handler returned,
   under its own correlation id, and the message is acked, or discarded after an error.
   */
  lemma RpcRoundTrip(s: State, sub: SubId, ch: ChanId, r: ReqId, m: MsgId, msg: Msg, tag: Tag, result: Result)
    returns (s': State)
    requires Reachable(s) && HasRoom(s, sub, ch) && s.cs.subs[sub].queue == msg.queue && s.cs.subs[sub].current == ch
    requires r !in s.reqs && m !in s.mq.msgs && tag !in s.cs.runs && msg.replyTo == Some(r)
    ensures Reachable(s') && r in s'.reqs && s'.reqs[r].state == Returned(Reply(msg.corr, result.body, Some(tag)))
    ensures if result.Ok? then m in s'.mq.acked else m in s'.mq.discarded
    ensures s'.cs.sem == s.cs.sem && forall k :: k in s.reqs ==> k in s'.reqs && s'.reqs[k] == s.reqs[k]
  {
    var s1 := RequestIsHandled(s, sub, ch, r, m, msg, tag);
    s' := HandlerAnswers(s1, sub, ch, r, m, msg, tag, result);
    assert s.cs.sem[ch := s.cs.sem[ch] + 1][ch := s.cs.sem[ch]] == s.cs.sem;
  }

  /** A subscription of channel 0 handles a request, loses the channel and rebinds over channel 1. */
  lemma HandledThenRebound(msg: Msg) returns (s: State)
    requires msg.queue == "q" && msg.replyTo == Some(0)
    ensures Reachable(s) && s.cs.subs == map[0 := Sub("q", 1, 1)] && s.cs.owner == map[0 := 0, 1 := 0]
    ensures s.mq.live == {1}
    ensures 0 in s.cs.runs && s.cs.runs[0] == Run(0, msg, 0, Handling, None, false)
    ensures s.reqs == map[0 := Req(0, msg.corr, [], Waiting)]
  {
    var s0 := State(Broker(map[], {}, map[], {}, {}, {}), Consumers(map[], map[], map[], map[]), map[]);
    assert IsRun([s0]);
    var s1 := Take(s0, Consume(0, "q", 1, 0));
    var s2 := RequestIsHandled(s1, 0, 0, 0, 0, msg, 0);
    var s3 := Take(s2, Kill(0));
    var s4 := Take(s3, Rebind(0, 1));
    s := Take(s4, Swap(0, 1));
  }

  /** A handler answers over the current channel of its subscription, whatever became of its own. */
  lemma AnswersOverCurrent(s: State, sub: SubId, r: ReqId, tag: Tag, answer: Bytes) returns (s': State)
    requires Reachable(s) && tag in s.cs.runs && s.cs.runs[tag].at == Handling && s.cs.runs[tag].raw.replyTo == Some(r)
    requires OwnedBy(s.cs, s.cs.runs[tag].ch, sub) && sub in s.cs.subs && s.cs.subs[sub].current in s.mq.live
    requires r in s.reqs && s.reqs[r] == Req(s.cs.runs[tag].msg, s.cs.runs[tag].raw.corr, [], Waiting)
    ensures Reachable(s') && s'.mq == s.mq && tag in s'.cs.runs && s'.cs.runs[tag].ch == s.cs.runs[tag].ch
    ensures r in s'.reqs && s'.reqs[r].state == Returned(Reply(s.cs.runs[tag].raw.corr, answer, Some(tag)))
  {
    var s1 := Take(s, Return(tag, Ok(answer)));
    var s2 := Take(s1, SendReply(tag, false));
    s' := Take(s2, Receive(r));
  }

  /** The reply outlives the channel that delivered: handled over channel 0, answered over channel 1. */
  lemma ReplyAfterRebind(body: Bytes, corr: string, answer: Bytes) returns (s: State)
    ensures Reachable(s) && 0 in s.cs.runs && s.cs.runs[0].ch !in s.mq.live
    ensures 0 in s.reqs && s.reqs[0].state == Returned(Reply(corr, answer, Some(0)))
  {
    var s0 := HandledThenRebound(Msg("q", body, corr, Some(0)));
    s := AnswersOverCurrent(s0, 0, 0, 0, answer);
  }

  // ------------------------------------------------------------------ its queue

  /** Every delivery went to a subscription of its message's queue. */
  ghost predicate RightQueues(s: State) {
    forall tag :: tag in s.cs.runs ==> RightQueue(s.cs, s.cs.runs[tag])
  }

  predicate RightQueue(cs: Consumers, run: Run) {
    run.ch in cs.owner && cs.owner[run.ch] in cs.subs && cs.subs[cs.owner[run.ch]].queue == run.raw.queue
  }

  /** Channels keep their subscription and subscriptions their queue. */
  lemma QueueStays(s: State, e: Event, s': State, run: Run)
    requires RightQueue(s.cs, run) && Step(s, e) == Some(s')
    ensures RightQueue(s'.cs, run)
  {
  }

  lemma DeliveredRight(s: State, e: Event, s': State, tag: Tag)
    requires Step(s, e) == Some(s') && tag in s'.cs.runs
    ensures if tag in s.cs.runs
            then s'.cs.runs[tag].ch == s.cs.runs[tag].ch && s'.cs.runs[tag].raw == s.cs.runs[tag].raw
            else RightQueue(s.cs, s'.cs.runs[tag])
  {
  }

  lemma RightQueuesStep(s: State, e: Event, s': State)
    requires RightQueues(s) && Step(s, e) == Some(s')
    ensures RightQueues(s')
  {
    forall tag | tag in s'.cs.runs ensures RightQueue(s'.cs, s'.cs.runs[tag]) {
      DeliveredRight(s, e, s', tag);
      QueueStays(s, e, s', s'.cs.runs[tag]);
    }
  }

  /** On every run a message is handled by subscriptions of its own queue alone. */
  lemma {:induction false} HandledFromItsQueue(p: seq<State>, i: nat)
    requires IsRun(p) && i < |p|
    ensures RightQueues(p[i])
  {
    if i > 0 {
      HandledFromItsQueue(p, i - 1);
      assert NextAt(p, i - 1);
      var e :| Step(p[i - 1], e) == Some(p[i]);
      RightQueuesStep(p[i - 1], e, p[i]);
    }
  }
}
