/**
 Delivery over AMQP end to end: the broker's queues and unacknowledged deliveries
 (section 3.1.8 of the AMQP 0-9-1 specification), `subscription.deliverLoop` and
 `runWithReconnect` of `rpc/amqp/amqp.go`, the settlement policy `wrap` of
 `adapter/adapter.go`, and the correlated reply loop of `Transport.Request`.

 Any number of subscriptions, requesters and handler goroutines interleave, and the
 broker may kill a channel between any two steps.
 */
module AmqpDelivery {
  import opened Basics

  type MsgId = nat
  type Tag = nat
  type ChanId = nat
  type SubId = nat
  /** A request, and the exclusive reply queue the broker named for it. */
  type ReqId = nat

  /** A message as published; `replyTo` is None for `Publish`, which sets no reply_to. */
  datatype Msg = Msg(queue: string, body: Bytes, corr: string, replyTo: Option<ReqId>)

  /** What the adapter's handler returned; an error carries the error envelope to reply with. */
  datatype Result = Ok(body: Bytes) | Err(body: Bytes)

  datatype Verdict = Ack | Nack(requeue: bool)

  /** Where the goroutine of one delivery stands in `deliverLoop` and `wrap`. */
  datatype RunAt = Buffered | Handling | Replying | Settling(verdict: Verdict) | Done

  /** One delivery: the raw message, the channel it came over, and what became of it. */
  datatype Run = Run(msg: MsgId, raw: Msg, ch: ChanId, at: RunAt, result: Option<Result>, replied: bool)

  datatype Sub = Sub(queue: string, concurrency: nat, current: ChanId)

  datatype Broker = Broker(
    msgs: map<MsgId, Msg>,      // every message ever published
    ready: set<MsgId>,
    unacked: map<Tag, MsgId>,   // delivered over a live channel, not settled
    acked: set<MsgId>,
    discarded: set<MsgId>,
    live: set<ChanId>)

  datatype Consumers = Consumers(
    subs: map<SubId, Sub>,
    owner: map<ChanId, SubId>,  // which subscription consumes on a channel
    runs: map<Tag, Run>,
    sem: map<ChanId, nat>)      // slots taken in the semaphore of each deliver loop

  /** A reply in a reply queue; `origin` is the delivery whose handler produced it. */
  datatype Reply = Reply(corr: string, body: Bytes, origin: Option<Tag>)

  datatype ReqState = Waiting | Returned(reply: Reply) | Gone

  datatype Req = Req(msg: MsgId, corr: string, queue: seq<Reply>, state: ReqState)

  datatype State = State(mq: Broker, cs: Consumers, reqs: map<ReqId, Req>)

  datatype Event =
    | Publish(m: MsgId, msg: Msg)
    | Request(r: ReqId, m: MsgId, msg: Msg)
    | Consume(sub: SubId, queue: string, concurrency: nat, ch: ChanId)
    | Rebind(sub: SubId, ch: ChanId)
    | Swap(sub: SubId, ch: ChanId)
    | Kill(ch: ChanId)
    | Deliver(tag: Tag, m: MsgId, ch: ChanId)
    | Start(tag: Tag)
    | Return(tag: Tag, result: Result)
    | SendReply(tag: Tag, fails: bool)
    | Settle(tag: Tag)
    | Stray(r: ReqId, corr: string, body: Bytes)
    | Receive(r: ReqId)
    | GiveUp(r: ReqId)

  predicate Init(s: State) {
    && s.mq == Broker(map[], {}, map[], {}, {}, s.mq.live) && s.mq.live == {}
    && s.cs == Consumers(map[], map[], map[], map[])
    && s.reqs == map[]
  }

  // ------------------------------------------------------------- the broker

  function Post(mq: Broker, m: MsgId, msg: Msg): Broker {
    mq.(msgs := mq.msgs[m := msg], ready := mq.ready + {m})
  }

  /** Tags outstanding on a channel. */
  function TagsOn(s: State, ch: ChanId): set<Tag> {
    set tag | tag in s.mq.unacked && tag in s.cs.runs && s.cs.runs[tag].ch == ch
  }

  /** A channel dies: what was unacknowledged on it goes back to ready, to be redelivered. */
  function KillStep(s: State, ch: ChanId): Option<State> {
    if ch !in s.mq.live then None else
      var tags := TagsOn(s, ch);
      Some(s.(mq := s.mq.(
        live := s.mq.live - {ch},
        ready := s.mq.ready + (set tag | tag in tags :: s.mq.unacked[tag]),
        unacked := s.mq.unacked - tags)))
  }

  /** The broker's view of a settlement: it counts only while the delivering channel lives. */
  function Settled(mq: Broker, tag: Tag, ch: ChanId, v: Verdict): Broker {
    if ch !in mq.live || tag !in mq.unacked then mq else
      var m := mq.unacked[tag];
      var rest := mq.(unacked := mq.unacked - {tag});
      match v
      case Ack => rest.(acked := mq.acked + {m})
      case Nack(true) => rest.(ready := mq.ready + {m})
      case Nack(false) => rest.(discarded := mq.discarded + {m})
  }

  // ------------------------------------------------------------ subscriptions

  /** `Consume` and `setupConsumer`: a fresh channel with a consumer on it. */
  function ConsumeStep(s: State, sub: SubId, queue: string, concurrency: nat, ch: ChanId): Option<State> {
    if sub in s.cs.subs || ch in s.cs.owner || concurrency == 0 then None
    else Some(s.(mq := s.mq.(live := s.mq.live + {ch}),
                 cs := s.cs.(subs := s.cs.subs[sub := Sub(queue, concurrency, ch)],
                             owner := s.cs.owner[ch := sub], sem := s.cs.sem[ch := 0])))
  }

  /** `runWithReconnect` rebinds: the new channel consumes before `swapChannel` makes it the current one. */
  function RebindStep(s: State, sub: SubId, ch: ChanId): Option<State> {
    if sub !in s.cs.subs || ch in s.cs.owner then None
    else Some(s.(mq := s.mq.(live := s.mq.live + {ch}),
                 cs := s.cs.(owner := s.cs.owner[ch := sub], sem := s.cs.sem[ch := 0])))
  }

  function SwapStep(s: State, sub: SubId, ch: ChanId): Option<State> {
    if sub !in s.cs.subs || ch !in s.cs.owner || s.cs.owner[ch] != sub then None
    else Some(s.(cs := s.cs.(subs := s.cs.subs[sub := s.cs.subs[sub].(current := ch)])))
  }

  function DeliverStep(s: State, tag: Tag, m: MsgId, ch: ChanId): Option<State> {
    if m !in s.mq.ready || m !in s.mq.msgs || tag in s.cs.runs || ch !in s.mq.live || ch !in s.cs.owner
       || s.cs.owner[ch] !in s.cs.subs || s.cs.subs[s.cs.owner[ch]].queue != s.mq.msgs[m].queue then None
    else
      var run := Run(m, s.mq.msgs[m], ch, Buffered, None, false);
      Some(s.(mq := s.mq.(ready := s.mq.ready - {m}, unacked := s.mq.unacked[tag := m]),
              cs := s.cs.(runs := s.cs.runs[tag := run])))
  }

  function SetRun(cs: Consumers, tag: Tag, run: Run): Consumers {
    cs.(runs := cs.runs[tag := run])
  }

  /** `sem <- struct{}{}` and the goroutine starts its handler. */
  function StartStep(s: State, tag: Tag): Option<State> {
    if tag !in s.cs.runs || s.cs.runs[tag].at != Buffered then None else
      var ch := s.cs.runs[tag].ch;
      if ch !in s.cs.owner || s.cs.owner[ch] !in s.cs.subs || ch !in s.cs.sem
         || s.cs.sem[ch] >= s.cs.subs[s.cs.owner[ch]].concurrency then None
      else Some(s.(cs := SetRun(s.cs, tag, s.cs.runs[tag].(at := Handling)).(sem := s.cs.sem[ch := s.cs.sem[ch] + 1])))
  }

  function ReturnStep(s: State, tag: Tag, result: Result): Option<State> {
    if tag !in s.cs.runs || s.cs.runs[tag].at != Handling then None
    else Some(s.(cs := SetRun(s.cs, tag, s.cs.runs[tag].(at := Replying, result := Some(result)))))
  }

  /** `wrap` after the reply: an error nacks for good, a failed reply requeues, else ack. */
  function Judge(result: Result, sent: bool): Verdict {
    if result.Err? then Nack(false) else if sent then Ack else Nack(true)
  }

  /** The reply goes over the subscription's current channel, not the one that delivered. */
  predicate CanReply(s: State, run: Run, fails: bool) {
    && run.raw.replyTo.Some? && !fails
    && run.ch in s.cs.owner && s.cs.owner[run.ch] in s.cs.subs
    && s.cs.subs[s.cs.owner[run.ch]].current in s.mq.live
  }

  function SendReplyStep(s: State, tag: Tag, fails: bool): Option<State> {
    if tag !in s.cs.runs || s.cs.runs[tag].at != Replying || s.cs.runs[tag].result.None? then None else
      var run := s.cs.runs[tag];
      var sent := CanReply(s, run, fails);
      var run' := run.(at := Settling(Judge(run.result.value, sent)), replied := sent);
      Some(s.(cs := SetRun(s.cs, tag, run'),
              reqs := if !sent then s.reqs else
                Arrive(s.reqs, run.raw.replyTo.value, Reply(run.raw.corr, run.result.value.body, Some(tag)))))
  }

  /** The ack or nack goes over the channel that delivered; the slot is freed. */
  function SettleStep(s: State, tag: Tag): Option<State> {
    if tag !in s.cs.runs || !s.cs.runs[tag].at.Settling? || s.cs.runs[tag].ch !in s.cs.sem
       || s.cs.sem[s.cs.runs[tag].ch] == 0 then None
    else
      var run := s.cs.runs[tag];
      Some(s.(mq := Settled(s.mq, tag, run.ch, run.at.verdict),
              cs := SetRun(s.cs, tag, run.(at := Done)).(sem := s.cs.sem[run.ch := s.cs.sem[run.ch] - 1])))
  }

  // ---------------------------------------------------------------- requests

  /** A reply reaches its queue if the queue still exists; otherwise the broker drops it. */
  function Arrive(reqs: map<ReqId, Req>, r: ReqId, reply: Reply): map<ReqId, Req> {
    if r in reqs && reqs[r].state.Waiting? then reqs[r := reqs[r].(queue := reqs[r].queue + [reply])] else reqs
  }

  function PublishStep(s: State, m: MsgId, msg: Msg): Option<State> {
    if m in s.mq.msgs || msg.replyTo.Some? then None else Some(s.(mq := Post(s.mq, m, msg)))
  }

  /** `Request` publishes with its own reply queue and correlation id. */
  function RequestStep(s: State, r: ReqId, m: MsgId, msg: Msg): Option<State> {
    if m in s.mq.msgs || r in s.reqs || msg.replyTo != Some(r) then None
    else Some(s.(mq := Post(s.mq, m, msg), reqs := s.reqs[r := Req(m, msg.corr, [], Waiting)]))
  }

  /** A stale reply of some other call turns up in the queue. */
  function StrayStep(s: State, r: ReqId, corr: string, body: Bytes): Option<State> {
    if r !in s.reqs || corr == s.reqs[r].corr then None
    else Some(s.(reqs := Arrive(s.reqs, r, Reply(corr, body, None))))
  }

  /** One turn of the reply loop: skip a reply with a foreign correlation id, return the first match. */
  function ReceiveStep(s: State, r: ReqId): Option<State> {
    if r !in s.reqs || !s.reqs[r].state.Waiting? || s.reqs[r].queue == [] then None else
      var q := s.reqs[r];
      var reply := q.queue[0];
      Some(s.(reqs := s.reqs[r := q.(queue := q.queue[1..],
        state := if reply.corr != q.corr then Waiting else Returned(reply))]))
  }

  /** Timeout, cancellation or the death of the request's own channel. */
  function GiveUpStep(s: State, r: ReqId): Option<State> {
    if r !in s.reqs || !s.reqs[r].state.Waiting? then None
    else Some(s.(reqs := s.reqs[r := s.reqs[r].(queue := [], state := Gone)]))
  }

  function Step(s: State, e: Event): Option<State> {
    match e
    case Publish(m, msg) => PublishStep(s, m, msg)
    case Request(r, m, msg) => RequestStep(s, r, m, msg)
    case Consume(sub, queue, n, ch) => ConsumeStep(s, sub, queue, n, ch)
    case Rebind(sub, ch) => RebindStep(s, sub, ch)
    case Swap(sub, ch) => SwapStep(s, sub, ch)
    case Kill(ch) => KillStep(s, ch)
    case Deliver(tag, m, ch) => DeliverStep(s, tag, m, ch)
    case Start(tag) => StartStep(s, tag)
    case Return(tag, result) => ReturnStep(s, tag, result)
    case SendReply(tag, fails) => SendReplyStep(s, tag, fails)
    case Settle(tag) => SettleStep(s, tag)
    case Stray(r, corr, body) => StrayStep(s, r, corr, body)
    case Receive(r) => ReceiveStep(s, r)
    case GiveUp(r) => GiveUpStep(s, r)
  }

  ghost predicate Next(s: State, s': State) {
    exists e :: Step(s, e) == Some(s')
  }

  ghost predicate NextAt(p: seq<State>, i: nat)
    requires i + 1 < |p|
  {
    Next(p[i], p[i + 1])
  }

  ghost predicate IsRun(p: seq<State>) {
    |p| > 0 && Init(p[0]) && forall i: nat :: i + 1 < |p| ==> NextAt(p, i)
  }
}
