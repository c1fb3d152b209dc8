/**
 One AMQP delivery inside `deliverLoop`: the `rpc.Delivery` handed to the handler with
 its Ack, Nack and Reply closures guarded by two `sync.Once`, and the fallback
 settlement after the handler returned.
 */
module Settlement {
  import opened Basics
  import opened AmqpDelivery

  /** What a handler may call on its delivery. */
  datatype Call = CallAck | CallNack(requeue: bool) | CallReply(body: Bytes, contentType: string)

  /** What reaches the broker. */
  datatype Sent = SentSettle(verdict: Verdict) | SentReply(body: Bytes, contentType: string)

  const DEFAULT_CONTENT_TYPE := "application/json"

  function OrDefault(contentType: string): string {
    if contentType == "" then DEFAULT_CONTENT_TYPE else contentType
  }

  /** The settlements, and the replies, among what was sent. */
  function Settles(log: seq<Sent>): seq<Verdict> {
    if log == [] then [] else
      var last := log[|log| - 1];
      Settles(log[..|log| - 1]) + if last.SentSettle? then [last.verdict] else []
  }

  function Replies(log: seq<Sent>): seq<(Bytes, string)> {
    if log == [] then [] else
      var last := log[|log| - 1];
      Replies(log[..|log| - 1]) + if last.SentReply? then [(last.body, last.contentType)] else []
  }

  lemma LogGrows(log: seq<Sent>, x: Sent)
    ensures Settles(log + [x]) == Settles(log) + (if x.SentSettle? then [x.verdict] else [])
    ensures Replies(log + [x]) == Replies(log) + (if x.SentReply? then [(x.body, x.contentType)] else [])
  {
    assert (log + [x])[..|log|] == log;
  }

  /** The verdict, and the reply, that one call asks for. */
  function AskedSettle(c: Call): seq<Verdict> {
    match c
    case CallAck => [Ack]
    case CallNack(requeue) => [Nack(requeue)]
    case CallReply(_, _) => []
  }

  function AskedReply(c: Call): seq<(Bytes, string)> {
    match c
    case CallReply(body, contentType) => [(body, OrDefault(contentType))]
    case _ => []
  }

  /** The verdicts and the replies a handler asked for, in order. */
  function AskedSettles(calls: seq<Call>): seq<Verdict> {
    if calls == [] then [] else AskedSettles(calls[..|calls| - 1]) + AskedSettle(calls[|calls| - 1])
  }

  function AskedReplies(calls: seq<Call>): seq<(Bytes, string)> {
    if calls == [] then [] else AskedReplies(calls[..|calls| - 1]) + AskedReply(calls[|calls| - 1])
  }

  function First<T>(s: seq<T>): seq<T> {
    if s == [] then [] else s[..1]
  }

  lemma FirstOf<T>(a: seq<T>, b: seq<T>)
    ensures First(First(a) + b) == First(a + b) == if a == [] then First(b) else First(a)
  {
  }

  /** What one more call adds to what was asked for first. */
  lemma AskedUpTo(calls: seq<Call>, i: nat)
    requires i < |calls|
    ensures First(AskedSettles(calls[..i + 1])) == First(First(AskedSettles(calls[..i])) + AskedSettle(calls[i]))
    ensures First(AskedReplies(calls[..i + 1]))
            == if AskedReplies(calls[..i]) == [] then AskedReply(calls[i]) else First(AskedReplies(calls[..i]))
    ensures AskedReplies(calls[..i + 1]) == [] <==> AskedReplies(calls[..i]) == [] && AskedReply(calls[i]) == []
  {
    assert calls[..i + 1][..i] == calls[..i];
    FirstOf(AskedSettles(calls[..i]), AskedSettle(calls[i]));
    FirstOf(AskedReplies(calls[..i]), AskedReply(calls[i]));
    assert AskedReply(calls[i]) == First(AskedReply(calls[i]));
  }

  /** The first call that is no reply is the settlement asked for first. */
  lemma {:induction false} FirstSettleAsked(calls: seq<Call>, i: nat)
    requires i < |calls| && !calls[i].CallReply? && forall k :: 0 <= k < i ==> calls[k].CallReply?
    ensures First(AskedSettles(calls)) == [if calls[i].CallAck? then Ack else Nack(calls[i].requeue)]
  {
    var init := calls[..|calls| - 1];
    if i < |init| {
      FirstSettleAsked(init, i);
      FirstOf(AskedSettles(init), AskedSettle(calls[|calls| - 1]));
    } else {
      NoSettleAsked(init);
    }
  }

  lemma {:induction false} NoSettleAsked(calls: seq<Call>)
    requires forall k :: 0 <= k < |calls| ==> calls[k].CallReply?
    ensures AskedSettles(calls) == []
  {
    if calls != [] {
      NoSettleAsked(calls[..|calls| - 1]);
    }
  }

  /** The first reply called for is the one asked for first. */
  lemma {:induction false} FirstReplyAsked(calls: seq<Call>, i: nat)
    requires i < |calls| && calls[i].CallReply? && forall k :: 0 <= k < i ==> !calls[k].CallReply?
    ensures First(AskedReplies(calls))
            == [(calls[i].body, if calls[i].contentType == "" then "application/json" else calls[i].contentType)]
  {
    var init := calls[..|calls| - 1];
    if i < |init| {
      FirstReplyAsked(init, i);
      FirstOf(AskedReplies(init), AskedReply(calls[|calls| - 1]));
    } else {
      NoReplyAsked(init);
    }
  }

  lemma {:induction false} NoReplyAsked(calls: seq<Call>)
    requires forall k :: 0 <= k < |calls| ==> !calls[k].CallReply?
    ensures AskedReplies(calls) == []
  {
    if calls != [] {
      NoReplyAsked(calls[..|calls| - 1]);
    }
  }

  /** The closures of one delivery and the broker operations they made. */
  class Delivery {
    const replyTo: string
    /** Whether the publish of a reply over the subscription's current channel goes through. */
    const replyGoes: bool
    /** Whether the delivering channel still accepts the settlement. */
    const settleGoes: bool

    var settled: bool
    var replied: bool
    var log: seq<Sent>

    ghost predicate Valid()
      reads this
    {
      settled == (Settles(log) != []) && |Settles(log)| <= 1 && |Replies(log)| <= 1 && (!replied ==> Replies(log) == [])
    }

    constructor (replyTo: string, replyGoes: bool, settleGoes: bool)
      ensures Valid() && log == [] && !settled && !replied
      ensures this.replyTo == replyTo && this.replyGoes == replyGoes && this.settleGoes == settleGoes
    {
      this.replyTo, this.replyGoes, this.settleGoes := replyTo, replyGoes, settleGoes;
      settled, replied, log := false, false, [];
    }

    /** `settleOnce.Do`: the first settlement goes to the broker, every later one is dropped and reports no error. */
    method SettleOnce(v: Verdict) returns (ok: bool)
      requires Valid()
      modifies this`settled, this`log
      ensures Valid() && settled
      ensures log == if old(settled) then old(log) else old(log) + [SentSettle(v)]
      ensures ok == (old(settled) || settleGoes)
    {
      ok := true;
      if !settled {
        LogGrows(log, SentSettle(v));
        settled, log, ok := true, log + [SentSettle(v)], settleGoes;
      }
    }

    /** `Delivery.Reply`: at most one publish, and none without a reply_to. */
    method Reply(body: Bytes, contentType: string) returns (ok: bool)
      requires Valid()
      modifies this`replied, this`log
      ensures Valid()
      ensures replied == (old(replied) || replyTo != "")
      ensures log == if replyTo == "" || old(replied) then old(log)
                     else old(log) + [SentReply(body, if contentType == "" then "application/json" else contentType)]
      ensures ok == (replyTo != "" && (old(replied) || replyGoes))
    {
      if replyTo == "" {
        return false;
      }
      ok := true;
      if !replied {
        LogGrows(log, SentReply(body, OrDefault(contentType)));
        replied, log, ok := true, log + [SentReply(body, OrDefault(contentType))], replyGoes;
      }
    }

    /** One call of the handler on its delivery. */
    method Perform(c: Call)
      requires Valid()
      modifies this
      ensures Valid()
      ensures Settles(log) == First(old(Settles(log)) + AskedSettle(c))
      ensures Replies(log) == if replyTo == "" || old(replied) then old(Replies(log)) else AskedReply(c)
      ensures replied == (old(replied) || (replyTo != "" && AskedReply(c) != []))
    {
      match c {
        case CallAck =>
          LogGrows(log, SentSettle(Ack));
          var _ := SettleOnce(Ack);
        case CallNack(requeue) =>
          LogGrows(log, SentSettle(Nack(requeue)));
          var _ := SettleOnce(Nack(requeue));
        case CallReply(body, contentType) =>
          LogGrows(log, SentReply(body, OrDefault(contentType)));
          var _ := Reply(body, contentType);
      }
    }

    /** A handler that makes `calls` in this order. */
    method Handle(calls: seq<Call>)
      requires Valid() && log == [] && !replied
      modifies this
      ensures Valid()
      ensures Settles(log) == First(AskedSettles(calls))
      ensures Replies(log) == if replyTo == "" then [] else First(AskedReplies(calls))
    {
      for i := 0 to |calls|
        invariant Valid()
        invariant Settles(log) == First(AskedSettles(calls[..i]))
        invariant Replies(log) == if replyTo == "" then [] else First(AskedReplies(calls[..i]))
        invariant replied == (replyTo != "" && AskedReplies(calls[..i]) != [])
      {
        AskedUpTo(calls, i);
        Perform(calls[i]);
      }
      assert calls[..|calls|] == calls;
    }

    /**
     The goroutine of `deliverLoop` around a handler that makes `calls` in this order and then
     returns: exactly one settlement, the first one asked for or else the fallback, and at most
     one reply, the first one asked for.
     */
    method Run(calls: seq<Call>, failed: bool)
      requires Valid() && log == [] && !replied
      modifies this
      ensures Valid() && settled
      ensures Settles(log) == First(AskedSettles(calls) + [if failed then Nack(false) else Ack])
      ensures Replies(log) == if replyTo == "" then [] else First(AskedReplies(calls))
    {
      var fallback := if failed then Nack(false) else Ack;
      Handle(calls);
      FirstOf(AskedSettles(calls), [fallback]);
      LogGrows(log, SentSettle(fallback));
      var _ := SettleOnce(fallback);
    }

    /** `wrap` around a handler with this result; it returns the error of its settlement. */
    method Wrap(result: Result, contentType: string) returns (ok: bool)
      requires Valid() && log == [] && !replied
      modifies this
      ensures Valid() && settled
      ensures Settles(log) == [match result
                               case Err(_) => Nack(false)
                               case Ok(_) => if replyTo != "" && replyGoes then Ack else Nack(true)]
      ensures Replies(log) == if replyTo == "" then []
                              else [(result.body, if result.Err? || contentType == "" then "application/json"
                                                  else contentType)]
    {
      match result {
        case Err(envelope) =>
          LogGrows(log, SentReply(envelope, DEFAULT_CONTENT_TYPE));
          var _ := Reply(envelope, DEFAULT_CONTENT_TYPE);
          LogGrows(log, SentSettle(Nack(false)));
          ok := SettleOnce(Nack(false));
        case Ok(body) =>
          LogGrows(log, SentReply(body, OrDefault(contentType)));
          var sent := Reply(body, contentType);
          LogGrows(log, SentSettle(if sent then Ack else Nack(true)));
          ok := SettleOnce(if sent then Ack else Nack(true));
      }
    }

    /**
     The goroutine of `deliverLoop` around a handler wrapped by `wrap`: the settlement depends only on
     the handler's error and the reply's error, as the step system `AmqpDelivery` has it.
     */
    method RunWrapped(result: Result, contentType: string)
      requires Valid() && log == [] && !replied
      modifies this
      ensures Valid() && settled
      ensures Settles(log) == [match result
                               case Err(_) => Nack(false)
                               case Ok(_) => if replyTo != "" && replyGoes then Ack else Nack(true)]
      ensures Settles(log) == [Judge(result, replyTo != "" && replyGoes)]
      ensures Replies(log) == if replyTo == "" then []
                              else [(result.body, if result.Err? || contentType == "" then "application/json"
                                                  else contentType)]
    {
      var ok := Wrap(result, contentType);
      // deliverLoop's fallback, taken with the error that wrap returned
      var _ := SettleOnce(if ok then Ack else Nack(false));
    }
  }
}
