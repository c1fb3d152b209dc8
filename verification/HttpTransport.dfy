/**
 The HTTP transport of `rpc/http/http.go`: the JSON envelope both ways, the fallback for
 bodies that are not envelopes, and the write-once response of `serveHTTP`.

 JSON and base64 themselves are a parameter, `Codec`; the envelope is modelled at the
 level of JSON objects. A nil and an empty body, and nil and empty headers, are identified.
 */
module HttpTransport {
  import opened Basics
  import AmqpDelivery
  import opened Settlement

  /** The value of a member of a JSON object, as far as an envelope cares. */
  datatype Field = Nil | Text(s: string) | Dict(m: map<string, string>) | Other

  /** Member names; the ones an envelope does not know are ignored. */
  datatype Name = CorrelationId | ReplyTo | Headers | ContentType | Body | Unknown(name: string)

  type Obj = map<Name, Field>

  datatype Codec = Codec(
    marshal: Obj -> Bytes, unmarshal: Bytes -> Option<Obj>,
    b64: Bytes -> string, unb64: string -> Option<Bytes>)

  /** What the code relies on: base64 reads back, and so does the JSON text of an encoded envelope. */
  ghost predicate Faithful(c: Codec) {
    && (forall b :: c.unb64(c.b64(b)) == Some(b))
    && (forall e :: Wire(c, e) != [] && c.unmarshal(Wire(c, e)) == Some(Encode(c, e)))
  }

  /** `rpc.Envelope` */
  datatype Envelope = Envelope(
    corr: string, replyTo: string, headers: map<string, string>, contentType: string, body: Bytes)

  const EMPTY := Envelope("", "", map[], "", [])

  datatype Request = Request(corr: string, headers: map<string, string>, contentType: string, body: Bytes)

  datatype Reply = Reply(body: Bytes, contentType: string, headers: map<string, string>, corr: string)

  // ----------------------------------------------------------------- envelope

  function TextMember(name: Name, s: string): Obj {
    if s == "" then map[] else map[name := Text(s)]
  }

  /** `json.Marshal` of an envelope: every field but the body is omitted when empty. */
  function Encode(c: Codec, e: Envelope): Obj {
    TextMember(CorrelationId, e.corr) + TextMember(ReplyTo, e.replyTo)
    + (if e.headers == map[] then map[] else map[Headers := Dict(e.headers)])
    + TextMember(ContentType, e.contentType)
    + map[Body := if e.body == [] then Nil else Text(c.b64(e.body))]
  }

  function TextOf(o: Obj, name: Name): Option<string> {
    if name !in o || o[name].Nil? then Some("") else if o[name].Text? then Some(o[name].s) else None
  }

  function DictOf(o: Obj, name: Name): Option<map<string, string>> {
    if name !in o || o[name].Nil? then Some(map[]) else if o[name].Dict? then Some(o[name].m) else None
  }

  function BodyOf(c: Codec, o: Obj): Option<Bytes> {
    match TextOf(o, Body)
    case None => None
    case Some(s) => if Body !in o || o[Body].Nil? then Some([]) else c.unb64(s)
  }

  /** `json.Unmarshal` into an envelope: unknown members are ignored, a member of the wrong type is an error. */
  function Decode(c: Codec, o: Obj): Option<Envelope> {
    match (TextOf(o, CorrelationId), TextOf(o, ReplyTo), DictOf(o, Headers), TextOf(o, ContentType), BodyOf(c, o))
    case (Some(corr), Some(to), Some(headers), Some(ct), Some(body)) => Some(Envelope(corr, to, headers, ct, body))
    case _ => None
  }

  lemma TextsSurvive(c: Codec, e: Envelope)
    ensures TextOf(Encode(c, e), CorrelationId) == Some(e.corr)
    ensures TextOf(Encode(c, e), ReplyTo) == Some(e.replyTo)
    ensures TextOf(Encode(c, e), ContentType) == Some(e.contentType)
  {
  }

  lemma HeadersSurvive(c: Codec, e: Envelope)
    ensures DictOf(Encode(c, e), Headers) == Some(e.headers)
  {
  }

  lemma BodySurvives(c: Codec, e: Envelope)
    requires Faithful(c)
    ensures BodyOf(c, Encode(c, e)) == Some(e.body)
  {
  }

  lemma DecodeEncode(c: Codec, e: Envelope)
    requires Faithful(c)
    ensures Decode(c, Encode(c, e)) == Some(e)
  {
    TextsSurvive(c, e);
    HeadersSurvive(c, e);
    BodySurvives(c, e);
  }

  function Wire(c: Codec, e: Envelope): Bytes {
    c.marshal(Encode(c, e))
  }

  function Unwire(c: Codec, raw: Bytes): Option<Envelope> {
    match c.unmarshal(raw)
    case None => None
    case Some(o) => Decode(c, o)
  }

  lemma UnwireWire(c: Codec, e: Envelope)
    requires Faithful(c)
    ensures Unwire(c, Wire(c, e)) == Some(e) && Wire(c, e) != []
  {
    DecodeEncode(c, e);
  }

  // ------------------------------------------------------------- request path

  /** What `Request` posts. */
  function RequestWire(c: Codec, req: Request): Bytes {
    Wire(c, Envelope(req.corr, "", req.headers, req.contentType, req.body))
  }

  /** Nothing in it tells the envelope from an arbitrary JSON object. */
  predicate Anonymous(e: Envelope) {
    e.body == [] && e.corr == "" && e.headers == map[] && e.replyTo == ""
  }

  /** The envelope `serveHTTP` makes of a request body, with its fallback to the raw body. */
  function Inbound(c: Codec, raw: Bytes): Envelope {
    if raw == [] then EMPTY else
      match Unwire(c, raw)
      case None => EMPTY.(body := raw)
      case Some(e) => if Anonymous(e) then EMPTY.(body := raw) else e
  }

  /** An envelope arrives as it was sent if and only if something but its content type is non-empty. */
  lemma EnvelopeArrivesIff(c: Codec, e: Envelope)
    requires Faithful(c)
    ensures Inbound(c, Wire(c, e)) == e <==> e.body != [] || e.corr != "" || e.headers != map[] || e.replyTo != ""
    ensures Inbound(c, Wire(c, e)) == e || Inbound(c, Wire(c, e)) == Envelope("", "", map[], "", Wire(c, e))
    ensures Inbound(c, []) == Envelope("", "", map[], "", [])
  {
    UnwireWire(c, e);
  }

  predicate Delivers(e: Envelope, req: Request) {
    e.body == req.body && e.contentType == req.contentType && e.headers == req.headers && e.corr == req.corr
  }

  /**
   The handler is given the request's body, content type, headers and correlation id if and only
   if body, headers or correlation id is non-empty; otherwise its body is the encoded envelope.
   */
  lemma RequestArrivesIff(c: Codec, req: Request)
    requires Faithful(c)
    ensures var e := Inbound(c, RequestWire(c, req));
            && (Delivers(e, req) <==> req.body != [] || req.headers != map[] || req.corr != "")
            && (!Delivers(e, req) ==> e == EMPTY.(body := RequestWire(c, req)))
            && e.corr == req.corr
  {
    UnwireWire(c, Envelope(req.corr, "", req.headers, req.contentType, req.body));
  }

  /** A client that knows nothing of envelopes gets its body through verbatim. */
  lemma PlainBodyArrives(c: Codec, raw: Bytes)
    requires match c.unmarshal(raw)
             case None => true
             case Some(o) => {CorrelationId, ReplyTo, Headers, Body} !! o.Keys
    ensures Inbound(c, raw) == EMPTY.(body := raw)
  {
  }

  // --------------------------------------------------------------- reply path

  function ReplyWire(c: Codec, corr: string, body: Bytes, contentType: string): Bytes {
    Wire(c, Envelope(corr, "", map[], contentType, body))
  }

  datatype Answer = Answered(reply: Reply) | EndpointUnknown | RemoteError(status: nat)

  /** What `Request` makes of the response. */
  function ClientAnswer(c: Codec, req: Request, status: nat, raw: Bytes, header: string): Answer {
    if status == 404 then EndpointUnknown
    else if status >= 400 then RemoteError(status)
    else
      match Unwire(c, raw)
      case None => Answered(Reply(raw, header, map[], req.corr))
      case Some(e) => Answered(Reply(e.body, e.contentType, e.headers, e.corr))
  }

  /** A reply comes back intact, with the request's correlation id, for every request. */
  lemma ReplyReturns(c: Codec, req: Request, body: Bytes, contentType: string, header: string)
    requires Faithful(c)
    ensures var corr := Inbound(c, RequestWire(c, req)).corr;
            ClientAnswer(c, req, 200, ReplyWire(c, corr, body, contentType), header)
            == Answered(Reply(body, contentType, map[], req.corr))
  {
    RequestArrivesIff(c, req);
    UnwireWire(c, Envelope(req.corr, "", map[], contentType, body));
  }

  /** What the client makes of a status, and of a body that is no envelope. */
  lemma ClientErrors(c: Codec, req: Request, status: nat, raw: Bytes, header: string)
    ensures status == 404 ==> ClientAnswer(c, req, status, raw, header) == EndpointUnknown
    ensures status != 404 && status >= 400 ==> ClientAnswer(c, req, status, raw, header) == RemoteError(status)
    ensures status < 400 && c.unmarshal(raw).None? ==>
              ClientAnswer(c, req, status, raw, header) == Answered(Reply(raw, header, map[], req.corr))
  {
  }

  /** An envelope in the response is what the client returns, headers and correlation id included. */
  lemma EnvelopeAnswers(c: Codec, req: Request, status: nat, e: Envelope, header: string)
    requires Faithful(c) && status < 400
    ensures ClientAnswer(c, req, status, Wire(c, e), header)
            == Answered(Reply(e.body, e.contentType, e.headers, e.corr))
  {
    UnwireWire(c, e);
  }

  // ----------------------------------------------------------- write-once response

  /** The first Reply or Nack of a handler decides the response. */
  function Deciding(calls: seq<Call>): Option<Call> {
    if calls == [] then None else if calls[0].CallAck? then Deciding(calls[1..]) else Some(calls[0])
  }

  lemma {:induction false} DecidingPrefix(calls: seq<Call>, i: nat)
    requires i < |calls|
    ensures Deciding(calls[..i + 1])
            == if Deciding(calls[..i]).Some? then Deciding(calls[..i]) else Deciding([calls[i]])
  {
    if i == 0 {
      assert calls[..1] == [calls[0]];
    } else if calls[0].CallAck? {
      DecidingPrefix(calls[1..], i - 1);
      assert calls[1..][..i] == calls[..i + 1][1..] && calls[1..][..i - 1] == calls[..i][1..];
    }
  }

  /** The response a deciding call makes: status and body. */
  function Responds(c: Codec, corr: string, call: Call): (nat, Bytes) {
    match call
    case CallReply(body, contentType) => (200, ReplyWire(c, corr, body, OrDefault(contentType)))
    case CallNack(requeue) => (if requeue then 503 else 500, [])
    case CallAck => (200, [])
  }

  /** `http.ResponseWriter` together with the `replied` flag that `serveHTTP` captures. */
  class Response {
    var status: Option<nat>
    var written: Bytes
    var superfluous: nat  // headers written after the response was committed
    var replied: bool

    constructor ()
      ensures status == None && written == [] && superfluous == 0 && !replied
    {
      status, written, superfluous, replied := None, [], 0, false;
    }

    method WriteHeader(code: nat)
      modifies this`status, this`superfluous
      ensures old(status).None? ==> status == Some(code) && superfluous == old(superfluous)
      ensures old(status).Some? ==> status == old(status) && superfluous == old(superfluous) + 1
    {
      if status.None? {
        status := Some(code);
      } else {
        superfluous := superfluous + 1;
      }
    }

    /** The first write commits a 200. */
    method Write(out: Bytes)
      modifies this`status, this`written
      ensures written == old(written) + out
      ensures status == if old(status).None? then Some(200) else old(status)
    {
      if status.None? {
        status := Some(200);
      }
      written := written + out;
    }

    /** A handler's call on the delivery: the reply, ack and nack closures. */
    method Perform(c: Codec, corr: string, call: Call)
      requires replied == status.Some? && (!replied ==> written == [])
      modifies this
      ensures replied == status.Some? && superfluous == old(superfluous)
      ensures if old(replied) || call.CallAck? then status == old(status) && written == old(written)
              else status == Some(Responds(c, corr, call).0) && written == Responds(c, corr, call).1
    {
      match call {
        case CallReply(body, contentType) =>
          if !replied {
            replied := true;
            Write(ReplyWire(c, corr, body, OrDefault(contentType)));
          }
        case CallNack(requeue) =>
          if !replied {
            replied := true;
            WriteHeader(if requeue then 503 else 500);
          }
        case CallAck =>
      }
    }

    /**
     `serveHTTP` around a handler that makes `calls` and then returns: exactly one response is
     committed and nothing is written over it, whatever the handler does.
     */
    method Serve(c: Codec, corr: string, calls: seq<Call>, failed: Option<Bytes>)
      requires status == None && written == [] && superfluous == 0 && !replied
      modifies this
      ensures superfluous == 0 && status.Some?
      ensures (status.value, written) ==
              match Deciding(calls)
              case Some(call) => Responds(c, corr, call)
              case None => if failed.Some? then (500, failed.value) else (200, Wire(c, EMPTY.(corr := corr)))
    {
      var i := 0;
      while i < |calls|
        invariant 0 <= i <= |calls| && superfluous == 0 && replied == status.Some?
        invariant if Deciding(calls[..i]).None? then status == None && written == []
                  else status.Some? && (status.value, written) == Responds(c, corr, Deciding(calls[..i]).value)
      {
        DecidingPrefix(calls, i);
        Perform(c, corr, calls[i]);
        i := i + 1;
      }
      assert calls[..i] == calls;
      if failed.Some? {
        if !replied {
          replied := true;
          WriteHeader(500);
          Write(failed.value);
          assert written == failed.value;
        }
        return;
      }
      if !replied {
        Write(Wire(c, EMPTY.(corr := corr)));
        assert written == Wire(c, EMPTY.(corr := corr));
      }
    }

    /** `http.Error` */
    method Error(code: nat, text: Bytes)
      requires status == None
      modifies this`status, this`written, this`superfluous
      ensures status == Some(code) && written == old(written) + text && superfluous == old(superfluous)
    {
      WriteHeader(code);
      Write(text);
    }

    /**
     `serveHTTP` from the door on: a closed subscription and a client that gave up while waiting
     for a slot get a 503, an unreadable body a 400; an admitted request is served.
     */
    method ServeHTTP(c: Codec, closed: bool, admitted: bool, raw: Option<Bytes>, text: Bytes,
                     calls: seq<Call>, failed: Option<Bytes>)
      requires status == None && written == [] && superfluous == 0 && !replied
      modifies this
      ensures superfluous == 0 && status.Some?
      ensures closed || !admitted ==> status == Some(503)
      ensures !closed && admitted && raw.None? ==> status == Some(400)
      ensures !closed && admitted && raw.Some? ==>
                var corr := Inbound(c, raw.value).corr;
                (status.value, written) ==
                match Deciding(calls)
                case Some(call) => Responds(c, corr, call)
                case None => if failed.Some? then (500, failed.value) else (200, Wire(c, EMPTY.(corr := corr)))
    {
      if closed || !admitted {
        Error(503, text);
      } else if raw.None? {
        Error(400, text);
      } else {
        Serve(c, Inbound(c, raw.value).corr, calls, failed);
      }
    }
  }

  /**
   A request over HTTP to any handler, there and back: its first Reply returns intact, its first
   Nack is an error of status 503 or 500, and a handler that decides nothing gives an empty reply,
   or a 500 if it failed.
   */
  method CallHandlerOverHttp(c: Codec, req: Request, calls: seq<Call>, failed: Option<Bytes>) returns (answer: Answer)
    requires Faithful(c)
    ensures match Deciding(calls)
            case Some(CallReply(body, ct)) =>
              answer == Answered(Reply(body, if ct == "" then "application/json" else ct, map[], req.corr))
            case Some(CallNack(requeue)) => answer == RemoteError(if requeue then 503 else 500)
            case Some(CallAck) => true
            case None => answer == if failed.Some? then RemoteError(500) else Answered(Reply([], "", map[], req.corr))
  {
    var w := new Response();
    w.ServeHTTP(c, false, true, Some(RequestWire(c, req)), [], calls, failed);
    RequestArrivesIff(c, req);
    if Deciding(calls).Some? && Deciding(calls).value.CallReply? {
      var call := Deciding(calls).value;
      ReplyReturns(c, req, call.body, OrDefault(call.contentType), DEFAULT_CONTENT_TYPE);
    }
    UnwireWire(c, EMPTY.(corr := req.corr));
    answer := ClientAnswer(c, req, w.status.value, w.written, DEFAULT_CONTENT_TYPE);
  }

  lemma {:induction false} DecidingIsFirst(calls: seq<Call>, i: nat)
    requires i < |calls| && !calls[i].CallAck? && forall k :: 0 <= k < i ==> calls[k].CallAck?
    ensures Deciding(calls) == Some(calls[i])
  {
    if i > 0 {
      DecidingIsFirst(calls[1..], i - 1);
    }
  }

  /** The calls `wrap` makes, given the handler's result and whether the reply was written. */
  function WrapCalls(result: AmqpDelivery.Result, contentType: string, sent: bool): seq<Call> {
    match result
    case Err(envelope) => [CallReply(envelope, DEFAULT_CONTENT_TYPE), CallNack(false)]
    case Ok(body) => [CallReply(body, contentType), if sent then CallAck else CallNack(true)]
  }

  /**
   A request over HTTP to an adapter handler, there and back: always a 200, and the client
   reads exactly the handler's body, or the error envelope, under its own correlation id.
   */
  method CallOverHttp(c: Codec, req: Request, result: AmqpDelivery.Result, contentType: string,
                      sent: bool, failed: Option<Bytes>)
    returns (status: nat, answer: Answer)
    requires Faithful(c)
    ensures status == 200
    ensures answer == Answered(Reply(result.body,
                                     if result.Err? || contentType == "" then "application/json" else contentType,
                                     map[], req.corr))
  {
    var w := new Response();
    w.ServeHTTP(c, false, true, Some(RequestWire(c, req)), [], WrapCalls(result, contentType, sent), failed);
    ghost var envelope := Inbound(c, RequestWire(c, req));
    ghost var ct := if result.Err? then DEFAULT_CONTENT_TYPE else OrDefault(contentType);
    assert Deciding(WrapCalls(result, contentType, sent)).value == WrapCalls(result, contentType, sent)[0];
    assert w.status == Some(200) && w.written == ReplyWire(c, envelope.corr, result.body, ct);
    ReplyReturns(c, req, result.body, ct, DEFAULT_CONTENT_TYPE);
    status := w.status.value;
    answer := ClientAnswer(c, req, status, w.written, DEFAULT_CONTENT_TYPE);
  }
}
