/**
 Dispatching one execute request through the reconcile table, with its best-effort event
 (`buildExecuteHandler`, `makeEnsureFn`, `makeObserveFn`, `makeDestroyFn` and `emit` of
 `sdk/reconcile`).
 */
module Dispatch {
  import opened Basics
  import opened Text
  import opened Reconcile
  import Events
  import Identity

  /** The `input` of a request: missing, or JSON that is an object or is not; null counts as the empty object. */
  datatype Input = Absent | Present(obj: Option<Identity.Obj>)

  datatype Execute = Execute(
    operation: string, capability: string, idempotency: string, instanceId: string, input: Input)

  /** A delivery body: not JSON, or an execute request (an empty body is the empty request). */
  datatype Delivery = BadJson | Parsed(req: Execute)

  /** What the reconciler made of a call: undecodable input, failure, a result that does not encode, or success. */
  datatype Did =
    | ParseFails
    | Fails
    | EncodeFails
    | Succeeds(body: Bytes, reflected: string, observed: Option<Identity.Obj>)

  datatype Failure = BadRequest | MissingOperation | Unsupported(op: string) | BadInput | HandlerError | BadResult

  datatype Reply = Ok(body: Bytes) | Error(why: Failure)

  /** The observed state of an event: the ensured state, or the tombstone of a destroy. */
  datatype Observed = State(body: Bytes) | Deleted(ref: string)

  datatype MutationEvent = MutationEvent(
    emitter: nat, eventType: string, provider: string, resource: string, verb: Events.Verb,
    resourceId: string, instanceId: string, idempotency: string, observed: Observed)

  /** Clock, digest and emitter of one dispatch. */
  datatype Env = Env(now: int, sha8: string -> string, emitFails: bool)

  const DELETED: Bytes := [123, 34, 100, 101, 108, 101, 116, 101, 100, 34, 58, 116, 114, 117, 101, 125]

  // ------------------------------------------------------------ destroy refs

  /** Decoding of `{"ref": string}`: None when the input is no object or its ref is no string. */
  function RefField(input: Input): Option<string> {
    match input
    case Absent => Some("")
    case Present(None) => None
    case Present(Some(m)) =>
      if "ref" !in m || m["ref"].Null? then Some("") else if m["ref"].Str? then Some(m["ref"].s) else None
  }

  function DestroyRef(input: Input, resource: string): Option<string> {
    match RefField(input)
    case None => None
    case Some(r) => Some(if r == "" && input.Present? then Identity.InferRef(input.obj, resource) else r)
  }

  // ----------------------------------------------------------- specification

  function OperationOf(req: Execute): string {
    if TrimSpace(req.operation) != "" then TrimSpace(req.operation) else TrimSpace(req.capability)
  }

  /** The table entry a delivery reaches. */
  function Lookup(t: Table, d: Delivery): Option<Fn> {
    if d.Parsed? && OperationOf(d.req) != "" && OperationOf(d.req) in t then Some(t[OperationOf(d.req)]) else None
  }

  /** The handler's answer, given what the reconciler did; emission is not in it. */
  function HandlerReply(h: Fn, req: Execute, did: Did): Reply
    requires h.Handler?
  {
    if h.op == Destroy && DestroyRef(req.input, h.reg.resource).None? then Error(BadInput)
    else
      match did
      case ParseFails => Error(BadInput)
      case Fails => Error(HandlerError)
      case EncodeFails => if h.op == Destroy then Ok(DELETED) else Error(BadResult)
      case Succeeds(body, _, _) => Ok(if h.op == Destroy then DELETED else body)
  }

  function ReplyOf(t: Table, d: Delivery, did: Did): Reply {
    match Lookup(t, d)
    case Some(fn) => HandlerReply(Target(fn), d.req, did)
    case None =>
      if d.BadJson? then Error(BadRequest)
      else if OperationOf(d.req) == "" then Error(MissingOperation)
      else Error(Unsupported(OperationOf(d.req)))
  }

  /** The event of a successful mutation. */
  function EventFor(h: Fn, emitter: nat, req: Execute, did: Did, env: Env): MutationEvent
    requires h.Handler? && h.op != Observe && HandlerReply(h, req, did).Ok?
  {
    var verb := if h.op == Ensure then Events.Ensured else Events.Destroyed;
    var id := if h.op == Ensure then Identity.InferId(did.reflected, did.observed, h.reg.resource)
              else DestroyRef(req.input, h.reg.resource).value;
    MutationEvent(
      emitter, Events.EventType(h.reg.provider, h.reg.resource, verb), h.reg.provider, h.reg.resource, verb, id,
      if req.instanceId != "" then req.instanceId else h.reg.instanceId,
      if req.idempotency != "" then req.idempotency
      else Events.SynthesizeKey(h.reg.provider, h.reg.resource, verb, id, env.now, env.sha8),
      if h.op == Ensure then State(did.body) else Deleted(id))
  }

  /** The delivery changed a resource through a registration with a wired emitter. */
  predicate Mutates(t: Table, d: Delivery, did: Did) {
    && ReplyOf(t, d, did).Ok?
    && var h := Target(Lookup(t, d).value);
       h.op != Observe && h.reg.emitter.Some?
  }

  function EventsOf(t: Table, d: Delivery, did: Did, env: Env): seq<MutationEvent> {
    if !Mutates(t, d, did) then [] else
      var h := Target(Lookup(t, d).value);
      [EventFor(h, h.reg.emitter.value, d.req, did, env)]
  }

  // ------------------------------------------------- what the specification says

  lemma DeletedText()
    ensures var text := "{\"deleted\":true}";
            |DELETED| == |text| && forall i :: 0 <= i < |text| ==> DELETED[i] == text[i] as int
  {
  }

  /** What the reconciler did makes a success: it succeeded, or it is a destroy, whose result is not encoded. */
  predicate Done(h: Fn, did: Did)
    requires h.Handler?
  {
    did.Succeeds? || (did.EncodeFails? && h.op == Destroy)
  }

  /** A dispatch mutates exactly when an ensure or destroy of a wired registration was done on readable input. */
  lemma MutatesIff(t: Table, d: Delivery, did: Did)
    ensures Mutates(t, d, did) <==>
              && Lookup(t, d).Some?
              && var h := Target(Lookup(t, d).value);
                 && h.op != Observe && h.reg.emitter.Some? && Done(h, did)
                 && (h.op == Destroy ==> DestroyRef(d.req.input, h.reg.resource).Some?)
  {
  }

  /** The identifier of a destroy: a given `ref`, else what the ladder finds; an unreadable one is an error. */
  lemma DestroyRefMeans(input: Input, resource: string)
    ensures input.Absent? ==> DestroyRef(input, resource) == Some("")
    ensures input.Present? && input.obj.None? ==> DestroyRef(input, resource) == None
    ensures input.Present? && input.obj.Some? ==>
              var m := input.obj.value;
              && ("ref" !in m || m["ref"] == Identity.Null || m["ref"] == Identity.Str("") ==>
                    DestroyRef(input, resource) == Some(Identity.InferRef(Some(m), resource)))
              && ("ref" in m && m["ref"].Str? && m["ref"].s != "" ==> DestroyRef(input, resource) == Some(m["ref"].s))
              && ("ref" in m && !m["ref"].Str? && !m["ref"].Null? ==> DestroyRef(input, resource) == None)
  {
  }

  /** The event of a mutation, member by member. */
  lemma EventMeans(h: Fn, emitter: nat, req: Execute, did: Did, env: Env)
    requires h.Handler? && h.op != Observe && HandlerReply(h, req, did).Ok?
    ensures var e, reg := EventFor(h, emitter, req, did, env), h.reg;
            && e.emitter == emitter && e.provider == reg.provider && e.resource == reg.resource
            && e.instanceId == (if req.instanceId == "" then reg.instanceId else req.instanceId)
            && (req.idempotency != "" ==> e.idempotency == req.idempotency)
            && (h.op == Ensure ==>
                  && e.verb == Events.Ensured && e.eventType == reg.provider + "." + reg.resource + ".ensured"
                  && e.resourceId == Identity.InferId(did.reflected, did.observed, reg.resource)
                  && e.observed == State(did.body))
            && (h.op == Destroy ==>
                  && e.verb == Events.Destroyed && e.eventType == reg.provider + "." + reg.resource + ".destroyed"
                  && DestroyRef(req.input, reg.resource) == Some(e.resourceId) && e.observed == Deleted(e.resourceId))
            && (req.idempotency == "" ==>
                  e.idempotency
                  == Events.SynthesizeKey(reg.provider, reg.resource, e.verb, e.resourceId, env.now, env.sha8))
  {
    assert h.op == Ensure ==> "." + "ensured" == ".ensured";
    assert h.op == Destroy ==> "." + "destroyed" == ".destroyed";
  }

  // -------------------------------------------------------------- execution

  /** One adapter's table and what its dispatches did to the outside world. */
  class Session {
    const table: AdapterDispatch
    var sent: seq<MutationEvent>
    var warned: seq<(string, string)>
    var emitWarnings: nat

    constructor (table: AdapterDispatch)
      ensures this.table == table && sent == [] && warned == [] && emitWarnings == 0
    {
      this.table, sent, warned, emitWarnings := table, [], [], 0;
    }

    /** `emitContext.emit`: nothing without an emitter; a failing emitter costs a warning and nothing else. */
    method Emit(reg: Reg, req: Execute, verb: Events.Verb, resourceId: string, observed: Observed, env: Env)
      modifies this`sent, this`emitWarnings
      ensures reg.emitter.None? ==> sent == old(sent)
      ensures reg.emitter.Some? ==> sent == old(sent) + [MutationEvent(
                reg.emitter.value, Events.EventType(reg.provider, reg.resource, verb),
                reg.provider, reg.resource, verb, resourceId,
                if req.instanceId != "" then req.instanceId else reg.instanceId,
                if req.idempotency != "" then req.idempotency
                else Events.SynthesizeKey(reg.provider, reg.resource, verb, resourceId, env.now, env.sha8),
                observed)]
    {
      if reg.emitter.None? {
        return;
      }
      var idempotency := req.idempotency;
      if idempotency == "" {
        idempotency := Events.SynthesizeKey(reg.provider, reg.resource, verb, resourceId, env.now, env.sha8);
      }
      var instanceId := reg.instanceId;
      if req.instanceId != "" {
        instanceId := req.instanceId;
      }
      sent := sent + [MutationEvent(reg.emitter.value, Events.EventType(reg.provider, reg.resource, verb),
                                    reg.provider, reg.resource, verb, resourceId, instanceId, idempotency, observed)];
      if env.emitFails {
        emitWarnings := emitWarnings + 1;
      }
    }

    /** The functions made by `makeEnsureFn`, `makeObserveFn` and `makeDestroyFn`. */
    method RunHandler(h: Fn, req: Execute, did: Did, env: Env) returns (reply: Reply)
      requires h.Handler?
      modifies this`sent, this`emitWarnings
      ensures reply == HandlerReply(h, req, did)
      ensures did.ParseFails? || did.Fails? || (did.EncodeFails? && h.op != Destroy) ==> reply.Error?
      ensures did.Fails? && h.op != Destroy ==> reply == Error(HandlerError)
      ensures did.Succeeds? && h.op != Destroy ==> reply == Ok(did.body)
      ensures h.op == Destroy && DestroyRef(req.input, h.reg.resource).Some? && (did.Succeeds? || did.EncodeFails?) ==>
                reply == Ok(DELETED)
      ensures reply.Error? || h.op == Observe || h.reg.emitter.None? ==> sent == old(sent)
      ensures sent == old(sent) + if reply.Ok? && h.op != Observe && h.reg.emitter.Some?
                                  then [EventFor(h, h.reg.emitter.value, req, did, env)] else []
    {
      if h.op == Destroy {
        var ref := RefField(req.input);
        if ref.None? {
          return Error(BadInput);
        }
        var id := ref.value;
        if id == "" && req.input.Present? {
          id := Identity.InferRef(req.input.obj, h.reg.resource);
        }
        if did.ParseFails? {
          return Error(BadInput);
        }
        if did.Fails? {
          return Error(HandlerError);
        }
        Emit(h.reg, req, Events.Destroyed, id, Deleted(id), env);
        return Ok(DELETED);
      }
      if did.ParseFails? {
        return Error(BadInput);
      }
      if did.Fails? {
        return Error(HandlerError);
      }
      if did.EncodeFails? {
        return Error(BadResult);
      }
      if h.op == Ensure {
        var id := Identity.InferId(did.reflected, did.observed, h.reg.resource);
        Emit(h.reg, req, Events.Ensured, id, State(did.body), env);
      }
      reply := Ok(did.body);
    }

    /** An entry of the table: shims warn and pass on. */
    method RunEntry(fn: Fn, req: Execute, did: Did, env: Env) returns (reply: Reply)
      modifies this`sent, this`emitWarnings, this`warned
      ensures reply == HandlerReply(Target(fn), req, did)
      ensures warned == old(warned) + Warnings(fn)
      ensures var h := Target(fn);
              sent == old(sent) + if reply.Ok? && h.op != Observe && h.reg.emitter.Some?
                                  then [EventFor(h, h.reg.emitter.value, req, did, env)] else []
      decreases fn
    {
      match fn {
        case Handler(_, _) =>
          reply := RunHandler(fn, req, did, env);
        case Shim(legacy, canonical, inner) =>
          warned := warned + [(legacy, canonical)];
          reply := RunEntry(inner, req, did, env);
      }
    }

    /** The handler of `buildExecuteHandler`, which `Dispatch` and the adapter's "execute" both run. */
    method Execute(d: Delivery, did: Did, env: Env) returns (reply: Reply)
      modifies this`sent, this`emitWarnings, this`warned
      ensures reply == ReplyOf(table.entries, d, did)
      ensures d.BadJson? ==> reply == Error(BadRequest)
      ensures d.Parsed? ==>
                var named, capability := TrimSpace(d.req.operation), TrimSpace(d.req.capability);
                var op := if named == "" then capability else named;
                if op == "" then reply == Error(MissingOperation)
                else if op in table.entries then reply == HandlerReply(Target(table.entries[op]), d.req, did)
                else reply == Error(Unsupported(op))
      ensures did.ParseFails? || did.Fails? ==> reply.Error?
      ensures reply.Error? ==> sent == old(sent)
      ensures sent == old(sent) + EventsOf(table.entries, d, did, env)
      ensures warned == old(warned) + match Lookup(table.entries, d)
                                      case Some(fn) => Warnings(fn)
                                      case None => []
    {
      if d.BadJson? {
        return Error(BadRequest);
      }
      var op := TrimSpace(d.req.operation);
      if op == "" {
        op := TrimSpace(d.req.capability);
      }
      if op == "" {
        return Error(MissingOperation);
      }
      if op !in table.entries {
        return Error(Unsupported(op));
      }
      reply := RunEntry(table.entries[op], d.req, did, env);
    }
  }
}
