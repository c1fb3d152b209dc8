/**
 `sdk/events`: the bounded retry loop of `httpEmitter.Emit`, and the dotted names of
 events and of synthesized idempotency keys (`sdk/events/types.go`, `sdk/reconcile/register.go`).
 */
module Events {
  import opened Basics
  import opened Text

  // ------------------------------------------------------------------- emit

  /** What one POST comes to; `cancelled` says that the context was done by then. */
  datatype Attempt = NetError(cancelled: bool) | Status(code: nat)

  /** The environment of one Emit: what each attempt meets. */
  datatype World = World(
    builds: bool,                  // the request can be built from the configured URL
    attempt: nat -> Attempt,
    cancelledBefore: nat -> bool,  // the context is done during the backoff before this attempt
    processed: nat -> bool)        // the receiver processed this attempt, whatever response came back

  predicate Success(a: Attempt) {
    a.Status? && 200 <= a.code < 300
  }

  /** A response that ends the loop: 2xx or 4xx. */
  predicate Decisive(a: Attempt) {
    a.Status? && (200 <= a.code < 300 || 400 <= a.code < 500)
  }

  /** Attempt `k` is made: everything before it was transient and the context lived. */
  ghost predicate Reached(w: World, k: nat) {
    && w.builds
    && (forall j :: 0 <= j < k ==> !Decisive(w.attempt(j)) && w.attempt(j) != NetError(true))
    && (forall j :: 1 <= j <= k ==> !w.cancelledBefore(j))
  }

  /** yggdrasil-core's event log: one row per idempotency key. */
  class Receiver {
    var rows: map<string, Bytes>
    var posts: seq<Bytes>

    constructor ()
      ensures rows == map[] && posts == []
    {
      rows, posts := map[], [];
    }

    method Post(key: string, body: Bytes, processed: bool)
      modifies this
      ensures posts == old(posts) + [body]
      ensures rows == if processed && key !in old(rows) then old(rows)[key := body] else old(rows)
    {
      posts := posts + [body];
      if processed && key !in rows {
        rows := rows[key := body];
      }
    }
  }

  const DEFAULT_MAX_RETRIES := 3

  function Repeat(body: Bytes, n: nat): seq<Bytes> {
    seq(n, _ => body)
  }

  /**
   Hence, with the loop ended after `attempts` as `Emit` says: an attempt of the budget is made when
   all before it were transport errors or statuses outside 200..299 and 400..499 and nothing was
   cancelled, and a 2xx or 4xx there is the last, a success or a failure.
   */
  lemma AttemptIsMade(w: World, budget: nat, attempts: nat, ok: bool, k: nat)
    requires attempts <= budget && k < budget && w.builds && forall j :: 1 <= j <= k ==> !w.cancelledBefore(j)
    requires forall j :: 0 <= j < k ==>
               match w.attempt(j)
               case NetError(cancelled) => !cancelled
               case Status(code) => !(200 <= code < 300) && !(400 <= code < 500)
    requires forall j :: 0 <= j < attempts - 1 ==>
               match w.attempt(j)
               case NetError(cancelled) => !cancelled
               case Status(code) => !(200 <= code < 300) && !(400 <= code < 500)
    requires attempts < budget ==>
               || (attempts == 0 && !w.builds)
               || (attempts > 0 && (w.cancelledBefore(attempts) ||
                                    match w.attempt(attempts - 1)
                                    case NetError(cancelled) => cancelled
                                    case Status(code) => 200 <= code < 300 || 400 <= code < 500))
    requires ok <==> attempts > 0 && match w.attempt(attempts - 1)
                                     case NetError(_) => false
                                     case Status(code) => 200 <= code < 300
    ensures k < attempts
    ensures match w.attempt(k)
            case NetError(_) => true
            case Status(code) =>
              && (200 <= code < 300 ==> ok && attempts == k + 1)
              && (400 <= code < 500 ==> !ok && attempts == k + 1)
  {
  }

  class HttpEmitter {
    var maxRetries: nat

    /** Budgets of zero or less fall back to the default. */
    constructor (n: int)
      ensures maxRetries == if n <= 0 then 3 else n
      ensures maxRetries > 0
    {
      maxRetries := if n <= 0 then DEFAULT_MAX_RETRIES else n;
    }

    /**
     The body is marshalled once, so every attempt posts the same bytes, and exactly the attempts
     that are reached within the budget are made. Success if and only if the first decisive
     response among them is a 2xx and no cancellation came before it.

     In numbers: before the last attempt there are transport errors and statuses outside 200..299
     and 400..499 alone; the loop ends before its budget only for a request that cannot be built,
     a cancellation, a 2xx or a 4xx; and the call succeeds exactly when the last is a 2xx.
     */
    method Emit(w: World, key: string, body: Bytes, core: Receiver) returns (ok: bool, attempts: nat)
      modifies core
      ensures ok <==> exists k :: 0 <= k < maxRetries && Reached(w, k) && Success(w.attempt(k))
      ensures attempts <= maxRetries && core.posts == old(core.posts) + Repeat(body, attempts)
      ensures forall k: nat :: k < maxRetries ==> (Reached(w, k) <==> k < attempts)
      ensures forall j :: 0 <= j < attempts - 1 ==>
                match w.attempt(j)
                case NetError(cancelled) => !cancelled
                case Status(code) => !(200 <= code < 300) && !(400 <= code < 500)
      ensures attempts < maxRetries ==>
                || (attempts == 0 && !w.builds)
                || (attempts > 0 && (w.cancelledBefore(attempts) ||
                                     match w.attempt(attempts - 1)
                                     case NetError(cancelled) => cancelled
                                     case Status(code) => 200 <= code < 300 || 400 <= code < 500))
      ensures ok <==> attempts > 0 && match w.attempt(attempts - 1)
                                      case NetError(_) => false
                                      case Status(code) => 200 <= code < 300
      ensures core.rows == if key !in old(core.rows) && exists k :: 0 <= k < attempts && w.processed(k)
                           then old(core.rows)[key := body] else old(core.rows)
    {
      attempts := 0;
      assert core.posts == old(core.posts) + Repeat(body, 0);
      while attempts < maxRetries
        invariant attempts <= maxRetries
        invariant core.posts == old(core.posts) + Repeat(body, attempts)
        invariant forall k :: 0 <= k < attempts ==> Reached(w, k)
        invariant forall k :: 0 <= k < attempts ==> !Decisive(w.attempt(k)) && w.attempt(k) != NetError(true)
        invariant core.rows == if key !in old(core.rows) && exists k :: 0 <= k < attempts && w.processed(k)
                               then old(core.rows)[key := body] else old(core.rows)
      {
        if attempts > 0 && w.cancelledBefore(attempts) {
          return false, attempts;
        }
        if !w.builds {
          return false, attempts;
        }
        ghost var before := attempts;
        assert Reached(w, attempts) by {
          assert attempts > 0 ==> Reached(w, attempts - 1);
        }
        var result := w.attempt(attempts);
        core.Post(key, body, w.processed(attempts));
        assert Repeat(body, attempts + 1) == Repeat(body, attempts) + [body];
        attempts := attempts + 1;
        assert (exists k :: 0 <= k < attempts && w.processed(k)) <==>
               (exists k :: 0 <= k < before && w.processed(k)) || w.processed(before);
        match result {
          case NetError(cancelled) =>
            if cancelled {
              return false, attempts;
            }
          case Status(code) =>
            if 200 <= code < 300 {
              return true, attempts;
            }
            if 400 <= code < 500 {
              return false, attempts;
            }
        }
      }
      ok := false;
    }
  }

  /** Any number of Emits of one event leaves at most one row, even when responses are lost after processing. */
  method EmitRepeatedly(emitter: HttpEmitter, worlds: seq<World>, key: string, body: Bytes, core: Receiver)
    modifies core
    ensures core.rows.Keys <= old(core.rows).Keys + {key}
    ensures forall k :: k in old(core.rows) ==> k in core.rows && core.rows[k] == old(core.rows)[k]
  {
    for i := 0 to |worlds|
      invariant core.rows.Keys <= old(core.rows).Keys + {key}
      invariant forall k :: k in old(core.rows) ==> k in core.rows && core.rows[k] == old(core.rows)[k]
    {
      var _, _ := emitter.Emit(worlds[i], key, body, core);
    }
  }

  // ------------------------------------------------------------------- names

  datatype Verb = Ensured | Destroyed | Created

  function VerbText(v: Verb): (s: string)
    ensures '.' !in s
  {
    match v
    case Ensured => "ensured"
    case Destroyed => "destroyed"
    case Created => "created"
  }

  /** `BuildEventType` */
  function EventType(provider: string, resource: string, verb: Verb): string {
    provider + "." + resource + "." + VerbText(verb)
  }

  /** The shape of a synthesized key; `hash` is the 8-character prefix of the digest. */
  function Key(provider: string, resource: string, verb: string, resourceId: string, hash: string): string {
    provider + "." + (resource + "." + (verb + "." + (resourceId + "." + hash)))
  }

  datatype KeyParts = KeyParts(provider: string, resource: string, verb: string, resourceId: string, hash: string)

  const HASH_LEN := 8

  /** Reads a key back: three dots from the left, eight characters from the right. */
  function DecodeKey(key: string): Option<KeyParts> {
    match Cut(key, '.')
    case None => None
    case Some((provider, rest)) =>
      match Cut(rest, '.')
      case None => None
      case Some((resource, rest')) =>
        match Cut(rest', '.')
        case None => None
        case Some((verb, tail)) =>
          if |tail| <= HASH_LEN || tail[|tail| - HASH_LEN - 1] != '.' then None
          else Some(KeyParts(provider, resource, verb, tail[..|tail| - HASH_LEN - 1], tail[|tail| - HASH_LEN..]))
  }

  /** `synthesizeIdempotencyKey`: the digest of the parts and the clock, hashed by `sha8`. */
  function SynthesizeKey(provider: string, resource: string, verb: Verb, resourceId: string, now: int,
                         sha8: string -> string): string {
    var k := Synthesized(provider, resource, verb, resourceId, now, sha8);
    Key(k.provider, k.resource, k.verb, k.resourceId, k.hash)
  }

  function Digested(provider: string, resource: string, verb: Verb, resourceId: string, now: int): string {
    provider + "|" + resource + "|" + VerbText(verb) + "|" + resourceId + "|" + Decimal(now)
  }

  function Synthesized(provider: string, resource: string, verb: Verb, resourceId: string, now: int,
                       sha8: string -> string): KeyParts {
    KeyParts(provider, resource, VerbText(verb), resourceId, sha8(Digested(provider, resource, verb, resourceId, now)))
  }

  /** The text of a synthesized key, and of what is digested in it. */
  lemma KeyText(p: string, r: string, v: Verb, id: string, now: int, sha8: string -> string)
    ensures SynthesizeKey(p, r, v, id, now, sha8)
            == p + "." + r + "." + VerbText(v) + "." + id + "."
               + sha8(p + "|" + r + "|" + VerbText(v) + "|" + id + "|" + Decimal(now))
    ensures VerbText(Ensured) == "ensured" && VerbText(Destroyed) == "destroyed" && VerbText(Created) == "created"
    ensures EventType(p, r, v) == p + "." + r + "." + VerbText(v)
  {
    var h := sha8(Digested(p, r, v, id, now));
    assert id + "." + h == id + ("." + h);
    assert p + "." + (r + "." + (VerbText(v) + "." + (id + "." + h)))
        == p + "." + r + "." + VerbText(v) + "." + id + "." + h;
  }

  lemma TailDecodes(resourceId: string, hash: string)
    requires |hash| == HASH_LEN
    ensures var tail := resourceId + "." + hash;
            && tail[|tail| - HASH_LEN - 1] == '.'
            && tail[..|tail| - HASH_LEN - 1] == resourceId && tail[|tail| - HASH_LEN..] == hash
  {
  }

  lemma KeyDecodes(p: KeyParts)
    requires |p.hash| == HASH_LEN && '.' !in p.verb && '.' !in p.provider && '.' !in p.resource
    ensures DecodeKey(Key(p.provider, p.resource, p.verb, p.resourceId, p.hash)) == Some(p)
  {
    var tail := p.resourceId + "." + p.hash;
    var k3 := p.verb + "." + tail;
    var k2 := p.resource + "." + k3;
    assert Cut(p.provider + "." + k2, '.') == Some((p.provider, k2)) by { CutOf(p.provider, '.', k2); }
    assert Cut(k2, '.') == Some((p.resource, k3)) by { CutOf(p.resource, '.', k3); }
    assert Cut(k3, '.') == Some((p.verb, tail)) by { CutOf(p.verb, '.', tail); }
    TailDecodes(p.resourceId, p.hash);
  }

  lemma DecodedIsDotFree(key: string)
    requires DecodeKey(key).Some?
    ensures '.' !in DecodeKey(key).value.provider && '.' !in DecodeKey(key).value.resource
  {
  }

  /** A key reads back exactly when provider and resource have no dot; the resource id may have any. */
  lemma KeyDecodesIff(p: KeyParts)
    requires |p.hash| == HASH_LEN && '.' !in p.verb
    ensures DecodeKey(Key(p.provider, p.resource, p.verb, p.resourceId, p.hash)) == Some(p)
            <==> '.' !in p.provider && '.' !in p.resource
  {
    var key := Key(p.provider, p.resource, p.verb, p.resourceId, p.hash);
    if '.' !in p.provider && '.' !in p.resource {
      KeyDecodes(p);
    } else if DecodeKey(key) == Some(p) {
      DecodedIsDotFree(key);
    }
  }

  /** Equal keys of dot-free providers and resources have equal parts. */
  lemma EqualKeysEqualParts(p: KeyParts, q: KeyParts)
    requires |p.hash| == HASH_LEN && '.' !in p.verb && '.' !in p.provider && '.' !in p.resource
    requires |q.hash| == HASH_LEN && '.' !in q.verb && '.' !in q.provider && '.' !in q.resource
    requires Key(p.provider, p.resource, p.verb, p.resourceId, p.hash)
             == Key(q.provider, q.resource, q.verb, q.resourceId, q.hash)
    ensures p == q
  {
    KeyDecodes(p);
    KeyDecodes(q);
  }

  /** So equal synthesized keys are about the same resource and the same verb. */
  lemma EqualKeysSameResource(p: string, r: string, v: Verb, id: string, now: int,
                              p': string, r': string, v': Verb, id': string, now': int, sha8: string -> string)
    requires forall s :: |sha8(s)| == HASH_LEN
    requires '.' !in p && '.' !in r && '.' !in p' && '.' !in r'
    requires SynthesizeKey(p, r, v, id, now, sha8) == SynthesizeKey(p', r', v', id', now', sha8)
    ensures p == p' && r == r' && v == v' && id == id'
  {
    var a := Synthesized(p, r, v, id, now, sha8);
    var b := Synthesized(p', r', v', id', now', sha8);
    assert a == b by {
      EqualKeysEqualParts(a, b);
    }
    VerbTextInjective(v, v');
  }

  lemma VerbTextInjective(v: Verb, v': Verb)
    requires VerbText(v) == VerbText(v')
    ensures v == v'
  {
  }

  lemma DottedKey(verb: string, id: string, hash: string)
    requires |hash| == HASH_LEN
    ensures Key("a.b", "c", verb, id, hash) == Key("a", "b.c", verb, id, hash)
    ensures var k := Key("a", "b.c", verb, id, hash); |k| >= HASH_LEN && k[|k| - HASH_LEN..] == hash
  {
    var rest := verb + "." + (id + "." + hash);
    assert "a.b" + "." + ("c" + "." + rest) == "a.b.c." + rest == "a" + "." + ("b.c" + "." + rest);
  }

  /** With dots the parts run together: apart from the digest, two resources share a key. */
  lemma DottedProvidersCollide(v: Verb, id: string, now: int, now': int, sha8: string -> string)
    requires forall s :: |sha8(s)| == HASH_LEN
    ensures SynthesizeKey("a.b", "c", v, id, now, sha8) == SynthesizeKey("a", "b.c", v, id, now', sha8)
            <==> sha8(Digested("a.b", "c", v, id, now)) == sha8(Digested("a", "b.c", v, id, now'))
  {
    DottedKey(VerbText(v), id, sha8(Digested("a.b", "c", v, id, now)));
    DottedKey(VerbText(v), id, sha8(Digested("a", "b.c", v, id, now')));
  }
}
