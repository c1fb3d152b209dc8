/**
 `sdk/reconcile`: the dispatch table that RegisterReconciler fills, with legacy names shimmed
 onto whatever function the canonical name holds at that moment, and what its entries mean
 after any history of registrations.
 */
module Reconcile {
  import opened Basics
  import opened Text

  datatype Op = Ensure | Observe | Destroy

  /** One RegisterReconciler call; `emitter` is None without WithEmitter. */
  datatype Reg = Reg(id: nat, resource: string, resourceType: string, legacy: seq<string>,
                     provider: string, instanceId: string, emitter: Option<nat>)

  /** A table entry: a handler of a registration, or a shim around the function it captured by value. */
  datatype Fn = Handler(reg: Reg, op: Op) | Shim(legacy: string, canonical: string, inner: Fn)

  type Table = map<string, Fn>

  // ------------------------------------------------------------- legacy names

  const ENSURE_PREFIXES := ["create_", "update_", "upsert_", "register_", "set_", "apply_", "issue_"]
  const OBSERVE_PREFIXES := ["get_", "list_", "describe_", "lookup_", "retrieve_"]
  const DESTROY_PREFIXES := ["delete_", "unregister_", "remove_", "teardown_", "revoke_", "cancel_", "archive_"]

  predicate StartsWithAny(s: string, prefixes: seq<string>) {
    prefixes != [] && (prefixes[0] <= s || StartsWithAny(s, prefixes[1..]))
  }

  lemma {:induction false} StartsWithAnyIff(s: string, prefixes: seq<string>)
    ensures StartsWithAny(s, prefixes) <==> exists i :: 0 <= i < |prefixes| && prefixes[i] <= s
  {
    if prefixes != [] {
      StartsWithAnyIff(s, prefixes[1..]);
      assert forall i :: 0 < i < |prefixes| ==> prefixes[i] == prefixes[1..][i - 1];
    }
  }

  /** `pickCanonicalForLegacy`, as the operation it picks. */
  function PickOp(legacy: string): Op {
    if StartsWithAny(legacy, ENSURE_PREFIXES) then Ensure
    else if StartsWithAny(legacy, OBSERVE_PREFIXES) then Observe
    else if StartsWithAny(legacy, DESTROY_PREFIXES) then Destroy
    else Ensure
  }

  /** The first characters by which two prefixes differ. */
  predicate Diverge(p: string, q: string) {
    exists i :: 0 <= i < |p| && i < |q| && p[i] != q[i]
  }

  lemma DivergingPrefixes(p: string, q: string, s: string)
    requires Diverge(p, q)
    ensures !(p <= s && q <= s)
  {
  }

  lemma EnsureObserveDiverge(i: nat, j: nat)
    requires i < |ENSURE_PREFIXES| && j < |OBSERVE_PREFIXES|
    ensures Diverge(ENSURE_PREFIXES[i], OBSERVE_PREFIXES[j])
  {
    var p, q := ENSURE_PREFIXES[i], OBSERVE_PREFIXES[j];
    assert p[0] != q[0] || p[2] != q[2];
  }

  lemma EnsureDestroyDiverge(i: nat, j: nat)
    requires i < |ENSURE_PREFIXES| && j < |DESTROY_PREFIXES|
    ensures Diverge(ENSURE_PREFIXES[i], DESTROY_PREFIXES[j])
  {
    var p, q := ENSURE_PREFIXES[i], DESTROY_PREFIXES[j];
    assert p[0] != q[0] || p[1] != q[1] || p[2] != q[2];
  }

  lemma ObserveDestroyDiverge(i: nat, j: nat)
    requires i < |OBSERVE_PREFIXES| && j < |DESTROY_PREFIXES|
    ensures Diverge(OBSERVE_PREFIXES[i], DESTROY_PREFIXES[j])
  {
    var p, q := OBSERVE_PREFIXES[i], DESTROY_PREFIXES[j];
    assert p[0] != q[0] || p[2] != q[2];
  }

  /** No string is in two prefix classes, so the order of the cases is irrelevant. */
  lemma PrefixClassesDisjoint(s: string)
    ensures !(StartsWithAny(s, ENSURE_PREFIXES) && StartsWithAny(s, OBSERVE_PREFIXES))
    ensures !(StartsWithAny(s, ENSURE_PREFIXES) && StartsWithAny(s, DESTROY_PREFIXES))
    ensures !(StartsWithAny(s, OBSERVE_PREFIXES) && StartsWithAny(s, DESTROY_PREFIXES))
  {
    forall i, j | 0 <= i < |ENSURE_PREFIXES| && 0 <= j < |OBSERVE_PREFIXES|
      ensures !(ENSURE_PREFIXES[i] <= s && OBSERVE_PREFIXES[j] <= s) {
      EnsureObserveDiverge(i, j);
      DivergingPrefixes(ENSURE_PREFIXES[i], OBSERVE_PREFIXES[j], s);
    }
    forall i, j | 0 <= i < |ENSURE_PREFIXES| && 0 <= j < |DESTROY_PREFIXES|
      ensures !(ENSURE_PREFIXES[i] <= s && DESTROY_PREFIXES[j] <= s) {
      EnsureDestroyDiverge(i, j);
      DivergingPrefixes(ENSURE_PREFIXES[i], DESTROY_PREFIXES[j], s);
    }
    forall i, j | 0 <= i < |OBSERVE_PREFIXES| && 0 <= j < |DESTROY_PREFIXES|
      ensures !(OBSERVE_PREFIXES[i] <= s && DESTROY_PREFIXES[j] <= s) {
      ObserveDestroyDiverge(i, j);
      DivergingPrefixes(OBSERVE_PREFIXES[i], DESTROY_PREFIXES[j], s);
    }
    StartsWithAnyIff(s, ENSURE_PREFIXES);
    StartsWithAnyIff(s, OBSERVE_PREFIXES);
    StartsWithAnyIff(s, DESTROY_PREFIXES);
  }

  /** So the operation is a matter of which class the name is in, with ensure as the default. */
  lemma PickOpByClass(s: string)
    ensures PickOp(s) == Observe <==> StartsWithAny(s, OBSERVE_PREFIXES)
    ensures PickOp(s) == Destroy <==> StartsWithAny(s, DESTROY_PREFIXES)
    ensures PickOp(s) == Ensure <==> !StartsWithAny(s, OBSERVE_PREFIXES) && !StartsWithAny(s, DESTROY_PREFIXES)
  {
    PrefixClassesDisjoint(s);
  }

  lemma IsPrefix(prefixes: seq<string>, i: nat, rest: string)
    requires i < |prefixes|
    ensures StartsWithAny(prefixes[i] + rest, prefixes)
  {
    StartsWithAnyIff(prefixes[i] + rest, prefixes);
  }

  /** The documented table: whatever follows the verb, these verbs mean ensure, observe and destroy. */
  lemma LegacyVerbs(verb: string, rest: string)
    ensures verb in {"create_", "update_", "upsert_", "register_", "set_", "apply_", "issue_"} ==>
              PickOp(verb + rest) == Ensure
    ensures verb in {"get_", "list_", "describe_", "lookup_", "retrieve_"} ==> PickOp(verb + rest) == Observe
    ensures verb in {"delete_", "unregister_", "remove_", "teardown_", "revoke_", "cancel_", "archive_"} ==>
              PickOp(verb + rest) == Destroy
  {
    PickOpByClass(verb + rest);
    PrefixClassesDisjoint(verb + rest);
    if i :| 0 <= i < |ENSURE_PREFIXES| && ENSURE_PREFIXES[i] == verb {
      IsPrefix(ENSURE_PREFIXES, i, rest);
    }
    if i :| 0 <= i < |OBSERVE_PREFIXES| && OBSERVE_PREFIXES[i] == verb {
      IsPrefix(OBSERVE_PREFIXES, i, rest);
    }
    if i :| 0 <= i < |DESTROY_PREFIXES| && DESTROY_PREFIXES[i] == verb {
      IsPrefix(DESTROY_PREFIXES, i, rest);
    }
    VerbAt(verb);
  }

  lemma VerbAt(verb: string)
    ensures verb in {"create_", "update_", "upsert_", "register_", "set_", "apply_", "issue_"} ==>
              verb in ENSURE_PREFIXES
    ensures verb in {"get_", "list_", "describe_", "lookup_", "retrieve_"} ==> verb in OBSERVE_PREFIXES
    ensures verb in {"delete_", "unregister_", "remove_", "teardown_", "revoke_", "cancel_", "archive_"} ==>
              verb in DESTROY_PREFIXES
  {
    assert ENSURE_PREFIXES[0] == "create_" && ENSURE_PREFIXES[1] == "update_" && ENSURE_PREFIXES[2] == "upsert_";
    assert ENSURE_PREFIXES[3] == "register_" && ENSURE_PREFIXES[4] == "set_" && ENSURE_PREFIXES[5] == "apply_";
    assert ENSURE_PREFIXES[6] == "issue_" && OBSERVE_PREFIXES[0] == "get_" && OBSERVE_PREFIXES[1] == "list_";
    assert OBSERVE_PREFIXES[2] == "describe_" && OBSERVE_PREFIXES[3] == "lookup_" && OBSERVE_PREFIXES[4] == "retrieve_";
    assert DESTROY_PREFIXES[0] == "delete_" && DESTROY_PREFIXES[1] == "unregister_" && DESTROY_PREFIXES[2] == "remove_";
    assert DESTROY_PREFIXES[3] == "teardown_" && DESTROY_PREFIXES[4] == "revoke_" && DESTROY_PREFIXES[5] == "cancel_";
    assert DESTROY_PREFIXES[6] == "archive_";
  }

  // ------------------------------------------------------------ registration

  function Name(reg: Reg, op: Op): string {
    match op
    case Ensure => "ensure_" + reg.resource
    case Observe => "observe_" + reg.resourceType
    case Destroy => "destroy_" + reg.resource
  }

  lemma NamesDistinct(reg: Reg)
    ensures Name(reg, Ensure) != Name(reg, Observe) && Name(reg, Ensure) != Name(reg, Destroy)
    ensures Name(reg, Observe) != Name(reg, Destroy)
  {
    assert Name(reg, Ensure)[0] == 'e' && Name(reg, Observe)[0] == 'o' && Name(reg, Destroy)[0] == 'd';
  }

  /** Unicode's lower-casing of a text, a parameter: nothing depends on which it is. */
  type Lower = string -> string

  /** The registration with its names trimmed and lower-cased. */
  function Normalized(raw: Reg, lower: Lower): Reg {
    raw.(resource := lower(TrimSpace(raw.resource)), resourceType := lower(TrimSpace(raw.resourceType)),
         legacy := seq(|raw.legacy|, i requires 0 <= i < |raw.legacy| => lower(TrimSpace(raw.legacy[i]))))
  }

  /** RegisterReconciler panics on an empty resource or resource type. */
  predicate Registrable(raw: Reg, lower: Lower) {
    lower(TrimSpace(raw.resource)) != "" && lower(TrimSpace(raw.resourceType)) != ""
  }

  function Canonical(t: Table, reg: Reg): Table {
    t[Name(reg, Ensure) := Handler(reg, Ensure)]
     [Name(reg, Observe) := Handler(reg, Observe)]
     [Name(reg, Destroy) := Handler(reg, Destroy)]
  }

  /** The three canonical names are bound, to whatever. */
  predicate HasCanonical(t: Table, reg: Reg) {
    Name(reg, Ensure) in t && Name(reg, Observe) in t && Name(reg, Destroy) in t
  }

  /** One legacy name: shimmed onto what its canonical name holds right now. */
  function AddLegacy(t: Table, reg: Reg, legacy: string): (r: Table)
    requires HasCanonical(t, reg)
    ensures HasCanonical(r, reg)
  {
    if legacy == "" then t else
      var canonical := Name(reg, PickOp(legacy));
      t[legacy := Shim(legacy, canonical, t[canonical])]
  }

  /** The table after the first `n` legacy names. */
  function WithLegacy(t: Table, reg: Reg, n: nat): (r: Table)
    requires HasCanonical(t, reg) && n <= |reg.legacy|
    ensures HasCanonical(r, reg)
  {
    if n == 0 then t else AddLegacy(WithLegacy(t, reg, n - 1), reg, reg.legacy[n - 1])
  }

  function Register(t: Table, reg: Reg): Table {
    WithLegacy(Canonical(t, reg), reg, |reg.legacy|)
  }

  /** `adapterDispatch` */
  class AdapterDispatch {
    var entries: Table

    constructor ()
      ensures entries == map[]
    {
      entries := map[];
    }

    /** `RegisterReconciler` once the options are applied. */
    method RegisterReconciler(raw: Reg, lower: Lower)
      requires Registrable(raw, lower)
      modifies this
      ensures entries == Register(old(entries), Normalized(raw, lower))
    {
      var reg := Normalized(raw, lower);
      entries := entries[Name(reg, Ensure) := Handler(reg, Ensure)];
      entries := entries[Name(reg, Observe) := Handler(reg, Observe)];
      entries := entries[Name(reg, Destroy) := Handler(reg, Destroy)];
      AddShims(reg);
    }

    /** Its loop over the legacy names; empty ones are skipped. */
    method AddShims(reg: Reg)
      requires HasCanonical(entries, reg)
      modifies this
      ensures entries == WithLegacy(old(entries), reg, |reg.legacy|)
    {
      for i := 0 to |reg.legacy|
        invariant entries == WithLegacy(old(entries), reg, i)
      {
        var legacy := reg.legacy[i];
        if legacy == "" {
          continue;
        }
        var canonical := Name(reg, PickOp(legacy));
        entries := entries[legacy := Shim(legacy, canonical, entries[canonical])];
      }
    }
  }

  // ------------------------------------------------------- what an entry means

  /** The canonical handler an entry runs in the end, and the legacy names it warns about on the way. */
  function Target(fn: Fn): (h: Fn)
    ensures h.Handler?
  {
    match fn
    case Handler(_, _) => fn
    case Shim(_, _, inner) => Target(inner)
  }

  function Warnings(fn: Fn): seq<(string, string)> {
    match fn
    case Handler(_, _) => []
    case Shim(legacy, canonical, inner) => [(legacy, canonical)] + Warnings(inner)
  }

  /** Non-empty normalized legacy names among the first `n`. */
  ghost predicate IsLegacy(reg: Reg, n: nat, name: string)
    requires n <= |reg.legacy|
  {
    name != "" && exists i :: 0 <= i < n && reg.legacy[i] == name
  }

  predicate IsCanonical(reg: Reg, name: string) {
    name == Name(reg, Ensure) || name == Name(reg, Observe) || name == Name(reg, Destroy)
  }

  lemma LegacyStep(reg: Reg, n: nat, name: string)
    requires 0 < n <= |reg.legacy|
    ensures IsLegacy(reg, n, name) <==> IsLegacy(reg, n - 1, name) || (name != "" && name == reg.legacy[n - 1])
  {
  }

  lemma NameNonEmpty(reg: Reg, op: Op)
    ensures Name(reg, op) != "" && IsCanonical(reg, Name(reg, op))
  {
  }

  lemma CanonicalAt(t: Table, reg: Reg, op: Op)
    ensures HasCanonical(Canonical(t, reg), reg) && Canonical(t, reg)[Name(reg, op)] == Handler(reg, op)
  {
    NamesDistinct(reg);
  }

  /** Names a registration does not mention keep their entry; names it mentions run one of its own handlers. */
  lemma {:induction false} RegistrationOwnsItsNames(t: Table, reg: Reg, n: nat, name: string)
    requires n <= |reg.legacy|
    ensures var r := WithLegacy(Canonical(t, reg), reg, n);
            if IsCanonical(reg, name) || IsLegacy(reg, n, name)
            then name in r && Target(r[name]).reg == reg
            else (name in r <==> name in t) && (name in r ==> r[name] == t[name])
  {
    if n > 0 {
      RegistrationOwnsItsNames(t, reg, n - 1, name);
      var legacy := reg.legacy[n - 1];
      RegistrationOwnsItsNames(t, reg, n - 1, Name(reg, PickOp(legacy)));
      assert IsLegacy(reg, n, name) <==> IsLegacy(reg, n - 1, name) || (name != "" && name == legacy);
    } else {
      NamesDistinct(reg);
    }
  }

  /** A legacy name that is also one of the canonical names of the same registration. */
  ghost predicate Collides(reg: Reg, n: nat)
    requires n <= |reg.legacy|
  {
    exists name :: IsCanonical(reg, name) && IsLegacy(reg, n, name)
  }

  ghost predicate CanonicalClean(r: Table, reg: Reg) {
    HasCanonical(r, reg) && forall op :: r[Name(reg, op)] == Handler(reg, op)
  }

  lemma {:induction false} ShimmedIffCollides(t: Table, reg: Reg, n: nat, op: Op)
    requires n <= |reg.legacy|
    ensures var r := WithLegacy(Canonical(t, reg), reg, n);
            if IsLegacy(reg, n, Name(reg, op)) then r[Name(reg, op)].Shim? else r[Name(reg, op)] == Handler(reg, op)
  {
    if n == 0 {
      CanonicalAt(t, reg, op);
    } else {
      ShimmedIffCollides(t, reg, n - 1, op);
      NameNonEmpty(reg, op);
      LegacyStep(reg, n, Name(reg, op));
    }
  }

  /** The canonical names run their own handlers, without a warning, exactly when no legacy name collides with them. */
  lemma CanonicalCleanIff(t: Table, reg: Reg)
    ensures CanonicalClean(Register(t, reg), reg) <==> !Collides(reg, |reg.legacy|)
  {
    var n := |reg.legacy|;
    forall op ensures IsLegacy(reg, n, Name(reg, op)) <==> Register(t, reg)[Name(reg, op)] != Handler(reg, op) {
      ShimmedIffCollides(t, reg, n, op);
    }
    if Collides(reg, n) {
      var name :| IsCanonical(reg, name) && IsLegacy(reg, n, name);
      var op := if name == Name(reg, Ensure) then Ensure else if name == Name(reg, Observe) then Observe else Destroy;
      assert name == Name(reg, op);
    } else {
      forall op ensures Register(t, reg)[Name(reg, op)] == Handler(reg, op) {
        assert IsCanonical(reg, Name(reg, op));
      }
    }
  }

  /** Without collisions the three names of a registration run its three handlers. */
  lemma CanonicalNamesRun(t: Table, reg: Reg)
    requires !Collides(reg, |reg.legacy|)
    ensures var r := Register(t, reg);
            && "ensure_" + reg.resource in r && r["ensure_" + reg.resource] == Handler(reg, Ensure)
            && "observe_" + reg.resourceType in r && r["observe_" + reg.resourceType] == Handler(reg, Observe)
            && "destroy_" + reg.resource in r && r["destroy_" + reg.resource] == Handler(reg, Destroy)
  {
    CanonicalCleanIff(t, reg);
    assert Register(t, reg)[Name(reg, Ensure)] == Handler(reg, Ensure);
    assert Register(t, reg)[Name(reg, Observe)] == Handler(reg, Observe);
    assert Register(t, reg)[Name(reg, Destroy)] == Handler(reg, Destroy);
  }

  lemma FewerLegacyNames(reg: Reg, n: nat)
    requires 0 < n <= |reg.legacy| && !Collides(reg, n)
    ensures !Collides(reg, n - 1)
  {
  }

  /** Without collisions every legacy name warns once and runs the handler of its prefix class. */
  lemma {:induction false} LegacyMeaning(t: Table, reg: Reg, n: nat, name: string)
    requires n <= |reg.legacy| && !Collides(reg, n) && IsLegacy(reg, n, name)
    ensures var r := WithLegacy(Canonical(t, reg), reg, n);
            name in r && r[name] == Shim(name, Name(reg, PickOp(name)), Handler(reg, PickOp(name)))
  {
    var op := PickOp(name);
    assert !Collides(reg, n - 1) && !IsLegacy(reg, n - 1, Name(reg, op)) by {
      FewerLegacyNames(reg, n);
      NameNonEmpty(reg, op);
    }
    LegacyStep(reg, n, name);
    if name == reg.legacy[n - 1] {
      ShimmedIffCollides(t, reg, n - 1, op);
    } else {
      LegacyMeaning(t, reg, n - 1, name);
    }
  }

  /** And it is that name the warning is about, together with the one to use instead. */
  lemma LegacyWarns(t: Table, reg: Reg, name: string)
    requires !Collides(reg, |reg.legacy|) && IsLegacy(reg, |reg.legacy|, name)
    ensures name in Register(t, reg)
    ensures Warnings(Register(t, reg)[name]) == [(name, Name(reg, PickOp(name)))]
    ensures Target(Register(t, reg)[name]) == Handler(reg, PickOp(name))
  {
    LegacyMeaning(t, reg, |reg.legacy|, name);
    assert Warnings(Handler(reg, PickOp(name))) == [];
  }

  /** The names a registration binds. */
  ghost predicate Mentions(reg: Reg, name: string) {
    IsCanonical(reg, name) || IsLegacy(reg, |reg.legacy|, name)
  }
}
