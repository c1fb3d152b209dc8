/**
 Whole histories of `sdk/reconcile`: which events a history emits, that replies do not depend
 on emitters, and that `Dispatch` and an adapter's "execute" handler run the same table.
 */
module DispatchHistory {
  import opened Basics
  import opened Reconcile
  import opened Dispatch

  datatype Item = Registers(raw: Reg, lower: Lower) | Dispatches(d: Delivery, did: Did, env: Env)

  function Init<T>(s: seq<T>): seq<T>
    requires s != []
  {
    s[..|s| - 1]
  }

  function Last<T>(s: seq<T>): T
    requires s != []
  {
    s[|s| - 1]
  }

  /** The registration of an item, with its names normalized. */
  function Named(item: Item): Reg
    requires item.Registers?
  {
    Normalized(item.raw, item.lower)
  }

  function TableOf(items: seq<Item>): Table {
    if items == [] then map[]
    else if Last(items).Registers? then Register(TableOf(Init(items)), Named(Last(items)))
    else TableOf(Init(items))
  }

  function Replies(items: seq<Item>): seq<Reply> {
    if items == [] then []
    else
      Replies(Init(items)) +
      match Last(items)
      case Registers(_, _) => []
      case Dispatches(d, did, _) => [ReplyOf(TableOf(Init(items)), d, did)]
  }

  function Sent(items: seq<Item>): seq<MutationEvent> {
    if items == [] then []
    else
      Sent(Init(items)) +
      match Last(items)
      case Registers(_, _) => []
      case Dispatches(d, did, env) => EventsOf(TableOf(Init(items)), d, did, env)
  }

  /** Running a history against the mutable table gives these replies and these events. */
  method Replay(items: seq<Item>) returns (replies: seq<Reply>, session: Session)
    requires forall i :: 0 <= i < |items| && items[i].Registers? ==> Registrable(items[i].raw, items[i].lower)
    ensures fresh(session) && fresh(session.table)
    ensures replies == Replies(items) && session.sent == Sent(items) && session.table.entries == TableOf(items)
  {
    var table := new AdapterDispatch();
    session := new Session(table);
    replies := [];
    for i := 0 to |items|
      invariant fresh(session) && fresh(table) && session.table == table
      invariant replies == Replies(items[..i]) && session.sent == Sent(items[..i])
      invariant table.entries == TableOf(items[..i])
    {
      assert Init(items[..i + 1]) == items[..i] && Last(items[..i + 1]) == items[i];
      match items[i] {
        case Registers(raw, lower) =>
          table.RegisterReconciler(raw, lower);
        case Dispatches(d, did, env) =>
          var reply := session.Execute(d, did, env);
          replies := replies + [reply];
      }
    }
    assert items[..|items|] == items;
  }

  /** The item registers something under this name. */
  ghost predicate Binds(item: Item, name: string) {
    item.Registers? && Mentions(Named(item), name)
  }

  /** The last item of a history to bind the name is the one at `i`. */
  ghost predicate LastToBind(items: seq<Item>, i: int, name: string) {
    0 <= i < |items| && Binds(items[i], name) && forall j :: i < j < |items| ==> !Binds(items[j], name)
  }

  lemma LastBindsOrKeeps(items: seq<Item>, name: string)
    requires items != [] && name in TableOf(items)
    ensures if Binds(Last(items), name) then Target(TableOf(items)[name]).reg == Named(Last(items))
            else name in TableOf(Init(items)) && TableOf(items)[name] == TableOf(Init(items))[name]
  {
    if Last(items).Registers? {
      var reg := Named(Last(items));
      RegistrationOwnsItsNames(TableOf(Init(items)), reg, |reg.legacy|, name);
    }
  }

  lemma LastToBindGrows(items: seq<Item>, i: int, name: string)
    requires items != [] && LastToBind(Init(items), i, name) && !Binds(Last(items), name)
    ensures LastToBind(items, i, name) && items[i] == Init(items)[i]
  {
    assert forall j :: 0 <= j < |items| - 1 ==> items[j] == Init(items)[j];
  }

  /**
   After any history every entry runs, after finitely many warnings, exactly one handler, and it
   belongs to the last registration that mentions the name.
   */
  lemma {:induction false} EveryEntryHasATarget(items: seq<Item>, name: string)
    requires name in TableOf(items)
    ensures exists i :: LastToBind(items, i, name) && Target(TableOf(items)[name]).reg == Named(items[i])
  {
    LastBindsOrKeeps(items, name);
    if Binds(Last(items), name) {
      assert LastToBind(items, |items| - 1, name);
    } else {
      EveryEntryHasATarget(Init(items), name);
      var i :| LastToBind(Init(items), i, name) && Target(TableOf(Init(items))[name]).reg == Named(Init(items)[i]);
      LastToBindGrows(items, i, name);
    }
  }

  // ------------------------------------------------------------ emission trace

  ghost predicate MutatesAt(items: seq<Item>, i: nat)
    requires i < |items|
  {
    items[i].Dispatches? && Mutates(TableOf(items[..i]), items[i].d, items[i].did)
  }

  /** The positions of a history where a resource was changed through a wired registration. */
  ghost function Mutations(items: seq<Item>): set<nat> {
    set i: nat | i < |items| && MutatesAt(items, i)
  }

  lemma MutationsSplit(items: seq<Item>)
    requires items != []
    ensures Mutations(Init(items)) == Mutations(items) - {|items| - 1}
  {
    var init := Init(items);
    forall i: nat | i < |init| ensures MutatesAt(init, i) == MutatesAt(items, i) {
      assert init[..i] == items[..i] && init[i] == items[i];
    }
  }

  /** Exactly one event per successful ensure or destroy through a wired registration, and no other. */
  lemma {:induction false} OneEventPerMutation(items: seq<Item>)
    ensures |Sent(items)| == |Mutations(items)|
  {
    if items == [] {
      assert Mutations(items) == {};
    } else {
      var k := |items| - 1;
      OneEventPerMutation(Init(items));
      MutationsSplit(items);
      LastEvent(items);
      assert k in Mutations(items) ==> |Mutations(items)| == |Mutations(items) - {k}| + 1;
      assert k !in Mutations(items) ==> Mutations(items) - {k} == Mutations(items);
    }
  }

  lemma LastEvent(items: seq<Item>)
    requires items != []
    ensures |Sent(items)| == |Sent(Init(items))| + if |items| - 1 in Mutations(items) then 1 else 0
  {
  }

  /** Events come in the order of their dispatches: a longer history only appends. */
  lemma {:induction false} EventsInOrder(items: seq<Item>, i: nat)
    requires i <= |items|
    ensures Sent(items[..i]) <= Sent(items)
  {
    if i < |items| {
      EventsInOrder(Init(items), i);
      assert Init(items)[..i] == items[..i];
    } else {
      assert items[..i] == items;
    }
  }

  /** And the k-th event is the event of the k-th mutation, as the table stood at its dispatch. */
  lemma EventOfMutation(items: seq<Item>, i: nat)
    requires i in Mutations(items)
    ensures var k := |Mutations(items[..i])|;
            && k < |Sent(items)|
            && EventsOf(TableOf(items[..i]), items[i].d, items[i].did, items[i].env) == [Sent(items)[k]]
  {
    OneEventPerMutation(items[..i]);
    EventsInOrder(items, i + 1);
    assert Init(items[..i + 1]) == items[..i] && Last(items[..i + 1]) == items[i];
    assert Sent(items[..i + 1])
        == Sent(items[..i]) + EventsOf(TableOf(items[..i]), items[i].d, items[i].did, items[i].env);
  }

  // ---------------------------------------------------- emitters change no reply

  predicate SameReg(a: Reg, b: Reg) {
    b == a.(emitter := b.emitter)
  }

  /** The same function up to the emitters of the registrations in it. */
  predicate Similar(f: Fn, g: Fn) {
    match (f, g)
    case (Handler(a, op), Handler(b, op')) => SameReg(a, b) && op == op'
    case (Shim(l, c, inner), Shim(l', c', inner')) => l == l' && c == c' && Similar(inner, inner')
    case _ => false
  }

  ghost predicate SimilarTables(t: Table, u: Table) {
    t.Keys == u.Keys && forall k :: k in t && k in u ==> Similar(t[k], u[k])
  }

  lemma {:induction false} LegacySimilar(t: Table, a: Reg, u: Table, b: Reg, n: nat)
    requires SimilarTables(t, u) && SameReg(a, b) && HasCanonical(t, a) && n <= |a.legacy|
    ensures HasCanonical(u, b) && SimilarTables(WithLegacy(t, a, n), WithLegacy(u, b, n))
  {
    assert forall op :: Name(a, op) == Name(b, op);
    assert Name(a, Ensure) in u.Keys && Name(a, Observe) in u.Keys && Name(a, Destroy) in u.Keys;
    if n > 0 {
      LegacySimilar(t, a, u, b, n - 1);
      AddLegacySimilar(WithLegacy(t, a, n - 1), a, WithLegacy(u, b, n - 1), b, a.legacy[n - 1]);
    }
  }

  lemma AddLegacySimilar(t: Table, a: Reg, u: Table, b: Reg, name: string)
    requires SimilarTables(t, u) && SameReg(a, b) && HasCanonical(t, a) && HasCanonical(u, b)
    ensures SimilarTables(AddLegacy(t, a, name), AddLegacy(u, b, name))
  {
    var canonical := Name(a, PickOp(name));
    assert canonical == Name(b, PickOp(name));
    assert Similar(t[canonical], u[canonical]);
  }

  lemma RegisterSimilar(t: Table, a: Reg, u: Table, b: Reg)
    requires SimilarTables(t, u) && SameReg(a, b)
    ensures SimilarTables(Register(t, a), Register(u, b))
  {
    assert forall op :: Name(a, op) == Name(b, op);
    var t', u' := Canonical(t, a), Canonical(u, b);
    assert t'.Keys == u'.Keys;
    LegacySimilar(t', a, u', b, |a.legacy|);
  }

  lemma {:induction false} TargetSimilar(f: Fn, g: Fn)
    requires Similar(f, g)
    ensures Similar(Target(f), Target(g))
  {
    if f.Shim? {
      TargetSimilar(f.inner, g.inner);
    }
  }

  lemma ReplySimilar(t: Table, u: Table, d: Delivery, did: Did)
    requires SimilarTables(t, u)
    ensures ReplyOf(t, d, did) == ReplyOf(u, d, did)
  {
    if d.Parsed? && OperationOf(d.req) in t.Keys {
      TargetSimilar(t[OperationOf(d.req)], u[OperationOf(d.req)]);
    }
  }

  /** The same history, with any other emitters, or none, wired and with any other emission failures. */
  ghost predicate SameButEmitters(i: Item, j: Item) {
    match (i, j)
    case (Registers(a, lower), Registers(b, lower')) => SameReg(a, b) && lower == lower'
    case (Dispatches(d, did, _), Dispatches(d', did', _)) => d == d' && did == did'
    case _ => false
  }

  lemma {:induction false} TablesSimilar(items: seq<Item>, items': seq<Item>)
    requires |items| == |items'| && forall i :: 0 <= i < |items| ==> SameButEmitters(items[i], items'[i])
    ensures SimilarTables(TableOf(items), TableOf(items'))
  {
    if items != [] {
      TablesSimilar(Init(items), Init(items'));
      assert SameButEmitters(Last(items), Last(items'));
      if Last(items).Registers? {
        var a, b := Named(Last(items)), Named(Last(items'));
        RegisterSimilar(TableOf(Init(items)), a, TableOf(Init(items')), b);
      }
    }
  }

  /** Two histories that differ only in emitters and emission failures give the same replies throughout. */
  lemma {:induction false} EmittersChangeNoReply(items: seq<Item>, items': seq<Item>)
    requires |items| == |items'| && forall i :: 0 <= i < |items| ==> SameButEmitters(items[i], items'[i])
    ensures Replies(items) == Replies(items')
  {
    if items != [] {
      EmittersChangeNoReply(Init(items), Init(items'));
      assert SameButEmitters(Last(items), Last(items'));
      TablesSimilar(Init(items), Init(items'));
      if Last(items).Dispatches? {
        ReplySimilar(TableOf(Init(items)), TableOf(Init(items')), Last(items).d, Last(items).did);
      }
    }
  }

  // ------------------------------------------- Dispatch and the execute handler

  /** The handler under "execute" of an adapter: the installed one with its table, or the author's own. */
  datatype Exec = Auto(t: AdapterDispatch) | Custom(id: nat)

  /** `dispatchTables`, with the "execute" handler of every adapter. */
  class Registry {
    var tables: map<nat, AdapterDispatch>
    var execute: map<nat, Exec>

    ghost predicate Valid()
      reads this
    {
      && (forall a :: a in execute && execute[a].Auto? ==> a in tables && tables[a] == execute[a].t)
      && (forall a, b :: a in tables && b in tables && a != b ==> tables[a] != tables[b])
    }

    constructor ()
      ensures Valid() && tables == map[] && execute == map[]
    {
      tables, execute := map[], map[];
    }

    /** `tableFor`: the table is made, and the execute handler installed, once per adapter. */
    method TableFor(a: nat) returns (t: AdapterDispatch)
      requires Valid()
      modifies this
      ensures Valid() && a in tables && t == tables[a]
      ensures a in old(tables) ==> tables == old(tables) && execute == old(execute)
      ensures a !in old(tables) ==> fresh(t) && t.entries == map[]
      ensures a !in old(tables) ==> tables == old(tables)[a := t] && execute == old(execute)[a := Auto(t)]
    {
      if a in tables {
        return tables[a];
      }
      t := new AdapterDispatch();
      tables := tables[a := t];
      execute := execute[a := Auto(t)];
    }

    /** `Adapter.Register("execute", ...)`: the last registration wins. */
    method RegisterExecute(a: nat, id: nat)
      requires Valid()
      modifies this
      ensures Valid() && tables == old(tables) && execute == old(execute)[a := Custom(id)]
    {
      execute := execute[a := Custom(id)];
    }

    /** RegisterReconciler on one adapter changes that adapter's table and no other. */
    method RegisterReconciler(a: nat, raw: Reg, lower: Lower)
      requires Valid() && Registrable(raw, lower)
      modifies this, if a in tables then {tables[a]} else {}
      ensures Valid() && a in tables
      ensures tables[a].entries
              == Register(if a in old(tables) then old(tables[a].entries) else map[], Normalized(raw, lower))
      ensures forall b | b in old(tables) && b != a ::
                b in tables && tables[b] == old(tables[b]) && tables[b].entries == old(tables[b].entries)
      ensures execute == if a in old(tables) then old(execute) else old(execute)[a := Auto(tables[a])]
    {
      var t := TableFor(a);
      t.RegisterReconciler(raw, lower);
    }

    /**
     `Dispatch`: an error (None) for an adapter without a table; otherwise it runs the adapter's
     table, and so does what the installed execute handler does in every state of the registry.
     */
    method Dispatch(a: nat, d: Delivery, did: Did, env: Env) returns (reply: Option<Reply>, sent: seq<MutationEvent>)
      requires Valid()
      ensures reply.None? <==> a !in tables
      ensures reply.None? ==> sent == []
      ensures a in tables ==> reply == Some(ReplyOf(tables[a].entries, d, did))
      ensures a in tables ==> sent == EventsOf(tables[a].entries, d, did, env)
      ensures a in execute && execute[a].Auto? ==> reply == Some(ReplyOf(execute[a].t.entries, d, did))
      ensures a in execute && execute[a].Auto? ==> sent == EventsOf(execute[a].t.entries, d, did, env)
    {
      if a !in tables {
        return None, [];
      }
      var session := new Session(tables[a]);
      var r := session.Execute(d, did, env);
      return Some(r), session.sent;
    }
  }
}
