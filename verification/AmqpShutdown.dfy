/**
 Which subscriptions the transport's `Close` reaches (`rpc/amqp/amqp.go`): it takes the list
 of subscriptions under `subsMu`, closes those, and returns, while `Consume` goes on
 appending. A second Close returns at once.
 */
module AmqpShutdown {
  import opened Basics

  type SubId = nat

  /**
   The field `subs`; the subscriptions Close took and has yet to close; those it closed. `early`
   are the subscriptions appended before it took the list, `all` those appended at all.
   */
  datatype State = State(
    subs: seq<SubId>, taken: Option<seq<SubId>>, closed: set<SubId>, returned: bool, early: set<SubId>, all: set<SubId>)

  datatype Event = Append(sub: SubId) | TakeList | CloseNext | Return

  predicate Init(s: State) {
    s == State([], None, {}, false, {}, {})
  }

  function Step(s: State, e: Event): Option<State> {
    match e
    case Append(sub) =>
      if sub in s.all then None
      else Some(s.(subs := s.subs + [sub], all := s.all + {sub},
                   early := if s.taken.None? then s.early + {sub} else s.early))
    case TakeList =>
      if s.taken.Some? then None else Some(s.(taken := Some(s.subs), subs := []))
    case CloseNext =>
      if s.taken.None? || s.taken.value == [] then None
      else Some(s.(taken := Some(s.taken.value[1..]), closed := s.closed + {s.taken.value[0]}))
    case Return =>
      if s.taken != Some([]) || s.returned then None else Some(s.(returned := true))
  }

  function After(s: State, es: seq<Event>): Option<State>
    decreases |es|
  {
    if es == [] then Some(s) else
      match After(s, es[..|es| - 1])
      case None => None
      case Some(s') => Step(s', es[|es| - 1])
  }

  ghost function Elements(xs: seq<SubId>): set<SubId> {
    set x | x in xs
  }

  /** What Close is to close and has closed is what was appended before it took the list. */
  ghost predicate Inv(s: State) {
    && (if s.taken.None? then s.all == s.early == Elements(s.subs) && s.closed == {}
        else s.early == s.closed + Elements(s.taken.value))
    && s.early <= s.all && Elements(s.subs) <= s.all
    && (s.taken.Some? ==> Elements(s.subs) == s.all - s.early)
    && (s.returned ==> s.taken == Some([]))
  }

  lemma StepKeeps(s: State, e: Event, s': State)
    requires Inv(s) && Step(s, e) == Some(s')
    ensures Inv(s')
  {
    match e
    case Append(sub) =>
      assert Elements(s'.subs) == Elements(s.subs) + {sub};
    case TakeList =>
      assert Elements(s'.subs) == {};
    case CloseNext =>
      var xs := s.taken.value;
      assert xs == [xs[0]] + xs[1..];
      assert Elements(xs) == {xs[0]} + Elements(xs[1..]);
    case Return =>
  }

  lemma {:induction false} RunKeeps(s0: State, es: seq<Event>)
    requires Init(s0) && After(s0, es).Some?
    ensures Inv(After(s0, es).value)
    decreases |es|
  {
    if es == [] {
      assert Elements(s0.subs) == {};
    } else {
      var init := es[..|es| - 1];
      RunKeeps(s0, init);
      StepKeeps(After(s0, init).value, es[|es| - 1], After(s0, es).value);
    }
  }

  /**
   When Close has returned, and ever after, it has closed exactly the subscriptions appended before
   it took the list; the later ones stay on a list that no Close reads again.
   */
  lemma CloseReachesEarlyOnes(s0: State, es: seq<Event>)
    requires Init(s0) && After(s0, es).Some? && After(s0, es).value.returned
    ensures var s := After(s0, es).value;
            s.closed == s.early && Elements(s.subs) == s.all - s.early
  {
    RunKeeps(s0, es);
    assert Elements([]) == {};
  }

  /** There are such: a Consume that appends late is not closed. */
  lemma LateSubscriptionHappens()
    ensures exists s0, es :: Init(s0) && After(s0, es).Some? && After(s0, es).value.returned
                             && After(s0, es).value.closed < After(s0, es).value.all
  {
    var s0 := State([], None, {}, false, {}, {});
    var es := [TakeList, Append(0), Return];
    assert es[..2][..1] == [TakeList] && es[..2] == [TakeList, Append(0)] && [TakeList][..0] == [];
    assert After(s0, []) == Some(s0);
    assert After(s0, [TakeList]) == Some(s0.(taken := Some([])));
    assert After(s0, es[..2]).Some?;
    assert 0 in After(s0, es).value.all;
  }
}
