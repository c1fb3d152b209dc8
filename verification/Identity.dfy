/**
 How `sdk/reconcile/register.go` names the resource of an event: `inferRefFromInput` for a
 destroy payload, `inferResourceID` for the observed state after an ensure, and the coercion
 of numeric identifiers, which reach it as float64.
 */
module Identity {
  import opened Basics
  import opened Text

  /** A decoded JSON value; a number that is not an int64 carries its %g text. */
  datatype Json = Str(s: string) | Int(n: int) | Float(text: string) | Null | Other

  type Obj = map<string, Json>

  // -------------------------------------------------------------- float64

  const TWO53: int := 0x20_0000_0000_0000

  function Pow2(e: nat): (p: nat)
    ensures p > 0
  {
    if e == 0 then 1 else 2 * Pow2(e - 1)
  }

  /** How many low bits a 53-bit significand cannot hold. */
  function Excess(n: nat): (e: nat)
    decreases n
  {
    if n < TWO53 then 0 else 1 + Excess(n / 2)
  }

  /** How many units a number is rounded to: the nearest multiple, the even one of two that are as near. */
  function Units(n: nat, unit: nat): nat
    requires unit > 0
  {
    var q, r := n / unit, n % unit;
    if 2 * r > unit || (2 * r == unit && q % 2 == 1) then q + 1 else q
  }

  function RoundNat(n: nat): nat {
    if n <= TWO53 then n else Units(n, Pow2(Excess(n))) * Pow2(Excess(n))
  }

  /** The integer a JSON number literal becomes as float64: nearest, ties to even. */
  function Float64(n: int): int {
    var r: int := RoundNat(if n < 0 then -n else n);
    if n < 0 then -r else r
  }

  lemma {:induction false} ExcessFits(n: nat)
    ensures n / Pow2(Excess(n)) < TWO53
    ensures n >= TWO53 ==> 2 * (n / Pow2(Excess(n))) >= TWO53
  {
    if n >= TWO53 {
      ExcessFits(n / 2);
      var u := Pow2(Excess(n / 2));
      assert Pow2(Excess(n)) == 2 * u;
      HalfThenPart(n, u);
      if n / 2 < TWO53 {
        assert u == 1;
      }
    }
  }

  lemma HalfThenPart(n: nat, u: nat)
    requires u > 0
    ensures n / (2 * u) == (n / 2) / u
  {
    var q, r := (n / 2) / u, (n / 2) % u;
    assert n / 2 == q * u + r;
    assert n == q * (2 * u) + (2 * r + n % 2);
    assert 0 <= 2 * r + n % 2 < 2 * u;
    QuotientIs(n, 2 * u, q, 2 * r + n % 2);
  }

  lemma {:induction false} TimesGrows(a: nat, b: nat, d: nat)
    requires a < b
    ensures a * d + d <= b * d
    decreases b
  {
    assert b * d == (b - 1) * d + d;
    if a < b - 1 {
      TimesGrows(a, b - 1, d);
    }
  }

  lemma QuotientIs(n: nat, d: nat, q: nat, r: nat)
    requires d > 0 && n == q * d + r && r < d
    ensures n / d == q && n % d == r
  {
    var k, e := n / d, n % d;
    assert n == k * d + e;
    if k < q {
      TimesGrows(k, q, d);
    } else if q < k {
      TimesGrows(q, k, d);
    }
  }

  /** One rounding step: `q` units and `d` left over become `k` units. */
  lemma NearestUnits(n: nat, q: nat, d: nat, unit: nat, k: nat, r: nat)
    requires unit > 0 && n == q * unit + d && d < unit && r == k * unit
    requires k == if 2 * d > unit || (2 * d == unit && q % 2 == 1) then q + 1 else q
    ensures 2 * Abs(r - n) <= unit && (2 * Abs(r - n) == unit ==> k % 2 == 0)
  {
    if k == q + 1 {
      assert r == q * unit + unit;
    }
  }

  lemma Parts(n: nat, unit: nat)
    requires unit > 0
    ensures n == (n / unit) * unit + n % unit
  {
  }

  lemma RoundToIsNearest(n: nat, unit: nat, r: nat)
    requires unit > 0 && r == Units(n, unit) * unit
    ensures r % unit == 0 && 2 * Abs(r - n) <= unit && (2 * Abs(r - n) == unit ==> (r / unit) % 2 == 0)
  {
    var q, d, k := n / unit, n % unit, Units(n, unit);
    Parts(n, unit);
    NearestUnits(n, q, d, unit, k, r);
    QuotientIs(r, unit, k, 0);
  }

  /**
   The rounding is to the nearest number of 53 significant bits: a multiple of the unit that is
   no further than half a unit away, and the even one of two that are as near.
   */
  lemma RoundsToNearest(n: nat)
    requires n > TWO53
    ensures var unit, r := Pow2(Excess(n)), RoundNat(n);
            && n / unit < TWO53 <= 2 * (n / unit)
            && r % unit == 0 && 2 * Abs(r - n) <= unit
            && (2 * Abs(r - n) == unit ==> (r / unit) % 2 == 0)
  {
    ExcessFits(n);
    RoundToIsNearest(n, Pow2(Excess(n)), RoundNat(n));
  }

  // ----------------------------------------------------------- coercion

  /** `coerceToNonEmptyString`: zero and non-scalars give "". */
  function Coerce(v: Json): string {
    match v
    case Str(s) => s
    case Int(n) => if Float64(n) == 0 then "" else Decimal(Float64(n))
    case Float(text) => text
    case Null => ""
    case Other => ""
  }

  /** Integers up to 2^53 in absolute value keep their identity in the text. */
  lemma SmallIdsExact(n: int)
    requires Abs(n) <= TWO53
    ensures Coerce(Int(n)) == if n == 0 then "" else Decimal(n)
  {
  }

  /** The texts of numeric ids up to `bound` are pairwise different. */
  ghost predicate Distinguishes(bound: nat) {
    forall m, n :: 0 < Abs(m) <= bound && 0 < Abs(n) <= bound && Coerce(Int(m)) == Coerce(Int(n)) ==> m == n
  }

  lemma FirstCollision()
    ensures Coerce(Int(TWO53 + 1)) == Coerce(Int(TWO53))
  {
    assert Excess(TWO53 + 1) == 1 by {
      assert (TWO53 + 1) / 2 < TWO53;
    }
    assert Pow2(1) == 2;
    assert Float64(TWO53 + 1) == TWO53;
  }

  /** Numeric ids are told apart exactly up to 2^53. */
  lemma DistinguishesIff(bound: nat)
    ensures Distinguishes(bound) <==> bound <= TWO53
  {
    if bound <= TWO53 {
      forall m, n | 0 < Abs(m) <= bound && 0 < Abs(n) <= bound && Coerce(Int(m)) == Coerce(Int(n)) ensures m == n {
        SmallIdsExact(m);
        SmallIdsExact(n);
        DecimalInjective(m, n);
      }
    } else {
      FirstCollision();
      assert Abs(TWO53) <= bound && Abs(TWO53 + 1) <= bound;
    }
  }

  // ------------------------------------------------------------- the ladders

  /** A string member, or "" when it is absent or no string. */
  function StrAt(m: Obj, key: string): string {
    if key in m && m[key].Str? then m[key].s else ""
  }

  function CoercedAt(m: Obj, key: string): string {
    if key in m then Coerce(m[key]) else ""
  }

  function OwnerRepo(m: Obj): string {
    if StrAt(m, "owner") != "" && StrAt(m, "repo") != "" then StrAt(m, "owner") + "/" + StrAt(m, "repo") else ""
  }

  /** `inferRefFromInput`; None is an input that is no JSON object. */
  function InferRef(input: Option<Obj>, resource: string): string {
    if input.None? then "" else
      var m := input.value;
      if StrAt(m, "ref") != "" then StrAt(m, "ref")
      else if resource != "" && StrAt(m, resource + "_id") != "" then StrAt(m, resource + "_id")
      else if StrAt(m, "id") != "" then StrAt(m, "id")
      else if OwnerRepo(m) != "" then OwnerRepo(m)
      else if resource != "" then StrAt(m, resource)
      else ""
  }

  /** `inferResourceID`; `reflected` is the string ID field of a typed observed state, or "". */
  function InferId(reflected: string, observed: Option<Obj>, resource: string): string {
    if reflected != "" then reflected else if observed.None? then "" else
      var m := observed.value;
      if CoercedAt(m, "id") != "" then CoercedAt(m, "id")
      else if CoercedAt(m, "ID") != "" then CoercedAt(m, "ID")
      else if CoercedAt(m, "Id") != "" then CoercedAt(m, "Id")
      else if resource != "" && CoercedAt(m, resource + "_id") != "" then CoercedAt(m, resource + "_id")
      else if OwnerRepo(m) != "" then OwnerRepo(m)
      else if CoercedAt(m, "full_name") != "" then CoercedAt(m, "full_name")
      else if resource != "" then CoercedAt(m, resource)
      else ""
  }

  /** Keys that the ensure ladder reads and the destroy ladder does not, unless the resource is named so. */
  predicate EnsureOnly(key: string, resource: string) {
    key != resource && key in {"ID", "Id", "full_name"}
  }

  /** The part of an object that the destroy ladder reads: its strings, short of the keys only ensure knows. */
  function Seen(m: Obj, resource: string): Obj {
    map key | key in m && m[key].Str? && !EnsureOnly(key, resource) :: m[key]
  }

  /** Both generic and scoped identifier are given and differ. */
  predicate Torn(m: Obj, resource: string) {
    var id, scoped := StrAt(m, "id"), StrAt(m, resource + "_id");
    resource != "" && id != "" && scoped != "" && id != scoped
  }

  /** Registered resources are lower-case. */
  predicate LowerCase(resource: string) {
    forall i :: 0 <= i < |resource| ==> !('A' <= resource[i] <= 'Z')
  }

  lemma SeenAt(m: Obj, resource: string, key: string)
    ensures CoercedAt(Seen(m, resource), key) == if EnsureOnly(key, resource) then "" else StrAt(m, key)
    ensures StrAt(Seen(m, resource), key) == if EnsureOnly(key, resource) then "" else StrAt(m, key)
  {
  }

  /** Without a `ref` and untorn, destroy names what ensure would name on the part that destroy sees. */
  lemma DestroySees(m: Obj, resource: string)
    requires LowerCase(resource) && StrAt(m, "ref") == "" && !Torn(m, resource)
    ensures InferRef(Some(m), resource) == InferId("", Some(Seen(m, resource)), resource)
  {
    assert resource != "ID" && resource != "Id" by {
      assert "ID"[0] == 'I' && "Id"[0] == 'I';
    }
    SeenAt(m, resource, "id");
    SeenAt(m, resource, "ID");
    SeenAt(m, resource, "Id");
    SeenAt(m, resource, "owner");
    SeenAt(m, resource, "repo");
    SeenAt(m, resource, "full_name");
    SeenAt(m, resource, resource);
    assert (resource + "_id")[|resource|] == '_' && (resource + "_id")[|resource| + 1] == 'i';
    assert !EnsureOnly(resource + "_id", resource);
    SeenAt(m, resource, resource + "_id");
  }

  /** The members the destroy ladder looks at, and those the ensure ladder looks at, each in its order. */
  function DestroyTexts(m: Obj, resource: string): seq<string> {
    [StrAt(m, "ref"), if resource == "" then "" else StrAt(m, resource + "_id"), StrAt(m, "id"),
     OwnerRepo(m), if resource == "" then "" else StrAt(m, resource)]
  }

  function EnsureTexts(m: Obj, resource: string): seq<string> {
    [CoercedAt(m, "id"), CoercedAt(m, "ID"), CoercedAt(m, "Id"),
     if resource == "" then "" else CoercedAt(m, resource + "_id"), OwnerRepo(m),
     CoercedAt(m, "full_name"), if resource == "" then "" else CoercedAt(m, resource)]
  }

  /** The first of the texts that says anything is the one at `i`. */
  predicate Leads(texts: seq<string>, i: int) {
    0 <= i < |texts| && texts[i] != "" && forall k :: 0 <= k < i ==> texts[k] == ""
  }

  predicate Silent(texts: seq<string>) {
    forall k :: 0 <= k < |texts| ==> texts[k] == ""
  }

  lemma DestroyLeads(m: Obj, resource: string)
    ensures var texts := DestroyTexts(m, resource);
            if Silent(texts) then InferRef(Some(m), resource) == ""
            else exists i :: Leads(texts, i) && InferRef(Some(m), resource) == texts[i]
  {
    var texts := DestroyTexts(m, resource);
    var i := if texts[0] != "" then 0 else if texts[1] != "" then 1 else if texts[2] != "" then 2
             else if texts[3] != "" then 3 else 4;
    assert Leads(texts, i) || Silent(texts);
  }

  lemma EnsureLeads(m: Obj, resource: string)
    ensures var texts := EnsureTexts(m, resource);
            if Silent(texts) then InferId("", Some(m), resource) == ""
            else exists i :: Leads(texts, i) && InferId("", Some(m), resource) == texts[i]
  {
    var texts := EnsureTexts(m, resource);
    var i := if texts[0] != "" then 0 else if texts[1] != "" then 1 else if texts[2] != "" then 2
             else if texts[3] != "" then 3 else if texts[4] != "" then 4 else if texts[5] != "" then 5 else 6;
    assert Leads(texts, i) || Silent(texts);
  }

  /**
   For every object: destroy and ensure name the same resource if and only if the first non-empty
   member in the order of the one spells the first non-empty member in the order of the other, or
   neither finds any.
   */
  lemma LaddersAgreeIff(m: Obj, resource: string)
    ensures var d, e := DestroyTexts(m, resource), EnsureTexts(m, resource);
            InferRef(Some(m), resource) == InferId("", Some(m), resource)
            <==> (Silent(d) && Silent(e)) || exists i, j :: Leads(d, i) && Leads(e, j) && d[i] == e[j]
  {
    var d, e := DestroyTexts(m, resource), EnsureTexts(m, resource);
    DestroyLeads(m, resource);
    EnsureLeads(m, resource);
    if !Silent(d) && !Silent(e) {
      var i :| Leads(d, i) && InferRef(Some(m), resource) == d[i];
      var j :| Leads(e, j) && InferId("", Some(m), resource) == e[j];
      assert forall k :: Leads(d, k) ==> k == i;
      assert forall k :: Leads(e, k) ==> k == j;
    }
  }

  /** String identifiers, and nothing under the keys that only one of the ladders knows. */
  predicate Plain(m: Obj, resource: string) {
    && StrAt(m, "ref") == "" && CoercedAt(m, "ID") == "" && CoercedAt(m, "Id") == "" && CoercedAt(m, "full_name") == ""
    && CoercedAt(m, "id") == StrAt(m, "id") && CoercedAt(m, resource + "_id") == StrAt(m, resource + "_id")
    && CoercedAt(m, resource) == StrAt(m, resource)
  }

  /** On plain objects they agree if and only if `id` and `<resource>_id` do not differ. */
  lemma PlainLaddersAgreeIff(m: Obj, resource: string)
    requires Plain(m, resource)
    ensures InferRef(Some(m), resource) == InferId("", Some(m), resource) <==> !Torn(m, resource)
  {
  }

  /** A numeric id names the resource on ensure, whatever else is there, and destroy does as if it were not there. */
  lemma NumericIdsDisagree(m: Obj, resource: string, n: int)
    requires "id" in m && m["id"] == Int(n) && 0 < Abs(n) <= TWO53
    ensures InferId("", Some(m), resource) == Decimal(n)
    ensures InferRef(Some(m), resource) == InferRef(Some(m - {"id"}), resource)
  {
    assert Decimal(n) != "";
    assert forall key :: StrAt(m - {"id"}, key) == StrAt(m, key);
  }

  // --------------------------------------------------- the order of the lookups

  /** A member that is a non-empty string. */
  predicate Has(m: Obj, key: string) {
    key in m && m[key].Str? && m[key].s != ""
  }

  /** The order documented for destroy payloads, member by member; owner and repo are joined as "owner/repo". */
  lemma DestroyLookupOrder(m: Obj, resource: string)
    requires resource != ""
    ensures var scoped, ref := resource + "_id", InferRef(Some(m), resource);
            if Has(m, "ref") then ref == m["ref"].s
            else if Has(m, scoped) then ref == m[scoped].s
            else if Has(m, "id") then ref == m["id"].s
            else if Has(m, "owner") && Has(m, "repo") then ref == m["owner"].s + "/" + m["repo"].s
            else if Has(m, resource) then ref == m[resource].s
            else ref == ""
  {
  }

  /** The order for the state after an ensure, for members that are strings or missing. */
  lemma EnsureLookupOrder(m: Obj, resource: string)
    requires resource != "" && forall key :: key in m ==> m[key].Str?
    ensures var scoped, id := resource + "_id", InferId("", Some(m), resource);
            if Has(m, "id") then id == m["id"].s
            else if Has(m, "ID") then id == m["ID"].s
            else if Has(m, "Id") then id == m["Id"].s
            else if Has(m, scoped) then id == m[scoped].s
            else if Has(m, "owner") && Has(m, "repo") then id == m["owner"].s + "/" + m["repo"].s
            else if Has(m, "full_name") then id == m["full_name"].s
            else if Has(m, resource) then id == m[resource].s
            else id == ""
  {
  }

  /** A typed state with an ID of its own is named by it, and what is no object has no name. */
  lemma ReflectedIdWins(reflected: string, observed: Option<Obj>, resource: string)
    ensures reflected != "" ==> InferId(reflected, observed, resource) == reflected
    ensures reflected == "" && observed.None? ==> InferId(reflected, observed, resource) == ""
    ensures InferRef(None, resource) == ""
  {
  }
}
