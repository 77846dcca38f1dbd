/**
 * What a conversation's cart promises over whole runs of edits: it is a bag of priced keys,
 * its prices stay consistent, and an add-on can be taken back.
 */
module CartLaws {
  import opened Common
  import opened Pricing
  import opened Cart

  // ---- price consistency ----

  /** Every derived amount on the line agrees with its base price, options, add-ons and quantity. */
  predicate Priced(l: Line) {
    && l.unitPriceCents == UnitPrice(l.basePriceCents, l.selectedOptions, l.addOns)
    && l.priceCents == l.unitPriceCents
    && l.optionAdjustmentCents == OptionAdjustment(l.selectedOptions)
    && l.addOnTotalCents == AddOnTotal(l.addOns)
    && l.lineTotalCents == l.unitPriceCents * l.quantity
  }

  predicate AllPriced(cart: seq<Line>) {
    forall i :: 0 <= i < |cart| ==> Priced(cart[i])
  }

  predicate PositiveBase(cart: seq<Line>) {
    forall i :: 0 <= i < |cart| ==> cart[i].basePriceCents > 0
  }

  datatype Edit =
    | Add(request: Request)
    | Remove(itemName: string, amount: Option<int>, hint: Option<string>)
    | AddAddOn(itemName: string, addOn: AddOn)
    | DropAddOn(itemName: string, addOnName: string)
    | Instruct(itemName: string, text: string)

  function Apply(lower: string -> string, cart: seq<Line>, e: Edit): seq<Line> {
    match e
    case Add(r) => Added(cart, r)
    case Remove(name, q, hint) => Removed(lower, cart, name, q, hint).0
    case AddAddOn(name, a) => AddonAdded(lower, cart, name, a).0
    case DropAddOn(name, a) => AddonRemoved(lower, cart, name, a).0
    case Instruct(name, text) => Instructed(lower, cart, name, text).0
  }

  function Run(lower: string -> string, edits: seq<Edit>): seq<Line> {
    if edits == [] then [] else Apply(lower, Run(lower, edits[..|edits| - 1]), edits[|edits| - 1])
  }

  /**
   * Repricing after an add-on edit is right exactly when the base price is not zero, or the
   * fall-back to the current unit price happens not to matter.
   */
  lemma RepriceExact(l: Line, addOns: seq<AddOn>)
    requires Priced(l)
    ensures Priced(Reprice(l, addOns)) <==>
            (l.basePriceCents != 0 || l.priceCents == 0
             || l.priceCents + OptionAdjustment(l.selectedOptions) + AddOnTotal(addOns) <= 0)
  {
  }

  lemma ReplaceKeepsPrices(cart: seq<Line>, i: nat, l: Line)
    requires AllPriced(cart) && i < |cart| && Priced(l)
    ensures AllPriced(cart[i := l])
    ensures PositiveBase(cart) && l.basePriceCents == cart[i].basePriceCents ==> PositiveBase(cart[i := l])
  {
  }

  lemma AddKeepsPrices(cart: seq<Line>, r: Request)
    requires AllPriced(cart)
    ensures AllPriced(Added(cart, r))
    ensures PositiveBase(cart) && r.priceCents > 0 ==> PositiveBase(Added(cart, r))
  {
  }

  lemma RepriceKeepsPrices(cart: seq<Line>, i: nat, addOns: seq<AddOn>)
    requires AllPriced(cart) && PositiveBase(cart) && i < |cart|
    ensures AllPriced(cart[i := Reprice(cart[i], addOns)]) && PositiveBase(cart[i := Reprice(cart[i], addOns)])
  {
  }

  lemma EditKeepsPrices(lower: string -> string, cart: seq<Line>, e: Edit)
    requires AllPriced(cart) && PositiveBase(cart)
    requires e.Add? ==> e.request.priceCents > 0
    ensures AllPriced(Apply(lower, cart, e)) && PositiveBase(Apply(lower, cart, e))
  {
    var i := if e.Add? || e.Remove? then 0 else EditIndex(lower, cart, e.itemName);
    match e
    case Add(r) => AddKeepsPrices(cart, r);
    case Remove(name, q, hint) => RemovalKeepsPrices(lower, cart, name, q, hint);
    case AddAddOn(name, a) =>
      if i < |cart| {
        RepriceKeepsPrices(cart, i, cart[i].addOns + [a]);
      }
    case DropAddOn(name, a) =>
      if i < |cart| {
        var needle := Strip(lower(a));
        RepriceKeepsPrices(cart, i, Keep(cart[i].addOns, (x: AddOn) => !Contains(lower(x.name), needle)));
      }
    case Instruct(name, text) =>
      if i < |cart| {
        ReplaceKeepsPrices(cart, i, Instructed(lower, cart, name, text).0[i]);
      }
  }

  lemma RemovalKeepsPrices(lower: string -> string, cart: seq<Line>, name: string, q: Option<int>, hint: Option<string>)
    requires AllPriced(cart)
    ensures AllPriced(Removed(lower, cart, name, q, hint).0)
    ensures PositiveBase(cart) ==> PositiveBase(Removed(lower, cart, name, q, hint).0)
  {
    var cs := Candidates(lower, cart, Strip(lower(name)));
    if cs != [] {
      ReductionKeepsPrices(cart, Target(lower, cart, cs, hint), q);
    }
  }

  lemma ReductionKeepsPrices(cart: seq<Line>, t: nat, q: Option<int>)
    requires AllPriced(cart) && t < |cart|
    ensures AllPriced(Reduced(cart, t, q))
    ensures PositiveBase(cart) ==> PositiveBase(Reduced(cart, t, q))
  {
  }

  /** On every run, every line's unit price is max(0, base + options + add-ons) and its total is unit * quantity. */
  lemma {:induction false} RunKeepsPrices(lower: string -> string, edits: seq<Edit>)
    requires forall i :: 0 <= i < |edits| && edits[i].Add? ==> edits[i].request.priceCents > 0
    ensures AllPriced(Run(lower, edits)) && PositiveBase(Run(lower, edits))
  {
    if edits != [] {
      var n := |edits| - 1;
      RunKeepsPrices(lower, edits[..n]);
      EditKeepsPrices(lower, Run(lower, edits[..n]), edits[n]);
    }
  }

  // ---- add-on edits undo each other ----

  predicate Unmentioned(lower: string -> string, addOns: seq<AddOn>, needle: string) {
    forall i :: 0 <= i < |addOns| ==> !Contains(lower(addOns[i].name), needle)
  }

  lemma FirstStaysFirst(cart: seq<Line>, p: Line -> bool, l: Line)
    requires var i := FirstIndex(cart, p); i < |cart| && p(l)
    ensures FirstIndex(cart[FirstIndex(cart, p) := l], p) == FirstIndex(cart, p)
  {
    var i := FirstIndex(cart, p);
    FirstIndexIs(cart[i := l], p, i);
  }

  /** Adding then filtering one priced line's add-ons gives the line back exactly when the filter keeps the old ones. */
  lemma LineRestored(l: Line, addOn: AddOn, p: AddOn -> bool)
    requires Priced(l) && l.basePriceCents != 0 && !p(addOn)
    ensures Keep(l.addOns + [addOn], p) == Keep(l.addOns, p)
    ensures Reprice(Reprice(l, l.addOns + [addOn]), Keep(l.addOns, p)) == l <==>
            forall i :: 0 <= i < |l.addOns| ==> p(l.addOns[i])
  {
    assert (l.addOns + [addOn])[..|l.addOns|] == l.addOns;
  }

  /** The add-on is not there yet: adding it and filtering it out again. */
  lemma NewAddonUndone(lower: string -> string, cart: seq<Line>, itemName: string, addOn: AddOn)
    requires EditIndex(lower, cart, itemName) < |cart|
    requires var l := cart[EditIndex(lower, cart, itemName)];
             Priced(l) && l.basePriceCents != 0 && !HasAddOn(lower, l, lower(addOn.name))
    ensures var l := cart[EditIndex(lower, cart, itemName)];
            var after := AddonRemoved(lower, AddonAdded(lower, cart, itemName, addOn).0, itemName, addOn.name).0;
            after == cart <==> Unmentioned(lower, l.addOns, Strip(lower(addOn.name)))
  {
    var i := EditIndex(lower, cart, itemName);
    var l, p := cart[i], Unlike(lower, Strip(lower(addOn.name)));
    var more := Reprice(l, l.addOns + [addOn]);
    StripInside(lower(addOn.name));
    FirstStaysFirst(cart, (x: Line) => Alike(lower, x, Strip(lower(itemName))), more);
    LineRestored(l, addOn, p);
    var back := Reprice(more, Keep(l.addOns, p));
    assert cart[i := more][i := back] == cart[i := back];
    assert cart[i := back] == cart <==> back == l;
  }

  /**
   * Adding an add-on and removing it by name restores the cart exactly, if and only if no add-on
   * already on that line contains the removed name.
   */
  lemma AddonUndone(lower: string -> string, cart: seq<Line>, itemName: string, addOn: AddOn)
    requires EditIndex(lower, cart, itemName) < |cart|
    requires var l := cart[EditIndex(lower, cart, itemName)]; Priced(l) && l.basePriceCents != 0
    ensures var l := cart[EditIndex(lower, cart, itemName)];
            var after := AddonRemoved(lower, AddonAdded(lower, cart, itemName, addOn).0, itemName, addOn.name).0;
            after == cart <==> Unmentioned(lower, l.addOns, Strip(lower(addOn.name)))
  {
    var l := cart[EditIndex(lower, cart, itemName)];
    var p := Unlike(lower, Strip(lower(addOn.name)));
    if HasAddOn(lower, l, lower(addOn.name)) {
      StripInside(lower(addOn.name));
      var k :| 0 <= k < |l.addOns| && lower(l.addOns[k].name) == lower(addOn.name);
      assert !p(l.addOns[k]);
      assert Reprice(l, Keep(l.addOns, p)).addOns != l.addOns;
    } else {
      NewAddonUndone(lower, cart, itemName, addOn);
    }
  }

  // ---- the cart as a bag of keys ----

  predicate DistinctKeys(cart: seq<Line>) {
    forall i, j :: 0 <= i < j < |cart| ==> KeyOf(cart[i]) != KeyOf(cart[j])
  }

  predicate PositiveQuantities(cart: seq<Line>) {
    forall i :: 0 <= i < |cart| ==> cart[i].quantity >= 1
  }

  predicate Tidy(cart: seq<Line>) {
    DistinctKeys(cart) && PositiveQuantities(cart)
  }

  /** The plain bag: how many of each key. */
  type Bag = map<Key, int>

  ghost function BagOf(cart: seq<Line>): (b: Bag) {
    if cart == [] then map[] else BagOf(cart[..|cart| - 1])[KeyOf(cart[|cart| - 1]) := cart[|cart| - 1].quantity]
  }

  lemma UpdatesCommute<K, V>(m: map<K, V>, a: K, x: V, b: K, y: V)
    requires a != b
    ensures m[a := x][b := y] == m[b := y][a := x]
    ensures (m - {a})[b := y] == m[b := y] - {a}
  {
  }

  lemma UpdateThenDrop<K, V>(m: map<K, V>, a: K, x: V)
    requires a !in m
    ensures m[a := x] - {a} == m
  {
  }

  /** The bag's keys are the keys of the lines. */
  lemma {:induction false} AbsentKey(cart: seq<Line>, k: Key)
    requires forall j :: 0 <= j < |cart| ==> KeyOf(cart[j]) != k
    ensures k !in BagOf(cart)
  {
    if cart != [] {
      AbsentKey(cart[..|cart| - 1], k);
    }
  }

  /** The bag holds each line's quantity under that line's key. */
  lemma {:induction false} PresentKey(cart: seq<Line>, i: nat)
    requires DistinctKeys(cart) && i < |cart|
    ensures Count(BagOf(cart), KeyOf(cart[i])) == cart[i].quantity && KeyOf(cart[i]) in BagOf(cart)
  {
    if i < |cart| - 1 {
      PresentKey(cart[..|cart| - 1], i);
    }
  }

  /** One customer action as the bag sees it. */
  datatype Effect = Gain(key: Key, amount: int) | Lose(key: Key, amount: int) | DropAll(key: Key) | Nothing

  function Count(b: Bag, k: Key): int {
    if k in b then b[k] else 0
  }

  ghost predicate Fits(b: Bag, e: Effect) {
    match e
    case Gain(_, n) => n >= 1
    case Lose(k, n) => k in b && b[k] - n >= 1
    case DropAll(k) => k in b
    case Nothing => true
  }

  ghost function Affect(b: Bag, e: Effect): Bag {
    match e
    case Gain(k, n) => b[k := Count(b, k) + n]
    case Lose(k, n) => b[k := Count(b, k) - n]
    case DropAll(k) => b - {k}
    case Nothing => b
  }

  /** The effect a customer action has, given the cart in which names are looked up. */
  function EffectOf(lower: string -> string, cart: seq<Line>, e: Edit): Effect
    requires e.Add? || e.Remove?
  {
    match e
    case Add(r) => Gain(RequestKey(r), r.quantity)
    case Remove(name, q, hint) =>
      var cs := Candidates(lower, cart, Strip(lower(name)));
      if cs == [] then Nothing
      else
        LineEffect(cart[Target(lower, cart, cs, hint)], q)
  }

  function LineEffect(l: Line, q: Option<int>): Effect {
    if q.Some? && l.quantity > q.value then Lose(KeyOf(l), q.value) else DropAll(KeyOf(l))
  }

  lemma RequantifiedTidy(cart: seq<Line>, t: nat, q: int)
    requires Tidy(cart) && t < |cart| && q >= 1
    ensures Tidy(cart[t := WithQuantity(cart[t], q)])
  {
  }

  /** The bag when one line's quantity becomes q. */
  lemma {:induction false} RequantifiedBag(cart: seq<Line>, t: nat, q: int)
    requires DistinctKeys(cart) && t < |cart|
    ensures BagOf(cart[t := WithQuantity(cart[t], q)]) == BagOf(cart)[KeyOf(cart[t]) := q]
  {
    var n := |cart| - 1;
    var cart' := cart[t := WithQuantity(cart[t], q)];
    if t == n {
      assert cart'[..n] == cart[..n];
    } else {
      assert cart'[..n] == cart[..n][t := WithQuantity(cart[t], q)];
      RequantifiedBag(cart[..n], t, q);
      UpdatesCommute(BagOf(cart[..n]), KeyOf(cart[t]), q, KeyOf(cart[n]), cart[n].quantity);
    }
  }

  lemma DroppedTidy(cart: seq<Line>, t: nat)
    requires Tidy(cart) && t < |cart|
    ensures Tidy(Without(cart, t))
  {
  }

  lemma WithoutLast(cart: seq<Line>, i: nat)
    requires i < |cart|
    ensures var n, rest := |cart| - 1, Without(cart, i);
            |rest| == n
            && (i == n ==> rest == cart[..n])
            && (i < n ==> rest[..n - 1] == Without(cart[..n], i) && rest[n - 1] == cart[n])
  {
  }

  lemma {:induction false} DroppedBag(cart: seq<Line>, t: nat)
    requires DistinctKeys(cart) && t < |cart|
    ensures BagOf(Without(cart, t)) == BagOf(cart) - {KeyOf(cart[t])}
  {
    var n := |cart| - 1;
    WithoutLast(cart, t);
    if t == n {
      AbsentKey(cart[..n], KeyOf(cart[n]));
      UpdateThenDrop(BagOf(cart[..n]), KeyOf(cart[n]), cart[n].quantity);
    } else {
      DroppedBag(cart[..n], t);
      UpdatesCommute(BagOf(cart[..n]), KeyOf(cart[t]), 0, KeyOf(cart[n]), cart[n].quantity);
    }
  }

  lemma GrowRefinesBag(cart: seq<Line>, i: nat, n: int)
    requires Tidy(cart) && i < |cart| && n >= 1
    ensures var cart' := cart[i := WithQuantity(cart[i], cart[i].quantity + n)];
            Tidy(cart') && BagOf(cart') == Affect(BagOf(cart), Gain(KeyOf(cart[i]), n))
  {
    RequantifiedTidy(cart, i, cart[i].quantity + n);
    RequantifiedBag(cart, i, cart[i].quantity + n);
    PresentKey(cart, i);
  }

  lemma AppendTidy(cart: seq<Line>, l: Line)
    requires Tidy(cart) && l.quantity >= 1 && forall j :: 0 <= j < |cart| ==> KeyOf(cart[j]) != KeyOf(l)
    ensures Tidy(cart + [l])
  {
  }

  lemma AppendRefinesBag(cart: seq<Line>, l: Line)
    requires forall j :: 0 <= j < |cart| ==> KeyOf(cart[j]) != KeyOf(l)
    ensures BagOf(cart + [l]) == Affect(BagOf(cart), Gain(KeyOf(l), l.quantity))
  {
    AbsentKey(cart, KeyOf(l));
    var more := cart + [l];
    assert more[..|more| - 1] == cart && more[|more| - 1] == l;
  }

  lemma AddRefinesBag(cart: seq<Line>, r: Request)
    requires Tidy(cart) && r.quantity >= 1
    ensures Tidy(Added(cart, r))
    ensures BagOf(Added(cart, r)) == Affect(BagOf(cart), Gain(RequestKey(r), r.quantity))
  {
    var i := AddedIs(cart, r);
    if i < |cart| {
      GrowRefinesBag(cart, i, r.quantity);
    } else {
      AppendTidy(cart, NewLine(r));
      AppendRefinesBag(cart, NewLine(r));
    }
  }

  /** What adding does: the line with the request's key grows, or a new one is appended when there is none. */
  lemma AddedIs(cart: seq<Line>, r: Request) returns (i: nat)
    ensures if i < |cart| then
              KeyOf(cart[i]) == RequestKey(r)
              && Added(cart, r) == cart[i := WithQuantity(cart[i], cart[i].quantity + r.quantity)]
            else
              (forall j :: 0 <= j < |cart| ==> KeyOf(cart[j]) != RequestKey(r)) && Added(cart, r) == cart + [NewLine(r)]
    ensures KeyOf(NewLine(r)) == RequestKey(r) && NewLine(r).quantity == r.quantity
  {
    i := FirstIndex(cart, (l: Line) => KeyOf(l) == RequestKey(r));
  }

  lemma RemoveRefinesBag(lower: string -> string, cart: seq<Line>, e: Edit)
    requires Tidy(cart) && e.Remove?
    ensures Tidy(Apply(lower, cart, e))
    ensures Fits(BagOf(cart), EffectOf(lower, cart, e))
    ensures BagOf(Apply(lower, cart, e)) == Affect(BagOf(cart), EffectOf(lower, cart, e))
  {
    var cs := Candidates(lower, cart, Strip(lower(e.itemName)));
    if cs != [] {
      ReducedTidy(cart, Target(lower, cart, cs, e.hint), e.amount);
      ReducedRefinesBag(cart, Target(lower, cart, cs, e.hint), e.amount);
    }
  }

  lemma ReducedTidy(cart: seq<Line>, t: nat, q: Option<int>)
    requires Tidy(cart) && t < |cart|
    ensures Tidy(Reduced(cart, t, q))
  {
    if q.Some? && cart[t].quantity > q.value {
      RequantifiedTidy(cart, t, cart[t].quantity - q.value);
    } else {
      DroppedTidy(cart, t);
    }
  }

  /** The bag can give what the effect takes, and the new cart's bag is what is left. */
  ghost predicate Refines(after: seq<Line>, b: Bag, e: Effect) {
    Fits(b, e) && BagOf(after) == Affect(b, e)
  }

  lemma ReducedRefinesBag(cart: seq<Line>, t: nat, q: Option<int>)
    requires DistinctKeys(cart) && t < |cart|
    ensures Refines(Reduced(cart, t, q), BagOf(cart), LineEffect(cart[t], q))
  {
    if q.Some? && cart[t].quantity > q.value {
      LessRefinesBag(cart, t, q.value, cart[t].quantity - q.value);
    } else {
      DropRefinesBag(cart, t);
    }
  }

  lemma LessRefinesBag(cart: seq<Line>, t: nat, n: int, left: int)
    requires DistinctKeys(cart) && t < |cart| && left == cart[t].quantity - n >= 1
    ensures Refines(cart[t := WithQuantity(cart[t], left)], BagOf(cart), Lose(KeyOf(cart[t]), n))
  {
    RequantifiedBag(cart, t, left);
    PresentKey(cart, t);
    LoseIs(cart[t := WithQuantity(cart[t], left)], BagOf(cart), KeyOf(cart[t]), n, left);
  }

  lemma LoseIs(after: seq<Line>, b: Bag, k: Key, n: int, left: int)
    requires k in b && Count(b, k) - n == left >= 1 && BagOf(after) == b[k := left]
    ensures Refines(after, b, Lose(k, n))
  {
  }

  lemma DropRefinesBag(cart: seq<Line>, t: nat)
    requires DistinctKeys(cart) && t < |cart|
    ensures Refines(Without(cart, t), BagOf(cart), DropAll(KeyOf(cart[t])))
  {
    PresentKey(cart, t);
    DroppedBag(cart, t);
  }

  /** Shopping actions: adding at least one of something, or removing by name. */
  predicate Shopping(edits: seq<Edit>) {
    forall i :: 0 <= i < |edits| ==> edits[i].Remove? || (edits[i].Add? && edits[i].request.quantity >= 1)
  }

  /** The bag machine run over the same actions. */
  ghost function RunBag(lower: string -> string, edits: seq<Edit>): Bag
    requires Shopping(edits)
  {
    if edits == [] then map[]
    else
      var n := |edits| - 1;
      Affect(RunBag(lower, edits[..n]), EffectOf(lower, Run(lower, edits[..n]), edits[n]))
  }

  /**
   * Refinement over every run: keys stay distinct, quantities stay positive, every effect fits the
   * bag, and each key's quantity in the cart is what the bag machine says.
   */
  lemma {:induction false} CartRefinesBag(lower: string -> string, edits: seq<Edit>)
    requires Shopping(edits)
    ensures Tidy(Run(lower, edits))
    ensures BagOf(Run(lower, edits)) == RunBag(lower, edits)
    ensures edits != [] ==>
              Fits(RunBag(lower, edits[..|edits| - 1]),
                   EffectOf(lower, Run(lower, edits[..|edits| - 1]), edits[|edits| - 1]))
  {
    if edits != [] {
      var n := |edits| - 1;
      CartRefinesBag(lower, edits[..n]);
      if edits[n].Add? {
        AddRefinesBag(Run(lower, edits[..n]), edits[n].request);
      } else {
        RemoveRefinesBag(lower, Run(lower, edits[..n]), edits[n]);
      }
    }
  }

  // ---- the cart total is the bag's price ----

  function UnitOf(basePrice: string -> int, k: Key): int {
    UnitPrice(basePrice(k.menuItemId), k.selectedOptions, k.addOns)
  }

  ghost function BagPrice(b: Bag, basePrice: string -> int): int {
    SumOver(b.Keys, k => UnitOf(basePrice, k) * Count(b, k))
  }

  lemma BagPriceGain(b: Bag, basePrice: string -> int, k: Key, n: int)
    requires k !in b
    ensures BagPrice(b[k := n], basePrice) == BagPrice(b, basePrice) + UnitOf(basePrice, k) * n
  {
    var b' := b[k := n];
    var f := x => UnitOf(basePrice, x) * Count(b, x);
    var f' := x => UnitOf(basePrice, x) * Count(b', x);
    SumOverTake(b'.Keys, f', k);
    assert b'.Keys - {k} == b.Keys;
    SumOverSame(b.Keys, f, f');
  }

  /** Each menu item's base price is the same throughout the session. */
  predicate FixedPrices(cart: seq<Line>, basePrice: string -> int) {
    forall i :: 0 <= i < |cart| ==> cart[i].basePriceCents == basePrice(cart[i].menuItemId)
  }

  lemma {:induction false} TotalIsBagPrice(cart: seq<Line>, basePrice: string -> int)
    requires Tidy(cart) && AllPriced(cart) && FixedPrices(cart, basePrice)
    ensures Total(cart) == BagPrice(BagOf(cart), basePrice)
  {
    if cart == [] {
      assert BagOf(cart) == map[];
    } else {
      var n := |cart| - 1;
      TotalIsBagPrice(cart[..n], basePrice);
      AbsentKey(cart[..n], KeyOf(cart[n]));
      BagPriceGain(BagOf(cart[..n]), basePrice, KeyOf(cart[n]), cart[n].quantity);
    }
  }

  lemma {:induction false} ShoppingKeepsPrices(lower: string -> string, edits: seq<Edit>, basePrice: string -> int)
    requires Shopping(edits)
    requires forall i :: 0 <= i < |edits| && edits[i].Add? ==>
               edits[i].request.priceCents == basePrice(edits[i].request.menuItemId)
    ensures AllPriced(Run(lower, edits)) && FixedPrices(Run(lower, edits), basePrice)
  {
    if edits != [] {
      var n := |edits| - 1;
      ShoppingKeepsPrices(lower, edits[..n], basePrice);
      ShoppingStepKeepsPrices(lower, Run(lower, edits[..n]), edits[n], basePrice);
    }
  }

  lemma ShoppingStepKeepsPrices(lower: string -> string, cart: seq<Line>, e: Edit, basePrice: string -> int)
    requires AllPriced(cart) && FixedPrices(cart, basePrice)
    requires e.Remove? || (e.Add? && e.request.priceCents == basePrice(e.request.menuItemId))
    ensures AllPriced(Apply(lower, cart, e)) && FixedPrices(Apply(lower, cart, e), basePrice)
  {
    if e.Add? {
      AddKeepsPrices(cart, e.request);
    } else {
      RemovalKeepsPrices(lower, cart, e.itemName, e.amount, e.hint);
      var cs := Candidates(lower, cart, Strip(lower(e.itemName)));
      if cs != [] {
        ReductionKeepsBases(cart, Target(lower, cart, cs, e.hint), e.amount, basePrice);
      }
    }
  }

  lemma ReductionKeepsBases(cart: seq<Line>, t: nat, q: Option<int>, basePrice: string -> int)
    requires FixedPrices(cart, basePrice) && t < |cart|
    ensures FixedPrices(Reduced(cart, t, q), basePrice)
  {
  }

  /** When every item's base price is fixed for the session, the cart total is the price of the bag. */
  lemma RunTotalIsBagPrice(lower: string -> string, edits: seq<Edit>, basePrice: string -> int)
    requires Shopping(edits)
    requires forall i :: 0 <= i < |edits| && edits[i].Add? ==>
               edits[i].request.priceCents == basePrice(edits[i].request.menuItemId)
    ensures Total(Run(lower, edits)) == BagPrice(RunBag(lower, edits), basePrice)
  {
    CartRefinesBag(lower, edits);
    ShoppingKeepsPrices(lower, edits, basePrice);
    TotalIsBagPrice(Run(lower, edits), basePrice);
  }

  // ---- edits that change a line's key ----

  /** No line other than line i carries the key. */
  predicate KeyFree(cart: seq<Line>, i: nat, k: Key) {
    forall j :: 0 <= j < |cart| && j != i ==> KeyOf(cart[j]) != k
  }

  lemma ReplacedKeysIff(cart: seq<Line>, i: nat, l: Line)
    requires DistinctKeys(cart) && i < |cart|
    ensures DistinctKeys(cart[i := l]) <==> KeyFree(cart, i, KeyOf(l))
  {
    var cart' := cart[i := l];
    if DistinctKeys(cart') {
      forall j | 0 <= j < |cart| && j != i ensures KeyOf(cart[j]) != KeyOf(l) {
        assert KeyOf(cart'[j]) != KeyOf(cart'[i]);
      }
    }
  }

  /**
   * Editing instructions keeps keys distinct exactly when no other line has the same item, options and
   * add-ons and already carries the text the line ends up with.
   */
  lemma InstructKeepsKeys(lower: string -> string, cart: seq<Line>, itemName: string, text: string)
    requires DistinctKeys(cart) && EditIndex(lower, cart, itemName) < |cart|
    ensures var i := EditIndex(lower, cart, itemName);
            var l := cart[i];
            var merged := if Unmodified(l) then text else l.specialInstructions.value + ", " + text;
            DistinctKeys(Instructed(lower, cart, itemName, text).0) <==>
            KeyFree(cart, i, Key(l.menuItemId, l.selectedOptions, l.addOns, Some(merged)))
  {
    var i := EditIndex(lower, cart, itemName);
    ReplacedKeysIff(cart, i, Instructed(lower, cart, itemName, text).0[i]);
  }

  /** Adding an add-on keeps keys distinct exactly when it is already there, or no other line is this line with it. */
  lemma AddonKeepsKeys(lower: string -> string, cart: seq<Line>, itemName: string, addOn: AddOn)
    requires DistinctKeys(cart) && EditIndex(lower, cart, itemName) < |cart|
    ensures var i := EditIndex(lower, cart, itemName);
            var l := cart[i];
            DistinctKeys(AddonAdded(lower, cart, itemName, addOn).0) <==>
            HasAddOn(lower, l, lower(addOn.name))
            || KeyFree(cart, i, Key(l.menuItemId, l.selectedOptions, l.addOns + [addOn], l.specialInstructions))
  {
    var i := EditIndex(lower, cart, itemName);
    ReplacedKeysIff(cart, i, Reprice(cart[i], cart[i].addOns + [addOn]));
  }

  /** Removing add-ons keeps keys distinct exactly when none is removed, or no other line is this line without them. */
  lemma DropKeepsKeys(lower: string -> string, cart: seq<Line>, itemName: string, addOnName: string)
    requires DistinctKeys(cart) && EditIndex(lower, cart, itemName) < |cart|
    ensures var i := EditIndex(lower, cart, itemName);
            var l := cart[i];
            var kept := Keep(l.addOns, Unlike(lower, Strip(lower(addOnName))));
            DistinctKeys(AddonRemoved(lower, cart, itemName, addOnName).0) <==>
            kept == l.addOns || KeyFree(cart, i, Key(l.menuItemId, l.selectedOptions, kept, l.specialInstructions))
  {
    var i := EditIndex(lower, cart, itemName);
    ReplacedKeysIff(cart, i, Reprice(cart[i], Keep(cart[i].addOns, Unlike(lower, Strip(lower(addOnName))))));
  }

  predicate Ascending(cs: seq<nat>) {
    forall a, b :: 0 <= a < b < |cs| ==> cs[a] < cs[b]
  }

  lemma {:induction false} CandidatesAscend(lower: string -> string, cart: seq<Line>, needle: string)
    ensures Ascending(Candidates(lower, cart, needle))
  {
    if cart != [] {
      var n := |cart| - 1;
      var front := Candidates(lower, cart[..n], needle);
      CandidatesAscend(lower, cart[..n], needle);
      assert |cart[..n]| == n;
      assert Ascending(front + [n]);
    }
  }

  /** Among ascending indices the first line satisfying p is taken, or the first line when none does. */
  lemma {:induction false} PreferredFirst(cart: seq<Line>, cs: seq<nat>, p: Line -> bool)
    requires cs != [] && Within(cs, |cart|) && Ascending(cs)
    ensures var t := Preferred(cart, cs, p);
            if exists c :: c in cs && p(cart[c]) then p(cart[t]) && forall c :: c in cs && c < t ==> !p(cart[c])
            else t == cs[0]
  {
    assert forall c :: c in cs <==> c == cs[0] || c in cs[1..];
    if !p(cart[cs[0]]) && |cs| > 1 {
      PreferredFirst(cart, cs[1..], p);
    }
  }

  /** A line suits a hint: without instructions for a plain hint, else one of its instruction words occurs in the hint. */
  predicate Suits(lower: string -> string, hint: string, l: Line) {
    var text := if l.specialInstructions.Some? then l.specialInstructions.value else "";
    if WantsPlain(lower(hint)) then text == ""
    else text != "" && exists w :: w in Words(lower(text)) && Contains(lower(hint), w)
  }

  lemma SuitsIs(lower: string -> string, hint: string)
    ensures forall l: Line :: Suits(lower, hint, l) <==>
              if WantsPlain(lower(hint)) then Unmodified(l) else Mentioned(lower, l, lower(hint))
  {
  }

  predicate HintUsable(lower: string -> string, cart: seq<Line>, needle: string, hint: Option<string>) {
    hint.Some? && hint.value != ""
    && exists j :: 0 <= j < |cart| && Named(lower, cart[j], needle) && Suits(lower, hint.value, cart[j])
  }

  lemma HintedTarget(lower: string -> string, cart: seq<Line>, cs: seq<nat>, hint: string)
    requires cs != [] && Within(cs, |cart|) && Ascending(cs) && hint != ""
    ensures var t := Target(lower, cart, cs, Some(hint));
            if exists c :: c in cs && Suits(lower, hint, cart[c]) then
              Suits(lower, hint, cart[t]) && forall c :: c in cs && c < t ==> !Suits(lower, hint, cart[c])
            else t == cs[0]
  {
    SuitsIs(lower, hint);
    if WantsPlain(lower(hint)) {
      PreferredFirst(cart, cs, Unmodified);
    } else {
      PreferredFirst(cart, cs, MentionedIn(lower, lower(hint)));
    }
  }

  /**
   * Which line a removal by name takes: among the lines whose name matches, the first in the cart that
   * suits the hint if there is one, otherwise the first.
   */
  lemma RemovalTarget(lower: string -> string, cart: seq<Line>, itemName: string, hint: Option<string>)
    requires Candidates(lower, cart, Strip(lower(itemName))) != []
    ensures var needle := Strip(lower(itemName));
            var t := Target(lower, cart, Candidates(lower, cart, needle), hint);
            && Named(lower, cart[t], needle)
            && if HintUsable(lower, cart, needle, hint) then
                 && Suits(lower, hint.value, cart[t])
                 && forall j :: 0 <= j < t && Named(lower, cart[j], needle) ==> !Suits(lower, hint.value, cart[j])
               else forall j :: 0 <= j < t ==> !Named(lower, cart[j], needle)
  {
    var needle := Strip(lower(itemName));
    var cs := Candidates(lower, cart, needle);
    CandidatesAscend(lower, cart, needle);
    if hint.Some? && hint.value != "" {
      HintedTarget(lower, cart, cs, hint.value);
    }
  }

  /** The line a removal takes: its name matches, it suits the hint if one such line does, and it is the first such line. */
  predicate Chosen(lower: string -> string, cart: seq<Line>, needle: string, hint: Option<string>, t: nat) {
    && t < |cart| && Named(lower, cart[t], needle)
    && if HintUsable(lower, cart, needle, hint) then
         && Suits(lower, hint.value, cart[t])
         && forall j :: 0 <= j < t && Named(lower, cart[j], needle) ==> !Suits(lower, hint.value, cart[j])
       else forall j :: 0 <= j < t ==> !Named(lower, cart[j], needle)
  }

  /** The line loses q of its quantity if it has more, and goes otherwise; the other lines stay as they are. */
  predicate TakenAt(before: seq<Line>, after: seq<Line>, q: Option<int>, t: nat) {
    && t < |before|
    && if q.Some? && before[t].quantity > q.value then
         var left := before[t].quantity - q.value;
         after == before[t := before[t].(quantity := left, lineTotalCents := before[t].priceCents * left)]
       else after == before[..t] + before[t + 1..]
  }

  /** A removal by name succeeds exactly when some line's name contains the text, and then takes the chosen line. */
  lemma RemovalIs(lower: string -> string, cart: seq<Line>, itemName: string, q: Option<int>, hint: Option<string>)
    ensures var needle := Strip(lower(itemName));
            var (after, found) := Removed(lower, cart, itemName, q, hint);
            && (found <==> exists j :: 0 <= j < |cart| && Contains(lower(cart[j].name), needle))
            && if found then exists t: nat :: Chosen(lower, cart, needle, hint, t) && TakenAt(cart, after, q, t)
               else after == cart
  {
    var needle := Strip(lower(itemName));
    var cs := Candidates(lower, cart, needle);
    if cs == [] {
      forall j | 0 <= j < |cart| ensures !Contains(lower(cart[j].name), needle) {
        assert j in cs <==> Named(lower, cart[j], needle);
      }
    } else {
      RemovalTarget(lower, cart, itemName, hint);
      var t := Target(lower, cart, cs, hint);
      assert Named(lower, cart[t], needle);
      assert Chosen(lower, cart, needle, hint, t) && TakenAt(cart, Removed(lower, cart, itemName, q, hint).0, q, t);
    }
  }
}
