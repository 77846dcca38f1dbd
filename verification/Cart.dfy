/**
 * The conversation cart. Names are matched after case folding; the folding function is a
 * parameter (`lower`), so every result here holds for whatever folding the host language uses.
 */
module Cart {
  import opened Common
  import opened Pricing

  datatype Line = Line(
    menuItemId: string,
    name: string,
    priceCents: int,
    basePriceCents: int,
    selectedOptions: seq<SelectedOption>,
    addOns: seq<AddOn>,
    optionAdjustmentCents: int,
    addOnTotalCents: int,
    unitPriceCents: int,
    quantity: int,
    lineTotalCents: int,
    options: Option<string>,
    specialInstructions: Option<string>)

  /** What makes two cart entries the same entry. */
  datatype Key = Key(
    menuItemId: string,
    selectedOptions: seq<SelectedOption>,
    addOns: seq<AddOn>,
    specialInstructions: Option<string>)

  function KeyOf(l: Line): Key {
    Key(l.menuItemId, l.selectedOptions, l.addOns, l.specialInstructions)
  }

  datatype Request = Request(
    menuItemId: string,
    name: string,
    priceCents: int,
    quantity: int,
    selectedOptions: seq<SelectedOption>,
    addOns: seq<AddOn>,
    options: Option<string>,
    specialInstructions: Option<string>)

  function RequestKey(r: Request): Key {
    Key(r.menuItemId, r.selectedOptions, r.addOns, r.specialInstructions)
  }

  // ---- specification functions ----

  /** The four fields that make two cart lines one. */
  predicate SameKey(l: Line, r: Request) {
    l.menuItemId == r.menuItemId && l.selectedOptions == r.selectedOptions && l.addOns == r.addOns
    && l.specialInstructions == r.specialInstructions
  }

  /** The first line with the request's key takes its quantity; nothing else changes. */
  predicate Accumulates(before: seq<Line>, after: seq<Line>, r: Request, i: nat) {
    && i < |before| == |after| && SameKey(before[i], r)
    && (forall j :: 0 <= j < i ==> !SameKey(before[j], r))
    && (forall j :: 0 <= j < |before| && j != i ==> after[j] == before[j])
    && var q := before[i].quantity + r.quantity;
       after[i] == before[i].(quantity := q, lineTotalCents := before[i].priceCents * q)
  }

  /** A new line says what was asked for, at its computed price. */
  predicate Fresh(l: Line, r: Request) {
    && SameKey(l, r) && l.name == r.name && l.options == r.options && l.quantity == r.quantity
    && l.basePriceCents == r.priceCents
    && l.optionAdjustmentCents == OptionAdjustment(r.selectedOptions) && l.addOnTotalCents == AddOnTotal(r.addOns)
    && l.unitPriceCents == Max(0, r.priceCents + OptionAdjustment(r.selectedOptions) + AddOnTotal(r.addOns))
    && l.priceCents == l.unitPriceCents && l.lineTotalCents == l.unitPriceCents * r.quantity
  }

  /** Position of the first line satisfying p, or |cart| when there is none. */
  function FirstIndex(cart: seq<Line>, p: Line -> bool): (i: nat)
    ensures i <= |cart|
    ensures i < |cart| ==> p(cart[i])
    ensures forall j :: 0 <= j < i ==> !p(cart[j])
  {
    if cart == [] || p(cart[0]) then 0 else 1 + FirstIndex(cart[1..], p)
  }

  lemma FirstIndexIs(cart: seq<Line>, p: Line -> bool, i: nat)
    requires i <= |cart| && (i < |cart| ==> p(cart[i]))
    requires forall j :: 0 <= j < i ==> !p(cart[j])
    ensures i == FirstIndex(cart, p)
  {
  }

  function WithQuantity(l: Line, quantity: int): Line {
    l.(quantity := quantity, lineTotalCents := l.priceCents * quantity)
  }

  function NewLine(r: Request): Line {
    var b := LineItem(r.priceCents, r.selectedOptions, r.addOns, r.quantity);
    Line(r.menuItemId, r.name, b.unitPriceCents, r.priceCents, r.selectedOptions, r.addOns,
         b.optionAdjustmentCents, b.addOnTotalCents, b.unitPriceCents, r.quantity, b.lineTotalCents,
         r.options, r.specialInstructions)
  }

  function Added(cart: seq<Line>, r: Request): seq<Line> {
    var i := FirstIndex(cart, (l: Line) => KeyOf(l) == RequestKey(r));
    if i < |cart| then cart[i := WithQuantity(cart[i], cart[i].quantity + r.quantity)]
    else cart + [NewLine(r)]
  }

  function Without<T>(xs: seq<T>, i: nat): seq<T>
    requires i < |xs|
  {
    xs[..i] + xs[i + 1..]
  }

  predicate Named(lower: string -> string, l: Line, needle: string) {
    Contains(lower(l.name), needle)
  }

  predicate Within(cs: seq<nat>, n: nat) {
    forall k :: 0 <= k < |cs| ==> cs[k] < n
  }

  /** Indices of the lines whose name contains the needle, in order. */
  function Candidates(lower: string -> string, cart: seq<Line>, needle: string): (cs: seq<nat>)
    ensures Within(cs, |cart|)
    ensures forall c :: 0 <= c < |cart| ==> (c in cs <==> Named(lower, cart[c], needle))
  {
    if cart == [] then []
    else
      var n := |cart| - 1;
      Candidates(lower, cart[..n], needle) + (if Named(lower, cart[n], needle) then [n] else [])
  }

  const PLAIN_WORDS: seq<string> := ["plain", "normal", "original", "regular", "without"]

  predicate WantsPlain(hint: string) {
    exists w :: w in PLAIN_WORDS && w in Words(hint)
  }

  predicate Unmodified(l: Line) {
    l.specialInstructions.None? || l.specialInstructions.value == ""
  }

  predicate Mentioned(lower: string -> string, l: Line, hint: string) {
    !Unmodified(l) &&
    var instr := lower(l.specialInstructions.value);
    instr != "" && exists w :: w in Words(instr) && Contains(hint, w)
  }

  function MentionedIn(lower: string -> string, hint: string): Line -> bool {
    (l: Line) => Mentioned(lower, l, hint)
  }

  /** The first candidate satisfying p, or the first candidate. */
  function Preferred(cart: seq<Line>, cs: seq<nat>, p: Line -> bool): (t: nat)
    requires cs != [] && Within(cs, |cart|)
    ensures t in cs && t < |cart|
    ensures (exists k :: 0 <= k < |cs| && p(cart[cs[k]])) ==> p(cart[t])
  {
    if p(cart[cs[0]]) || |cs| == 1 then cs[0]
    else
      var t := Preferred(cart, cs[1..], p);
      if p(cart[t]) then t else cs[0]
  }

  function Target(lower: string -> string, cart: seq<Line>, cs: seq<nat>, hint: Option<string>): (t: nat)
    requires cs != [] && Within(cs, |cart|)
    ensures t in cs && t < |cart|
  {
    if |cs| > 1 && hint.Some? && hint.value != "" then
      var h := lower(hint.value);
      if WantsPlain(h) then Preferred(cart, cs, Unmodified)
      else Preferred(cart, cs, MentionedIn(lower, h))
    else cs[0]
  }

  function Reduced(cart: seq<Line>, t: nat, quantity: Option<int>): seq<Line>
    requires t < |cart|
  {
    if quantity.Some? && cart[t].quantity > quantity.value
    then cart[t := WithQuantity(cart[t], cart[t].quantity - quantity.value)]
    else Without(cart, t)
  }

  function Removed(lower: string -> string, cart: seq<Line>, itemName: string,
                   quantity: Option<int>, hint: Option<string>): (seq<Line>, bool)
  {
    var cs := Candidates(lower, cart, Strip(lower(itemName)));
    if cs == [] then (cart, false)
    else (Reduced(cart, Target(lower, cart, cs, hint), quantity), true)
  }

  /** The two-way name match used by the in-place edits. */
  predicate Alike(lower: string -> string, l: Line, needle: string) {
    Contains(lower(l.name), needle) || Contains(needle, lower(l.name))
  }

  function EditIndex(lower: string -> string, cart: seq<Line>, itemName: string): (i: nat)
    ensures i <= |cart|
    ensures i < |cart| ==> FirstMatch(lower, cart, itemName, i)
    ensures i == |cart| ==> forall j :: 0 <= j < |cart| ==> !TwoWay(lower, cart[j], itemName)
  {
    FirstIndex(cart, (l: Line) => Alike(lower, l, Strip(lower(itemName))))
  }

  /** The line's lowered name contains the stripped lowered text, or is contained in it. */
  predicate TwoWay(lower: string -> string, l: Line, itemName: string) {
    var text, name := Strip(lower(itemName)), lower(l.name);
    Contains(name, text) || Contains(text, name)
  }

  predicate FirstMatch(lower: string -> string, cart: seq<Line>, itemName: string, i: nat) {
    i < |cart| && TwoWay(lower, cart[i], itemName) && forall j :: 0 <= j < i ==> !TwoWay(lower, cart[j], itemName)
  }

  predicate AnyMatch(lower: string -> string, cart: seq<Line>, itemName: string) {
    exists j :: 0 <= j < |cart| && TwoWay(lower, cart[j], itemName)
  }

  /** An edit by name changes the first matching line and no other. */
  predicate EditTakes(lower: string -> string, before: seq<Line>, after: seq<Line>, itemName: string, i: nat) {
    && FirstMatch(lower, before, itemName, i) && |after| == |before|
    && forall j :: 0 <= j < |before| && j != i ==> after[j] == before[j]
  }

  /** The same line with other add-ons, at the price that goes with them. */
  predicate WithAddOns(l: Line, l': Line, addOns: seq<AddOn>) {
    && l'.addOns == addOns
    && l'.unitPriceCents ==
         Max(0, (if l.basePriceCents != 0 then l.basePriceCents else l.priceCents)
                + OptionAdjustment(l.selectedOptions) + AddOnTotal(addOns))
    && l'.priceCents == l'.unitPriceCents && l'.lineTotalCents == l'.unitPriceCents * l.quantity
    && l'.addOnTotalCents == AddOnTotal(addOns)
    && (l'.menuItemId, l'.name, l'.basePriceCents, l'.selectedOptions, l'.optionAdjustmentCents) ==
         (l.menuItemId, l.name, l.basePriceCents, l.selectedOptions, l.optionAdjustmentCents)
    && (l'.quantity, l'.options, l'.specialInstructions) == (l.quantity, l.options, l.specialInstructions)
  }

  /** Some add-on of the line is named like the text. */
  predicate Mentions(lower: string -> string, l: Line, addOnName: string) {
    exists k :: 0 <= k < |l.addOns| && Contains(lower(l.addOns[k].name), Strip(lower(addOnName)))
  }

  function Reprice(l: Line, addOns: seq<AddOn>): Line {
    var base := if l.basePriceCents != 0 then l.basePriceCents else l.priceCents;
    var b := LineItem(base, l.selectedOptions, addOns, l.quantity);
    l.(addOns := addOns, priceCents := b.unitPriceCents, unitPriceCents := b.unitPriceCents,
       addOnTotalCents := b.addOnTotalCents, lineTotalCents := b.lineTotalCents)
  }

  function Keep(addOns: seq<AddOn>, p: AddOn -> bool): (kept: seq<AddOn>)
    ensures |kept| <= |addOns|
    ensures |kept| == |addOns| <==> forall i :: 0 <= i < |addOns| ==> p(addOns[i])
    ensures |kept| == |addOns| ==> kept == addOns
  {
    if addOns == [] then []
    else
      var n := |addOns| - 1;
      var front := Keep(addOns[..n], p);
      assert forall i :: 0 <= i < n ==> addOns[..n][i] == addOns[i];
      if p(addOns[n]) then front + [addOns[n]] else front
  }

  /** Keep drops exactly the add-ons that fail the test and keeps the others in order. */
  lemma KeepSnoc(addOns: seq<AddOn>, a: AddOn, p: AddOn -> bool)
    ensures Keep([], p) == [] && Keep(addOns + [a], p) == Keep(addOns, p) + (if p(a) then [a] else [])
  {
    assert (addOns + [a])[..|addOns|] == addOns;
  }

  predicate HasAddOn(lower: string -> string, l: Line, nameLower: string) {
    exists i :: 0 <= i < |l.addOns| && lower(l.addOns[i].name) == nameLower
  }

  function AddonAdded(lower: string -> string, cart: seq<Line>, itemName: string, addOn: AddOn): (seq<Line>, bool) {
    var i := EditIndex(lower, cart, itemName);
    if i == |cart| then (cart, false)
    else if HasAddOn(lower, cart[i], lower(addOn.name)) then (cart, true)
    else (cart[i := Reprice(cart[i], cart[i].addOns + [addOn])], true)
  }

  function Unlike(lower: string -> string, needle: string): AddOn -> bool {
    (a: AddOn) => !Contains(lower(a.name), needle)
  }

  function AddonRemoved(lower: string -> string, cart: seq<Line>, itemName: string, addOnName: string): (seq<Line>, bool) {
    var i := EditIndex(lower, cart, itemName);
    if i == |cart| then (cart, false)
    else
      var needle := Strip(lower(addOnName));
      var kept := Keep(cart[i].addOns, Unlike(lower, needle));
      if |kept| == |cart[i].addOns| then (cart, false) else (cart[i := Reprice(cart[i], kept)], true)
  }

  function Instructed(lower: string -> string, cart: seq<Line>, itemName: string, text: string): (seq<Line>, bool) {
    var i := EditIndex(lower, cart, itemName);
    if i == |cart| then (cart, false)
    else
      var merged := if Unmodified(cart[i]) then text else cart[i].specialInstructions.value + ", " + text;
      (cart[i := cart[i].(specialInstructions := Some(merged))], true)
  }

  /** The first matching line gets the add-on and its price, unless one of that name is there already. */
  predicate GainsAddOn(lower: string -> string, before: seq<Line>, after: seq<Line>, itemName: string, addOn: AddOn, i: nat) {
    && EditTakes(lower, before, after, itemName, i)
    && if exists k :: 0 <= k < |before[i].addOns| && lower(before[i].addOns[k].name) == lower(addOn.name)
       then after[i] == before[i]
       else WithAddOns(before[i], after[i], before[i].addOns + [addOn])
  }

  lemma AddonAddedIs(lower: string -> string, cart: seq<Line>, itemName: string, addOn: AddOn)
    ensures var (after, found) := AddonAdded(lower, cart, itemName, addOn);
            && (found <==> AnyMatch(lower, cart, itemName))
            && if found then exists i: nat :: GainsAddOn(lower, cart, after, itemName, addOn, i) else after == cart
  {
    var i := EditIndex(lower, cart, itemName);
    if i < |cart| {
      assert GainsAddOn(lower, cart, AddonAdded(lower, cart, itemName, addOn).0, itemName, addOn, i);
    }
  }

  /** The first matching line has an add-on named like the text. */
  predicate Droppable(lower: string -> string, cart: seq<Line>, itemName: string, addOnName: string, i: nat) {
    FirstMatch(lower, cart, itemName, i) && Mentions(lower, cart[i], addOnName)
  }

  /** The first matching line keeps, in order, the add-ons not named like the text, at their price. */
  predicate LosesAddOns(lower: string -> string, before: seq<Line>, after: seq<Line>, itemName: string,
                        addOnName: string, i: nat)
  {
    && EditTakes(lower, before, after, itemName, i)
    && WithAddOns(before[i], after[i], Keep(before[i].addOns, Unlike(lower, Strip(lower(addOnName)))))
  }

  lemma AddonRemovedIs(lower: string -> string, cart: seq<Line>, itemName: string, addOnName: string)
    ensures var (after, found) := AddonRemoved(lower, cart, itemName, addOnName);
            && (found <==> exists i: nat :: Droppable(lower, cart, itemName, addOnName, i))
            && if found then exists i: nat :: LosesAddOns(lower, cart, after, itemName, addOnName, i) else after == cart
  {
    var i := EditIndex(lower, cart, itemName);
    if i < |cart| {
      NothingDroppedIff(lower, cart[i], addOnName);
      var (after, found) := AddonRemoved(lower, cart, itemName, addOnName);
      if found {
        assert Droppable(lower, cart, itemName, addOnName, i);
        assert LosesAddOns(lower, cart, after, itemName, addOnName, i);
      }
    }
  }

  lemma NothingDroppedIff(lower: string -> string, l: Line, addOnName: string)
    ensures |Keep(l.addOns, Unlike(lower, Strip(lower(addOnName))))| == |l.addOns| <==> !Mentions(lower, l, addOnName)
  {
  }

  /** The first matching line gets the text as its instructions, after those it has. */
  predicate GainsText(lower: string -> string, before: seq<Line>, after: seq<Line>, itemName: string, text: string, i: nat) {
    && EditTakes(lower, before, after, itemName, i)
    && var l := before[i];
       after[i] == l.(specialInstructions :=
         Some(if l.specialInstructions.None? || l.specialInstructions.value == "" then text
              else l.specialInstructions.value + ", " + text))
  }

  lemma InstructedIs(lower: string -> string, cart: seq<Line>, itemName: string, text: string)
    ensures var (after, found) := Instructed(lower, cart, itemName, text);
            && (found <==> AnyMatch(lower, cart, itemName))
            && if found then exists i: nat :: GainsText(lower, cart, after, itemName, text, i) else after == cart
  {
    var i := EditIndex(lower, cart, itemName);
    if i < |cart| {
      assert GainsText(lower, cart, Instructed(lower, cart, itemName, text).0, itemName, text, i);
    }
  }

  function Total(cart: seq<Line>): int {
    if cart == [] then 0 else Total(cart[..|cart| - 1]) + cart[|cart| - 1].lineTotalCents
  }

  // ---- the session object ----

  const ORDER_KEYS: set<string> := {
    "order_mode", "pending_order_id", "delivery_fee_status", "payment_method",
    "pending_options", "proposed_items", "recommended_items", "superseded_order_id",
    "order_notes_asked", "order_notes"}

  class ConversationSession {
    const lower: string -> string
    var cart: seq<Line>
    var confirmedCart: Option<seq<Line>>
    var deliveryFeeCents: Option<int>
    var context: map<string, string>

    constructor (lower: string -> string)
      ensures this.lower == lower && cart == [] && confirmedCart == None && deliveryFeeCents == None && context == map[]
    {
      this.lower := lower;
      cart := [];
      confirmedCart, deliveryFeeCents := None, None;
      context := map[];
    }

    method AddToCart(r: Request)
      modifies this`cart
      ensures cart == Added(old(cart), r)
      ensures if exists i :: 0 <= i < |old(cart)| && SameKey(old(cart)[i], r) then
                exists i :: 0 <= i < |old(cart)| && Accumulates(old(cart), cart, r, i)
              else |cart| == |old(cart)| + 1 && cart[..|old(cart)|] == old(cart) && Fresh(cart[|old(cart)|], r)
    {
      var b := LineItem(r.priceCents, r.selectedOptions, r.addOns, r.quantity);
      ghost var p := (l: Line) => KeyOf(l) == RequestKey(r);
      for i := 0 to |cart|
        invariant cart == old(cart)
        invariant forall j :: 0 <= j < i ==> !p(cart[j])
      {
        var item := cart[i];
        if item.menuItemId == r.menuItemId && item.selectedOptions == r.selectedOptions
           && item.addOns == r.addOns && item.specialInstructions == r.specialInstructions
        {
          FirstIndexIs(cart, p, i);
          var quantity := item.quantity + r.quantity;
          cart := cart[i := item.(quantity := quantity, lineTotalCents := item.priceCents * quantity)];
          assert Accumulates(old(cart), cart, r, i);
          return;
        }
      }
      FirstIndexIs(cart, p, |cart|);
      cart := cart + [Line(r.menuItemId, r.name, b.unitPriceCents, r.priceCents, r.selectedOptions, r.addOns,
                           b.optionAdjustmentCents, b.addOnTotalCents, b.unitPriceCents, r.quantity,
                           b.lineTotalCents, r.options, r.specialInstructions)];
    }

    method RemoveFromCart(itemName: string, quantity: Option<int>, hint: Option<string>) returns (found: bool)
      modifies this`cart
      ensures (cart, found) == Removed(lower, old(cart), itemName, quantity, hint)
    {
      var cs := CollectCandidates(Strip(lower(itemName)));
      if cs == [] {
        return false;
      }
      var t := SelectTarget(cs, hint);
      var item := cart[t];
      if quantity.Some? && item.quantity > quantity.value {
        var left := item.quantity - quantity.value;
        cart := cart[t := item.(quantity := left, lineTotalCents := item.priceCents * left)];
      } else {
        cart := cart[..t] + cart[t + 1..];
      }
      found := true;
    }

    method SelectTarget(cs: seq<nat>, hint: Option<string>) returns (t: nat)
      requires cs != [] && Within(cs, |cart|)
      ensures t == Target(lower, cart, cs, hint)
    {
      t := cs[0];
      if |cs| > 1 && hint.Some? && hint.value != "" {
        var h := lower(hint.value);
        if WantsPlain(h) {
          t := Choose(cs, Unmodified);
        } else {
          t := Choose(cs, MentionedIn(lower, h));
        }
      }
    }

    method CollectCandidates(needle: string) returns (cs: seq<nat>)
      ensures cs == Candidates(lower, cart, needle)
    {
      cs := [];
      for i := 0 to |cart|
        invariant cs == Candidates(lower, cart[..i], needle)
      {
        assert cart[..i + 1][..i] == cart[..i];
        if Contains(lower(cart[i].name), needle) {
          cs := cs + [i];
        }
      }
      assert cart[..|cart|] == cart;
    }

    /** Walks the candidates and stops at the first one satisfying p. */
    method Choose(cs: seq<nat>, p: Line -> bool) returns (t: nat)
      requires cs != [] && Within(cs, |cart|)
      ensures t == Preferred(cart, cs, p)
    {
      t := cs[0];
      for k := 0 to |cs|
        invariant t == cs[0]
        invariant forall j :: 0 <= j < k ==> !p(cart[cs[j]])
      {
        if p(cart[cs[k]]) {
          PreferredIs(cart, cs, p, k);
          return cs[k];
        }
      }
      PreferredDefault(cart, cs, p);
    }

    method AddAddon(itemName: string, addOn: AddOn) returns (found: bool)
      modifies this`cart
      ensures (cart, found) == AddonAdded(lower, old(cart), itemName, addOn)
      ensures found <==> AnyMatch(lower, old(cart), itemName)
      ensures if found then exists i: nat :: GainsAddOn(lower, old(cart), cart, itemName, addOn, i) else cart == old(cart)
    {
      AddonAddedIs(lower, cart, itemName, addOn);
      var i := FindForEdit(itemName);
      if i == |cart| {
        return false;
      }
      var item := cart[i];
      if HasAddOn(lower, item, lower(addOn.name)) {
        return true;
      }
      cart := cart[i := Repriced(item, item.addOns + [addOn])];
      found := true;
    }

    method RemoveAddon(itemName: string, addOnName: string) returns (found: bool)
      modifies this`cart
      ensures (cart, found) == AddonRemoved(lower, old(cart), itemName, addOnName)
      ensures found <==> exists i: nat :: Droppable(lower, old(cart), itemName, addOnName, i)
      ensures if found then exists i: nat :: LosesAddOns(lower, old(cart), cart, itemName, addOnName, i)
              else cart == old(cart)
    {
      AddonRemovedIs(lower, cart, itemName, addOnName);
      var i := FindForEdit(itemName);
      if i == |cart| {
        return false;
      }
      var item := cart[i];
      var kept := KeepUnlike(item.addOns, Strip(lower(addOnName)));
      if |kept| == |item.addOns| {
        return false;
      }
      cart := cart[i := Repriced(item, kept)];
      found := true;
    }

    method KeepUnlike(addOns: seq<AddOn>, needle: string) returns (kept: seq<AddOn>)
      ensures kept == Keep(addOns, Unlike(lower, needle))
    {
      kept := [];
      for k := 0 to |addOns|
        invariant kept == Keep(addOns[..k], Unlike(lower, needle))
      {
        assert addOns[..k + 1][..k] == addOns[..k];
        if !Contains(lower(addOns[k].name), needle) {
          kept := kept + [addOns[k]];
        }
      }
      assert addOns[..|addOns|] == addOns;
    }

    function Repriced(item: Line, addOns: seq<AddOn>): (l: Line)
      ensures l == Reprice(item, addOns)
    {
      Reprice(item, addOns)
    }

    method FindForEdit(itemName: string) returns (i: nat)
      ensures i == EditIndex(lower, cart, itemName)
    {
      var needle := Strip(lower(itemName));
      ghost var p := (l: Line) => Alike(lower, l, needle);
      i := 0;
      while i < |cart| && !Alike(lower, cart[i], needle)
        invariant i <= |cart|
        invariant forall j :: 0 <= j < i ==> !p(cart[j])
      {
        i := i + 1;
      }
      FirstIndexIs(cart, p, i);
    }

    method UpdateInstructions(itemName: string, text: string) returns (found: bool)
      modifies this`cart
      ensures (cart, found) == Instructed(lower, old(cart), itemName, text)
      ensures found <==> AnyMatch(lower, old(cart), itemName)
      ensures if found then exists i: nat :: GainsText(lower, old(cart), cart, itemName, text, i) else cart == old(cart)
    {
      InstructedIs(lower, cart, itemName, text);
      var i := FindForEdit(itemName);
      if i == |cart| {
        return false;
      }
      var item := cart[i];
      if item.specialInstructions.Some? && item.specialInstructions.value != "" {
        cart := cart[i := item.(specialInstructions := Some(item.specialInstructions.value + ", " + text))];
      } else {
        cart := cart[i := item.(specialInstructions := Some(text))];
      }
      found := true;
    }

    method ClearCart()
      modifies this
      ensures cart == [] && confirmedCart == None && deliveryFeeCents == None
      ensures context == old(context) - ORDER_KEYS
    {
      cart := [];
      confirmedCart, deliveryFeeCents := None, None;
      context := context - ORDER_KEYS;
    }

    method CartTotalCents() returns (total: int)
      ensures total == Total(cart)
    {
      total := 0;
      for i := 0 to |cart|
        invariant total == Total(cart[..i])
      {
        assert cart[..i + 1][..i] == cart[..i];
        total := total + cart[i].lineTotalCents;
      }
      assert cart[..|cart|] == cart;
    }
  }

  lemma {:induction false} PreferredIs(cart: seq<Line>, cs: seq<nat>, p: Line -> bool, k: nat)
    requires cs != [] && Within(cs, |cart|)
    requires k < |cs| && p(cart[cs[k]]) && forall j :: 0 <= j < k ==> !p(cart[cs[j]])
    ensures Preferred(cart, cs, p) == cs[k]
  {
    if k > 0 {
      PreferredIs(cart, cs[1..], p, k - 1);
    }
  }

  lemma PreferredDefault(cart: seq<Line>, cs: seq<nat>, p: Line -> bool)
    requires cs != [] && Within(cs, |cart|)
    requires forall j :: 0 <= j < |cs| ==> !p(cart[cs[j]])
    ensures Preferred(cart, cs, p) == cs[0]
  {
  }
}
