/**
 * From a cart to an order and a payment session. Payment and delivery later read
 * only the lines frozen here; all three must agree.
 */
module Checkout {
  import opened Prelude
  import opened Store
  import opened GrantProof
  import Protocol
  import opened ProtocolTheorems

  datatype Item = Item(variantId: VariantId, quantity: nat)

  /** A variant joined with its product, as the query returns it. */
  datatype Variant = Variant(
    productName: string,
    priceCents: nat,
    isActive: bool,
    productActive: bool,
    kind: Fulfillment,
    providerProductUid: Option<string>,
    printFileUrl: Option<string>,
    digitalAssetPath: Option<string>)

  type Catalogue = map<VariantId, Variant>

  datatype Refusal = Unavailable | NotProducible | NoFile | TooMany | ServiceDown

  const MAX_UNITS := 10
  const MAX_ITEMS := 20
  const MAX_PRICE_CENTS := 10_000_000
  const MAX_DIGITAL_PRICE_CENTS := 100_000_000
  const INT32_MAX := 0x7fff_ffff

  // ---------------------------------------------------------------- merging

  function Quantity(items: seq<Item>, v: VariantId): nat {
    if items == [] then 0
    else Quantity(items[..|items|-1], v) + QuantityHere(items[|items|-1], v)
  }

  function QuantityHere(item: Item, v: VariantId): nat {
    if item.variantId == v then item.quantity else 0
  }

  /** The variants of a cart in the order they first appear, as a JavaScript Map keeps its keys. */
  function Keys(items: seq<Item>): (r: seq<VariantId>)
    ensures NoDup(r)
    ensures forall v :: v in r <==> exists i :: 0 <= i < |items| && items[i].variantId == v
  {
    if items == [] then []
    else
      var before := Keys(items[..|items|-1]);
      var v := items[|items|-1].variantId;
      if v in before then before else before + [v]
  }

  /** Somebody asks for v before anybody asks for x. */
  predicate AsksFirst(items: seq<Item>, v: VariantId, x: VariantId) {
    exists i :: 0 <= i < |items| && items[i].variantId == v && forall m :: 0 <= m <= i ==> items[m].variantId != x
  }

  lemma AsksFirstLater(items: seq<Item>, item: Item, v: VariantId, x: VariantId)
    requires AsksFirst(items, v, x)
    ensures AsksFirst(items + [item], v, x)
  {
    var i :| 0 <= i < |items| && items[i].variantId == v && forall m :: 0 <= m <= i ==> items[m].variantId != x;
    assert (items + [item])[i] == items[i];
  }

  /** The keys stand in the order in which the cart first asks for them. */
  lemma {:induction false} KeysInOrder(items: seq<Item>, a: nat, b: nat)
    requires a < b < |Keys(items)|
    ensures AsksFirst(items, Keys(items)[a], Keys(items)[b])
  {
    var n := |items| - 1;
    var before, item := items[..n], items[n];
    assert items == before + [item];
    if b < |Keys(before)| {
      KeysInOrder(before, a, b);
      AsksFirstLater(before, item, Keys(before)[a], Keys(before)[b]);
    } else {
      assert Keys(items) == Keys(before) + [item.variantId] && item.variantId !in Keys(before);
      assert Keys(before)[a] in Keys(before);
      var i :| 0 <= i < n && before[i].variantId == Keys(before)[a];
      assert forall m :: 0 <= m <= i ==> before[m].variantId in Keys(before);
    }
  }

  // ---------------------------------------------------------------- pricing

  /** One merged entry: the checks in the order the service makes them, then the frozen line. */
  function LineFor(catalogue: Catalogue, v: VariantId, quantity: nat): Result<Line, Refusal> {
    if v !in catalogue || !catalogue[v].isActive || !catalogue[v].productActive then Err(Unavailable)
    else
      var variant := catalogue[v];
      if variant.kind == POD && (!Truthy(variant.providerProductUid) || !Truthy(variant.printFileUrl))
      then Err(NotProducible)
      else if variant.kind == DIGITAL && !Truthy(variant.digitalAssetPath) then Err(NoFile)
      else if quantity > MAX_UNITS then Err(TooMany)
      else Ok(Line(v, variant.productName, variant.kind, variant.digitalAssetPath, variant.priceCents, quantity,
                   variant.priceCents * quantity))
  }

  function LinesFor(catalogue: Catalogue, items: seq<Item>, keys: seq<VariantId>): (r: Result<seq<Line>, Refusal>)
    ensures r.Ok? ==> |r.value| == |keys|
  {
    if keys == [] then Ok([])
    else
      match LinesFor(catalogue, items, keys[..|keys|-1])
      case Err(e) => Err(e)
      case Ok(lines) =>
        match LineFor(catalogue, keys[|keys|-1], Quantity(items, keys[|keys|-1]))
        case Err(e) => Err(e)
        case Ok(line) => Ok(lines + [line])
  }

  function BuildLines(catalogue: Catalogue, items: seq<Item>): Result<seq<Line>, Refusal> {
    LinesFor(catalogue, items, Keys(items))
  }

  function Subtotal(lines: seq<Line>): nat {
    if lines == [] then 0 else Subtotal(lines[..|lines|-1]) + lines[|lines|-1].lineTotalCents
  }

  /** The flat rate; a setting that is not a non-negative integer counts as zero. */
  function FlatShipping(setting: Option<int>): nat {
    if setting.Some? && setting.value >= 0 then setting.value else 0
  }

  predicate AllDigital(lines: seq<Line>) {
    forall i :: 0 <= i < |lines| ==> lines[i].kind == DIGITAL
  }

  function Shipping(lines: seq<Line>, setting: Option<int>): nat {
    if AllDigital(lines) then 0 else FlatShipping(setting)
  }

  // ---------------------------------------------------------------- what Stripe is asked

  datatype Charge = Charge(unitAmount: nat, quantity: nat)

  datatype SessionParams = SessionParams(charges: seq<Charge>, asksAddress: bool, shippingAmount: Option<nat>)

  function BuildSessionParams(lines: seq<Line>, shippingCents: nat, soloDigital: bool): SessionParams {
    SessionParams(
      seq(|lines|, i requires 0 <= i < |lines| => Charge(lines[i].unitPriceCents, lines[i].quantity)),
      !soloDigital,
      if shippingCents > 0 then Some(shippingCents) else None)
  }

  function ChargesTotal(charges: seq<Charge>): nat {
    if charges == [] then 0
    else ChargesTotal(charges[..|charges|-1]) + charges[|charges|-1].unitAmount * charges[|charges|-1].quantity
  }

  function AmountCharged(p: SessionParams): nat {
    ChargesTotal(p.charges) + (if p.shippingAmount.Some? then p.shippingAmount.value else 0)
  }

  // ---------------------------------------------------------------- which carts are taken

  predicate Acceptable(catalogue: Catalogue, v: VariantId, quantity: nat) {
    && v in catalogue && catalogue[v].isActive && catalogue[v].productActive
    && (catalogue[v].kind == POD ==> Truthy(catalogue[v].providerProductUid) && Truthy(catalogue[v].printFileUrl))
    && (catalogue[v].kind == DIGITAL ==> Truthy(catalogue[v].digitalAssetPath))
    && quantity <= 10
  }

  /** The reason an entry is refused for: the first check it fails, in the order they are made. */
  predicate RefusedFor(catalogue: Catalogue, v: VariantId, quantity: nat, e: Refusal) {
    var onSale := v in catalogue && catalogue[v].isActive && catalogue[v].productActive;
    var printable := onSale && catalogue[v].kind == POD ==>
                       Truthy(catalogue[v].providerProductUid) && Truthy(catalogue[v].printFileUrl);
    var filed := onSale && catalogue[v].kind == DIGITAL ==> Truthy(catalogue[v].digitalAssetPath);
    match e
    case Unavailable => !onSale
    case NotProducible => onSale && !printable
    case NoFile => onSale && printable && !filed
    case TooMany => onSale && printable && filed && quantity > 10
    case ServiceDown => false
  }

  lemma LineExact(catalogue: Catalogue, v: VariantId, quantity: nat)
    ensures LineFor(catalogue, v, quantity).Ok? <==> Acceptable(catalogue, v, quantity)
    ensures forall e :: LineFor(catalogue, v, quantity) == Err(e) <==> RefusedFor(catalogue, v, quantity, e)
    ensures LineFor(catalogue, v, quantity).Ok? ==>
              v in catalogue && LineFor(catalogue, v, quantity).value.variantId == v
  {
    if v in catalogue {
      var kind := catalogue[v].kind;
    }
  }

  lemma {:induction false} LinesExact(catalogue: Catalogue, items: seq<Item>, keys: seq<VariantId>)
    ensures var r := LinesFor(catalogue, items, keys);
            && (r.Ok? <==> forall k :: 0 <= k < |keys| ==> Acceptable(catalogue, keys[k], Quantity(items, keys[k])))
            && (r.Ok? ==> forall k :: 0 <= k < |keys| ==>
                  LineFor(catalogue, keys[k], Quantity(items, keys[k])) == Ok(r.value[k]))
  {
    hide Quantity, LineFor, Acceptable;
    if keys != [] {
      var n := |keys| - 1;
      LinesExact(catalogue, items, keys[..n]);
      LineExact(catalogue, keys[n], Quantity(items, keys[n]));
      assert forall k :: 0 <= k < n ==> keys[..n][k] == keys[k];
    }
  }

  /** A cart is accepted exactly when every merged entry is on sale, deliverable and within ten units. */
  lemma AcceptedExactly(catalogue: Catalogue, items: seq<Item>)
    ensures BuildLines(catalogue, items).Ok? <==>
              forall i :: 0 <= i < |items| ==>
                Acceptable(catalogue, items[i].variantId, Quantity(items, items[i].variantId))
  {
    hide Quantity, LinesFor, Acceptable;
    var keys := Keys(items);
    LinesExact(catalogue, items, keys);
    assert forall i :: 0 <= i < |items| ==> items[i].variantId in keys;
    assert forall k :: 0 <= k < |keys| ==> keys[k] in keys;
  }

  /** Some entry is refused for e, and none before it is refused. */
  predicate FirstRefusal(catalogue: Catalogue, items: seq<Item>, keys: seq<VariantId>, e: Refusal) {
    exists k :: 0 <= k < |keys| && RefusedFor(catalogue, keys[k], Quantity(items, keys[k]), e)
      && forall i :: 0 <= i < k ==> Acceptable(catalogue, keys[i], Quantity(items, keys[i]))
  }

  lemma {:induction false} FirstRefusalOf(catalogue: Catalogue, items: seq<Item>, keys: seq<VariantId>)
    requires LinesFor(catalogue, items, keys).Err?
    ensures FirstRefusal(catalogue, items, keys, LinesFor(catalogue, items, keys).error)
  {
    hide Quantity, LineFor, Acceptable, RefusedFor;
    var n := |keys| - 1;
    LinesExact(catalogue, items, keys[..n]);
    LineExact(catalogue, keys[n], Quantity(items, keys[n]));
    if LinesFor(catalogue, items, keys[..n]).Err? {
      FirstRefusalOf(catalogue, items, keys[..n]);
      var e := LinesFor(catalogue, items, keys[..n]).error;
      var k :| 0 <= k < n && RefusedFor(catalogue, keys[..n][k], Quantity(items, keys[..n][k]), e)
        && forall i :: 0 <= i < k ==> Acceptable(catalogue, keys[..n][i], Quantity(items, keys[..n][i]));
      assert RefusedFor(catalogue, keys[k], Quantity(items, keys[k]), e);
      assert forall i :: 0 <= i < k ==> keys[..n][i] == keys[i];
    } else {
      assert forall i :: 0 <= i < n ==> keys[..n][i] == keys[i];
    }
  }

  // ---------------------------------------------------------------- conservation

  function Price(catalogue: Catalogue, v: VariantId): nat {
    if v in catalogue then catalogue[v].priceCents else 0
  }

  /** Price times quantity over the cart as it was sent. */
  function RawTotal(catalogue: Catalogue, items: seq<Item>): nat {
    if items == [] then 0
    else
      var item := items[|items|-1];
      RawTotal(catalogue, items[..|items|-1]) + Price(catalogue, item.variantId) * item.quantity
  }

  /** Price times merged quantity over a list of variants. */
  function KeyTotal(catalogue: Catalogue, items: seq<Item>, keys: seq<VariantId>): nat {
    if keys == [] then 0
    else
      var v := keys[|keys|-1];
      KeyTotal(catalogue, items, keys[..|keys|-1]) + Price(catalogue, v) * Quantity(items, v)
  }

  /** One more item of v adds its price once, wherever v stands among the keys. */
  lemma {:induction false} KeyTotalGrows(catalogue: Catalogue, items: seq<Item>, item: Item, keys: seq<VariantId>)
    requires NoDup(keys)
    ensures KeyTotal(catalogue, items + [item], keys)
         == KeyTotal(catalogue, items, keys)
            + (if item.variantId in keys then Price(catalogue, item.variantId) * item.quantity else 0)
  {
    hide Price, Quantity;
    if keys != [] {
      var n := |keys| - 1;
      KeyTotalGrows(catalogue, items, item, keys[..n]);
      OneMoreOf(catalogue, items, item, keys[n]);
      assert keys == keys[..n] + [keys[n]];
    }
  }

  lemma OneMoreOf(catalogue: Catalogue, items: seq<Item>, item: Item, v: VariantId)
    ensures Price(catalogue, v) * Quantity(items + [item], v)
         == Price(catalogue, v) * Quantity(items, v)
            + (if item.variantId == v then Price(catalogue, v) * item.quantity else 0)
  {
    assert (items + [item])[..|items|] == items;
    Distributes(Price(catalogue, v), Quantity(items, v), item.quantity);
  }

  lemma Distributes(a: int, b: int, c: int)
    ensures a * (b + c) == a * b + a * c
  {
  }

  lemma {:induction false} MergedTotal(catalogue: Catalogue, items: seq<Item>)
    ensures KeyTotal(catalogue, items, Keys(items)) == RawTotal(catalogue, items)
  {
    if items != [] {
      var n := |items| - 1;
      var before, item := items[..n], items[n];
      assert items == before + [item];
      MergedTotal(catalogue, before);
      KeyTotalGrows(catalogue, before, item, Keys(before));
      if item.variantId !in Keys(before) {
        assert Keys(items)[..|Keys(items)|-1] == Keys(before);
        AbsentQuantity(before, item.variantId);
        assert Quantity(items, item.variantId) == item.quantity;
      }
    }
  }

  lemma {:induction false} AbsentQuantity(items: seq<Item>, v: VariantId)
    requires forall i :: 0 <= i < |items| ==> items[i].variantId != v
    ensures Quantity(items, v) == 0
  {
    if items != [] {
      AbsentQuantity(items[..|items|-1], v);
    }
  }

  lemma {:induction false} SubtotalOfKeys(catalogue: Catalogue, items: seq<Item>, keys: seq<VariantId>)
    requires LinesFor(catalogue, items, keys).Ok?
    ensures Subtotal(LinesFor(catalogue, items, keys).value) == KeyTotal(catalogue, items, keys)
  {
    if keys != [] {
      SubtotalOfKeys(catalogue, items, keys[..|keys|-1]);
      var lines := LinesFor(catalogue, items, keys).value;
      assert lines[..|lines|-1] == LinesFor(catalogue, items, keys[..|keys|-1]).value;
    }
  }

  /** One line per variant of the cart, each as its variant stands in the catalogue, with the quantities of the cart. */
  ghost predicate Frozen(catalogue: Catalogue, items: seq<Item>, lines: seq<Line>) {
    && |lines| == |Keys(items)|
    && (forall k :: 0 <= k < |lines| ==>
          var v := lines[k].variantId;
          && v == Keys(items)[k] && v in catalogue
          && lines[k].productName == catalogue[v].productName
          && lines[k].kind == catalogue[v].kind
          && lines[k].asset == catalogue[v].digitalAssetPath
          && lines[k].unitPriceCents == catalogue[v].priceCents
          && lines[k].quantity == Quantity(items, v)
          && lines[k].lineTotalCents == catalogue[v].priceCents * Quantity(items, v))
    && (forall i, k :: 0 <= i < k < |lines| ==> lines[i].variantId != lines[k].variantId)
  }

  lemma LineOfEntry(catalogue: Catalogue, v: VariantId, quantity: nat)
    requires LineFor(catalogue, v, quantity).Ok?
    ensures v in catalogue
    ensures LineFor(catalogue, v, quantity).value == Line(
              v, catalogue[v].productName, catalogue[v].kind, catalogue[v].digitalAssetPath, catalogue[v].priceCents,
              quantity, catalogue[v].priceCents * quantity)
  {
  }

  /** What checkout freezes is the catalogue and the cart. */
  lemma LinesOfCart(catalogue: Catalogue, items: seq<Item>)
    requires BuildLines(catalogue, items).Ok?
    ensures Frozen(catalogue, items, BuildLines(catalogue, items).value)
  {
    hide Quantity, LinesFor, LineFor;
    var keys := Keys(items);
    var lines := BuildLines(catalogue, items).value;
    LinesExact(catalogue, items, keys);
    forall k | 0 <= k < |lines| ensures LineFor(catalogue, keys[k], Quantity(items, keys[k])) == Ok(lines[k]) {
    }
    forall k | 0 <= k < |lines|
      ensures keys[k] in catalogue
      ensures lines[k] == Line(keys[k], catalogue[keys[k]].productName, catalogue[keys[k]].kind,
                               catalogue[keys[k]].digitalAssetPath, catalogue[keys[k]].priceCents,
                               Quantity(items, keys[k]), catalogue[keys[k]].priceCents * Quantity(items, keys[k]))
    {
      LineOfEntry(catalogue, keys[k], Quantity(items, keys[k]));
    }
  }

  /** An accepted cart: not a cent gained or lost by merging it. */
  lemma CartConserved(catalogue: Catalogue, items: seq<Item>)
    requires BuildLines(catalogue, items).Ok?
    ensures Subtotal(BuildLines(catalogue, items).value) == RawTotal(catalogue, items)
  {
    hide Subtotal, RawTotal, KeyTotal, Quantity, LinesFor;
    SubtotalOfKeys(catalogue, items, Keys(items));
    MergedTotal(catalogue, items);
  }

  // ---------------------------------------------------------------- order of the cart

  lemma {:induction false} QuantityConcat(a: seq<Item>, b: seq<Item>, v: VariantId)
    ensures Quantity(a + b, v) == Quantity(a, v) + Quantity(b, v)
  {
    if b == [] {
      assert a + b == a;
    } else {
      QuantityConcat(a, b[..|b|-1], v);
      assert (a + b)[..|a + b|-1] == a + b[..|b|-1];
    }
  }

  lemma {:induction false} RawConcat(catalogue: Catalogue, a: seq<Item>, b: seq<Item>)
    ensures RawTotal(catalogue, a + b) == RawTotal(catalogue, a) + RawTotal(catalogue, b)
  {
    if b == [] {
      assert a + b == a;
    } else {
      RawConcat(catalogue, a, b[..|b|-1]);
      assert (a + b)[..|a + b|-1] == a + b[..|b|-1];
    }
  }

  /** What one item contributes, wherever it stands in the cart. */
  lemma TakenOut(catalogue: Catalogue, items: seq<Item>, k: nat, v: VariantId)
    requires k < |items|
    ensures var rest := items[..k] + items[k+1..];
            && Quantity(items, v) == Quantity(rest, v) + (if items[k].variantId == v then items[k].quantity else 0)
            && RawTotal(catalogue, items)
            == RawTotal(catalogue, rest) + Price(catalogue, items[k].variantId) * items[k].quantity
  {
    var before, one, behind := items[..k], [items[k]], items[k+1..];
    assert items == before + one + behind;
    QuantityConcat(before + one, behind, v);
    QuantityConcat(before, one, v);
    QuantityConcat(before, behind, v);
    RawConcat(catalogue, before + one, behind);
    RawConcat(catalogue, before, one);
    RawConcat(catalogue, before, behind);
    assert one[..0] == [];
  }

  lemma RestOfMultiset(items: seq<Item>, shuffled: seq<Item>, k: nat)
    requires multiset(items) == multiset(shuffled) && items != []
    requires k < |shuffled| && shuffled[k] == items[|items|-1]
    ensures multiset(items[..|items|-1]) == multiset(shuffled[..k] + shuffled[k+1..])
  {
    var n := |items| - 1;
    assert items == items[..n] + [items[n]];
    assert shuffled == shuffled[..k] + [items[n]] + shuffled[k+1..];
    assert multiset(items[..n]) == multiset(items) - multiset{items[n]};
  }

  /** Totals and merged quantities do not depend on the order of the items. */
  lemma {:induction false} PermutedSums(catalogue: Catalogue, items: seq<Item>, shuffled: seq<Item>, v: VariantId)
    requires multiset(items) == multiset(shuffled)
    ensures Quantity(items, v) == Quantity(shuffled, v)
    ensures RawTotal(catalogue, items) == RawTotal(catalogue, shuffled)
    decreases |items|
  {
    if items == [] {
      assert |multiset(shuffled)| == 0;
    } else {
      hide Quantity, RawTotal, Price;
      var n := |items| - 1;
      assert items[n] in multiset(shuffled);
      var k :| 0 <= k < |shuffled| && shuffled[k] == items[n];
      RestOfMultiset(items, shuffled, k);
      PermutedSums(catalogue, items[..n], shuffled[..k] + shuffled[k+1..], v);
      TakenOut(catalogue, shuffled, k, v);
      TakenOut(catalogue, items, n, v);
      assert items[..n] + items[n+1..] == items[..n];
    }
  }

  /** Shuffling a cart changes neither whether it is accepted nor what it costs. */
  lemma OrderDoesNotMatter(catalogue: Catalogue, items: seq<Item>, shuffled: seq<Item>)
    requires multiset(items) == multiset(shuffled)
    ensures BuildLines(catalogue, items).Ok? <==> BuildLines(catalogue, shuffled).Ok?
    ensures BuildLines(catalogue, items).Ok? ==>
              Subtotal(BuildLines(catalogue, items).value) == Subtotal(BuildLines(catalogue, shuffled).value)
  {
    hide BuildLines, Acceptable, Quantity;
    AcceptedExactly(catalogue, items);
    AcceptedExactly(catalogue, shuffled);
    forall v ensures Quantity(items, v) == Quantity(shuffled, v) {
      PermutedSums(catalogue, items, shuffled, v);
    }
    PermutedSums(catalogue, items, shuffled, 0);
    SameMembers(items, shuffled);
    if BuildLines(catalogue, items).Ok? && BuildLines(catalogue, shuffled).Ok? {
      CartConserved(catalogue, items);
      CartConserved(catalogue, shuffled);
    }
  }

  lemma SameMembers(items: seq<Item>, shuffled: seq<Item>)
    requires multiset(items) == multiset(shuffled)
    ensures forall i :: 0 <= i < |items| ==> items[i] in shuffled
    ensures forall i :: 0 <= i < |shuffled| ==> shuffled[i] in items
  {
    forall i | 0 <= i < |items| ensures items[i] in shuffled {
      assert items[i] in multiset(items);
    }
    forall i | 0 <= i < |shuffled| ensures shuffled[i] in items {
      assert shuffled[i] in multiset(shuffled);
    }
  }

  // ---------------------------------------------------------------- money

  lemma {:induction false} ChargesAreSubtotal(lines: seq<Line>, charges: seq<Charge>)
    requires |charges| == |lines|
    requires forall i :: 0 <= i < |lines| ==>
               charges[i] == Charge(lines[i].unitPriceCents, lines[i].quantity)
               && lines[i].lineTotalCents == lines[i].unitPriceCents * lines[i].quantity
    ensures ChargesTotal(charges) == Subtotal(lines)
  {
    if lines != [] {
      ChargesAreSubtotal(lines[..|lines|-1], charges[..|charges|-1]);
    }
  }

  /** Stripe charges exactly the total frozen in the order. */
  lemma StripeChargesTheTotal(catalogue: Catalogue, items: seq<Item>, setting: Option<int>)
    requires BuildLines(catalogue, items).Ok?
    ensures var lines := BuildLines(catalogue, items).value;
            var shipping := Shipping(lines, setting);
            AmountCharged(BuildSessionParams(lines, shipping, AllDigital(lines))) == Subtotal(lines) + shipping
  {
    var lines := BuildLines(catalogue, items).value;
    LinesOfCart(catalogue, items);
    ChargesAreSubtotal(lines, BuildSessionParams(lines, Shipping(lines, setting), AllDigital(lines)).charges);
  }

  /** What the request validation lets through. */
  predicate ValidCart(items: seq<Item>) {
    1 <= |items| <= MAX_ITEMS && forall i :: 0 <= i < |items| ==> 1 <= items[i].quantity <= MAX_UNITS
  }

  predicate PricesAtMost(catalogue: Catalogue, limit: nat) {
    forall v :: v in catalogue ==> catalogue[v].priceCents <= limit
  }

  lemma ProductBound(a: nat, b: nat, x: nat, y: nat)
    requires a <= x && b <= y
    ensures a * b <= x * y
  {
    assert a * b <= x * b;
    assert x * b <= x * y;
  }

  lemma {:induction false} RawBound(catalogue: Catalogue, items: seq<Item>, limit: nat)
    requires PricesAtMost(catalogue, limit)
    requires forall i :: 0 <= i < |items| ==> items[i].quantity <= MAX_UNITS
    ensures RawTotal(catalogue, items) <= |items| * (limit * MAX_UNITS)
  {
    if items != [] {
      var n := |items| - 1;
      RawBound(catalogue, items[..n], limit);
      var price := Price(catalogue, items[n].variantId);
      assert price <= limit;
      hide PricesAtMost, Price;
      ProductBound(price, items[n].quantity, limit, MAX_UNITS);
      assert (n + 1) * (limit * MAX_UNITS) == n * (limit * MAX_UNITS) + limit * MAX_UNITS;
    }
  }

  /** With variants priced within the variant form's limit, no accepted subtotal leaves a 32-bit column. */
  lemma SubtotalFits(catalogue: Catalogue, items: seq<Item>)
    requires ValidCart(items) && PricesAtMost(catalogue, MAX_PRICE_CENTS) && BuildLines(catalogue, items).Ok?
    ensures Subtotal(BuildLines(catalogue, items).value) <= 2_000_000_000 <= INT32_MAX
  {
    CartConserved(catalogue, items);
    RawBound(catalogue, items, MAX_PRICE_CENTS);
    ProductBound(|items|, MAX_PRICE_CENTS * MAX_UNITS, MAX_ITEMS, MAX_PRICE_CENTS * MAX_UNITS);
  }

  /**
   * The product form prices a download ten times higher, and with that limit
   * the bound is lost: three such downloads, ten of each, do not fit.
   */
  lemma DigitalPricesOverflow()
    ensures exists catalogue, items ::
              && ValidCart(items) && PricesAtMost(catalogue, MAX_DIGITAL_PRICE_CENTS)
              && BuildLines(catalogue, items).Ok?
              && Subtotal(BuildLines(catalogue, items).value) > INT32_MAX
  {
    var kit := Variant("kit", MAX_DIGITAL_PRICE_CENTS, true, true, DIGITAL, None, None, Some("kit.zip"));
    var catalogue := map[0 := kit, 1 := kit, 2 := kit];
    var items := [Item(0, 10), Item(1, 10), Item(2, 10)];
    ThreeDownloads(catalogue, items, kit);
  }

  lemma ThreeDownloads(catalogue: Catalogue, items: seq<Item>, kit: Variant)
    requires items == [Item(0, 10), Item(1, 10), Item(2, 10)]
    requires kit.isActive && kit.productActive && kit.kind == DIGITAL && Truthy(kit.digitalAssetPath)
    requires kit.priceCents == MAX_DIGITAL_PRICE_CENTS
    requires catalogue == map[0 := kit, 1 := kit, 2 := kit]
    ensures ValidCart(items) && PricesAtMost(catalogue, MAX_DIGITAL_PRICE_CENTS)
    ensures BuildLines(catalogue, items).Ok? && Subtotal(BuildLines(catalogue, items).value) > INT32_MAX
  {
    hide BuildLines, RawTotal, Quantity, Subtotal;
    forall i | 0 <= i < 3 ensures Acceptable(catalogue, items[i].variantId, Quantity(items, items[i].variantId)) {
      QuantityOfThree(items, items[i].variantId);
    }
    AcceptedExactly(catalogue, items);
    CartConserved(catalogue, items);
    TotalOfThree(catalogue, items);
  }

  lemma TotalOfThree(catalogue: Catalogue, items: seq<Item>)
    requires |items| == 3
    ensures RawTotal(catalogue, items)
         == Price(catalogue, items[0].variantId) * items[0].quantity
            + Price(catalogue, items[1].variantId) * items[1].quantity
            + Price(catalogue, items[2].variantId) * items[2].quantity
  {
    hide Price;
    assert items[..2][..1] == items[..1] && items[..1][..0] == [];
    assert RawTotal(catalogue, items[..1]) == Price(catalogue, items[0].variantId) * items[0].quantity;
  }

  lemma QuantityOfThree(items: seq<Item>, v: VariantId)
    requires |items| == 3
    ensures Quantity(items, v)
         == (if items[0].variantId == v then items[0].quantity else 0)
            + (if items[1].variantId == v then items[1].quantity else 0)
            + (if items[2].variantId == v then items[2].quantity else 0)
  {
    assert items[..2][..1] == items[..1] && items[..1][..0] == [];
    assert Quantity(items[..1], v) == if items[0].variantId == v then items[0].quantity else 0;
  }

  // ---------------------------------------------------------------- the exact limit

  /** Every valid cart a catalogue accepts fits the column, whatever the catalogue, up to this price. */
  ghost predicate AlwaysFits(limit: nat) {
    forall catalogue, items :: Accepted(catalogue, items, limit) ==>
      Subtotal(BuildLines(catalogue, items).value) <= INT32_MAX
  }

  predicate Accepted(catalogue: Catalogue, items: seq<Item>, limit: nat) {
    ValidCart(items) && PricesAtMost(catalogue, limit) && BuildLines(catalogue, items).Ok?
  }

  function Kit(limit: nat): Variant {
    Variant("kit", limit, true, true, DIGITAL, None, None, Some("kit.zip"))
  }

  /** The dearest catalogue: n downloads, all at the limit. */
  function Dearest(limit: nat, n: nat): (catalogue: Catalogue)
    ensures forall v: VariantId :: v in catalogue <==> v < n
    ensures forall v :: v in catalogue ==> catalogue[v] == Kit(limit)
  {
    if n == 0 then map[] else Dearest(limit, n - 1)[n - 1 := Kit(limit)]
  }

  /** Ten units of each of the first n. */
  function TenOfEach(n: nat): seq<Item> {
    if n == 0 then [] else TenOfEach(n - 1) + [Item(n - 1, MAX_UNITS)]
  }

  lemma {:induction false} TenAt(n: nat, i: nat)
    requires i < n
    ensures |TenOfEach(n)| == n && TenOfEach(n)[i] == Item(i, MAX_UNITS)
  {
    if n > 1 {
      TenAt(n - 1, if i < n - 1 then i else 0);
    }
  }

  lemma QuantityMore(items: seq<Item>, item: Item, v: VariantId)
    ensures Quantity(items + [item], v) == Quantity(items, v) + QuantityHere(item, v)
  {
    assert (items + [item])[..|items|] == items;
  }

  lemma RawMore(catalogue: Catalogue, items: seq<Item>, item: Item)
    ensures RawTotal(catalogue, items + [item])
         == RawTotal(catalogue, items) + Price(catalogue, item.variantId) * item.quantity
  {
    assert (items + [item])[..|items|] == items;
  }

  lemma {:induction false} TenUnits(n: nat, v: VariantId)
    ensures Quantity(TenOfEach(n), v) == if v < n then MAX_UNITS else 0
  {
    if n > 0 {
      hide Quantity;
      TenUnits(n - 1, v);
      QuantityMore(TenOfEach(n - 1), Item(n - 1, MAX_UNITS), v);
    }
  }

  lemma {:induction false} TenOfEachTotal(catalogue: Catalogue, limit: nat, n: nat)
    requires forall v: VariantId :: v < n ==> Price(catalogue, v) == limit
    ensures RawTotal(catalogue, TenOfEach(n)) == n * (limit * MAX_UNITS)
  {
    if n > 0 {
      hide RawTotal, Price;
      TenOfEachTotal(catalogue, limit, n - 1);
      RawMore(catalogue, TenOfEach(n - 1), Item(n - 1, MAX_UNITS));
      assert n * (limit * MAX_UNITS) == (n - 1) * (limit * MAX_UNITS) + limit * MAX_UNITS;
    }
  }

  lemma DearestCart(limit: nat)
    ensures ValidCart(TenOfEach(MAX_ITEMS)) && PricesAtMost(Dearest(limit, MAX_ITEMS), limit)
    ensures BuildLines(Dearest(limit, MAX_ITEMS), TenOfEach(MAX_ITEMS)).Ok?
  {
    var catalogue, items := Dearest(limit, MAX_ITEMS), TenOfEach(MAX_ITEMS);
    hide BuildLines, Quantity, TenOfEach, Dearest;
    TenAt(MAX_ITEMS, 0);
    forall i | 0 <= i < MAX_ITEMS
      ensures items[i].quantity == MAX_UNITS
      ensures Acceptable(catalogue, items[i].variantId, Quantity(items, items[i].variantId))
    {
      TenAt(MAX_ITEMS, i);
      TenUnits(MAX_ITEMS, i);
      assert i in catalogue;
    }
    AcceptedExactly(catalogue, items);
  }

  lemma DearestAccepted(limit: nat)
    ensures var catalogue, items := Dearest(limit, MAX_ITEMS), TenOfEach(MAX_ITEMS);
            Accepted(catalogue, items, limit) && Subtotal(BuildLines(catalogue, items).value) == 200 * limit
  {
    hide BuildLines, Subtotal, RawTotal, TenOfEach, Dearest, ValidCart, PricesAtMost;
    DearestCart(limit);
    CartConserved(Dearest(limit, MAX_ITEMS), TenOfEach(MAX_ITEMS));
    TenOfEachTotal(Dearest(limit, MAX_ITEMS), limit, MAX_ITEMS);
  }

  lemma UpToTheLimit(catalogue: Catalogue, items: seq<Item>, limit: nat)
    requires Accepted(catalogue, items, limit)
    ensures Subtotal(BuildLines(catalogue, items).value) <= 200 * limit
  {
    hide BuildLines, Subtotal, RawTotal;
    CartConserved(catalogue, items);
    RawBound(catalogue, items, limit);
    ProductBound(|items|, limit * MAX_UNITS, MAX_ITEMS, limit * MAX_UNITS);
  }

  /** The column is safe exactly up to a price of 10,737,418 cents: two hundred units are the most a cart holds. */
  lemma LimitExact(limit: nat)
    ensures AlwaysFits(limit) <==> 200 * limit <= INT32_MAX
  {
    hide BuildLines, Subtotal, RawTotal, Dearest, TenOfEach;
    if 200 * limit <= INT32_MAX {
      forall catalogue, items | Accepted(catalogue, items, limit)
        ensures Subtotal(BuildLines(catalogue, items).value) <= INT32_MAX
      {
        UpToTheLimit(catalogue, items, limit);
      }
    } else {
      DearestAccepted(limit);
    }
  }

  // ---------------------------------------------------------------- the agreement

  /** Every line checkout freezes can be delivered. */
  lemma FrozenLinesDeliverable(catalogue: Catalogue, items: seq<Item>)
    requires BuildLines(catalogue, items).Ok? && items != []
    ensures var lines := BuildLines(catalogue, items).value;
            && lines != []
            && forall i :: 0 <= i < |lines| ==>
                 lines[i].variantId in catalogue && (lines[i].kind == DIGITAL ==> Truthy(lines[i].asset))
  {
    LinesExact(catalogue, items, Keys(items));
    assert items[0].variantId in Keys(items);
  }

  /** The order checkout writes is the one the protocol's checkout step takes, if its variants still exist. */
  lemma CheckoutStepTakesIt(w: Protocol.World, o: OrderId, catalogue: Catalogue, items: seq<Item>, email: string)
    requires BuildLines(catalogue, items).Ok? && items != [] && o !in w.usedOrders
    requires forall v :: v in catalogue ==> v in w.db.variants
    ensures var lines := BuildLines(catalogue, items).value;
            var w' := Protocol.Apply(w, Protocol.Checkout(o, lines, email));
            && o in w'.db.orders
            && w'.db.orders[o] == Order(PENDING_PAYMENT, None, None, None, w.now, email, lines)
            && forall x :: x in w.db.orders && x != o ==> x in w'.db.orders && w'.db.orders[x] == w.db.orders[x]
  {
    FrozenLinesDeliverable(catalogue, items);
    hide BuildLines;
    var lines := BuildLines(catalogue, items).value;
    CheckoutStep(w, o, lines, email);
    assert forall i :: 0 <= i < |lines| ==> Protocol.Sellable(w.db, lines[i]);
  }

  lemma CheckoutStep(w: Protocol.World, o: OrderId, lines: seq<Line>, email: string)
    ensures Protocol.Apply(w, Protocol.Checkout(o, lines, email)) == Protocol.DoCheckout(w, o, lines, email)
  {
    hide Protocol.DoCheckout;
  }

  /** Every item of the cart, as it was sent, is a download. */
  predicate OnlyDownloads(catalogue: Catalogue, items: seq<Item>) {
    forall i :: 0 <= i < |items| ==>
      items[i].variantId in catalogue && catalogue[items[i].variantId].kind == DIGITAL
  }

  /** What a cart is charged for shipping. */
  function ShippingOf(catalogue: Catalogue, items: seq<Item>, setting: Option<int>): nat {
    if OnlyDownloads(catalogue, items) then 0
    else if setting.Some? && setting.value >= 0 then setting.value
    else 0
  }

  lemma DownloadsAreDigitalLines(catalogue: Catalogue, items: seq<Item>, lines: seq<Line>)
    requires Frozen(catalogue, items, lines)
    ensures AllDigital(lines) <==> OnlyDownloads(catalogue, items)
  {
    var keys := Keys(items);
    if AllDigital(lines) {
      forall i | 0 <= i < |items|
        ensures items[i].variantId in catalogue && catalogue[items[i].variantId].kind == DIGITAL
      {
        assert items[i].variantId in keys;
        var k :| 0 <= k < |keys| && keys[k] == items[i].variantId;
        assert lines[k].kind == DIGITAL;
      }
    } else {
      var k :| 0 <= k < |lines| && lines[k].kind != DIGITAL;
      assert keys[k] in keys;
    }
  }

  /** What Stripe is asked for: one charge per line, an address unless all is downloads, the shipping if any. */
  predicate Asks(params: SessionParams, lines: seq<Line>, shipping: nat, address: bool) {
    && |params.charges| == |lines|
    && (forall k :: 0 <= k < |lines| ==>
          params.charges[k] == Charge(lines[k].unitPriceCents, lines[k].quantity))
    && params.asksAddress == address
    && params.shippingAmount == if shipping == 0 then None else Some(shipping)
  }

  lemma SessionAgrees(catalogue: Catalogue, items: seq<Item>, setting: Option<int>)
    requires BuildLines(catalogue, items).Ok?
    ensures var lines := BuildLines(catalogue, items).value;
            var shipping := Shipping(lines, setting);
            var downloads := OnlyDownloads(catalogue, items);
            && AllDigital(lines) == downloads
            && shipping == ShippingOf(catalogue, items, setting)
            && Asks(BuildSessionParams(lines, shipping, AllDigital(lines)), lines, shipping, !downloads)
  {
    hide BuildLines, Frozen, OnlyDownloads;
    LinesOfCart(catalogue, items);
    DownloadsAreDigitalLines(catalogue, items, BuildLines(catalogue, items).value);
  }

  /**
   * Three decisions made apart, told by the cart and the catalogue alone: checkout's "only
   * downloads" (no shipping, no address), the payment's delivery job, and the links the
   * delivery emits.
   */
  lemma CheckoutPaymentDeliveryAgree(catalogue: Catalogue, items: seq<Item>, setting: Option<int>)
    requires BuildLines(catalogue, items).Ok? && items != []
    ensures var lines := BuildLines(catalogue, items).value;
            var shipping := Shipping(lines, setting);
            var downloads := OnlyDownloads(catalogue, items);
            && DeliveryKind(lines) == (if downloads then DELIVER_DIGITAL else FULFILL_ORDER)
            && shipping == ShippingOf(catalogue, items, setting)
            && Asks(BuildSessionParams(lines, shipping, AllDigital(lines)), lines, shipping, !downloads)
            && (downloads ==> |Deliverables(lines)| == |lines| >= 1)
  {
    hide BuildLines, OnlyDownloads, Asks, ShippingOf, Shipping;
    var lines := BuildLines(catalogue, items).value;
    SessionAgrees(catalogue, items, setting);
    FrozenLinesDeliverable(catalogue, items);
    if AllDigital(lines) {
      AllDeliverable(lines, 0);
    }
  }

  // ---------------------------------------------------------------- the service

  datatype Placed = Placed(
    lines: seq<Line>, subtotalCents: nat, shippingCents: nat, totalCents: nat, session: Option<nat>)

  /** The Map after merging some items: its keys as they came, the quantities added up. */
  ghost predicate Merged(items: seq<Item>, keys: seq<VariantId>, quantities: map<VariantId, nat>) {
    && keys == Keys(items)
    && (forall v :: v in quantities <==> v in keys)
    && (forall v :: v in quantities ==> quantities[v] == Quantity(items, v))
  }

  lemma NothingMerged()
    ensures Merged([], [], map[])
  {
  }

  lemma MergedOne(items: seq<Item>, i: nat, keys: seq<VariantId>, quantities: map<VariantId, nat>)
    requires i < |items| && Merged(items[..i], keys, quantities)
    ensures var Item(v, n) := items[i];
            Merged(items[..i+1], if v in quantities then keys else keys + [v],
                   quantities[v := (if v in quantities then quantities[v] else 0) + n])
  {
    assert items[..i+1][..i] == items[..i];
    var v := items[i].variantId;
    if v !in quantities {
      AbsentQuantity(items[..i], v);
    }
  }

  class CheckoutService {
    var placed: map<OrderId, Placed>

    constructor ()
      ensures placed == map[]
    {
      placed := map[];
    }

    /** The cart merged into a Map, which keeps its keys in the order they came. */
    method Merge(items: seq<Item>) returns (keys: seq<VariantId>, quantities: map<VariantId, nat>)
      ensures keys == Keys(items)
      ensures forall v :: v in quantities <==> v in keys
      ensures forall v :: v in quantities ==> quantities[v] == Quantity(items, v)
    {
      hide Quantity, Keys;
      keys := [];
      quantities := map[];
      NothingMerged();
      assert items[..0] == [];
      var i := 0;
      while i < |items|
        invariant 0 <= i <= |items|
        invariant Merged(items[..i], keys, quantities)
      {
        hide Merged;
        MergedOne(items, i, keys, quantities);
        var item := items[i];
        if item.variantId !in quantities {
          keys := keys + [item.variantId];
        }
        quantities := quantities[item.variantId :=
          (if item.variantId in quantities then quantities[item.variantId] else 0) + item.quantity];
        i := i + 1;
      }
      assert items[..i] == items;
    }

    /** One line per merged entry, or the first refusal. */
    method BuildLinesFromDatabase(catalogue: Catalogue, items: seq<Item>) returns (result: Result<seq<Line>, Refusal>)
      ensures result == BuildLines(catalogue, items)
      ensures result.Ok? ==> Frozen(catalogue, items, result.value)
      ensures result.Err? ==> FirstRefusal(catalogue, items, Keys(items), result.error)
    {
      hide Quantity, Keys, LineFor, Frozen, FirstRefusal;
      if BuildLines(catalogue, items).Ok? {
        LinesOfCart(catalogue, items);
      } else {
        FirstRefusalOf(catalogue, items, Keys(items));
      }
      var keys, quantities := Merge(items);
      var lines: seq<Line> := [];
      var k := 0;
      while k < |keys|
        invariant 0 <= k <= |keys|
        invariant LinesFor(catalogue, items, keys[..k]) == Ok(lines)
      {
        assert keys[..k+1][..k] == keys[..k];
        match LineFor(catalogue, keys[k], quantities[keys[k]]) {
          case Err(e) =>
            RefusedForGood(catalogue, items, keys, k + 1);
            return Err(e);
          case Ok(line) =>
            lines := lines + [line];
        }
        k := k + 1;
      }
      assert keys[..k] == keys;
      result := Ok(lines);
    }

    /** The order first, then the session; a session that fails leaves the order pending without one. */
    method CreateSession(configured: bool, catalogue: Catalogue, items: seq<Item>, setting: Option<int>,
                         o: OrderId, session: Option<nat>)
        returns (result: Result<SessionParams, Refusal>)
      requires o !in placed
      modifies this
      ensures !configured ==> placed == old(placed) && result == Err(ServiceDown)
      ensures configured && BuildLines(catalogue, items).Err? ==>
                placed == old(placed) && result == Err(BuildLines(catalogue, items).error)
                && FirstRefusal(catalogue, items, Keys(items), result.error)
      ensures configured && BuildLines(catalogue, items).Ok? ==>
                var shipping, subtotal := ShippingOf(catalogue, items, setting), RawTotal(catalogue, items);
                && o in placed && placed == old(placed)[o := placed[o]] && Frozen(catalogue, items, placed[o].lines)
                && placed[o] == Placed(placed[o].lines, subtotal, shipping, subtotal + shipping, session)
                && (session.None? ==> result == Err(ServiceDown))
                && (session.Some? ==>
                      && result.Ok? && AmountCharged(result.value) == placed[o].totalCents
                      && Asks(result.value, placed[o].lines, shipping, !OnlyDownloads(catalogue, items)))
    {
      hide BuildLines, Subtotal, RawTotal, AmountCharged, AllDigital, FlatShipping, BuildSessionParams, Frozen;
      hide FirstRefusal, ShippingOf, Asks, OnlyDownloads;
      if !configured {
        return Err(ServiceDown);
      }
      var built := BuildLinesFromDatabase(catalogue, items);
      if built.Err? {
        return Err(built.error);
      }
      var lines := built.value;
      StripeChargesTheTotal(catalogue, items, setting);
      CartConserved(catalogue, items);
      LinesOfCart(catalogue, items);
      SessionAgrees(catalogue, items, setting);
      var soloDigital := AllDigital(lines);
      var shippingCents := if soloDigital then 0 else FlatShipping(setting);
      var subtotalCents := Subtotal(lines);
      placed := placed[o := Placed(lines, subtotalCents, shippingCents, subtotalCents + shippingCents, None)];
      if session.None? {
        return Err(ServiceDown);
      }
      placed := placed[o := placed[o].(session := session)];
      result := Ok(BuildSessionParams(lines, shippingCents, soloDigital));
    }
  }

  /** A refusal on a prefix of the entries is the refusal of the whole cart. */
  lemma {:induction false} RefusedForGood(catalogue: Catalogue, items: seq<Item>, keys: seq<VariantId>, k: nat)
    requires k <= |keys| && LinesFor(catalogue, items, keys[..k]).Err?
    ensures LinesFor(catalogue, items, keys) == LinesFor(catalogue, items, keys[..k])
    decreases |keys| - k
  {
    if k == |keys| {
      assert keys[..k] == keys;
    } else {
      assert keys[..k+1][..k] == keys[..k];
      RefusedForGood(catalogue, items, keys, k + 1);
    }
  }
}
