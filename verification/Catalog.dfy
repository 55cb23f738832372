/**
 * What the panel may do to a product: its row, variants, images and the file it sells. On
 * sale it must stay one that can be shown and delivered, whatever is edited in any order.
 */
module Catalog {
  import opened Prelude
  import opened Store
  import Checkout

  type ImageId = nat

  datatype VariantRow = VariantRow(
    priceCents: nat,
    isActive: bool,
    providerProductUid: Option<string>,
    printFileUrl: Option<string>,
    digitalAssetPath: Option<string>)

  datatype ImageRow = ImageRow(isPrimary: bool, sortOrder: nat)

  datatype Product = Product(
    name: string,
    kind: Fulfillment,
    isActive: bool,
    variants: map<VariantId, VariantRow>,
    images: map<ImageId, ImageRow>)

  datatype Refusal = NotFound | Conflict | BadRequest

  /** A field of the edit form: absent, or the value it sets (null included). */
  datatype VariantPatch = VariantPatch(
    priceCents: Option<nat>,
    isActive: Option<bool>,
    providerProductUid: Option<Option<string>>,
    printFileUrl: Option<Option<string>>)

  const MAX_IMAGES_PER_PRODUCT := 10

  // ---------------------------------------------------------------- what must hold

  predicate Complete(kind: Fulfillment, v: VariantRow) {
    && (kind == POD ==> Truthy(v.providerProductUid) && Truthy(v.printFileUrl))
    && (kind == DIGITAL ==> Truthy(v.digitalAssetPath))
  }

  predicate ActiveComplete(kind: Fulfillment, variants: map<VariantId, VariantRow>) {
    forall v :: v in variants && variants[v].isActive ==> Complete(kind, variants[v])
  }

  predicate SomeActive(variants: map<VariantId, VariantRow>) {
    exists v :: v in variants && variants[v].isActive
  }

  /** It can be shown, chosen and delivered. */
  predicate Publishable(p: Product) {
    p.images != map[] && SomeActive(p.variants) && ActiveComplete(p.kind, p.variants)
  }

  /** The promise of the catalogue: what is on sale is publishable. */
  predicate Sellable(p: Product) {
    p.isActive ==> Publishable(p)
  }

  predicate AtMostOnePrimary(images: map<ImageId, ImageRow>) {
    forall i, k :: i in images && k in images && images[i].isPrimary && images[k].isPrimary ==> i == k
  }

  predicate HasPrimary(images: map<ImageId, ImageRow>) {
    images != map[] ==> exists i :: i in images && images[i].isPrimary
  }

  // ---------------------------------------------------------------- the operations

  /** updateProduct: publishing is checked against the product as it is, before the edit. */
  function UpdateProduct(p: Product, isActive: Option<bool>, kind: Option<Fulfillment>): Result<Product, Refusal> {
    if isActive == Some(true) && !Publishable(p) then Err(Conflict)
    else Ok(p.(isActive := if isActive.Some? then isActive.value else p.isActive,
               kind := if kind.Some? then kind.value else p.kind))
  }

  function CreateVariant(p: Product, v: VariantId, row: VariantRow): Result<Product, Refusal> {
    if v in p.variants then Err(Conflict) else Ok(p.(variants := p.variants[v := row.(digitalAssetPath := None)]))
  }

  function Patched(row: VariantRow, patch: VariantPatch): VariantRow {
    row.(priceCents := if patch.priceCents.Some? then patch.priceCents.value else row.priceCents,
         isActive := if patch.isActive.Some? then patch.isActive.value else row.isActive,
         providerProductUid :=
           if patch.providerProductUid.Some? then patch.providerProductUid.value else row.providerProductUid,
         printFileUrl := if patch.printFileUrl.Some? then patch.printFileUrl.value else row.printFileUrl)
  }

  /** A transaction that ends by asking whether what is on sale still can be. */
  function StillPublishable(p: Product): Result<Product, Refusal> {
    if p.isActive && !Publishable(p) then Err(Conflict) else Ok(p)
  }

  function UpdateVariant(p: Product, v: VariantId, patch: VariantPatch): Result<Product, Refusal> {
    if v !in p.variants then Err(NotFound)
    else StillPublishable(p.(variants := p.variants[v := Patched(p.variants[v], patch)]))
  }

  function DeleteVariant(p: Product, v: VariantId, sold: nat): Result<Product, Refusal> {
    if v !in p.variants then Err(NotFound)
    else if sold > 0 then Err(Conflict)
    else StillPublishable(p.(variants := p.variants - {v}))
  }

  function Demoted(images: map<ImageId, ImageRow>, except: set<ImageId>): (r: map<ImageId, ImageRow>)
    ensures r.Keys == images.Keys
  {
    map i | i in images :: if i in except then images[i] else images[i].(isPrimary := false)
  }

  function UploadImage(p: Product, i: ImageId, asked: bool): Result<Product, Refusal> {
    if |p.images| >= MAX_IMAGES_PER_PRODUCT then Err(BadRequest)
    else
      var primary := asked || |p.images| == 0;
      var others := if primary then Demoted(p.images, {}) else p.images;
      Ok(p.(images := others[i := ImageRow(primary, |p.images|)]))
  }

  function UpdateImage(p: Product, i: ImageId, primary: Option<bool>): Result<Product, Refusal> {
    if i !in p.images then Err(NotFound)
    else
      var others := if primary == Some(true) then Demoted(p.images, {i}) else p.images;
      Ok(p.(images := others[i := others[i].(
           isPrimary := if primary.Some? then primary.value else others[i].isPrimary)]))
  }

  /** One update per position, in order: a repeated id keeps its last position. */
  function Placed(images: map<ImageId, ImageRow>, ids: seq<ImageId>): (r: map<ImageId, ImageRow>)
    requires forall i :: i in ids ==> i in images
    ensures r.Keys == images.Keys
  {
    if ids == [] then images
    else
      var n := |ids| - 1;
      var before := Placed(images, ids[..n]);
      before[ids[n] := before[ids[n]].(sortOrder := n)]
  }

  predicate NamesAll(images: map<ImageId, ImageRow>, ids: seq<ImageId>) {
    |ids| == |images| && forall i :: i in ids ==> i in images
  }

  function Reorder(p: Product, ids: seq<ImageId>): Result<Product, Refusal> {
    if !NamesAll(p.images, ids) then Err(BadRequest) else Ok(p.(images := Placed(p.images, ids)))
  }

  /** What findFirst by sortOrder may answer; ties are the database's to break. */
  predicate IsFirst(images: map<ImageId, ImageRow>, next: Option<ImageId>) {
    match next
    case None => images == map[]
    case Some(n) => n in images && forall i :: i in images ==> images[n].sortOrder <= images[i].sortOrder
  }

  function Relieved(images: map<ImageId, ImageRow>, gone: ImageId, next: Option<ImageId>): (r: map<ImageId, ImageRow>)
    requires gone in images
    ensures r.Keys == images.Keys - {gone}
  {
    var rest := images - {gone};
    if images[gone].isPrimary && next.Some? && next.value in rest
    then rest[next.value := rest[next.value].(isPrimary := true)] else rest
  }

  function DeleteImage(p: Product, i: ImageId, next: Option<ImageId>): Result<Product, Refusal> {
    if i !in p.images then Err(NotFound)
    else
      var images := Relieved(p.images, i, next);
      if p.isActive && images == map[] then Err(Conflict) else Ok(p.(images := images))
  }

  function UploadAsset(p: Product, v: VariantId, path: string): Result<Product, Refusal> {
    if v !in p.variants then Err(NotFound)
    else if p.kind != DIGITAL then Err(Conflict)
    else Ok(p.(variants := p.variants[v := p.variants[v].(digitalAssetPath := Some(path))]))
  }

  function RemoveAsset(p: Product, v: VariantId): Result<Product, Refusal> {
    if v !in p.variants then Err(NotFound)
    else if p.isActive then Err(Conflict)
    else if !Truthy(p.variants[v].digitalAssetPath) then Ok(p)
    else Ok(p.(variants := p.variants[v := p.variants[v].(digitalAssetPath := None)]))
  }

  // ---------------------------------------------------------------- the panel as a machine

  datatype Edit =
    | EditProduct(isActive: Option<bool>, kind: Option<Fulfillment>)
    | AddVariant(v: VariantId, row: VariantRow)
    | EditVariant(v: VariantId, patch: VariantPatch)
    | DropVariant(v: VariantId, sold: nat)
    | AddImage(i: ImageId, asked: bool)
    | EditImage(i: ImageId, primary: Option<bool>)
    | SortImages(ids: seq<ImageId>)
    | DropImage(i: ImageId, next: Option<ImageId>)
    | AddAsset(v: VariantId, path: string)
    | DropAsset(v: VariantId)

  /** What the database and the storage guarantee of the parts they choose. */
  predicate Answered(p: Product, e: Edit) {
    match e
    case AddImage(i, _) => i !in p.images
    case DropImage(i, next) => IsFirst(p.images - {i}, next)
    case AddAsset(_, path) => path != ""
    case _ => true
  }

  function Outcome(p: Product, e: Edit): Result<Product, Refusal> {
    match e
    case EditProduct(isActive, kind) => UpdateProduct(p, isActive, kind)
    case AddVariant(v, row) => CreateVariant(p, v, row)
    case EditVariant(v, patch) => UpdateVariant(p, v, patch)
    case DropVariant(v, sold) => DeleteVariant(p, v, sold)
    case AddImage(i, asked) => UploadImage(p, i, asked)
    case EditImage(i, primary) => UpdateImage(p, i, primary)
    case SortImages(ids) => Reorder(p, ids)
    case DropImage(i, next) => DeleteImage(p, i, next)
    case AddAsset(v, path) => UploadAsset(p, v, path)
    case DropAsset(v) => RemoveAsset(p, v)
  }

  /** A refused edit leaves everything as it was. */
  function After(p: Product, e: Edit): Product {
    var r := Outcome(p, e);
    if r.Ok? then r.value else p
  }

  function AfterAll(p: Product, edits: seq<Edit>): Product {
    if edits == [] then p else After(AfterAll(p, edits[..|edits|-1]), edits[|edits|-1])
  }

  /** The two edits nobody checks: an unfinished variant added on sale, and a change of kind. */
  predicate Unchecked(p: Product, e: Edit) {
    match e
    case AddVariant(v, row) =>
      p.isActive && v !in p.variants && row.isActive && !Complete(p.kind, row.(digitalAssetPath := None))
    case EditProduct(isActive, kind) =>
      kind.Some? && (if isActive.Some? then isActive.value else p.isActive)
      && Publishable(p) && !ActiveComplete(kind.value, p.variants)
    case _ => false
  }

  // ---------------------------------------------------------------- on sale means deliverable

  lemma VariantEditKeeps(p: Product, e: Edit)
    requires Sellable(p) && Answered(p, e)
    requires e.EditProduct? || e.AddVariant? || e.AddAsset? || e.DropAsset?
    ensures Sellable(After(p, e)) <==> !Unchecked(p, e)
  {
    var q := After(p, e);
    if p.isActive && SomeActive(p.variants) {
      var v :| v in p.variants && p.variants[v].isActive;
      if !e.EditProduct? {
        assert v in q.variants && q.variants[v].isActive;
      }
    }
    if e.AddVariant? && Unchecked(p, e) {
      assert e.v in q.variants && q.variants[e.v].isActive;
    }
  }

  lemma ImageEditKeeps(p: Product, e: Edit)
    requires Sellable(p) && Answered(p, e)
    requires e.AddImage? || e.EditImage? || e.SortImages? || e.DropImage?
    ensures Sellable(After(p, e))
  {
    hide SomeActive, ActiveComplete;
    var q := After(p, e);
    match e
    case AddImage(i, _) => assert q.images != map[] by { if q != p { assert i in q.images; } }
    case EditImage(i, _) => assert p.isActive ==> q.images != map[] by { if q != p { assert i in q.images; } }
    case SortImages(ids) => assert q.images.Keys == p.images.Keys;
    case DropImage(_, _) =>
  }

  /** Exactly which edits can put an undeliverable product on sale; all others keep the promise. */
  lemma EditKeeps(p: Product, e: Edit)
    requires Sellable(p) && Answered(p, e)
    ensures Sellable(After(p, e)) <==> !Unchecked(p, e)
  {
    match e
    case EditVariant(_, _) =>
    case DropVariant(_, _) =>
    case AddImage(_, _) => ImageEditKeeps(p, e);
    case EditImage(_, _) => ImageEditKeeps(p, e);
    case SortImages(_) => ImageEditKeeps(p, e);
    case DropImage(_, _) => ImageEditKeeps(p, e);
    case _ => VariantEditKeeps(p, e);
  }

  predicate Checked(p: Product, edits: seq<Edit>) {
    forall k :: 0 <= k < |edits| ==>
      Answered(AfterAll(p, edits[..k]), edits[k]) && !Unchecked(AfterAll(p, edits[..k]), edits[k])
  }

  lemma {:induction false} RunStaysSellable(p: Product, edits: seq<Edit>)
    requires Sellable(p) && Checked(p, edits)
    ensures Sellable(AfterAll(p, edits))
  {
    if edits != [] {
      hide After, Sellable, Answered, Unchecked;
      var n := |edits| - 1;
      var before := edits[..n];
      assert forall k :: 0 <= k < n ==> before[..k] == edits[..k] && before[k] == edits[k];
      RunStaysSellable(p, before);
      EditKeeps(AfterAll(p, before), edits[n]);
    }
  }

  /** A variant as checkout reads it, joined with its product. */
  function Joined(p: Product, v: VariantId): Checkout.Variant
    requires v in p.variants
  {
    var row := p.variants[v];
    Checkout.Variant(p.name, row.priceCents, row.isActive, p.isActive, p.kind,
                     row.providerProductUid, row.printFileUrl, row.digitalAssetPath)
  }

  /** Whatever the panel did, an active variant on sale is never refused as undeliverable. */
  lemma OnSaleIsDeliverable(p: Product, edits: seq<Edit>, catalogue: Checkout.Catalogue, v: VariantId, quantity: nat)
    requires Sellable(p) && Checked(p, edits)
    requires v in catalogue && v in AfterAll(p, edits).variants && catalogue[v] == Joined(AfterAll(p, edits), v)
    requires catalogue[v].isActive && catalogue[v].productActive
    ensures Checkout.LineFor(catalogue, v, quantity).Ok? <==> quantity <= Checkout.MAX_UNITS
    ensures quantity > Checkout.MAX_UNITS ==> Checkout.LineFor(catalogue, v, quantity) == Err(Checkout.TooMany)
  {
    RunStaysSellable(p, edits);
    var q := AfterAll(p, edits);
    assert Complete(q.kind, q.variants[v]);
  }

  /**
   * Publishing reads and writes in two calls. A deletion between them is not
   * checked, because the product is not on sale yet, and the write goes through.
   */
  lemma PublishCanBeOvertaken()
    ensures exists p: Product, v: VariantId ::
              && Sellable(p) && UpdateProduct(p, Some(true), None).Ok?
              && DeleteVariant(p, v, 0).Ok?
              && !Sellable(DeleteVariant(p, v, 0).value.(isActive := true))
  {
    var shirt := VariantRow(1000, true, Some("uid"), Some("url"), None);
    var p := Product("shirt", POD, false, map[7 := shirt], map[1 := ImageRow(true, 0)]);
    assert 7 in p.variants && 1 in p.images;
    assert Publishable(p);
    var q := DeleteVariant(p, 7, 0).value;
    assert q.variants == map[];
  }

  // ---------------------------------------------------------------- the images

  lemma OnePrimaryKept(p: Product, e: Edit)
    requires AtMostOnePrimary(p.images) && Answered(p, e)
    ensures AtMostOnePrimary(After(p, e).images)
  {
    hide Placed, Demoted, Relieved, Publishable, SomeActive, ActiveComplete, AtMostOnePrimary;
    match e
    case SortImages(ids) => if NamesAll(p.images, ids) { OnePrimaryAfterSort(p.images, ids); }
    case AddImage(i, asked) => OnePrimaryAfterUpload(p.images, i, ImageRow(asked || |p.images| == 0, |p.images|));
    case EditImage(i, primary) => if i in p.images { OnePrimaryAfterEdit(p, i, primary); }
    case DropImage(i, next) => if i in p.images { OnePrimaryAfterDeletion(p.images, i, next); }
    case _ => ImagesUntouched(p, e);
  }

  lemma OnePrimaryAfterSort(images: map<ImageId, ImageRow>, ids: seq<ImageId>)
    requires AtMostOnePrimary(images) && NamesAll(images, ids)
    ensures AtMostOnePrimary(Placed(images, ids))
  {
    hide Placed;
    PlacedKeeps(images, ids);
  }

  lemma OnePrimaryAfterUpload(images: map<ImageId, ImageRow>, i: ImageId, row: ImageRow)
    requires AtMostOnePrimary(images) && i !in images
    ensures AtMostOnePrimary((if row.isPrimary then Demoted(images, {}) else images)[i := row])
  {
  }

  lemma OnePrimaryAfterEdit(p: Product, i: ImageId, primary: Option<bool>)
    requires AtMostOnePrimary(p.images) && i in p.images
    ensures AtMostOnePrimary(UpdateImage(p, i, primary).value.images)
  {
  }

  lemma OnePrimaryAfterDeletion(images: map<ImageId, ImageRow>, i: ImageId, next: Option<ImageId>)
    requires AtMostOnePrimary(images) && i in images
    ensures AtMostOnePrimary(Relieved(images, i, next))
  {
  }

  /** No edit takes a product past ten images, and only an upload adds one. */
  lemma ImagesBounded(p: Product, e: Edit)
    requires |p.images| <= MAX_IMAGES_PER_PRODUCT && Answered(p, e)
    ensures |After(p, e).images| <= MAX_IMAGES_PER_PRODUCT
    ensures After(p, e).images.Keys > p.images.Keys ==> e.AddImage? && After(p, e).images.Keys == p.images.Keys + {e.i}
  {
    hide Publishable, Demoted, Relieved, Placed;
    var q := After(p, e);
    KeysAfter(p, e);
    assert |q.images| == |q.images.Keys| && |p.images| == |p.images.Keys|;
    if !e.AddImage? {
      SubsetSize(q.images.Keys, p.images.Keys);
    }
  }

  lemma KeysAfter(p: Product, e: Edit)
    ensures var keys := After(p, e).images.Keys;
            if e.AddImage? then
              keys == (if |p.images| >= MAX_IMAGES_PER_PRODUCT then p.images.Keys else p.images.Keys + {e.i})
            else if e.DropImage? then keys == p.images.Keys || keys == p.images.Keys - {e.i}
            else keys == p.images.Keys
  {
    hide Publishable, Demoted, Relieved, Placed;
  }

  /** A product with images keeps a primary one, unless an edit takes the mark off the only one that has it. */
  lemma PrimaryKept(p: Product, e: Edit)
    requires AtMostOnePrimary(p.images) && HasPrimary(p.images) && Answered(p, e)
    ensures HasPrimary(After(p, e).images)
       <==> !(e.EditImage? && e.primary == Some(false) && e.i in p.images && p.images[e.i].isPrimary)
  {
    hide After, HasPrimary, AtMostOnePrimary, IsFirst;
    match e
    case AddImage(i, asked) => PrimaryAfterUpload(p, i, asked);
    case EditImage(i, primary) => PrimaryAfterEdit(p, i, primary);
    case SortImages(ids) => PrimaryAfterSort(p, ids);
    case DropImage(i, next) => PrimaryAfterDeletion(p, i, next);
    case _ => ImagesUntouched(p, e);
  }

  lemma ImagesUntouched(p: Product, e: Edit)
    requires !e.AddImage? && !e.EditImage? && !e.SortImages? && !e.DropImage?
    ensures After(p, e).images == p.images
  {
    hide Publishable;
  }

  lemma PrimaryAfterUpload(p: Product, i: ImageId, asked: bool)
    requires HasPrimary(p.images) && i !in p.images
    ensures HasPrimary(After(p, AddImage(i, asked)).images)
  {
    var images := After(p, AddImage(i, asked)).images;
    if images != p.images && !images[i].isPrimary {
      var top :| top in p.images && p.images[top].isPrimary;
      assert images[top].isPrimary;
    }
  }

  lemma PrimaryAfterEdit(p: Product, i: ImageId, primary: Option<bool>)
    requires AtMostOnePrimary(p.images) && HasPrimary(p.images)
    ensures HasPrimary(After(p, EditImage(i, primary)).images)
       <==> !(primary == Some(false) && i in p.images && p.images[i].isPrimary)
  {
    if i in p.images {
      var images := UpdateImage(p, i, primary).value.images;
      assert images != map[] by { assert i in images; }
      if !images[i].isPrimary {
        var top :| top in p.images && p.images[top].isPrimary;
        assert top != i ==> images[top].isPrimary;
      }
    }
  }

  lemma PrimaryAfterSort(p: Product, ids: seq<ImageId>)
    requires HasPrimary(p.images)
    ensures HasPrimary(After(p, SortImages(ids)).images)
  {
    if NamesAll(p.images, ids) && p.images != map[] {
      hide Placed;
      PlacedKeeps(p.images, ids);
      var top :| top in p.images && p.images[top].isPrimary;
      assert Placed(p.images, ids)[top].isPrimary;
    }
  }

  lemma PrimaryAfterDeletion(p: Product, i: ImageId, next: Option<ImageId>)
    requires HasPrimary(p.images) && IsFirst(p.images - {i}, next)
    ensures HasPrimary(After(p, DropImage(i, next)).images)
  {
    var images := After(p, DropImage(i, next)).images;
    if images != map[] && images != p.images {
      if p.images[i].isPrimary {
        assert images[next.value].isPrimary;
      } else {
        var top :| top in p.images && p.images[top].isPrimary;
        assert images[top].isPrimary;
      }
    }
  }

  // ---------------------------------------------------------------- the order of the images

  lemma {:induction false} PlacedKeeps(images: map<ImageId, ImageRow>, ids: seq<ImageId>)
    requires forall i :: i in ids ==> i in images
    ensures forall i :: i in images ==> Placed(images, ids)[i].isPrimary == images[i].isPrimary
    ensures forall i :: i in images && i !in ids ==> Placed(images, ids)[i] == images[i]
  {
    if ids != [] {
      PlacedKeeps(images, ids[..|ids|-1]);
    }
  }

  /** An id stands at the last position that names it. */
  lemma {:induction false} PlacedAt(images: map<ImageId, ImageRow>, ids: seq<ImageId>, k: nat)
    requires forall i :: i in ids ==> i in images
    requires k < |ids| && ids[k] !in ids[k+1..]
    ensures Placed(images, ids)[ids[k]].sortOrder == k
  {
    var n := |ids| - 1;
    if k < n {
      assert ids[k+1..] == ids[..n][k+1..] + [ids[n]];
      assert ids[n] in ids[k+1..];
      PlacedAt(images, ids[..n], k);
    }
  }

  /** How listImages may answer: every image once, by sortOrder. */
  predicate IsListing(images: map<ImageId, ImageRow>, l: seq<ImageId>) {
    && NoDup(l)
    && ToSet(l) == images.Keys
    && forall a, b :: 0 <= a < b < |l| && l[a] in images && l[b] in images ==>
         images[l[a]].sortOrder <= images[l[b]].sortOrder
  }

  /** n naturals below n, each greater than the one before, are 0 to n - 1. */
  lemma {:induction false} StrictlyIncreasing(s: seq<nat>, k: nat)
    requires k < |s|
    requires forall a, b :: 0 <= a < b < |s| ==> s[a] < s[b]
    requires forall a :: 0 <= a < |s| ==> s[a] < |s|
    ensures s[k] == k
  {
    AtLeast(s, k);
    AtMost(s, k);
  }

  lemma {:induction false} AtLeast(s: seq<nat>, k: nat)
    requires k < |s|
    requires forall a, b :: 0 <= a < b < |s| ==> s[a] < s[b]
    ensures s[k] >= k
  {
    if k > 0 { AtLeast(s, k - 1); }
  }

  lemma {:induction false} AtMost(s: seq<nat>, k: nat)
    requires k < |s|
    requires forall a, b :: 0 <= a < b < |s| ==> s[a] < s[b]
    requires forall a :: 0 <= a < |s| ==> s[a] < |s|
    ensures s[k] <= k
    decreases |s| - k
  {
    if k < |s| - 1 { AtMost(s, k + 1); }
  }

  lemma NoDupNamesEach(images: map<ImageId, ImageRow>, ids: seq<ImageId>)
    requires NamesAll(images, ids) && NoDup(ids)
    ensures forall i :: i in images ==> i in ids
  {
    SetOfSeq(ids);
    SubsetSameSize(ToSet(ids), images.Keys);
  }

  /** Each image ends at the position it was given exactly when no image was named twice. */
  lemma ReorderExact(p: Product, ids: seq<ImageId>)
    requires Reorder(p, ids).Ok?
    ensures (forall k :: 0 <= k < |ids| ==> Reorder(p, ids).value.images[ids[k]].sortOrder == k) <==> NoDup(ids)
  {
    hide Placed;
    if NoDup(ids) {
      forall k | 0 <= k < |ids| ensures Reorder(p, ids).value.images[ids[k]].sortOrder == k {
        assert ids[k] !in ids[k+1..];
        PlacedAt(p.images, ids, k);
      }
    }
  }

  predicate InPlace(images: map<ImageId, ImageRow>, ids: seq<ImageId>) {
    forall k :: 0 <= k < |ids| ==> ids[k] in images && images[ids[k]].sortOrder == k
  }

  lemma PositionOf(images: map<ImageId, ImageRow>, ids: seq<ImageId>, i: ImageId)
    requires NamesAll(images, ids) && NoDup(ids) && InPlace(images, ids) && i in images
    ensures images[i].sortOrder < |ids| && ids[images[i].sortOrder] == i
  {
    NoDupNamesEach(images, ids);
    var k :| 0 <= k < |ids| && ids[k] == i;
  }

  /** When every image stands at its place in `ids`, there is one way to list them. */
  lemma OnlyListing(images: map<ImageId, ImageRow>, ids: seq<ImageId>, l: seq<ImageId>)
    requires NamesAll(images, ids) && NoDup(ids) && InPlace(images, ids) && IsListing(images, l)
    ensures l == ids
  {
    SetOfSeq(l);
    assert |l| == |ids|;
    hide NamesAll, InPlace;
    forall a | 0 <= a < |l|
      ensures l[a] in images && images[l[a]].sortOrder < |ids| && ids[images[l[a]].sortOrder] == l[a]
    {
      assert l[a] in ToSet(l);
      PositionOf(images, ids, l[a]);
    }
    var orders := seq(|l|, a requires 0 <= a < |l| => images[l[a]].sortOrder);
    forall k | 0 <= k < |l| ensures l[k] == ids[k] {
      StrictlyIncreasing(orders, k);
    }
  }

  /** An accepted list without repetitions is what the shop shows next, whatever order stood before. */
  lemma ReorderShown(p: Product, ids: seq<ImageId>, l: seq<ImageId>)
    requires Reorder(p, ids).Ok? && NoDup(ids)
    requires IsListing(Reorder(p, ids).value.images, l)
    ensures l == ids
  {
    ReorderExact(p, ids);
    var images := Reorder(p, ids).value.images;
    assert |images.Keys| == |p.images.Keys|;
    assert InPlace(images, ids);
    OnlyListing(images, ids, l);
  }

  /** Positions 0 to n - 1, each taken once. */
  predicate Dense(images: map<ImageId, ImageRow>) {
    && (forall i :: i in images ==> images[i].sortOrder < |images|)
    && forall i, k :: i in images && k in images && images[i].sortOrder == images[k].sortOrder ==> i == k
  }

  lemma ReorderIsDense(p: Product, ids: seq<ImageId>)
    requires Reorder(p, ids).Ok? && NoDup(ids)
    ensures Dense(Reorder(p, ids).value.images)
  {
    ReorderExact(p, ids);
    NoDupNamesEach(p.images, ids);
    var images := Reorder(p, ids).value.images;
    assert |images.Keys| == |p.images.Keys|;
    forall i | i in images ensures images[i].sortOrder < |ids| && ids[images[i].sortOrder] == i {
      var k :| 0 <= k < |ids| && ids[k] == i;
    }
  }

  function Orders(images: map<ImageId, ImageRow>, ids: set<ImageId>): set<nat>
    requires ids <= images.Keys
  {
    set i | i in ids :: images[i].sortOrder
  }

  lemma {:induction false} DistinctOrders(images: map<ImageId, ImageRow>, ids: set<ImageId>)
    requires ids <= images.Keys
    requires forall i, k :: i in ids && k in ids && images[i].sortOrder == images[k].sortOrder ==> i == k
    ensures |Orders(images, ids)| == |ids|
  {
    if ids != {} {
      var i :| i in ids;
      DistinctOrders(images, ids - {i});
      assert Orders(images, ids) == Orders(images, ids - {i}) + {images[i].sortOrder};
    }
  }

  function Below(n: nat): (r: set<nat>)
    ensures |r| == n
    ensures forall k: nat :: k in r <==> k < n
  {
    if n == 0 then {} else Below(n - 1) + {n - 1}
  }

  /** Pigeonhole: n images on distinct positions below n leave none free. */
  lemma EveryPositionTaken(images: map<ImageId, ImageRow>, k: nat)
    requires Dense(images) && k < |images|
    ensures exists i :: i in images && images[i].sortOrder == k
  {
    DistinctOrders(images, images.Keys);
    SubsetSameSize(Orders(images, images.Keys), Below(|images|));
    assert k in Orders(images, images.Keys);
  }

  lemma GrownDense(images: map<ImageId, ImageRow>, more: map<ImageId, ImageRow>, i: ImageId)
    requires Dense(images) && i !in images && more.Keys == images.Keys + {i}
    requires forall k :: k in images ==> more[k].sortOrder == images[k].sortOrder
    requires more[i].sortOrder == |images|
    ensures Dense(more)
  {
    assert |more.Keys| == |images.Keys| + 1;
    forall k | k in more ensures more[k].sortOrder < |more| && (k != i ==> more[k].sortOrder < |images|) {
      if k != i {
        assert k in images;
      }
    }
  }

  lemma UploadStaysDense(p: Product, i: ImageId, asked: bool)
    requires Dense(p.images) && i !in p.images && UploadImage(p, i, asked).Ok?
    ensures Dense(UploadImage(p, i, asked).value.images)
  {
    hide Dense;
    GrownDense(p.images, UploadImage(p, i, asked).value.images, i);
  }

  lemma RestDense(images: map<ImageId, ImageRow>, rest: map<ImageId, ImageRow>, i: ImageId)
    requires Dense(images) && i in images && rest.Keys == images.Keys - {i}
    requires forall k :: k in rest ==> rest[k].sortOrder == images[k].sortOrder
    ensures Dense(rest) <==> images[i].sortOrder == |images| - 1
  {
    assert |rest.Keys| == |images.Keys| - 1;
    EveryPositionTaken(images, |images| - 1);
    var last :| last in images && images[last].sortOrder == |images| - 1;
    if last != i {
      assert last in rest;
    }
  }

  /**
   * Deleting leaves a gap unless the image was the last one; the next upload,
   * placed at the number of images, may then share a position.
   */
  lemma DeletionStaysDense(p: Product, i: ImageId, next: Option<ImageId>)
    requires Dense(p.images) && DeleteImage(p, i, next).Ok?
    ensures Dense(DeleteImage(p, i, next).value.images) <==> p.images[i].sortOrder == |p.images| - 1
  {
    hide Dense;
    RestDense(p.images, DeleteImage(p, i, next).value.images, i);
  }
}
