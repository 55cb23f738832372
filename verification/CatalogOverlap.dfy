/**
 * Requests of the panel that overlap: checks overtaken before their write, and two
 * transactions under read committed. Which of them put an undeliverable product on sale.
 */
module CatalogOverlap {
  import opened Prelude
  import opened Store
  import opened Catalog

  // ---------------------------------------------------------------- one variant, one guard

  /** Some active variant besides these. */
  predicate AnotherActive(variants: map<VariantId, VariantRow>, besides: set<VariantId>) {
    exists v :: v in variants && v !in besides && variants[v].isActive
  }

  /** Every active variant is complete, this one left aside. */
  predicate OthersComplete(kind: Fulfillment, variants: map<VariantId, VariantRow>, besides: VariantId) {
    forall v :: v in variants && v != besides && variants[v].isActive ==> Complete(kind, variants[v])
  }

  lemma SetVariantExact(p: Product, v: VariantId, row: VariantRow)
    ensures Publishable(p.(variants := p.variants[v := row])) <==>
              && p.images != map[]
              && OthersComplete(p.kind, p.variants, v)
              && (if row.isActive then Complete(p.kind, row) else AnotherActive(p.variants, {v}))
  {
    var after := p.variants[v := row];
    assert after[v] == row;
    assert forall w :: w != v ==> (w in after <==> w in p.variants) && (w in after ==> after[w] == p.variants[w]);
    if row.isActive {
      assert SomeActive(after);
    } else {
      assert SomeActive(after) <==> AnotherActive(p.variants, {v});
    }
  }

  lemma DropVariantExact(p: Product, v: VariantId)
    ensures Publishable(p.(variants := p.variants - {v})) <==>
              p.images != map[] && OthersComplete(p.kind, p.variants, v) && AnotherActive(p.variants, {v})
  {
    var after := p.variants - {v};
    assert forall w :: w in after <==> w in p.variants && w != v;
    assert SomeActive(after) <==> AnotherActive(p.variants, {v});
  }

  // ---------------------------------------------------------------- publishing in two calls

  /** An edit after which a product that passed the check would no longer pass it. */
  predicate Undoes(p: Product, e: Edit) {
    match e
    case EditProduct(_, kind) => kind.Some? && !ActiveComplete(kind.value, p.variants)
    case AddVariant(v, row) => v !in p.variants && row.isActive && !Complete(p.kind, row.(digitalAssetPath := None))
    case EditVariant(v, patch) =>
      !p.isActive && v in p.variants
      && (if Patched(p.variants[v], patch).isActive then !Complete(p.kind, Patched(p.variants[v], patch))
          else !AnotherActive(p.variants, {v}))
    case DropVariant(v, sold) => !p.isActive && v in p.variants && sold == 0 && !AnotherActive(p.variants, {v})
    case DropImage(i, _) => !p.isActive && p.images.Keys == {i}
    case DropAsset(v) => !p.isActive && v in p.variants && p.kind == DIGITAL && p.variants[v].isActive
    case _ => false
  }

  /** An edit after which a product that would not pass the check does. */
  predicate Mends(p: Product, e: Edit) {
    match e
    case EditProduct(_, kind) =>
      e.isActive != Some(true) && kind.Some? && p.images != map[] && SomeActive(p.variants)
      && ActiveComplete(kind.value, p.variants)
    case AddVariant(v, row) =>
      v !in p.variants && p.images != map[] && row.isActive && Complete(p.kind, row.(digitalAssetPath := None))
      && OthersComplete(p.kind, p.variants, v)
    case EditVariant(v, patch) =>
      v in p.variants && p.images != map[] && OthersComplete(p.kind, p.variants, v)
      && (if Patched(p.variants[v], patch).isActive then Complete(p.kind, Patched(p.variants[v], patch))
          else AnotherActive(p.variants, {v}))
    case DropVariant(v, sold) =>
      v in p.variants && sold == 0 && p.images != map[] && OthersComplete(p.kind, p.variants, v)
      && AnotherActive(p.variants, {v})
    case AddImage(_, _) => p.images == map[] && SomeActive(p.variants) && ActiveComplete(p.kind, p.variants)
    case AddAsset(v, _) =>
      v in p.variants && p.kind == DIGITAL && p.images != map[] && OthersComplete(p.kind, p.variants, v)
      && (p.variants[v].isActive || AnotherActive(p.variants, {v}))
    case DropAsset(v) =>
      !p.isActive && v in p.variants && p.kind == DIGITAL && p.images != map[] && OthersComplete(p.kind, p.variants, v)
      && !p.variants[v].isActive && AnotherActive(p.variants, {v})
    case _ => false
  }

  /** The write of publishing, whatever happened since its check. */
  function PutOnSale(p: Product): Product {
    p.(isActive := true)
  }

  lemma OnSaleIsPublishable(p: Product)
    ensures Sellable(PutOnSale(p)) <==> Publishable(p)
  {
  }

  lemma OthersFollow(kind: Fulfillment, variants: map<VariantId, VariantRow>, v: VariantId)
    requires ActiveComplete(kind, variants)
    ensures OthersComplete(kind, variants, v)
  {
  }

  lemma OthersAndOne(kind: Fulfillment, variants: map<VariantId, VariantRow>, v: VariantId)
    requires v in variants
    ensures ActiveComplete(kind, variants) <==>
              OthersComplete(kind, variants, v) && (variants[v].isActive ==> Complete(kind, variants[v]))
    ensures SomeActive(variants) <==> variants[v].isActive || AnotherActive(variants, {v})
  {
  }

  lemma VariantEdit(p: Product, v: VariantId, patch: VariantPatch)
    ensures Publishable(After(p, EditVariant(v, patch))) <==>
              if Publishable(p) then !Undoes(p, EditVariant(v, patch)) else Mends(p, EditVariant(v, patch))
  {
    if v in p.variants {
      OthersAndOne(p.kind, p.variants, v);
      SetVariantExact(p, v, Patched(p.variants[v], patch));
    }
    hide ActiveComplete, OthersComplete, AnotherActive, SomeActive, Patched, Complete;
  }

  lemma VariantDeletion(p: Product, v: VariantId, sold: nat)
    ensures Publishable(After(p, DropVariant(v, sold))) <==>
              if Publishable(p) then !Undoes(p, DropVariant(v, sold)) else Mends(p, DropVariant(v, sold))
  {
    if v in p.variants {
      OthersAndOne(p.kind, p.variants, v);
      DropVariantExact(p, v);
    }
    hide ActiveComplete, OthersComplete, AnotherActive, SomeActive, Complete;
  }

  lemma VariantAddition(p: Product, v: VariantId, row: VariantRow)
    ensures Publishable(After(p, AddVariant(v, row))) <==>
              if Publishable(p) then !Undoes(p, AddVariant(v, row)) else Mends(p, AddVariant(v, row))
  {
    if v !in p.variants {
      SetVariantExact(p, v, row.(digitalAssetPath := None));
      assert SomeActive(p.variants) <==> AnotherActive(p.variants, {v});
      assert ActiveComplete(p.kind, p.variants) <==> OthersComplete(p.kind, p.variants, v);
    }
    hide ActiveComplete, OthersComplete, AnotherActive, SomeActive, Complete;
  }

  lemma AssetEdit(p: Product, e: Edit)
    requires e.AddAsset? || e.DropAsset?
    requires Answered(p, e)
    ensures Publishable(After(p, e)) <==> if Publishable(p) then !Undoes(p, e) else Mends(p, e)
  {
    if e.v in p.variants {
      OthersAndOne(p.kind, p.variants, e.v);
      var row := p.variants[e.v];
      var after := row.(digitalAssetPath := if e.AddAsset? then Some(e.path) else None);
      SetVariantExact(p, e.v, after);
      assert p.kind == DIGITAL ==> (Complete(p.kind, after) <==> e.AddAsset?);
      assert p.kind != DIGITAL ==> (Complete(p.kind, after) <==> Complete(p.kind, row));
      assert p.variants[e.v := row] == p.variants;
    }
    hide ActiveComplete, OthersComplete, AnotherActive, SomeActive, Complete;
  }

  lemma ImageEdit(p: Product, e: Edit)
    requires e.AddImage? || e.EditImage? || e.SortImages? || e.DropImage?
    requires Answered(p, e)
    ensures Publishable(After(p, e)) <==> if Publishable(p) then !Undoes(p, e) else Mends(p, e)
  {
    hide ActiveComplete, SomeActive, Demoted, Relieved, Placed, NamesAll;
    ImageEditFrame(p, e);
    KeysAfter(p, e);
    NoKeys(After(p, e).images);
    NoKeys(p.images);
    if e.DropImage? && e.i in p.images {
      DropsTheLast(p, e.i, e.next);
    }
    hide After;
  }

  lemma ImageEditFrame(p: Product, e: Edit)
    requires e.AddImage? || e.EditImage? || e.SortImages? || e.DropImage?
    ensures After(p, e).kind == p.kind && After(p, e).variants == p.variants
    ensures e.AddImage? && p.images == map[] ==> After(p, e).images.Keys == {e.i}
  {
    hide Demoted, Relieved, Placed;
  }

  lemma NoKeys(images: map<ImageId, ImageRow>)
    ensures images == map[] <==> images.Keys == {}
  {
  }

  /** Where a deletion leaves no image. */
  lemma DropsTheLast(p: Product, i: ImageId, next: Option<ImageId>)
    requires i in p.images
    ensures After(p, DropImage(i, next)).images.Keys == {} <==> !p.isActive && p.images.Keys == {i}
  {
    hide Relieved;
    assert p.images.Keys - {i} == {} <==> p.images.Keys == {i};
  }

  /** For any product and any edit: does it pass the publishing check afterwards? Read off before the edit. */
  lemma PublishableAfter(p: Product, e: Edit)
    requires Answered(p, e)
    ensures Publishable(After(p, e)) <==> if Publishable(p) then !Undoes(p, e) else Mends(p, e)
  {
    match e
    case EditProduct(_, _) =>
    case AddVariant(v, row) => VariantAddition(p, v, row);
    case EditVariant(v, patch) => VariantEdit(p, v, patch);
    case DropVariant(v, sold) => VariantDeletion(p, v, sold);
    case AddAsset(_, _) => AssetEdit(p, e);
    case DropAsset(_) => AssetEdit(p, e);
    case _ => ImageEdit(p, e);
  }

  /** One edit between the check and the write of publishing: harmless exactly when it does not undo the check. */
  lemma PublishOvertaken(p: Product, e: Edit)
    requires Answered(p, e) && UpdateProduct(p, Some(true), None).Ok?
    ensures Sellable(PutOnSale(After(p, e))) <==> !Undoes(p, e)
  {
    hide Undoes, After, Publishable;
    PublishableAfter(p, e);
    OnSaleIsPublishable(After(p, e));
  }

  /** Does a sequence of edits end with a product that passes, starting from one that passed? */
  predicate StillPasses(p: Product, edits: seq<Edit>) {
    if edits == [] then true
    else
      var n := |edits| - 1;
      var q := AfterAll(p, edits[..n]);
      if StillPasses(p, edits[..n]) then !Undoes(q, edits[n]) else Mends(q, edits[n])
  }

  predicate AllAnswered(p: Product, edits: seq<Edit>) {
    forall k :: 0 <= k < |edits| ==> Answered(AfterAll(p, edits[..k]), edits[k])
  }

  /** Any number of edits between the check and the write. */
  lemma {:induction false} PublishOvertakenByMany(p: Product, edits: seq<Edit>)
    requires AllAnswered(p, edits) && UpdateProduct(p, Some(true), None).Ok?
    ensures Sellable(PutOnSale(AfterAll(p, edits))) <==> StillPasses(p, edits)
  {
    hide Undoes, Mends, After, Publishable, Answered;
    OnSaleIsPublishable(AfterAll(p, edits));
    if edits != [] {
      var n := |edits| - 1;
      var before := edits[..n];
      assert forall k :: 0 <= k < n ==> before[..k] == edits[..k] && before[k] == edits[k];
      assert Answered(AfterAll(p, edits[..n]), edits[n]);
      PublishOvertakenByMany(p, before);
      OnSaleIsPublishable(AfterAll(p, before));
      PublishableAfter(AfterAll(p, before), edits[n]);
    }
  }

  /** The file is removed by a request that read an unpublished product, and writes when it may be on sale. */
  lemma LateAssetRemoval(p: Product, v: VariantId)
    requires Sellable(p) && v in p.variants
    ensures Sellable(p.(variants := p.variants[v := p.variants[v].(digitalAssetPath := None)])) <==>
              !(p.isActive && p.kind == DIGITAL && p.variants[v].isActive)
  {
    OthersAndOne(p.kind, p.variants, v);
    SetVariantExact(p, v, p.variants[v].(digitalAssetPath := None));
  }

  // ---------------------------------------------------------------- an upload that counted before

  /** The write of an upload that counted the images earlier, on what it then finds. */
  function LateUpload(q: Product, i: ImageId, asked: bool, counted: nat): Product {
    var primary := asked || counted == 0;
    var others := if primary then Demoted(q.images, {}) else q.images;
    q.(images := others[i := ImageRow(primary, counted)])
  }

  lemma RowPut(images: map<ImageId, ImageRow>, i: ImageId, row: ImageRow)
    requires i !in images
    ensures var more := images[i := row];
            && more.Keys == images.Keys + {i} && |more| == |images| + 1 && more[i] == row
            && forall k :: k in images ==> more[k] == images[k]
  {
    assert |images[i := row].Keys| == |images.Keys| + 1;
  }

  lemma OtherRows(images: map<ImageId, ImageRow>, primary: bool)
    ensures var others := if primary then Demoted(images, {}) else images;
            && |others| == |images|
            && forall k :: k in images ==>
                 && k in others && others[k].sortOrder == images[k].sortOrder
                 && (others[k].isPrimary <==> !primary && images[k].isPrimary)
  {
    assert |Demoted(images, {}).Keys| == |images.Keys|;
  }

  lemma LateRows(q: Product, i: ImageId, asked: bool, counted: nat)
    requires i !in q.images
    ensures var images := LateUpload(q, i, asked, counted).images;
            && images.Keys == q.images.Keys + {i} && |images| == |q.images| + 1
            && images[i] == ImageRow(asked || counted == 0, counted)
            && (forall k :: k in q.images ==>
                  && images[k].sortOrder == q.images[k].sortOrder
                  && (images[k].isPrimary <==> !(asked || counted == 0) && q.images[k].isPrimary))
  {
    var others := if asked || counted == 0 then Demoted(q.images, {}) else q.images;
    assert others.Keys == q.images.Keys;
    OtherRows(q.images, asked || counted == 0);
    hide Demoted;
    RowPut(others, i, ImageRow(asked || counted == 0, counted));
  }

  /**
   * An upload that was let in, with any edits between its count and its write:
   * when the limit of ten holds, when the positions stay 0 to n - 1, and when
   * there is a primary image.
   */
  lemma UploadOvertaken(p: Product, edits: seq<Edit>, i: ImageId, asked: bool)
    requires UploadImage(p, i, asked).Ok? && i !in AfterAll(p, edits).images
    ensures var q := AfterAll(p, edits);
            var images := LateUpload(q, i, asked, |p.images|).images;
            && (|images| <= MAX_IMAGES_PER_PRODUCT <==> |q.images| < MAX_IMAGES_PER_PRODUCT)
            && (Dense(q.images) ==> (Dense(images) <==> |q.images| == |p.images|))
            && (AtMostOnePrimary(q.images) ==> AtMostOnePrimary(images))
            && (HasPrimary(images) <==>
                  asked || p.images == map[] || (q.images != map[] && HasPrimary(q.images)))
  {
    var q := AfterAll(p, edits);
    var more := LateUpload(q, i, asked, |p.images|).images;
    LateRows(q, i, asked, |p.images|);
    hide AfterAll, LateUpload, Dense, HasPrimary, AtMostOnePrimary;
    LateIsDense(q.images, more, i);
    LatePrimary(q.images, more, i);
    if AtMostOnePrimary(q.images) {
      LateMarks(q.images, more, i);
    }
  }

  lemma LateIsDense(images: map<ImageId, ImageRow>, more: map<ImageId, ImageRow>, i: ImageId)
    requires i !in images && more.Keys == images.Keys + {i} && |more| == |images| + 1
    requires forall k :: k in images ==> more[k].sortOrder == images[k].sortOrder
    ensures Dense(images) ==> (Dense(more) <==> more[i].sortOrder == |images|)
  {
    if Dense(images) {
      if more[i].sortOrder == |images| {
        GrownDense(images, more, i);
      } else if more[i].sortOrder < |images| {
        EveryPositionTaken(images, more[i].sortOrder);
        var k :| k in images && images[k].sortOrder == more[i].sortOrder;
        assert k in more && k != i;
      }
    }
  }

  lemma LatePrimary(images: map<ImageId, ImageRow>, more: map<ImageId, ImageRow>, i: ImageId)
    requires i !in images && i in more && forall k :: k in more ==> k == i || k in images
    requires forall k :: k in images ==> k in more && (more[k].isPrimary <==> !more[i].isPrimary && images[k].isPrimary)
    ensures HasPrimary(more) <==> more[i].isPrimary || (images != map[] && HasPrimary(images))
  {
    assert more != map[];
    if images != map[] && HasPrimary(images) && !more[i].isPrimary {
      var top :| top in images && images[top].isPrimary;
      assert top in more && more[top].isPrimary;
    }
    if HasPrimary(more) && !more[i].isPrimary {
      var top :| top in more && more[top].isPrimary;
      assert top in images && images[top].isPrimary;
    }
  }

  lemma LateMarks(images: map<ImageId, ImageRow>, more: map<ImageId, ImageRow>, i: ImageId)
    requires i !in images && i in more && forall k :: k in more ==> k == i || k in images
    requires forall k :: k in images ==> k in more && (more[k].isPrimary <==> !more[i].isPrimary && images[k].isPrimary)
    requires AtMostOnePrimary(images)
    ensures AtMostOnePrimary(more)
  {
  }

  // ---------------------------------------------------------------- two transactions at once

  /** The transactions that end with a check of their own. */
  predicate ChecksItself(e: Edit) {
    e.EditVariant? || e.DropVariant? || e.DropImage?
  }

  /** What a transaction writes, its final check left aside. */
  function Written(p: Product, e: Edit): Product
    requires ChecksItself(e)
  {
    match e
    case EditVariant(v, patch) =>
      if v in p.variants then p.(variants := p.variants[v := Patched(p.variants[v], patch)]) else p
    case DropVariant(v, _) => p.(variants := p.variants - {v})
    case DropImage(i, next) => if i in p.images then p.(images := Relieved(p.images, i, next)) else p
  }

  /** Alone, a transaction that passes leaves what it wrote. */
  lemma AloneIsWritten(p: Product, e: Edit)
    requires ChecksItself(e) && Outcome(p, e).Ok?
    ensures Outcome(p, e).value == Written(p, e)
  {
    hide Publishable, Relieved, Patched;
  }

  /** Rows written: two transactions that share one wait for each other instead of overlapping. */
  function RowsWritten(p: Product, e: Edit): (set<VariantId>, set<ImageId>)
    requires ChecksItself(e)
  {
    match e
    case EditVariant(v, _) => ({v}, {})
    case DropVariant(v, _) => ({v}, {})
    case DropImage(i, next) =>
      ({}, {i} + (if i in p.images && p.images[i].isPrimary && next.Some? then {next.value} else {}))
  }

  predicate Overlap(p: Product, a: Edit, b: Edit)
    requires ChecksItself(a) && ChecksItself(b)
  {
    RowsWritten(p, a).0 !! RowsWritten(p, b).0 && RowsWritten(p, a).1 !! RowsWritten(p, b).1
  }

  /** It takes its variant off sale. */
  predicate TakesOff(p: Product, e: Edit) {
    match e
    case EditVariant(v, patch) => v in p.variants && !Patched(p.variants[v], patch).isActive
    case DropVariant(v, _) => true
    case _ => false
  }

  /** Each takes away one of the last two: of the active variants, or of the images. */
  predicate Collide(p: Product, a: Edit, b: Edit) {
    p.isActive &&
    ((TakesOff(p, a) && TakesOff(p, b) && !AnotherActive(p.variants, {a.v, b.v}))
     || (a.DropImage? && b.DropImage? && p.images.Keys == {a.i, b.i}))
  }

  /** A transaction on a variant, by the row it leaves. */
  function RowLeft(p: Product, e: Edit): Option<VariantRow>
    requires e.EditVariant? || e.DropVariant?
  {
    if e.EditVariant? && e.v in p.variants then Some(Patched(p.variants[e.v], e.patch)) else None
  }

  lemma PassedAlone(p: Product, e: Edit)
    requires e.EditVariant? || e.DropVariant?
    requires p.isActive && Outcome(p, e).Ok?
    ensures e.v in p.variants && Publishable(Written(p, e))
    ensures RowLeft(p, e).Some? && RowLeft(p, e).value.isActive ==> Complete(p.kind, RowLeft(p, e).value)
    ensures TakesOff(p, e) <==> !(RowLeft(p, e).Some? && RowLeft(p, e).value.isActive)
  {
    if e.EditVariant? {
      assert Written(p, e).variants[e.v] == RowLeft(p, e).value;
    }
  }

  /** What two transactions on two variants leave, row by row. */
  lemma TwoRows(p: Product, a: Edit, b: Edit)
    requires (a.EditVariant? || a.DropVariant?) && (b.EditVariant? || b.DropVariant?)
    requires a.v != b.v && a.v in p.variants && b.v in p.variants
    ensures var q := Written(Written(p, a), b);
            && q.kind == p.kind && q.images == p.images && q.isActive == p.isActive
            && (a.v in q.variants <==> RowLeft(p, a).Some?) && (b.v in q.variants <==> RowLeft(p, b).Some?)
            && (a.v in q.variants ==> q.variants[a.v] == RowLeft(p, a).value)
            && (b.v in q.variants ==> q.variants[b.v] == RowLeft(p, b).value)
            && (forall w :: w != a.v && w != b.v ==> (w in q.variants <==> w in p.variants))
            && (forall w :: w != a.v && w != b.v && w in p.variants ==> q.variants[w] == p.variants[w])
  {
  }

  lemma TwoVariants(p: Product, a: Edit, b: Edit)
    requires (a.EditVariant? || a.DropVariant?) && (b.EditVariant? || b.DropVariant?)
    requires p.isActive && Publishable(p) && a.v != b.v && Outcome(p, a).Ok? && Outcome(p, b).Ok?
    ensures Sellable(Written(Written(p, a), b)) <==> !Collide(p, a, b)
  {
    PassedAlone(p, a);
    PassedAlone(p, b);
    TwoRows(p, a, b);
    var q := Written(Written(p, a), b);
    hide Written, Outcome, RowLeft, TakesOff, Patched, Complete;
    assert ActiveComplete(q.kind, q.variants);
    if !TakesOff(p, a) {
      assert a.v in q.variants && q.variants[a.v].isActive;
    } else if !TakesOff(p, b) {
      assert b.v in q.variants && q.variants[b.v].isActive;
    } else {
      assert SomeActive(q.variants) <==> AnotherActive(p.variants, {a.v, b.v});
    }
  }

  lemma TwoImages(p: Product, a: Edit, b: Edit)
    requires a.DropImage? && b.DropImage? && Answered(p, a) && Answered(p, b)
    requires p.isActive && Publishable(p) && Overlap(p, a, b) && Outcome(p, a).Ok? && Outcome(p, b).Ok?
    ensures Sellable(Written(Written(p, a), b)) <==> !Collide(p, a, b)
  {
    var q := Written(Written(p, a), b);
    assert q.images.Keys == p.images.Keys - {a.i, b.i};
    assert q.images == map[] <==> q.images.Keys == {};
    assert {a.i, b.i} <= p.images.Keys;
    assert q.variants == p.variants && q.kind == p.kind && q.isActive;
    hide ActiveComplete, SomeActive, Relieved;
  }

  lemma VariantAndImage(p: Product, a: Edit, b: Edit)
    requires (a.EditVariant? || a.DropVariant?) && b.DropImage?
    requires p.isActive && Publishable(p) && Outcome(p, a).Ok? && Outcome(p, b).Ok?
    ensures Sellable(Written(Written(p, a), b)) && Sellable(Written(Written(p, b), a))
  {
    PassedAlone(p, a);
    hide ActiveComplete, SomeActive, Patched;
    assert Written(p, b).images != map[];
  }

  /**
   * Two transactions on different rows, each passing its own check: the product
   * stays deliverable exactly when they do not take away the last two active
   * variants, or the last two images, between them.
   */
  lemma OverlapExactly(p: Product, a: Edit, b: Edit)
    requires Sellable(p) && ChecksItself(a) && ChecksItself(b) && Overlap(p, a, b)
    requires Answered(p, a) && Answered(p, b) && Outcome(p, a).Ok? && Outcome(p, b).Ok?
    ensures Sellable(Written(Written(p, a), b)) <==> !Collide(p, a, b)
  {
    if p.isActive {
      if !a.DropImage? && !b.DropImage? {
        TwoVariants(p, a, b);
      } else if a.DropImage? && b.DropImage? {
        TwoImages(p, a, b);
      } else if a.DropImage? {
        VariantAndImage(p, b, a);
      } else {
        VariantAndImage(p, a, b);
      }
    }
  }

  /** Deleting the last two active variants at once: both pass, and nothing is left to sell. */
  lemma LastTwoVariants(p: Product, v: VariantId, w: VariantId)
    requires p.isActive && Publishable(p) && v != w && v in p.variants && w in p.variants
    requires p.variants[v].isActive && p.variants[w].isActive && !AnotherActive(p.variants, {v, w})
    ensures Outcome(p, DropVariant(v, 0)).Ok? && Outcome(p, DropVariant(w, 0)).Ok?
    ensures !Sellable(Written(Written(p, DropVariant(v, 0)), DropVariant(w, 0)))
  {
    OthersFollow(p.kind, p.variants, v);
    OthersFollow(p.kind, p.variants, w);
    DropVariantExact(p, v);
    DropVariantExact(p, w);
    assert AnotherActive(p.variants, {v}) && AnotherActive(p.variants, {w});
    OverlapExactly(p, DropVariant(v, 0), DropVariant(w, 0));
  }

  // ---------------------------------------------------------------- any number of transactions at once

  /** Each checks itself, passes alone, and writes rows no other writes. */
  ghost predicate Together(p: Product, es: seq<Edit>) {
    && (forall k :: 0 <= k < |es| ==> ChecksItself(es[k]) && Answered(p, es[k]) && Outcome(p, es[k]).Ok?)
    && (forall i, k :: 0 <= i < k < |es| && ChecksItself(es[i]) && ChecksItself(es[k]) ==> Overlap(p, es[i], es[k]))
  }

  function WrittenAll(p: Product, es: seq<Edit>): Product
    requires forall k :: 0 <= k < |es| ==> ChecksItself(es[k])
  {
    if es == [] then p else Written(WrittenAll(p, es[..|es|-1]), es[|es|-1])
  }

  predicate OnVariant(e: Edit, v: VariantId) {
    (e.EditVariant? || e.DropVariant?) && e.v == v
  }

  predicate Untouched(es: seq<Edit>, v: VariantId) {
    forall k :: 0 <= k < |es| ==> !OnVariant(es[k], v)
  }

  function DroppedImages(es: seq<Edit>): set<ImageId> {
    set k | 0 <= k < |es| && es[k].DropImage? :: es[k].i
  }

  /** No active variant is left alone, and no transaction leaves its own active. */
  predicate TakesOffAll(p: Product, es: seq<Edit>) {
    && (forall v :: v in p.variants && p.variants[v].isActive ==> !Untouched(es, v))
    && (forall k :: 0 <= k < |es| && es[k].EditVariant? ==> TakesOff(p, es[k]))
  }

  /** Between them they take away every active variant, or every image. */
  predicate CollideAll(p: Product, es: seq<Edit>) {
    p.isActive && (TakesOffAll(p, es) || p.images.Keys == DroppedImages(es))
  }

  /** What the transactions leave, row by row. */
  ghost predicate LeftBy(p: Product, es: seq<Edit>, q: Product) {
    && q.kind == p.kind && q.isActive == p.isActive && q.images.Keys == p.images.Keys - DroppedImages(es)
    && (forall v :: Untouched(es, v) ==>
          (v in q.variants <==> v in p.variants) && (v in p.variants ==> q.variants[v] == p.variants[v]))
    && (forall k :: 0 <= k < |es| && (es[k].EditVariant? || es[k].DropVariant?) ==>
          && (es[k].v in q.variants <==> RowLeft(p, es[k]).Some?)
          && (es[k].v in q.variants ==> q.variants[es[k].v] == RowLeft(p, es[k]).value))
  }

  lemma FirstOnes(p: Product, es: seq<Edit>)
    requires es != [] && Together(p, es)
    ensures Together(p, es[..|es|-1])
    ensures var e := es[|es|-1];
            && ChecksItself(e)
            && (e.DropImage? ==> e.i !in DroppedImages(es[..|es|-1]) && e.i in p.images)
            && (e.EditVariant? || e.DropVariant? ==>
                  e.v in p.variants && Untouched(es[..|es|-1], e.v))
  {
    var e := es[|es|-1];
    forall k | 0 <= k < |es| - 1
      ensures (e.EditVariant? || e.DropVariant?) ==> !OnVariant(es[k], e.v)
      ensures e.DropImage? && es[k].DropImage? ==> es[k].i != e.i
    {
      assert Overlap(p, es[k], e);
    }
    hide Publishable, Relieved, Patched;
  }

  lemma {:induction false} AllLeft(p: Product, es: seq<Edit>)
    requires Together(p, es)
    ensures LeftBy(p, es, WrittenAll(p, es))
  {
    if es == [] {
      assert DroppedImages(es) == {};
    } else {
      var n := |es| - 1;
      FirstOnes(p, es);
      AllLeft(p, es[..n]);
      var q := WrittenAll(p, es[..n]);
      hide Together, WrittenAll;
      if es[n].DropImage? {
        ImageLeft(p, es, q);
      } else {
        VariantLeft(p, es, q);
      }
    }
  }

  lemma ImageLeft(p: Product, es: seq<Edit>, q: Product)
    requires es != [] && LeftBy(p, es[..|es|-1], q)
    requires var e := es[|es|-1]; e.DropImage? && e.i in p.images && e.i !in DroppedImages(es[..|es|-1])
    ensures LeftBy(p, es, Written(q, es[|es|-1]))
  {
    var n := |es| - 1;
    assert es[n].i in q.images.Keys;
    assert DroppedImages(es) == DroppedImages(es[..n]) + {es[n].i};
    assert Written(q, es[n]).variants == q.variants && Written(q, es[n]).kind == q.kind;
    hide Relieved, RowLeft;
    assert forall k :: 0 <= k < n ==> es[..n][k] == es[k];
    assert forall v :: Untouched(es, v) ==> Untouched(es[..n], v);
    hide Untouched, OnVariant;
  }

  lemma VariantLeft(p: Product, es: seq<Edit>, q: Product)
    requires es != [] && LeftBy(p, es[..|es|-1], q)
    requires var e := es[|es|-1];
             && (e.EditVariant? || e.DropVariant?) && e.v in p.variants
             && Untouched(es[..|es|-1], e.v)
    ensures LeftBy(p, es, Written(q, es[|es|-1]))
  {
    var n := |es| - 1;
    var e := es[n];
    var q' := Written(q, e);
    assert forall k :: 0 <= k < n ==> es[..n][k] == es[k];
    assert e.v in q.variants && q.variants[e.v] == p.variants[e.v] && RowLeft(q, e) == RowLeft(p, e);
    assert DroppedImages(es) == DroppedImages(es[..n]);
    OneRow(q, e);
    hide Written, RowLeft;
    forall v | Untouched(es, v)
      ensures (v in q'.variants <==> v in p.variants) && (v in p.variants ==> q'.variants[v] == p.variants[v])
    {
      assert !OnVariant(es[n], v) && Untouched(es[..n], v);
    }
    forall k | 0 <= k < |es| && (es[k].EditVariant? || es[k].DropVariant?)
      ensures es[k].v in q'.variants <==> RowLeft(p, es[k]).Some?
      ensures es[k].v in q'.variants ==> q'.variants[es[k].v] == RowLeft(p, es[k]).value
    {
      if k < n {
        assert es[..n][k] == es[k] && !OnVariant(es[k], e.v);
      }
    }
  }

  lemma OneRow(q: Product, e: Edit)
    requires (e.EditVariant? || e.DropVariant?) && e.v in q.variants
    ensures var q' := Written(q, e);
            && q'.kind == q.kind && q'.isActive == q.isActive && q'.images == q.images
            && (e.v in q'.variants <==> RowLeft(q, e).Some?)
            && (e.v in q'.variants ==> q'.variants[e.v] == RowLeft(q, e).value)
            && forall v :: v != e.v ==>
                 (v in q'.variants <==> v in q.variants) && (v in q.variants ==> q'.variants[v] == q.variants[v])
  {
  }

  lemma AllComplete(p: Product, es: seq<Edit>, q: Product)
    requires p.isActive && Publishable(p) && Together(p, es) && LeftBy(p, es, q)
    ensures ActiveComplete(q.kind, q.variants)
  {
    forall v | v in q.variants && q.variants[v].isActive ensures Complete(q.kind, q.variants[v]) {
      if k :| 0 <= k < |es| && OnVariant(es[k], v) {
        PassedAlone(p, es[k]);
      }
    }
  }

  lemma ActiveLeft(p: Product, es: seq<Edit>, q: Product)
    requires p.isActive && Together(p, es) && LeftBy(p, es, q)
    ensures SomeActive(q.variants) <==> !TakesOffAll(p, es)
  {
    if SomeActive(q.variants) {
      var v :| v in q.variants && q.variants[v].isActive;
      if k :| 0 <= k < |es| && OnVariant(es[k], v) {
        PassedAlone(p, es[k]);
        assert es[k].EditVariant? && !TakesOff(p, es[k]);
      } else {
        assert v in p.variants && p.variants[v].isActive;
      }
    } else {
      forall v | v in p.variants && p.variants[v].isActive
        ensures !Untouched(es, v)
      {
        assert !(v in q.variants && q.variants[v].isActive);
      }
      forall k | 0 <= k < |es| && es[k].EditVariant? ensures TakesOff(p, es[k]) {
        PassedAlone(p, es[k]);
        assert !(es[k].v in q.variants && q.variants[es[k].v].isActive);
      }
    }
  }

  /**
   * Any number of transactions at once, on different rows, each passing its own
   * check: the product stays deliverable exactly when they do not take away
   * every active variant, or every image, between them.
   */
  lemma OverlapOfMany(p: Product, es: seq<Edit>)
    requires Sellable(p) && Together(p, es)
    ensures Sellable(WrittenAll(p, es)) <==> !CollideAll(p, es)
  {
    var q := WrittenAll(p, es);
    AllLeft(p, es);
    hide Together, WrittenAll, ActiveComplete, SomeActive, TakesOffAll, DroppedImages;
    if p.isActive {
      AllComplete(p, es, q);
      ActiveLeft(p, es, q);
      NoKeys(q.images);
      NoneOver(p.images.Keys, DroppedImages(es));
      ImagesThere(p, es);
    }
    hide LeftBy;
  }

  lemma NoneOver(all: set<ImageId>, gone: set<ImageId>)
    ensures all - gone == {} && gone <= all <==> all == gone
  {
    assert all - gone == {} ==> forall i :: i in all ==> i in gone || i in all - gone;
  }

  lemma ImagesThere(p: Product, es: seq<Edit>)
    requires Together(p, es)
    ensures DroppedImages(es) <= p.images.Keys
  {
    hide Publishable, Relieved, Overlap;
  }
}
