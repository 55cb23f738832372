/** What each edit of the panel does to a product, row by row and column by column, and when it is refused. */
module CatalogEdits {
  import opened Prelude
  import opened Store
  import opened Catalog

  /** A field the form gives is what the row has afterwards; one it leaves out stays. */
  predicate Takes<T(==)>(field: Option<T>, before: T, after: T) {
    after == if field.Some? then field.value else before
  }

  /** The row of the product and its images stay, and so does every variant but v. */
  predicate OnlyVariant(p: Product, q: Product, v: VariantId) {
    && q == p.(variants := q.variants)
    && v in p.variants && v in q.variants && q.variants == p.variants[v := q.variants[v]]
  }

  /** Its variants stay, and the row of the product. */
  predicate OnlyImages(p: Product, q: Product) {
    q == p.(images := q.images)
  }

  predicate SameColumns(a: VariantRow, b: VariantRow) {
    && b.priceCents == a.priceCents && b.isActive == a.isActive
    && b.providerProductUid == a.providerProductUid && b.printFileUrl == a.printFileUrl
  }

  /** The last place of i in the list. */
  predicate LastAt(ids: seq<ImageId>, i: ImageId, k: nat) {
    k < |ids| && ids[k] == i && i !in ids[k+1..]
  }

  /** From p to q by this edit, when it is accepted. */
  ghost predicate Effect(p: Product, e: Edit, q: Product) {
    match e
    case EditProduct(isActive, kind) =>
      q == p.(isActive := q.isActive, kind := q.kind)
      && Takes(isActive, p.isActive, q.isActive) && Takes(kind, p.kind, q.kind)
    case AddVariant(v, row) =>
      && v !in p.variants && v in q.variants && q == p.(variants := p.variants[v := q.variants[v]])
      && SameColumns(row, q.variants[v]) && q.variants[v].digitalAssetPath.None?
    case EditVariant(v, patch) =>
      && OnlyVariant(p, q, v)
      && var a, b := p.variants[v], q.variants[v];
         && Takes(patch.priceCents, a.priceCents, b.priceCents)
         && Takes(patch.isActive, a.isActive, b.isActive)
         && Takes(patch.providerProductUid, a.providerProductUid, b.providerProductUid)
         && Takes(patch.printFileUrl, a.printFileUrl, b.printFileUrl)
         && b.digitalAssetPath == a.digitalAssetPath
    case DropVariant(v, _) =>
      v in p.variants && q == p.(variants := p.variants - {v})
    case AddImage(i, asked) =>
      var primary := asked || p.images == map[];
      && OnlyImages(p, q) && q.images.Keys == p.images.Keys + {i}
      && q.images[i] == ImageRow(primary, |p.images|)
      && forall k :: k in p.images && k != i ==>
           q.images[k] == ImageRow(p.images[k].isPrimary && !primary, p.images[k].sortOrder)
    case EditImage(i, primary) =>
      && i in p.images && OnlyImages(p, q) && q.images.Keys == p.images.Keys
      && Takes(primary, p.images[i].isPrimary, q.images[i].isPrimary)
      && (forall k :: k in p.images ==> q.images[k].sortOrder == p.images[k].sortOrder)
      && forall k :: k in p.images && k != i ==>
           q.images[k].isPrimary == (p.images[k].isPrimary && primary != Some(true))
    case SortImages(ids) =>
      && OnlyImages(p, q) && q.images.Keys == p.images.Keys
      && (forall i :: i in p.images ==> q.images[i].isPrimary == p.images[i].isPrimary)
      && (forall i :: i in p.images && i !in ids ==> q.images[i] == p.images[i])
      && (forall i, k :: i in p.images && LastAt(ids, i, k) ==> q.images[i].sortOrder == k)
    case DropImage(i, next) =>
      && i in p.images && OnlyImages(p, q) && q.images.Keys == p.images.Keys - {i}
      && forall k :: k in p.images && k != i ==>
           q.images[k] == ImageRow(p.images[k].isPrimary || (p.images[i].isPrimary && next == Some(k)),
                                   p.images[k].sortOrder)
    case AddAsset(v, path) =>
      && OnlyVariant(p, q, v) && SameColumns(p.variants[v], q.variants[v])
      && q.variants[v].digitalAssetPath == Some(path)
    case DropAsset(v) =>
      && OnlyVariant(p, q, v) && SameColumns(p.variants[v], q.variants[v])
      && (q.variants[v].digitalAssetPath.None?
          || (q == p && p.variants[v].digitalAssetPath == Some("")))
  }

  /** The rows a variant edit leads to could not stay on sale. */
  predicate Spoils(p: Product, variants: map<VariantId, VariantRow>) {
    p.isActive && !Publishable(p.(variants := variants))
  }

  /** The edit is refused, and why. */
  predicate Refuses(p: Product, e: Edit, r: Refusal) {
    match e
    case EditProduct(isActive, _) => r == Conflict && isActive == Some(true) && !Publishable(p)
    case AddVariant(v, _) => r == Conflict && v in p.variants
    case EditVariant(v, patch) =>
      if v !in p.variants then r == NotFound
      else r == Conflict && Spoils(p, p.variants[v := Patched(p.variants[v], patch)])
    case DropVariant(v, sold) =>
      if v !in p.variants then r == NotFound else r == Conflict && (sold > 0 || Spoils(p, p.variants - {v}))
    case AddImage(_, _) => r == BadRequest && |p.images| >= 10
    case EditImage(i, _) => r == NotFound && i !in p.images
    case SortImages(ids) => r == BadRequest && (|ids| != |p.images| || exists i :: i in ids && i !in p.images)
    case DropImage(i, _) =>
      if i !in p.images then r == NotFound else r == Conflict && p.isActive && p.images.Keys == {i}
    case AddAsset(v, _) => if v !in p.variants then r == NotFound else r == Conflict && p.kind != DIGITAL
    case DropAsset(v) => if v !in p.variants then r == NotFound else r == Conflict && p.isActive
  }

  /** Every edit has its effect or is refused for its reason. */
  lemma EditExactly(p: Product, e: Edit)
    requires Answered(p, e)
    ensures if Outcome(p, e).Ok? then Effect(p, e, Outcome(p, e).value) else Refuses(p, e, Outcome(p, e).error)
    ensures Outcome(p, e).Err? <==> exists r :: Refuses(p, e, r)
  {
    match e
    case SortImages(ids) => SortExactly(p, ids);
    case DropImage(i, next) => DropImageExactly(p, i, next);
    case AddImage(i, asked) => AddImageExactly(p, i, asked);
    case EditImage(i, primary) => EditImageExactly(p, i, primary);
    case EditProduct(_, _) => hide Publishable; assert Refuses(p, e, Conflict) || !Refuses(p, e, Conflict);
    case AddVariant(_, _) => assert Refuses(p, e, Conflict) || !Refuses(p, e, Conflict);
    case _ => VariantExactly(p, e);
  }

  lemma VariantExactly(p: Product, e: Edit)
    requires e.EditVariant? || e.DropVariant? || e.AddAsset? || e.DropAsset?
    ensures if Outcome(p, e).Ok? then Effect(p, e, Outcome(p, e).value) else Refuses(p, e, Outcome(p, e).error)
    ensures Outcome(p, e).Err? <==> exists r :: Refuses(p, e, r)
  {
    hide Publishable;
    if Outcome(p, e).Err? {
      assert Refuses(p, e, Outcome(p, e).error);
    }
    assert e.DropAsset? && e.v in p.variants ==> p.variants[e.v := p.variants[e.v]] == p.variants;
  }

  lemma AddImageExactly(p: Product, i: ImageId, asked: bool)
    requires i !in p.images
    ensures var e, r := AddImage(i, asked), UploadImage(p, i, asked);
            && (if r.Ok? then Effect(p, e, r.value) else Refuses(p, e, r.error))
            && (r.Err? <==> exists x :: Refuses(p, e, x))
  {
    hide Demoted, Effect;
    assert Refuses(p, AddImage(i, asked), BadRequest) <==> |p.images| >= 10;
    EmptyByKeys(p.images);
    if |p.images| < 10 {
      UploadedExactly(p, i, asked);
    }
  }

  lemma UploadedExactly(p: Product, i: ImageId, asked: bool)
    requires i !in p.images && |p.images| < 10
    ensures Effect(p, AddImage(i, asked), UploadImage(p, i, asked).value)
  {
    EmptyByKeys(p.images);
    var q := UploadImage(p, i, asked).value;
    assert q == p.(images := q.images);
    assert q.images.Keys == p.images.Keys + {i};
  }

  lemma EditImageExactly(p: Product, i: ImageId, primary: Option<bool>)
    ensures var e, r := EditImage(i, primary), UpdateImage(p, i, primary);
            && (if r.Ok? then Effect(p, e, r.value) else Refuses(p, e, r.error))
            && (r.Err? <==> exists x :: Refuses(p, e, x))
  {
    assert Refuses(p, EditImage(i, primary), NotFound) <==> i !in p.images;
  }

  lemma SortExactly(p: Product, ids: seq<ImageId>)
    ensures var e, r := SortImages(ids), Reorder(p, ids);
            && (if r.Ok? then Effect(p, e, r.value) else Refuses(p, e, r.error))
            && (r.Err? <==> exists x :: Refuses(p, e, x))
  {
    hide Placed;
    assert Refuses(p, SortImages(ids), BadRequest) <==> !NamesAll(p.images, ids);
    if NamesAll(p.images, ids) {
      PlacedKeeps(p.images, ids);
      forall i, k | i in p.images && LastAt(ids, i, k) ensures Placed(p.images, ids)[i].sortOrder == k {
        PlacedAt(p.images, ids, k);
      }
    }
  }

  lemma EmptyByKeys(images: map<ImageId, ImageRow>)
    ensures images == map[] <==> images.Keys == {}
    ensures images == map[] <==> |images| == 0
  {
    assert |images| == |images.Keys|;
  }

  lemma DropImageExactly(p: Product, i: ImageId, next: Option<ImageId>)
    requires IsFirst(p.images - {i}, next)
    ensures var e, r := DropImage(i, next), DeleteImage(p, i, next);
            && (if r.Ok? then Effect(p, e, r.value) else Refuses(p, e, r.error))
            && (r.Err? <==> exists x :: Refuses(p, e, x))
  {
    if i in p.images {
      assert Refuses(p, DropImage(i, next), Conflict) <==> p.isActive && p.images.Keys == {i};
      assert p.images.Keys - {i} == {} <==> p.images.Keys == {i};
      EmptyByKeys(Relieved(p.images, i, next));
    } else {
      assert Refuses(p, DropImage(i, next), NotFound);
    }
  }
}
