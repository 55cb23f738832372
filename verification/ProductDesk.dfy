/**
 * The panel's services on one product, row by row. A transaction that throws
 * puts back the rows it had written.
 */
module ProductDesk {
  import opened Prelude
  import opened Store
  import opened Catalog
  import opened CatalogEdits

  datatype Problem = NoActiveVariants | NoImages | NotPrintable | NoFile

  class Desk {
    const name: string
    var kind: Fulfillment
    var isActive: bool
    var variants: map<VariantId, VariantRow>
    var images: map<ImageId, ImageRow>

    /** At most ten images and one primary among them; every method keeps it. */
    ghost predicate Valid()
      reads this
    {
      AtMostOnePrimary(images) && |images| <= MAX_IMAGES_PER_PRODUCT
    }

    /** The whole effect of an edit, or why it has none, and the promise it keeps: what is on sale is deliverable. */
    ghost predicate Follows(before: Product, e: Edit, error: Option<Refusal>)
      reads this
    {
      && Contents() == After(before, e)
      && error == (if Outcome(before, e).Ok? then None else Some(Outcome(before, e).error))
      && (error.None? ==> Effect(before, e, Contents()) && forall r :: !Refuses(before, e, r))
      && (error.Some? ==> Contents() == before && Refuses(before, e, error.value))
      && (Sellable(before) && !Unchecked(before, e) ==> Sellable(Contents()))
    }

    constructor (p: Product)
      requires AtMostOnePrimary(p.images) && |p.images| <= MAX_IMAGES_PER_PRODUCT
      ensures Valid() && Contents() == p
    {
      name := p.name;
      kind := p.kind;
      isActive := p.isActive;
      variants := p.variants;
      images := p.images;
    }

    function Contents(): Product
      reads this
    {
      Product(name, kind, isActive, variants, images)
    }

    /** assertProductIsPublishable: every problem is listed, and none means publishable. */
    method FindProblems() returns (problems: seq<Problem>)
      ensures problems == [] <==> Publishable(Contents())
      ensures NoActiveVariants in problems <==> forall v :: v in variants ==> !variants[v].isActive
      ensures NoImages in problems <==> images == map[]
      ensures NotPrintable in problems <==>
                kind == POD && exists v | v in variants && variants[v].isActive ::
                  !Truthy(variants[v].providerProductUid) || !Truthy(variants[v].printFileUrl)
      ensures NoFile in problems <==>
                kind == DIGITAL && exists v | v in variants && variants[v].isActive ::
                  !Truthy(variants[v].digitalAssetPath)
    {
      problems := [];
      var active := set v | v in variants && variants[v].isActive;
      assert forall v :: v in variants && variants[v].isActive ==> v in active;
      if active == {} {
        problems := problems + [NoActiveVariants];
      } else {
        var v :| v in active;
        assert SomeActive(variants);
      }
      if images == map[] {
        problems := problems + [NoImages];
      }
      var incomplete := set v | v in active && !Complete(kind, variants[v]);
      assert forall v :: v in active && !Complete(kind, variants[v]) ==> v in incomplete;
      if incomplete != {} {
        var v :| v in incomplete;
        assert !ActiveComplete(kind, variants);
      }
      if kind == POD && incomplete != {} {
        problems := problems + [NotPrintable];
      }
      if kind == DIGITAL && incomplete != {} {
        problems := problems + [NoFile];
      }
    }

    method EditProduct(active: Option<bool>, newKind: Option<Fulfillment>) returns (error: Option<Refusal>)
      requires Valid()
      modifies this
      ensures Valid() && Follows(old(Contents()), Edit.EditProduct(active, newKind), error)
    {
      hide Effect, Refuses;
      Kept(Contents(), Edit.EditProduct(active, newKind));
      if active == Some(true) {
        var problems := FindProblems();
        if problems != [] {
          return Some(Conflict);
        }
      }
      if active.Some? { isActive := active.value; }
      if newKind.Some? { kind := newKind.value; }
      return None;
    }

    method EditVariant(v: VariantId, patch: VariantPatch) returns (error: Option<Refusal>)
      requires Valid()
      modifies this
      ensures Valid() && Follows(old(Contents()), Edit.EditVariant(v, patch), error)
    {
      hide Effect, Refuses;
      Kept(Contents(), Edit.EditVariant(v, patch));
      if v !in variants {
        return Some(NotFound);
      }
      var before := variants;
      variants := variants[v := Patched(variants[v], patch)];
      if isActive {
        var problems := FindProblems();
        if problems != [] {
          variants := before;
          return Some(Conflict);
        }
      }
      return None;
    }

    method DropVariant(v: VariantId, soldUnits: nat) returns (error: Option<Refusal>)
      requires Valid()
      modifies this
      ensures Valid() && Follows(old(Contents()), Edit.DropVariant(v, soldUnits), error)
    {
      hide Effect, Refuses;
      Kept(Contents(), Edit.DropVariant(v, soldUnits));
      if v !in variants {
        return Some(NotFound);
      }
      if soldUnits > 0 {
        return Some(Conflict);
      }
      var before := variants;
      variants := variants - {v};
      if isActive {
        var problems := FindProblems();
        if problems != [] {
          variants := before;
          return Some(Conflict);
        }
      }
      return None;
    }

    method AddImage(i: ImageId, asked: bool) returns (error: Option<Refusal>)
      requires Valid() && i !in images
      modifies this
      ensures Valid() && Follows(old(Contents()), Edit.AddImage(i, asked), error)
      ensures error.None? ==> i in images && images.Keys == old(images.Keys) + {i}
      ensures error.None? && (asked || old(images) == map[]) ==>
                images[i].isPrimary && forall k :: k in images && k != i ==> !images[k].isPrimary
    {
      hide Effect, Refuses, AtMostOnePrimary, Sellable, Unchecked, Outcome, After, Demoted;
      Kept(Contents(), Edit.AddImage(i, asked));
      ghost var before := Contents();
      UploadAnswers(before, i, asked);
      UploadKeys(before, i, asked);
      var existingCount := |images|;
      if existingCount >= MAX_IMAGES_PER_PRODUCT {
        return Some(BadRequest);
      }
      var shouldBePrimary := asked || existingCount == 0;
      if shouldBePrimary {
        images := Demoted(images, {});
      }
      images := images[i := ImageRow(shouldBePrimary, existingCount)];
      return None;
    }

    method EditImage(i: ImageId, primary: Option<bool>) returns (error: Option<Refusal>)
      requires Valid()
      modifies this
      ensures Valid() && Follows(old(Contents()), Edit.EditImage(i, primary), error)
      ensures error.None? && primary == Some(true) ==>
                i in images && images[i].isPrimary && forall k :: k in images && k != i ==> !images[k].isPrimary
    {
      hide Effect, Refuses;
      Kept(Contents(), Edit.EditImage(i, primary));
      if i !in images {
        return Some(NotFound);
      }
      if primary == Some(true) {
        images := Demoted(images, {i});
      }
      if primary.Some? {
        images := images[i := images[i].(isPrimary := primary.value)];
      }
      assert images == images[i := images[i]];
      return None;
    }

    /** The list must name every image; then each takes its place. */
    method SortImages(ids: seq<ImageId>) returns (error: Option<Refusal>)
      requires Valid()
      modifies this
      ensures Valid() && Follows(old(Contents()), Edit.SortImages(ids), error)
    {
      hide Effect, Refuses;
      ghost var before := Contents();
      if |ids| != |images| || exists i :: i in ids && i !in images {
        Kept(before, Edit.SortImages(ids));
        return Some(BadRequest);
      }
      images := Renumbered(images, ids);
      Kept(before, Edit.SortImages(ids));
      return None;
    }

    /** One update per id, in the order of the list. */
    static method Renumbered(rows: map<ImageId, ImageRow>, ids: seq<ImageId>) returns (images: map<ImageId, ImageRow>)
      requires NamesAll(rows, ids)
      ensures images == Placed(rows, ids)
    {
      images := rows;
      var index := 0;
      while index < |ids|
        invariant 0 <= index <= |ids|
        invariant images == Placed(rows, ids[..index])
      {
        assert ids[..index+1][..index] == ids[..index];
        images := images[ids[index] := images[ids[index]].(sortOrder := index)];
        index := index + 1;
      }
      assert ids[..index] == ids;
    }

    /** One row less; a primary one hands its mark to `next`. */
    static method Removed(rows: map<ImageId, ImageRow>, i: ImageId, next: Option<ImageId>)
        returns (images: map<ImageId, ImageRow>)
      requires i in rows && IsFirst(rows - {i}, next)
      ensures images == Relieved(rows, i, next)
    {
      images := rows - {i};
      if rows[i].isPrimary && next.Some? {
        images := images[next.value := images[next.value].(isPrimary := true)];
      }
    }

    /** `next` is what findFirst answers once the row is gone. */
    method DropImage(i: ImageId, next: Option<ImageId>) returns (error: Option<Refusal>)
      requires Valid() && IsFirst(images - {i}, next)
      modifies this
      ensures Valid() && Follows(old(Contents()), Edit.DropImage(i, next), error)
    {
      hide Effect, Refuses, AtMostOnePrimary, Sellable, Unchecked, IsFirst, Relieved, Outcome, After;
      Kept(Contents(), Edit.DropImage(i, next));
      DeletionAnswers(Contents(), i, next);
      if i !in images {
        return Some(NotFound);
      }
      var before := images;
      images := Removed(images, i, next);
      if isActive && |images| == 0 {
        images := before;
        return Some(Conflict);
      }
      return None;
    }

    method AddAsset(v: VariantId, path: string) returns (error: Option<Refusal>)
      requires Valid() && path != ""
      modifies this
      ensures Valid() && Follows(old(Contents()), Edit.AddAsset(v, path), error)
      ensures error.None? ==> v in variants && Complete(kind, variants[v])
    {
      hide Effect, Refuses;
      Kept(Contents(), Edit.AddAsset(v, path));
      if v !in variants {
        return Some(NotFound);
      }
      if kind != DIGITAL {
        return Some(Conflict);
      }
      variants := variants[v := variants[v].(digitalAssetPath := Some(path))];
      return None;
    }

    method DropAsset(v: VariantId) returns (error: Option<Refusal>)
      requires Valid()
      modifies this
      ensures Valid() && Follows(old(Contents()), Edit.DropAsset(v), error)
      ensures error.None? ==> !isActive && v in variants && !Truthy(variants[v].digitalAssetPath)
    {
      hide Effect, Refuses;
      Kept(Contents(), Edit.DropAsset(v));
      if v !in variants {
        return Some(NotFound);
      }
      if isActive {
        return Some(Conflict);
      }
      if !Truthy(variants[v].digitalAssetPath) {
        return None;
      }
      variants := variants[v := variants[v].(digitalAssetPath := None)];
      return None;
    }
  }

  lemma DeletionAnswers(p: Product, i: ImageId, next: Option<ImageId>)
    ensures Outcome(p, DropImage(i, next)) == DeleteImage(p, i, next)
    ensures After(p, DropImage(i, next)) ==
              if DeleteImage(p, i, next).Ok? then DeleteImage(p, i, next).value else p
  {
  }

  lemma UploadAnswers(p: Product, i: ImageId, asked: bool)
    ensures Outcome(p, AddImage(i, asked)) == UploadImage(p, i, asked)
    ensures After(p, AddImage(i, asked)) ==
              if UploadImage(p, i, asked).Ok? then UploadImage(p, i, asked).value else p
  {
  }

  lemma UploadKeys(p: Product, i: ImageId, asked: bool)
    requires i !in p.images
    ensures UploadImage(p, i, asked).Ok? ==>
              var images := UploadImage(p, i, asked).value.images;
              && images.Keys == p.images.Keys + {i}
              && (asked || p.images == map[] ==>
                    images[i].isPrimary && forall k :: k in images && k != i ==> !images[k].isPrimary)
  {
  }

  /** What every edit keeps, said of values. */
  lemma Kept(p: Product, e: Edit)
    requires AtMostOnePrimary(p.images) && |p.images| <= MAX_IMAGES_PER_PRODUCT && Answered(p, e)
    ensures AtMostOnePrimary(After(p, e).images) && |After(p, e).images| <= MAX_IMAGES_PER_PRODUCT
    ensures Sellable(p) && !Unchecked(p, e) ==> Sellable(After(p, e))
    ensures Outcome(p, e).Ok? ==> Effect(p, e, After(p, e)) && forall r :: !Refuses(p, e, r)
    ensures Outcome(p, e).Err? ==> Refuses(p, e, Outcome(p, e).error)
  {
    hide AtMostOnePrimary, Answered, Unchecked, Publishable, Effect, Refuses, Outcome;
    EditExactly(p, e);
    OnePrimaryKept(p, e);
    ImagesBounded(p, e);
    if Sellable(p) {
      EditKeeps(p, e);
    }
  }
}
