/** The image table: one sequence of image rows in id order, each naming its
    property and carrying the "main image" flag. Its queries, the in-place
    updates the catalog makes to it, and the "at most one main image per
    property" invariant. */
module PropertyImages {
  import opened Base
  import opened Model

  const NonUniqueMainMessage := "query did not return a unique result"

  predicate IsMainOf(img: PropertyImage, propertyId: int) {
    img.propertyId == propertyId && img.isMain
  }

  /** Ids grow along the table (identity generation). */
  ghost predicate IdsIncreasing(images: seq<PropertyImage>) {
    forall i, j :: 0 <= i < j < |images| ==> images[i].id < images[j].id
  }

  /** No property has two main images. */
  ghost predicate AtMostOneMain(images: seq<PropertyImage>) {
    forall i, j :: 0 <= i < j < |images| && images[i].isMain && images[j].isMain
      ==> images[i].propertyId != images[j].propertyId
  }

  ghost predicate NoMainOf(images: seq<PropertyImage>, propertyId: int) {
    forall i :: 0 <= i < |images| ==> !IsMainOf(images[i], propertyId)
  }

  /** `findByProperty`: the property's images in table order. */
  function ImagesOf(images: seq<PropertyImage>, propertyId: int): (r: seq<PropertyImage>)
    ensures forall x :: x in r <==> x in images && x.propertyId == propertyId
    ensures |r| <= |images|
  {
    if images == [] then []
    else (if images[0].propertyId == propertyId then [images[0]] else [])
         + ImagesOf(images[1..], propertyId)
  }

  lemma {:induction false} ImagesOfAppend(a: seq<PropertyImage>, b: seq<PropertyImage>, propertyId: int)
    ensures ImagesOf(a + b, propertyId) == ImagesOf(a, propertyId) + ImagesOf(b, propertyId)
  {
    if a != [] {
      assert (a + b)[1..] == a[1..] + b;
      ImagesOfAppend(a[1..], b, propertyId);
    } else {
      assert a + b == b;
    }
  }

  /** `findById`: the position of the image with this id. */
  function IndexOfImage(images: seq<PropertyImage>, imageId: int): (r: Option<nat>)
    ensures r.Some? ==> r.value < |images| && images[r.value].id == imageId
    ensures r.None? ==> forall i :: 0 <= i < |images| ==> images[i].id != imageId
  {
    FirstWhere(images, (x: PropertyImage) => x.id == imageId, 0)
  }

  /** `findByPropertyAndIsMainTrue`: the position of the property's main image,
      if any; a second main image makes the query fail. */
  function FindMainImage(images: seq<PropertyImage>, propertyId: int): (r: Result<Option<nat>>)
    ensures r.Ok? && r.value.Some? ==>
      var c := r.value.value;
      c < |images| && IsMainOf(images[c], propertyId)
      && forall i :: 0 <= i < |images| && i != c ==> !IsMainOf(images[i], propertyId)
    ensures r.Ok? && r.value.None? ==> NoMainOf(images, propertyId)
    ensures r.Err? <==> exists i, j :: 0 <= i < j < |images|
                          && IsMainOf(images[i], propertyId) && IsMainOf(images[j], propertyId)
    ensures r.Err? ==> r.error == Unexpected(NonUniqueMainMessage)
  {
    var isMain := (x: PropertyImage) => IsMainOf(x, propertyId);
    match FirstWhere(images, isMain, 0)
    case None => Ok(None)
    case Some(c) =>
      match FirstWhere(images, isMain, c + 1)
      case None => Ok(Some(c))
      case Some(d) => Err(Unexpected(NonUniqueMainMessage))
  }

  /** Under the invariant the main-image query never fails. */
  lemma FindMainImageSucceeds(images: seq<PropertyImage>, propertyId: int)
    requires AtMostOneMain(images)
    ensures FindMainImage(images, propertyId).Ok?
  {
  }

  function ClearMain(images: seq<PropertyImage>, current: Option<nat>): seq<PropertyImage> {
    if current.Some? && current.value < |images|
    then images[current.value := images[current.value].(isMain := false)]
    else images
  }

  function MarkMain(images: seq<PropertyImage>, j: nat): seq<PropertyImage>
    requires j < |images|
  {
    images[j := images[j].(isMain := true)]
  }

  /** What `setMainImage` does to the table: clear the current main image,
      then flag the image at `j`. */
  function SetMainEffect(images: seq<PropertyImage>, current: Option<nat>, j: nat): (r: seq<PropertyImage>)
    requires j < |images|
    ensures |r| == |images| && r[j] == images[j].(isMain := true)
    ensures current.Some? && current.value < |images| && current.value != j ==>
      r[current.value] == images[current.value].(isMain := false)
    ensures forall k :: 0 <= k < |images| && k != j && current != Some(k) ==> r[k] == images[k]
  {
    MarkMain(ClearMain(images, current), j)
  }

  function RemoveAt(images: seq<PropertyImage>, j: nat): seq<PropertyImage>
    requires j < |images|
  {
    images[..j] + images[j + 1..]
  }

  /** What `deleteImage` does to the table: remove the row at `j`; if it was a
      main image, flag the first remaining image of `propertyId`. */
  function DeleteImageEffect(images: seq<PropertyImage>, propertyId: int, j: nat): (r: seq<PropertyImage>)
    requires j < |images|
    ensures |r| == |images| - 1
    ensures !images[j].isMain ==> r == images[..j] + images[j + 1..]
    ensures forall k :: 0 <= k < |r| && r[k] != RemoveAt(images, j)[k] ==>
      images[j].isMain && r[k] == RemoveAt(images, j)[k].(isMain := true) && r[k].propertyId == propertyId
  {
    var rest := RemoveAt(images, j);
    if images[j].isMain then
      match FirstWhere(rest, (x: PropertyImage) => x.propertyId == propertyId, 0)
      case None => rest
      case Some(k) => MarkMain(rest, k)
    else rest
  }

  /** The cascade of deleting a property: all its images go. */
  function RemoveImagesOf(images: seq<PropertyImage>, propertyId: int): (r: seq<PropertyImage>)
    ensures forall x :: x in r <==> x in images && x.propertyId != propertyId
  {
    if images == [] then []
    else (if images[0].propertyId == propertyId then [] else [images[0]])
         + RemoveImagesOf(images[1..], propertyId)
  }

  lemma {:induction false} RemoveImagesOfKeepsOneMain(images: seq<PropertyImage>, propertyId: int)
    requires AtMostOneMain(images)
    ensures AtMostOneMain(RemoveImagesOf(images, propertyId))
  {
    if images != [] {
      var x, rest := images[0], images[1..];
      RemoveImagesOfKeepsOneMain(rest, propertyId);
      forall y | y in RemoveImagesOf(rest, propertyId)
        ensures x.isMain && y.isMain ==> x.propertyId != y.propertyId
      {
        var k :| 0 <= k < |rest| && rest[k] == y;
        assert images[k + 1] == y;
      }
    }
  }

  lemma {:induction false} RemoveImagesOfKeepsIdOrder(images: seq<PropertyImage>, propertyId: int)
    requires IdsIncreasing(images)
    ensures IdsIncreasing(RemoveImagesOf(images, propertyId))
  {
    if images != [] {
      var x, rest := images[0], images[1..];
      RemoveImagesOfKeepsIdOrder(rest, propertyId);
      forall y | y in RemoveImagesOf(rest, propertyId)
        ensures x.id < y.id
      {
        var k :| 0 <= k < |rest| && rest[k] == y;
        assert images[k + 1] == y;
      }
    }
  }

  /** Setting the main image to one of the property's own images keeps the
      invariant, and leaves that image as the property's only main image. */
  lemma SetMainWithinPropertyPreserves(images: seq<PropertyImage>, propertyId: int, j: nat)
    requires AtMostOneMain(images)
    requires j < |images| && images[j].propertyId == propertyId
    requires FindMainImage(images, propertyId).Ok?
    ensures var after := SetMainEffect(images, FindMainImage(images, propertyId).value, j);
      && AtMostOneMain(after)
      && IsMainOf(after[j], propertyId)
      && forall i :: 0 <= i < |after| && i != j ==> !IsMainOf(after[i], propertyId)
  {
    var current := FindMainImage(images, propertyId).value;
    var after := SetMainEffect(images, current, j);
    forall i | 0 <= i < |after| && i != j
      ensures !IsMainOf(after[i], propertyId)
      ensures after[i].propertyId != propertyId ==> after[i] == images[i]
    {
    }
  }

  /** Deleting one of the property's own images keeps the invariant. */
  lemma DeleteWithinPropertyPreserves(images: seq<PropertyImage>, propertyId: int, j: nat)
    requires AtMostOneMain(images)
    requires j < |images| && images[j].propertyId == propertyId
    ensures AtMostOneMain(DeleteImageEffect(images, propertyId, j))
  {
    var rest := RemoveAt(images, j);
    assert forall i :: 0 <= i < |rest| ==> rest[i] == if i < j then images[i] else images[i + 1];
    assert AtMostOneMain(rest);
    if images[j].isMain {
      assert NoMainOf(rest, propertyId);
      match FirstWhere(rest, (x: PropertyImage) => x.propertyId == propertyId, 0)
      case None =>
      case Some(k) =>
        var after := MarkMain(rest, k);
        forall i | 0 <= i < |after| && i != k
          ensures !IsMainOf(after[i], propertyId)
        {
        }
    }
  }

  /** Appending images of one property of which at most the first is main, and
      that one only if the property had none, keeps the invariant. */
  lemma AppendPreserves(images: seq<PropertyImage>, added: seq<PropertyImage>, propertyId: int)
    requires AtMostOneMain(images)
    requires forall k :: 0 <= k < |added| ==> added[k].propertyId == propertyId
    requires forall k :: 0 <= k < |added| && added[k].isMain ==> k == 0 && NoMainOf(images, propertyId)
    ensures AtMostOneMain(images + added)
  {
    var all := images + added;
    forall i, j | 0 <= i < j < |all| && all[i].isMain && all[j].isMain
      ensures all[i].propertyId != all[j].propertyId
    {
      if j >= |images| {
        assert all[j] == added[j - |images|];
        if i < |images| {
          assert !IsMainOf(images[i], propertyId);
        }
      }
    }
  }

  /** Deleting a main image hands the flag to the first image of the
      property that remains, if there is one. When the deleted image was the
      listing's own and the listing had at most one main image, that image is
      then the listing's only main image. */
  lemma DeleteMainPromotesFirstRemaining(images: seq<PropertyImage>, propertyId: int, j: nat)
    requires j < |images| && images[j].isMain
    requires exists k :: 0 <= k < |images| && k != j && images[k].propertyId == propertyId
    ensures var after := DeleteImageEffect(images, propertyId, j);
      && |after| == |images| - 1
      && exists k :: 0 <= k < |after| && IsMainOf(after[k], propertyId)
           && (forall i :: 0 <= i < k ==> after[i].propertyId != propertyId)
           && (images[j].propertyId == propertyId && AtMostOneMain(images) ==>
                 forall i :: 0 <= i < |after| && i != k ==> !IsMainOf(after[i], propertyId))
  {
    var rest := RemoveAt(images, j);
    var k0 :| 0 <= k0 < |images| && k0 != j && images[k0].propertyId == propertyId;
    var m := if k0 < j then k0 else k0 - 1;
    assert rest[m] == images[k0];
    match FirstWhere(rest, (x: PropertyImage) => x.propertyId == propertyId, 0)
    case None =>
      assert false;
    case Some(k) =>
      var after := MarkMain(rest, k);
      assert IsMainOf(after[k], propertyId);
      if images[j].propertyId == propertyId && AtMostOneMain(images) {
        forall i | 0 <= i < |after| && i != k
          ensures !IsMainOf(after[i], propertyId)
        {
          assert after[i] == rest[i];
          assert rest[i] == if i < j then images[i] else images[i + 1];
        }
      }
  }

  /** With distinct ids, a deleted image is gone from the table. */
  lemma DeleteRemovesImage(images: seq<PropertyImage>, propertyId: int, j: nat)
    requires IdsIncreasing(images)
    requires j < |images|
    ensures IndexOfImage(DeleteImageEffect(images, propertyId, j), images[j].id).None?
    ensures var after := DeleteImageEffect(images, propertyId, j);
      forall i :: 0 <= i < |images| && i != j ==> IndexOfImage(after, images[i].id).Some?
  {
    var rest := RemoveAt(images, j);
    assert forall i :: 0 <= i < |rest| ==> rest[i] == if i < j then images[i] else images[i + 1];
    DeleteKeepsOtherImages(images, propertyId, j);
  }

  /** Every image but the deleted one can still be found by its id. */
  lemma DeleteKeepsOtherImages(images: seq<PropertyImage>, propertyId: int, j: nat)
    requires j < |images|
    ensures var after := DeleteImageEffect(images, propertyId, j);
      forall i :: 0 <= i < |images| && i != j ==> IndexOfImage(after, images[i].id).Some?
  {
    EffectsKeepRows(images, None, propertyId, j);
    var after := DeleteImageEffect(images, propertyId, j);
    forall i | 0 <= i < |images| && i != j
      ensures IndexOfImage(after, images[i].id).Some?
    {
      var m := if i < j then i else i - 1;
      assert after[m].id == images[i].id;
    }
  }

  /** The in-place updates neither add, drop nor reorder ids, or re-home an image. */
  lemma EffectsKeepRows(images: seq<PropertyImage>, current: Option<nat>, propertyId: int, j: nat)
    requires j < |images|
    ensures var after := SetMainEffect(images, current, j);
      |after| == |images| && forall i :: 0 <= i < |after| ==> after[i] == images[i].(isMain := after[i].isMain)
    ensures var after := DeleteImageEffect(images, propertyId, j);
      |after| == |images| - 1 && forall i :: 0 <= i < |after| ==>
        after[i] == (if i < j then images[i] else images[i + 1]).(isMain := after[i].isMain)
  {
    var rest := RemoveAt(images, j);
    assert forall i :: 0 <= i < |rest| ==> rest[i] == if i < j then images[i] else images[i + 1];
  }

  /** Appending rows with larger ids, in order, keeps ids increasing. */
  lemma AppendKeepsIdOrder(images: seq<PropertyImage>, added: seq<PropertyImage>)
    requires IdsIncreasing(images) && IdsIncreasing(added)
    requires forall i, k :: 0 <= i < |images| && 0 <= k < |added| ==> images[i].id < added[k].id
    ensures IdsIncreasing(images + added)
  {
    var all := images + added;
    forall i, j | 0 <= i < j < |all|
      ensures all[i].id < all[j].id
    {
      if j >= |images| {
        assert all[j] == added[j - |images|];
        if i >= |images| {
          assert all[i] == added[i - |images|];
        }
      }
    }
  }

  /** The table-level facts the store keeps about image rows: positive ids
      below the counter, increasing along the table, each row naming a
      stored property. */
  ghost predicate RowsValid(images: seq<PropertyImage>, propertyIds: set<int>, nextImageId: int) {
    && (forall i :: 0 <= i < |images| ==> 0 < images[i].id < nextImageId && images[i].propertyId in propertyIds)
    && IdsIncreasing(images)
  }

  lemma SetMainKeepsRowsValid(images: seq<PropertyImage>, propertyIds: set<int>, nextImageId: int,
                              current: Option<nat>, j: nat)
    requires RowsValid(images, propertyIds, nextImageId) && j < |images|
    ensures RowsValid(SetMainEffect(images, current, j), propertyIds, nextImageId)
  {
    EffectsKeepRows(images, current, 0, j);
  }

  lemma DeleteKeepsRowsValid(images: seq<PropertyImage>, propertyIds: set<int>, nextImageId: int,
                             propertyId: int, j: nat)
    requires RowsValid(images, propertyIds, nextImageId) && j < |images|
    ensures RowsValid(DeleteImageEffect(images, propertyId, j), propertyIds, nextImageId)
  {
    EffectsKeepRows(images, None, propertyId, j);
    var after := DeleteImageEffect(images, propertyId, j);
    forall a, b | 0 <= a < b < |after|
      ensures after[a].id < after[b].id
    {
      var a', b' := if a < j then a else a + 1, if b < j then b else b + 1;
      assert after[a].id == images[a'].id && after[b].id == images[b'].id;
    }
  }

  lemma AppendKeepsRowsValid(images: seq<PropertyImage>, added: seq<PropertyImage>,
                             propertyIds: set<int>, nextImageId: int)
    requires RowsValid(images, propertyIds, nextImageId)
    requires forall k :: 0 <= k < |added| ==> added[k].id == nextImageId + k && added[k].propertyId in propertyIds
    requires nextImageId >= 1
    ensures RowsValid(images + added, propertyIds, nextImageId + |added|)
  {
    AppendKeepsIdOrder(images, added);
    var all := images + added;
    forall i | 0 <= i < |all|
      ensures 0 < all[i].id < nextImageId + |added| && all[i].propertyId in propertyIds
    {
      if i >= |images| {
        assert all[i] == added[i - |images|];
      }
    }
  }

  lemma CascadeKeepsRowsValid(images: seq<PropertyImage>, propertyIds: set<int>, nextImageId: int,
                              propertyId: int)
    requires RowsValid(images, propertyIds, nextImageId)
    ensures RowsValid(RemoveImagesOf(images, propertyId), propertyIds - {propertyId}, nextImageId)
  {
    RemoveImagesOfKeepsIdOrder(images, propertyId);
    var kept := RemoveImagesOf(images, propertyId);
    forall i | 0 <= i < |kept|
      ensures 0 < kept[i].id < nextImageId && kept[i].propertyId in propertyIds - {propertyId}
    {
      assert kept[i] in images;
    }
  }

  /** A property no row names has no images. */
  lemma NoRowsNoImages(images: seq<PropertyImage>, propertyId: int)
    requires forall i :: 0 <= i < |images| ==> images[i].propertyId != propertyId
    ensures ImagesOf(images, propertyId) == []
  {
  }

  /** As written, `setMainImage` accepts an image of ANOTHER property: here
      property 1 asks for image 3, which belongs to property 2, and property 2
      ends up with two main images. */
  lemma SetMainAcrossPropertiesBreaks()
    ensures var images := [PropertyImage(1, 1, "/uploads/a.jpg", true),
                           PropertyImage(2, 2, "/uploads/c.jpg", true),
                           PropertyImage(3, 2, "/uploads/d.jpg", false)];
      && AtMostOneMain(images) && IdsIncreasing(images)
      && FindMainImage(images, 1) == Ok(Some(0))
      && IndexOfImage(images, 3) == Some(2)
      && !AtMostOneMain(SetMainEffect(images, Some(0), 2))
  {
    var images := [PropertyImage(1, 1, "/uploads/a.jpg", true),
                   PropertyImage(2, 2, "/uploads/c.jpg", true),
                   PropertyImage(3, 2, "/uploads/d.jpg", false)];
    var after := SetMainEffect(images, Some(0), 2);
    assert after[1].isMain && after[2].isMain && after[1].propertyId == after[2].propertyId;
  }

  /** As written, `deleteImage` accepts an image of ANOTHER property: deleting
      property 2's main image through property 1 promotes property 1's first
      image although property 1 already has a main image. */
  lemma DeleteAcrossPropertiesBreaks()
    ensures var images := [PropertyImage(1, 1, "/uploads/a.jpg", false),
                           PropertyImage(2, 1, "/uploads/b.jpg", true),
                           PropertyImage(3, 2, "/uploads/c.jpg", true)];
      && AtMostOneMain(images) && IdsIncreasing(images)
      && IndexOfImage(images, 3) == Some(2)
      && !AtMostOneMain(DeleteImageEffect(images, 1, 2))
  {
    var images := [PropertyImage(1, 1, "/uploads/a.jpg", false),
                   PropertyImage(2, 1, "/uploads/b.jpg", true),
                   PropertyImage(3, 2, "/uploads/c.jpg", true)];
    var rest := RemoveAt(images, 2);
    assert rest == images[..2];
    assert FirstWhere(rest, (x: PropertyImage) => x.propertyId == 1, 0) == Some(0);
    var after := DeleteImageEffect(images, 1, 2);
    assert after[0].isMain && after[1].isMain && after[0].propertyId == after[1].propertyId;
  }
}
