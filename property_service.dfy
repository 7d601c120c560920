/** The property catalog: listing lookups, the ownership-or-admin guard in
    front of every mutation, create/update/toggle/delete, and the image
    operations that maintain each listing's main image. */
module PropertyService {
  import opened Base
  import opened Strings
  import opened Model
  import opened Requests
  import opened PropertyRepository
  import opened PropertyImages
  import opened BookingRepository
  import opened FileStorage
  import opened Persistence
  import UserService

  const ModifyDeniedMessage := "You do not have permission to modify this property"
  const ImageNotFoundMessage := "Image not found"
  /** Stands for the runtime exception a null in a mandatory column raises. */
  const NullValueMessage := "null value"
  /** The host prefixed to every image URL in a response. */
  const ImageHost := "http://localhost:8080"

  function PropertyNotFoundMessage(id: int): string {
    "Property not found with id: " + IntToString(id)
  }

  /** `findPropertyById`. */
  function FindPropertyById(properties: map<int, Property>, id: int): (r: Result<Property>)
    ensures r.Ok? <==> id in properties
    ensures r.Ok? ==> r.value == properties[id]
    ensures r.Err? ==> r.error == ResourceNotFound(PropertyNotFoundMessage(id))
  {
    if id in properties then Ok(properties[id]) else Err(ResourceNotFound(PropertyNotFoundMessage(id)))
  }

  /** `checkOwnershipOrAdmin`: admins and the listing's own agent. */
  function CheckOwnershipOrAdmin(users: map<int, User>, actorId: int, p: Property): (r: Outcome)
    ensures r == Pass <==> actorId in users && (users[actorId].role == RoleAdmin || p.agentId == actorId)
    ensures actorId !in users ==> r == Fail(ResourceNotFound(UserService.AuthenticatedUserNotFound))
    ensures actorId in users && r.Fail? ==> r.error == AccessDenied(ModifyDeniedMessage)
  {
    match UserService.AuthenticatedUser(users, actorId)
    case Err(e) => Fail(e)
    case Ok(current) =>
      var isAdmin := current.role == RoleAdmin;
      var isOwner := p.agentId == actorId;
      if !isAdmin && !isOwner then Fail(AccessDenied(ModifyDeniedMessage)) else Pass
  }

  /** The prefix every mutation shares: the listing must exist, then the
      actor must own it or be an admin. */
  function Guard(users: map<int, User>, properties: map<int, Property>, actorId: int, id: int)
    : (r: Result<Property>)
    ensures id !in properties ==> r == Err(ResourceNotFound(PropertyNotFoundMessage(id)))
    ensures id in properties ==>
      var check := CheckOwnershipOrAdmin(users, actorId, properties[id]);
      (check.Fail? ==> r == Err(check.error)) && (check.Pass? ==> r == Ok(properties[id]))
  {
    match FindPropertyById(properties, id)
    case Err(e) => Err(e)
    case Ok(p) =>
      match CheckOwnershipOrAdmin(users, actorId, p)
      case Fail(e) => Err(e)
      case Pass => Ok(p)
  }

  // ------------------------------------------------------- request <-> row

  /** The eleven columns a request sets, written over `p`. */
  function WithRequest(p: Property, req: PropertyRequest): (r: Property)
    requires PropertyRequestBound(req)
    ensures r.id == p.id && r.agentId == p.agentId && r.createdAt == p.createdAt
    ensures RequestOf(r) == req
  {
    p.(title := req.title.value, description := req.description, address := req.address.value,
       city := req.city.value, country := req.country.value, propertyType := req.propertyType.value,
       pricePerNight := req.pricePerNight.value, bedrooms := req.bedrooms, bathrooms := req.bathrooms,
       maxGuests := req.maxGuests, available := req.available)
  }

  /** The request that would set a row's eleven columns to their current values. */
  function RequestOf(p: Property): (r: PropertyRequest)
    ensures PropertyRequestBound(r)
  {
    PropertyRequest(Some(p.title), p.description, Some(p.address), Some(p.city), Some(p.country),
                    Some(p.propertyType), Some(p.pricePerNight), p.bedrooms, p.bathrooms,
                    p.maxGuests, p.available)
  }

  /** Re-submitting a row's own values changes nothing ... */
  lemma ResubmitChangesNothing(p: Property)
    ensures WithRequest(p, RequestOf(p)) == p
  {
  }

  /** ... and what an update writes depends on the request alone, not on the
      columns it overwrites. */
  lemma UpdateForgetsOldColumns(p: Property, q: Property, req: PropertyRequest)
    requires PropertyRequestBound(req)
    requires p.id == q.id && p.agentId == q.agentId && p.createdAt == q.createdAt
    ensures WithRequest(p, req) == WithRequest(q, req)
  {
  }

  /** The availability flip. */
  function Toggled(p: Property): (r: Property)
    ensures r.available == !p.available
    ensures r.(available := p.available) == p
  {
    p.(available := !p.available)
  }

  lemma ToggleTwiceRestores(p: Property)
    ensures Toggled(Toggled(p)) == p
  {
  }

  // ------------------------------------------------------------------ reads

  /** `getPropertyById`: the stored listing, or not found. */
  function GetPropertyById(properties: map<int, Property>, id: int): (r: Result<Property>)
    ensures r.Ok? <==> id in properties
    ensures r.Ok? ==> r.value == properties[id]
    ensures r.Err? ==> r.error == ResourceNotFound(PropertyNotFoundMessage(id))
  {
    FindPropertyById(properties, id)
  }

  /** `getPropertiesByCurrentAgent`: the actor's own listings. */
  function GetPropertiesByCurrentAgent(users: map<int, User>, properties: map<int, Property>, actorId: int)
    : (r: Result<map<int, Property>>)
    ensures r.Err? <==> actorId !in users
    ensures r.Err? ==> r.error == ResourceNotFound(UserService.AuthenticatedUserNotFound)
    ensures r.Ok? ==> forall id :: id in r.value <==> id in properties && properties[id].agentId == actorId
    ensures r.Ok? ==> forall id :: id in r.value ==> r.value[id] == properties[id]
  {
    match UserService.AuthenticatedUser(users, actorId)
    case Err(e) => Err(e)
    case Ok(agent) => Ok(FindByAgent(properties, actorId))
  }

  /** A listing as the API reports it. */
  datatype PropertyResponse = PropertyResponse(
    id: int,
    title: string,
    description: Option<string>,
    address: string,
    city: string,
    country: string,
    propertyType: string,
    pricePerNight: real,
    bedrooms: Option<int>,
    bathrooms: Option<int>,
    maxGuests: Option<int>,
    available: bool,
    mainImageUrl: Option<string>,
    imageUrls: seq<string>,
    agentId: int,
    agentName: string,
    createdAt: int)

  function ImageUrls(imgs: seq<PropertyImage>): (r: seq<string>)
    ensures |r| == |imgs|
    ensures forall i :: 0 <= i < |imgs| ==> r[i] == ImageHost + imgs[i].imageUrl
  {
    if imgs == [] then [] else [ImageHost + imgs[0].imageUrl] + ImageUrls(imgs[1..])
  }

  /** The first main image's URL; failing that the first image's; no URL for
      a listing without images. */
  function MainImageUrl(imgs: seq<PropertyImage>): (r: Option<string>)
    ensures r.None? <==> imgs == []
    ensures r.Some? ==> r.value in ImageUrls(imgs)
    ensures (forall i :: 0 <= i < |imgs| ==> !imgs[i].isMain) && imgs != [] ==>
      r == Some(ImageHost + imgs[0].imageUrl)
    ensures forall i :: 0 <= i < |imgs| && imgs[i].isMain && (forall k :: 0 <= k < i ==> !imgs[k].isMain) ==>
      r == Some(ImageHost + imgs[i].imageUrl)
  {
    var urls := ImageUrls(imgs);
    match FirstWhere(imgs, (x: PropertyImage) => x.isMain, 0)
    case Some(i) =>
      assert urls[i] in urls;
      Some(urls[i])
    case None =>
      if imgs == [] then None
      else
        assert urls[0] in urls;
        Some(urls[0])
  }

  /** `toResponse`, given the listing's images in table order and its agent. */
  function ToResponse(p: Property, imgs: seq<PropertyImage>, agent: User): (r: PropertyResponse)
    requires agent.id == p.agentId
    ensures r.imageUrls == ImageUrls(imgs) && r.mainImageUrl == MainImageUrl(imgs)
    ensures r.id == p.id && r.agentId == p.agentId && r.available == p.available
  {
    PropertyResponse(p.id, p.title, p.description, p.address, p.city, p.country, p.propertyType,
                     p.pricePerNight, p.bedrooms, p.bathrooms, p.maxGuests, p.available,
                     MainImageUrl(imgs), ImageUrls(imgs), agent.id,
                     agent.firstName + " " + agent.lastName, p.createdAt)
  }

  /** When the invariant holds, the reported main image is the listing's one
      main image wherever it sits in the table. */
  lemma ReportedMainIsTheMainImage(images: seq<PropertyImage>, propertyId: int, k: nat)
    requires AtMostOneMain(images)
    requires k < |images| && IsMainOf(images[k], propertyId)
    ensures MainImageUrl(ImagesOf(images, propertyId)) == Some(ImageHost + images[k].imageUrl)
  {
    var imgs := ImagesOf(images, propertyId);
    assert images[k] in imgs;
    var i :| 0 <= i < |imgs| && imgs[i] == images[k];
    match FirstWhere(imgs, (x: PropertyImage) => x.isMain, 0)
    case Some(f) =>
      assert imgs[f] in imgs;
      var m :| 0 <= m < |images| && images[m] == imgs[f];
  }

  // ----------------------------------------------------------- upload loop

  /** The image rows an upload creates for the stored URLs, numbered from
      `firstId`; only the first may be main, and only if the listing had none. */
  function UploadedRows(propertyId: int, hasMain: bool, urls: seq<string>, firstId: int): (r: seq<PropertyImage>)
    ensures |r| == |urls|
    ensures forall k :: 0 <= k < |urls| ==>
      r[k] == PropertyImage(firstId + k, propertyId, urls[k], !hasMain && k == 0)
  {
    seq(|urls|, k requires 0 <= k < |urls| => PropertyImage(firstId + k, propertyId, urls[k], !hasMain && k == 0))
  }

  /** The loop of `uploadImages`: stores each file in order, collecting one
      URL per file, and stops at the first file that is not an image. */
  method BuildImages(files: seq<UploadedFile>, uuids: seq<string>)
    returns (r: Result<seq<string>>)
    requires |uuids| == |files|
    ensures r.Err? <==> exists i :: 0 <= i < |files| && !IsImage(files[i])
    ensures r.Err? ==> r.error == IllegalArgument(OnlyImagesMessage)
    ensures r.Ok? ==> |r.value| == |files| && forall k :: 0 <= k < |files| ==> StoreFile(files[k], uuids[k]) == Ok(r.value[k])
  {
    var urls: seq<string> := [];
    var i := 0;
    while i < |files|
      invariant 0 <= i <= |files|
      invariant forall k :: 0 <= k < i ==> IsImage(files[k])
      invariant |urls| == i
      invariant forall k :: 0 <= k < i ==> StoreFile(files[k], uuids[k]) == Ok(urls[k])
    {
      var stored := StoreFile(files[i], uuids[i]);
      if stored.Err? {
        return Err(stored.error);
      }
      urls := urls + [stored.value];
      i := i + 1;
    }
    r := Ok(urls);
  }

  // ----------------------------------------------------------------- writes

  /** `createProperty`: a new listing of the actor with the request's columns
      and no images or bookings yet. */
  method CreateProperty(s: Store, actorId: int, req: PropertyRequest, createdAt: int)
    returns (r: Result<Property>)
    requires s.Valid()
    modifies s`properties, s`nextPropertyId
    ensures s.Valid()
    ensures actorId !in old(s.users) ==> r == Err(ResourceNotFound(UserService.AuthenticatedUserNotFound))
    ensures actorId in old(s.users) && !PropertyRequestBound(req) ==> r == Err(Unexpected(NullValueMessage))
    ensures actorId in old(s.users) && PropertyRequestBound(req) ==>
      && r.Ok? && r.value.id == old(s.nextPropertyId) && r.value.id !in old(s.properties)
      && r.value.agentId == actorId && r.value.createdAt == createdAt
      && RequestOf(r.value) == req
      && ImagesOf(s.images, r.value.id) == []
      && FindByProperty(s.bookings, r.value.id) == map[]
    ensures r.Err? ==> s.properties == old(s.properties) && s.nextPropertyId == old(s.nextPropertyId)
    ensures r.Ok? ==>
      s.properties == old(s.properties)[r.value.id := r.value] && s.nextPropertyId == old(s.nextPropertyId) + 1
  {
    var found := UserService.AuthenticatedUser(s.users, actorId);
    if found.Err? {
      return Err(found.error);
    }
    if !PropertyRequestBound(req) {
      return Err(Unexpected(NullValueMessage));
    }
    var blank := Property(s.nextPropertyId, "", None, "", "", "", "", 0.0, None, None, None,
                          DefaultAvailable, actorId, createdAt);
    var property := WithRequest(blank, req);
    NoRowsNoImages(s.images, property.id);
    assert forall id :: id in s.bookings ==> s.bookings[id].propertyId != property.id;
    s.properties := s.properties[property.id := property];
    s.nextPropertyId := s.nextPropertyId + 1;
    r := Ok(property);
  }

  /** `updateProperty`: after the guard, the eleven request columns replace
      the old ones; id, agent, creation time, images and bookings stay. */
  method UpdateProperty(s: Store, actorId: int, id: int, req: PropertyRequest) returns (r: Result<Property>)
    requires s.Valid()
    modifies s`properties
    ensures s.Valid()
    ensures Guard(old(s.users), old(s.properties), actorId, id).Err? ==>
      r == Err(Guard(old(s.users), old(s.properties), actorId, id).error)
    ensures Guard(old(s.users), old(s.properties), actorId, id).Ok? && !PropertyRequestBound(req) ==>
      r == Err(Unexpected(NullValueMessage))
    ensures Guard(old(s.users), old(s.properties), actorId, id).Ok? && PropertyRequestBound(req) ==>
      r == Ok(WithRequest(old(s.properties)[id], req))
    ensures r.Err? ==> s.properties == old(s.properties)
    ensures r.Ok? ==> s.properties == old(s.properties)[id := r.value]
  {
    var guard := Guard(s.users, s.properties, actorId, id);
    if guard.Err? {
      return Err(guard.error);
    }
    if !PropertyRequestBound(req) {
      return Err(Unexpected(NullValueMessage));
    }
    var updated := WithRequest(guard.value, req);
    s.properties := s.properties[id := updated];
    r := Ok(updated);
  }

  /** `toggleAvailability`: after the guard, only `available` flips. */
  method ToggleAvailability(s: Store, actorId: int, id: int) returns (r: Result<Property>)
    requires s.Valid()
    modifies s`properties
    ensures s.Valid()
    ensures Guard(old(s.users), old(s.properties), actorId, id).Err? ==>
      r == Err(Guard(old(s.users), old(s.properties), actorId, id).error) && s.properties == old(s.properties)
    ensures Guard(old(s.users), old(s.properties), actorId, id).Ok? ==>
      r == Ok(Toggled(old(s.properties)[id])) && s.properties == old(s.properties)[id := r.value]
  {
    var guard := Guard(s.users, s.properties, actorId, id);
    if guard.Err? {
      return Err(guard.error);
    }
    var updated := Toggled(guard.value);
    s.properties := s.properties[id := updated];
    r := Ok(updated);
  }

  /** The cascade of `deleteProperty` keeps every table's invariant, and
      keeps the remaining listings to one main image and free of overlaps. */
  lemma CascadeKeepsTables(properties: map<int, Property>, images: seq<PropertyImage>,
                           bookings: map<int, Booking>, nextPropertyId: int, nextImageId: int,
                           nextBookingId: int, id: int)
    requires PropertyRowsValid(properties, nextPropertyId) && BookingRowsValid(bookings, nextBookingId)
    requires RowsValid(images, properties.Keys, nextImageId) && BookingsReferToProperties(bookings, properties)
    ensures PropertyRowsValid(properties - {id}, nextPropertyId)
    ensures BookingRowsValid(RemoveBookingsOf(bookings, id), nextBookingId)
    ensures RowsValid(RemoveImagesOf(images, id), (properties - {id}).Keys, nextImageId)
    ensures BookingsReferToProperties(RemoveBookingsOf(bookings, id), properties - {id})
    ensures AtMostOneMain(images) ==> AtMostOneMain(RemoveImagesOf(images, id))
    ensures NoOverlap(bookings) ==> NoOverlap(RemoveBookingsOf(bookings, id))
  {
    CascadeKeepsReferences(bookings, properties, id);
    CascadeKeepsBookingRows(bookings, nextBookingId, id);
    RemoveKeepsPropertyRows(properties, nextPropertyId, id);
    if AtMostOneMain(images) {
      RemoveImagesOfKeepsOneMain(images, id);
    }
    if NoOverlap(bookings) {
      SubmapPreservesNoOverlap(bookings, RemoveBookingsOf(bookings, id));
    }
    CascadeKeepsRowsValid(images, properties.Keys, nextImageId, id);
    assert (properties - {id}).Keys == properties.Keys - {id};
  }

  /** `deleteProperty`: after the guard, the listing goes, and with it (by
      cascade) all its images and bookings. */
  method DeleteProperty(s: Store, actorId: int, id: int) returns (r: Outcome)
    requires s.Valid()
    modifies s`properties, s`images, s`bookings
    ensures s.Valid()
    ensures Guard(old(s.users), old(s.properties), actorId, id).Err? ==>
      && r == Fail(Guard(old(s.users), old(s.properties), actorId, id).error)
      && s.properties == old(s.properties) && s.images == old(s.images) && s.bookings == old(s.bookings)
    ensures Guard(old(s.users), old(s.properties), actorId, id).Ok? ==>
      && r == Pass
      && s.properties == old(s.properties) - {id}
      && s.images == RemoveImagesOf(old(s.images), id)
      && s.bookings == RemoveBookingsOf(old(s.bookings), id)
    ensures AtMostOneMain(old(s.images)) ==> AtMostOneMain(s.images)
    ensures NoOverlap(old(s.bookings)) ==> NoOverlap(s.bookings)
  {
    var guard := Guard(s.users, s.properties, actorId, id);
    if guard.Err? {
      return Fail(guard.error);
    }
    CascadeKeepsTables(s.properties, s.images, s.bookings, s.nextPropertyId, s.nextImageId, s.nextBookingId, id);
    s.properties := s.properties - {id};
    s.images := RemoveImagesOf(s.images, id);
    s.bookings := RemoveBookingsOf(s.bookings, id);
    r := Pass;
  }

  /** `uploadImages`: after the guard and the main-image query, one image
      row per file, in file order, and one URL per file; the first new image
      is main exactly when the listing had no main image. */
  method UploadImages(s: Store, actorId: int, id: int, files: seq<UploadedFile>, uuids: seq<string>)
    returns (r: Result<seq<string>>)
    requires s.Valid()
    requires |uuids| == |files|
    modifies s`images, s`nextImageId
    ensures s.Valid()
    ensures Guard(old(s.users), old(s.properties), actorId, id).Err? ==>
      r == Err(Guard(old(s.users), old(s.properties), actorId, id).error)
    ensures Guard(old(s.users), old(s.properties), actorId, id).Ok? && FindMainImage(old(s.images), id).Err? ==>
      r == Err(FindMainImage(old(s.images), id).error)
    ensures Guard(old(s.users), old(s.properties), actorId, id).Ok? && FindMainImage(old(s.images), id).Ok? ==>
      (r.Err? <==> exists i :: 0 <= i < |files| && !IsImage(files[i]))
      && (r.Err? ==> r.error == IllegalArgument(OnlyImagesMessage))
    ensures r.Err? ==> s.images == old(s.images) && s.nextImageId == old(s.nextImageId)
    ensures r.Ok? ==>
      && |r.value| == |files|
      && (forall k :: 0 <= k < |files| ==> StoreFile(files[k], uuids[k]) == Ok(r.value[k]))
      && s.images == old(s.images)
           + UploadedRows(id, FindMainImage(old(s.images), id).value.Some?, r.value, old(s.nextImageId))
      && s.nextImageId == old(s.nextImageId) + |files|
    ensures AtMostOneMain(old(s.images)) ==> AtMostOneMain(s.images)
  {
    var guard := Guard(s.users, s.properties, actorId, id);
    if guard.Err? {
      return Err(guard.error);
    }
    var main := FindMainImage(s.images, id);
    if main.Err? {
      return Err(main.error);
    }
    var hasMain := main.value.Some?;
    var built := BuildImages(files, uuids);
    if built.Err? {
      return Err(built.error);
    }
    var added := UploadedRows(id, hasMain, built.value, s.nextImageId);
    AppendKeepsRowsValid(s.images, added, s.properties.Keys, s.nextImageId);
    if AtMostOneMain(s.images) {
      AppendPreserves(s.images, added, id);
    }
    s.images := s.images + added;
    s.nextImageId := s.nextImageId + |files|;
    r := Ok(built.value);
  }

  /** The image with id `imageId` is one of the listing's own images. */
  predicate ImageBelongsTo(images: seq<PropertyImage>, imageId: int, propertyId: int) {
    var j := IndexOfImage(images, imageId);
    j.Some? && images[j.value].propertyId == propertyId
  }

  /** `setMainImage`: after the guard, the listing's main image is cleared and
      the image with `imageId` — looked up in the whole table — is flagged. */
  method SetMainImage(s: Store, actorId: int, propertyId: int, imageId: int) returns (r: Outcome)
    requires s.Valid()
    modifies s`images
    ensures s.Valid()
    ensures Guard(old(s.users), old(s.properties), actorId, propertyId).Err? ==>
      r == Fail(Guard(old(s.users), old(s.properties), actorId, propertyId).error)
    ensures Guard(old(s.users), old(s.properties), actorId, propertyId).Ok? ==>
      && (FindMainImage(old(s.images), propertyId).Err? ==>
            r == Fail(FindMainImage(old(s.images), propertyId).error))
      && (FindMainImage(old(s.images), propertyId).Ok? && IndexOfImage(old(s.images), imageId).None? ==>
            r == Fail(ResourceNotFound(ImageNotFoundMessage)))
      && (FindMainImage(old(s.images), propertyId).Ok? && IndexOfImage(old(s.images), imageId).Some? ==>
            r == Pass)
    ensures r.Fail? ==> s.images == old(s.images)
    ensures r.Pass? ==>
      var current := FindMainImage(old(s.images), propertyId).value;
      var j := IndexOfImage(old(s.images), imageId).value;
      && s.images == SetMainEffect(old(s.images), current, j)
      && s.images[j].isMain
      && (current.Some? && current.value != j ==> !s.images[current.value].isMain)
    ensures ImageBelongsTo(old(s.images), imageId, propertyId) && AtMostOneMain(old(s.images)) ==>
      AtMostOneMain(s.images)
  {
    var guard := Guard(s.users, s.properties, actorId, propertyId);
    if guard.Err? {
      return Fail(guard.error);
    }
    var current := FindMainImage(s.images, propertyId);
    if current.Err? {
      return Fail(current.error);
    }
    var j := IndexOfImage(s.images, imageId);
    if j.None? {
      return Fail(ResourceNotFound(ImageNotFoundMessage));
    }
    SetMainKeepsRowsValid(s.images, s.properties.Keys, s.nextImageId, current.value, j.value);
    if ImageBelongsTo(s.images, imageId, propertyId) && AtMostOneMain(s.images) {
      SetMainWithinPropertyPreserves(s.images, propertyId, j.value);
    }
    s.images := SetMainEffect(s.images, current.value, j.value);
    r := Pass;
  }

  /** `deleteImage`: after the guard, the image with `imageId` — looked up in
      the whole table — is removed; if it was main, the listing's first
      remaining image becomes main. No endpoint calls it. Returns the file
      name removed from the upload directory, if its URL designates one. */
  method DeleteImage(s: Store, actorId: int, propertyId: int, imageId: int)
    returns (r: Outcome, deletedFile: Option<string>)
    requires s.Valid()
    modifies s`images
    ensures s.Valid()
    ensures Guard(old(s.users), old(s.properties), actorId, propertyId).Err? ==>
      r == Fail(Guard(old(s.users), old(s.properties), actorId, propertyId).error)
    ensures Guard(old(s.users), old(s.properties), actorId, propertyId).Ok? ==>
      (IndexOfImage(old(s.images), imageId).None? ==> r == Fail(ResourceNotFound(ImageNotFoundMessage)))
      && (IndexOfImage(old(s.images), imageId).Some? ==> r == Pass)
    ensures r.Fail? ==> s.images == old(s.images) && deletedFile == None
    ensures r.Pass? ==>
      var j := IndexOfImage(old(s.images), imageId).value;
      && s.images == DeleteImageEffect(old(s.images), propertyId, j)
      && IndexOfImage(s.images, imageId).None?
      && deletedFile == FileToDelete(Some(old(s.images)[j].imageUrl))
    ensures ImageBelongsTo(old(s.images), imageId, propertyId) && AtMostOneMain(old(s.images)) ==>
      AtMostOneMain(s.images)
  {
    var guard := Guard(s.users, s.properties, actorId, propertyId);
    if guard.Err? {
      return Fail(guard.error), None;
    }
    var j := IndexOfImage(s.images, imageId);
    if j.None? {
      return Fail(ResourceNotFound(ImageNotFoundMessage)), None;
    }
    var image := s.images[j.value];
    deletedFile := FileToDelete(Some(image.imageUrl));
    DeleteKeepsRowsValid(s.images, s.properties.Keys, s.nextImageId, propertyId, j.value);
    DeleteRemovesImage(s.images, propertyId, j.value);
    if ImageBelongsTo(s.images, imageId, propertyId) && AtMostOneMain(s.images) {
      DeleteWithinPropertyPreserves(s.images, propertyId, j.value);
    }
    var after := DeleteImageEffect(s.images, propertyId, j.value);
    s.images := after;
    r := Pass;
  }
}
