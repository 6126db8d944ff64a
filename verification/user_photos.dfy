/** The photo view of one user: a gallery, or with advanced features a single
    photo with previous/next stepping, kept in step with the route's photo id. */
module UserPhotos {
  import opened Entities

  /** `findIndex` on the photo ids: the first position holding `photoId`, or -1. */
  function FindIndex(photos: seq<Photo>, photoId: Id): (r: int)
    ensures -1 <= r < |photos|
    ensures r == -1 <==> forall k :: 0 <= k < |photos| ==> photos[k].id != photoId
    ensures 0 <= r ==> photos[r].id == photoId && forall k :: 0 <= k < r ==> photos[k].id != photoId
  {
    if photos == [] then -1
    else if photos[0].id == photoId then 0
    else
      var r := FindIndex(photos[1..], photoId);
      if r == -1 then -1 else r + 1
  }

  /** The index the view selects for the route's photo id: the first matching
      position, and 0 when no photo matches. */
  function ResolveIndex(photos: seq<Photo>, photoId: Id): (i: nat)
    ensures photos != [] ==> i < |photos|
    ensures (forall k :: 0 <= k < |photos| ==> photos[k].id != photoId) ==> i == 0
    ensures (exists k :: 0 <= k < |photos| && photos[k].id == photoId) ==>
      i < |photos| && photos[i].id == photoId && forall k :: 0 <= k < i ==> photos[k].id != photoId
  {
    var index := FindIndex(photos, photoId);
    if index != -1 then index else 0
  }

  /** The outcome of a stepper click: the new index and the navigation it requests. */
  datatype Step = Step(index: nat, nav: Option<Route>)

  /** `handlePrevPhoto`: one step back, with a route to the new photo; nothing at 0. */
  function PrevStep(userId: Id, photos: seq<Photo>, index: nat): (s: Step)
    requires index < |photos|
    ensures s.index < |photos|
    ensures index == 0 ==> s == Step(index, None)
    ensures index > 0 ==> s.index == index - 1 && s.nav == Some(Photos(userId, Some(photos[s.index].id)))
  {
    if index > 0 then Step(index - 1, Some(Photos(userId, Some(photos[index - 1].id))))
    else Step(index, None)
  }

  /** `handleNextPhoto`: one step forward, with a route to the new photo; nothing at the last. */
  function NextStep(userId: Id, photos: seq<Photo>, index: nat): (s: Step)
    requires index < |photos|
    ensures s.index < |photos|
    ensures index == |photos| - 1 ==> s == Step(index, None)
    ensures index < |photos| - 1 ==> s.index == index + 1 && s.nav == Some(Photos(userId, Some(photos[s.index].id)))
  {
    if index < |photos| - 1 then Step(index + 1, Some(Photos(userId, Some(photos[index + 1].id))))
    else Step(index, None)
  }

  /** The effect that moves an advanced-mode gallery to its first photo: it fires only
      when the photos are loaded, no photo id is routed and a first photo id exists. */
  function FirstPhotoRedirect(userId: Id, advancedFeaturesEnabled: bool, photos: Option<seq<Photo>>,
                              photoId: Option<Id>): (nav: Option<Route>)
    ensures nav.Some? <==> advancedFeaturesEnabled && photos.Some? && photoId.None?
                           && photos.value != [] && photos.value[0].id != ""
    ensures nav.Some? ==> nav.value == Photos(userId, Some(photos.value[0].id))
                          && ResolveIndex(photos.value, photos.value[0].id) == 0
  {
    if advancedFeaturesEnabled && photos.Some? && photoId.None? && photos.value != [] && photos.value[0].id != ""
    then Some(Photos(userId, Some(photos.value[0].id)))
    else None
  }

  /** The effect that sends a routed single photo back to the gallery once advanced
      features are off. */
  function GalleryRedirect(userId: Id, advancedFeaturesEnabled: bool, photoId: Option<Id>): (nav: Option<Route>)
    ensures nav.Some? <==> !advancedFeaturesEnabled && photoId.Some?
    ensures nav.Some? ==> nav.value == Photos(userId, None)
  {
    if !advancedFeaturesEnabled && photoId.Some? then Some(Photos(userId, None)) else None
  }

  function OptionToSeq(o: Option<Route>): (s: seq<Route>)
    ensures o.None? ==> s == []
    ensures o.Some? ==> s == [o.value]
  {
    if o.Some? then [o.value] else []
  }

  /** The component state of the photo view: route parameters (props) and state. */
  class UserPhotosView {
    var userId: Id
    var photoId: Option<Id>
    var photos: Option<seq<Photo>>
    var currentPhotoIndex: nat

    /** A freshly mounted view: no photos yet, index 0. */
    constructor (userId: Id, photoId: Option<Id>)
      ensures this.userId == userId && this.photoId == photoId
      ensures photos == None && currentPhotoIndex == 0
    {
      this.userId := userId;
      this.photoId := photoId;
      photos := None;
      currentPhotoIndex := 0;
    }

    /** The view is mounted anew (entering a photos route from another page). */
    method Remount(userId: Id, photoId: Option<Id>)
      modifies this
      ensures this.userId == userId && this.photoId == photoId
      ensures photos == None && currentPhotoIndex == 0
    {
      this.userId := userId;
      this.photoId := photoId;
      photos := None;
      currentPhotoIndex := 0;
    }

    /** New route parameters for a view that stays mounted: the state is kept until
        the refetch the parameters trigger completes. */
    method RouteParamsChanged(userId: Id, photoId: Option<Id>)
      modifies this
      ensures this.userId == userId && this.photoId == photoId
      ensures photos == old(photos) && currentPhotoIndex == old(currentPhotoIndex)
    {
      this.userId := userId;
      this.photoId := photoId;
    }

    /** The fetch of the user's photos succeeded with `data`. The fetch resolves the
        index against `issuedFor`, the photo id routed when it was issued, which can
        differ from the current one when the route moved on while it was in flight. */
    method PhotosLoaded(data: seq<Photo>, issuedFor: Option<Id>)
      modifies this
      ensures userId == old(userId) && photoId == old(photoId)
      ensures photos == Some(data)
      ensures issuedFor.Some? ==> currentPhotoIndex == ResolveIndex(data, issuedFor.value)
      ensures issuedFor.Some? && data != [] ==> currentPhotoIndex < |data|
      ensures issuedFor.None? ==> currentPhotoIndex == old(currentPhotoIndex)
    {
      photos := Some(data);
      if issuedFor.Some? {
        currentPhotoIndex := ResolveIndex(data, issuedFor.value);
      }
    }

    /** The navigations the two flag-driven effects request, in declaration order.
        The two never fire together: one needs the flag on, the other off. */
    function Navigations(advancedFeaturesEnabled: bool): (navs: seq<Route>)
      reads this
      ensures |navs| <= 1
      ensures advancedFeaturesEnabled && photos.Some? && photoId.None? && photos.value != [] && photos.value[0].id != ""
              ==> navs == [Photos(userId, Some(photos.value[0].id))]
      ensures !advancedFeaturesEnabled && photoId.Some? ==> navs == [Photos(userId, None)]
      ensures navs != [] ==> (advancedFeaturesEnabled && photoId.None? && photos.Some? && photos.value != [])
                             || (!advancedFeaturesEnabled && photoId.Some?)
    {
      OptionToSeq(FirstPhotoRedirect(userId, advancedFeaturesEnabled, photos, photoId))
      + OptionToSeq(GalleryRedirect(userId, advancedFeaturesEnabled, photoId))
    }

    /** The photo the single-photo view shows. */
    function CurrentPhoto(): (p: Photo)
      reads this
      requires photos.Some? && currentPhotoIndex < |photos.value|
      ensures p in photos.value
      ensures photoId.Some? && currentPhotoIndex == ResolveIndex(photos.value, photoId.value)
              && (exists k :: 0 <= k < |photos.value| && photos.value[k].id == photoId.value)
              ==> p.id == photoId.value
    {
      photos.value[currentPhotoIndex]
    }

    method PrevPhoto() returns (nav: Option<Route>)
      requires photos.Some? && currentPhotoIndex < |photos.value|
      modifies this
      ensures userId == old(userId) && photoId == old(photoId) && photos == old(photos)
      ensures currentPhotoIndex == PrevStep(userId, photos.value, old(currentPhotoIndex)).index
      ensures nav == PrevStep(userId, photos.value, old(currentPhotoIndex)).nav
    {
      var step := PrevStep(userId, photos.value, currentPhotoIndex);
      currentPhotoIndex := step.index;
      nav := step.nav;
    }

    method NextPhoto() returns (nav: Option<Route>)
      requires photos.Some? && currentPhotoIndex < |photos.value|
      modifies this
      ensures userId == old(userId) && photoId == old(photoId) && photos == old(photos)
      ensures currentPhotoIndex == NextStep(userId, photos.value, old(currentPhotoIndex)).index
      ensures nav == NextStep(userId, photos.value, old(currentPhotoIndex)).nav
    {
      var step := NextStep(userId, photos.value, currentPhotoIndex);
      currentPhotoIndex := step.index;
      nav := step.nav;
    }
  }

  // ---------------------------------------------------------------------------
  // Properties

  /** With unique ids, resolving the id of the photo at `i` gives back `i`. */
  lemma ResolveOwnId(photos: seq<Photo>, i: nat)
    requires UniqueIds(photos) && i < |photos|
    ensures ResolveIndex(photos, photos[i].id) == i
  {
    var r := ResolveIndex(photos, photos[i].id);
    assert photos[r].id == photos[i].id;
  }

  /** With unique ids, the route a step emits resolves back to the step's new index,
      so the refetch the route triggers keeps the photo the stepper chose. */
  lemma StepRouteResolves(userId: Id, photos: seq<Photo>, index: nat)
    requires UniqueIds(photos) && index < |photos|
    ensures forall s :: s in {PrevStep(userId, photos, index), NextStep(userId, photos, index)} && s.nav.Some? ==>
      s.nav.value.Photos? && s.nav.value.photoId.Some? && ResolveIndex(photos, s.nav.value.photoId.value) == s.index
  {
    if index > 0 {
      ResolveOwnId(photos, index - 1);
    }
    if index < |photos| - 1 {
      ResolveOwnId(photos, index + 1);
    }
  }

  /** Stepping forward and then back returns to the starting photo, and so does
      stepping back and then forward. */
  lemma StepsUndo(userId: Id, photos: seq<Photo>, index: nat)
    requires index < |photos|
    ensures index < |photos| - 1 ==> PrevStep(userId, photos, NextStep(userId, photos, index).index).index == index
    ensures index > 0 ==> NextStep(userId, photos, PrevStep(userId, photos, index).index).index == index
  {
  }
}
