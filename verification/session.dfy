/** The navigation state machine of one browser session: the shell, the photo view
    and the current route, driven by route changes, the checkbox, photo fetches and
    stepper clicks. Every event returns the navigations the effects it triggers
    request, in order. */
module Session {
  import opened Entities
  import PhotoShare
  import UserPhotos
  import UserComments
  import TopBar

  /** The order in which one commit runs the effects of a route wrapper and of the
      view it renders. React runs a child's effects before its parent's, so the view
      first sees the flag as it was before the wrapper forces it on; under
      `WrapperFirst` the view sees the forced flag straight away. */
  datatype EffectOrder = ChildFirst | WrapperFirst

  class Session {
    const shell: PhotoShare.Shell
    /** The photo view; its state matters only while the route is a photos route. */
    const photoView: UserPhotos.UserPhotosView
    var route: Route

    /** While a photos route is shown, the view's parameters are the route's. */
    predicate Valid()
      reads this, photoView
    {
      route.Photos? ==> photoView.userId == route.userId && photoView.photoId == route.photoId
    }

    /** The session opens on `/` with a fresh shell. */
    constructor ()
      ensures Valid()
      ensures route == Home && fresh(shell) && fresh(photoView)
      ensures shell.userId == None && !shell.advancedFeaturesEnabled
    {
      shell := new PhotoShare.Shell();
      photoView := new UserPhotos.UserPhotosView("", None);
      route := Home;
    }

    /** The location became `r`. A wrapper's effect runs when its parameters change;
        the photo view is mounted anew when entered from another page and otherwise
        keeps its state; the comments redirect runs when the comments view mounts.
        Under `ChildFirst` the view's effects see the previous flag. The wrapper can
        change the flag only from off to on, and then the view has already asked
        for the gallery or the detail page, or (a comments view that stays mounted)
        its redirect asks for nothing with the flag on, so no effect adds a request. */
    method RouteChanged(r: Route, order: EffectOrder) returns (navs: seq<Route>)
      requires Valid()
      modifies this, shell, photoView
      ensures Valid() && route == r
      ensures r == old(route) ==> navs == [] && unchanged(shell) && unchanged(photoView)
      ensures r != old(route) && (r.Photos? || r.Comments? || r.UserDetail?) ==> shell.userId == Some(r.userId)
      ensures r != old(route) && r.UserDetail? ==> shell.advancedFeaturesEnabled == old(shell.advancedFeaturesEnabled)
      ensures r != old(route) && r.Photos? ==>
        shell.advancedFeaturesEnabled == (r.photoId.Some? || old(shell.advancedFeaturesEnabled))
      ensures r != old(route) && r.Comments? ==> shell.advancedFeaturesEnabled
      ensures r.Home? || r.UserListPage? ==> unchanged(shell)
      ensures r != old(route) && r.Photos? && old(route).Photos? ==>
        photoView.photos == old(photoView.photos) && photoView.currentPhotoIndex == old(photoView.currentPhotoIndex)
      ensures r.Photos? && !old(route).Photos? ==> photoView.photos == None && photoView.currentPhotoIndex == 0
      ensures !r.Photos? ==> unchanged(photoView)
      ensures r != old(route) && r.Photos? && order == WrapperFirst ==>
        navs == photoView.Navigations(shell.advancedFeaturesEnabled)
      ensures r != old(route) && r.Photos? && order == ChildFirst ==>
        navs == photoView.Navigations(old(shell.advancedFeaturesEnabled))
      ensures r != old(route) && r.Comments? && order == ChildFirst ==>
        navs == if !old(route).Comments? && !old(shell.advancedFeaturesEnabled) then [UserDetail(r.userId)] else []
      ensures !r.Photos? && (order == WrapperFirst || !r.Comments?) ==> navs == []
    {
      if r == route {
        navs := [];
        return;
      }
      var previous := route;
      var before := shell.advancedFeaturesEnabled;
      route := r;
      match r
      case UserDetail(u) =>
        shell.UserDetailRouteEffect(u);
        navs := [];
      case Photos(u, p) =>
        if previous.Photos? {
          photoView.RouteParamsChanged(u, p);
        } else {
          photoView.Remount(u, p);
        }
        if order == ChildFirst {
          navs := photoView.Navigations(before);
          shell.UserPhotosRouteEffect(u, p);
        } else {
          shell.UserPhotosRouteEffect(u, p);
          navs := photoView.Navigations(shell.advancedFeaturesEnabled);
        }
      case Comments(u) =>
        if order == ChildFirst {
          navs := if previous.Comments? then []
                  else UserPhotos.OptionToSeq(UserComments.RedirectWhenDisabled(u, before));
          shell.UserCommentsRouteEffect(u);
        } else {
          shell.UserCommentsRouteEffect(u);
          navs := if previous.Comments? then []
                  else UserPhotos.OptionToSeq(UserComments.RedirectWhenDisabled(u, shell.advancedFeaturesEnabled));
        }
      case _ =>
        navs := [];
    }

    /** The checkbox was set to `checked`. When the flag changes, the effects that
        depend on it run again in the view on screen. */
    method Toggle(checked: bool) returns (navs: seq<Route>)
      requires Valid()
      modifies shell
      ensures Valid()
      ensures shell.advancedFeaturesEnabled == checked && shell.userId == old(shell.userId)
      ensures checked == old(shell.advancedFeaturesEnabled) ==> navs == []
      ensures checked != old(shell.advancedFeaturesEnabled) && route.Photos? ==> navs == photoView.Navigations(checked)
      ensures checked != old(shell.advancedFeaturesEnabled) && route.Comments? ==>
        navs == UserPhotos.OptionToSeq(UserComments.RedirectWhenDisabled(route.userId, checked))
      ensures !route.Photos? && !route.Comments? ==> navs == []
    {
      var changed := checked != shell.advancedFeaturesEnabled;
      TopBar.CheckboxChanged(shell, checked);
      if !changed {
        navs := [];
      } else if route.Photos? {
        navs := photoView.Navigations(checked);
      } else if route.Comments? {
        navs := UserPhotos.OptionToSeq(UserComments.RedirectWhenDisabled(route.userId, checked));
      } else {
        navs := [];
      }
    }

    /** A photo fetch of the photo view, issued while `issuedFor` was the routed photo
        id, completed with `data`. The index is resolved against `issuedFor`; the
        first-photo effect, the only one that depends on the photos, runs again and
        reads the current route. */
    method PhotosLoaded(data: seq<Photo>, issuedFor: Option<Id>) returns (navs: seq<Route>)
      requires Valid()
      modifies photoView
      ensures Valid()
      ensures !route.Photos? ==> unchanged(photoView) && navs == []
      ensures route.Photos? ==> photoView.photos == Some(data)
      ensures route.Photos? && issuedFor.Some? ==>
        photoView.currentPhotoIndex == UserPhotos.ResolveIndex(data, issuedFor.value)
      ensures route.Photos? && issuedFor.None? ==> photoView.currentPhotoIndex == old(photoView.currentPhotoIndex)
      ensures route.Photos? ==>
        navs == UserPhotos.OptionToSeq(UserPhotos.FirstPhotoRedirect(route.userId, shell.advancedFeaturesEnabled,
                                                                     Some(data), route.photoId))
    {
      if route.Photos? {
        photoView.PhotosLoaded(data, issuedFor);
        navs := UserPhotos.OptionToSeq(UserPhotos.FirstPhotoRedirect(photoView.userId, shell.advancedFeaturesEnabled,
                                                                     photoView.photos, photoView.photoId));
      } else {
        navs := [];
      }
    }

    /** The single-photo view is on screen with a photo selected. */
    predicate Stepping()
      reads this, shell, photoView
    {
      route.Photos? && shell.advancedFeaturesEnabled && photoView.photos.Some?
      && photoView.currentPhotoIndex < |photoView.photos.value|
    }

    /** A click on the "<" button. */
    method Prev() returns (nav: Option<Route>)
      requires Valid() && Stepping()
      modifies photoView
      ensures Valid() && Stepping()
      ensures photoView.photos == old(photoView.photos)
      ensures photoView.currentPhotoIndex
           == UserPhotos.PrevStep(route.userId, photoView.photos.value, old(photoView.currentPhotoIndex)).index
      ensures nav == UserPhotos.PrevStep(route.userId, photoView.photos.value, old(photoView.currentPhotoIndex)).nav
    {
      nav := photoView.PrevPhoto();
    }

    /** A click on the ">" button. */
    method Next() returns (nav: Option<Route>)
      requires Valid() && Stepping()
      modifies photoView
      ensures Valid() && Stepping()
      ensures photoView.photos == old(photoView.photos)
      ensures photoView.currentPhotoIndex
           == UserPhotos.NextStep(route.userId, photoView.photos.value, old(photoView.currentPhotoIndex)).index
      ensures nav == UserPhotos.NextStep(route.userId, photoView.photos.value, old(photoView.currentPhotoIndex)).nav
    {
      nav := photoView.NextPhoto();
    }
  }

  // ---------------------------------------------------------------------------
  // Scenarios

  /** A deep link to a photo on a fresh session, with effects in React's order: the
      view's gallery redirect fires before the wrapper forces the flag on, so the
      session moves to the gallery route with the flag on. The fetch issued for the
      linked id then completes and shows the linked photo there, but the first-photo
      effect moves on to the first photo, and once that route's fetch completes the
      view ends on index 0: a linked photo other than the first is not kept. */
  method DeepLinkAsWritten(userId: Id, photoId: Id, photos: seq<Photo>)
    returns (redirect: seq<Route>, linkedIndex: nat, firstPhoto: seq<Route>, settled: seq<Route>,
             index: nat, advanced: bool)
    ensures redirect == [Photos(userId, None)] && advanced
    ensures linkedIndex == UserPhotos.ResolveIndex(photos, photoId)
    ensures (exists k :: 0 <= k < |photos| && photos[k].id == photoId) ==> photos[linkedIndex].id == photoId
    ensures firstPhoto == if photos != [] && photos[0].id != "" then [Photos(userId, Some(photos[0].id))] else []
    ensures settled == []
    ensures photos != [] && photos[0].id != "" ==> index == 0
    ensures firstPhoto == [] ==> index == linkedIndex
    ensures photos != [] && photos[0].id != "" && photoId != photos[0].id ==> photos[index].id != photoId
  {
    var s := new Session();
    redirect := s.RouteChanged(Photos(userId, Some(photoId)), ChildFirst);
    settled := s.RouteChanged(redirect[0], ChildFirst);
    firstPhoto := s.PhotosLoaded(photos, Some(photoId));
    linkedIndex := s.photoView.currentPhotoIndex;
    var galleryLoad := s.PhotosLoaded(photos, None);
    if firstPhoto != [] {
      settled := s.RouteChanged(firstPhoto[0], ChildFirst);
      var reload := s.PhotosLoaded(photos, firstPhoto[0].photoId);
      settled := settled + reload;
    }
    index := s.photoView.currentPhotoIndex;
    advanced := s.shell.advancedFeaturesEnabled;
  }

  /** A deep link to a photo on a fresh session when the wrapper's effect reaches the
      view first: the flag is forced on, no redirect is requested, and once the photos
      arrive the view shows the linked photo (or the first one when the id matches
      none). */
  method DeepLink(userId: Id, photoId: Id, photos: seq<Photo>)
    returns (index: nat, advanced: bool, navs: seq<Route>)
    ensures advanced
    ensures navs == []
    ensures index == UserPhotos.ResolveIndex(photos, photoId)
    ensures (exists k :: 0 <= k < |photos| && photos[k].id == photoId) ==> photos[index].id == photoId
  {
    var s := new Session();
    var navs1 := s.RouteChanged(Photos(userId, Some(photoId)), WrapperFirst);
    var navs2 := s.PhotosLoaded(photos, Some(photoId));
    navs := navs1 + navs2;
    index := s.photoView.currentPhotoIndex;
    advanced := s.shell.advancedFeaturesEnabled;
  }

  /** A deep link to a user's comments on a fresh session, with effects in React's
      order: the comments view sends the session to the user's detail page before
      the wrapper forces the flag on, so the comments are never shown. */
  method CommentsDeepLinkAsWritten(userId: Id) returns (redirect: seq<Route>, settled: seq<Route>, advanced: bool)
    ensures redirect == [UserDetail(userId)]
    ensures settled == [] && advanced
  {
    var s := new Session();
    redirect := s.RouteChanged(Comments(userId), ChildFirst);
    settled := s.RouteChanged(redirect[0], ChildFirst);
    advanced := s.shell.advancedFeaturesEnabled;
  }

  /** A deep link to a user's comments on a fresh session when the wrapper's effect
      reaches the view first: the flag is forced on and no redirect is requested. */
  method CommentsDeepLink(userId: Id) returns (advanced: bool, navs: seq<Route>)
    ensures advanced && navs == []
  {
    var s := new Session();
    navs := s.RouteChanged(Comments(userId), WrapperFirst);
    advanced := s.shell.advancedFeaturesEnabled;
  }

  /** From the gallery, turning the flag on moves to the first photo, whose route
      selects index 0 once refetched; turning it off again returns to the gallery,
      where nothing further is requested. */
  method ToggleRoundTrip(userId: Id, photos: seq<Photo>)
    returns (onNavs: seq<Route>, index: nat, offNavs: seq<Route>, settled: seq<Route>, advanced: bool)
    requires photos != [] && photos[0].id != ""
    ensures onNavs == [Photos(userId, Some(photos[0].id))]
    ensures index == 0
    ensures offNavs == [Photos(userId, None)]
    ensures settled == [] && !advanced
  {
    var s := new Session();
    var navs := s.RouteChanged(Photos(userId, None), ChildFirst);
    navs := s.PhotosLoaded(photos, None);
    onNavs := s.Toggle(true);
    navs := s.RouteChanged(onNavs[0], ChildFirst);
    navs := s.PhotosLoaded(photos, onNavs[0].photoId);
    index := s.photoView.currentPhotoIndex;
    offNavs := s.Toggle(false);
    settled := s.RouteChanged(offNavs[0], ChildFirst);
    advanced := s.shell.advancedFeaturesEnabled;
  }

  /** With the flag already on, a link to the photo at `start`, then one ">" click:
      the click's route and the refetch it triggers leave the view on the next photo,
      and the last photo has no next. */
  method StepForward(userId: Id, photos: seq<Photo>, start: nat)
    returns (nav: Option<Route>, index: nat, followUp: seq<Route>)
    requires UniqueIds(photos) && start < |photos|
    ensures start == |photos| - 1 ==> nav == None && index == start
    ensures start < |photos| - 1 ==> nav == Some(Photos(userId, Some(photos[start + 1].id))) && index == start + 1
    ensures followUp == []
  {
    var s := new Session();
    var navs := s.Toggle(true);
    navs := s.RouteChanged(Photos(userId, Some(photos[start].id)), ChildFirst);
    navs := s.PhotosLoaded(photos, Some(photos[start].id));
    UserPhotos.ResolveOwnId(photos, start);
    nav := s.Next();
    followUp := [];
    if nav.Some? {
      UserPhotos.StepRouteResolves(userId, photos, start);
      followUp := s.RouteChanged(nav.value, ChildFirst);
      var reload := s.PhotosLoaded(photos, nav.value.photoId);
      followUp := followUp + reload;
    }
    index := s.photoView.currentPhotoIndex;
  }
}
