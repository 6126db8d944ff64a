/** The comments view: the photos a user has commented on (a reverse index over
    every photo of every user) and, per photo, that user's comments. */
module UserComments {
  import opened Entities
  import UserList

  /** The photos of `photos` that carry at least one comment by `userId`, in order. */
  function Commented(photos: seq<Photo>, userId: Id): (r: seq<Photo>)
    ensures forall p :: p in r <==> p in photos && HasCommentBy(p, userId)
    ensures |r| <= |photos|
  {
    if photos == [] then []
    else
      var init := photos[..|photos| - 1];
      var p := photos[|photos| - 1];
      assert photos == init + [p];
      if HasCommentBy(p, userId) then Commented(init, userId) + [p] else Commented(init, userId)
  }

  /** The first occurrence of every element of `s`, in order of first occurrence. */
  function Dedup(s: seq<Photo>): (r: seq<Photo>)
    ensures NoDuplicates(r)
    ensures forall x :: x in r <==> x in s
    ensures |r| <= |s|
  {
    if s == [] then []
    else
      var d := Dedup(s[..|s| - 1]);
      var x := s[|s| - 1];
      assert s == s[..|s| - 1] + [x];
      if x in d then d else d + [x]
  }

  /** The comments of photo `p` written by `userId` (the per-photo filter of the view). */
  function CommentsBy(p: Photo, userId: Id): (r: seq<Comment>)
    ensures forall c :: c in r <==> c in p.comments && c.authorId == userId
    ensures |r| == CountAuthored(p.comments, userId)
  {
    SelectAuthored(p.comments, userId)
  }

  function SelectAuthored(cs: seq<Comment>, userId: Id): (r: seq<Comment>)
    ensures forall c :: c in r <==> c in cs && c.authorId == userId
    ensures |r| == CountAuthored(cs, userId)
  {
    if cs == [] then []
    else
      var init := cs[..|cs| - 1];
      var c := cs[|cs| - 1];
      assert cs == init + [c];
      if c.authorId == userId then SelectAuthored(init, userId) + [c] else SelectAuthored(init, userId)
  }

  /** The innermost scan: walks the comments of one photo and appends the photo the
      first time a comment by `userId` is met, unless `result` already holds it. */
  method ScanComments(userId: Id, photo: Photo, result: seq<Photo>) returns (r: seq<Photo>)
    ensures r == if HasCommentBy(photo, userId) && photo !in result then result + [photo] else result
  {
    r := result;
    var k := 0;
    while k < |photo.comments|
      invariant 0 <= k <= |photo.comments|
      invariant r == if (exists c :: c in photo.comments[..k] && c.authorId == userId) && photo !in result
                     then result + [photo] else result
    {
      assert photo.comments[..k + 1] == photo.comments[..k] + [photo.comments[k]];
      if photo.comments[k].authorId == userId && photo !in r {
        r := r + [photo];
      }
      k := k + 1;
    }
    assert photo.comments[..k] == photo.comments;
  }

  /** The scan of one user's photo list, photo by photo. */
  method ScanPhotos(userId: Id, photos: seq<Photo>, result: seq<Photo>, ghost scanned: seq<Photo>)
    returns (r: seq<Photo>)
    requires result == Dedup(Commented(scanned, userId))
    ensures r == Dedup(Commented(scanned + photos, userId))
  {
    r := result;
    var j := 0;
    assert scanned + photos[..j] == scanned;
    while j < |photos|
      invariant 0 <= j <= |photos|
      invariant r == Dedup(Commented(scanned + photos[..j], userId))
    {
      ScanStep(scanned, photos, j, userId);
      r := ScanComments(userId, photos[j], r);
      j := j + 1;
    }
    assert photos[..j] == photos;
  }

  /** `fetchPhotosWithUserComments` once every photo list has arrived: scans every
      comment of every photo of every user and appends a photo the first time one of
      its comments is by `userId`. */
  method FindCommentedPhotos(userId: Id, photoLists: seq<seq<Photo>>) returns (result: seq<Photo>)
    ensures result == Dedup(Commented(Flatten(photoLists), userId))
    ensures NoDuplicates(result)
    ensures forall p :: p in result <==> p in Flatten(photoLists) && HasCommentBy(p, userId)
  {
    result := [];
    var i := 0;
    while i < |photoLists|
      invariant 0 <= i <= |photoLists|
      invariant result == Dedup(Commented(Flatten(photoLists[..i]), userId))
    {
      assert photoLists[..i + 1][..i] == photoLists[..i];
      result := ScanPhotos(userId, photoLists[i], result, Flatten(photoLists[..i]));
      i := i + 1;
    }
    assert photoLists[..i] == photoLists;
  }

  /** The view sends a user whose advanced features are off to the user's detail page. */
  function RedirectWhenDisabled(userId: Id, advancedFeaturesEnabled: bool): (nav: Option<Route>)
    ensures nav.Some? <==> !advancedFeaturesEnabled
    ensures nav.Some? ==> nav.value == UserDetail(userId)
  {
    if !advancedFeaturesEnabled then Some(UserDetail(userId)) else None
  }

  /** The component state of the comments view for user `userId`. */
  class UserCommentsView {
    var userId: Id
    var photosWithUserComment: seq<Photo>

    constructor (userId: Id)
      ensures this.userId == userId && photosWithUserComment == []
    {
      this.userId := userId;
      photosWithUserComment := [];
    }

    /** The view stays mounted while the route moves to another user's comments: the
        `userId` prop changes and the list keeps the previous user's photos until the
        rescan that the change triggers completes. */
    method UserIdChanged(userId: Id)
      modifies this
      ensures this.userId == userId
      ensures photosWithUserComment == old(photosWithUserComment)
    {
      this.userId := userId;
    }

    /** The outcome of all per-user photo fetches of the scan issued for `issuedFor`:
        `None` when any of them failed, in which case the list keeps its previous
        value. A scan issued before a change of `userId` still selects the comments
        of the user it was issued for. */
    method PhotosFetched(results: Option<seq<seq<Photo>>>, issuedFor: Id)
      modifies this
      ensures userId == old(userId)
      ensures results.Some? ==> photosWithUserComment == Dedup(Commented(Flatten(results.value), issuedFor))
      ensures results.None? ==> photosWithUserComment == old(photosWithUserComment)
    {
      if results.Some? {
        photosWithUserComment := FindCommentedPhotos(issuedFor, results.value);
      }
    }

    /** The comments shown under the `i`-th listed photo. */
    function ShownComments(i: nat): (r: seq<Comment>)
      reads this
      requires i < |photosWithUserComment|
      ensures forall c :: c in r ==> c.authorId == userId
      ensures r == CommentsBy(photosWithUserComment[i], userId)
    {
      CommentsBy(photosWithUserComment[i], userId)
    }
  }

  /** The comments view of `first` is scanned, then the route moves to `second` and
      the rescan fails: the list still holds the photos `first` commented on, now
      shown under `second`, and each shows only `second`'s comments on it. */
  method SwitchUserWithFailedRescan(first: Id, second: Id, photoLists: seq<seq<Photo>>)
    returns (shownFor: Id, listed: seq<Photo>)
    ensures shownFor == second
    ensures listed == Dedup(Commented(Flatten(photoLists), first))
  {
    var view := new UserCommentsView(first);
    view.PhotosFetched(Some(photoLists), first);
    view.UserIdChanged(second);
    view.PhotosFetched(None, second);
    shownFor := view.userId;
    listed := view.photosWithUserComment;
  }

  /** The route moves from `first`'s comments to `second`'s while `first`'s scan is
      in flight: when that scan completes it lists `first`'s photos under `second`,
      until `second`'s own scan completes and replaces the list. */
  method SwitchUserDuringScan(first: Id, second: Id, photoLists: seq<seq<Photo>>)
    returns (shownFor: Id, stale: seq<Photo>, settled: seq<Photo>)
    ensures shownFor == second
    ensures stale == Dedup(Commented(Flatten(photoLists), first))
    ensures settled == Dedup(Commented(Flatten(photoLists), second))
  {
    var view := new UserCommentsView(first);
    view.UserIdChanged(second);
    view.PhotosFetched(Some(photoLists), first);
    stale := view.photosWithUserComment;
    view.PhotosFetched(Some(photoLists), second);
    settled := view.photosWithUserComment;
    shownFor := view.userId;
  }

  // ---------------------------------------------------------------------------
  // Properties

  /** When no photo occurs twice in the scan, the reverse index is the plain filter
      of the scan, in scan order. */
  lemma CommentedPhotosOfDistinct(userId: Id, photoLists: seq<seq<Photo>>)
    requires NoDuplicates(Flatten(photoLists))
    ensures Dedup(Commented(Flatten(photoLists), userId)) == Commented(Flatten(photoLists), userId)
  {
    CommentedDistinct(Flatten(photoLists), userId);
    DedupOfDistinct(Commented(Flatten(photoLists), userId));
  }

  /** However many comments `userId` left on a scanned photo, it is listed exactly once. */
  lemma ListedOnce(userId: Id, photoLists: seq<seq<Photo>>, p: Photo)
    requires p in Flatten(photoLists) && HasCommentBy(p, userId)
    ensures multiset(Dedup(Commented(Flatten(photoLists), userId)))[p] == 1
  {
    DistinctOccursOnce(Dedup(Commented(Flatten(photoLists), userId)), p);
  }

  /** The per-photo filter keeps comments in their original order: it distributes
      over concatenation of comment sequences. */
  lemma {:induction false} SelectAuthoredAppend(a: seq<Comment>, b: seq<Comment>, userId: Id)
    ensures SelectAuthored(a + b, userId) == SelectAuthored(a, userId) + SelectAuthored(b, userId)
    decreases |b|
  {
    if b == [] {
      assert a + b == a;
    } else {
      assert (a + b)[..|a + b| - 1] == a + b[..|b| - 1];
      SelectAuthoredAppend(a, b[..|b| - 1], userId);
    }
  }

  /** The comments the view lists for `userId`, over all listed photos.  */
  function DisplayedCommentTotal(photos: seq<Photo>, userId: Id): nat
  {
    if photos == [] then 0
    else DisplayedCommentTotal(photos[..|photos| - 1], userId) + |CommentsBy(photos[|photos| - 1], userId)|
  }

  /** With no photo scanned twice, the comments the comments view shows for a user add
      up to the comment count the user list shows for that user. */
  lemma DisplayedTotalIsCommentCount(users: seq<User>, photoLists: seq<seq<Photo>>, userId: Id)
    requires |photoLists| == |users|
    requires NoDuplicates(Flatten(photoLists))
    requires userId in UserList.ExpectedStats(users, photoLists)
    ensures DisplayedCommentTotal(Dedup(Commented(Flatten(photoLists), userId)), userId)
         == UserList.ExpectedStats(users, photoLists)[userId].commentCount
  {
    CommentedPhotosOfDistinct(userId, photoLists);
    DisplayedTotalOfCommented(Flatten(photoLists), userId);
  }

  // ---------------------------------------------------------------------------
  // Helpers

  /** Scanning one more photo appends it to the index exactly when it carries a
      comment by `userId` and is not listed yet. */
  lemma ScanStep(scanned: seq<Photo>, photos: seq<Photo>, j: nat, userId: Id)
    requires j < |photos|
    ensures Dedup(Commented(scanned + photos[..j + 1], userId))
         == var d := Dedup(Commented(scanned + photos[..j], userId));
            if HasCommentBy(photos[j], userId) && photos[j] !in d then d + [photos[j]] else d
  {
    var prefix := scanned + photos[..j];
    var p := photos[j];
    assert scanned + photos[..j + 1] == prefix + [p];
    assert (prefix + [p])[..|prefix|] == prefix;
    var f := Commented(prefix, userId);
    assert (f + [p])[..|f|] == f;
  }

  lemma {:induction false} DisplayedTotalOfCommented(photos: seq<Photo>, userId: Id)
    ensures DisplayedCommentTotal(Commented(photos, userId), userId) == CountAuthored(AllComments(photos), userId)
  {
    if photos != [] {
      var init := photos[..|photos| - 1];
      var p := photos[|photos| - 1];
      DisplayedTotalOfCommented(init, userId);
      CountAuthoredAppend(AllComments(init), p.comments, userId);
      CountAuthoredPositive(p.comments, userId);
      var f := Commented(init, userId);
      if HasCommentBy(p, userId) {
        assert (f + [p])[..|f|] == f;
      } else {
        assert userId !in Authors(p.comments);
      }
    }
  }

  lemma {:induction false} CommentedDistinct(photos: seq<Photo>, userId: Id)
    requires NoDuplicates(photos)
    ensures NoDuplicates(Commented(photos, userId))
  {
    if photos != [] {
      var init := photos[..|photos| - 1];
      var p := photos[|photos| - 1];
      CommentedDistinct(init, userId);
      assert p !in init;
    }
  }

  lemma {:induction false} DedupOfDistinct(s: seq<Photo>)
    requires NoDuplicates(s)
    ensures Dedup(s) == s
  {
    if s != [] {
      var init := s[..|s| - 1];
      DedupOfDistinct(init);
      assert s[|s| - 1] !in init;
    }
  }

  lemma {:induction false} DistinctOccursOnce(s: seq<Photo>, x: Photo)
    requires NoDuplicates(s) && x in s
    ensures multiset(s)[x] == 1
  {
    var init := s[..|s| - 1];
    assert s == init + [s[|s| - 1]];
    if s[|s| - 1] == x {
      assert x !in init;
    } else {
      DistinctOccursOnce(init, x);
    }
  }
}
