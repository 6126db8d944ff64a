/** The records the photo-sharing client receives from its data source, the
    routes it navigates between, and the folds over them that the views share. */
module Entities {

  /** Identifiers (`_id` fields and route parameters) are opaque strings. */
  type Id = string

  datatype Option<T> = None | Some(value: T)

  datatype User = User(id: Id, firstName: string, lastName: string)

  /** A comment as nested in a fetched photo; `authorId` is `comment.user._id`. */
  datatype Comment = Comment(id: Id, text: string, dateTime: string, authorId: Id)

  /** A fetched photo; `ownerId` is `photo.user_id`. */
  datatype Photo = Photo(id: Id, ownerId: Id, fileName: string, dateTime: string, comments: seq<Comment>)

  /** The client routes: `/`, `/users`, `/users/:userId`, `/photos/:userId[/:photoId]`
      and `/comments/:userId`. A navigation the views emit is one of these values. */
  datatype Route =
    | Home
    | UserListPage
    | UserDetail(userId: Id)
    | Photos(userId: Id, photoId: Option<Id>)
    | Comments(userId: Id)

  /** All photos of all users, in list order, each user's photos in their order. */
  function Flatten(lists: seq<seq<Photo>>): (r: seq<Photo>)
  {
    if lists == [] then [] else Flatten(lists[..|lists| - 1]) + lists[|lists| - 1]
  }

  /** Every comment on every photo, in scan order. */
  function AllComments(photos: seq<Photo>): (r: seq<Comment>)
  {
    if photos == [] then [] else AllComments(photos[..|photos| - 1]) + photos[|photos| - 1].comments
  }

  /** How many of the comments `cs` are authored by `id`. */
  function CountAuthored(cs: seq<Comment>, id: Id): (n: nat)
    ensures n <= |cs|
  {
    if cs == [] then 0
    else CountAuthored(cs[..|cs| - 1], id) + (if cs[|cs| - 1].authorId == id then 1 else 0)
  }

  /** The ids of the listed users. */
  function UserIds(users: seq<User>): set<Id>
  {
    set u | u in users :: u.id
  }

  /** The ids of the authors of the comments `cs`. */
  function Authors(cs: seq<Comment>): set<Id>
  {
    set c | c in cs :: c.authorId
  }

  /** True when some comment on photo `p` is written by `userId`. */
  predicate HasCommentBy(p: Photo, userId: Id)
  {
    exists c :: c in p.comments && c.authorId == userId
  }

  predicate NoDuplicates<T(==)>(s: seq<T>)
  {
    forall i, j :: 0 <= i < j < |s| ==> s[i] != s[j]
  }

  /** Photo ids are unique within a photo list. */
  predicate UniqueIds(photos: seq<Photo>)
  {
    forall i, j :: 0 <= i < j < |photos| ==> photos[i].id != photos[j].id
  }

  lemma {:induction false} CountAuthoredAppend(a: seq<Comment>, b: seq<Comment>, id: Id)
    ensures CountAuthored(a + b, id) == CountAuthored(a, id) + CountAuthored(b, id)
    decreases |b|
  {
    if b == [] {
      assert a + b == a;
    } else {
      assert (a + b)[..|a + b| - 1] == a + b[..|b| - 1];
      CountAuthoredAppend(a, b[..|b| - 1], id);
    }
  }

  /** An id authors some comment exactly when its count is positive. */
  lemma {:induction false} CountAuthoredPositive(cs: seq<Comment>, id: Id)
    ensures CountAuthored(cs, id) > 0 <==> id in Authors(cs)
  {
    if cs != [] {
      var init := cs[..|cs| - 1];
      CountAuthoredPositive(init, id);
      assert cs == init + [cs[|cs| - 1]];
      assert Authors(cs) == Authors(init) + {cs[|cs| - 1].authorId};
    }
  }

  lemma {:induction false} AllCommentsAppend(a: seq<Photo>, b: seq<Photo>)
    ensures AllComments(a + b) == AllComments(a) + AllComments(b)
    decreases |b|
  {
    if b == [] {
      assert a + b == a;
    } else {
      assert (a + b)[..|a + b| - 1] == a + b[..|b| - 1];
      AllCommentsAppend(a, b[..|b| - 1]);
    }
  }

  lemma {:induction false} FlattenAppend(a: seq<seq<Photo>>, b: seq<seq<Photo>>)
    ensures Flatten(a + b) == Flatten(a) + Flatten(b)
    decreases |b|
  {
    if b == [] {
      assert a + b == a;
    } else {
      assert (a + b)[..|a + b| - 1] == a + b[..|b| - 1];
      FlattenAppend(a, b[..|b| - 1]);
    }
  }

}
