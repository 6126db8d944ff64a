/** The user list's per-user statistics: how many photos each listed user owns
    and how many comments each author wrote, across every photo of every user. */
module UserList {
  import opened Entities

  /** One badge pair of the statistics table. */
  datatype Stats = Stats(photoCount: nat, commentCount: nat)

  /** What the list shows for one user: `null` counts until the table has an entry. */
  datatype Badge = Badge(photoCount: Option<nat>, commentCount: Option<nat>)

  predicate UniqueUserIds(users: seq<User>)
  {
    forall i, j :: 0 <= i < j < |users| ==> users[i].id != users[j].id
  }

  /** The photos credited to `id`: the lengths of the photo lists fetched for every
      listed position whose user id is `id` (a repeated id shares one table entry). */
  function PhotoCountOf(users: seq<User>, photoLists: seq<seq<Photo>>, id: Id): nat
    requires |photoLists| == |users|
  {
    if users == [] then 0
    else
      var n := |users| - 1;
      PhotoCountOf(users[..n], photoLists[..n], id) + (if users[n].id == id then |photoLists[n]| else 0)
  }

  /** The table after the comments `cs` have been tallied: an entry for every listed
      user and every author of `cs`, holding photo count and authored-comment count. */
  function StatsTable(users: seq<User>, photoLists: seq<seq<Photo>>, cs: seq<Comment>): map<Id, Stats>
    requires |photoLists| == |users|
  {
    map id | id in UserIds(users) + Authors(cs) :: Stats(PhotoCountOf(users, photoLists, id), CountAuthored(cs, id))
  }

  /** The statistics table in closed form, for the whole snapshot. */
  function ExpectedStats(users: seq<User>, photoLists: seq<seq<Photo>>): map<Id, Stats>
    requires |photoLists| == |users|
  {
    StatsTable(users, photoLists, AllComments(Flatten(photoLists)))
  }

  /** The sum of every entry's comment count. */
  ghost function SumCommentCounts(m: map<Id, Stats>): nat
    decreases |m|
  {
    if m == map[] then 0
    else
      var k :| k in m;
      m[k].commentCount + SumCommentCounts(m - {k})
  }

  /** `r` is `stats` with the comments `cs` tallied in: the authors of `cs` join the
      keys, every entry's comment count grows by the comments of `cs` it authored, and
      an entry the tally creates has no photos. */
  predicate Tallied(stats: map<Id, Stats>, cs: seq<Comment>, r: map<Id, Stats>)
  {
    && r.Keys == stats.Keys + Authors(cs)
    && forall id {:trigger TalliedEntry(stats, cs, r, id)} :: id in r ==> TalliedEntry(stats, cs, r, id)
  }

  /** Entry `id` of `r` is that of `stats` (or a zero entry) with the comments of `cs`
      by `id` added. */
  predicate TalliedEntry(stats: map<Id, Stats>, cs: seq<Comment>, r: map<Id, Stats>, id: Id)
  {
    && id in r
    && r[id].commentCount == (if id in stats then stats[id].commentCount else 0) + CountAuthored(cs, id)
    && r[id].photoCount == (if id in stats then stats[id].photoCount else 0)
  }

  /** Tallies the comments of one photo into the table: an author already present
      gets one more per comment, an absent author gets a fresh entry with no photos. */
  method TallyComments(stats: map<Id, Stats>, comments: seq<Comment>) returns (r: map<Id, Stats>)
    ensures Tallied(stats, comments, r)
  {
    r := stats;
    var k := 0;
    assert Authors(comments[..0]) == {};
    while k < |comments|
      invariant 0 <= k <= |comments|
      invariant Tallied(stats, comments[..k], r)
    {
      var commenterId := comments[k].authorId;
      ghost var before := r;
      if commenterId in r {
        r := r[commenterId := r[commenterId].(commentCount := r[commenterId].commentCount + 1)];
      } else {
        r := r[commenterId := Stats(0, 1)];
      }
      assert r == Bumped(before, commenterId);
      TallyOne(stats, comments, k, before);
      k := k + 1;
    }
    assert comments[..k] == comments;
  }

  /** Tallies the comments of every photo of one user's list, photo by photo. */
  method TallyPhotos(stats: map<Id, Stats>, photos: seq<Photo>) returns (r: map<Id, Stats>)
    ensures Tallied(stats, AllComments(photos), r)
  {
    r := stats;
    var j := 0;
    assert Authors(AllComments(photos[..0])) == {};
    while j < |photos|
      invariant 0 <= j <= |photos|
      invariant Tallied(stats, AllComments(photos[..j]), r)
    {
      ghost var before := r;
      r := TallyComments(r, photos[j].comments);
      TalliedAppend(stats, AllComments(photos[..j]), photos[j].comments, before, r);
      assert photos[..j + 1][..j] == photos[..j];
      j := j + 1;
    }
    assert photos[..j] == photos;
  }

  /** One zeroed entry per listed user (the `reduce` that seeds the table). */
  method SeedStats(users: seq<User>) returns (stats: map<Id, Stats>)
    ensures stats.Keys == UserIds(users)
    ensures forall id :: id in stats ==> stats[id] == Stats(0, 0)
  {
    stats := map[];
    var i := 0;
    while i < |users|
      invariant 0 <= i <= |users|
      invariant stats.Keys == UserIds(users[..i])
      invariant forall id :: id in stats ==> stats[id] == Stats(0, 0)
    {
      assert users[..i + 1] == users[..i] + [users[i]];
      stats := stats[users[i].id := Stats(0, 0)];
      i := i + 1;
    }
    assert users[..i] == users;
  }

  /** `fetchUserPhotosAndCalculateStats` once every photo list has arrived:
      `photoLists[i]` is the list fetched for `users[i]`. */
  method ComputeUserStats(users: seq<User>, photoLists: seq<seq<Photo>>) returns (stats: map<Id, Stats>)
    requires |photoLists| == |users|
    ensures stats.Keys == UserIds(users) + Authors(AllComments(Flatten(photoLists)))
    ensures forall id :: id in stats ==> stats[id].photoCount == PhotoCountOf(users, photoLists, id)
    ensures forall id :: id in stats ==>
      stats[id].commentCount == CountAuthored(AllComments(Flatten(photoLists)), id)
    ensures stats == ExpectedStats(users, photoLists)
  {
    stats := SeedStats(users);
    var i := 0;
    SeededTable(users, photoLists, stats);
    while i < |users|
      invariant 0 <= i <= |users|
      invariant stats == StatsTable(users, Scanned(photoLists, i), AllComments(Flatten(photoLists[..i])))
    {
      var userId := users[i].id;
      var photos := photoLists[i];
      ghost var cs := AllComments(Flatten(photoLists[..i]));
      CountPhotosStep(users, photoLists, i, cs, stats);
      stats := stats[userId := stats[userId].(photoCount := stats[userId].photoCount + |photos|)];
      ghost var before := stats;
      stats := TallyPhotos(stats, photos);
      ScanUserStep(users, photoLists, i, before, stats);
      i := i + 1;
    }
    assert Scanned(photoLists, i) == photoLists;
    assert photoLists[..i] == photoLists;
    ExpectedStatsEntries(users, photoLists, stats);
  }

  /** The entries of the closed form. */
  lemma ExpectedStatsEntries(users: seq<User>, photoLists: seq<seq<Photo>>, stats: map<Id, Stats>)
    requires |photoLists| == |users| && stats == ExpectedStats(users, photoLists)
    ensures stats.Keys == UserIds(users) + Authors(AllComments(Flatten(photoLists)))
    ensures forall id :: id in stats ==> stats[id].photoCount == PhotoCountOf(users, photoLists, id)
    ensures forall id :: id in stats ==>
      stats[id].commentCount == CountAuthored(AllComments(Flatten(photoLists)), id)
  {
  }

  /** Tallying the comments of user `i`'s photos, after crediting the user's photos,
      gives the table of the first `i + 1` lists. */
  lemma ScanUserStep(users: seq<User>, photoLists: seq<seq<Photo>>, i: nat, before: map<Id, Stats>, after: map<Id, Stats>)
    requires |photoLists| == |users| && i < |users|
    requires before == StatsTable(users, Scanned(photoLists, i + 1), AllComments(Flatten(photoLists[..i])))
    requires Tallied(before, AllComments(photoLists[i]), after)
    ensures after == StatsTable(users, Scanned(photoLists, i + 1), AllComments(Flatten(photoLists[..i + 1])))
  {
    var photos := photoLists[i];
    TallyExtends(users, Scanned(photoLists, i + 1), AllComments(Flatten(photoLists[..i])), AllComments(photos), before, after);
    assert photoLists[..i + 1] == photoLists[..i] + [photos];
    FlattenAppend(photoLists[..i], [photos]);
    assert Flatten([photos]) == photos;
    AllCommentsAppend(Flatten(photoLists[..i]), photos);
  }

  /** The view's `userStats` lookup: a user without an entry shows `null` counts. */
  function DisplayedCounts(userStats: map<Id, Stats>, id: Id): (b: Badge)
    ensures id in userStats ==>
      b == Badge(Some(userStats[id].photoCount), Some(userStats[id].commentCount))
    ensures id !in userStats ==> b == Badge(None, None)
  {
    if id in userStats then Badge(Some(userStats[id].photoCount), Some(userStats[id].commentCount))
    else Badge(None, None)
  }

  /** The component state of the user list: the fetched users and the published table. */
  class UserListView {
    var users: Option<seq<User>>
    var userStats: map<Id, Stats>

    constructor ()
      ensures users == None && userStats == map[]
    {
      users := None;
      userStats := map[];
    }

    method UsersLoaded(fetched: seq<User>)
      modifies this
      ensures users == Some(fetched) && userStats == old(userStats)
    {
      users := Some(fetched);
    }

    /** The outcome of all per-user photo fetches: `None` when any of them failed,
        in which case the previous table stays published. */
    method PhotosFetched(results: Option<seq<seq<Photo>>>)
      requires users.Some?
      requires results.Some? ==> |results.value| == |users.value|
      modifies this
      ensures users == old(users)
      ensures results.Some? ==> userStats == ExpectedStats(users.value, results.value)
      ensures results.None? ==> userStats == old(userStats)
    {
      if results.Some? {
        userStats := ComputeUserStats(users.value, results.value);
      }
    }
  }

  // ---------------------------------------------------------------------------
  // Properties of the closed form

  /** With distinct user ids, every listed user has an entry and its photo count
      is the length of the photo list fetched for that user. */
  lemma ListedUserPhotoCount(users: seq<User>, photoLists: seq<seq<Photo>>, i: nat)
    requires |photoLists| == |users| && UniqueUserIds(users) && i < |users|
    ensures users[i].id in ExpectedStats(users, photoLists)
    ensures ExpectedStats(users, photoLists)[users[i].id].photoCount == |photoLists[i]|
  {
    PhotoCountOfUnique(users, photoLists, i);
  }

  /** Once the table is published, a listed user's badges show the length of the
      user's photo list and the number of comments the user wrote; before that, or
      when every fetch failed, they show `null`. */
  lemma ListedBadge(users: seq<User>, photoLists: seq<seq<Photo>>, i: nat)
    requires |photoLists| == |users| && UniqueUserIds(users) && i < |users|
    ensures DisplayedCounts(ExpectedStats(users, photoLists), users[i].id)
         == Badge(Some(|photoLists[i]|), Some(CountAuthored(AllComments(Flatten(photoLists)), users[i].id)))
    ensures DisplayedCounts(map[], users[i].id) == Badge(None, None)
  {
    ListedUserPhotoCount(users, photoLists, i);
  }

  /** A comment author who is not a listed user gets an entry of their own,
      with no photos and at least one comment. */
  lemma SynthesizedEntry(users: seq<User>, photoLists: seq<seq<Photo>>, id: Id)
    requires |photoLists| == |users|
    requires id !in UserIds(users) && id in Authors(AllComments(Flatten(photoLists)))
    ensures id in ExpectedStats(users, photoLists)
    ensures ExpectedStats(users, photoLists)[id].photoCount == 0
    ensures ExpectedStats(users, photoLists)[id].commentCount >= 1
  {
    PhotoCountOfAbsent(users, photoLists, id);
    CountAuthoredPositive(AllComments(Flatten(photoLists)), id);
  }

  /** No comment is lost or counted twice: the comment counts of the table add up
      to the number of comments in the snapshot. */
  lemma CommentConservation(users: seq<User>, photoLists: seq<seq<Photo>>)
    requires |photoLists| == |users|
    ensures SumCommentCounts(ExpectedStats(users, photoLists)) == |AllComments(Flatten(photoLists))|
  {
    TableSum(users, photoLists, AllComments(Flatten(photoLists)));
  }

  lemma {:induction false} TableSum(users: seq<User>, photoLists: seq<seq<Photo>>, cs: seq<Comment>)
    requires |photoLists| == |users|
    ensures SumCommentCounts(StatsTable(users, photoLists, cs)) == |cs|
    decreases |cs|
  {
    if cs == [] {
      SumAllZero(StatsTable(users, photoLists, cs));
    } else {
      var init := cs[..|cs| - 1];
      var a := cs[|cs| - 1].authorId;
      var t0 := StatsTable(users, photoLists, init);
      TableSum(users, photoLists, init);
      var v := TableStep(users, photoLists, init, cs[|cs| - 1]);
      assert init + [cs[|cs| - 1]] == cs;
      SumUpdate(t0, a, v);
    }
  }

  /** One more comment changes the table at its author only: one more comment for a
      present entry, a fresh entry with one comment otherwise. */
  lemma TableStep(users: seq<User>, photoLists: seq<seq<Photo>>, cs: seq<Comment>, c: Comment)
    returns (v: Stats)
    requires |photoLists| == |users|
    ensures v.commentCount == (if c.authorId in StatsTable(users, photoLists, cs)
                               then StatsTable(users, photoLists, cs)[c.authorId].commentCount else 0) + 1
    ensures StatsTable(users, photoLists, cs + [c]) == StatsTable(users, photoLists, cs)[c.authorId := v]
  {
    var a := c.authorId;
    var t0 := StatsTable(users, photoLists, cs);
    assert Authors([c][..0]) == {};
    TallyOne(t0, [c], 0, t0);
    assert [c][..1] == [c];
    v := if a in t0 then t0[a].(commentCount := t0[a].commentCount + 1) else Stats(0, 1);
    TallyExtends(users, photoLists, cs, [c], t0, t0[a := v]);
  }

  /** The table does not depend on the order in which the users and their photo
      lists are supplied: exchanging two neighbouring users together with their lists
      leaves it unchanged, and exchanges of neighbours reach every order. */
  lemma OrderIndependent(ua: seq<User>, x: User, y: User, ub: seq<User>,
                         la: seq<seq<Photo>>, px: seq<Photo>, py: seq<Photo>, lb: seq<seq<Photo>>)
    requires |la| == |ua| && |lb| == |ub|
    ensures ExpectedStats(ua + [x, y] + ub, la + [px, py] + lb) == ExpectedStats(ua + [y, x] + ub, la + [py, px] + lb)
  {
    var users, swapped := ua + [x, y] + ub, ua + [y, x] + ub;
    var lists, swappedLists := la + [px, py] + lb, la + [py, px] + lb;
    var cs := AllComments(Flatten(lists));
    var swappedCs := AllComments(Flatten(swappedLists));
    FlattenSplit(la, px, py, lb);
    FlattenSplit(la, py, px, lb);
    CommentsSwap(AllComments(Flatten(la)), AllComments(px), AllComments(py), AllComments(Flatten(lb)));
    assert UserIds(users) == UserIds(swapped) by {
      assert forall u :: u in users <==> u in swapped;
    }
    var t, st := ExpectedStats(users, lists), ExpectedStats(swapped, swappedLists);
    assert t.Keys == st.Keys;
    forall id | id in t ensures t[id] == st[id] {
      PhotoCountOfSplit(ua, x, y, ub, la, px, py, lb, id);
      PhotoCountOfSplit(ua, y, x, ub, la, py, px, lb, id);
    }
  }

  // ---------------------------------------------------------------------------
  // Helpers

  /** Exchanging two neighbouring blocks of comments changes no author's count. */
  lemma CommentsSwap(a: seq<Comment>, cx: seq<Comment>, cy: seq<Comment>, b: seq<Comment>)
    ensures Authors(a + cx + cy + b) == Authors(a + cy + cx + b)
    ensures forall id :: CountAuthored(a + cx + cy + b, id) == CountAuthored(a + cy + cx + b, id)
  {
    AuthorsAppend(a + cx + cy, b);
    AuthorsAppend(a + cx, cy);
    AuthorsAppend(a, cx);
    AuthorsAppend(a + cy + cx, b);
    AuthorsAppend(a + cy, cx);
    AuthorsAppend(a, cy);
    forall id ensures CountAuthored(a + cx + cy + b, id) == CountAuthored(a + cy + cx + b, id) {
      CountAuthoredAppend(a + cx + cy, b, id);
      CountAuthoredAppend(a + cx, cy, id);
      CountAuthoredAppend(a, cx, id);
      CountAuthoredAppend(a + cy + cx, b, id);
      CountAuthoredAppend(a + cy, cx, id);
      CountAuthoredAppend(a, cy, id);
    }
  }

  /** The comments of a snapshot split around two neighbouring photo lists. */
  lemma FlattenSplit(la: seq<seq<Photo>>, px: seq<Photo>, py: seq<Photo>, lb: seq<seq<Photo>>)
    ensures AllComments(Flatten(la + [px, py] + lb))
         == AllComments(Flatten(la)) + AllComments(px) + AllComments(py) + AllComments(Flatten(lb))
  {
    FlattenAppend(la + [px, py], lb);
    FlattenAppend(la, [px, py]);
    FlattenPair(px, py);
    assert Flatten(la + [px, py] + lb) == Flatten(la) + px + py + Flatten(lb);
    AllCommentsAppend(Flatten(la) + px + py, Flatten(lb));
    AllCommentsAppend(Flatten(la) + px, py);
    AllCommentsAppend(Flatten(la), px);
  }

  lemma FlattenPair(px: seq<Photo>, py: seq<Photo>)
    ensures Flatten([px, py]) == px + py
  {
    assert [px, py][..1] == [px];
    assert [px][..0] == [];
    assert Flatten([px]) == px;
  }

  /** The photos credited to `id` split around two neighbouring users. */
  lemma PhotoCountOfSplit(ua: seq<User>, x: User, y: User, ub: seq<User>,
                          la: seq<seq<Photo>>, px: seq<Photo>, py: seq<Photo>, lb: seq<seq<Photo>>, id: Id)
    requires |la| == |ua| && |lb| == |ub|
    ensures PhotoCountOf(ua + [x, y] + ub, la + [px, py] + lb, id)
         == PhotoCountOf(ua, la, id) + (if x.id == id then |px| else 0) + (if y.id == id then |py| else 0)
            + PhotoCountOf(ub, lb, id)
  {
    PhotoCountOfAppend(ua + [x, y], la + [px, py], ub, lb, id);
    PhotoCountOfAppend(ua, la, [x, y], [px, py], id);
    assert [x, y][..1] == [x] && [px, py][..1] == [px];
    assert [x][..0] == [] && [px][..0] == [];
    assert PhotoCountOf([x], [px], id) == if x.id == id then |px| else 0;
  }

  lemma {:induction false} PhotoCountOfAppend(u1: seq<User>, l1: seq<seq<Photo>>, u2: seq<User>, l2: seq<seq<Photo>>, id: Id)
    requires |l1| == |u1| && |l2| == |u2|
    ensures PhotoCountOf(u1 + u2, l1 + l2, id) == PhotoCountOf(u1, l1, id) + PhotoCountOf(u2, l2, id)
    decreases |u2|
  {
    if u2 == [] {
      assert u1 + u2 == u1 && l1 + l2 == l1;
    } else {
      var n := |u2| - 1;
      assert (u1 + u2)[..|u1| + n] == u1 + u2[..n];
      assert (l1 + l2)[..|u1| + n] == l1 + l2[..n];
      PhotoCountOfAppend(u1, l1, u2[..n], l2[..n], id);
    }
  }

  /** The photo lists of the first `i` users, and empty lists for the users whose
      photos the scan has not reached yet. */
  function Scanned(photoLists: seq<seq<Photo>>, i: nat): (r: seq<seq<Photo>>)
    requires i <= |photoLists|
    ensures |r| == |photoLists|
  {
    photoLists[..i] + seq(|photoLists| - i, _ => [])
  }

  lemma ScannedStep(photoLists: seq<seq<Photo>>, i: nat)
    requires i < |photoLists|
    ensures Scanned(photoLists, i)[i] == []
    ensures Scanned(photoLists, i + 1) == Scanned(photoLists, i)[i := photoLists[i]]
  {
  }

  /** Before the scan every entry is zero: the seeded table is the table of the
      empty scan. */
  lemma SeededTable(users: seq<User>, photoLists: seq<seq<Photo>>, seeded: map<Id, Stats>)
    requires |photoLists| == |users|
    requires seeded.Keys == UserIds(users)
    requires forall id :: id in seeded ==> seeded[id] == Stats(0, 0)
    ensures seeded == StatsTable(users, Scanned(photoLists, 0), AllComments(Flatten(photoLists[..0])))
  {
    assert photoLists[..0] == [];
    var t := StatsTable(users, Scanned(photoLists, 0), []);
    assert Authors([]) == {};
    assert t.Keys == seeded.Keys;
    forall id | id in t ensures t[id] == seeded[id] {
      PhotoCountOfEmptyLists(users, Scanned(photoLists, 0), id);
    }
  }

  /** Crediting user `i` with the length of its photo list turns the table of the
      first `i` lists into the table of the first `i + 1`. */
  lemma CountPhotosStep(users: seq<User>, photoLists: seq<seq<Photo>>, i: nat, cs: seq<Comment>, t: map<Id, Stats>)
    requires |photoLists| == |users| && i < |users|
    requires t == StatsTable(users, Scanned(photoLists, i), cs)
    ensures users[i].id in t
    ensures t[users[i].id := t[users[i].id].(photoCount := t[users[i].id].photoCount + |photoLists[i]|)]
         == StatsTable(users, Scanned(photoLists, i + 1), cs)
  {
    assert users[i] in users;
    ScannedStep(photoLists, i);
    PhotoCountOfUpdate(users, Scanned(photoLists, i), i, photoLists[i]);
    var u := t[users[i].id := t[users[i].id].(photoCount := t[users[i].id].photoCount + |photoLists[i]|)];
    var target := StatsTable(users, Scanned(photoLists, i + 1), cs);
    assert u.Keys == target.Keys;
    forall id | id in u ensures u[id] == target[id] {
    }
  }

  lemma {:induction false} PhotoCountOfEmptyLists(users: seq<User>, photoLists: seq<seq<Photo>>, id: Id)
    requires |photoLists| == |users|
    requires forall k :: 0 <= k < |photoLists| ==> photoLists[k] == []
    ensures PhotoCountOf(users, photoLists, id) == 0
  {
    if users != [] {
      PhotoCountOfEmptyLists(users[..|users| - 1], photoLists[..|users| - 1], id);
    }
  }

  /** Replacing the photo list at position `i` moves the photo count of that
      position's user by the difference in length, and no other count. */
  lemma {:induction false} PhotoCountOfUpdate(users: seq<User>, photoLists: seq<seq<Photo>>, i: nat, x: seq<Photo>)
    requires |photoLists| == |users| && i < |users|
    ensures forall id :: PhotoCountOf(users, photoLists[i := x], id) + (if users[i].id == id then |photoLists[i]| else 0)
                      == PhotoCountOf(users, photoLists, id) + (if users[i].id == id then |x| else 0)
  {
    var n := |users| - 1;
    var updated := photoLists[i := x];
    if i == n {
      assert updated[..n] == photoLists[..n];
    } else {
      assert updated[..n] == photoLists[..n][i := x];
      PhotoCountOfUpdate(users[..n], photoLists[..n], i, x);
    }
  }

  /** A table extended by the tally of the comments `more` is the table of `cs + more`. */
  lemma TallyExtends(users: seq<User>, photoLists: seq<seq<Photo>>, cs: seq<Comment>, more: seq<Comment>,
                     t: map<Id, Stats>, r: map<Id, Stats>)
    requires |photoLists| == |users|
    requires t == StatsTable(users, photoLists, cs)
    requires Tallied(t, more, r)
    ensures r == StatsTable(users, photoLists, cs + more)
  {
    var target := StatsTable(users, photoLists, cs + more);
    AuthorsAppend(cs, more);
    assert r.Keys == target.Keys;
    forall id | id in r ensures r[id] == target[id] {
      assert TalliedEntry(t, more, r, id);
      CountAuthoredAppend(cs, more, id);
      if id !in t {
        PhotoCountOfAbsent(users, photoLists, id);
        CountAuthoredPositive(cs, id);
      }
    }
  }

  /** The table after one comment by `authorId`: one more comment for a present
      entry, a fresh entry with no photos and one comment otherwise. */
  function Bumped(r: map<Id, Stats>, authorId: Id): map<Id, Stats>
  {
    if authorId in r then r[authorId := r[authorId].(commentCount := r[authorId].commentCount + 1)]
    else r[authorId := Stats(0, 1)]
  }

  /** One comment of the tally extends the tally by that comment. */
  lemma TallyOne(stats: map<Id, Stats>, comments: seq<Comment>, k: nat, r: map<Id, Stats>)
    requires k < |comments| && Tallied(stats, comments[..k], r)
    ensures Tallied(stats, comments[..k + 1], Bumped(r, comments[k].authorId))
  {
    var cs := comments[..k];
    var c := comments[k];
    var bumped := Bumped(r, c.authorId);
    assert comments[..k + 1] == cs + [c];
    AuthorsAppend(cs, [c]);
    assert Authors([c]) == {c.authorId};
    forall id | id in bumped ensures TalliedEntry(stats, cs + [c], bumped, id) {
      if id in r {
        assert TalliedEntry(stats, cs, r, id);
      }
      TallyOneEntry(stats, cs, c, r, id);
    }
  }

  lemma TallyOneEntry(stats: map<Id, Stats>, cs: seq<Comment>, c: Comment, r: map<Id, Stats>, id: Id)
    requires r.Keys == stats.Keys + Authors(cs)
    requires id in r ==> TalliedEntry(stats, cs, r, id)
    requires id in Bumped(r, c.authorId)
    ensures TalliedEntry(stats, cs + [c], Bumped(r, c.authorId), id)
  {
    CountAuthoredSnoc(cs, c);
    if id !in r {
      CountAuthoredPositive(cs, id);
    }
  }

  /** One more comment counts for its author only. */
  lemma CountAuthoredSnoc(cs: seq<Comment>, c: Comment)
    ensures forall id :: CountAuthored(cs + [c], id) == CountAuthored(cs, id) + (if id == c.authorId then 1 else 0)
  {
    assert (cs + [c])[..|cs|] == cs;
  }

  /** Two tallies in a row are the tally of the concatenated comments. */
  lemma TalliedAppend(stats: map<Id, Stats>, a: seq<Comment>, b: seq<Comment>, mid: map<Id, Stats>, r: map<Id, Stats>)
    requires Tallied(stats, a, mid) && Tallied(mid, b, r)
    ensures Tallied(stats, a + b, r)
  {
    AuthorsAppend(a, b);
    forall id | id in r ensures TalliedEntry(stats, a + b, r, id) {
      CountAuthoredAppend(a, b, id);
      assert TalliedEntry(mid, b, r, id);
      if id in mid {
        assert TalliedEntry(stats, a, mid, id);
      } else {
        CountAuthoredPositive(a, id);
      }
    }
  }

  lemma AuthorsAppend(a: seq<Comment>, b: seq<Comment>)
    ensures Authors(a + b) == Authors(a) + Authors(b)
  {
    forall id | id in Authors(a + b) ensures id in Authors(a) + Authors(b) {
      var c :| c in a + b && c.authorId == id;
      assert c in a || c in b;
    }
  }

  lemma UserIdsPrefix(users: seq<User>, n: nat)
    requires n <= |users|
    ensures UserIds(users[..n]) <= UserIds(users)
  {
    forall id | id in UserIds(users[..n]) ensures id in UserIds(users) {
      var u :| u in users[..n] && u.id == id;
      assert u in users;
    }
  }

  lemma {:induction false} PhotoCountOfAbsent(users: seq<User>, photoLists: seq<seq<Photo>>, id: Id)
    requires |photoLists| == |users| && id !in UserIds(users)
    ensures PhotoCountOf(users, photoLists, id) == 0
  {
    if users != [] {
      var n := |users| - 1;
      UserIdsPrefix(users, n);
      PhotoCountOfAbsent(users[..n], photoLists[..n], id);
      assert users[n] in users;
    }
  }

  lemma {:induction false} PhotoCountOfUnique(users: seq<User>, photoLists: seq<seq<Photo>>, i: nat)
    requires |photoLists| == |users| && UniqueUserIds(users) && i < |users|
    ensures users[i].id in UserIds(users)
    ensures PhotoCountOf(users, photoLists, users[i].id) == |photoLists[i]|
  {
    var n := |users| - 1;
    var id := users[i].id;
    assert users[i] in users;
    if i == n {
      assert id !in UserIds(users[..n]);
      PhotoCountOfAbsent(users[..n], photoLists[..n], id);
    } else {
      PhotoCountOfUnique(users[..n], photoLists[..n], i);
    }
  }

  lemma {:induction false} SumRemove(m: map<Id, Stats>, k: Id)
    requires k in m
    ensures SumCommentCounts(m) == m[k].commentCount + SumCommentCounts(m - {k})
    decreases |m|
  {
    var j :| j in m && SumCommentCounts(m) == m[j].commentCount + SumCommentCounts(m - {j});
    if j != k {
      SumRemove(m - {j}, k);
      SumRemove(m - {k}, j);
      assert (m - {j}) - {k} == (m - {k}) - {j};
    }
  }

  lemma SumUpdate(m: map<Id, Stats>, k: Id, v: Stats)
    ensures SumCommentCounts(m[k := v]) + (if k in m then m[k].commentCount else 0)
         == SumCommentCounts(m) + v.commentCount
  {
    SumRemove(m[k := v], k);
    assert m[k := v] - {k} == m - {k};
    if k in m {
      SumRemove(m, k);
    } else {
      assert m - {k} == m;
    }
  }

  lemma {:induction false} SumAllZero(m: map<Id, Stats>)
    requires forall id :: id in m ==> m[id].commentCount == 0
    ensures SumCommentCounts(m) == 0
    decreases |m|
  {
    if m != map[] {
      var k :| k in m;
      SumRemove(m, k);
      SumAllZero(m - {k});
    }
  }
}
