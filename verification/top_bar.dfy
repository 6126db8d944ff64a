/** The top bar: a title derived from the current pathname and the current user,
    and the checkbox that drives the advanced-features flag. */
module TopBar {
  import opened Entities
  import PhotoShare

  const AppTitle: string := "Photosharing App"

  /** `t` occurs in `s` starting at position `i`. */
  predicate OccursAt(s: string, t: string, i: int)
  {
    0 <= i && i + |t| <= |s| && s[i..i + |t|] == t
  }

  /** `String.prototype.includes`: `t` occurs in `s` at some position. */
  function Contains(s: string, t: string): (r: bool)
    ensures r <==> exists i :: OccursAt(s, t, i)
    decreases |s|
  {
    if |t| > |s| then false
    else if s[..|t|] == t then assert OccursAt(s, t, 0); true
    else
      OccursShift(s, t);
      Contains(s[1..], t)
  }

  /** Where `t` does not start `s`, its occurrences in `s` are those in `s[1..]`,
      shifted by one. */
  lemma OccursShift(s: string, t: string)
    requires |t| <= |s| && s[..|t|] != t
    ensures (exists i :: OccursAt(s, t, i)) <==> (exists j :: OccursAt(s[1..], t, j))
  {
    if exists i :: OccursAt(s, t, i) {
      var i :| OccursAt(s, t, i);
      assert i != 0;
      assert s[1..][i - 1..i - 1 + |t|] == s[i..i + |t|];
      assert OccursAt(s[1..], t, i - 1);
    }
    if exists j :: OccursAt(s[1..], t, j) {
      var j :| OccursAt(s[1..], t, j);
      assert s[1..][j..j + |t|] == s[j + 1..j + 1 + |t|];
      assert OccursAt(s, t, j + 1);
    }
  }

  /** The "viewing what" prefix: photos pages win over comments pages, anything
      else has no prefix. */
  function ViewingPrefix(pathname: string): (prefix: string)
    ensures Contains(pathname, "/photos") ==> prefix == "Photos of "
    ensures !Contains(pathname, "/photos") && Contains(pathname, "/comments") ==> prefix == "Comments by "
    ensures !Contains(pathname, "/photos") && !Contains(pathname, "/comments") ==> prefix == ""
  {
    if Contains(pathname, "/photos") then "Photos of "
    else if Contains(pathname, "/comments") then "Comments by "
    else ""
  }

  /** The pathname of a route. */
  function Path(r: Route): string
  {
    match r
    case Home => "/"
    case UserListPage => "/users"
    case UserDetail(u) => "/users/" + u
    case Photos(u, None) => "/photos/" + u
    case Photos(u, Some(p)) => "/photos/" + u + "/" + p
    case Comments(u) => "/comments/" + u
  }

  /** Identifiers as the data source issues them: lower-case hexadecimal object ids. */
  predicate HexId(id: Id)
  {
    forall ch :: ch in id ==> ch in "0123456789abcdef"
  }

  predicate HexIds(r: Route)
  {
    match r
    case Home => true
    case UserListPage => true
    case UserDetail(u) => HexId(u)
    case Photos(u, p) => HexId(u) && (p.Some? ==> HexId(p.value))
    case Comments(u) => HexId(u)
  }

  /** The prefix of every route's pathname, for hexadecimal ids: photos routes read
      "Photos of ", the comments route "Comments by ", every other route nothing. */
  lemma RoutePrefix(r: Route)
    requires HexIds(r)
    ensures r.Photos? ==> ViewingPrefix(Path(r)) == "Photos of "
    ensures r.Comments? ==> ViewingPrefix(Path(r)) == "Comments by "
    ensures !r.Photos? && !r.Comments? ==> ViewingPrefix(Path(r)) == ""
  {
    var s := Path(r);
    match r {
      case Photos(u, p) =>
        assert s[..|"/photos"|] == "/photos";
      case Comments(u) =>
        assert s[..|"/comments"|] == "/comments";
        HexFree(u, 'p');
        NotContains(s, "/photos", 'p');
      case UserDetail(u) =>
        HexFree(u, 'p');
        HexFree(u, 'o');
        NotContains(s, "/photos", 'p');
        NotContains(s, "/comments", 'o');
      case UserListPage =>
        NotContains(s, "/photos", 'p');
        NotContains(s, "/comments", 'o');
      case Home =>
        NotContains(s, "/photos", 'p');
        NotContains(s, "/comments", 'o');
    }
  }

  /** A hexadecimal id holds no letter beyond `f`. */
  lemma HexFree(id: Id, ch: char)
    requires HexId(id) && ch !in "0123456789abcdef"
    ensures ch !in id
  {
  }

  /** A pattern holding a character that the string lacks does not occur in it. */
  lemma NotContains(s: string, t: string, ch: char)
    requires ch in t && ch !in s
    ensures !Contains(s, t)
  {
    var k :| 0 <= k < |t| && t[k] == ch;
  }

  /** The component state of the top bar. */
  class TopBarView {
    var thisUser: Option<User>
    var topBarContent: string
    var isViewingWhat: string

    constructor ()
      ensures thisUser == None && topBarContent == AppTitle && isViewingWhat == ""
    {
      thisUser := None;
      topBarContent := AppTitle;
      isViewingWhat := "";
    }

    /** The location changed: the prefix is derived anew. */
    method LocationChanged(pathname: string)
      modifies this
      ensures isViewingWhat == ViewingPrefix(pathname)
      ensures thisUser == old(thisUser) && topBarContent == old(topBarContent)
    {
      isViewingWhat := ViewingPrefix(pathname);
    }

    /** The fetch of the current user succeeded. */
    method UserLoaded(user: User)
      modifies this
      ensures thisUser == Some(user)
      ensures topBarContent == old(topBarContent) && isViewingWhat == old(isViewingWhat)
    {
      thisUser := Some(user);
    }

    /** The title effect: the application name on `/`, otherwise the prefix and the
        user's name once the user is known, otherwise the title as it was. */
    method UpdateTitle(pathname: string)
      modifies this
      ensures pathname == "/" ==> topBarContent == AppTitle
      ensures pathname != "/" && thisUser.Some? ==>
        topBarContent == isViewingWhat + thisUser.value.firstName + " " + thisUser.value.lastName
      ensures pathname != "/" && thisUser.None? ==> topBarContent == old(topBarContent)
      ensures thisUser == old(thisUser) && isViewingWhat == old(isViewingWhat)
    {
      if pathname == "/" {
        topBarContent := AppTitle;
      } else if thisUser.Some? {
        topBarContent := isViewingWhat + thisUser.value.firstName + " " + thisUser.value.lastName;
      }
    }
  }

  /** The checkbox handler: the flag takes exactly the checked value. */
  method CheckboxChanged(shell: PhotoShare.Shell, checked: bool)
    modifies shell
    ensures shell.advancedFeaturesEnabled == checked
    ensures shell.userId == old(shell.userId)
  {
    shell.SetAdvancedFeaturesEnabled(checked);
  }

  /** The title a freshly mounted top bar settles on after navigating to `r`, with
      the current user `user` fetched (or not) in between; the prefix effect runs
      before the title effect. */
  method TitleAfterNavigation(r: Route, user: Option<User>) returns (title: string)
    requires HexIds(r)
    ensures r == Home ==> title == AppTitle
    ensures r != Home && user.None? ==> title == AppTitle
    ensures r.Photos? && user.Some? ==> title == "Photos of " + user.value.firstName + " " + user.value.lastName
    ensures r.Comments? && user.Some? ==> title == "Comments by " + user.value.firstName + " " + user.value.lastName
    ensures (r.UserDetail? || r.UserListPage?) && user.Some? ==>
      title == user.value.firstName + " " + user.value.lastName
  {
    var bar := new TopBarView();
    bar.LocationChanged(Path(r));
    if user.Some? {
      bar.UserLoaded(user.value);
    }
    bar.UpdateTitle(Path(r));
    RoutePrefix(r);
    title := bar.topBarContent;
  }
}
