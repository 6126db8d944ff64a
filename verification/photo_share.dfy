/** The application shell: the current user and the process-wide advanced-features
    flag, both written by the route wrappers' effects. */
module PhotoShare {
  import opened Entities

  class Shell {
    var userId: Option<Id>
    var advancedFeaturesEnabled: bool

    /** The shell starts with no current user and advanced features off. */
    constructor ()
      ensures userId == None && !advancedFeaturesEnabled
    {
      userId := None;
      advancedFeaturesEnabled := false;
    }

    /** The effect of `/users/:userId`: records the user, leaves the flag alone. */
    method UserDetailRouteEffect(routeUserId: Id)
      modifies this
      ensures userId == Some(routeUserId)
      ensures advancedFeaturesEnabled == old(advancedFeaturesEnabled)
    {
      userId := Some(routeUserId);
    }

    /** The effect of `/photos/:userId[/:photoId]`: records the user and forces the
        flag on when a photo id is routed. */
    method UserPhotosRouteEffect(routeUserId: Id, photoId: Option<Id>)
      modifies this
      ensures userId == Some(routeUserId)
      ensures photoId.Some? ==> advancedFeaturesEnabled
      ensures photoId.None? ==> advancedFeaturesEnabled == old(advancedFeaturesEnabled)
    {
      userId := Some(routeUserId);
      if photoId.Some? {
        advancedFeaturesEnabled := true;
      }
    }

    /** The effect of `/comments/:userId`: records the user and forces the flag on. */
    method UserCommentsRouteEffect(routeUserId: Id)
      modifies this
      ensures userId == Some(routeUserId)
      ensures advancedFeaturesEnabled
    {
      userId := Some(routeUserId);
      advancedFeaturesEnabled := true;
    }

    /** The flag's setter, handed to the top bar and the route wrappers. */
    method SetAdvancedFeaturesEnabled(enabled: bool)
      modifies this
      ensures advancedFeaturesEnabled == enabled
      ensures userId == old(userId)
    {
      advancedFeaturesEnabled := enabled;
    }
  }
}
