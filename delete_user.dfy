/**
 * User deletion: search by username, show the user's details, confirm in a
 * dialog, and delete.
 */
module DeleteUser {
  import opened Wrappers
  import opened UserForms

  class DeleteUserPage {
    var username: string
    var userDetails: Option<Form>
    var showConfirmDialog: bool
    var message: Option<Severity>

    constructor ()
      ensures username == "" && userDetails == None && !showConfirmDialog && message == None
    {
      username, userDetails, showConfirmDialog, message := "", None, false, None;
    }

    method SetUsername(text: string)
      modifies this
      ensures username == text
      ensures userDetails == old(userDetails) && showConfirmDialog == old(showConfirmDialog) && message == old(message)
    {
      username := text;
    }

    /**
     * Search: an empty box only shows a message. Otherwise the query goes
     * out; `found` is the user it returned, or None on a failed lookup.
     */
    method HandleSearch(found: Option<Form>) returns (query: Option<string>)
      modifies this
      ensures username == old(username) && showConfirmDialog == old(showConfirmDialog)
      ensures old(username) == "" ==> query == None && userDetails == old(userDetails) && message == Some(Critical)
      ensures old(username) != "" ==>
        query == Some(old(username)) && userDetails == found &&
        message == Some(if found.Some? then Positive else Negative)
    {
      if username == "" {
        message := Some(Critical);
        return None;
      }
      query := Some(username);
      userDetails := found;
      message := Some(if found.Some? then Positive else Negative);
    }

    /** The Delete User button (shown with the details) opens the dialog. */
    method OpenConfirmDialog()
      modifies this
      ensures showConfirmDialog
      ensures username == old(username) && userDetails == old(userDetails) && message == old(message)
    {
      showConfirmDialog := true;
    }

    /** Cancel, or the dialog closing by itself. */
    method CloseConfirmDialog()
      modifies this
      ensures !showConfirmDialog
      ensures username == old(username) && userDetails == old(userDetails) && message == old(message)
    {
      showConfirmDialog := false;
    }

    /**
     * Delete in the dialog: the request names the username in the search
     * box (not the one in the details). Success clears box and details; the
     * dialog closes on both outcomes.
     */
    method HandleDelete(deleted: bool) returns (request: string)
      modifies this
      ensures request == old(username)
      ensures !showConfirmDialog
      ensures deleted ==> username == "" && userDetails == None && message == Some(Positive)
      ensures !deleted ==> username == old(username) && userDetails == old(userDetails) && message == Some(Negative)
    {
      request := username;
      if deleted {
        message := Some(Positive);
        username := "";
        userDetails := None;
      } else {
        message := Some(Negative);
      }
      showConfirmDialog := false;
    }

    /** The role line of the details panel, when details are shown. */
    function RoleShown(): (r: Option<string>)
      reads this
      ensures r.Some? <==> userDetails.Some?
      ensures r.Some? ==> r.value in {"Admin", "User", "Viewer"}
      ensures r.Some? ==> r.value == RoleLabel(Get(userDetails.value, RoleId))
    {
      if userDetails.Some? then Some(RoleLabel(Get(userDetails.value, RoleId))) else None
    }
  }

  /** Retyping the box after a search makes Delete target the retyped name while the old details stay shown. */
  method DeleteTargetsSearchBox(page: DeleteUserPage, searched: string, found: Form, retyped: string)
    returns (request: string)
    requires searched != ""
    modifies page
    ensures page.userDetails == Some(found) && request == retyped
  {
    page.SetUsername(searched);
    var _ := page.HandleSearch(Some(found));
    page.SetUsername(retyped);
    page.OpenConfirmDialog();
    request := page.HandleDelete(false);
  }
}
