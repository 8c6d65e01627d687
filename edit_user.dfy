/**
 * User editing: search by username, load the user into the form with the
 * password blanked, edit fields, and send the form back.
 */
module EditUser {
  import opened Wrappers
  import opened UserForms

  /** The form before any search: the profile fields and the password, all `""`. */
  function InitialForm(): (r: Form)
    ensures r.Keys == (set f | f in ProfileFields) + {Password}
    ensures forall f :: Get(r, f) == ""
  {
    BlankForm(ProfileFields + [Password])
  }

  /** The form a found user loads: the user's fields, the password forced to `""`. */
  function LoadedForm(user: Form): (r: Form)
    ensures Get(r, Password) == ""
    ensures forall f :: f != Password ==> Get(r, f) == Get(user, f)
    ensures r.Keys == user.Keys + {Password}
  {
    Set(user, Password, "")
  }

  class EditUserPage {
    var usernameSearch: string
    var form: Form
    var isEditing: bool
    var message: Option<Severity>

    constructor ()
      ensures usernameSearch == "" && form == InitialForm() && !isEditing && message == None
    {
      usernameSearch, form, isEditing, message := "", InitialForm(), false, None;
    }

    method SetUsernameSearch(text: string)
      modifies this
      ensures usernameSearch == text
      ensures form == old(form) && isEditing == old(isEditing) && message == old(message)
    {
      usernameSearch := text;
    }

    /**
     * Search: an empty box sends nothing. Otherwise the query goes out;
     * `found` is the user it returned, or None on a failed lookup.
     */
    method HandleSearch(found: Option<Form>) returns (query: Option<string>)
      modifies this
      ensures usernameSearch == old(usernameSearch)
      ensures old(usernameSearch) == "" ==>
        query == None && form == old(form) && isEditing == old(isEditing) && message == Some(Critical)
      ensures old(usernameSearch) != "" ==> query == Some(old(usernameSearch))
      ensures old(usernameSearch) != "" && found.Some? ==>
        form == LoadedForm(found.value) && isEditing && message == Some(Positive)
      ensures old(usernameSearch) != "" && found.None? ==>
        form == old(form) && !isEditing && message == Some(Negative)
    {
      if usernameSearch == "" {
        message := Some(Critical);
        return None;
      }
      query := Some(usernameSearch);
      if found.Some? {
        form := LoadedForm(found.value);
        isEditing := true;
        message := Some(Positive);
      } else {
        message := Some(Negative);
        isEditing := false;
      }
    }

    method HandleInputChange(field: Field, value: string)
      modifies this
      ensures form == Set(old(form), field, value)
      ensures usernameSearch == old(usernameSearch) && isEditing == old(isEditing) && message == old(message)
    {
      form := Set(form, field, value);
    }

    /**
     * The role code as the combo box's template literal writes it: an
     * absent `role_id` is written as "undefined".
     */
    function ShownCode(): (r: string)
      reads this
      ensures RoleId in form ==> r == form[RoleId]
      ensures RoleId !in form ==> r == "undefined"
    {
      if RoleId in form then form[RoleId] else "undefined"
    }

    /** The role combo box shows the code with its label. */
    function RoleEntry(): string
      reads this
    {
      RoleOption(ShownCode())
    }

    /** Choosing a role entry stores its code. */
    method HandleRoleChange(entry: string)
      modifies this
      ensures form == Set(old(form), RoleId, ParseRole(entry))
      ensures usernameSearch == old(usernameSearch) && isEditing == old(isEditing) && message == old(message)
    {
      HandleInputChange(RoleId, ParseRole(entry));
    }

    /** Update User: sends the form as it is; the form stays the same on either outcome. */
    method HandleSubmit(updated: bool) returns (request: Form)
      modifies this
      ensures request == old(form) && form == old(form)
      ensures usernameSearch == old(usernameSearch) && isEditing == old(isEditing)
      ensures message == Some(if updated then Positive else Negative)
    {
      request := form;
      message := Some(if updated then Positive else Negative);
    }
  }

  /**
   * Re-choosing the role entry the box shows keeps the role code (for codes
   * without spaces); a form without `role_id` gets the text "undefined".
   */
  method ReselectShownRole(page: EditUserPage)
    requires forall k :: 0 <= k < |page.ShownCode()| ==> page.ShownCode()[k] != ' '
    modifies page
    ensures RoleId in old(page.form) ==> forall f :: Get(page.form, f) == Get(old(page.form), f)
    ensures RoleId !in old(page.form) ==> page.form == old(page.form)[RoleId := "undefined"]
  {
    ghost var code := page.ShownCode();
    page.HandleRoleChange(page.RoleEntry());
    ParseRoleOption(code);
  }
}
