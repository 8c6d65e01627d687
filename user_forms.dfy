/**
 * What the user-administration pages share: a user form as a JavaScript
 * object of text fields, the role code and its label, and the message
 * strip's designs.
 */
module UserForms {
  import opened Text

  datatype Field =
    | Username | Email | RoleId | FirstName | MiddleName | LastName
    | ContactNumber | EmergencyContactNum | Birthdate | AddressLine1 | AddressLine2 | Password

  /** A form object: the fields it has and their text. */
  type Form = map<Field, string>

  /** A field's text; an absent field reads as `""` (it is falsy, like an empty one). */
  function Get(form: Form, field: Field): string {
    if field in form then form[field] else ""
  }

  /** `{...prev, [field]: value}`: the named field takes `value`, every other field keeps its text. */
  function Set(form: Form, field: Field, value: string): (r: Form)
    ensures Get(r, field) == value
    ensures forall g :: g != field ==> Get(r, g) == Get(form, g)
    ensures r.Keys == form.Keys + {field}
  {
    form[field := value]
  }

  /** The profile fields both the create and the edit form start with. */
  const ProfileFields: seq<Field> :=
    [Username, Email, RoleId, FirstName, MiddleName, LastName,
     ContactNumber, EmergencyContactNum, Birthdate, AddressLine1, AddressLine2]

  /** A form holding exactly `fields`, each `""`. */
  function BlankForm(fields: seq<Field>): (r: Form)
    ensures r.Keys == set f | f in fields
    ensures forall f :: Get(r, f) == ""
  {
    map f | f in fields :: ""
  }

  /** The message strip's design. */
  datatype Severity = Information | Critical | Positive | Negative

  const RoleSeparator := " - "

  /** The role name shown for a role code. */
  function RoleLabel(roleId: string): (r: string)
    ensures r == "Admin" <==> roleId == "1"
    ensures r == "User" <==> roleId == "2"
    ensures r == "Viewer" <==> roleId != "1" && roleId != "2"
  {
    if roleId == "1" then "Admin" else if roleId == "2" then "User" else "Viewer"
  }

  /** A role combo-box entry: code, separator, label. */
  function RoleOption(roleId: string): string {
    roleId + RoleSeparator + RoleLabel(roleId)
  }

  /** `text.split(" - ")[0]`: the role code of a chosen entry. */
  function ParseRole(text: string): string {
    BeforeFirst(text, RoleSeparator)
  }

  /** Parsing a role entry gives back its code, for every code without a space. */
  lemma ParseRoleOption(roleId: string)
    requires forall k :: 0 <= k < |roleId| ==> roleId[k] != ' '
    ensures ParseRole(RoleOption(roleId)) == roleId
  {
    ParseEntry(roleId, RoleLabel(roleId));
  }

  /** The three entries offered: "1 - Admin", "2 - User", "3 - Viewer". */
  lemma ParseRoleChoices()
    ensures ParseRole("1 - Admin") == "1"
    ensures ParseRole("2 - User") == "2"
    ensures ParseRole("3 - Viewer") == "3"
  {
    ParseEntry("1", "Admin");
    ParseEntry("2", "User");
    ParseEntry("3", "Viewer");
  }

  /** Any entry whose code has no space parses to that code, whatever its name. */
  lemma ParseEntry(roleId: string, name: string)
    requires forall k :: 0 <= k < |roleId| ==> roleId[k] != ' '
    ensures ParseRole(roleId + RoleSeparator + name) == roleId
  {
    BeforeFirstOfPrefix(roleId, RoleSeparator, name);
  }
}
