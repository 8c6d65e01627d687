/**
 * User creation: the form, the e-mail pattern, the required-field check,
 * and the submitting flag around the create request.
 */
module CreateUser {
  import opened Wrappers
  import opened Text
  import opened UserForms

  /** Not `\s` and not `@`: the character class `[^\s@]`. */
  predicate IsPlain(c: char) {
    !IsWhitespace(c) && c != '@'
  }

  predicate AllPlain(t: string) {
    forall k :: 0 <= k < |t| ==> IsPlain(t[k])
  }

  /**
   * `s` read as `^[^\s@]+@[^\s@]+\.[^\s@]+$` with the `@` at `i` and the
   * literal dot at `j`.
   */
  predicate EmailSplit(s: string, i: int, j: int) {
    0 < i && i + 1 < j && j + 1 < |s| && s[i] == '@' && s[j] == '.' &&
    AllPlain(s[..i]) && AllPlain(s[i + 1..j]) && AllPlain(s[j + 1..])
  }

  /** The language of the e-mail regular expression. */
  ghost predicate MatchesEmailPattern(s: string) {
    exists i, j :: EmailSplit(s, i, j)
  }

  /** Index of the first `c` in `s`, or `|s|` when there is none. */
  function IndexOf(s: string, c: char): (r: nat)
    ensures r <= |s|
    ensures r < |s| ==> s[r] == c
    ensures forall k :: 0 <= k < r ==> s[k] != c
  {
    if |s| == 0 then 0 else if s[0] == c then 0 else 1 + IndexOf(s[1..], c)
  }

  /**
   * `isValidEmail`, as one scan: no white space, a first `@` that is not
   * the first character, no `@` after it, and a `.` in the domain that is
   * neither its first nor its last character.
   */
  predicate IsValidEmail(s: string) {
    var at := IndexOf(s, '@');
    (forall k :: 0 <= k < |s| ==> !IsWhitespace(s[k])) &&
    0 < at && at + 3 <= |s| && '@' !in s[at + 1..] && '.' in s[at + 2..|s| - 1]
  }

  /** The scan accepts exactly the strings the regular expression matches. */
  lemma EmailIff(s: string)
    ensures IsValidEmail(s) <==> MatchesEmailPattern(s)
  {
    var at := IndexOf(s, '@');
    if IsValidEmail(s) {
      var m :| 0 <= m < |s[at + 2..|s| - 1]| && s[at + 2..|s| - 1][m] == '.';
      var j := at + 2 + m;
      assert s[j] == '.';
      forall k | 0 <= k < |s| && k != at ensures IsPlain(s[k]) {
        if k > at {
          assert s[k] == s[at + 1..][k - at - 1];
        }
      }
      assert AllPlain(s[..at]);
      assert AllPlain(s[at + 1..j]);
      assert AllPlain(s[j + 1..]);
      assert EmailSplit(s, at, j);
    }
    if MatchesEmailPattern(s) {
      var i, j :| EmailSplit(s, i, j);
      forall k | 0 <= k < |s| && k != i ensures IsPlain(s[k]) || k == j {
        if k < i {
          assert s[k] == s[..i][k];
        } else if i < k < j {
          assert s[k] == s[i + 1..j][k - i - 1];
        } else if k > j {
          assert s[k] == s[j + 1..][k - j - 1];
        }
      }
      assert at == i;
      assert s[at + 2..|s| - 1][j - at - 2] == '.';
    }
  }

  /** Which message validation ends with. */
  datatype Verdict = Valid | MissingRequired | InvalidEmail

  /** The fields the form marks with `*`; username, middle name and contact numbers are optional. */
  const RequiredFields: seq<Field> := [Email, RoleId, FirstName, LastName, Birthdate, AddressLine1]

  /** `validateForm`: the required-field check comes first, then the e-mail pattern. */
  function ValidateForm(form: Form): (r: Verdict)
    ensures r == MissingRequired <==> exists f :: f in RequiredFields && Get(form, f) == ""
    ensures r == InvalidEmail <==>
      (forall f :: f in RequiredFields ==> Get(form, f) != "") && !MatchesEmailPattern(Get(form, Email))
    ensures r == Valid <==>
      (forall f :: f in RequiredFields ==> Get(form, f) != "") && MatchesEmailPattern(Get(form, Email))
  {
    EmailIff(Get(form, Email));
    if Get(form, Email) == "" || Get(form, RoleId) == "" || Get(form, FirstName) == "" ||
       Get(form, LastName) == "" || Get(form, Birthdate) == "" || Get(form, AddressLine1) == ""
    then MissingRequired
    else if !IsValidEmail(Get(form, Email)) then InvalidEmail
    else Valid
  }

  /** Editing an optional field never changes the verdict. */
  lemma OptionalFieldsIgnored(form: Form, field: Field, value: string)
    requires field !in RequiredFields
    ensures ValidateForm(Set(form, field, value)) == ValidateForm(form)
  {
    var edited := Set(form, field, value);
    assert forall f :: f in RequiredFields ==> Get(edited, f) == Get(form, f);
  }

  /** The form a fresh page, and a successful submission, leave behind. */
  function EmptyForm(): (r: Form)
    ensures r.Keys == set f | f in ProfileFields
    ensures forall f :: Get(r, f) == ""
    ensures ValidateForm(r) == MissingRequired
  {
    var r := BlankForm(ProfileFields);
    assert Email in RequiredFields && Get(r, Email) == "";
    r
  }

  class CreateUserPage {
    var form: Form
    var isSubmitting: bool
    var message: Option<Severity>

    constructor ()
      ensures form == EmptyForm() && !isSubmitting && message == None
    {
      form, isSubmitting, message := EmptyForm(), false, None;
    }

    method HandleInputChange(field: Field, value: string)
      modifies this
      ensures form == Set(old(form), field, value)
      ensures isSubmitting == old(isSubmitting) && message == old(message)
    {
      form := Set(form, field, value);
    }

    /** Choosing an entry such as "2 - User" stores its code. */
    method HandleRoleChange(entry: string)
      modifies this
      ensures form == Set(old(form), RoleId, ParseRole(entry))
      ensures isSubmitting == old(isSubmitting) && message == old(message)
    {
      HandleInputChange(RoleId, ParseRole(entry));
    }

    /**
     * The first half of Submit: an invalid form shows a critical message and
     * starts no request; a valid one raises the submitting flag and sends
     * the form.
     */
    method BeginSubmit() returns (request: Option<Form>)
      modifies this
      ensures request.Some? <==> ValidateForm(old(form)) == Valid
      ensures request.Some? ==> request.value == old(form) && isSubmitting && message == old(message)
      ensures request.None? ==> isSubmitting == old(isSubmitting) && message == Some(Critical)
      ensures form == old(form)
    {
      if ValidateForm(form) != Valid {
        message := Some(Critical);
        return None;
      }
      isSubmitting := true;
      request := Some(form);
    }

    /**
     * The second half, when the request settles: success empties every
     * field, failure keeps the form; the flag drops on both.
     */
    method FinishSubmit(created: bool)
      modifies this
      ensures !isSubmitting
      ensures form == if created then EmptyForm() else old(form)
      ensures message == Some(if created then Positive else Negative)
    {
      if created {
        message := Some(Positive);
        form := EmptyForm();
      } else {
        message := Some(Negative);
      }
      isSubmitting := false;
    }
  }
}
