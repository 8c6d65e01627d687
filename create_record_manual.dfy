/**
 * Manual account entry: five text fields, an editable list of phone
 * numbers, and the validation that gates the create request.
 */
module CreateRecordManual {
  import opened Wrappers

  datatype AccountForm = AccountForm(
    accountNumber: string, accountName: string, firstName: string, lastName: string, address: string)

  const EmptyForm := AccountForm("", "", "", "", "")

  datatype AccountField = AccountNumber | AccountName | FirstName | LastName | Address

  function FieldValue(form: AccountForm, field: AccountField): string {
    match field
    case AccountNumber => form.accountNumber
    case AccountName => form.accountName
    case FirstName => form.firstName
    case LastName => form.lastName
    case Address => form.address
  }

  /** `{...prev, [field]: value}`: only the named field changes. */
  function WithField(form: AccountForm, field: AccountField, value: string): (r: AccountForm)
    ensures FieldValue(r, field) == value
    ensures forall g :: g != field ==> FieldValue(r, g) == FieldValue(form, g)
  {
    match field
    case AccountNumber => form.(accountNumber := value)
    case AccountName => form.(accountName := value)
    case FirstName => form.(firstName := value)
    case LastName => form.(lastName := value)
    case Address => form.(address := value)
  }

  /** `phones.filter((_, i) => i !== index)`: the element at `index` goes, the rest stay in order. */
  function RemoveAt(phones: seq<string>, index: int): (r: seq<string>)
    ensures 0 <= index < |phones| ==> r == phones[..index] + phones[index + 1..]
    ensures !(0 <= index < |phones|) ==> r == phones
  {
    if |phones| == 0 then []
    else
      assert phones == [phones[0]] + phones[1..];
      (if index == 0 then [] else [phones[0]]) + RemoveAt(phones[1..], index - 1)
  }

  /** Removing the entry Add Phone Number just appended gives the list back. */
  lemma AddThenRemove(phones: seq<string>)
    ensures RemoveAt(phones + [""], |phones|) == phones
  {
    assert (phones + [""])[..|phones|] == phones;
  }

  /** `phones.some((num) => !num)`. */
  predicate HasEmptyPhone(phones: seq<string>)
    ensures HasEmptyPhone(phones) <==> exists i :: 0 <= i < |phones| && phones[i] == ""
  {
    |phones| > 0 && (phones[0] == "" || HasEmptyPhone(phones[1..]))
  }

  /** The submit check: every field filled and no phone entry blank. */
  predicate IsComplete(form: AccountForm, phones: seq<string>) {
    form.accountNumber != "" && form.accountName != "" && form.firstName != "" &&
    form.lastName != "" && form.address != "" && !HasEmptyPhone(phones)
  }

  /** Submission is refused exactly when a field is empty or some phone entry is. */
  lemma RefusedIff(form: AccountForm, phones: seq<string>)
    ensures !IsComplete(form, phones) <==>
      (exists field :: FieldValue(form, field) == "") || (exists i :: 0 <= i < |phones| && phones[i] == "")
  {
    if exists field :: FieldValue(form, field) == "" {
      var field :| FieldValue(form, field) == "";
      assert !IsComplete(form, phones);
    }
    if form.accountNumber == "" { assert FieldValue(form, AccountNumber) == ""; }
    if form.accountName == "" { assert FieldValue(form, AccountName) == ""; }
    if form.firstName == "" { assert FieldValue(form, FirstName) == ""; }
    if form.lastName == "" { assert FieldValue(form, LastName) == ""; }
    if form.address == "" { assert FieldValue(form, Address) == ""; }
  }

  /** A filled form with no phone numbers at all passes, whatever the message text says. */
  lemma EmptyPhoneListPasses(form: AccountForm)
    requires forall field :: FieldValue(form, field) != ""
    ensures IsComplete(form, [])
  {
    RefusedIff(form, []);
  }

  /** The create request: the form's fields and the phone list. */
  datatype RecordRequest = RecordRequest(form: AccountForm, phoneNumbers: seq<string>)

  /** The message box's title. */
  datatype Notice = ValidationError | Saved | SaveFailed

  class ManualRecordPage {
    var form: AccountForm
    var phoneNumbers: seq<string>
    var message: Option<Notice>

    constructor ()
      ensures form == EmptyForm && phoneNumbers == [""] && message == None
    {
      form, phoneNumbers, message := EmptyForm, [""], None;
    }

    method AddPhoneNumber()
      modifies this
      ensures phoneNumbers == old(phoneNumbers) + [""] && |phoneNumbers| == |old(phoneNumbers)| + 1
      ensures form == old(form) && message == old(message)
    {
      phoneNumbers := phoneNumbers + [""];
    }

    /** Copies the list, overwrites entry `index` in the copy, and installs the copy. */
    method UpdatePhoneNumber(index: nat, value: string)
      requires index < |phoneNumbers|
      modifies this
      ensures |phoneNumbers| == |old(phoneNumbers)| && phoneNumbers[index] == value
      ensures forall i :: 0 <= i < |phoneNumbers| && i != index ==> phoneNumbers[i] == old(phoneNumbers)[i]
      ensures form == old(form) && message == old(message)
    {
      var numbers := phoneNumbers;
      var updated := new string[|numbers|](i requires 0 <= i < |numbers| => numbers[i]);
      updated[index] := value;
      phoneNumbers := updated[..];
    }

    method RemovePhoneNumber(index: int)
      modifies this
      ensures phoneNumbers == RemoveAt(old(phoneNumbers), index)
      ensures form == old(form) && message == old(message)
    {
      phoneNumbers := RemoveAt(phoneNumbers, index);
    }

    method HandleInputChange(field: AccountField, value: string)
      modifies this
      ensures form == WithField(old(form), field, value)
      ensures phoneNumbers == old(phoneNumbers) && message == old(message)
    {
      form := WithField(form, field, value);
    }

    /**
     * Submit: an incomplete form shows the validation error and sends
     * nothing; otherwise the request goes out and `saved` is its outcome.
     * The form is kept in every case.
     */
    method HandleSubmit(saved: bool) returns (request: Option<RecordRequest>)
      modifies this
      ensures request.None? <==> !IsComplete(old(form), old(phoneNumbers))
      ensures request.Some? ==> request.value == RecordRequest(old(form), old(phoneNumbers))
      ensures message == Some(if request.None? then ValidationError else if saved then Saved else SaveFailed)
      ensures form == old(form) && phoneNumbers == old(phoneNumbers)
    {
      if !IsComplete(form, phoneNumbers) {
        message := Some(ValidationError);
        return None;
      }
      request := Some(RecordRequest(form, phoneNumbers));
      message := Some(if saved then Saved else SaveFailed);
    }
  }
}
