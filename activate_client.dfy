/**
 * Account activation: the loaded account records, the selected account
 * numbers, the organisation filter, and the activate/deactivate requests.
 */
module ActivateClient {
  import opened Wrappers
  import opened Text
  import opened Seqs

  /** One row of the activation records. */
  datatype AccountRecord = AccountRecord(
    accountNumber: string,
    accountName: Option<string>,
    firstName: string,
    lastName: string,
    emergencyContactEmail: Option<string>,
    activationCode: Option<string>,
    status: Option<string>)

  /** One entry of the activation request: the account and who activated it. */
  datatype Activation = Activation(accountNumber: string, activatedBy: Option<string>)

  /** The deactivation request body. */
  datatype Deactivation = Deactivation(accountNumbers: seq<string>, deactivatedBy: Option<string>)

  /** A row click: drop the number when it is selected, otherwise append it. */
  function Toggle(selected: seq<string>, n: string): (r: seq<string>)
    ensures n in selected ==>
      n !in r && IsSubseq(r, selected) &&
      forall x :: x != n ==> multiset(r)[x] == multiset(selected)[x]
    ensures n !in selected ==> r == selected + [n]
  {
    if n in selected then Filter(selected, x => x != n) else selected + [n]
  }

  /** Row clicks never introduce a duplicate into a duplicate-free selection. */
  lemma ToggleKeepsNoDup(selected: seq<string>, n: string)
    requires NoDup(selected)
    ensures NoDup(Toggle(selected, n))
  {
    if n in selected {
      FilterKeepsNoDup(selected, x => x != n);
    }
  }

  /** Two clicks on the same row restore the selected set; from an unselected row, the very sequence. */
  lemma ToggleTwice(selected: seq<string>, n: string)
    ensures forall x :: x in Toggle(Toggle(selected, n), n) <==> x in selected
    ensures n !in selected ==> Toggle(Toggle(selected, n), n) == selected
  {
    var once := Toggle(selected, n);
    var twice := Toggle(once, n);
    if n !in selected {
      FilterAppend(selected, [n], x => x != n);
      FilterKeepsAll(selected, x => x != n);
    } else {
      forall x ensures x in twice <==> x in selected {
        assert x in once <==> multiset(once)[x] > 0;
        assert x in selected <==> multiset(selected)[x] > 0;
      }
    }
  }

  /** The organisation filter: the record has an account name whose lower case includes the lower-cased filter. */
  predicate MatchesOrganisation(r: AccountRecord, filterOrg: string) {
    r.accountName.Some? && Includes(ToLower(r.accountName.value), ToLower(filterOrg))
  }

  /** The records the table shows, in load order. */
  function FilteredRecords(records: seq<AccountRecord>, filterOrg: string): (r: seq<AccountRecord>)
    ensures forall x :: x in r <==> x in records && MatchesOrganisation(x, filterOrg)
    ensures forall i :: 0 <= i < |r| ==> r[i].accountName.Some?
    ensures forall x :: MatchesOrganisation(x, filterOrg) ==> multiset(r)[x] == multiset(records)[x]
    ensures IsSubseq(r, records)
  {
    var r := Filter(records, x => MatchesOrganisation(x, filterOrg));
    forall x ensures x in r <==> x in records && MatchesOrganisation(x, filterOrg) {
      FilterMembership(records, x => MatchesOrganisation(x, filterOrg), x);
    }
    r
  }

  /** With the filter empty, the table shows exactly the records that have an account name. */
  lemma EmptyFilterShowsNamed(records: seq<AccountRecord>, x: AccountRecord)
    ensures x in FilteredRecords(records, "") <==> x in records && x.accountName.Some?
  {
    IncludesEmpty(if x.accountName.Some? then ToLower(x.accountName.value) else "", "");
  }

  function AccountNumbers(records: seq<AccountRecord>): (r: seq<string>)
    ensures |r| == |records|
    ensures forall i :: 0 <= i < |r| ==> r[i] == records[i].accountNumber
  {
    seq(|records|, i requires 0 <= i < |records| => records[i].accountNumber)
  }

  /** Select-all picks exactly the account numbers of the records the filter shows. */
  lemma SelectAllIsFiltered(records: seq<AccountRecord>, filterOrg: string, n: string)
    ensures n in AccountNumbers(FilteredRecords(records, filterOrg)) <==>
      exists x :: x in records && MatchesOrganisation(x, filterOrg) && x.accountNumber == n
  {
    var shown := FilteredRecords(records, filterOrg);
    var nums := AccountNumbers(shown);
    if n in nums {
      var i :| 0 <= i < |nums| && nums[i] == n;
      assert shown[i] in shown;
    }
    if exists x :: x in records && MatchesOrganisation(x, filterOrg) && x.accountNumber == n {
      var x :| x in records && MatchesOrganisation(x, filterOrg) && x.accountNumber == n;
      var i :| 0 <= i < |shown| && shown[i] == x;
      assert nums[i] == n;
    }
  }

  /** The activation request: one entry per selected number, in selection order, tagged with the user. */
  function ActivationPayload(selected: seq<string>, user: Option<string>): (r: seq<Activation>)
    ensures |r| == |selected|
    ensures forall i :: 0 <= i < |r| ==> r[i] == Activation(selected[i], user)
  {
    seq(|selected|, i requires 0 <= i < |selected| => Activation(selected[i], user))
  }

  /**
   * The activation page's state. The logged-in user is not part of it: the
   * page reads it from local storage on every render, so each request
   * handler takes the value of the render its button belongs to.
   */
  class ActivationPage {
    var records: seq<AccountRecord>
    var selected: seq<string>
    var filterOrg: string

    constructor ()
      ensures records == [] && selected == [] && filterOrg == ""
    {
      records, selected, filterOrg := [], [], "";
    }

    /** Loading the records; `response` is None when the request failed. */
    method FetchRecords(response: Option<seq<AccountRecord>>)
      modifies this
      ensures records == if response.Some? then response.value else old(records)
      ensures selected == old(selected) && filterOrg == old(filterOrg)
    {
      if response.Some? {
        records := response.value;
      }
    }

    method HandleRowClick(accountNumber: string)
      modifies this
      ensures selected == Toggle(old(selected), accountNumber)
      ensures records == old(records) && filterOrg == old(filterOrg)
    {
      selected := Toggle(selected, accountNumber);
    }

    method HandleSelectAll()
      modifies this
      ensures selected == AccountNumbers(FilteredRecords(records, filterOrg))
      ensures records == old(records) && filterOrg == old(filterOrg)
    {
      selected := AccountNumbers(FilteredRecords(records, filterOrg));
    }

    method HandleDeselectAll()
      modifies this
      ensures selected == []
      ensures records == old(records) && filterOrg == old(filterOrg)
    {
      selected := [];
    }

    /** Typing in the filter box, or the Clear button with `text == ""`. */
    method SetFilterOrg(text: string)
      modifies this
      ensures filterOrg == text
      ensures records == old(records) && selected == old(selected)
    {
      filterOrg := text;
    }

    /**
     * Activate Selected, with `currentUser` the stored user name at that
     * render: nothing with an empty selection; otherwise the request below. Only when it succeeds are the records reloaded (with
     * `reload`) and the selection cleared.
     */
    method HandleActivate(currentUser: Option<string>, posted: bool, reload: Option<seq<AccountRecord>>)
      returns (request: Option<seq<Activation>>)
      modifies this
      ensures old(selected) == [] ==> request == None && unchanged(this)
      ensures old(selected) != [] ==> request == Some(ActivationPayload(old(selected), currentUser))
      ensures old(selected) != [] && posted ==>
        selected == [] && records == (if reload.Some? then reload.value else old(records))
      ensures !posted ==> unchanged(this)
      ensures filterOrg == old(filterOrg)
    {
      if |selected| == 0 {
        return None;
      }
      request := Some(ActivationPayload(selected, currentUser));
      if posted {
        FetchRecords(reload);
        selected := [];
      }
    }

    /** Deactivate Selected: the same guard and clearing, with the selection sent as one list. */
    method HandleDeactivate(currentUser: Option<string>, posted: bool, reload: Option<seq<AccountRecord>>)
      returns (request: Option<Deactivation>)
      modifies this
      ensures old(selected) == [] ==> request == None && unchanged(this)
      ensures old(selected) != [] ==> request == Some(Deactivation(old(selected), currentUser))
      ensures old(selected) != [] && posted ==>
        selected == [] && records == (if reload.Some? then reload.value else old(records))
      ensures !posted ==> unchanged(this)
      ensures filterOrg == old(filterOrg)
    {
      if |selected| == 0 {
        return None;
      }
      request := Some(Deactivation(selected, currentUser));
      if posted {
        FetchRecords(reload);
        selected := [];
      }
    }
  }
}
