/**
 * Bulk account import: a parsed CSV file becomes one create request per
 * row, sent in row order, with the successes and failures counted.
 */
module CreateRecordMass {
  import opened Wrappers
  import opened Text

  /** One parsed CSV row: column header to cell text; a column the row lacks is absent. */
  type Row = map<string, string>

  function Column(row: Row, name: string): Option<string> {
    if name in row then Some(row[name]) else None
  }

  /** The create request for one row. */
  datatype AccountRequest = AccountRequest(
    accountName: Option<string>,
    firstName: Option<string>,
    lastName: Option<string>,
    address: Option<string>,
    phoneNumbers: seq<string>,
    email: string,
    emergencyContact: string)

  /** `cell ? cell.split(",") : []`. */
  function PhoneList(cell: Option<string>): (r: seq<string>)
    ensures cell.None? || cell == Some("") ==> r == []
    ensures cell.Some? && cell.value != "" ==>
      |r| == CountChar(cell.value, ',') + 1 && Join(r, ',') == cell.value
  {
    if cell.Some? && cell.value != "" then Split(cell.value, ',') else []
  }

  /** `cell || ""`. */
  function OrEmpty(cell: Option<string>): (r: string)
    ensures cell.Some? ==> r == cell.value
    ensures cell.None? ==> r == ""
  {
    cell.GetOr("")
  }

  /**
   * The request for a row: four columns copied as they are, the phone
   * column split at commas, and a missing e-mail or emergency contact sent
   * as `""`.
   */
  function RowToRequest(row: Row): (r: AccountRequest)
    ensures r.accountName == Column(row, "Account Name") && r.firstName == Column(row, "First Name")
    ensures r.lastName == Column(row, "Last Name") && r.address == Column(row, "Address")
    ensures r.phoneNumbers == PhoneList(Column(row, "Phone Number"))
    ensures r.email == OrEmpty(Column(row, "Email"))
    ensures r.emergencyContact == OrEmpty(Column(row, "Emergency Contact"))
  {
    AccountRequest(
      Column(row, "Account Name"), Column(row, "First Name"), Column(row, "Last Name"), Column(row, "Address"),
      PhoneList(Column(row, "Phone Number")), OrEmpty(Column(row, "Email")), OrEmpty(Column(row, "Emergency Contact")))
  }

  /** The phone numbers of a non-empty cell, re-joined with commas, give the cell back. */
  lemma PhoneListRoundTrip(row: Row)
    requires Column(row, "Phone Number").Some? && row["Phone Number"] != ""
    ensures Join(RowToRequest(row).phoneNumbers, ',') == row["Phone Number"]
    ensures Split(Join(RowToRequest(row).phoneNumbers, ','), ',') == RowToRequest(row).phoneNumbers
  {
    var parts := RowToRequest(row).phoneNumbers;
    SplitJoin(parts, ',');
  }

  /** The indices below `n` whose request was accepted. */
  function AcceptedIndices(accepts: nat -> bool, n: nat): set<nat> {
    set i: nat | i < n && accepts(i)
  }

  /** One more request adds its index exactly when it was accepted. */
  lemma AcceptedIndicesStep(accepts: nat -> bool, n: nat)
    ensures |AcceptedIndices(accepts, n + 1)| ==
      |AcceptedIndices(accepts, n)| + (if accepts(n) then 1 else 0)
  {
    var before := AcceptedIndices(accepts, n);
    assert n !in before;
    assert AcceptedIndices(accepts, n + 1) == before + (if accepts(n) then {n} else {});
  }

  /** How many of the first `n` requests the backend accepted. */
  function Accepted(accepts: nat -> bool, n: nat): (r: nat)
    ensures r == |AcceptedIndices(accepts, n)|
    ensures r <= n
  {
    if n == 0 then
      assert AcceptedIndices(accepts, n) == {};
      0
    else
      AcceptedIndicesStep(accepts, n - 1);
      Accepted(accepts, n - 1) + (if accepts(n - 1) then 1 else 0)
  }

  /**
   * The upload loop: one request per row in row order; `accepts(i)` is the
   * outcome of the i-th request. The two counters add up to the row count.
   */
  method SendAll(rows: seq<Row>, accepts: nat -> bool) returns (requests: seq<AccountRequest>, successCount: nat, failedCount: nat)
    ensures |requests| == |rows|
    ensures forall i :: 0 <= i < |rows| ==> requests[i] == RowToRequest(rows[i])
    ensures successCount == Accepted(accepts, |rows|)
    ensures successCount + failedCount == |rows|
  {
    requests, successCount, failedCount := [], 0, 0;
    var i := 0;
    while i < |rows|
      invariant 0 <= i <= |rows|
      invariant |requests| == i
      invariant forall k :: 0 <= k < i ==> requests[k] == RowToRequest(rows[k])
      invariant successCount == Accepted(accepts, i)
      invariant successCount + failedCount == i
    {
      requests := requests + [RowToRequest(rows[i])];
      if accepts(i) {
        successCount := successCount + 1;
      } else {
        failedCount := failedCount + 1;
      }
      i := i + 1;
    }
  }

  /** The status line. */
  datatype UploadStatus =
    | Idle
    | NoFileSelected
    | EmptyOrMalformed
    | ParseFailed
    | Loaded(fileName: string)
    | NotReady
    | Complete(success: nat, failed: nat)

  /** What the CSV parser produced: the rows, or a parse error. */
  datatype ParseOutcome = Parsed(rows: seq<Row>) | ParseError

  class MassUploadPage {
    var selectedFile: Option<string>
    var csvData: seq<Row>
    var uploadStatus: UploadStatus

    constructor ()
      ensures selectedFile == None && csvData == [] && uploadStatus == Idle
    {
      selectedFile, csvData, uploadStatus := None, [], Idle;
    }

    /**
     * Choosing a file: without one only the status changes. With one it is
     * remembered at once; its rows replace the stored rows only when the
     * parse produced at least one.
     */
    method HandleFileChange(file: Option<string>, parse: ParseOutcome)
      modifies this
      ensures file.None? ==> selectedFile == old(selectedFile) && csvData == old(csvData) && uploadStatus == NoFileSelected
      ensures file.Some? ==> selectedFile == file
      ensures file.Some? && parse.Parsed? && parse.rows != [] ==>
        csvData == parse.rows && uploadStatus == Loaded(file.value)
      ensures file.Some? && parse.Parsed? && parse.rows == [] ==>
        csvData == old(csvData) && uploadStatus == EmptyOrMalformed
      ensures file.Some? && parse.ParseError? ==> csvData == old(csvData) && uploadStatus == ParseFailed
    {
      if file.None? {
        uploadStatus := NoFileSelected;
        return;
      }
      selectedFile := file;
      match parse
      case ParseError =>
        uploadStatus := ParseFailed;
      case Parsed(rows) =>
        if |rows| == 0 {
          uploadStatus := EmptyOrMalformed;
        } else {
          csvData := rows;
          uploadStatus := Loaded(file.value);
        }
    }

    /**
     * Upload: refused, with no request, until a file is chosen and rows are
     * stored; otherwise every stored row is sent and the status reports the
     * two counts.
     */
    method HandleUpload(accepts: nat -> bool) returns (requests: seq<AccountRequest>)
      modifies this
      ensures selectedFile == old(selectedFile) && csvData == old(csvData)
      ensures old(selectedFile).None? || old(csvData) == [] ==> requests == [] && uploadStatus == NotReady
      ensures old(selectedFile).Some? && old(csvData) != [] ==>
        |requests| == |csvData| &&
        (forall i :: 0 <= i < |csvData| ==> requests[i] == RowToRequest(csvData[i])) &&
        uploadStatus == Complete(Accepted(accepts, |csvData|), |csvData| - Accepted(accepts, |csvData|))
    {
      if selectedFile.None? || |csvData| == 0 {
        uploadStatus := NotReady;
        return [];
      }
      var successCount, failedCount;
      requests, successCount, failedCount := SendAll(csvData, accepts);
      uploadStatus := Complete(successCount, failedCount);
    }
  }

  /**
   * A second file that parses to no rows still becomes the selected file,
   * so Upload then sends the first file's rows.
   */
  method UploadAfterEmptyFile(page: MassUploadPage, first: string, rows: seq<Row>, second: string, accepts: nat -> bool)
    returns (requests: seq<AccountRequest>)
    requires rows != []
    modifies page
    ensures page.selectedFile == Some(second)
    ensures |requests| == |rows| && forall i :: 0 <= i < |rows| ==> requests[i] == RowToRequest(rows[i])
  {
    page.HandleFileChange(Some(first), Parsed(rows));
    page.HandleFileChange(Some(second), Parsed([]));
    requests := page.HandleUpload(accepts);
  }
}
