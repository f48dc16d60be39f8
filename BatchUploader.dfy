/** BatchUploader.js: the multi-file upload component. Its four state cells
    become the fields of `Component`; the `handleBatchPredict` handler is
    split into its synchronous start (`BeginBatchPredict`) and the two ways
    the awaited request completes (`SucceedBatchPredict`,
    `FailBatchPredict`), which `HandleBatchPredict` composes. The results
    table is rendered from the server's entries by pure functions. */
module BatchUploader {
  import opened Wrappers
  import Web
  import Api
  import Labels

  const DefaultError := "Une erreur s'est produite lors de la prédiction par lot"

  /** What a chip shows: its label and its colour. */
  datatype Chip = Chip(caption: string, color: Labels.Palette)

  /** The submit button: absent, or present and possibly disabled. */
  datatype ButtonView = Hidden | Shown(disabled: bool)

  class Component {
    var files: seq<Web.File>
    var results: Option<Api.BatchResponse>
    var loading: bool
    var error: Option<string>

    /** The initial `useState` values. */
    constructor ()
      ensures files == [] && results == None && !loading && error == None
    {
      files := [];
      results := None;
      loading := false;
      error := None;
    }

    /** `onDrop`: the dropped list replaces the selection (even when it is
        empty) and the previous results and error are cleared. */
    method OnDrop(accepted: seq<Web.File>)
      modifies this
      ensures files == accepted && results == None && error == None
      ensures loading == old(loading)
    {
      files := accepted;
      results := None;
      error := None;
    }

    /** The synchronous part of `handleBatchPredict`. With no files nothing
        changes and no request is made; otherwise `loading` is raised,
        `error` is cleared, earlier results stay visible, and the form holds
        one `files` part per selected file, in selection order. */
    method BeginBatchPredict() returns (form: Option<seq<Web.FormPart>>)
      modifies this
      ensures old(files) == [] ==> form == None && unchanged(this)
      ensures old(files) != [] ==>
        && loading && error == None
        && files == old(files) && results == old(results)
        && form.Some? && |form.value| == |files|
        && forall i :: 0 <= i < |files| ==> form.value[i] == Web.FormPart("files", files[i])
    {
      if |files| == 0 {
        return None;
      }
      loading := true;
      error := None;
      var parts := Web.BuildForm("files", files);
      form := Some(parts);
    }

    /** The request resolved: its data become the results. */
    method SucceedBatchPredict(data: Api.BatchResponse)
      modifies this
      ensures results == Some(data) && !loading
      ensures files == old(files) && error == old(error)
    {
      results := Some(data);
      loading := false;
    }

    /** The request was rejected: the server's `detail`, or the fixed
        message, becomes the error; earlier results are left in place. */
    method FailBatchPredict(detail: Option<string>)
      modifies this
      ensures error == Some(Web.ErrorMessage(detail, DefaultError)) && !loading
      ensures files == old(files) && results == old(results)
    {
      error := Some(Web.ErrorMessage(detail, DefaultError));
      loading := false;
    }

    /** The whole handler, run to completion with the given reply. */
    method HandleBatchPredict(reply: Web.Reply<Api.BatchResponse>)
      modifies this
      ensures old(files) == [] ==> unchanged(this)
      ensures old(files) != [] ==>
        && !loading && files == old(files)
        && (reply.Delivered? ==> results == Some(reply.data) && error == None)
        && (reply.Failed? ==>
              results == old(results) && error == Some(Web.ErrorMessage(reply.detail, DefaultError))
              && ErrorAlertShown())
    {
      var form := BeginBatchPredict();
      if form.None? {
        return;
      }
      match reply
      case Delivered(data) => SucceedBatchPredict(data);
      case Failed(detail) => FailBatchPredict(detail);
    }

    /** The predict button appears once files are selected and is disabled
        while a request is pending. */
    function SubmitButton(): (b: ButtonView)
      reads this
      ensures b.Shown? <==> |files| > 0
      ensures b.Shown? ==> (b.disabled <==> loading)
    {
      if |files| > 0 then Shown(loading) else Hidden
    }

    /** `{error && <Alert>}`. */
    predicate ErrorAlertShown()
      reads this
    {
      Web.Truthy(error)
    }
  }

  /** The status a row shows: the entry's `status` when it has a truthy one,
      else "error" when it carries an error, else "success". */
  function RowStatus(e: Api.BatchEntry): (s: string)
    ensures Web.Truthy(e.status) ==> s == e.status.value
    ensures !Web.Truthy(e.status) ==> (s == "error" <==> Web.Truthy(e.error))
    ensures !Web.Truthy(e.status) ==> (s == "success" <==> !Web.Truthy(e.error))
  {
    if Web.Truthy(e.status) then e.status.value
    else if Web.Truthy(e.error) then "error"
    else "success"
  }

  /** The status chip of a row. */
  function StatusChip(e: Api.BatchEntry): (c: Chip)
    ensures c.caption == Labels.TranslateStatus(RowStatus(e))
    ensures c.color == Labels.StatusColor(RowStatus(e))
    ensures c.color == Labels.Success <==> RowStatus(e) == "success"
    ensures c.color == Labels.Error <==> RowStatus(e) != "success"
  {
    Chip(Labels.TranslateStatus(RowStatus(e)), Labels.StatusColor(RowStatus(e)))
  }

  /** The predicted-class cell: a chip for a truthy class, else the entry's
      error text, else "N/A". */
  datatype ClassCellView = ClassChip(chip: Chip) | CellText(text: string)

  function ClassCell(e: Api.BatchEntry): (c: ClassCellView)
    ensures c.ClassChip? <==> Web.Truthy(e.predictedClass)
    ensures c.ClassChip? ==> c.chip == Chip(Labels.TranslateClassName(e.predictedClass.value),
                                            Labels.ClassColor(e.predictedClass.value))
    ensures c.CellText? ==> c.text == Web.ErrorMessage(e.error, "N/A")
  {
    if Web.Truthy(e.predictedClass) then
      ClassChip(Chip(Labels.TranslateClassName(e.predictedClass.value), Labels.ClassColor(e.predictedClass.value)))
    else CellText(Web.ErrorMessage(e.error, "N/A"))
  }

  /** The confidence cell: a percentage, or "N/A". */
  datatype ConfidenceView = Percent(value: real) | NotAvailable

  /** `result.confidence ? … : 'N/A'`: a missing confidence and a
      confidence of exactly zero are both shown as "N/A". */
  function ConfidenceCell(confidence: Option<real>): (c: ConfidenceView)
    ensures c.NotAvailable? <==> confidence.None? || confidence.value == 0.0
    ensures c.Percent? ==> c.value == confidence.value * 100.0
  {
    if confidence.None? || confidence.value == 0.0 then NotAvailable
    else Percent(confidence.value * 100.0)
  }

  /** The lines of a row's probability accordion: each class translated,
      with its probability in percent, in entry order. */
  function ProbabilityLines(entries: seq<(string, real)>): (lines: seq<(string, real)>)
    ensures |lines| == |entries|
    ensures forall i :: 0 <= i < |entries| ==>
      lines[i] == (Labels.TranslateClassName(entries[i].0), entries[i].1 * 100.0)
  {
    if entries == [] then []
    else [(Labels.TranslateClassName(entries[0].0), entries[0].1 * 100.0)] + ProbabilityLines(entries[1..])
  }

  /** The details cell: the accordion when the entry has probabilities. */
  function DetailsCell(e: Api.BatchEntry): (d: Option<seq<(string, real)>>)
    ensures d.Some? <==> e.classProbabilities.Some?
    ensures d.Some? ==> d.value == ProbabilityLines(e.classProbabilities.value)
    ensures d.Some? ==> |d.value| == |e.classProbabilities.value|
  {
    match e.classProbabilities
    case None => None
    case Some(entries) => Some(ProbabilityLines(entries))
  }

  /** The rows whose status chip reads "error". */
  function CountErrorRows(es: seq<Api.BatchEntry>): nat {
    if es == [] then 0
    else (if RowStatus(es[0]) == "error" then 1 else 0) + CountErrorRows(es[1..])
  }

  /** An entry the server produced is shown as "success" exactly when the
      server counted it as a success, and as "error" otherwise, including
      a format rejection that has no `status`. */
  lemma RowStatusOfServerEntry(file: Api.Upload, inf: Api.Inference)
    ensures var e := Api.EntryFor(file, inf);
      RowStatus(e) == (if e.status == Some(Api.StatusSuccess) then "success" else "error")
  {
    var e := Api.EntryFor(file, inf);
    if e.status.None? {
      assert e == Api.RejectedEntry(file.filename);
    }
  }

  /** The table shows every non-successful file as an error row, so it
      shows more error rows than the "failed" counter whenever a file was
      rejected by format. */
  lemma {:induction false} ErrorRowsOfServerResponse(files: seq<Api.Upload>, infer: Api.Upload -> Api.Inference)
    ensures var b := Api.BatchResponseFor(files, infer);
      CountErrorRows(b.results) == b.totalFiles - b.successfulPredictions
      && CountErrorRows(b.results) == b.failedPredictions + Api.CountRejected(files)
  {
    Api.BatchCounts(files, infer);
    if files != [] {
      ErrorRowsOfServerResponse(files[1..], infer);
      Api.BatchCounts(files[1..], infer);
      RowStatusOfServerEntry(files[0], infer(files[0]));
      assert Api.Entries(files, infer)[1..] == Api.Entries(files[1..], infer);
    }
  }
}
