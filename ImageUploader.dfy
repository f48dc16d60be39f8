/** ImageUploader.js: the single-image upload component. Its five state
    cells become the fields of `Component`; `handlePredict` is split into
    its synchronous start and its two completions, composed again by
    `HandlePredict`. The completions write their outcome whatever happened
    in between: there is no check that the response belongs to the file
    currently selected. */
module ImageUploader {
  import opened Wrappers
  import Web
  import Api
  import Labels
  import PredictionChart

  const DefaultError := "Une erreur s'est produite lors de la prédiction"

  /** The predict button: absent, or present and possibly disabled. */
  datatype ButtonView = Hidden | Shown(disabled: bool)

  class Component {
    var file: Option<Web.File>
    /** The object URL of the selected file, shown as the preview. */
    var preview: Option<string>
    var prediction: Option<Api.Prediction>
    var loading: bool
    var error: Option<string>

    /** The initial `useState` values. */
    constructor ()
      ensures file == None && preview == None && prediction == None
      ensures !loading && error == None
    {
      file := None;
      preview := None;
      prediction := None;
      loading := false;
      error := None;
    }

    /** `onDrop`: only the first accepted file counts. With none, nothing
        changes; otherwise it becomes the file, its object URL (created by
        the browser, passed in here) the preview, and the previous
        prediction and error are cleared. `loading` is not touched. */
    method OnDrop(accepted: seq<Web.File>, objectUrl: string)
      modifies this
      ensures |accepted| == 0 ==> unchanged(this)
      ensures |accepted| > 0 ==>
        && file == Some(accepted[0]) && preview == Some(objectUrl)
        && prediction == None && error == None && loading == old(loading)
    {
      if |accepted| > 0 {
        var selected := accepted[0];
        file := Some(selected);
        preview := Some(objectUrl);
        prediction := None;
        error := None;
      }
    }

    /** The synchronous part of `handlePredict`. Without a file nothing
        changes and no request is made; otherwise `loading` is raised and
        `error` cleared, while an earlier prediction stays on screen, and
        the form carries the file as its single `file` part. */
    method BeginPredict() returns (form: Option<seq<Web.FormPart>>)
      modifies this
      ensures old(file).None? ==> form == None && unchanged(this)
      ensures old(file).Some? ==>
        && loading && error == None
        && file == old(file) && preview == old(preview) && prediction == old(prediction)
        && form == Some([Web.FormPart("file", file.value)])
    {
      if file.None? {
        return None;
      }
      loading := true;
      error := None;
      form := Some([Web.FormPart("file", file.value)]);
    }

    /** The request resolved: its data become the prediction. */
    method SucceedPredict(data: Api.Prediction)
      modifies this
      ensures prediction == Some(data) && !loading
      ensures file == old(file) && preview == old(preview) && error == old(error)
    {
      prediction := Some(data);
      loading := false;
    }

    /** The request was rejected: the server's `detail`, or the fixed
        message, becomes the error; the prediction is left as it was. */
    method FailPredict(detail: Option<string>)
      modifies this
      ensures error == Some(Web.ErrorMessage(detail, DefaultError)) && !loading
      ensures file == old(file) && preview == old(preview) && prediction == old(prediction)
    {
      error := Some(Web.ErrorMessage(detail, DefaultError));
      loading := false;
    }

    /** The whole handler, run to completion with the given reply. After a
        failure the previous prediction remains visible next to the error. */
    method HandlePredict(reply: Web.Reply<Api.Prediction>)
      modifies this
      ensures old(file).None? ==> unchanged(this)
      ensures old(file).Some? ==>
        && !loading && file == old(file) && preview == old(preview)
        && (reply.Delivered? ==> prediction == Some(reply.data) && error == None)
        && (reply.Failed? ==>
              prediction == old(prediction) && error == Some(Web.ErrorMessage(reply.detail, DefaultError))
              && Web.Truthy(error))
    {
      var form := BeginPredict();
      if form.None? {
        return;
      }
      match reply
      case Delivered(data) => SucceedPredict(data);
      case Failed(detail) => FailPredict(detail);
    }

    /** The predict button is rendered only with a (truthy) preview and is
        disabled while a request is pending. */
    function PredictButton(): (b: ButtonView)
      reads this
      ensures b.Shown? <==> Web.Truthy(preview)
      ensures b.Shown? ==> (b.disabled <==> loading)
    {
      if Web.Truthy(preview) then Shown(loading) else Hidden
    }
  }

  /** A file dropped while a request is in flight does not stop the older
      response: the new file is selected, yet the prediction on screen is
      the one computed for the previous file. */
  method StaleResponseOverwrites(first: Web.File, second: Web.File, firstUrl: string, secondUrl: string,
                                 firstResult: Api.Prediction)
    returns (c: Component)
    ensures c.file == Some(second) && c.preview == Some(secondUrl)
    ensures c.prediction == Some(firstResult) && !c.loading
  {
    c := new Component();
    c.OnDrop([first], firstUrl);
    var form := c.BeginPredict();
    c.OnDrop([second], secondUrl);
    c.SucceedPredict(firstResult);
  }

  /** `getConfidenceColor`: green from 0.8, orange from 0.6, red below. */
  function ConfidenceColor(confidence: real): (p: Labels.Palette)
    ensures p == Labels.Success <==> confidence >= 0.8
    ensures p == Labels.Error <==> confidence < 0.6
    ensures p != Labels.Default
  {
    if confidence >= 0.8 then Labels.Success
    else if confidence >= 0.6 then Labels.Warning
    else Labels.Error
  }

  /** Red below orange below green. */
  function Rank(p: Labels.Palette): nat {
    match p
    case Error => 0
    case Warning => 1
    case Success => 2
    case Default => 0
  }

  /** A higher confidence never gets a worse colour. */
  lemma ConfidenceColorMonotone(a: real, b: real)
    requires a <= b
    ensures Rank(ConfidenceColor(a)) <= Rank(ConfidenceColor(b))
  {
  }

  /** The chart of any prediction the server returns has three bars, one
      per class in the server's order, coloured orange, red and green. */
  lemma ChartOfServerPrediction(modelLoaded: bool, upload: Api.Upload, inf: Api.Inference)
    requires Api.Predict(modelLoaded, upload, inf).Ok?
    ensures var p := Api.Predict(modelLoaded, upload, inf).value;
      var data := PredictionChart.ChartData(Some(p.classProbabilities));
      && data.Some? && |data.value| == 3
      && (forall i :: 0 <= i < 3 ==> data.value[i].className == Api.ClassNames[i])
      && PredictionChart.Cells(data.value)
         == [PredictionChart.EarlyBlightFill, PredictionChart.LateBlightFill, PredictionChart.HealthyFill]
  {
    var p := Api.Predict(modelLoaded, upload, inf).value;
    var data := PredictionChart.ChartData(Some(p.classProbabilities));
    assert Api.Keys(p.classProbabilities) == Api.ClassNames;
    assert forall i :: 0 <= i < 3 ==> data.value[i].className == Api.ClassNames[i];
    var cells := PredictionChart.Cells(data.value);
    assert cells[0] == PredictionChart.EarlyBlightFill;
    assert cells[1] == PredictionChart.LateBlightFill;
    assert cells[2] == PredictionChart.HealthyFill;
  }
}
