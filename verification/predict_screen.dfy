/**
 * The prediction form (`PredictScreen` in the modal route): seven text fields, a check
 * that none is blank after trimming, and the submit handler that predicts, saves the
 * new record and opens the result route, in that order.
 */
module PredictScreen {
  import opened Base
  import opened AuthContext
  import opened JsText

  /** The form's keys, in the order the check visits them. */
  const RequiredFields: seq<string> := ["nitrogen", "phosphorus", "potassium", "temperature", "humidity", "ph", "rainfall"]

  /** `formData`: one text value per key. */
  type FormData = map<string, string>

  /** The form holds a value for every required key. */
  predicate WellFormed(form: FormData)
  {
    forall k :: k in RequiredFields ==> k in form
  }

  /** The form as first rendered: every field empty. */
  function EmptyForm(): (form: FormData)
    ensures WellFormed(form)
    ensures forall k :: k in RequiredFields ==> form[k] == ""
  {
    map k | k in RequiredFields :: ""
  }

  /** A keystroke in one field: that field takes the new text, every other field keeps its own. */
  function UpdateField(form: FormData, key: string, text: string): (f: FormData)
    requires WellFormed(form) && key in RequiredFields
    ensures WellFormed(f) && f.Keys == form.Keys
    ensures f[key] == text
    ensures forall k :: k in form && k != key ==> f[k] == form[k]
  {
    form[key := text]
  }

  /** `!value.trim()`: the value trims to the empty string, which is to say it is blank. */
  predicate TrimsToEmpty(value: string)
    ensures TrimsToEmpty(value) <==> IsBlank(value)
  {
    TrimEmptyIffBlank(value);
    Trim(value) == ""
  }

  /** The keys of `keys`, in order, whose value trims to the empty string. */
  function Missing(keys: seq<string>, form: FormData): (m: seq<string>)
    requires forall k :: k in keys ==> k in form
    ensures |m| <= |keys|
    ensures forall k :: k in m <==> k in keys && TrimsToEmpty(form[k])
  {
    if keys == [] then []
    else
      var rest := Missing(keys[1..], form);
      assert forall k :: k in keys <==> k == keys[0] || k in keys[1..];
      if TrimsToEmpty(form[keys[0]]) then [keys[0]] + rest else rest
  }

  /** `requiredFields.filter(field => !formData[field].trim())` */
  function MissingFields(form: FormData): (m: seq<string>)
    requires WellFormed(form)
    ensures |m| <= |RequiredFields|
    ensures forall k :: k in m <==> k in RequiredFields && TrimsToEmpty(form[k])
  {
    Missing(RequiredFields, form)
  }

  /** Nothing is missing exactly when every field has a character other than white space. */
  lemma NothingMissingIffAllFilled(form: FormData)
    requires WellFormed(form)
    ensures MissingFields(form) == [] <==> forall k :: k in RequiredFields ==> !IsBlank(form[k])
  {
    if MissingFields(form) == [] {
      forall k | k in RequiredFields
        ensures !IsBlank(form[k])
      {
        TrimEmptyIffBlank(form[k]);
      }
    } else {
      var k := MissingFields(form)[0];
      TrimEmptyIffBlank(form[k]);
    }
  }

  /** A field holding only white space is reported missing, just like an empty one. */
  lemma BlankFieldIsMissing(form: FormData, key: string)
    requires WellFormed(form) && key in RequiredFields && IsBlank(form[key])
    ensures key in MissingFields(form)
  {
    TrimEmptyIffBlank(form[key]);
  }

  /** The record the handler builds: the predicted id, crop and confidence, today's date and the parsed readings. */
  function NewPrediction(result: CropResult, today: string, readings: Parameters): (p: Prediction)
    ensures p.id == result.id && p.crop == result.crop && p.confidence == result.confidence
    ensures p.date == today && p.parameters == readings
  {
    Prediction(result.id, result.crop, result.confidence, today, readings)
  }

  /** An alert box: title and message. */
  datatype AlertBox = AlertBox(title: string, message: string)

  const MissingAlert := AlertBox("Missing Information", "Please fill all the fields to get a prediction.")
  const FailedAlert := AlertBox("Prediction Failed", "An error occurred. Please try again.")

  /** The calls the handler makes beyond the form itself, in order. */
  datatype Call =
    | PredictCropCall(form: FormData)
    | SavePredictionCall(prediction: Prediction)
    | ReplaceRoute(pathname: string, prediction: Prediction)

  /**
   * The `try` block and its `catch`, once the form is complete: call predictCrop; on success
   * save the record built from the result exactly once and then open '/result' with that same
   * record; on failure alert, save nothing and stay.
   *
   * `outcome` is how the prediction call settled, `today` the date part of the current time
   * and `readings` the seven fields as `parseFloat` reads them.
   */
  method PredictAndSave(ctx: AuthProvider, form: FormData, outcome: Settled<CropResult>, today: string, readings: Parameters)
    returns (calls: seq<Call>, alert: Option<AlertBox>)
    modifies ctx
    ensures outcome.Resolved? ==>
      var record := NewPrediction(outcome.value, today, readings);
      && record.id == outcome.value.id && record.crop == outcome.value.crop
      && record.confidence == outcome.value.confidence
      && calls == [PredictCropCall(form), SavePredictionCall(record), ReplaceRoute("/result", record)]
      && alert == None
      && ctx.State() == Run(old(ctx.State()), [CropPredicted, PredictionSaved(record)])
      && ctx.predictions == [record] + old(ctx.predictions)
    ensures outcome.Rejected? ==>
      && calls == [PredictCropCall(form)]
      && alert == Some(FailedAlert)
      && ctx.State() == Step(old(ctx.State()), CropPredicted)
      && ctx.predictions == old(ctx.predictions)
    ensures ctx.loadingWrites == old(ctx.loadingWrites) + [true, false] && !ctx.isLoading
  {
    ghost var s0 := ctx.State();
    calls := [PredictCropCall(form)];
    var result := ctx.PredictCrop(outcome);
    ghost var s1 := ctx.State();
    match result
    case Resolved(value) =>
      var record := NewPrediction(value, today, readings);
      ctx.SavePrediction(record);
      calls := calls + [SavePredictionCall(record)];
      calls := calls + [ReplaceRoute("/result", record)];
      alert := None;
      ghost var events := [CropPredicted, PredictionSaved(record)];
      assert events[1..] == [PredictionSaved(record)];
      assert Run(s0, events) == Run(s1, [PredictionSaved(record)]);
      assert Run(s1, [PredictionSaved(record)]) == Run(Step(s1, PredictionSaved(record)), []);
    case Rejected =>
      alert := Some(FailedAlert);
  }

  /**
   * Pressing "Predict Best Crop". A disabled button (while isLoading) does nothing. With a
   * field missing it alerts and calls nothing. Otherwise it predicts and saves as
   * PredictAndSave says.
   */
  method HandlePrediction(ctx: AuthProvider, form: FormData, outcome: Settled<CropResult>, today: string, readings: Parameters)
    returns (calls: seq<Call>, alert: Option<AlertBox>)
    requires WellFormed(form)
    modifies ctx
    ensures old(ctx.isLoading) ==> calls == [] && alert == None
    ensures !old(ctx.isLoading) && MissingFields(form) != [] ==> calls == [] && alert == Some(MissingAlert)
    ensures calls == [] ==> ctx.State() == old(ctx.State()) && ctx.loadingWrites == old(ctx.loadingWrites)
    ensures !old(ctx.isLoading) && MissingFields(form) == [] && outcome.Resolved? ==>
      var record := NewPrediction(outcome.value, today, readings);
      && record.id == outcome.value.id && record.crop == outcome.value.crop
      && record.confidence == outcome.value.confidence
      && calls == [PredictCropCall(form), SavePredictionCall(record), ReplaceRoute("/result", record)]
      && alert == None
      && ctx.State() == Run(old(ctx.State()), [CropPredicted, PredictionSaved(record)])
      && ctx.predictions == [record] + old(ctx.predictions)
    ensures !old(ctx.isLoading) && MissingFields(form) == [] && outcome.Rejected? ==>
      && calls == [PredictCropCall(form)]
      && alert == Some(FailedAlert)
      && ctx.State() == Step(old(ctx.State()), CropPredicted)
      && ctx.predictions == old(ctx.predictions)
    ensures calls != [] ==> ctx.loadingWrites == old(ctx.loadingWrites) + [true, false] && !ctx.isLoading
  {
    if ctx.isLoading {
      return [], None;
    }
    if MissingFields(form) != [] {
      return [], Some(MissingAlert);
    }
    calls, alert := PredictAndSave(ctx, form, outcome, today, readings);
  }
}
