/** The settings form: a record of model and memory options, a validator that
    gates saving, and the handlers that edit the record and drive the
    notification snackbar. */
module Settings {
  import opened Text

  datatype Option<T> = None | Some(value: T)

  /** The options the form edits. JavaScript numbers are modelled as reals. */
  datatype SettingsRecord = SettingsRecord(
    modelTemperature: real,
    maxTokens: real,
    enableMemory: bool,
    apiEndpoint: string,
    memoryRetention: real)

  datatype Severity = Success | Error

  /** The transient notification shown at the bottom of the form. */
  datatype Snackbar = Snackbar(open: bool, message: string, severity: Severity)

  /** The record the form starts from. */
  const Defaults := SettingsRecord(0.7, 2000.0, true, "http://localhost:8000", 30.0)

  /** The snackbar the form starts from: closed, empty, "success". */
  const ClosedSnackbar := Snackbar(false, "", Success)

  const MaxTokensMessage := "Max tokens must be between 100 and 4000"
  const TemperatureMessage := "Temperature must be between 0 and 1"
  const EndpointMessage := "API endpoint must be a valid URL"
  const SavedMessage := "Settings saved successfully"
  const SaveFailedMessage := "Error saving settings"

  // ---------------------------------------------------------------------------
  // Validation

  /** The token limit lies in [100, 4000], both ends included. */
  predicate TokensInRange(s: SettingsRecord) {
    100.0 <= s.maxTokens <= 4000.0
  }

  /** The temperature lies in [0, 1], both ends included. */
  predicate TemperatureInRange(s: SettingsRecord) {
    0.0 <= s.modelTemperature <= 1.0
  }

  /** The endpoint's first four characters are "http". */
  predicate EndpointIsHttp(s: SettingsRecord) {
    4 <= |s.apiEndpoint| && s.apiEndpoint[..4] == "http"
  }

  /** A record the form may save. */
  predicate Acceptable(s: SettingsRecord) {
    TokensInRange(s) && TemperatureInRange(s) && EndpointIsHttp(s)
  }

  /** `validateSettings`: the message of the first rule that `s` breaks, or
      nothing when it breaks none. A message is never empty, so the caller's
      truthiness test sees every failure. */
  function Validate(s: SettingsRecord): (r: Option<string>)
    ensures r == None <==> Acceptable(s)
    ensures r != None ==> r.value in {MaxTokensMessage, TemperatureMessage, EndpointMessage}
    ensures r != None ==> r.value != []
  {
    if s.maxTokens < 100.0 || s.maxTokens > 4000.0 then Some(MaxTokensMessage)
    else if s.modelTemperature < 0.0 || s.modelTemperature > 1.0 then Some(TemperatureMessage)
    else if !StartsWith(s.apiEndpoint, "http") then Some(EndpointMessage)
    else None
  }

  /** The rules are checked in a fixed order: a token-limit violation is
      reported whatever the other fields hold, and a temperature violation is
      reported before an endpoint violation. */
  lemma ValidationPrecedence(s: SettingsRecord)
    ensures !TokensInRange(s) ==> Validate(s) == Some(MaxTokensMessage)
    ensures TokensInRange(s) && !TemperatureInRange(s) ==> Validate(s) == Some(TemperatureMessage)
    ensures TokensInRange(s) && TemperatureInRange(s) && !EndpointIsHttp(s)
            ==> Validate(s) == Some(EndpointMessage)
  {
  }

  /** Both bounds of both ranges are accepted, and the values just beyond
      them are rejected with the range's own message. */
  lemma BoundsAreInclusive(s: SettingsRecord)
    requires Acceptable(s)
    ensures Validate(s.(maxTokens := 100.0)) == None
    ensures Validate(s.(maxTokens := 4000.0)) == None
    ensures Validate(s.(modelTemperature := 0.0)) == None
    ensures Validate(s.(modelTemperature := 1.0)) == None
    ensures Validate(s.(maxTokens := 99.0)) == Some(MaxTokensMessage)
    ensures Validate(s.(maxTokens := 4001.0)) == Some(MaxTokensMessage)
    ensures Validate(s.(modelTemperature := -0.1)) == Some(TemperatureMessage)
    ensures Validate(s.(modelTemperature := 1.1)) == Some(TemperatureMessage)
  {
  }

  /** The endpoint rule looks only at the first four characters: any text
      beginning with "http" passes, whether or not the rest forms a URL, and
      an endpoint with another scheme fails. */
  lemma EndpointRuleIsPrefixOnly(s: SettingsRecord)
    requires TokensInRange(s) && TemperatureInRange(s)
    ensures Validate(s.(apiEndpoint := "http")) == None
    ensures Validate(s.(apiEndpoint := "httpnot a url")) == None
    ensures Validate(s.(apiEndpoint := "ftp://localhost")) == Some(EndpointMessage)
    ensures Validate(s.(apiEndpoint := "")) == Some(EndpointMessage)
  {
  }

  /** The record the form starts from can be saved as it is. */
  lemma DefaultsAreAcceptable()
    ensures Validate(Defaults) == None
  {
  }

  // ---------------------------------------------------------------------------
  // Editing one field

  /** The names the change handlers are bound to. */
  datatype Field = ModelTemperature | MaxTokens | EnableMemory | ApiEndpoint | MemoryRetention

  /** A value as a form control delivers it: a slider's number, a switch's
      checked state or a text field's text. */
  datatype FieldValue = Number(x: real) | Checked(b: bool) | Str(s: string)

  /** The value stored under `f`. */
  function Get(s: SettingsRecord, f: Field): FieldValue {
    match f
    case ModelTemperature => Number(s.modelTemperature)
    case MaxTokens => Number(s.maxTokens)
    case EnableMemory => Checked(s.enableMemory)
    case ApiEndpoint => Str(s.apiEndpoint)
    case MemoryRetention => Number(s.memoryRetention)
  }

  /** `v` has the kind of value field `f` holds. */
  predicate Fits(f: Field, v: FieldValue) {
    match f
    case ModelTemperature | MaxTokens | MemoryRetention => v.Number?
    case EnableMemory => v.Checked?
    case ApiEndpoint => v.Str?
  }

  /** `{ ...settings, [name]: value }`: the record with field `f` replaced by
      `v` and every other field kept. */
  function Put(s: SettingsRecord, f: Field, v: FieldValue): (r: SettingsRecord)
    requires Fits(f, v)
    ensures Get(r, f) == v
    ensures forall g :: g != f ==> Get(r, g) == Get(s, g)
  {
    match f
    case ModelTemperature => s.(modelTemperature := v.x)
    case MaxTokens => s.(maxTokens := v.x)
    case EnableMemory => s.(enableMemory := v.b)
    case ApiEndpoint => s.(apiEndpoint := v.s)
    case MemoryRetention => s.(memoryRetention := v.x)
  }

  /** A record is determined by what its fields hold, so the two postconditions
      of `Put` say everything about its result. */
  lemma {:induction false} FieldsDetermineRecord(s: SettingsRecord, t: SettingsRecord)
    requires forall f :: Get(s, f) == Get(t, f)
    ensures s == t
  {
    assert Get(s, ModelTemperature) == Get(t, ModelTemperature);
    assert Get(s, MaxTokens) == Get(t, MaxTokens);
    assert Get(s, EnableMemory) == Get(t, EnableMemory);
    assert Get(s, ApiEndpoint) == Get(t, ApiEndpoint);
    assert Get(s, MemoryRetention) == Get(t, MemoryRetention);
  }

  /** The part of a change event the handler reads. */
  datatype ChangeEvent = ChangeEvent(targetType: string, checked: bool, value: string)

  /** A checkbox reports its checked state; every other control its text. */
  function EventValue(ev: ChangeEvent): (v: FieldValue)
    ensures v.Checked? <==> ev.targetType == "checkbox"
    ensures v.Checked? ==> v.b == ev.checked
    ensures ev.targetType != "checkbox" ==> v == Str(ev.value)
  {
    if ev.targetType == "checkbox" then Checked(ev.checked) else Str(ev.value)
  }

  // ---------------------------------------------------------------------------
  // The form's state and its handlers

  class SettingsPanel {
    var settings: SettingsRecord
    var snackbar: Snackbar
    /** The bodies of the requests sent to save the settings, oldest first. */
    var posts: seq<SettingsRecord>

    constructor ()
      ensures settings == Defaults && snackbar == ClosedSnackbar && posts == []
    {
      settings := Defaults;
      snackbar := ClosedSnackbar;
      posts := [];
    }

    /** `handleChange(name)`: stores the event's value under `name`. */
    method HandleChange(name: Field, ev: ChangeEvent)
      requires Fits(name, EventValue(ev))
      modifies this
      ensures Get(settings, name) == EventValue(ev)
      ensures forall g :: g != name ==> Get(settings, g) == Get(old(settings), g)
      ensures snackbar == old(snackbar) && posts == old(posts)
    {
      settings := Put(settings, name, EventValue(ev));
    }

    /** `handleSliderChange(name)`: stores the slider's new number under `name`. */
    method HandleSliderChange(name: Field, newValue: real)
      requires Fits(name, Number(newValue))
      modifies this
      ensures Get(settings, name) == Number(newValue)
      ensures forall g :: g != name ==> Get(settings, g) == Get(old(settings), g)
      ensures snackbar == old(snackbar) && posts == old(posts)
    {
      settings := Put(settings, name, Number(newValue));
    }

    /** `handleSave`: a record that fails validation is not sent and its message
        is shown as an error; an acceptable record is sent exactly once, and the
        snackbar reports how the request ended (`postSucceeds`). The settings
        themselves never change. */
    method HandleSave(postSucceeds: bool)
      modifies this
      ensures settings == old(settings)
      ensures !Acceptable(settings) ==>
                posts == old(posts) && snackbar == Snackbar(true, Validate(settings).value, Error)
      ensures Acceptable(settings) ==> posts == old(posts) + [settings]
      ensures Acceptable(settings) && postSucceeds ==> snackbar == Snackbar(true, SavedMessage, Success)
      ensures Acceptable(settings) && !postSucceeds ==> snackbar == Snackbar(true, SaveFailedMessage, Error)
    {
      var error := Validate(settings);
      if error.Some? {
        snackbar := Snackbar(true, error.value, Error);
        return;
      }
      posts := posts + [settings];
      if postSucceeds {
        snackbar := Snackbar(true, SavedMessage, Success);
      } else {
        snackbar := Snackbar(true, SaveFailedMessage, Error);
      }
    }

    /** `handleCloseSnackbar`: hides the snackbar and keeps its text and severity. */
    method HandleCloseSnackbar()
      modifies this
      ensures !snackbar.open
      ensures snackbar.message == old(snackbar.message) && snackbar.severity == old(snackbar.severity)
      ensures settings == old(settings) && posts == old(posts)
    {
      snackbar := snackbar.(open := false);
    }
  }

  /** Setting the token limit to 50 and saving sends nothing and reports the
      token-limit message, whatever the request would have done. */
  method TooFewTokensAreNotSaved(postSucceeds: bool) returns (p: SettingsPanel)
    ensures p.posts == []
    ensures p.snackbar == Snackbar(true, MaxTokensMessage, Error)
    ensures Get(p.settings, MaxTokens) == Number(50.0)
  {
    p := new SettingsPanel();
    p.HandleSliderChange(MaxTokens, 50.0);
    p.HandleSave(postSucceeds);
  }
}
