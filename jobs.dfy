/**
 * The state behind the "Run Analysis" dialog of a dataset page: choosing an
 * analysis app, editing its parameters, submitting the job and showing the
 * outcome. The React rendering is left out; what remains is the component's
 * state, the in-place edits of its parameter list, and the rules that pick
 * what the dialog shows.
 */
module Jobs {
  import opened Wrappers

  /** A parameter value as the dialog holds it. */
  datatype Value = BoolValue(b: bool) | TextValue(s: string) | NumberValue(n: int)

  /** JavaScript truthiness of a value. */
  predicate Truthy(v: Value)
  {
    match v
    case BoolValue(b) => b
    case TextValue(s) => s != ""
    case NumberValue(n) => n != 0
  }

  /** The JavaScript `!` operator: a boolean, true exactly when the operand is falsy. */
  function Negate(v: Value): Value
  {
    BoolValue(!Truthy(v))
  }

  /**
   * Negating twice turns any value into the boolean of its truthiness, and so
   * gives back a boolean value unchanged.
   */
  lemma NegateTwice(v: Value)
    ensures Negate(Negate(v)) == BoolValue(Truthy(v))
    ensures v.BoolValue? ==> Negate(Negate(v)) == v
  {
  }

  /** One editable parameter of the selected app. `kind` is the parameter's `type`. */
  datatype Parameter = Parameter(id: string, displayLabel: string, description: string, kind: string, defaultValue: Value, value: Value)

  /** How an app declares one of its parameters. */
  datatype ParameterSpec = ParameterSpec(id: string, displayLabel: string, description: string, kind: string, defaultValue: Value)

  /** An analysis app offered by the dialog. */
  datatype App = App(id: string, displayLabel: string, parameters: seq<ParameterSpec>)

  /** What the dialog shows in its body. */
  datatype Body = Spinner(text: string) | MessageBody | Form(showsStart: bool)

  /** The request handed to the job-starting action. */
  datatype JobRequest = JobRequest(datasetId: string, appId: string, parameters: map<string, Value>)

  const ALREADY_RUN_MESSAGE: string := "This analysis has already been run on this dataset with the same parameters. You can view the results in the Analyses section of the dataset page."
  const ISSUE_MESSAGE: string := "There was an issue submitting your analysis. Please double check you inputs and try again. If the issue persists contact the site adminstrator."
  const SUBMITTED_MESSAGE: string := "Your analysis has been submitted. Periodically check the Analyses section of this dataset to view the status and results."

  // ----- specification of the parameter list edits -----

  /** Everything of a parameter but its current value. */
  predicate SameDeclaration(p: Parameter, q: Parameter)
  {
    p.id == q.id && p.displayLabel == q.displayLabel && p.description == q.description
    && p.kind == q.kind && p.defaultValue == q.defaultValue
  }

  /** Two lists of the same length whose entries differ at most in their values. */
  predicate SameShape(s: seq<Parameter>, t: seq<Parameter>)
  {
    |s| == |t| && forall k :: 0 <= k < |s| ==> SameDeclaration(s[k], t[k])
  }

  /** The edit `_updateParameter` applies to one entry. */
  function UpdateOne(p: Parameter, id: string, v: Value): (r: Parameter)
    ensures SameDeclaration(r, p)
    ensures p.id != id ==> r == p
    ensures p.id == id && p.kind == "bool" ==> r.value.BoolValue? && (r.value.b <==> !Truthy(p.value))
    ensures p.id == id && p.kind != "bool" ==> r.value == v
  {
    if p.id != id then p
    else if p.kind == "bool" then p.(value := Negate(p.value))
    else p.(value := v)
  }

  /** The list after `_updateParameter(id, v)`. */
  function Updated(s: seq<Parameter>, id: string, v: Value): (r: seq<Parameter>)
    ensures |r| == |s|
  {
    if s == [] then [] else [UpdateOne(s[0], id, v)] + Updated(s[1..], id, v)
  }

  lemma {:induction false} UpdatedAt(s: seq<Parameter>, id: string, v: Value, k: nat)
    requires k < |s|
    ensures Updated(s, id, v)[k] == UpdateOne(s[k], id, v)
  {
    if k > 0 {
      UpdatedAt(s[1..], id, v, k - 1);
    }
  }

  /**
   * Updating by id edits only the entries with that id: a `bool` entry is
   * negated and ignores `v`, any other takes `v`; every other entry, the
   * length, the order and every declaration stay as they were.
   */
  lemma UpdateChangesOnlyMatches(s: seq<Parameter>, id: string, v: Value)
    ensures SameShape(Updated(s, id, v), s)
    ensures forall k :: 0 <= k < |s| && s[k].id == id && s[k].kind == "bool" ==>
      Updated(s, id, v)[k].value == BoolValue(!Truthy(s[k].value))
    ensures forall k :: 0 <= k < |s| && s[k].id == id && s[k].kind != "bool" ==>
      Updated(s, id, v)[k].value == v
    ensures forall k :: 0 <= k < |s| && s[k].id != id ==> Updated(s, id, v)[k] == s[k]
  {
    forall k | 0 <= k < |s| ensures Updated(s, id, v)[k] == UpdateOne(s[k], id, v) {
      UpdatedAt(s, id, v, k);
    }
  }

  /** The list after `_restoreDefaultParameters`. */
  function Restored(s: seq<Parameter>): (r: seq<Parameter>)
    ensures |r| == |s|
  {
    if s == [] then [] else [s[0].(value := s[0].defaultValue)] + Restored(s[1..])
  }

  lemma {:induction false} RestoredAt(s: seq<Parameter>, k: nat)
    requires k < |s|
    ensures Restored(s)[k] == s[k].(value := s[k].defaultValue)
  {
    if k > 0 {
      RestoredAt(s[1..], k - 1);
    }
  }

  /** Restoring defaults keeps every declaration and sets every value to its default. */
  lemma RestoreSetsDefaults(s: seq<Parameter>)
    ensures SameShape(Restored(s), s)
    ensures forall k :: 0 <= k < |s| ==> Restored(s)[k].value == s[k].defaultValue
  {
    forall k | 0 <= k < |s| ensures Restored(s)[k] == s[k].(value := s[k].defaultValue) {
      RestoredAt(s, k);
    }
  }

  /** Updating a boolean entry twice by its id gives back the entry: the checkbox toggles. */
  lemma UpdateTwiceTogglesBack(s: seq<Parameter>, id: string, v: Value, w: Value, k: nat)
    requires k < |s| && s[k].id == id && s[k].kind == "bool" && s[k].value.BoolValue?
    ensures Updated(Updated(s, id, v), id, w)[k] == s[k]
  {
    UpdatedAt(s, id, v, k);
    UpdatedAt(Updated(s, id, v), id, w, k);
  }

  /** Restoring defaults twice is the same as restoring them once. */
  lemma {:induction false} RestoreIdempotent(s: seq<Parameter>)
    ensures Restored(Restored(s)) == Restored(s)
  {
    if s != [] {
      var r := Restored(s);
      assert r[0] == s[0].(value := s[0].defaultValue);
      assert r[1..] == Restored(s[1..]);
      RestoreIdempotent(s[1..]);
    }
  }

  // ----- specification of the submitted parameters -----

  /** The parameter object `_startJob` submits: ids to values, a later duplicate id overriding an earlier one. */
  function ParameterMap(s: seq<Parameter>): (m: map<string, Value>)
    ensures s != [] ==> s[|s| - 1].id in m && m[s[|s| - 1].id] == s[|s| - 1].value
    ensures |m| <= |s|
  {
    if s == [] then map[] else ParameterMap(s[..|s| - 1])[s[|s| - 1].id := s[|s| - 1].value]
  }

  /** The submitted object has exactly the parameter ids as keys. */
  lemma {:induction false} ParameterMapKeys(s: seq<Parameter>)
    ensures ParameterMap(s).Keys == set k | 0 <= k < |s| :: s[k].id
  {
    if s != [] {
      var init := s[..|s| - 1];
      ParameterMapKeys(init);
      assert forall k :: 0 <= k < |init| ==> init[k] == s[k];
    }
  }

  /** Each id maps to the value of its last entry. */
  lemma {:induction false} ParameterMapLastWins(s: seq<Parameter>, k: nat)
    requires k < |s|
    requires forall j :: k < j < |s| ==> s[j].id != s[k].id
    ensures s[k].id in ParameterMap(s) && ParameterMap(s)[s[k].id] == s[k].value
  {
    if k < |s| - 1 {
      var init := s[..|s| - 1];
      assert init[k] == s[k];
      ParameterMapLastWins(init, k);
    }
  }

  // ----- specification of app selection -----

  /** The parameter declarations of the first app with the given id; none if no app has it. */
  function AppParameters(apps: seq<App>, appId: string): (specs: seq<ParameterSpec>)
    ensures specs == [] || exists i :: 0 <= i < |apps| && apps[i].id == appId && specs == apps[i].parameters
  {
    if apps == [] then []
    else if apps[0].id == appId then apps[0].parameters
    else AppParameters(apps[1..], appId)
  }

  /** `AppParameters` picks the first matching app, and is empty when none matches. */
  lemma {:induction false} AppParametersFirstMatch(apps: seq<App>, appId: string)
    ensures (forall i :: 0 <= i < |apps| ==> apps[i].id != appId) ==> AppParameters(apps, appId) == []
    ensures forall i :: 0 <= i < |apps| && apps[i].id == appId && (forall j :: 0 <= j < i ==> apps[j].id != appId) ==>
      AppParameters(apps, appId) == apps[i].parameters
  {
    if apps != [] && apps[0].id != appId {
      AppParametersFirstMatch(apps[1..], appId);
      assert forall i :: 1 <= i < |apps| ==> apps[1..][i - 1] == apps[i];
    }
  }

  /** The fresh entry `_selectApp` builds from a declaration: the value starts at the default. */
  function FromSpec(spec: ParameterSpec): Parameter
  {
    Parameter(spec.id, spec.displayLabel, spec.description, spec.kind, spec.defaultValue, spec.defaultValue)
  }

  /** The loop of `_selectApp` that finds the selected app's declarations. */
  method FindAppParameters(apps: seq<App>, appId: string) returns (specs: seq<ParameterSpec>)
    ensures specs == AppParameters(apps, appId)
    ensures (exists i :: 0 <= i < |apps| && apps[i].id == appId) ==>
      exists i :: 0 <= i < |apps| && apps[i].id == appId && specs == apps[i].parameters
        && forall j :: 0 <= j < i ==> apps[j].id != appId
    ensures (forall i :: 0 <= i < |apps| ==> apps[i].id != appId) ==> specs == []
  {
    specs := [];
    var i := 0;
    while i < |apps|
      invariant 0 <= i <= |apps|
      invariant forall j :: 0 <= j < i ==> apps[j].id != appId
      invariant AppParameters(apps[i..], appId) == AppParameters(apps, appId)
      invariant specs == []
    {
      if apps[i].id == appId {
        specs := apps[i].parameters;
        assert apps[i..][0] == apps[i];
        return;
      }
      assert apps[i..][1..] == apps[i + 1..];
      i := i + 1;
    }
  }

  /** The loop of `_selectApp` that builds the parameter list, one entry per declaration in order. */
  method BuildParameters(specs: seq<ParameterSpec>) returns (ps: seq<Parameter>)
    ensures |ps| == |specs|
    ensures forall k :: 0 <= k < |specs| ==> ps[k] == FromSpec(specs[k])
    ensures forall k :: 0 <= k < |specs| ==>
      ps[k].id == specs[k].id && ps[k].kind == specs[k].kind && ps[k].value == ps[k].defaultValue == specs[k].defaultValue
  {
    ps := [];
    var i := 0;
    while i < |specs|
      invariant 0 <= i <= |specs|
      invariant |ps| == i
      invariant forall k :: 0 <= k < i ==> ps[k] == FromSpec(specs[k])
    {
      ps := ps + [FromSpec(specs[i])];
      i := i + 1;
    }
  }

  /** The loop of `_startJob` that fills the submitted parameter object. */
  method CollectParameters(a: array<Parameter>) returns (m: map<string, Value>)
    ensures m == ParameterMap(a[..])
    ensures m.Keys == set k | 0 <= k < a.Length :: a[k].id
    ensures forall k :: 0 <= k < a.Length && (forall j :: k < j < a.Length ==> a[j].id != a[k].id) ==>
      a[k].id in m && m[a[k].id] == a[k].value
  {
    m := map[];
    var i := 0;
    while i < a.Length
      invariant 0 <= i <= a.Length
      invariant m == ParameterMap(a[..i])
    {
      assert a[..i + 1][..i] == a[..i];
      m := m[a[i].id := a[i].value];
      i := i + 1;
    }
    assert a[..i] == a[..];
    ParameterMapKeys(a[..]);
    forall k | 0 <= k < a.Length && (forall j :: k < j < a.Length ==> a[j].id != a[k].id)
      ensures a[k].id in m && m[a[k].id] == a[k].value
    {
      ParameterMapLastWins(a[..], k);
    }
  }

  // ----- what the dialog shows -----

  /** JavaScript truthiness of the state's message: `null` and the empty string are falsy. */
  predicate HasMessage(message: Option<string>)
  {
    message.Some? && message.value != ""
  }

  /** `_submit`: the Start button is rendered only once an app is selected (a non-empty, truthy id). */
  predicate ShowsStart(selectedApp: string)
  {
    selectedApp != ""
  }

  /**
   * The body `render` picks: the spinner while anything loads, then a message
   * if there is one, else the form, which holds the Start button of `_submit`.
   */
  function SelectBody(loading: bool, loadingApps: bool, message: Option<string>, selectedApp: string): (b: Body)
    ensures b.Spinner? <==> loading || loadingApps
    ensures b == MessageBody <==> !loading && !loadingApps && HasMessage(message)
    ensures b.Form? <==> !loading && !loadingApps && !HasMessage(message)
    ensures b.Spinner? ==> b.text == if loadingApps then "Loading pipelines" else "Starting " + selectedApp
    ensures b.Form? ==> (b.showsStart <==> selectedApp != "")
  {
    if loading || loadingApps then
      Spinner(if loadingApps then "Loading pipelines" else "Starting " + selectedApp)
    else if HasMessage(message) then
      MessageBody
    else
      Form(ShowsStart(selectedApp))
  }

  /**
   * The Start button is on screen exactly when nothing loads, no message is
   * shown and an app is selected: it lives inside the form body only.
   */
  lemma StartButtonRule(loading: bool, loadingApps: bool, message: Option<string>, selectedApp: string)
    ensures SelectBody(loading, loadingApps, message, selectedApp) == Form(true)
      <==> !loading && !loadingApps && !HasMessage(message) && selectedApp != ""
    ensures SelectBody(loading, loadingApps, message, selectedApp) != Form(true) ==>
      loading || loadingApps || HasMessage(message) || !ShowsStart(selectedApp)
  {
  }

  /** The message shown for the job-starting callback's `(err, res.status)`. */
  function ResultMessage(err: bool, status: int): (msg: string)
    ensures err && status == 409 ==> msg == ALREADY_RUN_MESSAGE
    ensures err && status != 409 ==> msg == ISSUE_MESSAGE
    ensures !err ==> msg == SUBMITTED_MESSAGE
  {
    if err then (if status == 409 then ALREADY_RUN_MESSAGE else ISSUE_MESSAGE) else SUBMITTED_MESSAGE
  }

  /** The three messages differ, so the message shown tells which outcome occurred. */
  lemma ResultMessageDistinguishesOutcomes(err1: bool, status1: int, err2: bool, status2: int)
    requires ResultMessage(err1, status1) == ResultMessage(err2, status2)
    ensures err1 == err2
    ensures err1 ==> (status1 == 409 <==> status2 == 409)
  {
    assert |ALREADY_RUN_MESSAGE| == 146 && |ISSUE_MESSAGE| == 143 && |SUBMITTED_MESSAGE| == 121;
  }

  /** Once the callback has run and the app list is loaded, the dialog shows the result message. */
  lemma FinishedJobShowsMessage(err: bool, status: int, selectedApp: string)
    ensures SelectBody(false, false, Some(ResultMessage(err, status)), selectedApp) == MessageBody
  {
  }

  // ----- the component -----

  /** The dialog's state (`this.state`); `parameters` holds the entries edited in place. */
  class JobMenu {
    var loading: bool
    var parameters: array<Parameter>
    var selectedApp: string
    var message: Option<string>
    var error: bool

    /** The state the constructor sets and `_hide` restores. */
    predicate IsInitial()
      reads this, parameters
    {
      !loading && parameters.Length == 0 && selectedApp == "" && message == None && !error
    }

    constructor ()
      ensures IsInitial()
    {
      loading := false;
      parameters := new Parameter[0];
      selectedApp := "";
      message := None;
      error := false;
    }

    /** `_hide`: back to the initial state. The parent's `onHide` callback is not modelled. */
    method Hide()
      modifies this
      ensures IsInitial() && fresh(parameters)
    {
      loading := false;
      parameters := new Parameter[0];
      selectedApp := "";
      message := None;
      error := false;
    }

    /** `_updateParameter(id, e)` with `v` as `e.target.value`: edits the entries in place. */
    method UpdateParameter(id: string, v: Value)
      modifies parameters
      ensures parameters[..] == Updated(old(parameters[..]), id, v)
    {
      var i := 0;
      while i < parameters.Length
        invariant 0 <= i <= parameters.Length
        invariant forall k :: 0 <= k < i ==> parameters[k] == UpdateOne(old(parameters[k]), id, v)
        invariant forall k :: i <= k < parameters.Length ==> parameters[k] == old(parameters[k])
      {
        var p := parameters[i];
        if p.id == id {
          if p.kind == "bool" {
            parameters[i] := p.(value := Negate(p.value));
          } else {
            parameters[i] := p.(value := v);
          }
        }
        i := i + 1;
      }
      forall k | 0 <= k < parameters.Length
        ensures parameters[k] == Updated(old(parameters[..]), id, v)[k]
      {
        UpdatedAt(old(parameters[..]), id, v, k);
      }
    }

    /** `_restoreDefaultParameters`: every entry's value back to its default, in place. */
    method RestoreDefaultParameters()
      modifies parameters
      ensures parameters[..] == Restored(old(parameters[..]))
    {
      var i := 0;
      while i < parameters.Length
        invariant 0 <= i <= parameters.Length
        invariant forall k :: 0 <= k < i ==> parameters[k] == old(parameters[k]).(value := old(parameters[k]).defaultValue)
        invariant forall k :: i <= k < parameters.Length ==> parameters[k] == old(parameters[k])
      {
        parameters[i] := parameters[i].(value := parameters[i].defaultValue);
        i := i + 1;
      }
      forall k | 0 <= k < parameters.Length
        ensures parameters[k] == Restored(old(parameters[..]))[k]
      {
        RestoredAt(old(parameters[..]), k);
      }
    }

    /** `_selectApp(e)` with `appId` as `e.target.value`: a fresh list of defaults for the first matching app. */
    method SelectApp(apps: seq<App>, appId: string)
      modifies this
      ensures selectedApp == appId && fresh(parameters)
      ensures parameters.Length == |AppParameters(apps, appId)|
      ensures forall k :: 0 <= k < parameters.Length ==> parameters[k] == FromSpec(AppParameters(apps, appId)[k])
      ensures loading == old(loading) && message == old(message) && error == old(error)
    {
      var specs := FindAppParameters(apps, appId);
      var ps := BuildParameters(specs);
      parameters := new Parameter[|ps|](k requires 0 <= k < |ps| => ps[k]);
      selectedApp := appId;
    }

    /**
     * `_startJob`: collects the submitted parameters and marks the dialog as
     * loading; the request goes to the job-starting action, whose callback is
     * `FinishJob`.
     */
    method StartJob() returns (request: JobRequest)
      modifies this
      ensures loading
      ensures request == JobRequest("test", selectedApp, ParameterMap(parameters[..]))
      ensures parameters == old(parameters) && parameters[..] == old(parameters[..])
      ensures selectedApp == old(selectedApp) && message == old(message) && error == old(error)
    {
      var submitted := CollectParameters(parameters);
      loading := true;
      request := JobRequest("test", selectedApp, submitted);
    }

    /**
     * The job-starting callback with `(err, res.status)`: stop loading and
     * show the outcome. On success the server's callback leaves `error`
     * undefined, which is stored here as `false`; only its truthiness is ever
     * read. When `err` is set the callback reads `res.status` and would throw
     * if `res` were undefined; here `status` is a plain input.
     */
    method FinishJob(err: bool, status: int)
      modifies this
      ensures !loading && error == err
      ensures message == Some(ResultMessage(err, status))
      ensures parameters == old(parameters) && selectedApp == old(selectedApp)
    {
      loading := false;
      message := Some(ResultMessage(err, status));
      error := err;
    }
  }

  /** After hiding, the dialog shows the form without a Start button, once the app list is loaded. */
  lemma HiddenDialogShowsForm(m: JobMenu)
    requires m.IsInitial()
    ensures SelectBody(m.loading, false, m.message, m.selectedApp) == Form(false)
  {
  }
}
