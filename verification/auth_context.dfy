/**
 * The authentication and prediction context (`AuthProvider`): the mock API it calls,
 * a value-level specification of its state changes (`Snapshot`, `Event`, `Step`, `Run`)
 * and the provider itself as a class whose methods are proved against that specification.
 *
 * Every awaited API value (the sign-in result, the history list, the crop result) is a
 * parameter of the method that awaits it, so each method is one atomic step that holds
 * for every outcome the API could deliver.
 */
module AuthContext {
  import opened Base

  datatype User = User(name: string, email: string)

  /** The seven soil and weather readings stored with a prediction. */
  datatype Parameters = Parameters(
    nitrogen: real, phosphorus: real, potassium: real,
    temperature: real, humidity: real, ph: real, rainfall: real)

  datatype Prediction = Prediction(id: string, crop: string, confidence: int, date: string, parameters: Parameters)

  /** What `mockAPI.signIn` and `mockAPI.signUp` resolve with. */
  datatype AuthResult = AuthResult(success: bool, user: Option<User>, message: Option<string>)

  /** What `mockAPI.predictCrop` resolves with. */
  datatype CropResult = CropResult(crop: string, confidence: int, id: string)

  /** A settled promise: it resolved with a value or it rejected. */
  datatype Settled<T> = Resolved(value: T) | Rejected

  /** What the provider shows the user after an authentication attempt. */
  datatype Notice = Silent | Alerted(text: string)

  // ---------------------------------------------------------------------------
  // The mock API
  // ---------------------------------------------------------------------------

  /** The name every mock sign-in reports, whatever the credentials. */
  const MockUserName := "Rajesh Kumar"

  /** Mock sign-in: accepts any pair of non-empty credentials and reports the supplied email. */
  function MockSignIn(email: string, password: string): (r: AuthResult)
    ensures r.success <==> email != "" && password != ""
    ensures r.success ==> r.user == Some(User(MockUserName, email))
    ensures !r.success ==> r.user == None && r.message == Some("Invalid credentials")
  {
    if email != "" && password != "" then AuthResult(true, Some(User(MockUserName, email)), None)
    else AuthResult(false, None, Some("Invalid credentials"))
  }

  /**
   * Mock sign-up: accepts three non-empty fields with matching passwords and reports the
   * supplied name and email. A mismatch is reported before an empty field.
   */
  function MockSignUp(name: string, email: string, password: string, confirmPassword: string): (r: AuthResult)
    ensures r.success <==> name != "" && email != "" && password != "" && password == confirmPassword
    ensures r.success ==> r.user == Some(User(name, email))
    ensures !r.success ==> r.user == None
    ensures !r.success && password != confirmPassword ==> r.message == Some("Passwords do not match")
    ensures !r.success && password == confirmPassword ==> r.message == Some("Please fill all fields")
  {
    if name != "" && email != "" && password != "" && password == confirmPassword then
      AuthResult(true, Some(User(name, email)), None)
    else if password != confirmPassword then
      AuthResult(false, None, Some("Passwords do not match"))
    else
      AuthResult(false, None, Some("Please fill all fields"))
  }

  /** One entry of the mock's crop table: a crop and the range its confidence is drawn from. */
  datatype CropRange = CropRange(name: string, minConf: int, maxConf: int)

  const Crops: seq<CropRange> := [CropRange("Rice", 85, 95), CropRange("Wheat", 80, 90), CropRange("Maize", 75, 88)]

  /** `Math.floor(u * n)` for a draw `u` of `Math.random()`, which lies in [0, 1). */
  function ScaledDraw(u: real, n: nat): (k: int)
    requires 0.0 <= u < 1.0 && n > 0
    ensures 0 <= k < n
  {
    assert u * (n as real) < n as real by {
      assert (1.0 - u) * (n as real) > 0.0;
    }
    (u * (n as real)).Floor
  }

  /**
   * Mock crop prediction from two draws of `Math.random()` and the text of `Date.now()`:
   * a crop of the table, with a confidence inside that crop's range.
   */
  function MockPredictCrop(u1: real, u2: real, now: string): (r: CropResult)
    requires 0.0 <= u1 < 1.0 && 0.0 <= u2 < 1.0
    ensures exists i :: 0 <= i < |Crops| && r.crop == Crops[i].name
                        && Crops[i].minConf <= r.confidence <= Crops[i].maxConf
    ensures 75 <= r.confidence <= 95
    ensures r.id == now
  {
    var selected := Crops[ScaledDraw(u1, |Crops|)];
    var confidence := ScaledDraw(u2, selected.maxConf - selected.minConf + 1) + selected.minConf;
    CropResult(selected.name, confidence, now)
  }

  /**
   * The fixed list `mockAPI.getHistory` resolves with: two records with distinct ids, each
   * a crop of the table with a confidence inside that crop's range.
   */
  function MockHistory(): (h: seq<Prediction>)
    ensures |h| == 2 && h[0].id != h[1].id
    ensures forall p :: p in h ==>
      exists i :: 0 <= i < |Crops| && p.crop == Crops[i].name && Crops[i].minConf <= p.confidence <= Crops[i].maxConf
  {
    var h := [
      Prediction("1", "Rice", 92, "2024-01-15", Parameters(90.0, 42.0, 43.0, 25.0, 80.0, 6.5, 120.0)),
      Prediction("2", "Wheat", 88, "2024-01-10", Parameters(85.0, 38.0, 40.0, 22.0, 65.0, 7.2, 80.0))
    ];
    assert h[0].crop == Crops[0].name && h[1].crop == Crops[1].name;
    h
  }

  /** The members the context's `value` provides, by name. */
  const ProvidedMembers: set<string> := {
    "signIn", "signUp", "logout", "predictCrop", "savePrediction", "getHistory",
    "user", "predictions", "isLoading", "authIsLoading"
  }

  // ---------------------------------------------------------------------------
  // The provider's state as a value, and how each operation changes it
  // ---------------------------------------------------------------------------

  datatype Snapshot = Snapshot(user: Option<User>, predictions: seq<Prediction>, isLoading: bool, authIsLoading: bool)

  /** One completed operation of the provider, with the values it awaited. */
  datatype Event =
    | UserLoaded                                                // the startup effect `loadUser`
    | AuthSettled(result: AuthResult, history: seq<Prediction>) // `signIn` or `signUp`
    | LoggedOut                                                 // `logout`
    | CropPredicted                                             // `predictCrop`, resolved or rejected
    | PredictionSaved(prediction: Prediction)                   // `savePrediction`
    | HistoryFetched(history: seq<Prediction>)                  // `getHistory`

  /** The state of a freshly mounted provider. */
  function Initial(): (s: Snapshot)
    ensures s.user == None && s.predictions == [] && !s.isLoading && s.authIsLoading
  {
    Snapshot(None, [], false, true)
  }

  /** The provider only installs a result that both succeeded and carries a user. */
  predicate Accepted(r: AuthResult)
    ensures Accepted(r) ==> r.success && r.user.Some?
    ensures !r.success ==> !Accepted(r)
  {
    r.success && r.user.Some?
  }

  /** The provider's state after one operation. */
  function Step(s: Snapshot, e: Event): (r: Snapshot)
    // only the startup effect touches authIsLoading, and it only clears it
    ensures r.authIsLoading == (s.authIsLoading && !e.UserLoaded?)
    // the user changes only on startup, logout or an accepted authentication
    ensures !(e.UserLoaded? || e.LoggedOut? || (e.AuthSettled? && Accepted(e.result))) ==> r.user == s.user
    // the operations that set isLoading leave it false; the others leave it alone
    ensures e.AuthSettled? || e.CropPredicted? ==> !r.isLoading
    ensures !(e.AuthSettled? || e.CropPredicted?) ==> r.isLoading == s.isLoading
  {
    match e
    case UserLoaded => s.(user := None, authIsLoading := false)
    case AuthSettled(result, history) =>
      if Accepted(result) then s.(user := result.user, predictions := history, isLoading := false)
      else s.(isLoading := false)
    case LoggedOut => s.(user := None, predictions := [])
    case CropPredicted => s.(isLoading := false)
    case PredictionSaved(p) => s.(predictions := [p] + s.predictions)
    case HistoryFetched(history) => s.(predictions := history)
  }

  /** The state after a sequence of operations, applied in order. */
  function Run(s: Snapshot, events: seq<Event>): Snapshot
    decreases |events|
  {
    if events == [] then s else Run(Step(s, events[0]), events[1..])
  }

  // ---------------------------------------------------------------------------
  // Properties of the specification
  // ---------------------------------------------------------------------------

  /** After the startup effect nobody is signed in and the splash screen may go. */
  lemma StartupSettles()
    ensures Initial().authIsLoading && Initial().user == None && Initial().predictions == [] && !Initial().isLoading
    ensures Step(Initial(), UserLoaded) == Snapshot(None, [], false, false)
  {
  }

  /** An accepted result installs its user and the fetched history; any other leaves both as they were. */
  lemma AuthOutcome(s: Snapshot, result: AuthResult, history: seq<Prediction>)
    ensures var r := Step(s, AuthSettled(result, history));
      && (Accepted(result) ==> r.user == result.user && r.predictions == history)
      && (!Accepted(result) ==> r.user == s.user && r.predictions == s.predictions)
      && !r.isLoading && r.authIsLoading == s.authIsLoading
  {
  }

  /** Logging out clears the user and the list, keeps both loading flags, and a second logout changes nothing. */
  lemma LogoutIdempotent(s: Snapshot)
    ensures var r := Step(s, LoggedOut);
      && r == Snapshot(None, [], s.isLoading, s.authIsLoading)
      && Step(r, LoggedOut) == r
  {
  }

  /** Saving prepends: the new record heads the list and the old entries follow in their order. */
  lemma SavePrepends(s: Snapshot, p: Prediction)
    ensures var ps := Step(s, PredictionSaved(p)).predictions;
      && |ps| == |s.predictions| + 1 && ps[0] == p && ps[1..] == s.predictions
  {
  }

  /** A history fetch replaces the list wholesale: a saved record the history lacks is gone. */
  lemma HistoryReplacesSaved(s: Snapshot, p: Prediction, history: seq<Prediction>)
    ensures Run(s, [PredictionSaved(p), HistoryFetched(history)]).predictions == history
    ensures p !in history ==> p !in Run(s, [PredictionSaved(p), HistoryFetched(history)]).predictions
  {
    var events := [PredictionSaved(p), HistoryFetched(history)];
    var saved := Step(s, PredictionSaved(p));
    assert events[1..] == [HistoryFetched(history)];
    assert Run(s, events) == Run(saved, [HistoryFetched(history)]);
    assert Run(saved, [HistoryFetched(history)]) == Run(Step(saved, HistoryFetched(history)), []);
  }

  /** Where a prediction in the list can come from. */
  predicate Supplies(e: Event, p: Prediction)
  {
    match e
    case PredictionSaved(q) => q == p
    case HistoryFetched(history) => p in history
    case AuthSettled(result, history) => Accepted(result) && p in history
    case _ => false
  }

  /** The user an event installs, if any. */
  function InstalledUser(e: Event): Option<User>
  {
    if e.AuthSettled? && Accepted(e.result) then e.result.user else None
  }

  /** The list never holds a record that was neither there before nor saved or fetched on the way. */
  lemma {:induction false} NoInventedPredictions(s: Snapshot, events: seq<Event>, p: Prediction)
    requires p in Run(s, events).predictions
    ensures p in s.predictions || exists i :: 0 <= i < |events| && Supplies(events[i], p)
    decreases |events|
  {
    if events != [] {
      var s' := Step(s, events[0]);
      NoInventedPredictions(s', events[1..], p);
      if p in s'.predictions {
        if p !in s.predictions {
          assert Supplies(events[0], p);
        }
      } else {
        var i :| 0 <= i < |events[1..]| && Supplies(events[1..][i], p);
        assert Supplies(events[i + 1], p);
      }
    }
  }

  /** A signed-in user was there before or was installed by an accepted authentication on the way. */
  lemma {:induction false} UserOrigin(s: Snapshot, events: seq<Event>, u: User)
    requires Run(s, events).user == Some(u)
    ensures s.user == Some(u) || exists i :: 0 <= i < |events| && InstalledUser(events[i]) == Some(u)
    decreases |events|
  {
    if events != [] {
      var s' := Step(s, events[0]);
      UserOrigin(s', events[1..], u);
      if s'.user == Some(u) {
        if s.user != Some(u) {
          assert InstalledUser(events[0]) == Some(u);
        }
      } else {
        var i :| 0 <= i < |events[1..]| && InstalledUser(events[1..][i]) == Some(u);
        assert InstalledUser(events[i + 1]) == Some(u);
      }
    }
  }

  /** The splash flag stays up exactly until the startup effect has run. */
  lemma {:induction false} AuthLoadingClearsOnce(s: Snapshot, events: seq<Event>)
    ensures Run(s, events).authIsLoading <==> s.authIsLoading && UserLoaded !in events
    decreases |events|
  {
    if events != [] {
      AuthLoadingClearsOnce(Step(s, events[0]), events[1..]);
      assert events == [events[0]] + events[1..];
    }
  }

  /** Every operation leaves isLoading false once it has completed. */
  lemma {:induction false} LoadingSettles(s: Snapshot, events: seq<Event>)
    requires !s.isLoading
    ensures !Run(s, events).isLoading
    decreases |events|
  {
    if events != [] {
      LoadingSettles(Step(s, events[0]), events[1..]);
    }
  }

  // ---------------------------------------------------------------------------
  // The provider
  // ---------------------------------------------------------------------------

  /** The text `alert(result.message)` shows: a missing message prints as "undefined". */
  function AlertText(message: Option<string>): (text: string)
    ensures message.Some? ==> text == message.value
    ensures message.None? ==> text == "undefined"
  {
    match message
    case Some(m) => m
    case None => "undefined"
  }

  class AuthProvider {
    var user: Option<User>
    var predictions: seq<Prediction>
    var isLoading: bool
    var authIsLoading: bool
    /** Every value passed to `setIsLoading`, oldest first. */
    ghost var loadingWrites: seq<bool>

    function State(): Snapshot
      reads this
    {
      Snapshot(user, predictions, isLoading, authIsLoading)
    }

    constructor ()
      ensures State() == Initial() && loadingWrites == []
    {
      user := None;
      predictions := [];
      isLoading := false;
      authIsLoading := true;
      loadingWrites := [];
    }

    /** The startup effect: nobody is restored, and the splash flag drops. */
    method LoadUser()
      modifies this
      ensures State() == Step(old(State()), UserLoaded)
      ensures user == None && !authIsLoading && predictions == old(predictions)
      ensures loadingWrites == old(loadingWrites)
    {
      user := None;
      authIsLoading := false;
    }

    /** Replaces the list with the fetched history. */
    method GetHistory(history: seq<Prediction>)
      modifies this
      ensures State() == Step(old(State()), HistoryFetched(history))
      ensures predictions == history
      ensures loadingWrites == old(loadingWrites)
    {
      predictions := history;
    }

    /** Installs an accepted result and its history, or alerts its message; isLoading brackets the call. */
    method SignIn(result: AuthResult, history: seq<Prediction>) returns (notice: Notice)
      modifies this
      ensures State() == Step(old(State()), AuthSettled(result, history))
      ensures Accepted(result) ==> user == result.user && predictions == history && notice == Silent
      ensures !Accepted(result) ==> user == old(user) && predictions == old(predictions)
                                    && notice == Alerted(AlertText(result.message))
      ensures loadingWrites == old(loadingWrites) + [true, false]
    {
      isLoading := true;
      loadingWrites := loadingWrites + [true];
      if result.success && result.user.Some? {
        user := result.user;
        GetHistory(history);
        notice := Silent;
      } else {
        notice := Alerted(AlertText(result.message));
      }
      isLoading := false;
      loadingWrites := loadingWrites + [false];
    }

    /** The same steps as SignIn, for the registration result. */
    method SignUp(result: AuthResult, history: seq<Prediction>) returns (notice: Notice)
      modifies this
      ensures State() == Step(old(State()), AuthSettled(result, history))
      ensures Accepted(result) ==> user == result.user && predictions == history && notice == Silent
      ensures !Accepted(result) ==> user == old(user) && predictions == old(predictions)
                                    && notice == Alerted(AlertText(result.message))
      ensures loadingWrites == old(loadingWrites) + [true, false]
    {
      isLoading := true;
      loadingWrites := loadingWrites + [true];
      if result.success && result.user.Some? {
        user := result.user;
        GetHistory(history);
        notice := Silent;
      } else {
        notice := Alerted(AlertText(result.message));
      }
      isLoading := false;
      loadingWrites := loadingWrites + [false];
    }

    /** Clears the user and the list; the loading flags are left alone. */
    method Logout()
      modifies this
      ensures State() == Step(old(State()), LoggedOut)
      ensures user == None && predictions == []
      ensures isLoading == old(isLoading) && authIsLoading == old(authIsLoading)
      ensures loadingWrites == old(loadingWrites)
    {
      user := None;
      predictions := [];
    }

    /** Passes the API's outcome through; isLoading is cleared whether it resolved or rejected. */
    method PredictCrop(outcome: Settled<CropResult>) returns (r: Settled<CropResult>)
      modifies this
      ensures State() == Step(old(State()), CropPredicted)
      ensures r == outcome
      ensures user == old(user) && predictions == old(predictions) && !isLoading
      ensures loadingWrites == old(loadingWrites) + [true, false]
    {
      isLoading := true;
      loadingWrites := loadingWrites + [true];
      r := outcome;
      isLoading := false;
      loadingWrites := loadingWrites + [false];
    }

    /** Prepends a record to the list. */
    method SavePrediction(p: Prediction)
      modifies this
      ensures State() == Step(old(State()), PredictionSaved(p))
      ensures predictions == [p] + old(predictions)
      ensures user == old(user) && isLoading == old(isLoading)
      ensures loadingWrites == old(loadingWrites)
    {
      predictions := [p] + predictions;
    }
  }
}
