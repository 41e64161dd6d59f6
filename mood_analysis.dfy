/**
 * `analyzeText` of the mood-analysis hook: two guards (blank text, no signed-in
 * user), then one call to the mood-analysis service, with the hook's `isAnalyzing`
 * and `error` state cells updated around it. The service's answer is an input;
 * the toast notices the hook shows are kept as a log of their message texts.
 */
module MoodAnalysis {
  import opened Wrappers
  import opened JsText
  import opened Emotions

  /** The analysis data the service returns; only its mood is read by the hook. */
  datatype MoodAnalysisResult = MoodAnalysisResult(mood: seq<EmotionScore>)

  /** The record `analyzeMood` resolves to. */
  datatype ServiceResult = ServiceResult(success: bool, data: Option<MoodAnalysisResult>, error: Option<string>)

  /** A value thrown inside the `try` block: an `Error` carries a message. */
  datatype Thrown = ErrorInstance(message: string) | NonError

  /** How the awaited service call ends: it resolves to a record or it throws. */
  datatype ServiceOutcome = Resolved(result: ServiceResult) | Rejected(thrown: Thrown)

  /** What is sent to the service. */
  datatype Request = Request(text: string, userId: string)

  /** The hook's two state cells and the notices shown so far. */
  datatype HookState = HookState(isAnalyzing: bool, error: Option<string>, notices: seq<string>)

  /** Everything one call produces: the state while the service is awaited (equal to
      the final state when no request is made), the final state, the request made and
      the value returned. */
  datatype Call = Call(pending: HookState, final: HookState, request: Option<Request>, value: Option<MoodAnalysisResult>)

  const BlankTextNotice: string := "Please enter some text to analyze"
  const SignedOutNotice: string := "You must be logged in to analyze mood"
  const DefaultFailure: string := "Failed to analyze mood"

  /** `user?.id` is truthy: there is a user and its id is not the empty string. */
  predicate SignedIn(userId: Option<string>) {
    userId.Some? && userId.value != ""
  }

  /**
   * The request `analyzeText` sends, if any. The text is checked first, then the
   * user; a request is made exactly when the text holds a non-whitespace character
   * and a user is signed in, and it carries that text and that user's id.
   */
  function RequestFor(text: string, userId: Option<string>): (r: Option<Request>)
    ensures r.Some? <==> !AllWhitespace(text) && SignedIn(userId)
    ensures r.Some? ==> r.value == Request(text, userId.value)
  {
    if IsBlank(text) then None
    else if !SignedIn(userId) then None
    else Some(Request(text, userId.value))
  }

  /** The notice shown when a guard rejects the call, if one does. */
  function GuardNotice(text: string, userId: Option<string>): (n: Option<string>)
    ensures n.None? <==> RequestFor(text, userId).Some?
    ensures AllWhitespace(text) ==> n == Some(BlankTextNotice)
    ensures !AllWhitespace(text) && !SignedIn(userId) ==> n == Some(SignedOutNotice)
  {
    if IsBlank(text) then Some(BlankTextNotice)
    else if !SignedIn(userId) then Some(SignedOutNotice)
    else None
  }

  /** `a || b` on an optional string: an absent or empty `a` falls back to `b`. */
  function OrElse(a: Option<string>, b: string): string {
    if a.Some? && a.value != "" then a.value else b
  }

  /** What the `try` block throws, if anything: a failed or empty result becomes an `Error`. */
  function ThrownBy(outcome: ServiceOutcome): (t: Option<Thrown>)
    ensures t.None? <==> outcome.Resolved? && outcome.result.success && outcome.result.data.Some?
    ensures outcome.Rejected? ==> t == Some(outcome.thrown)
    // the Error thrown for a failed result always has a non-empty message
    ensures outcome.Resolved? && t.Some? ==> t.value.ErrorInstance? && t.value.message != ""
    ensures outcome.Resolved? && t.Some? ==>
      t.value.message == (if outcome.result.error.Some? && outcome.result.error.value != ""
                          then outcome.result.error.value else DefaultFailure)
  {
    match outcome
    case Rejected(t) => Some(t)
    case Resolved(result) =>
      if !result.success || result.data.None? then Some(ErrorInstance(OrElse(result.error, DefaultFailure)))
      else None
  }

  /** The `catch` block's message: an `Error`'s message, else the default text. */
  function CaughtMessage(t: Thrown): (m: string)
    ensures t.ErrorInstance? ==> m == t.message
    ensures t.NonError? ==> m == DefaultFailure
  {
    if t.ErrorInstance? then t.message else DefaultFailure
  }

  /**
   * The error message a settled service call records, or None when it succeeds.
   * It is None exactly when the service reports success with data. A reported
   * failure records the service's error text, or the default text when that is
   * absent or empty; a thrown `Error` records its own message, even an empty one,
   * and any other thrown value the default text.
   */
  function FailureMessage(outcome: ServiceOutcome): (m: Option<string>)
    ensures m.None? <==> outcome.Resolved? && outcome.result.success && outcome.result.data.Some?
    ensures outcome.Resolved? && m.Some? ==>
      m.value == (if outcome.result.error.Some? && outcome.result.error.value != ""
                  then outcome.result.error.value else DefaultFailure)
    ensures outcome.Rejected? && outcome.thrown.ErrorInstance? ==> m == Some(outcome.thrown.message)
    ensures outcome.Rejected? && outcome.thrown.NonError? ==> m == Some(DefaultFailure)
  {
    match ThrownBy(outcome)
    case None => None
    case Some(t) => Some(CaughtMessage(t))
  }

  /**
   * One call of `analyzeText` from state `st`, given the user id the hook sees and
   * how the service call would end: the guards, then the `try`/`catch`/`finally`.
   */
  function Analyze(st: HookState, text: string, userId: Option<string>, outcome: ServiceOutcome): (c: Call)
    ensures c.request == RequestFor(text, userId)
  {
    match GuardNotice(text, userId)
    case Some(notice) =>
      var final := st.(notices := st.notices + [notice]);
      Call(final, final, None, None)
    case None =>
      var pending := HookState(true, None, st.notices);
      match FailureMessage(outcome)
      case None =>
        Call(pending, pending.(isAnalyzing := false), RequestFor(text, userId), outcome.result.data)
      case Some(m) =>
        Call(pending, HookState(false, Some(m), st.notices + [m]), RequestFor(text, userId), None)
  }

  /** What one call of `analyzeText` promises, for every state, text, user and outcome. */
  lemma AnalyzeContract(st: HookState, text: string, userId: Option<string>, outcome: ServiceOutcome)
    // the guards decide whether the service is consulted, text before user
    ensures var c := Analyze(st, text, userId, outcome);
      c.request == RequestFor(text, userId)
    // a rejected call returns nothing and only adds its notice
    ensures var c := Analyze(st, text, userId, outcome);
      c.request.None? ==>
        && c.value.None?
        && c.final.isAnalyzing == st.isAnalyzing && c.final.error == st.error
        && c.final.notices == st.notices + [if AllWhitespace(text) then BlankTextNotice else SignedOutNotice]
        && c.pending == c.final
    // while the service is awaited the hook is analyzing and its error is cleared
    ensures var c := Analyze(st, text, userId, outcome);
      c.request.Some? ==> c.pending == HookState(true, None, st.notices)
    // once the call returns the hook is no longer analyzing
    ensures var c := Analyze(st, text, userId, outcome);
      c.request.Some? ==> !c.final.isAnalyzing
    // success returns exactly the service's data and leaves the error cleared
    ensures var c := Analyze(st, text, userId, outcome);
      c.request.Some? && outcome.Resolved? && outcome.result.success && outcome.result.data.Some? ==>
        c.value == outcome.result.data && c.final.error.None? && c.final.notices == st.notices
    // failure returns nothing and records and shows the failure message
    ensures var c := Analyze(st, text, userId, outcome);
      c.request.Some? && FailureMessage(outcome).Some? ==>
        && c.value.None? && c.final.error == FailureMessage(outcome)
        && c.final.notices == st.notices + [FailureMessage(outcome).value]
  {
    // Dafny can find this proof alone; the case split keeps it cheap for the solver.
    var c := Analyze(st, text, userId, outcome);
    var notice := GuardNotice(text, userId);
    if notice.Some? {
      assert c == Call(c.final, c.final, None, None) && c.final == st.(notices := st.notices + [notice.value]);
    } else {
      var pending := HookState(true, None, st.notices);
      var m := FailureMessage(outcome);
      if m.Some? {
        assert c == Call(pending, HookState(false, m, st.notices + [m.value]), RequestFor(text, userId), None);
      } else {
        assert c == Call(pending, pending.(isAnalyzing := false), RequestFor(text, userId), outcome.result.data);
      }
    }
  }

  /** The state cells of one mounted hook. */
  class MoodAnalysisHook {
    var isAnalyzing: bool
    var error: Option<string>
    var notices: seq<string>

    function State(): HookState
      reads this
    {
      HookState(isAnalyzing, error, notices)
    }

    /** `useState(false)` and `useState(null)`, with no notice shown yet. */
    constructor ()
      ensures State() == HookState(false, None, [])
    {
      isAnalyzing, error, notices := false, None, [];
    }

    /**
     * `analyzeText(text)`, with `userId` the id of the current user (if any) and
     * `outcome` how the service call ends if it is made. Returns the value the call
     * resolves to and the request made; `pending` is the state while it is awaited.
     */
    method AnalyzeText(text: string, userId: Option<string>, outcome: ServiceOutcome)
      returns (value: Option<MoodAnalysisResult>, request: Option<Request>, ghost pending: HookState)
      modifies this
      ensures var c := Analyze(old(State()), text, userId, outcome);
        value == c.value && request == c.request && pending == c.pending && State() == c.final
    {
      ghost var c := Analyze(State(), text, userId, outcome);
      if IsBlank(text) {
        assert GuardNotice(text, userId) == Some(BlankTextNotice);
        notices := notices + [BlankTextNotice];
        assert c == Call(State(), State(), None, None);
        return None, None, State();
      }
      if !SignedIn(userId) {
        assert GuardNotice(text, userId) == Some(SignedOutNotice);
        notices := notices + [SignedOutNotice];
        assert c == Call(State(), State(), None, None);
        return None, None, State();
      }

      assert GuardNotice(text, userId).None? && RequestFor(text, userId) == Some(Request(text, userId.value));
      isAnalyzing := true;
      error := None;
      request := Some(Request(text, userId.value));
      pending := State();

      // try
      var thrown: Option<Thrown> := None;
      value := None;
      match outcome {
        case Rejected(t) =>
          thrown := Some(t);
        case Resolved(result) =>
          if !result.success || result.data.None? {
            thrown := Some(ErrorInstance(OrElse(result.error, DefaultFailure)));
          } else {
            assert FailureMessage(outcome).None?;
            value := result.data;
          }
      }
      assert thrown == ThrownBy(outcome);
      // catch
      if thrown.Some? {
        var errorMessage := CaughtMessage(thrown.value);
        assert FailureMessage(outcome) == Some(errorMessage);
        notices := notices + [errorMessage];
        error := Some(errorMessage);
        value := None;
      }
      // finally
      isAnalyzing := false;
      assert c == Call(pending, State(), request, value);
    }
  }
}
