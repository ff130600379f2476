/**
 * The reactant screen's view model: the cropped image, the reagent chosen
 * from the available list, the process-button rule, and the decision that
 * turns a server reply into navigation or an error message. The content
 * resolver and the network call are inputs: `CallOutcome` says what they
 * produced.
 */
module ReactantState {
  import opened Wrappers

  /** The screen state; immutable, replaced as a whole on every update. */
  datatype ReactantScreenState<Uri> = ReactantScreenState(
    croppedImageUri: Option<Uri>,
    availableReagents: seq<string>,
    selectedReagent: Option<string>,
    isProcessing: bool,
    errorMessage: Option<string>,
    isProcessButtonEnabled: bool)

  const DefaultReagents: seq<string> := ["Hydrogenation", "Halogenation", "Dihydroxylation"]

  /** The state with every field at its default. */
  function InitialState<Uri>(): ReactantScreenState<Uri> {
    ReactantScreenState(None, DefaultReagents, None, false, None, false)
  }

  /** The button is enabled exactly when an image and a reagent are both set. */
  ghost predicate ButtonAgrees<Uri>(st: ReactantScreenState<Uri>) {
    st.isProcessButtonEnabled <==> st.croppedImageUri.Some? && st.selectedReagent.Some?
  }

  /** A selected reagent is one of the available ones. */
  ghost predicate ReagentOffered<Uri>(st: ReactantScreenState<Uri>) {
    st.selectedReagent.Some? ==> st.selectedReagent.value in st.availableReagents
  }

  ghost predicate Consistent<Uri>(st: ReactantScreenState<Uri>) {
    ButtonAgrees(st) && ReagentOffered(st)
  }

  /** `updateProcessButtonState`: recomputes the button from the image and the reagent; nothing else changes. */
  function WithButtonState<Uri>(st: ReactantScreenState<Uri>): (r: ReactantScreenState<Uri>)
    ensures ButtonAgrees(r)
    ensures r.(isProcessButtonEnabled := st.isProcessButtonEnabled) == st
  {
    st.(isProcessButtonEnabled := st.croppedImageUri.Some? && st.selectedReagent.Some?)
  }

  /** `onImageCropped`. */
  function ImageCropped<Uri>(st: ReactantScreenState<Uri>, uri: Option<Uri>): ReactantScreenState<Uri> {
    WithButtonState(st.(croppedImageUri := uri))
  }

  /** `onReagentSelected`: a name not in the available list is stored as null. */
  function ReagentSelected<Uri>(st: ReactantScreenState<Uri>, reagent: Option<string>): ReactantScreenState<Uri> {
    var valid := if reagent.Some? && reagent.value in st.availableReagents then reagent else None;
    WithButtonState(st.(selectedReagent := valid))
  }

  /** `clearError`. */
  function ErrorCleared<Uri>(st: ReactantScreenState<Uri>): ReactantScreenState<Uri> {
    st.(errorMessage := None)
  }

  /** The initial state has the three reagents, no image, no reagent, no error, and is neither processing nor enabled. */
  lemma InitialStateShape<Uri>()
    ensures var st := InitialState<Uri>();
      && |st.availableReagents| == 3
      && st.croppedImageUri.None? && st.selectedReagent.None?
      && !st.isProcessing && st.errorMessage.None? && !st.isProcessButtonEnabled
      && Consistent(st)
  {
  }

  /**
   * After `onReagentSelected`, the reagent is the argument exactly when the
   * argument is available (null otherwise), and the button agrees with the
   * image and the reagent; nothing else changes.
   */
  lemma ReagentSelectedEffect<Uri>(st: ReactantScreenState<Uri>, reagent: Option<string>)
    ensures var r := ReagentSelected(st, reagent);
      && (r.selectedReagent == reagent <==> reagent.None? || reagent.value in st.availableReagents)
      && (r.selectedReagent.Some? ==> r.selectedReagent.value in st.availableReagents)
      && ButtonAgrees(r)
      && r.croppedImageUri == st.croppedImageUri && r.availableReagents == st.availableReagents
      && r.isProcessing == st.isProcessing && r.errorMessage == st.errorMessage
  {
  }

  /* ---------------- The server reply ---------------- */

  /**
   * The body the view model reads: four optional top-level fields. The
   * element types follow the molecule records of the AR screen.
   */
  datatype ModelDataResponse = ModelDataResponse(
    atoms: Option<seq<string>>,
    coords: Option<seq<seq<real>>>,
    bonds: Option<seq<seq<int>>>,
    error: Option<string>)

  /** An HTTP reply: status code, status message and the parsed body, if any. */
  datatype HttpReply = HttpReply(code: int, message: string, body: Option<ModelDataResponse>)
  {
    /** Retrofit's `isSuccessful`: a 2xx status. */
    predicate IsSuccessful() {
      200 <= code < 300
    }
  }

  /** What reading the image and calling the server produced. */
  datatype CallOutcome =
    | ImageUnreadable                              // the image part could not be built; no call is made
    | Threw(localizedMessage: Option<string>)       // an exception, with its localized message
    | Replied(reply: HttpReply)

  /** Where processing ends: navigation with the model data, or an error message. */
  datatype Verdict = Navigate(model: ModelDataResponse) | Fail(message: string)

  /** Kotlin's string template of a nullable value. */
  function Show(s: Option<string>): string {
    if s.Some? then s.value else "null"
  }

  function DigitChar(d: nat): char
    requires d < 10
  {
    "0123456789"[d]
  }

  /** Decimal rendering of a natural number. */
  function NatToString(n: nat): (r: string)
    ensures |r| >= 1 && forall c :: c in r ==> '0' <= c <= '9'
  {
    if n < 10 then [DigitChar(n)] else NatToString(n / 10) + [DigitChar(n % 10)]
  }

  /** Decimal rendering of an integer, as Kotlin's template writes it. */
  function IntToString(n: int): string {
    if n < 0 then "-" + NatToString(-n) else NatToString(n)
  }

  /** The body is complete: no error and all three payload fields present. */
  predicate CompleteModel(body: ModelDataResponse) {
    body.error.None? && body.atoms.Some? && body.coords.Some? && body.bonds.Some?
  }

  /** The decision of `onProcessReactionClicked` for one outcome. */
  function Classify(outcome: CallOutcome): (v: Verdict)
    ensures v.Navigate? <==>
      outcome.Replied? && outcome.reply.IsSuccessful() && outcome.reply.body.Some? && CompleteModel(outcome.reply.body.value)
    ensures v.Navigate? ==> v.model == outcome.reply.body.value
  {
    match outcome
    case ImageUnreadable => Fail("Failed to read image file.")
    case Threw(m) => Fail("An error occurred: " + Show(m))
    case Replied(reply) =>
      if !reply.IsSuccessful() then
        Fail("Server error: " + IntToString(reply.code) + " " + reply.message)
      else if reply.body.Some? && reply.body.value.error.None? then
        var body := reply.body.value;
        if body.atoms.Some? && body.coords.Some? && body.bonds.Some? then Navigate(body)
        else Fail("Server returned incomplete model data.")
      else if reply.body.Some? then Fail(reply.body.value.error.value)
      else Fail("Server failed to process image/reaction.")
  }

  /**
   * Every failing outcome has its own message: an unreadable image, a
   * non-2xx status (with code and message), a body carrying an error (that
   * error verbatim), a missing body, an incomplete body, and an exception.
   */
  lemma ClassifyMessages(outcome: CallOutcome)
    ensures outcome.ImageUnreadable? ==> Classify(outcome) == Fail("Failed to read image file.")
    ensures outcome.Threw? ==> Classify(outcome) == Fail("An error occurred: " + Show(outcome.localizedMessage))
    ensures outcome.Replied? && !outcome.reply.IsSuccessful() ==>
      Classify(outcome) == Fail("Server error: " + IntToString(outcome.reply.code) + " " + outcome.reply.message)
    ensures outcome.Replied? && outcome.reply.IsSuccessful() && outcome.reply.body.Some? && outcome.reply.body.value.error.Some? ==>
      Classify(outcome) == Fail(outcome.reply.body.value.error.value)
    ensures outcome.Replied? && outcome.reply.IsSuccessful() && outcome.reply.body.None? ==>
      Classify(outcome) == Fail("Server failed to process image/reaction.")
    ensures
      (outcome.Replied? && outcome.reply.IsSuccessful() && outcome.reply.body.Some?
       && outcome.reply.body.value.error.None? && !CompleteModel(outcome.reply.body.value)) ==>
      Classify(outcome) == Fail("Server returned incomplete model data.")
  {
  }

  /** The error message a verdict leaves on the screen. */
  function ErrorOf(v: Verdict): Option<string> {
    if v.Fail? then Some(v.message) else None
  }

  /** The state published when processing starts. */
  function ProcessingState<Uri>(st: ReactantScreenState<Uri>): ReactantScreenState<Uri> {
    st.(isProcessing := true, errorMessage := None)
  }

  /** The state published when processing ends, whatever happened. */
  function FinishedState<Uri>(st: ReactantScreenState<Uri>, outcome: CallOutcome): ReactantScreenState<Uri> {
    ProcessingState(st).(isProcessing := false, errorMessage := ErrorOf(Classify(outcome)))
  }

  /** The click passes the guards: the button is enabled and an image is set. */
  predicate ClickAccepted<Uri>(st: ReactantScreenState<Uri>) {
    st.isProcessButtonEnabled && st.croppedImageUri.Some?
  }

  /** `onProcessReactionClicked`, run to completion, on the state it ends in. */
  function Clicked<Uri>(st: ReactantScreenState<Uri>, outcome: CallOutcome): ReactantScreenState<Uri> {
    if !ClickAccepted(st) then st
    else if st.selectedReagent.None? then st.(errorMessage := Some("Reagent not selected"))
    else FinishedState(st, outcome)
  }

  /**
   * A disabled button or a missing image changes nothing; otherwise
   * processing ends with `isProcessing` false, with no error exactly when the
   * outcome navigates, and with image, reagents, reagent and button as before.
   */
  lemma ClickedEffect<Uri>(st: ReactantScreenState<Uri>, outcome: CallOutcome)
    ensures !ClickAccepted(st) ==> Clicked(st, outcome) == st
    ensures ClickAccepted(st) && st.selectedReagent.None? ==>
      Clicked(st, outcome) == st.(errorMessage := Some("Reagent not selected"))
    ensures ClickAccepted(st) && st.selectedReagent.Some? ==>
      var r := Clicked(st, outcome);
      && !r.isProcessing
      && (r.errorMessage.None? <==> Classify(outcome).Navigate?)
      && r.(errorMessage := st.errorMessage, isProcessing := st.isProcessing) == st
  {
  }

  /** A user action on the screen. */
  datatype Action<Uri> =
    | Crop(uri: Option<Uri>)
    | Choose(reagent: Option<string>)
    | Process(outcome: CallOutcome)
    | DismissError

  function Step<Uri>(st: ReactantScreenState<Uri>, a: Action<Uri>): ReactantScreenState<Uri> {
    match a
    case Crop(uri) => ImageCropped(st, uri)
    case Choose(reagent) => ReagentSelected(st, reagent)
    case Process(outcome) => Clicked(st, outcome)
    case DismissError => ErrorCleared(st)
  }

  function Run<Uri>(st: ReactantScreenState<Uri>, actions: seq<Action<Uri>>): ReactantScreenState<Uri>
    decreases |actions|
  {
    if actions == [] then st else Run(Step(st, actions[0]), actions[1..])
  }

  /** Every action keeps the button rule and the reagent-validity rule. */
  lemma StepConsistent<Uri>(st: ReactantScreenState<Uri>, a: Action<Uri>)
    requires Consistent(st)
    ensures Consistent(Step(st, a))
    ensures Step(st, a).availableReagents == st.availableReagents
  {
  }

  /**
   * From the initial state, whatever the user does, the button is enabled
   * exactly when an image and an available reagent are set, and the
   * available list never changes.
   */
  lemma {:induction false} RunConsistent<Uri>(st: ReactantScreenState<Uri>, actions: seq<Action<Uri>>)
    requires Consistent(st)
    ensures Consistent(Run(st, actions))
    ensures Run(st, actions).availableReagents == st.availableReagents
    decreases |actions|
  {
    if actions != [] {
      StepConsistent(st, actions[0]);
      RunConsistent(Step(st, actions[0]), actions[1..]);
    }
  }

  class ReactantViewModel<Uri> {
    var uiState: ReactantScreenState<Uri>
    /** The navigation events sent so far, each with the model data it carries. */
    var navigationEvents: seq<ModelDataResponse>

    constructor ()
      ensures uiState == InitialState() && navigationEvents == []
    {
      uiState := InitialState();
      navigationEvents := [];
    }

    method UpdateProcessButtonState()
      modifies this
      ensures uiState == WithButtonState(old(uiState)) && navigationEvents == old(navigationEvents)
    {
      var imageSelected := uiState.croppedImageUri.Some?;
      var reagentSelected := uiState.selectedReagent.Some?;
      uiState := uiState.(isProcessButtonEnabled := imageSelected && reagentSelected);
    }

    method OnImageCropped(uri: Option<Uri>)
      modifies this
      ensures uiState == ImageCropped(old(uiState), uri) && navigationEvents == old(navigationEvents)
    {
      uiState := uiState.(croppedImageUri := uri);
      UpdateProcessButtonState();
    }

    method OnReagentSelected(reagent: Option<string>)
      modifies this
      ensures uiState == ReagentSelected(old(uiState), reagent) && navigationEvents == old(navigationEvents)
    {
      var validReagent := if reagent.Some? && reagent.value in uiState.availableReagents then reagent else None;
      uiState := uiState.(selectedReagent := validReagent);
      UpdateProcessButtonState();
    }

    method ClearError()
      modifies this
      ensures uiState == ErrorCleared(old(uiState)) && navigationEvents == old(navigationEvents)
    {
      uiState := uiState.(errorMessage := None);
    }

    /**
     * `onProcessReactionClicked`, with the image read and the server call
     * already done: `outcome` is what they produced. `shown` is the state
     * published while the call is in flight, if processing started.
     */
    method OnProcessReactionClicked(outcome: CallOutcome) returns (shown: Option<ReactantScreenState<Uri>>)
      modifies this
      ensures uiState == Clicked(old(uiState), outcome)
      ensures shown == if ClickAccepted(old(uiState)) && old(uiState).selectedReagent.Some?
        then Some(ProcessingState(old(uiState))) else None
      ensures navigationEvents ==
        if shown.Some? && Classify(outcome).Navigate? then old(navigationEvents) + [Classify(outcome).model]
        else old(navigationEvents)
    {
      shown := None;
      if !uiState.isProcessButtonEnabled {
        return;
      }
      if uiState.croppedImageUri.None? {
        return;
      }
      if uiState.selectedReagent.None? {
        uiState := uiState.(errorMessage := Some("Reagent not selected"));
        return;
      }
      uiState := uiState.(isProcessing := true, errorMessage := None);
      shown := Some(uiState);
      var errorMsg: Option<string> := None;
      match outcome {
        case ImageUnreadable =>
          errorMsg := Some("Failed to read image file.");
        case Threw(m) =>
          errorMsg := Some("An error occurred: " + Show(m));
        case Replied(response) =>
          if response.IsSuccessful() {
            var body := response.body;
            if body.Some? && body.value.error.None? {
              if body.value.atoms.Some? && body.value.coords.Some? && body.value.bonds.Some? {
                navigationEvents := navigationEvents + [body.value];
              } else {
                errorMsg := Some("Server returned incomplete model data.");
              }
            } else {
              errorMsg := Some(if body.Some? then body.value.error.value else "Server failed to process image/reaction.");
            }
          } else {
            errorMsg := Some("Server error: " + IntToString(response.code) + " " + response.message);
          }
      }
      uiState := uiState.(isProcessing := false, errorMessage := errorMsg);
    }
  }
}
