/**
 * The `App` page of pages/index.js: a step machine over `step` (0 home, 1..n a question,
 * -1 finished), `loading`, `error` and the fetched `flashcards`, with a finishing effect
 * that runs whenever `step` changes, and a render switch on `step`.
 */
module QuizApp {
  import opened Wrappers
  import opened Flashcards
  import opened FlashcardsDisplay

  /** What the service call yields: the cards, or a thrown error's message (empty if it had none). */
  datatype FetchOutcome = Fetched(cards: seq<Card>) | Threw(message: string)

  const UnknownError: string := "Unknown error occurred"

  /** The page's state cells. `error` is null or false when absent (both falsy), a message otherwise. */
  datatype AppState = AppState(step: int, numQuestionsRequested: int, loading: bool, error: Option<string>,
                               flashcards: seq<Card>)

  function Initial(): AppState {
    AppState(0, 0, false, None, [])
  }

  /**
   * The finishing effect's test. As written (`lastShown == false`) it finishes as soon as
   * `step >= flashcards.length`; the corrected test finishes only past the last card.
   */
  predicate Finishes(a: AppState, lastShown: bool) {
    && !a.loading
    && (if lastShown then a.step > |a.flashcards| else a.step >= |a.flashcards|)
    && |a.flashcards| > 0
  }

  /** The effect on [step]: it runs only when `step` has changed. */
  function AfterStepChange(before: int, a: AppState, lastShown: bool): AppState {
    if a.step != before && Finishes(a, lastShown) then a.(step := -1) else a
  }

  /** The message stored for a failed fetch. */
  function ErrorText(message: string): (r: string)
    ensures |r| > 0
    ensures message != "" ==> r == message
    ensures message == "" ==> r == UnknownError
  {
    if message == "" then UnknownError else message
  }

  /** onFileUpload up to the await: loading, no error, no cards. */
  function UploadStarted(a: AppState): AppState {
    a.(loading := true, error := None, flashcards := [])
  }

  /** onFileUpload after the await: store the cards or the error, step forward, stop loading. */
  function UploadFinishedWith(a: AppState, outcome: FetchOutcome, lastShown: bool): (r: AppState)
    ensures outcome.Threw? ==>
              r == a.(step := a.step + 1, loading := false, flashcards := [], error := Some(ErrorText(outcome.message)))
    ensures outcome.Fetched? ==>
              && r.flashcards == outcome.cards && !r.loading && r.error == a.error
              && r.numQuestionsRequested == a.numQuestionsRequested
    ensures outcome.Fetched? ==>
              var n := |outcome.cards|;
              r.step == (if n > 0 && (if lastShown then a.step + 1 > n else a.step + 1 >= n) then -1 else a.step + 1)
  {
    var stored := match outcome
      case Fetched(cards) => a.(flashcards := cards)
      case Threw(m) => a.(flashcards := [], error := Some(ErrorText(m)));
    AfterStepChange(a.step, stored.(step := a.step + 1, loading := false), lastShown)
  }

  function GoBackToHomeWith(a: AppState, lastShown: bool): AppState {
    AfterStepChange(a.step, a.(step := 0, loading := false, error := None, flashcards := []), lastShown)
  }

  function GoToNextQuestionWith(a: AppState, lastShown: bool): AppState {
    AfterStepChange(a.step, if |a.flashcards| > a.step then a.(step := a.step + 1) else a.(step := -1), lastShown)
  }

  /** The screens the render switch chooses between. */
  datatype Screen = FinishedSession | LoadingQuestions | UploadPdf | FailedLoading(error: string)
                  | Display(step: int, cards: seq<Card>)

  /**
   * The render switch on `step`. Its `flashcards === []` test compares two distinct arrays
   * and is always false, so an empty deck without an error goes to the question screen.
   */
  function Render(a: AppState): (r: Screen)
    ensures r.FinishedSession? <==> a.step == -1
    ensures r.LoadingQuestions? <==> a.step != -1 && a.loading
    ensures r.UploadPdf? <==> a.step == 0 && !a.loading
    ensures r.FailedLoading? <==> a.step != -1 && a.step != 0 && !a.loading && a.error.Some?
    ensures r.Display? <==> a.step != -1 && a.step != 0 && !a.loading && a.error.None?
    ensures r.Display? ==> r == Display(a.step, a.flashcards)
    ensures r.FailedLoading? ==> r.error == a.error.value
  {
    if a.step == -1 then FinishedSession
    else if a.step == 0 then (if a.loading then LoadingQuestions else UploadPdf)
    else if a.loading then LoadingQuestions
    else if a.error.Some? then FailedLoading(a.error.value)
    else Display(a.step, a.flashcards)
  }

  /** The state after a successful upload from the home screen. */
  function UploadedWith(cards: seq<Card>, lastShown: bool): AppState {
    UploadFinishedWith(UploadStarted(Initial()), Fetched(cards), lastShown)
  }

  /**
   * A failed fetch started from the home screen, or from any question, ends on the failure
   * screen showing the thrown message, or the fallback text when it had none.
   */
  lemma UploadFailureShowsError(a: AppState, m: string, lastShown: bool)
    requires a.step >= 0
    ensures Render(UploadFinishedWith(UploadStarted(a), Threw(m), lastShown)) == FailedLoading(ErrorText(m))
  {
  }

  /** k clicks on Next, each reaching goToNextQuestion only while the question screen is shown. */
  function NextsWith(a: AppState, k: nat, lastShown: bool): AppState
    decreases k
  {
    if k == 0 || !Render(a).Display? then a else NextsWith(GoToNextQuestionWith(a, lastShown), k - 1, lastShown)
  }

  /**
   * A successful fetch of an empty deck, with either finishing test, shows the question
   * screen at step 1, where there is no card to select (the component then reads a field
   * of `undefined`).
   */
  lemma EmptyDeckShowsQuestionWithoutCard(lastShown: bool)
    ensures Render(UploadedWith([], lastShown)) == Display(1, [])
    ensures CurrentFlashcard([], 1).None?
  {
  }

  /**
   * As written, a one-card deck goes straight from the upload to the finished screen: the
   * upload moves `step` to 1, which is already `>= flashcards.length`.
   */
  lemma SingleCardDeckShowsNoQuestion(c: Card)
    ensures Render(UploadedWith([c], false)) == FinishedSession
  {
  }

  /**
   * As written, the last card is never on screen: however many times Next is clicked
   * after an upload of n >= 1 cards, `step` is in 1..n-1 or -1, never n.
   */
  lemma {:induction false} LastQuestionNeverShown(cards: seq<Card>, k: nat)
    requires |cards| > 0
    ensures var a := NextsWith(UploadedWith(cards, false), k, false);
            a.step == -1 || 1 <= a.step < |cards|
    ensures Render(NextsWith(UploadedWith(cards, false), k, false)) != Display(|cards|, cards)
  {
    StaysBeforeLast(UploadedWith(cards, false), k);
  }

  lemma {:induction false} StaysBeforeLast(a: AppState, k: nat)
    requires |a.flashcards| > 0 && !a.loading
    requires a.step == -1 || 1 <= a.step < |a.flashcards|
    ensures var b := NextsWith(a, k, false);
            b.flashcards == a.flashcards && (b.step == -1 || 1 <= b.step < |a.flashcards|)
    decreases k
  {
    if k > 0 && Render(a).Display? {
      var b := GoToNextQuestionWith(a, false);
      assert NextsWith(a, k, false) == NextsWith(b, k - 1, false);
      StaysBeforeLast(b, k - 1);
    }
  }

  /**
   * With the corrected test, every card is shown in turn: after an upload of n >= 1 cards
   * and k < n clicks on Next the screen is question k + 1, and after n clicks it is the
   * finished screen.
   */
  lemma {:induction false} EveryQuestionShownWhenFixed(cards: seq<Card>, k: nat)
    requires |cards| > 0 && k <= |cards|
    ensures k < |cards| ==> Render(NextsWith(UploadedWith(cards, true), k, true)) == Display(k + 1, cards)
    ensures k == |cards| ==> Render(NextsWith(UploadedWith(cards, true), k, true)) == FinishedSession
  {
    var a := UploadedWith(cards, true);
    assert a == AppState(1, 0, false, None, cards);
    WalksThroughDeck(a, k);
  }

  lemma {:induction false} WalksThroughDeck(a: AppState, k: nat)
    requires |a.flashcards| > 0 && !a.loading && a.error.None?
    requires 1 <= a.step <= |a.flashcards| && a.step + k <= |a.flashcards| + 1
    ensures var b := NextsWith(a, k, true);
            && b.flashcards == a.flashcards && !b.loading && b.error.None?
            && b.step == (if a.step + k <= |a.flashcards| then a.step + k else -1)
    decreases k
  {
    if k > 0 {
      var b := GoToNextQuestionWith(a, true);
      assert Render(a).Display?;
      assert NextsWith(a, k, true) == NextsWith(b, k - 1, true);
      if a.step < |a.flashcards| {
        assert b.step == a.step + 1;
        WalksThroughDeck(b, k - 1);
      } else {
        assert b.step == -1 && k == 1;
      }
    }
  }

  /**
   * App's state cells and handlers. The finishing effect uses the corrected test (`step >
   * flashcards.length`); the test as written is `Finishes(a, false)`.
   */
  class App {
    var step: int
    var numQuestionsRequested: int
    var loading: bool
    var error: Option<string>
    var flashcards: seq<Card>

    function Model(): AppState
      reads this
    {
      AppState(step, numQuestionsRequested, loading, error, flashcards)
    }

    constructor ()
      ensures Model() == Initial()
    {
      step := 0;
      numQuestionsRequested := 0;
      loading := false;
      error := None;
      flashcards := [];
    }

    /** The finishing effect, given `step` as it was before the handler ran. */
    method FinishingEffect(before: int)
      modifies this
      ensures Model() == AfterStepChange(before, old(Model()), true)
    {
      if step != before && !loading && step > |flashcards| && |flashcards| > 0 {
        step := -1;
      }
    }

    /** The slider's setter. */
    method SetNumQuestionsRequested(n: int)
      modifies this
      ensures Model() == old(Model()).(numQuestionsRequested := n)
    {
      numQuestionsRequested := n;
    }

    /** onFileUpload, up to the await of the service call. */
    method BeginFileUpload()
      modifies this
      ensures Model() == UploadStarted(old(Model()))
    {
      loading := true;
      error := None;
      flashcards := [];
    }

    /** onFileUpload, from the service call's outcome on. */
    method EndFileUpload(outcome: FetchOutcome)
      modifies this
      ensures Model() == UploadFinishedWith(old(Model()), outcome, true)
    {
      var before := step;
      match outcome {
        case Fetched(cards) =>
          flashcards := cards;
        case Threw(m) =>
          flashcards := [];
          error := Some(ErrorText(m));
      }
      step := step + 1;
      loading := false;
      FinishingEffect(before);
    }

    method GoBackToHome()
      modifies this
      ensures Model() == GoBackToHomeWith(old(Model()), true)
    {
      var before := step;
      step := 0;
      loading := false;
      error := None;
      flashcards := [];
      FinishingEffect(before);
    }

    method GoToNextQuestion()
      modifies this
      ensures Model() == GoToNextQuestionWith(old(Model()), true)
    {
      var before := step;
      if |flashcards| > step {
        step := step + 1;
      } else {
        step := -1;
      }
      FinishingEffect(before);
    }

    function Screen(): Screen
      reads this
    {
      Render(Model())
    }
  }
}
