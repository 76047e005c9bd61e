/**
 * One quiz session across the three components that share it: the page's step machine
 * (pages/index.js), the question screen's `canProceed` (FlashcardsDisplay.jsx) and the
 * card's own answer state (Flashcard.jsx). The card element carries no `key`, so React
 * keeps one card instance, and its state, from question to question; `remount` selects
 * instead a fresh card state on every step change, as a `key={step}` would.
 */
module QuizSession {
  import opened Wrappers
  import opened Flashcards
  import opened QuizApp

  datatype Session = Session(app: AppState, canProceed: bool, card: CardState)

  /** What the user does on the question screen: pick an option, or press Next. */
  datatype Input = Answer(option: Choice) | NextPressed

  /** The question screen is up, on a card of the deck. */
  predicate OnQuestion(s: Session) {
    Render(s.app).Display? && 1 <= s.app.step <= |s.app.flashcards|
  }

  /** The card on screen. */
  function Shown(s: Session): Card
    requires OnQuestion(s)
  {
    s.app.flashcards[s.app.step - 1]
  }

  /** The session after an upload of `cards`, with a fresh card and Next disabled. */
  function Begin(cards: seq<Card>, lastShown: bool): Session {
    Session(UploadedWith(cards, lastShown), false, Fresh())
  }

  /**
   * One input. A click goes to the card and, through onCorrect, may enable Next; Next is a
   * no-op while disabled, and otherwise moves the page on, which resets `canProceed` and,
   * with `remount`, the card.
   */
  function StepWith(s: Session, i: Input, remount: bool, lastShown: bool): (r: Session)
    requires OnQuestion(s)
    ensures i.NextPressed? && !s.canProceed ==> r == s
    ensures i.Answer? ==> r.app == s.app
    ensures i.Answer? ==> (r.canProceed <==> s.canProceed || (!s.card.correct && IsCorrect(Shown(s), i.option)))
    ensures i.Answer? ==> r.card == Click(s.card, Shown(s), i.option).after
    ensures i.NextPressed? && s.canProceed ==> r.app.step != s.app.step && !r.canProceed
    ensures i.NextPressed? && s.canProceed ==>
              r.app == GoToNextQuestionWith(s.app, lastShown) && r.card == (if remount then Fresh() else s.card)
  {
    match i
    case Answer(o) =>
      var c := Click(s.card, Shown(s), o);
      s.(canProceed := s.canProceed || c.calledOnCorrect, card := c.after)
    case NextPressed =>
      if !s.canProceed then s
      else Session(GoToNextQuestionWith(s.app, lastShown), false, if remount then Fresh() else s.card)
  }

  /** A run of inputs, each taken while the question screen is up. */
  function RunWith(s: Session, inputs: seq<Input>, remount: bool, lastShown: bool): Session
    decreases |inputs|
  {
    if inputs == [] || !OnQuestion(s) then s
    else RunWith(StepWith(s, inputs[0], remount, lastShown), inputs[1..], remount, lastShown)
  }

  /**
   * As written: once the card is answered and Next has reset `canProceed`, no input moves
   * the session again. Clicks are swallowed by the answered card, so onCorrect never runs
   * and Next stays disabled.
   */
  lemma {:induction false} AnsweredCardBlocksNext(s: Session, inputs: seq<Input>)
    requires OnQuestion(s) && s.card.correct && !s.canProceed
    ensures RunWith(s, inputs, false, false) == s
    decreases |inputs|
  {
    if inputs != [] {
      var t := StepWith(s, inputs[0], false, false);
      assert t == s by {
        if inputs[0].Answer? {
          assert Click(s.card, Shown(s), inputs[0].option) == ClickResult(s.card, false);
        }
      }
      AnsweredCardBlocksNext(s, inputs[1..]);
    }
  }

  /**
   * As written, a deck of three or more cards gets stuck on question 2: answering question 1
   * and pressing Next shows question 2 with the card still answered and Next disabled, and
   * from there no sequence of inputs changes anything.
   */
  lemma {:induction false} StuckOnSecondQuestion(cards: seq<Card>, inputs: seq<Input>)
    requires |cards| >= 3 && cards[0].correctAnswer == "A"
    ensures var s := RunWith(Begin(cards, false), [Answer(A), NextPressed], false, false);
            && Render(s.app) == Display(2, cards)
            && s.card.correct && !s.canProceed
            && RunWith(s, inputs, false, false) == s
  {
    var s0 := Begin(cards, false);
    assert s0.app == AppState(1, 0, false, None, cards);
    var s1 := StepWith(s0, Answer(A), false, false);
    assert IsCorrect(cards[0], A);
    assert s1.canProceed && s1.card.correct;
    var s2 := StepWith(s1, NextPressed, false, false);
    assert s2.app.step == 2;
    assert RunWith(s0, [Answer(A), NextPressed], false, false) == s2 by {
      assert [Answer(A), NextPressed][1..] == [NextPressed];
      assert [NextPressed][1..] == [];
    }
    AnsweredCardBlocksNext(s2, inputs);
  }

  /** Next is enabled exactly when the card on screen has been answered. */
  predicate InSync(s: Session) {
    s.canProceed == s.card.correct
  }

  /** Remounting the card on each step change keeps `canProceed` and the card's lock in step. */
  lemma RemountKeepsInSync(s: Session, i: Input, lastShown: bool)
    requires OnQuestion(s) && InSync(s)
    ensures InSync(StepWith(s, i, true, lastShown))
  {
  }

  lemma {:induction false} RemountedRunInSync(s: Session, inputs: seq<Input>, lastShown: bool)
    requires InSync(s)
    ensures InSync(RunWith(s, inputs, true, lastShown))
    decreases |inputs|
  {
    if inputs != [] && OnQuestion(s) {
      RemountKeepsInSync(s, inputs[0], lastShown);
      RemountedRunInSync(StepWith(s, inputs[0], true, lastShown), inputs[1..], lastShown);
    }
  }

  /**
   * With the card remounted on each step, the session never gets stuck: on whatever question
   * a run reaches with Next disabled, picking the card's correct option enables Next.
   */
  lemma CorrectAnswerAlwaysUnlocksNext(cards: seq<Card>, inputs: seq<Input>, o: Choice, lastShown: bool)
    requires var s := RunWith(Begin(cards, lastShown), inputs, true, lastShown);
             OnQuestion(s) && IsCorrect(Shown(s), o)
    ensures StepWith(RunWith(Begin(cards, lastShown), inputs, true, lastShown), Answer(o), true, lastShown).canProceed
  {
    RemountedRunInSync(Begin(cards, lastShown), inputs, lastShown);
  }
}
