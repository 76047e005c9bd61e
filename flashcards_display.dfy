/**
 * FlashcardsDisplay.jsx: the question screen. It shows the card for the current step and
 * a `step/length` label, and gates the Next button on `canProceed`, which a step change
 * resets and the card's onCorrect sets.
 */
module FlashcardsDisplay {
  import opened Wrappers
  import opened Flashcards

  /** `flashcards[step - 1]`: the card for a question step, undefined outside 1..length. */
  function CurrentFlashcard(cards: seq<Card>, step: int): (c: Option<Card>)
    ensures c.Some? <==> 1 <= step <= |cards|
    ensures c.Some? ==> c.value == cards[step - 1]
  {
    if 1 <= step <= |cards| then Some(cards[step - 1]) else None
  }

  /** The progress label's two numbers, `step` over the deck's length. */
  function ProgressLabel(cards: seq<Card>, step: int): (int, int) {
    (step, |cards|)
  }

  /** The display's `canProceed` cell and its three transitions. */
  class FlashcardsDisplay {
    var canProceed: bool

    /** Mount: the cell starts false (and the step effect sets it false again). */
    constructor ()
      ensures !canProceed
    {
      canProceed := false;
    }

    /** The effect on [step]. */
    method StepChanged()
      modifies this
      ensures !canProceed
    {
      canProceed := false;
    }

    /** The card's onCorrect callback. */
    method OnCorrect()
      modifies this
      ensures canProceed
    {
      canProceed := true;
    }

    /** A click on Next: it reaches goToNextQuestion iff the button is enabled, that is iff `canProceed`. */
    method NextClicked() returns (callsGoToNextQuestion: bool)
      ensures callsGoToNextQuestion == canProceed
    {
      callsGoToNextQuestion := canProceed;
    }
  }
}
