/**
 * Flashcard.jsx: one multiple-choice card. A click on the correct option locks the card
 * and calls `onCorrect`; a wrong click greys that option out and reveals one more hint,
 * up to two.
 */
module Flashcards {

  /** The four options a card offers. */
  datatype Choice = A | B | C | D

  /** The option's letter, which `correctAnswer` is compared with. */
  function Letter(c: Choice): string {
    match c
    case A => "A"
    case B => "B"
    case C => "C"
    case D => "D"
  }

  /** A generated card. `correctAnswer` is whatever string the service sent. */
  datatype Card = Card(question: string, optionA: string, optionB: string, optionC: string, optionD: string,
                       correctAnswer: string, hintOne: string, hintTwo: string)

  const AllChoices: set<Choice> := {A, B, C, D}

  const MaxHints: int := 2

  /** The card's state cells: the options marked selected, the hint counter, and the lock. */
  datatype CardState = CardState(selected: set<Choice>, hints: int, correct: bool)

  function Fresh(): CardState {
    CardState({}, 0, false)
  }

  /** A click's new state, and whether it called `onCorrect`. */
  datatype ClickResult = ClickResult(after: CardState, calledOnCorrect: bool)

  predicate IsCorrect(card: Card, option: Choice) {
    Letter(option) == card.correctAnswer
  }

  /**
   * handleAnswerClick. Once locked, a click changes nothing. The correct option locks the
   * card, marks every option selected and calls onCorrect; any other option is added to the
   * selection and the hint counter grows by one, capped at two.
   */
  function Click(s: CardState, card: Card, option: Choice): (r: ClickResult)
    ensures s.correct ==> r == ClickResult(s, false)
    ensures r.calledOnCorrect <==> !s.correct && IsCorrect(card, option)
    ensures r.after.correct <==> s.correct || IsCorrect(card, option)
    ensures r.after.correct && !s.correct ==> r.after.selected == AllChoices && r.after.hints == s.hints
    ensures !r.after.correct ==> r.after.selected == s.selected + {option}
    ensures 0 <= s.hints <= MaxHints ==> s.hints <= r.after.hints <= MaxHints
    ensures !r.after.correct ==> r.after.hints == (if s.hints < MaxHints then s.hints + 1 else MaxHints)
  {
    if s.correct then ClickResult(s, false)
    else if IsCorrect(card, option) then ClickResult(s.(correct := true, selected := AllChoices), true)
    else ClickResult(s.(selected := s.selected + {option}, hints := if s.hints + 1 < MaxHints then s.hints + 1 else MaxHints), false)
  }

  /** The hints on show: the first once `hints >= 1`, the second once `hints >= 2`. */
  function ShownHints(s: CardState, card: Card): (r: seq<string>)
    ensures 0 <= s.hints <= MaxHints ==> |r| == s.hints
    ensures s.hints >= 1 ==> |r| >= 1 && r[0] == card.hintOne
    ensures s.hints >= 2 ==> |r| == 2 && r[1] == card.hintTwo
  {
    (if s.hints >= 1 then [card.hintOne] else []) + (if s.hints >= 2 then [card.hintTwo] else [])
  }

  /** The state after a sequence of clicks, and how many times onCorrect was called. */
  function Clicks(s: CardState, card: Card, options: seq<Choice>): (CardState, nat)
    decreases |options|
  {
    if options == [] then (s, 0)
    else
      var r := Click(s, card, options[0]);
      var rest := Clicks(r.after, card, options[1..]);
      (rest.0, (if r.calledOnCorrect then 1 else 0) + rest.1)
  }

  /** The number of wrong clicks before the first correct one (all of them if none is correct). */
  function WrongBeforeCorrect(card: Card, options: seq<Choice>): nat
    decreases |options|
  {
    if options == [] || IsCorrect(card, options[0]) then 0
    else 1 + WrongBeforeCorrect(card, options[1..])
  }

  predicate AnyCorrect(card: Card, options: seq<Choice>) {
    exists i :: 0 <= i < |options| && IsCorrect(card, options[i])
  }

  /**
   * Over any clicks on an unlocked card, onCorrect is called exactly once if the correct
   * option is ever clicked and never otherwise, the card ends locked in the same case, and
   * the hint counter ends at the number of wrong clicks before the correct one, capped at two.
   */
  lemma {:induction false} ClicksOnUnlockedCard(s: CardState, card: Card, options: seq<Choice>)
    requires !s.correct && 0 <= s.hints <= MaxHints
    ensures Clicks(s, card, options).1 == (if AnyCorrect(card, options) then 1 else 0)
    ensures Clicks(s, card, options).0.correct <==> AnyCorrect(card, options)
    ensures Clicks(s, card, options).0.hints ==
              if s.hints + WrongBeforeCorrect(card, options) < MaxHints
              then s.hints + WrongBeforeCorrect(card, options) else MaxHints
    decreases |options|
  {
    if options != [] {
      var r := Click(s, card, options[0]);
      if IsCorrect(card, options[0]) {
        LockedCardIgnoresClicks(r.after, card, options[1..]);
        assert AnyCorrect(card, options) by {
          assert IsCorrect(card, options[0]);
        }
      } else {
        ClicksOnUnlockedCard(r.after, card, options[1..]);
        assert AnyCorrect(card, options) <==> AnyCorrect(card, options[1..]) by {
          if AnyCorrect(card, options) {
            var i :| 0 <= i < |options| && IsCorrect(card, options[i]);
            assert options[1..][i - 1] == options[i];
          }
          if AnyCorrect(card, options[1..]) {
            var i :| 0 <= i < |options[1..]| && IsCorrect(card, options[1..][i]);
            assert options[i + 1] == options[1..][i];
          }
        }
      }
    }
  }

  /** A locked card stays exactly as it is, whatever is clicked, and never calls onCorrect again. */
  lemma {:induction false} LockedCardIgnoresClicks(s: CardState, card: Card, options: seq<Choice>)
    requires s.correct
    ensures Clicks(s, card, options) == (s, 0)
    decreases |options|
  {
    if options != [] {
      LockedCardIgnoresClicks(s, card, options[1..]);
    }
  }

  /** One mounted Flashcard. The card it shows is a prop, passed to each click. */
  class Flashcard {
    var selectedAnswers: set<Choice>
    var hints: int
    var correct: bool

    function Model(): CardState
      reads this
    {
      CardState(selectedAnswers, hints, correct)
    }

    constructor ()
      ensures Model() == Fresh()
    {
      selectedAnswers := {};
      hints := 0;
      correct := false;
    }

    /** handleAnswerClick on the shown card; returns whether it called onCorrect. */
    method HandleAnswerClick(card: Card, option: Choice) returns (calledOnCorrect: bool)
      modifies this
      ensures ClickResult(Model(), calledOnCorrect) == Click(old(Model()), card, option)
    {
      calledOnCorrect := false;
      if correct {
        return;
      }
      if Letter(option) == card.correctAnswer {
        correct := true;
        selectedAnswers := AllChoices;
        calledOnCorrect := true;
      } else {
        selectedAnswers := selectedAnswers + {option};
        hints := if hints + 1 < MaxHints then hints + 1 else MaxHints;
      }
    }

    function HintsShown(card: Card): seq<string>
      reads this
    {
      ShownHints(Model(), card)
    }
  }
}
