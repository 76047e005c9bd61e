# Lavender front end: queues, toasts and the quiz flow in Dafny

This project models the stateful core of the Lavender quiz front end (a React app) and proves
properties of it:

- **The item scheduler.** Two providers use it: the global toast provider
  (`globalFeedbackSnackbarProvider.js`) and the dialog provider (`dialogProvider.js`). Each
  keeps a pending queue and a single current slot, with three operations: *enqueue*,
  *replaceAndEnqueue* and *close*. A promotion effect moves the head of the queue into an
  empty slot. `ItemScheduler` holds one generic scheduler: the pure step functions that
  specify it, and a `Scheduler<T>` class whose methods update `queue` and `current` in place.
  `SnackbarProvider` and `DialogProvider` instantiate it.
- **The toast provider's visibility flag.** `isCurrentSnackbarVisible` has an effect that
  closes the current toast when the flag turns false. The provider also mounts the current
  toast with `hideAfterSeconds = duration / 1000` (module `SnackbarProvider`).
- **The toast components.** `SnackbarSuccessMessage` and `SnackbarAlertMessage` run the same
  code apart from their severity, so one `Kind`-tagged model covers both (module
  `SnackbarMessages`). A truthy message opens the toast, reports `isVisible(true)` and starts
  a timer. The timer is never cancelled, and it and the close button both call `handleClose`.
- **The whole toast system.** The provider and the toast instances it mounts are modelled
  together, with timer expiry as an explicit event (module `ToastLifecycle`).
- **The static messages.** `StaticSuccessMessage` and `StaticAlertMessage` hide themselves
  after a timer that is cancelled on every re-key (module `StaticMessages`).
- **The quiz.** This covers the answer and hint machine of `Flashcard.jsx` (`Flashcards`),
  the `canProceed` gate and card selection of `FlashcardsDisplay.jsx` (`FlashcardsDisplay`),
  the step machine and render switch of `pages/index.js` (`QuizApp`), and the three together
  over one session (`QuizSession`).
- **The PDF drop box.** `PdfDropBox.jsx` has an acceptance rule, its two state cells, and an
  alert toast on rejection (module `PdfDropBox`).

How React is modelled:

- Each React state cell is a field. Each `useEffect` is an explicit step that runs after the
  handler that changed its dependencies.
- A timer firing is an event in its own right.
- The fetch of the cards is a parameter, `FetchOutcome`.
- Clock readings used as keys are supplied integers. Nothing assumes they are unique.
- The state updates a handler makes after the `await` in `onFileUpload` (pages/index.js:33-34)
  are taken to commit together, as React 18's automatic batching does, so the finishing
  effect sees `loading` already false.
- The classes keep the source's state cells. Each of their methods is proved to produce the
  state given by a pure step function. The properties themselves are proved as lemmas about
  those functions.

Two behaviours of the code are easy to miss:

- A toast's timeout is always the provider's duration, 5000 ms unless one is given
  (globalFeedbackSnackbarProvider.js:85). The components' own 10-second defaults never apply to
  toasts, because the provider always passes `hideAfterSeconds`.
- The code differs from its comment here: the providers' `replaceAndEnqueue` discards the current item rather than re-queueing it. A
  comment in `dialogProvider.js` claims the item is re-queued.

## Model

| member | source | states |
|---|---|---|
| ItemScheduler.Append | src/contexts/globalFeedbackSnackbarProvider.js:85-90 | enqueue puts exactly the new item behind everything held, in order, and leaves the slot alone |
| ItemScheduler.PrependAndClear | src/contexts/globalFeedbackSnackbarProvider.js:107-113 | replaceAndEnqueue leaves the new item followed by the old queue, and an empty slot |
| ItemScheduler.Cleared | src/contexts/globalFeedbackSnackbarProvider.js:135-137 | close empties the slot and leaves the queue untouched |
| ItemScheduler.Promote | src/contexts/globalFeedbackSnackbarProvider.js:118-123 | processQueue moves the head of a non-empty queue into the slot and drops it from the queue; an empty queue is left unchanged |
| ItemScheduler.Settle | src/contexts/globalFeedbackSnackbarProvider.js:142-146 | after the promotion effect an empty slot implies an empty queue; no held item is lost or reordered; a filled slot is left as it is |
| ItemScheduler.SettleSplitsQueue | src/contexts/globalFeedbackSnackbarProvider.js:118-123 | the promoted item followed by the remaining queue is the queue before promotion |
| ItemScheduler.CloseOnEmptySlot | src/contexts/globalFeedbackSnackbarProvider.js:135-137 | close is idempotent, and closing an already empty, settled slot changes nothing |
| ItemScheduler.ShownInInsertionOrder | src/contexts/globalFeedbackSnackbarProvider.js:85-146 | under enqueue and close only, the items that become current, followed by what is still queued, are exactly the queued items followed by the enqueued ones in call order (FIFO) |
| ItemScheduler.ReplaceDiscardsCurrent | src/contexts/globalFeedbackSnackbarProvider.js:107-113 | replacing while an item is current makes the new item current over the same queue; the held items lose the old current item, which is not re-queued |
| ItemScheduler.ShownWereQueuedOrInserted | src/contexts/globalFeedbackSnackbarProvider.js:85-146 | every item that becomes current was queued before or passed to enqueue or replaceAndEnqueue |
| ItemScheduler.Scheduler.constructor | src/contexts/globalFeedbackSnackbarProvider.js:74-75 | the queue and the slot start empty |
| ItemScheduler.Scheduler.Enqueue | src/contexts/globalFeedbackSnackbarProvider.js:86-89 | the cells become Append of the old ones |
| ItemScheduler.Scheduler.CloseCurrent | src/contexts/globalFeedbackSnackbarProvider.js:135-137 | the cells become Cleared of the old ones |
| ItemScheduler.Scheduler.ReplaceAndEnqueue | src/contexts/globalFeedbackSnackbarProvider.js:107-113 | the cells become PrependAndClear of the old ones |
| ItemScheduler.Scheduler.ProcessQueue | src/contexts/globalFeedbackSnackbarProvider.js:118-123 | the cells become Promote of the old ones |
| ItemScheduler.Scheduler.Dispatch | src/contexts/globalFeedbackSnackbarProvider.js:142-146 | the cells become Settle of the old ones, hence settled |
| SnackbarProvider.NewSnackbar | src/contexts/globalFeedbackSnackbarProvider.js:85-89 | the queued toast carries the component, text and key given, and the duration given or 5000 |
| SnackbarProvider.HandleEffects | src/contexts/globalFeedbackSnackbarProvider.js:85-146 | after an entry point and both effects, the slot is settled, and: enqueue adds one toast behind all held ones; replaceAndEnqueue makes its toast current over the old queue; close, or the flag turning false, drops the current toast and keeps the queue; the flag staying false or turning true changes nothing but the flag |
| SnackbarProvider.FlagEffect | src/contexts/globalFeedbackSnackbarProvider.js:126-130 | the flag effect closes the current toast exactly when the flag has just turned false, and otherwise changes nothing; the flag itself is left as set |
| SnackbarProvider.Handle | src/contexts/globalFeedbackSnackbarProvider.js:85-146 | after any entry point and both effects the slot is settled and the flag is the one reported; enqueue holds the old toasts followed by the new one, replaceAndEnqueue holds the new toast followed by the old queue, close or the flag turning false holds just the old queue, and any other flag report only settles the slot |
| SnackbarProvider.Rendered | src/contexts/globalFeedbackSnackbarProvider.js:211-218 | a component is mounted iff a toast is current, with its text and key, and its timeout `hideAfterSeconds * 1000` equals the toast's duration |
| SnackbarProvider.FeedbackSnackbarProvider.constructor | src/contexts/globalFeedbackSnackbarProvider.js:74-76 | empty queue, empty slot, flag false |
| SnackbarProvider.FeedbackSnackbarProvider.RunEffects | src/contexts/globalFeedbackSnackbarProvider.js:126-146 | the flag effect and then the promotion effect |
| SnackbarProvider.FeedbackSnackbarProvider.EnqueueSnackbar | src/contexts/globalFeedbackSnackbarProvider.js:85-90 | the provider's state becomes Handle of an enqueue of the new toast |
| SnackbarProvider.FeedbackSnackbarProvider.ReplaceAndEnqueueSnackbar | src/contexts/globalFeedbackSnackbarProvider.js:107-113 | the provider's state becomes Handle of a replaceAndEnqueue of the new toast |
| SnackbarProvider.FeedbackSnackbarProvider.CloseCurrentSnackbar | src/contexts/globalFeedbackSnackbarProvider.js:135-137 | the provider's state becomes Handle of a close |
| SnackbarProvider.FeedbackSnackbarProvider.SetIsCurrentSnackbarVisible | src/contexts/globalFeedbackSnackbarProvider.js:126-130 | the flag is set, then both effects run |
| SnackbarProvider.FeedbackSnackbarProvider.EnqueueSuccessFeedbackSnackbar | src/contexts/globalFeedbackSnackbarProvider.js:159-161 | enqueue of a success toast, duration defaulting to 5000 |
| SnackbarProvider.FeedbackSnackbarProvider.EnqueueAlertFeedbackSnackbar | src/contexts/globalFeedbackSnackbarProvider.js:174-176 | enqueue of an alert toast, duration defaulting to 5000 |
| SnackbarProvider.FeedbackSnackbarProvider.ReplaceAndEnqueueSuccessFeedbackSnackbar | src/contexts/globalFeedbackSnackbarProvider.js:189-191 | replaceAndEnqueue of a success toast, duration defaulting to 5000 |
| SnackbarProvider.FeedbackSnackbarProvider.ReplaceAndEnqueueAlertFeedbackSnackbar | src/contexts/globalFeedbackSnackbarProvider.js:204-206 | replaceAndEnqueue of an alert toast, duration defaulting to 5000 |
| SnackbarMessages.Step | src/components/feedback-messages/SnackbarSuccessMessage.jsx:62-114 | unchanged props do nothing; a changed message or key is stored, and when the message is truthy the toast opens, reports isVisible(true) and gains one timer of `hideAfterSeconds * 1000` for the new key, while a falsy one reports nothing and starts no timer; isVisible(true) is reported only when opening on a truthy message; isVisible(false) is reported exactly on the close button or a timer, and leaves the toast closed; otherwise `open` is unchanged; only a firing removes a pending timer; the close button changes nothing but `open`, a firing removes exactly the fired timer, and props never change the kind or `hideAfterSeconds`; nothing is drawn iff closed |
| SnackbarMessages.FalsyMessageStaysClosed | src/components/feedback-messages/SnackbarAlertMessage.jsx:63-77 | a closed instance fed only falsy messages never opens, never calls isVisible and draws nothing |
| SnackbarMessages.TimersOnlyLeaveByFiring | src/components/feedback-messages/SnackbarSuccessMessage.jsx:66-82 | pending timers afterwards = pending before + openings - firings: closing and re-keying cancel no timer |
| SnackbarMessages.SnackbarMessage.constructor | src/components/feedback-messages/SnackbarSuccessMessage.jsx:62-64 | first render: closed, `hideAfterSeconds` defaulting to 10, nothing drawn |
| SnackbarMessages.SnackbarMessage.Effect | src/components/feedback-messages/SnackbarSuccessMessage.jsx:66-77 | the open effect |
| SnackbarMessages.SnackbarMessage.Rerender | src/components/feedback-messages/SnackbarSuccessMessage.jsx:66-77 | the effect runs again only on a new message or key |
| SnackbarMessages.SnackbarMessage.HandleClose | src/components/feedback-messages/SnackbarSuccessMessage.jsx:79-82 | closes and reports false |
| SnackbarMessages.SnackbarMessage.TimerFires | src/components/feedback-messages/SnackbarSuccessMessage.jsx:73-75 | the timer leaves the pending set and calls handleClose |
| ToastLifecycle.MountCurrent | src/contexts/globalFeedbackSnackbarProvider.js:211-218 | with nothing mounted and a toast current, a new component instance is appended and mounted with the toast's kind, text and key, and `hideAfterSeconds` equal to the duration / 1000; it opens, reports isVisible(true) and starts one timer of the toast's duration iff the text is truthy (SnackbarSuccessMessage.jsx:66-77); otherwise nothing changes |
| ToastLifecycle.StepWith | src/contexts/globalFeedbackSnackbarProvider.js:125-218 | the provider's queue and slot move exactly as Handle of the entry point the action reaches; the flag is true when the step mounts an instance that opens, and is otherwise the one Handle leaves; at most one instance is added, and an added one is mounted and shows the now current toast's text, key and duration / 1000; an instance that neither receives the action nor is unmounted with cancellation keeps its state; a fired timer without cancellation acts on its owner exactly as Expire; with cancellation, an unmounted toast has no pending timer |
| ToastLifecycle.Step | src/components/feedback-messages/SnackbarSuccessMessage.jsx:66-82 | as written: no instance loses a timer it did not fire, even when the provider unmounts it |
| ToastLifecycle.StepCancelling | src/components/feedback-messages/SnackbarSuccessMessage.jsx:66-82 | with the effect's timer cleared on unmount: the toast the step unmounts keeps no pending timer |
| ToastLifecycle.MountKeepsConsistent | src/contexts/globalFeedbackSnackbarProvider.js:211-218 | mounting the current toast leaves exactly the current toast mounted |
| ToastLifecycle.StepKeepsConsistent | src/contexts/globalFeedbackSnackbarProvider.js:125-218 | with or without timer cancellation, a component is mounted iff a toast is current, and it shows that toast's text and key |
| ToastLifecycle.StaleTimerClosesLaterToast | src/components/feedback-messages/SnackbarSuccessMessage.jsx:73-77 | as written, the timer of a preempted toast closes the toast that replaced it while that toast's own timer is still pending |
| ToastLifecycle.CancellingKeepsInv | src/components/feedback-messages/StaticSuccessMessage.jsx:41-45 | with the timer cancelled on unmount, every action keeps the invariant: only the mounted toast has pending timers, all for the current key, and the flag is true while it is open or timed |
| ToastLifecycle.TimerClosesOnlyItsOwnToast | src/components/feedback-messages/SnackbarSuccessMessage.jsx:73-82 | with cancellation, a firing timer belongs to the current toast, and it drops exactly that toast, the queue staying in order |
| DialogProvider.NewDialog | src/contexts/dialogProvider.js:88-90 | the queued dialog has the component given and the props given, or `{}` |
| DialogProvider.Render | src/contexts/dialogProvider.js:128-136 | a dialog is rendered iff one is current; its `onClose` is the provider's close, overriding any passed in, and every other prop is passed through unchanged |
| DialogProvider.EnqueuedArePushed | src/contexts/dialogProvider.js:88-90 | the items the dialog calls enqueue are the dialogs enqueueDialog built, in call order |
| DialogProvider.DialogsShownInOrder | src/contexts/dialogProvider.js:88-126 | with enqueueDialog and closeCurrentlyVisibleDialog only, dialogs become visible in exactly call order (FIFO) |
| DialogProvider.DialogProvider.constructor | src/contexts/dialogProvider.js:80-81 | the queue and the slot start empty |
| DialogProvider.DialogProvider.EnqueueDialog | src/contexts/dialogProvider.js:88-90 | append, then the promotion effect |
| DialogProvider.DialogProvider.ReplaceAndEnqueueDialog | src/contexts/dialogProvider.js:97-100 | prepend and close, then the promotion effect |
| DialogProvider.DialogProvider.CloseCurrentlyVisibleDialog | src/contexts/dialogProvider.js:105-107 | close, then the promotion effect |
| StaticMessages.View | src/components/feedback-messages/StaticAlertMessage.jsx:48-58 | nothing is drawn iff `shouldRender` is false; otherwise the alert with the component's severity and the message |
| StaticMessages.TimerAlwaysCurrent | src/components/feedback-messages/StaticSuccessMessage.jsx:38-46 | whatever props and firings follow, the pending timer, if any, was started for the current message and key with delay `renderForSeconds * 1000` |
| StaticMessages.HiddenOnlyByOwnTimer | src/components/feedback-messages/StaticSuccessMessage.jsx:38-46 | the message is hidden only by its own timer firing, and every change of message or key shows it again |
| StaticMessages.StaticMessage.constructor | src/components/feedback-messages/StaticSuccessMessage.jsx:34-46 | mount: shown, `renderForSeconds` defaulting to 10, a timer for the current props pending |
| StaticMessages.StaticMessage.Rerender | src/components/feedback-messages/StaticSuccessMessage.jsx:38-46 | a re-key cancels the old timer and starts a new one; the timer stays current |
| StaticMessages.StaticMessage.TimerFires | src/components/feedback-messages/StaticSuccessMessage.jsx:41-43 | hides, and leaves no timer pending |
| Flashcards.Click | src/components/flashcard/Flashcard.jsx:9-20 | an answered card ignores clicks; onCorrect is called iff the card was unanswered and the option is correct, which selects all four options; a wrong click adds that option to the selection and sets the hints to min(hints + 1, 2); hints stay within 0..2 |
| Flashcards.ShownHints | src/components/flashcard/Flashcard.jsx:62-63 | hint one is shown once `hints >= 1`, hint two once `hints >= 2`, and nothing else |
| Flashcards.ClicksOnUnlockedCard | src/components/flashcard/Flashcard.jsx:9-20 | over any click sequence, onCorrect is called once if some click is correct and never otherwise; the card ends answered iff a click was correct; hints count the wrong clicks before it, capped at 2 |
| Flashcards.LockedCardIgnoresClicks | src/components/flashcard/Flashcard.jsx:10 | an answered card stays exactly as it is and calls onCorrect no more |
| Flashcards.Flashcard.constructor | src/components/flashcard/Flashcard.jsx:5-7 | nothing selected, no hints, unanswered |
| Flashcards.Flashcard.HandleAnswerClick | src/components/flashcard/Flashcard.jsx:9-20 | the card state and the onCorrect call are those of Click |
| FlashcardsDisplay.CurrentFlashcard | src/components/spa-flow/FlashcardsDisplay.jsx:8 | a card is selected iff `1 <= step <= length`, and it is `flashcards[step - 1]` |
| FlashcardsDisplay.FlashcardsDisplay.constructor | src/components/spa-flow/FlashcardsDisplay.jsx:9 | Next starts disabled |
| FlashcardsDisplay.FlashcardsDisplay.StepChanged | src/components/spa-flow/FlashcardsDisplay.jsx:14-16 | a step change disables Next |
| FlashcardsDisplay.FlashcardsDisplay.OnCorrect | src/components/spa-flow/FlashcardsDisplay.jsx:75-78 | onCorrect enables Next |
| FlashcardsDisplay.FlashcardsDisplay.NextClicked | src/components/spa-flow/FlashcardsDisplay.jsx:82-89 | a click on Next reaches goToNextQuestion iff `canProceed` |
| QuizApp.ErrorText | src/pages/index.js:31 | a failed fetch stores a non-empty message: the thrown one, or "Unknown error occurred" exactly when the thrown message is empty |
| QuizApp.Render | src/pages/index.js:50-65 | -1 is the finished screen; 0 is the loader or the upload screen; any other step is the loader while loading, otherwise the failure screen iff there is an error, showing the stored error, otherwise the question screen |
| QuizApp.EmptyDeckShowsQuestionWithoutCard | src/pages/index.js:61-64 | a successful fetch of an empty deck leads to the question screen at step 1, where no card is selected (the `flashcards === []` test never matches) |
| QuizApp.SingleCardDeckShowsNoQuestion | src/pages/index.js:18-20 | as written, uploading a one-card deck leads straight to the finished screen |
| QuizApp.LastQuestionNeverShown | src/pages/index.js:18-20 | as written, after an upload of n cards, no number of Next clicks ever shows question n |
| QuizApp.EveryQuestionShownWhenFixed | src/pages/index.js:18-20 | with the finishing test `step > length`, after k < n clicks question k + 1 is shown, and after n clicks the finished screen |
| QuizApp.App.constructor | src/pages/index.js:11-15 | the initial state cells |
| QuizApp.App.FinishingEffect | src/pages/index.js:18-20 | the finishing effect with the corrected test, running only when `step` changed |
| QuizApp.App.SetNumQuestionsRequested | src/pages/index.js:12 | sets the requested count and nothing else |
| QuizApp.App.BeginFileUpload | src/pages/index.js:22-25 | loading, no error, no cards |
| QuizApp.UploadFinishedWith | src/pages/index.js:26-35 | a failed fetch leaves no cards, the thrown message or the fallback as the error, the step advanced and loading off, with nothing else changed; a successful one stores exactly the fetched cards, keeps the error and the requested count, stops loading, and ends on -1 iff the deck is non-empty and the advanced step passes the finishing test, otherwise on the advanced step |
| QuizApp.UploadFailureShowsError | src/pages/index.js:29-34 | a failed fetch started from home or from a question ends on the failure screen showing the thrown message, or "Unknown error occurred" when it had none |
| QuizApp.App.EndFileUpload | src/pages/index.js:26-35 | stores the cards, or no cards and the error message; steps forward, stops loading, then the finishing effect |
| QuizApp.App.GoBackToHome | src/pages/index.js:37-42 | back to step 0 with nothing loaded |
| QuizApp.App.GoToNextQuestion | src/pages/index.js:44-47 | the next step while `length > step`, otherwise -1 |
| QuizSession.StepWith | src/components/spa-flow/FlashcardsDisplay.jsx:75-89 | a disabled Next does nothing; a click leaves the page alone and enables Next iff it answers the still-unanswered card correctly; an enabled Next changes the step and disables Next; a click leaves the card as the flashcard's own click handler does; an enabled Next moves the page as goToNextQuestion does, and the card is kept as it is, as written, or is a fresh card when `remount` models a `key` on it |
| QuizSession.AnsweredCardBlocksNext | src/components/spa-flow/FlashcardsDisplay.jsx:75-78 | as written, with the card answered and Next disabled, no sequence of inputs changes the session |
| QuizSession.StuckOnSecondQuestion | src/components/spa-flow/FlashcardsDisplay.jsx:75-78 | as written, with three or more cards, answering question 1 and pressing Next shows question 2 on an already answered card with Next disabled, for good |
| QuizSession.RemountKeepsInSync | src/components/spa-flow/FlashcardsDisplay.jsx:75-78 | with the card reset on each step change, Next is enabled exactly when the shown card is answered, after every input |
| QuizSession.CorrectAnswerAlwaysUnlocksNext | src/components/spa-flow/FlashcardsDisplay.jsx:75-78 | with the card reset on each step change, on any question reached with Next disabled, picking the correct option enables Next |
| PdfDropBox.FirstFile | src/components/input/PdfDropBox.jsx:44 | the first file of the list, present iff the list is non-empty |
| PdfDropBox.Received | src/components/input/PdfDropBox.jsx:40-61 | a file is accepted iff present with type exactly "application/pdf"; then its name is shown, no alert is raised, and it is uploaded iff a handler was given; otherwise the name is unchanged, nothing is uploaded and one 5000 ms "Only PDF files are allowed!" alert is raised |
| PdfDropBox.Label | src/components/input/PdfDropBox.jsx:79 | the caption is never empty: the file name when one is set, otherwise the prompt |
| PdfDropBox.RejectedFileRaisesAlert | src/components/input/PdfDropBox.jsx:48-50 | a rejected file puts exactly one alert behind the provider's toasts, shown at once when the provider held none |
| PdfDropBox.PdfDropBox.constructor | src/components/input/PdfDropBox.jsx:26-27 | not dragging, no file name |
| PdfDropBox.PdfDropBox.HandleDragOver | src/components/input/PdfDropBox.jsx:31-34 | dragging, name unchanged |
| PdfDropBox.PdfDropBox.HandleDragLeave | src/components/input/PdfDropBox.jsx:36-38 | not dragging, name unchanged |
| PdfDropBox.PdfDropBox.HandleDrop | src/components/input/PdfDropBox.jsx:40-51 | not dragging; name, upload and provider state as Received says |
| PdfDropBox.PdfDropBox.HandleFileSelect | src/components/input/PdfDropBox.jsx:53-61 | dragging unchanged; name, upload and provider state as Received says |

## Left out

- React itself is not modelled: batching, effect scheduling, Fade animations and MUI. Each
  effect is an explicit step that runs after the handler that changed its dependencies,
  against the state that handler left.
- Timers use no clock. A firing is an event that names its timer. Delays are kept as numbers
  and nothing is said about their order in time.
- `hideAfterSeconds` and `renderForSeconds` are exact reals. Floating-point rounding of
  `duration / 1000` and `seconds * 1000` is not modelled.
- A change of `hideAfterSeconds` or `renderForSeconds` alone does not re-run an effect in the
  source, and it is not modelled. Only `message` and the key are props of the re-render steps.
- A `null` or `undefined` message is modelled as the empty string, which is equally falsy.
- `getFlashCardsService.js` is not part of this model. Its result is the `FetchOutcome`
  parameter: the cards, or a thrown message.
- The loading and finished screens (`LoadingQuestions.jsx`, `FinishedSession.jsx`) and the
  layout-only files are not modelled. They appear only as the values of `QuizApp.Screen`. The
  slider bounds of the upload screen are not modelled either.
- The progress bar's percentage `(step / length) * 100` is a float and is not modelled.
  `FlashcardsDisplay.ProgressLabel` keeps only the `step/length` label, which is a plain
  projection with no property of its own.
- The theme files and the app composition files are not modelled. That includes the fact
  that the providers are not mounted by `enabledContextsAndWrappers.js`.
- Components passed as data are a `Kind` tag for toasts and an opaque type parameter for
  dialogs.
- The `useGlobalSnackbar` and `useDialog` context hooks are not modelled. A caller holds the
  provider object directly.
- Keys from `new Date().getTime()` are supplied integers. Their uniqueness is not assumed.
- `SnackbarMessages.SnackbarMessage` models one instance as written. It has no unmount
  operation, so the timer cancellation of the corrected system lives in
  `ToastLifecycle.StepCancelling` and not in the class.
- `QuizApp.App` uses the corrected finishing test (see Findings). The test as written is
  `Finishes(a, false)`, and the as-written lemmas use it.
- An empty deck fetched without error is not an error path of the model: it shows the question
  screen with no card (`QuizApp.EmptyDeckShowsQuestionWithoutCard`). In the source,
  Flashcard.jsx:38 then reads `question` of `undefined` and the render throws; that crash is
  not modelled.
- `QuizSession` stops at the finished screen. Leaving it (`goBackToHome` from there) is
  modelled in `QuizApp` only.

## Findings

| source | as written | input that shows it | evidently intended | confidence | as-written member | corrected member |
|---|---|---|---|---|---|---|
| src/components/feedback-messages/SnackbarSuccessMessage.jsx:73-77 | the open effect starts a timer and returns no cleanup, so a toast's timer outlives the toast and its `isVisible(false)` reaches the provider after the toast was preempted | enqueue "Saved" (key 1), then replaceAndEnqueue "Upload failed" (key 2), then the first toast's timer fires: "Upload failed" is closed at once, its own timer still pending | cancel the timer when the toast leaves the slot (a cleanup `clearTimeout`, as StaticSuccessMessage.jsx:45 has), so that a toast is closed only by its own timer or its close button | high; not executed | ToastLifecycle.StaleTimerClosesLaterToast | ToastLifecycle.TimerClosesOnlyItsOwnToast |
| src/pages/index.js:19 | the finishing effect ends the quiz as soon as `step >= flashcards.length` | upload a deck of one card: the finished screen appears without any question (this relies on the updates after the `await` committing together, as with React 18 batching); with n >= 2 cards, question n is never shown, with or without that batching | `step > flashcards.length`, matching goToNextQuestion's own `flashcards.length > step` test at src/pages/index.js:45 | high; not executed | QuizApp.LastQuestionNeverShown | QuizApp.EveryQuestionShownWhenFixed |
| src/components/spa-flow/FlashcardsDisplay.jsx:75-78 | the `Flashcard` element has no `key`, so React keeps one card instance and its `correct` lock across questions; clicks on the next question are ignored, onCorrect is never called and Next stays disabled | a deck of three cards: answer question 1 correctly and press Next; question 2 can then be neither answered nor left | a fresh card per question (`key={step}`) | high; not executed | QuizSession.StuckOnSecondQuestion | QuizSession.CorrectAnswerAlwaysUnlocksNext |
