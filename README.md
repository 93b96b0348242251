# Happy Journey Buddy: the interaction state, in Dafny

This project models the state logic of a one-page celebratory web app. All of that logic is
in `src/App.tsx`; the rest of the app is drawing and animation. The model covers:

- **Start gate.** A start overlay covers everything until the first tap. The tap tries to
  play the background music once, then removes the overlay for good (`handleStart`).
- **Audio toggle.** `toggleAudio` pauses or plays the audio element and flips
  `isAudioPlaying` without waiting for the result.
- **Overlay flags.** The app has three independent flags: the birthday puzzle
  (`isMessageOpen`), the message card (`isCardOpen`) and the letter composer
  (`isLetterOpen`).
- **Puzzle popup** (`PuzzlePopup`). It has a date field and a month field, and checks the
  answer `trim(date) == "16"` and `lower(trim(month)) == "july"`. A wrong answer shakes the
  form for 500 ms. A right answer shows a confetti celebration for 3000 ms and then the
  solved screen. The solved screen's button closes the puzzle and opens the letter
  composer.
- **Confetti** (`generateConfetti`). A batch of 50 pieces, each built from five
  `Math.random()` draws.
- **Letter composer** (`LetterModal`). A blank message is never sent. Any other message is
  posted to an outside relay. Whether that call succeeds or fails, the composer shows
  "sent", and 1500 ms later it clears the message and closes.

## How the model is built

- `text.dfy` (`Text`) models JavaScript's `trim()` over the ECMA-262 whitespace and
  line-terminator code points, and `toLowerCase()` on ASCII letters.
- `confetti.dfy` (`Confetti`) models `generateConfetti` as a function. The random draws
  are a parameter: 250 reals in [0, 1).
- `puzzle.dfy` (`Puzzle`) and `letter.dfy` (`Letter`) each hold one component's state.
  - The state is a datatype (`PuzzleState`, `LetterState`), and each handler is a pure
    transition function on it.
  - Each component is also a class (`PuzzlePopup`, `LetterModal`) whose fields are the
    component's `useState` variables.
  - Each class method updates those fields in place. It is proved to do exactly what the
    matching transition function says.
- `journey.dfy` (`Journey`) holds `App`.
  - It is a class with the app's own fields. It owns one `PuzzlePopup` and one
    `LetterModal`.
  - It keeps a `pending` list for the browser's event loop. Every `setTimeout` callback
    that has been armed and not yet run waits there, and so does the relay call in flight.
  - The environment may fire any pending entry (`FireTimer`, `SettleRelay`).
  - Each user gesture and each firing is an `Event`. `Enabled` says when an event can
    happen: the element it comes from is rendered and enabled, or the pending entry it
    fires exists. `Step` gives the event's effect on a value view of the whole app.
  - Every `App` method is proved to move its view by `Step` and to keep `ValidView`.

Some of this behaviour is easy to miss, and the model keeps it as the code has it:

- **No timer is ever cancelled; there is no `clearTimeout`.**
  - A celebration timer armed before the puzzle was closed still fires after the puzzle
    is reopened. It shows the solved screen with no new answer
    (`Puzzle.StaleCelebrationSolves`, `Journey.StaleCelebrationAfterReopen`).
  - In the same way, a composer auto-close armed before the composer was closed still
    closes a reopened composer.
- **The confetti batch is drawn once, when `PuzzlePopup` mounts** (a lazy `useState`
  initialiser). Every later celebration reuses it. In the model it is the constant field
  `PuzzlePopup.confettiPieces`, which no method can change.
- **The wrong-answer timer clears only `isWrong`.** The rejection text stays on screen
  until the next right answer or close.
- **The composer's close does not reset `isSending`.** Closing it while a send is in
  flight leaves the reopened composer in "sending" until the relay call settles.

## Model

| member | source | states |
|---|---|---|
| Text.TrimStartSpec | src/App.tsx:93 | the start trim drops exactly the leading whitespace: what is left is a suffix that starts with a non-whitespace character, and what was dropped is all whitespace |
| Text.TrimEndSpec | src/App.tsx:93 | the end trim drops exactly the trailing whitespace: what is left is a prefix that ends with a non-whitespace character, and what was dropped is all whitespace |
| Text.TrimSpec | src/App.tsx:93 | `trim()` gives a bare slice of its input with only whitespace before and after it |
| Text.TrimStartPadded | src/App.tsx:93 | the start trim of whitespace followed by a string that starts with a non-whitespace character is that string |
| Text.TrimEndPadded | src/App.tsx:93 | the end trim of a string that ends with a non-whitespace character, followed by whitespace, is that string |
| Text.TrimOfPadded | src/App.tsx:93 | trimming a bare string padded with whitespace gives back the bare string |
| Text.TrimIff | src/App.tsx:93 | for a bare `t`, `s.trim() == t` exactly when `s` is `t` with whitespace around it |
| Text.TrimEmptyIff | src/App.tsx:333 | `s.trim()` is empty exactly when `s` is all whitespace |
| Text.TrimIdempotent | src/App.tsx:93 | trimming twice is trimming once |
| Text.TrimOfBare | src/App.tsx:93 | a bare string is its own trim |
| Text.ToLower | src/App.tsx:93 | `toLowerCase()` keeps the length, maps A-Z to a-z and leaves every other character as it is |
| Text.LowerOfLower | src/App.tsx:93 | a string without upper-case letters is its own lower case |
| Text.ToLowerKeepsBare | src/App.tsx:93 | lower-casing neither adds nor removes whitespace at the ends |
| Confetti.ColorFor | src/App.tsx:74 | the colour picked from a draw is one of the 9 palette entries |
| Confetti.GenerateConfetti | src/App.tsx:68-77 | exactly 50 pieces; piece `i` has id `i`, x in [0,100), delay in [0,0.5), duration in [2,4), rotation in [0,360) and a palette colour |
| Confetti.ColorBand | src/App.tsx:74 | palette entry `k` is picked exactly when the draw lies in [k/9, (k+1)/9), so each colour is equally likely |
| Confetti.PieceUsesOwnDraws | src/App.tsx:69-76 | a piece depends only on its own five draws |
| Puzzle.Submit | src/App.tsx:92-106 | the celebration timer is armed exactly when the answer is accepted. A right answer shows the confetti and clears `isWrong` and the rejection text. A wrong one sets `isWrong` and the rejection text. Both keep the typed answer and `isSolved` |
| Puzzle.Close | src/App.tsx:108-114 | closing gives the idle phase with empty fields and no rejection text, whatever the state before |
| Puzzle.DateCheckIff | src/App.tsx:89-93 | the date passes exactly when it is "16" with whitespace around it |
| Puzzle.MonthCheckIff | src/App.tsx:90-93 | the month passes exactly when it is a case variant of "july" with whitespace around it |
| Puzzle.AcceptsIff | src/App.tsx:89-93 | the answer is accepted exactly when both halves pass; neither half is enough alone |
| Puzzle.AcceptsCapitalisedMonth | src/App.tsx:93 | ("16", "July") is accepted |
| Puzzle.AcceptsPaddedDate | src/App.tsx:93 | (" 16 ", "july") is accepted |
| Puzzle.RejectedExamples | src/App.tsx:93 | ("16", "August") and ("6", "july") are rejected |
| Puzzle.MonthOptionAccepted | src/App.tsx:226-246 | of the 13 values the month select offers, only "july" passes the month check |
| Puzzle.SubmitPhase | src/App.tsx:92-106 | a submit from the form moves to the celebration exactly when the answer is accepted, to wrong feedback otherwise, and keeps the puzzle invariant |
| Puzzle.WrongFeedbackRecovers | src/App.tsx:101-104 | a wrong submit keeps the typed answer; its timer resets only `isWrong`, which returns to the idle form with the rejection text still set |
| Puzzle.CelebrationSolves | src/App.tsx:93-100 | a right submit clears the rejection; its timer hides the confetti, sets `isSolved`, changes nothing else and reaches the solved phase |
| Puzzle.TimerKeepsInv | src/App.tsx:97-104 | every timer, stale or not, keeps the invariant and never starts wrong feedback |
| Puzzle.StaleCelebrationSolves | src/App.tsx:97-116 | a celebration timer firing after a close puts the reset puzzle on the solved screen with an empty date |
| Puzzle.PuzzlePopup.constructor | src/App.tsx:81-87 | mounting starts from the initial state and draws the confetti batch once |
| Puzzle.PuzzlePopup.SetDate | src/App.tsx:218 | typing a date changes only the date |
| Puzzle.PuzzlePopup.SetMonth | src/App.tsx:228 | choosing a month changes only the month |
| Puzzle.PuzzlePopup.HandleSubmit | src/App.tsx:92-106 | the fields and the returned timer are what `Submit` gives |
| Puzzle.PuzzlePopup.OnTimer | src/App.tsx:97-104 | a timer callback updates the fields as that timer's effect says |
| Puzzle.PuzzlePopup.HandleClose | src/App.tsx:108-114 | closing resets all six fields to their initial values |
| Letter.BeginSend | src/App.tsx:332-335 | a relay call starts exactly when the message is not all whitespace. A blank message changes nothing; otherwise only `isSending` is set |
| Letter.Settle | src/App.tsx:352-369 | after the relay call, whatever its outcome, the composer is sent, not sending, and keeps the message |
| Letter.Cleared | src/App.tsx:354-375 | the auto-close and the close both empty the message and clear `isSent`, leaving `isSending` |
| Letter.SettleIgnoresOutcome | src/App.tsx:352-367 | success and failure of the relay call give the same state |
| Letter.SendReachesSent | src/App.tsx:332-369 | a send with the button enabled starts a call, reaches "sent" either way, and clearing then gives the initial composer |
| Letter.BlankIsIgnored | src/App.tsx:333 | a whitespace-only message is not sent and changes nothing |
| Letter.LetterModal.constructor | src/App.tsx:328-330 | mounting starts from the initial composer |
| Letter.LetterModal.SetMessage | src/App.tsx:433 | typing changes only the message |
| Letter.LetterModal.HandleSend | src/App.tsx:332-335 | the fields and the "call started" result are what `BeginSend` gives |
| Letter.LetterModal.OnFetchSettled | src/App.tsx:352-369 | the fields after the relay call are what `Settle` gives, for either outcome |
| Letter.LetterModal.OnAutoClose | src/App.tsx:354-358 | the auto-close callback clears the composer's own fields |
| Letter.LetterModal.HandleClose | src/App.tsx:372-376 | closing clears the composer's own fields |
| Journey.Remove | src/App.tsx:97 | firing a pending entry removes exactly that one entry from the pending list |
| Journey.Start | src/App.tsx:610-620 | the start tap always hides the overlay. It calls `play` once when there is an element. Audio ends up on only if it was on already or `play` resolved. Nothing else changes |
| Journey.ToggleAudio | src/App.tsx:623-632 | with an element, the toggle calls `pause` exactly when the flag was set and `play` otherwise, then negates the flag. Without an element nothing changes. No other field changes |
| Journey.HandOff | src/App.tsx:305-308 | the solved screen's button closes the puzzle, resets it and opens the letter; nothing else changes, the card included |
| Journey.SubmitKeepsValid | src/App.tsx:92-106 | a submit keeps the app invariant |
| Journey.SendKeepsValid | src/App.tsx:332-335 | a send keeps the app invariant, including that exactly one relay call is in flight while sending |
| Journey.TimerKeepsValid | src/App.tsx:97-104 | every timer firing keeps the app invariant |
| Journey.SettleKeepsValid | src/App.tsx:352-369 | the relay call settling keeps the app invariant |
| Journey.StepKeepsValid | src/App.tsx:587-632 | every enabled event keeps the app invariant: the puzzle invariant holds, the start overlay hides every other overlay, audio stays off without an element, and `isSending` holds exactly while one relay call is in flight |
| Journey.RunKeepsValid | src/App.tsx:587-632 | any sequence of enabled events from a valid app ends in a valid app |
| Journey.InitValid | src/App.tsx:588-593 | the freshly mounted app is valid |
| Journey.StartGate | src/App.tsx:610-705 | while the start overlay shows, only the tap on it can happen. The tap removes the overlay, leaves every other overlay closed, and turns audio on exactly when there is an element and `play` resolved |
| Journey.GateStaysOpen | src/App.tsx:610-620 | once removed, the start overlay never comes back |
| Journey.ToggleTwice | src/App.tsx:623-632 | two toggles restore the flag and issue one pause and one play, in the right order |
| Journey.CloseThenReopen | src/App.tsx:108-116 | closing the puzzle from any phase and opening it again gives the initial puzzle in the idle phase |
| Journey.HandOffOpensLetter | src/App.tsx:305-308 | the hand-off starts from the solved phase and ends with the puzzle closed and reset and the letter open. The card, the composer and the pending list are unchanged |
| Journey.StaleCelebrationAfterReopen | src/App.tsx:97-116 | a celebration timer armed before a close still fires after a reopen and shows the solved screen |
| Journey.SendStartsRelay | src/App.tsx:332-335 | sending a message that is not blank sets `isSending` and puts one relay call in flight |
| Journey.RelaySettlesToSent | src/App.tsx:352-369 | wherever the relay call sits in the pending list, either outcome shows "sent" and keeps the message and the overlay flag. The call leaves the list and the auto-close is added at its end |
| Journey.AutoCloseClosesLetter | src/App.tsx:354-358 | wherever the auto-close sits in the pending list, it clears the composer, closes its overlay and leaves the list |
| Journey.LetterFlow | src/App.tsx:332-370 | send, settle either way, auto-close: the composer ends closed, back in its initial state, and the pending list is back to what it was before the send |
| Journey.App.constructor | src/App.tsx:587-593 | the mounted app is valid and in its initial view, and the puzzle's confetti batch comes from the given draws |
| Journey.App.HandleStart | src/App.tsx:610-620 | the start tap moves the app by `Step` and keeps it valid |
| Journey.App.ToggleAudio | src/App.tsx:623-632 | the audio button moves the app by `Step` and keeps it valid |
| Journey.App.OpenPuzzle | src/App.tsx:756 | opening the puzzle sets its flag only |
| Journey.App.OpenCard | src/App.tsx:753 | opening the card sets its flag only |
| Journey.App.CloseCard | src/App.tsx:768 | closing the card clears its flag only |
| Journey.App.TypeDate | src/App.tsx:215-222 | typing at most two characters into the shown form changes the date only |
| Journey.App.ChooseMonth | src/App.tsx:226-246 | choosing one of the select's values changes the month only |
| Journey.App.SubmitAnswer | src/App.tsx:260-267 | the submit button runs `handleSubmit` and adds its timer to the pending list |
| Journey.App.ClosePuzzle | src/App.tsx:760-764 | closing resets the puzzle and clears its flag |
| Journey.App.OpenLetterFromPuzzle | src/App.tsx:304-308 | the hand-off as `HandOff` states it |
| Journey.App.TypeMessage | src/App.tsx:431-437 | typing changes the composer's message only |
| Journey.App.SendLetter | src/App.tsx:439-441 | the enabled send button runs `handleSend` and puts the relay call in flight |
| Journey.App.CloseLetter | src/App.tsx:771-774 | closing clears the composer and its flag |
| Journey.App.FireTimer | src/App.tsx:97-104 | a pending timer fires with the effect `Step` gives |
| Journey.App.FirePuzzleTimer | src/App.tsx:97-104 | a puzzle timer fires and leaves the pending list without it |
| Journey.App.FireLetterAutoClose | src/App.tsx:354-358 | the composer's auto-close fires: it clears the composer and closes its overlay |
| Journey.App.SettleRelay | src/App.tsx:339-369 | the relay call settles either way and leaves the pending list, the auto-close is added at the end of the list, and the composer shows "sent" |

## Left out

- Rendering, styling, every framer-motion animation and the random border radius of a
  confetti piece (src/App.tsx:139). They are visual only.
- The scene (`src/components/TrainScene.tsx`) is drawing only.
- `src/components/AudioToggle.tsx` is not part of this model: `App` never uses it.
- The audio element's construction and teardown (src/App.tsx:596-607): loop, volume,
  start offset and release. The model only knows whether an element exists, and it logs
  the `play` and `pause` calls made on it.
- Confetti.GenerateConfetti: the draws and the computed values are exact reals. The model
  does not capture IEEE-754 rounding of `Math.random() * k`, which could reach the top of
  a range for the largest possible draw.
- Real time. The 500, 1500 and 3000 ms delays are labels (`Puzzle.DelayMs`,
  `Letter.AutoCloseMs`). The environment may fire pending entries in any order, which
  also admits orders that the real delays exclude. Every proved property holds for all
  orders.
- The relay request itself (URL, access key, JSON body; src/App.tsx:339-350). Only its
  settling is modelled, as a success or a failure.
- Journey.App.HandleStart: the console message logged when `play()` is refused (src/App.tsx:616)
  is left out. It is the catch branch's only effect, and the model has no console.
- Journey.App.HandleStart: the `await` of `play()` is not split out. A second tap while
  the first `play()` is pending is not modelled.
- Journey.ToggleAudio: the `play()` promise is neither awaited nor handled, so its outcome
  changes nothing. The model does not track whether the element really plays, so it
  cannot express the gap between the flag and the element after a refused `play()`.
- Text.ToLower: only ASCII letters are mapped. Other upper-case code points that
  `toLowerCase()` would map are kept as they are, and they cannot pass the month check
  either way.
- The puzzle is mounted when `App` is constructed. In the source it mounts only after the
  start overlay is gone. Its confetti batch cannot be seen before then, so the difference
  is not observable.
- React's render batching. Each handler's state updates are applied together, as React
  applies them before the next render.
- The message card's content and its own close button. Only its open flag is modelled.
