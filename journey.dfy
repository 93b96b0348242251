/** The top-level `App` component: the start gate, the audio toggle, the three overlay flags
    and the wiring between the puzzle and the letter composer. The browser's event loop is
    made explicit: every timer armed and the relay call in flight wait in `pending`, and the
    environment may fire any of them at any time (real delays only fix which comes first). */
module Journey {
  import Puzzle
  import Letter
  import Confetti
  import Text

  /** The calls made on the audio element, in order. */
  datatype AudioCall = Play | Pause

  /** Work the event loop still owes to the app. */
  datatype Pending =
    | PuzzleTimerArmed(timer: Puzzle.PuzzleTimer)
    | LetterAutoCloseArmed
    | RelayCallInFlight

  /** Everything that can happen to the app: a user gesture or a pending entry firing. */
  datatype Event =
    | StartTapped(playOk: bool)        // `handleStart`; whether `audio.play()` resolved
    | AudioButtonClicked               // `toggleAudio`
    | SecretMessageClicked             // the floating button: opens the puzzle
    | ShowMessageClicked               // opens the message card
    | CardClosed                       // the card's `onClose`
    | DateTyped(date: string)          // the puzzle's date input
    | MonthChosen(month: string)       // the puzzle's month select
    | AnswerChecked                    // the puzzle's `handleSubmit`
    | PuzzleClosed                     // the puzzle's `handleClose` (close button or backdrop)
    | AnyMessageClicked                // the solved screen's call to action
    | LetterTyped(message: string)     // the composer's textarea
    | SendClicked                      // the composer's `handleSend`
    | LetterClosed                     // the composer's `handleClose`
    | TimerFired(index: nat)           // the armed timer at `pending[index]` runs
    | RelaySettled(index: nat, ok: bool) // the relay call at `pending[index]` resolves or fails

  /** The whole state of the app as a value. */
  datatype AppView = AppView(
    hasAudio: bool,
    isAudioPlaying: bool,
    audioCalls: seq<AudioCall>,
    showStartOverlay: bool,
    isMessageOpen: bool,
    isCardOpen: bool,
    isLetterOpen: bool,
    puzzle: Puzzle.PuzzleState,
    letter: Letter.LetterState,
    pending: seq<Pending>)

  /** The app just mounted; `hasAudio` says whether an audio element exists. */
  function Init(hasAudio: bool): AppView {
    AppView(hasAudio, false, [], true, false, false, false, Puzzle.Initial, Letter.Initial, [])
  }

  /** `s` without its element at `i`. */
  function Remove<T>(s: seq<T>, i: nat): (r: seq<T>)
    requires i < |s|
    ensures |r| == |s| - 1
    ensures multiset(r) == multiset(s) - multiset{s[i]}
  {
    assert s == s[..i] + [s[i]] + s[i + 1..];
    s[..i] + s[i + 1..]
  }

  /** What every reachable view keeps to. */
  ghost predicate ValidView(v: AppView) {
    && Puzzle.Inv(v.puzzle)
    && (v.showStartOverlay ==>
          && !v.isMessageOpen && !v.isCardOpen && !v.isLetterOpen
          && !v.isAudioPlaying && v.audioCalls == [] && v.pending == []
          && v.puzzle == Puzzle.Initial && v.letter == Letter.Initial)
    && (!v.hasAudio ==> !v.isAudioPlaying && v.audioCalls == [])
    && (v.letter.isSending <==> RelayCallInFlight in v.pending)
    && multiset(v.pending)[RelayCallInFlight] <= 1
  }

  /** When the event can happen: the element it comes from is rendered and enabled, or the
      pending entry it fires exists. While the start overlay is shown, `App` renders nothing
      else. */
  predicate Enabled(v: AppView, e: Event) {
    if v.showStartOverlay then e.StartTapped?
    else match e
      case StartTapped(_) => false
      case AudioButtonClicked => true
      case SecretMessageClicked => true
      case ShowMessageClicked => true
      case CardClosed => v.isCardOpen
      case DateTyped(d) =>
        v.isMessageOpen && Puzzle.FormShown(v.puzzle) && |d| <= Puzzle.DateMaxLength
      case MonthChosen(m) =>
        v.isMessageOpen && Puzzle.FormShown(v.puzzle) && m in Puzzle.MonthOptions
      case AnswerChecked => v.isMessageOpen && Puzzle.FormShown(v.puzzle)
      case PuzzleClosed => v.isMessageOpen
      case AnyMessageClicked => v.isMessageOpen && v.puzzle.isSolved
      case LetterTyped(_) => v.isLetterOpen && !v.letter.isSent
      case SendClicked => v.isLetterOpen && !v.letter.isSent && Letter.SendEnabled(v.letter)
      case LetterClosed => v.isLetterOpen
      case TimerFired(i) => i < |v.pending| && v.pending[i] != RelayCallInFlight
      case RelaySettled(i, _) => i < |v.pending| && v.pending[i] == RelayCallInFlight
  }

  /** `handleStart`: a best-effort `play()` when there is an element, then the overlay goes. */
  function Start(v: AppView, playOk: bool): (r: AppView)
    ensures !r.showStartOverlay
    ensures r.isAudioPlaying == (v.isAudioPlaying || (v.hasAudio && playOk))
    ensures r.audioCalls == v.audioCalls + (if v.hasAudio then [Play] else [])
    ensures r.(showStartOverlay := v.showStartOverlay, isAudioPlaying := v.isAudioPlaying,
               audioCalls := v.audioCalls) == v
  {
    var v1 := if v.hasAudio then
                v.(audioCalls := v.audioCalls + [Play],
                   isAudioPlaying := if playOk then true else v.isAudioPlaying)
              else v;
    v1.(showStartOverlay := false)
  }

  /** `toggleAudio`: pause when the app believes it is playing, play otherwise, and flip
      the flag without waiting for the outcome; nothing happens without an element. */
  function ToggleAudio(v: AppView): (r: AppView)
    ensures v.hasAudio ==> r.isAudioPlaying == !v.isAudioPlaying
    ensures v.hasAudio ==>
              r.audioCalls == v.audioCalls + [if v.isAudioPlaying then Pause else Play]
    ensures r.(isAudioPlaying := v.isAudioPlaying, audioCalls := v.audioCalls) == v
    ensures !v.hasAudio ==> r == v
  {
    if v.hasAudio then
      var call := if v.isAudioPlaying then Pause else Play;
      v.(audioCalls := v.audioCalls + [call], isAudioPlaying := !v.isAudioPlaying)
    else v
  }

  /** The solved screen's call to action: `handleClose()` then `onOpenLetter()`. */
  function HandOff(v: AppView): (r: AppView)
    ensures !r.isMessageOpen && r.isLetterOpen
    ensures r.puzzle == Puzzle.Initial
    ensures r.(isMessageOpen := v.isMessageOpen, isLetterOpen := v.isLetterOpen,
               puzzle := v.puzzle) == v
  {
    var closed := v.(puzzle := Puzzle.Close(v.puzzle), isMessageOpen := false);
    closed.(isLetterOpen := true)
  }

  /** The effect of one enabled event. */
  function Step(v: AppView, e: Event): AppView
    requires Enabled(v, e)
  {
    match e
    case StartTapped(ok) => Start(v, ok)
    case AudioButtonClicked => ToggleAudio(v)
    case SecretMessageClicked => v.(isMessageOpen := true)
    case ShowMessageClicked => v.(isCardOpen := true)
    case CardClosed => v.(isCardOpen := false)
    case DateTyped(d) => v.(puzzle := v.puzzle.(date := d))
    case MonthChosen(m) => v.(puzzle := v.puzzle.(month := m))
    case AnswerChecked =>
      var (p, t) := Puzzle.Submit(v.puzzle);
      v.(puzzle := p, pending := v.pending + [PuzzleTimerArmed(t)])
    case PuzzleClosed => v.(puzzle := Puzzle.Close(v.puzzle), isMessageOpen := false)
    case AnyMessageClicked => HandOff(v)
    case LetterTyped(m) => v.(letter := v.letter.(message := m))
    case SendClicked =>
      var (l, requested) := Letter.BeginSend(v.letter);
      v.(letter := l, pending := if requested then v.pending + [RelayCallInFlight] else v.pending)
    case LetterClosed => v.(letter := Letter.Cleared(v.letter), isLetterOpen := false)
    case TimerFired(i) =>
      var rest := Remove(v.pending, i);
      (match v.pending[i]
       case PuzzleTimerArmed(t) => v.(puzzle := Puzzle.AfterTimer(v.puzzle, t), pending := rest)
       case LetterAutoCloseArmed =>
         v.(letter := Letter.Cleared(v.letter), isLetterOpen := false, pending := rest))
    case RelaySettled(i, ok) =>
      v.(letter := Letter.Settle(v.letter, ok),
         pending := Remove(v.pending, i) + [LetterAutoCloseArmed])
  }

  lemma SubmitKeepsValid(v: AppView)
    requires ValidView(v) && Enabled(v, AnswerChecked)
    ensures ValidView(Step(v, AnswerChecked))
  {
    Puzzle.SubmitPhase(v.puzzle);
    var t := Puzzle.Submit(v.puzzle).1;
    assert multiset(v.pending + [PuzzleTimerArmed(t)]) == multiset(v.pending) + multiset{PuzzleTimerArmed(t)};
  }

  lemma SendKeepsValid(v: AppView)
    requires ValidView(v) && Enabled(v, SendClicked)
    ensures ValidView(Step(v, SendClicked))
  {
    assert Letter.BeginSend(v.letter).1 by {
      Text.TrimEmptyIff(v.letter.message);
    }
    assert multiset(v.pending + [RelayCallInFlight]) == multiset(v.pending) + multiset{RelayCallInFlight};
  }

  lemma TimerKeepsValid(v: AppView, i: nat)
    requires ValidView(v) && Enabled(v, TimerFired(i))
    ensures ValidView(Step(v, TimerFired(i)))
  {
    var rest := Remove(v.pending, i);
    assert multiset(rest)[RelayCallInFlight] == multiset(v.pending)[RelayCallInFlight];
    match v.pending[i]
    case PuzzleTimerArmed(t) =>
      Puzzle.TimerKeepsInv(v.puzzle, t);
    case LetterAutoCloseArmed =>
  }

  lemma SettleKeepsValid(v: AppView, i: nat, ok: bool)
    requires ValidView(v) && Enabled(v, RelaySettled(i, ok))
    ensures ValidView(Step(v, RelaySettled(i, ok)))
  {
    var rest := Remove(v.pending, i);
    assert multiset(rest)[RelayCallInFlight] == 0;
    assert multiset(rest + [LetterAutoCloseArmed]) == multiset(rest) + multiset{LetterAutoCloseArmed};
  }

  /** Every enabled event keeps the view valid. */
  lemma StepKeepsValid(v: AppView, e: Event)
    requires ValidView(v) && Enabled(v, e)
    ensures ValidView(Step(v, e))
  {
    match e
    case AnswerChecked => SubmitKeepsValid(v);
    case SendClicked => SendKeepsValid(v);
    case TimerFired(i) => TimerKeepsValid(v, i);
    case RelaySettled(i, ok) => SettleKeepsValid(v, i, ok);
    case _ =>
  }

  /** The events of `es`, applied in order from `v`, are each enabled when they happen. */
  predicate Runs(v: AppView, es: seq<Event>)
    decreases |es|
  {
    es == [] || (Enabled(v, es[0]) && Runs(Step(v, es[0]), es[1..]))
  }

  function Run(v: AppView, es: seq<Event>): AppView
    requires Runs(v, es)
    decreases |es|
  {
    if es == [] then v else Run(Step(v, es[0]), es[1..])
  }

  /** Every state reached from a freshly mounted app by enabled events is valid. */
  lemma {:induction false} RunKeepsValid(v: AppView, es: seq<Event>)
    requires ValidView(v) && Runs(v, es)
    ensures ValidView(Run(v, es))
    decreases |es|
  {
    if es != [] {
      StepKeepsValid(v, es[0]);
      RunKeepsValid(Step(v, es[0]), es[1..]);
    }
  }

  lemma InitValid(hasAudio: bool)
    ensures ValidView(Init(hasAudio))
  {
  }

  /** The start gate: while it is shown only a tap on it can happen; the tap always removes
      it, plays when there is an element, and leaves audio on only when `play()` resolved. */
  lemma StartGate(v: AppView, e: Event)
    requires ValidView(v) && v.showStartOverlay && Enabled(v, e)
    ensures e.StartTapped?
    ensures var r := Step(v, e);
            !r.showStartOverlay
            && r.isAudioPlaying == (v.hasAudio && e.playOk)
            && r.audioCalls == (if v.hasAudio then [Play] else [])
            && !r.isMessageOpen && !r.isCardOpen && !r.isLetterOpen
  {
  }

  /** Once gone, the start overlay never comes back. */
  lemma {:induction false} GateStaysOpen(v: AppView, es: seq<Event>)
    requires Runs(v, es) && !v.showStartOverlay
    ensures !Run(v, es).showStartOverlay
    decreases |es|
  {
    if es != [] {
      GateStaysOpen(Step(v, es[0]), es[1..]);
    }
  }

  /** Two toggles in a row restore the flag and issue one pause and one play. */
  lemma ToggleTwice(v: AppView)
    requires v.hasAudio
    ensures ToggleAudio(ToggleAudio(v)).isAudioPlaying == v.isAudioPlaying
    ensures ToggleAudio(ToggleAudio(v)).audioCalls ==
              v.audioCalls + (if v.isAudioPlaying then [Pause, Play] else [Play, Pause])
    ensures ToggleAudio(ToggleAudio(v)).(audioCalls := v.audioCalls) == v
  {
    var once := ToggleAudio(v);
    assert once.audioCalls + [if once.isAudioPlaying then Pause else Play]
        == v.audioCalls + (if v.isAudioPlaying then [Pause, Play] else [Play, Pause]);
  }

  /** Closing the puzzle from any phase and opening it again gives the initial puzzle. */
  lemma CloseThenReopen(v: AppView)
    requires Enabled(v, PuzzleClosed)
    ensures Enabled(Step(v, PuzzleClosed), SecretMessageClicked)
    ensures var r := Step(Step(v, PuzzleClosed), SecretMessageClicked);
            r.isMessageOpen && r.puzzle == Puzzle.Initial && Puzzle.PhaseOf(r.puzzle) == Puzzle.Idle
  {
  }

  /** The hand-off leaves the puzzle closed and reset, the letter open and the card as it
      was; the solved screen it starts from is reachable only by a celebration timer. */
  lemma HandOffOpensLetter(v: AppView)
    requires ValidView(v) && Enabled(v, AnyMessageClicked)
    ensures Puzzle.PhaseOf(v.puzzle) == Puzzle.Solved
    ensures var r := Step(v, AnyMessageClicked);
            !r.isMessageOpen && r.isLetterOpen && r.isCardOpen == v.isCardOpen
            && r.puzzle == Puzzle.Initial && r.letter == v.letter && r.pending == v.pending
  {
  }

  /** Timers are not cancelled: a celebration timer armed before the puzzle was closed and
      reopened still fires and shows the solved screen, with no answer submitted since. */
  lemma StaleCelebrationAfterReopen(v: AppView, i: nat)
    requires Enabled(v, PuzzleClosed)
    requires i < |v.pending| && v.pending[i] == PuzzleTimerArmed(Puzzle.CelebrationEnds)
    ensures var reopened := Step(Step(v, PuzzleClosed), SecretMessageClicked);
            Enabled(reopened, TimerFired(i))
            && Puzzle.PhaseOf(Step(reopened, TimerFired(i)).puzzle) == Puzzle.Solved
            && Step(reopened, TimerFired(i)).puzzle.date == ""
  {
  }

  /** Sending a letter that is not blank starts exactly one relay call. */
  lemma SendStartsRelay(v: AppView)
    requires ValidView(v) && Enabled(v, SendClicked)
    ensures var sent := Step(v, SendClicked);
            sent.letter.isSending && sent.letter.message == v.letter.message
            && sent.pending == v.pending + [RelayCallInFlight]
            && Enabled(sent, RelaySettled(|v.pending|, true))
  {
    Text.TrimEmptyIff(v.letter.message);
  }

  /** Whether the relay call resolves or fails, the composer shows "sent"; the call leaves
      the pending list, wherever it sits in it, and the auto-close is armed at its end. */
  lemma RelaySettlesToSent(v: AppView, i: nat, ok: bool)
    requires ValidView(v) && Enabled(v, RelaySettled(i, ok))
    ensures var settled := Step(v, RelaySettled(i, ok));
            settled.letter.isSent && !settled.letter.isSending
            && settled.letter.message == v.letter.message
            && settled.isLetterOpen == v.isLetterOpen
            && settled.pending == Remove(v.pending, i) + [LetterAutoCloseArmed]
            && Enabled(settled, TimerFired(|v.pending| - 1))
  {
  }

  /** The auto-close, wherever it sits in the pending list, clears the composer, closes its
      overlay and leaves the pending list. */
  lemma AutoCloseClosesLetter(v: AppView, i: nat)
    requires ValidView(v) && Enabled(v, TimerFired(i))
    requires v.pending[i] == LetterAutoCloseArmed
    ensures var done := Step(v, TimerFired(i));
            !done.isLetterOpen && done.letter == Letter.Cleared(v.letter)
            && done.pending == Remove(v.pending, i)
  {
  }

  /** A letter that is not blank goes out; whether the relay answers or fails, the composer
      shows "sent", and the auto-close then clears it and closes the overlay. */
  lemma LetterFlow(v: AppView, ok: bool)
    requires ValidView(v) && Enabled(v, SendClicked)
    ensures var sent := Step(v, SendClicked);
            var n := |v.pending|;
            Enabled(sent, RelaySettled(n, ok))
            && var settled := Step(sent, RelaySettled(n, ok));
               settled.letter.isSent && !settled.letter.isSending && settled.isLetterOpen
               && Enabled(settled, TimerFired(n))
               && var done := Step(settled, TimerFired(n));
                  !done.isLetterOpen && done.letter == Letter.Initial && done.pending == v.pending
  {
    var n := |v.pending|;
    SendStartsRelay(v);
    var sent := Step(v, SendClicked);
    assert sent.pending[..n] == v.pending;
    SendKeepsValid(v);
    RelaySettlesToSent(sent, n, ok);
    var settled := Step(sent, RelaySettled(n, ok));
    assert settled.pending == v.pending + [LetterAutoCloseArmed];
    SettleKeepsValid(sent, n, ok);
    AutoCloseClosesLetter(settled, n);
    assert Remove(settled.pending, n) == v.pending;
  }

  class App {
    const hasAudio: bool
    var isAudioPlaying: bool
    var audioCalls: seq<AudioCall>
    var showStartOverlay: bool
    var isMessageOpen: bool
    var isCardOpen: bool
    var isLetterOpen: bool
    var pending: seq<Pending>
    const puzzle: Puzzle.PuzzlePopup
    const letter: Letter.LetterModal

    function View(): AppView
      reads this, puzzle, letter
    {
      AppView(hasAudio, isAudioPlaying, audioCalls, showStartOverlay, isMessageOpen,
              isCardOpen, isLetterOpen, puzzle.State(), letter.State(), pending)
    }

    ghost predicate Valid()
      reads this, puzzle, letter
    {
      ValidView(View())
    }

    /** Mounting the app; `draws` are the `Math.random()` results the puzzle's confetti
        batch is made from. */
    constructor (hasAudio: bool, draws: seq<real>)
      requires Confetti.ValidDraws(draws)
      ensures Valid() && View() == Init(hasAudio)
      ensures puzzle.confettiPieces == Confetti.GenerateConfetti(draws)
    {
      this.hasAudio := hasAudio;
      isAudioPlaying := false;
      audioCalls := [];
      showStartOverlay := true;
      isMessageOpen, isCardOpen, isLetterOpen := false, false, false;
      pending := [];
      puzzle := new Puzzle.PuzzlePopup(draws);
      letter := new Letter.LetterModal();
    }

    /** `handleStart`; `playOk` is whether `audio.play()` resolved. */
    method HandleStart(playOk: bool)
      requires Valid() && Enabled(View(), StartTapped(playOk))
      modifies this
      ensures Valid() && View() == Step(old(View()), StartTapped(playOk))
    {
      StepKeepsValid(View(), StartTapped(playOk));
      if hasAudio {
        audioCalls := audioCalls + [Play];
        if playOk {
          isAudioPlaying := true;
        }
      }
      showStartOverlay := false;
    }

    /** `toggleAudio`. */
    method ToggleAudio()
      requires Valid() && Enabled(View(), AudioButtonClicked)
      modifies this
      ensures Valid() && View() == Step(old(View()), AudioButtonClicked)
    {
      StepKeepsValid(View(), AudioButtonClicked);
      if hasAudio {
        if isAudioPlaying {
          audioCalls := audioCalls + [Pause];
        } else {
          audioCalls := audioCalls + [Play];
        }
        isAudioPlaying := !isAudioPlaying;
      }
    }

    method OpenPuzzle()
      requires Valid() && Enabled(View(), SecretMessageClicked)
      modifies this
      ensures Valid() && View() == Step(old(View()), SecretMessageClicked)
    {
      StepKeepsValid(View(), SecretMessageClicked);
      isMessageOpen := true;
    }

    method OpenCard()
      requires Valid() && Enabled(View(), ShowMessageClicked)
      modifies this
      ensures Valid() && View() == Step(old(View()), ShowMessageClicked)
    {
      StepKeepsValid(View(), ShowMessageClicked);
      isCardOpen := true;
    }

    method CloseCard()
      requires Valid() && Enabled(View(), CardClosed)
      modifies this
      ensures Valid() && View() == Step(old(View()), CardClosed)
    {
      StepKeepsValid(View(), CardClosed);
      isCardOpen := false;
    }

    method TypeDate(d: string)
      requires Valid() && Enabled(View(), DateTyped(d))
      modifies puzzle
      ensures Valid() && View() == Step(old(View()), DateTyped(d))
    {
      StepKeepsValid(View(), DateTyped(d));
      puzzle.SetDate(d);
    }

    method ChooseMonth(m: string)
      requires Valid() && Enabled(View(), MonthChosen(m))
      modifies puzzle
      ensures Valid() && View() == Step(old(View()), MonthChosen(m))
    {
      StepKeepsValid(View(), MonthChosen(m));
      puzzle.SetMonth(m);
    }

    /** The puzzle's submit button: `handleSubmit` and the timer it arms. */
    method SubmitAnswer()
      requires Valid() && Enabled(View(), AnswerChecked)
      modifies this, puzzle
      ensures Valid() && View() == Step(old(View()), AnswerChecked)
    {
      StepKeepsValid(View(), AnswerChecked);
      var t := puzzle.HandleSubmit();
      pending := pending + [PuzzleTimerArmed(t)];
    }

    /** The puzzle's `handleClose`, ending in its `onClose`. */
    method ClosePuzzle()
      requires Valid() && Enabled(View(), PuzzleClosed)
      modifies this, puzzle
      ensures Valid() && View() == Step(old(View()), PuzzleClosed)
    {
      StepKeepsValid(View(), PuzzleClosed);
      puzzle.HandleClose();
      isMessageOpen := false;
    }

    /** The solved screen's call to action: close the puzzle, then open the letter. */
    method OpenLetterFromPuzzle()
      requires Valid() && Enabled(View(), AnyMessageClicked)
      modifies this, puzzle
      ensures Valid() && View() == Step(old(View()), AnyMessageClicked)
    {
      StepKeepsValid(View(), AnyMessageClicked);
      puzzle.HandleClose();
      isMessageOpen := false;
      isLetterOpen := true;
    }

    method TypeMessage(m: string)
      requires Valid() && Enabled(View(), LetterTyped(m))
      modifies letter
      ensures Valid() && View() == Step(old(View()), LetterTyped(m))
    {
      StepKeepsValid(View(), LetterTyped(m));
      letter.SetMessage(m);
    }

    /** The composer's send button: `handleSend` up to the relay call it starts. */
    method SendLetter()
      requires Valid() && Enabled(View(), SendClicked)
      modifies this, letter
      ensures Valid() && View() == Step(old(View()), SendClicked)
    {
      StepKeepsValid(View(), SendClicked);
      var requested := letter.HandleSend();
      if requested {
        pending := pending + [RelayCallInFlight];
      }
    }

    /** The composer's `handleClose`, ending in its `onClose`. */
    method CloseLetter()
      requires Valid() && Enabled(View(), LetterClosed)
      modifies this, letter
      ensures Valid() && View() == Step(old(View()), LetterClosed)
    {
      StepKeepsValid(View(), LetterClosed);
      letter.HandleClose();
      isLetterOpen := false;
    }

    /** The event loop runs the timer callback waiting at `pending[i]`. */
    method FireTimer(i: nat)
      requires Valid() && Enabled(View(), TimerFired(i))
      modifies this, puzzle, letter
      ensures Valid() && View() == Step(old(View()), TimerFired(i))
    {
      match pending[i]
      case PuzzleTimerArmed(t) =>
        FirePuzzleTimer(i, t);
      case LetterAutoCloseArmed =>
        FireLetterAutoClose(i);
    }

    /** A callback of `handleSubmit` runs. */
    method FirePuzzleTimer(i: nat, t: Puzzle.PuzzleTimer)
      requires Valid() && i < |pending| && pending[i] == PuzzleTimerArmed(t)
      modifies this, puzzle
      ensures Valid() && View() == Step(old(View()), TimerFired(i))
    {
      StepKeepsValid(View(), TimerFired(i));
      pending := Remove(pending, i);
      puzzle.OnTimer(t);
    }

    /** The composer's auto-close callback runs: it clears the composer and calls `onClose`. */
    method FireLetterAutoClose(i: nat)
      requires Valid() && i < |pending| && pending[i] == LetterAutoCloseArmed
      modifies this, letter
      ensures Valid() && View() == Step(old(View()), TimerFired(i))
    {
      StepKeepsValid(View(), TimerFired(i));
      pending := Remove(pending, i);
      letter.OnAutoClose();
      isLetterOpen := false;
    }

    /** The relay call waiting at `pending[i]` settles: `ok` says it resolved. Either way
        the composer shows "sent" and arms its auto-close. */
    method SettleRelay(i: nat, ok: bool)
      requires Valid() && Enabled(View(), RelaySettled(i, ok))
      modifies this, letter
      ensures Valid() && View() == Step(old(View()), RelaySettled(i, ok))
    {
      StepKeepsValid(View(), RelaySettled(i, ok));
      pending := Remove(pending, i);
      letter.OnFetchSettled(ok);
      pending := pending + [LetterAutoCloseArmed];
    }
  }
}
