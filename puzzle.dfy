/** The birthday-riddle popup (`PuzzlePopup`): two answer fields, an exact answer check, a
    500 ms wrong-answer shake, a 3000 ms celebration and a solved screen. The component's
    state is the value `PuzzleState`; the transitions are functions on it, and the class
    `PuzzlePopup` holds the same state in fields that its methods update in place. */
module Puzzle {
  import opened Text
  import Confetti

  const CorrectDate: string := "16"
  const CorrectMonth: string := "july"

  /** The rejection text shown under the form. */
  const WrongText: string := "\U{274C} Wrong! Try again buddy!"

  /** The values the month `<select>` can take; the date `<input>` has `maxLength` 2. */
  const MonthOptions: seq<string> :=
    ["", "january", "february", "march", "april", "may", "june", "july", "august",
     "september", "october", "november", "december"]
  const DateMaxLength: nat := 2

  datatype PuzzleState = PuzzleState(
    date: string,
    month: string,
    isSolved: bool,
    showConfetti: bool,
    isWrong: bool,
    wrongMessage: string)

  /** The `useState` initial values, also what `handleClose` restores. */
  const Initial: PuzzleState := PuzzleState("", "", false, false, false, "")

  /** The callbacks `handleSubmit` hands to `setTimeout`. */
  datatype PuzzleTimer = WrongFeedbackEnds | CelebrationEnds

  function DelayMs(t: PuzzleTimer): nat {
    match t
    case WrongFeedbackEnds => 500
    case CelebrationEnds => 3000
  }

  /** The phases of the puzzle as the screen shows them. */
  datatype Phase = Idle | WrongFeedback | Celebrating | Solved

  function PhaseOf(s: PuzzleState): Phase {
    if s.showConfetti then Celebrating
    else if s.isSolved then Solved
    else if s.isWrong then WrongFeedback
    else Idle
  }

  /** The form, with its inputs and its submit button, is rendered. */
  predicate FormShown(s: PuzzleState) {
    !s.isSolved && !s.showConfetti
  }

  /** What the flags keep to in every reachable state. */
  predicate Inv(s: PuzzleState) {
    && !(s.isSolved && s.showConfetti)
    && (s.isWrong ==> !s.showConfetti)
    && (s.wrongMessage == "" || s.wrongMessage == WrongText)
    && (s.isWrong ==> s.wrongMessage == WrongText)
  }

  /** The answer check of `handleSubmit`. */
  predicate Accepts(date: string, month: string) {
    Trim(date) == CorrectDate && ToLower(Trim(month)) == CorrectMonth
  }

  /** `handleSubmit`: the new state and the timer it arms. */
  function Submit(s: PuzzleState): (r: (PuzzleState, PuzzleTimer))
    ensures r.1 == CelebrationEnds <==> Accepts(s.date, s.month)
    ensures r.0.date == s.date && r.0.month == s.month && r.0.isSolved == s.isSolved
    ensures r.1 == CelebrationEnds ==> r.0.showConfetti && !r.0.isWrong && r.0.wrongMessage == ""
    ensures r.1 == WrongFeedbackEnds ==>
              r.0.isWrong && r.0.wrongMessage == WrongText && r.0.showConfetti == s.showConfetti
  {
    if Accepts(s.date, s.month) then
      (s.(showConfetti := true, isWrong := false, wrongMessage := ""), CelebrationEnds)
    else
      (s.(isWrong := true, wrongMessage := WrongText), WrongFeedbackEnds)
  }

  /** The effect of a timer callback when it fires. */
  function AfterTimer(s: PuzzleState, t: PuzzleTimer): PuzzleState {
    match t
    case WrongFeedbackEnds => s.(isWrong := false)
    case CelebrationEnds => s.(showConfetti := false, isSolved := true)
  }

  /** `handleClose`, whatever the state it starts from. */
  function Close(s: PuzzleState): (r: PuzzleState)
    ensures PhaseOf(r) == Idle && r.date == "" && r.month == "" && r.wrongMessage == ""
  {
    Initial
  }

  /** The date half of the check: "16" with any whitespace around it. */
  lemma DateCheckIff(date: string)
    ensures Trim(date) == CorrectDate <==> PaddedForm(date, CorrectDate)
  {
    TrimIff(date, CorrectDate);
  }

  /** The month half of the check: a case variant of "july" with any whitespace around it. */
  lemma MonthCheckIff(month: string)
    ensures ToLower(Trim(month)) == CorrectMonth <==>
              exists w :: PaddedForm(month, w) && ToLower(w) == CorrectMonth
  {
    var m := Trim(month);
    TrimSpec(month);
    TrimIff(month, m);
    if w :| PaddedForm(month, w) && ToLower(w) == CorrectMonth {
      assert Bare(ToLower(w));
      ToLowerKeepsBare(w);
      TrimIff(month, w);
    }
  }

  /** The answer is accepted exactly when the date is "16" and the month a case variant of
      "july", each with any whitespace around it; the two fields are judged jointly. */
  lemma AcceptsIff(date: string, month: string)
    ensures Accepts(date, month) <==>
              PaddedForm(date, CorrectDate)
              && exists w :: PaddedForm(month, w) && ToLower(w) == CorrectMonth
  {
    DateCheckIff(date);
    MonthCheckIff(month);
  }

  /** "16" and "July" is accepted: the month is compared case-insensitively. */
  lemma AcceptsCapitalisedMonth()
    ensures Accepts("16", "July")
  {
    TrimOfBare("16");
    TrimOfBare("July");
    var r := ToLower("July");
    assert r[0] as int == 'j' as int && r[1] == 'u' && r[2] == 'l' && r[3] == 'y';
    assert r == "july";
  }

  /** " 16 " and "july" is accepted: whitespace around a field is ignored. */
  lemma AcceptsPaddedDate()
    ensures Accepts(" 16 ", "july")
  {
    TrimOfPadded([' '], "16", [' ']);
    assert [' '] + "16" + [' '] == " 16 ";
    TrimOfBare("july");
    LowerOfLower("july");
  }

  /** Sample answers that are rejected: a right date with a wrong month and vice versa. */
  lemma RejectedExamples()
    ensures !Accepts("16", "August") && !Accepts("6", "july")
  {
    TrimOfBare("16");
    TrimOfBare("August");
    TrimOfBare("6");
  }

  /** Among the values the month `<select>` offers, only "july" passes the month check. */
  lemma MonthOptionAccepted(m: string)
    requires m in MonthOptions
    ensures ToLower(Trim(m)) == CorrectMonth <==> m == CorrectMonth
  {
    assert forall i :: 0 <= i < |m| ==> 'a' <= m[i] <= 'z';
    LowerLettersAreBare(m);
    TrimOfBare(m);
    LowerOfLower(m);
  }

  /** A submit from the form celebrates exactly when the answer is accepted and shows the
      rejection otherwise; either way the invariant holds afterwards. */
  lemma SubmitPhase(s: PuzzleState)
    requires Inv(s) && FormShown(s)
    ensures Inv(Submit(s).0)
    ensures PhaseOf(Submit(s).0) == if Accepts(s.date, s.month) then Celebrating else WrongFeedback
  {
  }

  /** A wrong submit keeps what the user typed; its timer clears only `isWrong`, so the
      screen is back to the form with the rejection text still shown. */
  lemma WrongFeedbackRecovers(s: PuzzleState)
    requires Inv(s) && FormShown(s) && !Accepts(s.date, s.month)
    ensures var w := Submit(s).0;
            w.date == s.date && w.month == s.month
            && AfterTimer(w, WrongFeedbackEnds) == w.(isWrong := false)
            && PhaseOf(AfterTimer(w, WrongFeedbackEnds)) == Idle
            && AfterTimer(w, WrongFeedbackEnds).wrongMessage == WrongText
  {
  }

  /** A correct submit clears the rejection; its timer ends the celebration on the solved
      screen and touches nothing else. */
  lemma CelebrationSolves(s: PuzzleState)
    requires Inv(s) && FormShown(s) && Accepts(s.date, s.month)
    ensures var c := Submit(s).0;
            !c.isWrong && c.wrongMessage == ""
            && AfterTimer(c, CelebrationEnds) == c.(showConfetti := false, isSolved := true)
            && PhaseOf(AfterTimer(c, CelebrationEnds)) == Solved
  {
  }

  /** Every timer, stale or not, keeps the invariant. */
  lemma TimerKeepsInv(s: PuzzleState, t: PuzzleTimer)
    requires Inv(s)
    ensures Inv(AfterTimer(s, t))
    ensures PhaseOf(AfterTimer(s, t)) != WrongFeedback || PhaseOf(s) == WrongFeedback
  {
  }

  /** Timers are never cancelled: a celebration timer armed before a close still fires and
      puts the freshly reset popup on the solved screen, without any new submit. */
  lemma StaleCelebrationSolves(s: PuzzleState)
    ensures PhaseOf(AfterTimer(Close(s), CelebrationEnds)) == Solved
    ensures AfterTimer(Close(s), CelebrationEnds).date == ""
  {
  }

  class PuzzlePopup {
    var date: string
    var month: string
    var isSolved: bool
    var showConfetti: bool
    var isWrong: bool
    var wrongMessage: string

    /** Drawn once by the lazy `useState` initialiser and shown by every celebration. */
    const confettiPieces: seq<Confetti.Piece>

    function State(): PuzzleState
      reads this
    {
      PuzzleState(date, month, isSolved, showConfetti, isWrong, wrongMessage)
    }

    /** Mounting the component. */
    constructor (draws: seq<real>)
      requires Confetti.ValidDraws(draws)
      ensures State() == Initial
      ensures confettiPieces == Confetti.GenerateConfetti(draws)
    {
      date, month := "", "";
      isSolved, showConfetti, isWrong := false, false, false;
      wrongMessage := "";
      confettiPieces := Confetti.GenerateConfetti(draws);
    }

    /** The date input's `onChange`. */
    method SetDate(v: string)
      modifies this
      ensures State() == old(State()).(date := v)
    {
      date := v;
    }

    /** The month select's `onChange`. */
    method SetMonth(v: string)
      modifies this
      ensures State() == old(State()).(month := v)
    {
      month := v;
    }

    /** `handleSubmit`; the returned timer is the one it hands to `setTimeout`. */
    method HandleSubmit() returns (t: PuzzleTimer)
      modifies this
      ensures (State(), t) == Submit(old(State()))
    {
      var d, m := date, month;
      if Trim(d) == CorrectDate && ToLower(Trim(m)) == CorrectMonth {
        showConfetti := true;
        isWrong := false;
        wrongMessage := "";
        t := CelebrationEnds;
      } else {
        isWrong := true;
        wrongMessage := WrongText;
        t := WrongFeedbackEnds;
      }
    }

    /** The body of a timer callback armed by `handleSubmit`. */
    method OnTimer(t: PuzzleTimer)
      modifies this
      ensures State() == AfterTimer(old(State()), t)
    {
      match t
      case WrongFeedbackEnds =>
        isWrong := false;
      case CelebrationEnds =>
        showConfetti := false;
        isSolved := true;
    }

    /** The component half of `handleClose`; the overlay flag belongs to the app. */
    method HandleClose()
      modifies this
      ensures State() == Close(old(State()))
    {
      date := "";
      month := "";
      isSolved := false;
      showConfetti := false;
      isWrong := false;
      wrongMessage := "";
    }
  }
}
