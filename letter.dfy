/** The letter composer (`LetterModal`): a free-text message, a send that posts it to an
    outside relay, and a "sent" confirmation that closes the composer 1500 ms later. The
    relay call is not modelled; only its settling, successful or not, is an event. */
module Letter {
  import opened Text

  datatype LetterState = LetterState(message: string, isSending: bool, isSent: bool)

  /** The `useState` initial values. */
  const Initial: LetterState := LetterState("", false, false)

  /** The delay of the auto-close timer armed once the relay call settles. */
  const AutoCloseMs: nat := 1500

  /** The send button is enabled: `disabled={!message.trim() || isSending}` is false. */
  predicate SendEnabled(s: LetterState) {
    Trim(s.message) != [] && !s.isSending
  }

  /** The synchronous part of `handleSend`, up to the `await`: a blank message is ignored,
      anything else marks the composer as sending; `requested` says a relay call started. */
  function BeginSend(s: LetterState): (r: (LetterState, bool))
    ensures r.1 <==> !AllWhitespace(s.message)
    ensures !r.1 ==> r.0 == s
    ensures r.1 ==> r.0.isSending && r.0.message == s.message && r.0.isSent == s.isSent
  {
    TrimEmptyIff(s.message);
    if Trim(s.message) == [] then (s, false) else (s.(isSending := true), true)
  }

  /** The rest of `handleSend`, once the relay call has settled: both the `try` branch and
      the `catch` branch end in the "sent" state. */
  function Settle(s: LetterState, ok: bool): (r: LetterState)
    ensures r.isSent && !r.isSending && r.message == s.message
  {
    if ok then s.(isSent := true, isSending := false)
    else s.(isSent := true, isSending := false)
  }

  /** What both the auto-close callback and `handleClose` do to the composer's own state
      (each then calls `onClose`). `isSending` is left as it is. */
  function Cleared(s: LetterState): (r: LetterState)
    ensures r.message == "" && !r.isSent && r.isSending == s.isSending
  {
    s.(message := "", isSent := false)
  }

  /** Whatever the relay answers, or if it fails, the composer reaches the same state. */
  lemma SettleIgnoresOutcome(s: LetterState)
    ensures Settle(s, true) == Settle(s, false)
  {
  }

  /** Sending a message that is not blank, then settling either way, ends in the "sent"
      state with the message kept until the auto-close clears it. */
  lemma SendReachesSent(s: LetterState, ok: bool)
    requires SendEnabled(s)
    ensures BeginSend(s).1
    ensures var t := Settle(BeginSend(s).0, ok);
            t.isSent && !t.isSending && t.message == s.message
            && Cleared(t) == LetterState("", false, false)
  {
  }

  /** A message of whitespace only is never sent. */
  lemma BlankIsIgnored(s: LetterState)
    requires AllWhitespace(s.message)
    ensures BeginSend(s) == (s, false)
  {
  }

  class LetterModal {
    var message: string
    var isSending: bool
    var isSent: bool

    function State(): LetterState
      reads this
    {
      LetterState(message, isSending, isSent)
    }

    constructor ()
      ensures State() == Initial
    {
      message, isSending, isSent := "", false, false;
    }

    /** The textarea's `onChange`. */
    method SetMessage(v: string)
      modifies this
      ensures State() == old(State()).(message := v)
    {
      message := v;
    }

    /** `handleSend` up to the `await fetch(...)`. */
    method HandleSend() returns (requested: bool)
      modifies this
      ensures (State(), requested) == BeginSend(old(State()))
    {
      var m := message;
      if Trim(m) == [] {
        requested := false;
        return;
      }
      isSending := true;
      requested := true;
    }

    /** `handleSend` after the `await`: `ok` is whether the relay call resolved. */
    method OnFetchSettled(ok: bool)
      modifies this
      ensures State() == Settle(old(State()), ok)
    {
      if ok {
        isSent := true;
      } else {
        isSent := true;
      }
      isSending := false;
    }

    /** The component half of the 1500 ms auto-close callback. */
    method OnAutoClose()
      modifies this
      ensures State() == Cleared(old(State()))
    {
      message := "";
      isSent := false;
    }

    /** The component half of `handleClose`. */
    method HandleClose()
      modifies this
      ensures State() == Cleared(old(State()))
    {
      message := "";
      isSent := false;
    }
  }
}
