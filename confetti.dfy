/** The confetti batch of the puzzle's celebration (`generateConfetti`). Each `Math.random()`
    call is an injected draw, a real in [0, 1); a piece consumes five draws in the order its
    object literal evaluates them: x, delay, duration, colour, rotation. */
module Confetti {

  /** `confettiColors`, in source order. */
  const Palette: seq<string> :=
    ["#ff0", "#f0f", "#0ff", "#f00", "#0f0", "#00f", "#ff6b6b", "#4ecdc4", "#ffe66d"]

  /** The batch length passed to `Array.from`. */
  const BatchSize: nat := 50

  /** Random draws consumed per piece. */
  const DrawsPerPiece: nat := 5

  datatype Piece = Piece(id: int, x: real, delay: real, duration: real, color: string, rotation: real)

  /** What `Math.random()` may return. */
  predicate IsDraw(u: real) {
    0.0 <= u < 1.0
  }

  /** The draws one whole batch consumes. */
  predicate ValidDraws(draws: seq<real>) {
    |draws| == BatchSize * DrawsPerPiece && forall k :: 0 <= k < |draws| ==> IsDraw(draws[k])
  }

  /** The ranges a piece generated at position `i` lies in. */
  predicate WellFormed(p: Piece, i: int) {
    && p.id == i
    && 0.0 <= p.x < 100.0
    && 0.0 <= p.delay < 0.5
    && 2.0 <= p.duration < 4.0
    && 0.0 <= p.rotation < 360.0
    && p.color in Palette
  }

  /** `confettiColors[Math.floor(u * confettiColors.length)]`. */
  function ColorFor(u: real): (c: string)
    requires IsDraw(u)
    ensures c in Palette
  {
    Palette[(u * |Palette| as real).Floor]
  }

  /** The piece built from its five draws `u`. */
  function MakePiece(i: nat, u: seq<real>): Piece
    requires |u| == DrawsPerPiece && forall k :: 0 <= k < |u| ==> IsDraw(u[k])
  {
    Piece(i, u[0] * 100.0, u[1] * 0.5, 2.0 + u[2] * 2.0, ColorFor(u[3]), u[4] * 360.0)
  }

  /** The draws that piece `i` consumes. */
  function DrawsOf(draws: seq<real>, i: nat): (u: seq<real>)
    requires ValidDraws(draws) && i < BatchSize
    ensures |u| == DrawsPerPiece && forall k :: 0 <= k < |u| ==> IsDraw(u[k])
  {
    draws[DrawsPerPiece * i .. DrawsPerPiece * i + DrawsPerPiece]
  }

  /** `generateConfetti()`: 50 pieces, piece `i` has id `i` and every parameter in range. */
  function GenerateConfetti(draws: seq<real>): (batch: seq<Piece>)
    requires ValidDraws(draws)
    ensures |batch| == BatchSize
    ensures forall i :: 0 <= i < |batch| ==> WellFormed(batch[i], i)
  {
    seq(BatchSize, i requires 0 <= i < BatchSize => MakePiece(i, DrawsOf(draws, i)))
  }

  /** Colour `k` is chosen exactly when the colour draw falls in the k-th ninth of [0, 1),
      so each palette entry is equally likely. */
  lemma ColorBand(u: real, k: nat)
    requires IsDraw(u) && k < |Palette|
    ensures ColorFor(u) == Palette[k] <==> k as real / 9.0 <= u < (k + 1) as real / 9.0
  {
    var j := (u * 9.0).Floor;
    assert Palette[j] == Palette[k] ==> j == k;
  }

  /** A piece depends on its own five draws only. */
  lemma PieceUsesOwnDraws(d1: seq<real>, d2: seq<real>, i: nat)
    requires ValidDraws(d1) && ValidDraws(d2) && i < BatchSize
    requires DrawsOf(d1, i) == DrawsOf(d2, i)
    ensures GenerateConfetti(d1)[i] == GenerateConfetti(d2)[i]
  {
  }
}
