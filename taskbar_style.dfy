/**
 * The extended window style word (GWL_EXSTYLE, a LONG_PTR) and the two flags
 * that decide whether a window has a taskbar entry: WS_EX_APPWINDOW forces an
 * entry, WS_EX_TOOLWINDOW suppresses it.  Hiding and showing the entry are
 * pure transforms of that word; the taskbar predicate reads it back.
 */
module TaskbarStyle {

  /** LONG_PTR on a 64-bit build. */
  type LongPtr = bv64

  const WS_EX_TOOLWINDOW: LongPtr := 0x0000_0080
  const WS_EX_APPWINDOW: LongPtr := 0x0004_0000

  /** The two flags this module touches; every other bit belongs to someone else. */
  const TASKBAR_BITS: LongPtr := WS_EX_APPWINDOW | WS_EX_TOOLWINDOW

  predicate Has(ex: LongPtr, flag: LongPtr) {
    (ex & flag) != 0
  }

  /** `a` and `b` agree on every bit outside the two taskbar flags. */
  predicate OtherBitsAgree(a: LongPtr, b: LongPtr) {
    (a & !TASKBAR_BITS) == (b & !TASKBAR_BITS)
  }

  /** The word `hide` writes: APPWINDOW cleared, then TOOLWINDOW set. */
  function Hidden(ex: LongPtr): (r: LongPtr)
    ensures !Has(r, WS_EX_APPWINDOW) && Has(r, WS_EX_TOOLWINDOW)
    ensures OtherBitsAgree(r, ex)
    ensures r != 0
  {
    (ex & !WS_EX_APPWINDOW) | WS_EX_TOOLWINDOW
  }

  /** The word `show` writes: APPWINDOW set, then TOOLWINDOW cleared. */
  function Shown(ex: LongPtr): (r: LongPtr)
    ensures Has(r, WS_EX_APPWINDOW) && !Has(r, WS_EX_TOOLWINDOW)
    ensures OtherBitsAgree(r, ex)
    ensures r != 0
  {
    (ex | WS_EX_APPWINDOW) & !WS_EX_TOOLWINDOW
  }

  /** The window is on the taskbar: APPWINDOW set and TOOLWINDOW clear. */
  predicate InTaskbar(ex: LongPtr) {
    Has(ex, WS_EX_APPWINDOW) && !Has(ex, WS_EX_TOOLWINDOW)
  }

  /** Hidden is the only word with the hide flag pattern that keeps the other bits. */
  lemma HiddenIsUnique(ex: LongPtr, r: LongPtr)
    requires !Has(r, WS_EX_APPWINDOW) && Has(r, WS_EX_TOOLWINDOW)
    requires OtherBitsAgree(r, ex)
    ensures r == Hidden(ex)
  {
  }

  /** Shown is the only word with the show flag pattern that keeps the other bits. */
  lemma ShownIsUnique(ex: LongPtr, r: LongPtr)
    requires Has(r, WS_EX_APPWINDOW) && !Has(r, WS_EX_TOOLWINDOW)
    requires OtherBitsAgree(r, ex)
    ensures r == Shown(ex)
  {
  }

  /** The taskbar predicate looks at exactly the two flags, and wants APPWINDOW alone. */
  lemma InTaskbarIff(ex: LongPtr)
    ensures InTaskbar(ex) <==> (ex & TASKBAR_BITS) == WS_EX_APPWINDOW
  {
  }

  lemma InTaskbarIgnoresOtherBits(a: LongPtr, b: LongPtr)
    requires (a & TASKBAR_BITS) == (b & TASKBAR_BITS)
    ensures InTaskbar(a) == InTaskbar(b)
  {
  }

  lemma HiddenLeavesTaskbar(ex: LongPtr)
    ensures !InTaskbar(Hidden(ex))
  {
  }

  lemma ShownJoinsTaskbar(ex: LongPtr)
    ensures InTaskbar(Shown(ex))
  {
  }

  lemma HiddenIdempotent(ex: LongPtr)
    ensures Hidden(Hidden(ex)) == Hidden(ex)
  {
  }

  lemma ShownIdempotent(ex: LongPtr)
    ensures Shown(Shown(ex)) == Shown(ex)
  {
  }

  /** The last transform applied decides both flags; the earlier one leaves no trace. */
  lemma ShownAfterHidden(ex: LongPtr)
    ensures Shown(Hidden(ex)) == Shown(ex)
  {
  }

  lemma HiddenAfterShown(ex: LongPtr)
    ensures Hidden(Shown(ex)) == Hidden(ex)
  {
  }

  /** Show, hide, show again gives the word a single show gives. */
  lemma ShowHideShow(ex: LongPtr)
    ensures Shown(Hidden(Shown(ex))) == Shown(ex)
  {
    HiddenAfterShown(ex);
    ShownAfterHidden(ex);
  }

  /** A word with exactly one of the two flags set is fixed by the matching transform. */
  lemma TransformsFixTheirOwnPattern(ex: LongPtr)
    ensures (ex & TASKBAR_BITS) == WS_EX_TOOLWINDOW <==> Hidden(ex) == ex
    ensures (ex & TASKBAR_BITS) == WS_EX_APPWINDOW <==> Shown(ex) == ex
  {
  }
}
