/**
 * The ANSI escape sequences the logger wraps its console blocks in. The
 * source declares them as package variables; here they are fixed at their
 * initial values.
 */
module Colors {

  /** Every sequence starts with the ESC control character, U+001B. */
  const Esc: char := '\U{1B}'

  const Reset: string := "\U{1B}[0m"
  const BrightBlack: string := "\U{1B}[30;1m"
  const BrightRed: string := "\U{1B}[31;1m"
  const BrightGreen: string := "\U{1B}[32;1m"
  const BrightYellow: string := "\U{1B}[33;1m"
  const BrightBlue: string := "\U{1B}[34;1m"
  const BrightMagenta: string := "\U{1B}[35;1m"
  const BrightCyan: string := "\U{1B}[36;1m"
  const BrightWhite: string := "\U{1B}[37;1m"

  /** The bright foreground colours, in the order of their SGR codes 30..37. */
  const Brights: seq<string> :=
    [BrightBlack, BrightRed, BrightGreen, BrightYellow, BrightBlue, BrightMagenta, BrightCyan, BrightWhite]

  /** `ESC [ 3 d ; 1 m`: the SGR sequence for bright foreground colour `d`. */
  function Bright(d: nat): string
    requires d < 8
  {
    [Esc, '[', '3', "01234567"[d], ';', '1', 'm']
  }

  /**
   * Each named constant is the bright SGR sequence of its colour code, so no
   * two of them are equal and none equals Reset.
   */
  lemma BrightsAreSgr()
    ensures |Brights| == 8
    ensures forall d :: 0 <= d < 8 ==> Brights[d] == Bright(d)
    ensures forall d, e :: 0 <= d < 8 && 0 <= e < 8 && Bright(d) == Bright(e) ==> d == e
    ensures forall d, e :: 0 <= d < 8 && 0 <= e < 8 && d != e ==> Brights[d] != Brights[e]
    ensures forall d :: 0 <= d < 8 ==> Brights[d] != Reset
  {
  }
}
