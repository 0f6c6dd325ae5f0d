/** The three-way sign helpers of the `Double` extension: `signValue` and
    `signString`. The status line prints `signString` followed by the
    magnitude of the raw reading. */
module Sign {
  import opened Numeric

  /** `signValue`: 1 above zero, -1 below zero, 0 otherwise. */
  function SignValue(x: real): (r: int)
    ensures r == -1 || r == 0 || r == 1
    ensures r as real * Abs(x) == x
    ensures x == 0.0 ==> r == 0
  {
    if x > 0.0 then 1
    else if x < 0.0 then -1
    else 0
  }

  /** `signString`: "+" above zero, "-" below zero, a blank otherwise. */
  function SignString(x: real): (r: string)
    ensures r == "+" || r == "-" || r == " "
    ensures r == "+" <==> x > 0.0
    ensures r == "-" <==> x < 0.0
    ensures r == " " <==> x == 0.0
  {
    if x > 0.0 then "+"
    else if x < 0.0 then "-"
    else " "
  }

  /** How a reader recovers a value from the status line's sign column and
      its unsigned magnitude column. */
  function SignedMagnitude(sign: string, magnitude: real): real
  {
    if sign == "-" then -magnitude else magnitude
  }

  /** The sign character and the magnitude together lose nothing. */
  lemma SignStringRoundTrip(x: real)
    ensures SignedMagnitude(SignString(x), Abs(x)) == x
  {
  }

  /** The two helpers classify every value the same way. */
  lemma SignHelpersAgree(x: real)
    ensures SignString(x) == "+" <==> SignValue(x) == 1
    ensures SignString(x) == "-" <==> SignValue(x) == -1
    ensures SignString(x) == " " <==> SignValue(x) == 0
    ensures SignString(0.0) == " " && SignValue(0.0) == 0
  {
  }
}
