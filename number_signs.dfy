/** The [Flags] enum NumberSigns and its MatchSign test for 32-bit and 64-bit
    integers. */
module NumberSigns {
  import opened Primitives

  /** A NumberSigns value, held as the enum's underlying 32-bit integer. */
  type Signs = bv32

  const Zero: Signs := 1
  const Positive: Signs := 2
  const Negative: Signs := 4
  const All: Signs := Zero | Positive | Negative

  /** MatchSign on Int32: the flag for the sign of `number` is set. */
  function MatchSign32(number: Int32, signs: Signs): bool {
    if number < 0 then signs & Negative != 0
    else if number == 0 then signs & Zero != 0
    else signs & Positive != 0
  }

  /** MatchSign on Int64. */
  function MatchSign64(number: Int64, signs: Signs): bool {
    if number < 0 then signs & Negative != 0
    else if number == 0 then signs & Zero != 0
    else signs & Positive != 0
  }

  /** The flag that stands for the sign of `number`. */
  function SignFlag(number: int): (f: Signs)
    ensures f == Zero || f == Positive || f == Negative
  {
    if number < 0 then Negative else if number == 0 then Zero else Positive
  }

  /** The three named flags are distinct single bits, and All is their union. */
  lemma FlagsAreDistinctBits()
    ensures Zero & Positive == 0 && Zero & Negative == 0 && Positive & Negative == 0
    ensures All == 7
  {
  }

  /** Each overload accepts a number exactly when the set carries the flag of
      that number's sign: negatives need Negative, zero needs Zero, positives
      need Positive. */
  lemma MatchSignIsSignFlag(number: Int32, wide: Int64, signs: Signs)
    ensures MatchSign32(number, signs) <==> signs & SignFlag(number) != 0
    ensures MatchSign64(wide, signs) <==> signs & SignFlag(wide) != 0
  {
  }

  /** The Int32 and Int64 overloads agree on every Int32 value. */
  lemma OverloadsAgree(number: Int32, signs: Signs)
    ensures MatchSign32(number, signs) == MatchSign64(number, signs)
  {
  }

  /** All accepts every number. */
  lemma AllMatchesEverything(number: Int64)
    ensures MatchSign64(number, All)
  {
  }

  /** Positive alone accepts exactly the numbers above zero. */
  lemma PositiveMatchesOnlyAboveZero(number: Int64)
    ensures MatchSign64(number, Positive) <==> number > 0
  {
  }

  /** No set accepts a number whose sign it does not name: an empty set
      rejects everything. */
  lemma EmptySetMatchesNothing(number: Int64)
    ensures !MatchSign64(number, 0)
  {
  }

  /** Adding flags never turns an accepted number into a rejected one. */
  lemma MoreFlagsMatchMore(number: Int64, signs: Signs, extra: Signs)
    ensures MatchSign64(number, signs) ==> MatchSign64(number, signs | extra)
  {
  }

  /** Enum.ToString of a NumberSigns value: the name of an exact member, else
      the member names of the flags that are set, in ascending order joined by
      ", ", else (when bits outside All are set, or none is) the number. */
  function SignsText(signs: Signs): (s: string)
    ensures signs == Positive ==> s == "Positive"
  {
    if signs == Zero then "Zero"
    else if signs == Positive then "Positive"
    else if signs == Negative then "Negative"
    else if signs == All then "All"
    else if signs == Zero | Positive then "Zero, Positive"
    else if signs == Zero | Negative then "Zero, Negative"
    else if signs == Positive | Negative then "Positive, Negative"
    else FormatNat(signs as nat)
  }
}
