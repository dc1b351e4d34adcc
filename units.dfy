/**
 * Units and encodings the frontend and the backend share with the ledger:
 * money and prices travel as integer cents, directions as small integers.
 */
module Units {

  /** The side of a position. */
  datatype Direction = Long | Short

  /** The ledger's direction code, as the position box sends it (LONG 0, SHORT 1). */
  function DirectionCode(d: Direction): (code: int)
    ensures 0 <= code <= 1
    ensures code == 0 <==> d == Long
  {
    if d == Long then 0 else 1
  }

  /** How the position history reads a direction code back: 0 is LONG, anything else SHORT. */
  function DirectionOfCode(code: int): (d: Direction)
    ensures d == Long <==> code == 0
  {
    if code == 0 then Long else Short
  }

  /** Reading back an encoded direction gives the direction that was sent. */
  lemma DirectionCodeRoundTrip(d: Direction)
    ensures DirectionOfCode(DirectionCode(d)) == d
  {
  }

  /** `Math.floor(x * 100)`: a dollar amount or a USD quote as whole cents, rounded down. */
  function ToCents(x: real): (c: int)
    ensures c as real <= x * 100.0 < c as real + 1.0
  {
    (x * 100.0).Floor
  }

  /** `cents / 100`: a ledger amount in dollars. */
  function ToDollars(c: int): (x: real)
    ensures x * 100.0 == c as real
  {
    c as real / 100.0
  }

  /** Converting ledger cents to dollars and back loses nothing. */
  lemma ToCentsOfDollars(c: int)
    ensures ToCents(ToDollars(c)) == c
  {
  }

  /** Rounding down to cents never reverses the order of two amounts. */
  lemma ToCentsMonotone(x: real, y: real)
    requires x <= y
    ensures ToCents(x) <= ToCents(y)
  {
  }

  /** An amount of at least `d` whole dollars is at least `100 * d` cents. */
  lemma ToCentsAtLeast(x: real, d: int)
    requires d as real <= x
    ensures ToCents(x) >= 100 * d
  {
  }
}
