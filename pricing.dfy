/**
 * Reference pricing rules, written as a closed set of genre variants each
 * with its own closed-form charge and credit formula. The string-dispatching
 * code in statement_data.rs is proved against these definitions.
 */
module Pricing {
  import opened Types

  /** The play types the pricing code knows. */
  datatype Genre = Tragedy | Comedy

  /** Recognises a play-type string; every other string is an unknown type. */
  function GenreOf(pType: string): (g: Option<Genre>)
    ensures g == Some(Tragedy) <==> pType == "tragedy"
    ensures g == Some(Comedy) <==> pType == "comedy"
  {
    if pType == "tragedy" then Some(Tragedy)
    else if pType == "comedy" then Some(Comedy)
    else None
  }

  /** `x` clamped below at zero. */
  function Max0(x: int): (r: nat)
    ensures r >= x && (r == 0 || r == x)
  {
    if x > 0 then x else 0
  }

  /** Charge in cents: a base fee plus a per-seat surcharge above a threshold (and a per-seat fee for comedies). */
  function GenreAmount(g: Genre, audience: nat): (r: nat)
    ensures g == Tragedy ==> r >= 40000 && (r == 40000 <==> audience <= 30)
    ensures g == Comedy ==> r >= 30000 + 300 * audience && (r == 30000 + 300 * audience <==> audience <= 20)
  {
    match g
    case Tragedy => 40000 + 1000 * Max0(audience - 30)
    case Comedy => 30000 + 300 * audience + (if audience > 20 then 10000 else 0) + 500 * Max0(audience - 20)
  }

  /** Loyalty credits: one per seat above 30, plus one per five seats for comedies. */
  function GenreCredits(g: Option<Genre>, audience: nat): (r: nat)
    ensures r >= audience - 30
    ensures g != Some(Comedy) ==> (r == 0 <==> audience <= 30)
    ensures g == Some(Comedy) ==> r >= audience / 5 && (audience <= 30 ==> r == audience / 5)
  {
    Max0(audience - 30) + (if g == Some(Comedy) then audience / 5 else 0)
  }
}
