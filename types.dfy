/**
 * The input records of a statement request (rust/src/types.rs) and the
 * failure outcomes of the computation.
 *
 * The Rust code aborts with a panic on a missing catalog entry, on an
 * unknown play type and on the unsigned subtraction in the credit rule;
 * here each of those panics is a `Failure` carrying what caused it.
 */
module Types {

  /** One line item of an invoice: which play was performed, for how many seats. */
  datatype Performance = Performance(playId: string, audience: nat)

  /** A customer's invoice; the order of `performances` is the statement's line order. */
  datatype Invoice = Invoice(customer: string, performances: seq<Performance>)

  /** A catalog entry: the play's title and its pricing type ("tragedy", "comedy", ...). */
  datatype Play = Play(name: string, pType: string)

  /** The catalog, keyed by play identifier. */
  type Plays = map<string, Play>

  /** Why a statement could not be computed. */
  datatype Error =
    | UnknownPlay(playId: string)      // `plays[&play_id]` on a missing key
    | UnknownType(playType: string)    // `panic!("unknown type:{}", play_type)`
    | CreditUnderflow(audience: nat)   // `audience - 30` on u64 with audience < 30

  datatype Option<T> = None | Some(value: T)

  /** A computation that either yields a value or aborts with an `Error`; usable with `:-`. */
  datatype Result<T> = Success(value: T) | Failure(error: Error) {
    predicate IsFailure() {
      Failure?
    }

    function PropagateFailure<U>(): Result<U>
      requires Failure?
    {
      Failure(error)
    }

    function Extract(): T
      requires Success?
    {
      value
    }
  }
}
