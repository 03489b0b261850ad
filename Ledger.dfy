/** The day-by-day tables of the exercise pages: a loop over days 1..D that
    moves a state forward and appends one row per day. `Run` is the state
    after `n` days and `Table` the rows of those days, for any day function;
    the lemmas here are stated once for every such loop. */
module Ledger {

  /** The state after a day and the row it shows. */
  datatype Outcome<S, R> = Outcome(next: S, row: R)

  /** The state after days 1..n, from `s0`. */
  function Run<S, R>(day: (S, nat) -> Outcome<S, R>, s0: S, n: nat): S
  {
    if n == 0 then s0 else day(Run(day, s0, n - 1), n).next
  }

  /** The rows of days 1..n, from `s0`. */
  function Table<S, R>(day: (S, nat) -> Outcome<S, R>, s0: S, n: nat): seq<R>
  {
    if n == 0 then [] else Table(day, s0, n - 1) + [day(Run(day, s0, n - 1), n).row]
  }

  /** The table has one row per day. */
  lemma {:induction false} TableLength<S, R>(day: (S, nat) -> Outcome<S, R>, s0: S, n: nat)
    ensures |Table(day, s0, n)| == n
  {
    if n > 0 {
      TableLength(day, s0, n - 1);
    }
  }

  /** Row `i` is the row of day `i + 1`, played from the state after `i` days. */
  lemma {:induction false} TableAt<S, R>(day: (S, nat) -> Outcome<S, R>, s0: S, n: nat, i: nat)
    requires i < n
    ensures |Table(day, s0, n)| == n
    ensures Table(day, s0, n)[i] == day(Run(day, s0, i), i + 1).row
  {
    TableLength(day, s0, n);
    TableLength(day, s0, n - 1);
    if i < n - 1 {
      TableAt(day, s0, n - 1, i);
    }
  }
}
