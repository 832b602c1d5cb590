/** What the code reads from outside: the deadline checks, the random stream (cpp/ls/rng.h) and the work
    counters behind the work-based triggers. Each is a fixed stream of answers and a cursor, so that every
    result is a function of the inputs and the streams, and theorems hold for all streams. */
module Oracles {

  class Oracle {
    /** Whether the k-th check finds the deadline past; without a deadline it never is. */
    const late: nat -> bool
    /** The k-th draw of the generator. */
    const draws: nat -> nat
    /** Whether the k-th look at a work counter fires its trigger. */
    const fires: nat -> bool
    var asked: nat
    var drawn: nat
    var looked: nat

    constructor (late: nat -> bool, draws: nat -> nat, fires: nat -> bool)
      ensures this.late == late && this.draws == draws && this.fires == fires && asked == drawn == looked == 0
    {
      this.late, this.draws, this.fires := late, draws, fires;
      asked, drawn, looked := 0, 0, 0;
    }

    method Past() returns (answer: bool)
      modifies `asked
      ensures answer == late(old(asked)) && asked == old(asked) + 1
    {
      answer := late(asked);
      asked := asked + 1;
    }

    /** draw: the next value of the stream modulo n. */
    method Draw(n: nat) returns (k: nat)
      requires n > 0
      modifies `drawn
      ensures k == draws(old(drawn)) % n && drawn == old(drawn) + 1
    {
      k := draws(drawn) % n;
      drawn := drawn + 1;
    }

    method Fires() returns (answer: bool)
      modifies `looked
      ensures answer == fires(old(looked)) && looked == old(looked) + 1
    {
      answer := fires(looked);
      looked := looked + 1;
    }
  }

  /** No deadline: no check ever finds it past. */
  ghost predicate NoDeadline(late: nat -> bool) { forall k :: !late(k) }

  /** The checks from `from` up to `to` all said no, except that the last one said yes. */
  ghost predicate StruckAt(late: nat -> bool, from: nat, to: nat) {
    from < to && late(to - 1) && forall k :: from <= k < to - 1 ==> !late(k)
  }

  /** They all said no. */
  ghost predicate InTime(late: nat -> bool, from: nat, to: nat) {
    from <= to && forall k :: from <= k < to ==> !late(k)
  }
}
