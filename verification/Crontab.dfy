/** Time and cron schedules. Instants are nanoseconds; the cron library is known only by `Lawful`. */
module Crontab {
  import opened Base

  const SECOND: int := 1_000_000_000
  const MINUTE: int := 60 * SECOND

  /** Timestamps are stored with a resolution of one second. */
  function Trunc(t: int): (r: int)
    ensures r <= t < r + SECOND && r % SECOND == 0
  {
    t - t % SECOND
  }

  /** A parsed schedule; `next` gives the first activation strictly after an instant. */
  datatype Cron = Cron(next: int -> int)

  predicate IsTick(c: Cron, t: int) {
    c.next(t - 1) == t
  }

  /** `next` is the least tick strictly after its argument, ticks are whole minutes, one always follows. */
  ghost predicate Lawful(c: Cron) {
    && (forall t :: t < c.next(t) && IsTick(c, c.next(t)) && c.next(t) % MINUTE == 0)
    && (forall t, u :: t < u && IsTick(c, u) ==> c.next(t) <= u)
  }

  /** The cron parser and the formatter that names snapshots after the second they are due in. */
  datatype Calendar = Calendar(parse: string -> Option<Cron>, format: int -> string)

  ghost predicate LawfulCalendar(cal: Calendar) {
    forall text :: cal.parse(text).Some? ==> Lawful(cal.parse(text).value)
  }

  lemma NextMonotone(c: Cron, t: int, u: int)
    requires Lawful(c) && t <= u
    ensures c.next(t) <= c.next(u)
  {
    assert IsTick(c, c.next(u));
  }

  /** A whole minute that has come has come at the truncated instant already. */
  lemma MinuteReached(u: int, t: int)
    requires u % MINUTE == 0 && u <= t
    ensures u <= Trunc(t)
  {
    var k, q := u / MINUTE, t / SECOND;
    assert u == MINUTE * k && Trunc(t) == SECOND * q;
  }

  /** No tick falls strictly inside a second, so storing an instant truncated never moves `next`. */
  lemma TruncKeepsNext(c: Cron, t: int)
    requires Lawful(c)
    ensures c.next(Trunc(t)) == c.next(t)
  {
    var u := c.next(Trunc(t));
    NextMonotone(c, Trunc(t), t);
    if u <= t {
      MinuteReached(u, t);
    }
    assert IsTick(c, u);
  }

  /** The laws are satisfiable: `* * * * *` obeys them. */
  lemma EveryMinuteIsLawful()
    ensures Lawful(Cron(t => t - t % MINUTE + MINUTE))
  {
    var c := Cron(t => t - t % MINUTE + MINUTE);
    forall t ensures t < c.next(t) && IsTick(c, c.next(t)) && c.next(t) % MINUTE == 0 {
      var k := t / MINUTE;
      assert c.next(t) == MINUTE * (k + 1);
      assert (c.next(t) - 1) / MINUTE == k;
    }
    forall t, u | t < u && IsTick(c, u) ensures c.next(t) <= u {
      assert (u - 1) / MINUTE >= t / MINUTE;
    }
  }
}
