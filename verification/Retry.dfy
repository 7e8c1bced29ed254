/** Retry (pkg/util/retryutil/retry_util.go): a bounded retry loop paced by a ticker whose
    channel holds one tick and drops the others. Times count from the start of the ticker. */
module Retry {
  import opened Wrappers
  import opened Kube

  datatype Outcome = Fail(error: Error) | Done | Undecided

  /** When the k-th tick falls due. */
  function Due(interval: nat, k: nat): nat {
    if k == 0 then 0 else Due(interval, k - 1) + interval
  }

  lemma {:induction false} DueIs(interval: nat, k: nat)
    ensures Due(interval, k) == interval * k
  {
    if k > 0 {
      DueIs(interval, k - 1);
    }
  }

  /** A moment, and how many ticks have fallen due by then. */
  datatype Moment = Moment(now: nat, fired: nat)

  function FiredBy(interval: nat, fired: nat, now: nat): nat
    requires interval > 0
    decreases if Due(interval, fired + 1) <= now then now - Due(interval, fired + 1) + 1 else 0
  {
    if Due(interval, fired + 1) <= now then FiredBy(interval, fired + 1, now) else fired
  }

  /** The end of a receive that starts at `now`, the channel having been empty when `fired` ticks were
      due: at once if a tick has fallen due since, else at the next tick. */
  function ReceiveFrom(interval: nat, fired: nat, now: nat): Moment
    requires interval > 0
  {
    if Due(interval, fired + 1) <= now then Moment(now, FiredBy(interval, fired, now))
    else Moment(Due(interval, fired + 1), fired + 1)
  }

  /** When call k starts, if it is made; `cost(k)` is how long call k takes. */
  function CallStart(interval: nat, cost: nat -> nat, k: nat): Moment
    requires interval > 0
  {
    if k == 0 then Moment(0, 0)
    else
      var m := CallStart(interval, cost, k - 1);
      ReceiveFrom(interval, m.fired, m.now + cost(k - 1))
  }

  /** Go's ticker: a one-place channel, and the time of the next tick. */
  class Ticker {
    const interval: nat
    var next: nat
    var full: bool
    ghost var fired: nat

    ghost predicate Valid()
      reads this
    {
      interval > 0 && next == Due(interval, fired + 1)
    }

    constructor (interval: nat)
      requires interval > 0
      ensures this.interval == interval && Valid() && !full && fired == 0
    {
      this.interval := interval;
      next := interval;
      full := false;
      fired := 0;
    }

    /** Takes a tick, starting to wait at `now`. Ticks due while the channel is full are dropped. */
    method Receive(now: nat) returns (t: nat)
      requires Valid() && !full
      modifies this
      ensures Valid() && !full
      ensures Moment(t, fired) == ReceiveFrom(interval, old(fired), now)
    {
      while next <= now
        invariant Valid() && fired >= old(fired)
        invariant full <==> fired > old(fired)
        invariant full ==> Due(interval, old(fired) + 1) <= now
        invariant FiredBy(interval, old(fired), now) == FiredBy(interval, fired, now)
        decreases now + interval - next
      {
        full := true;
        next := next + interval;
        fired := fired + 1;
      }
      if full {
        full := false;
        t := now;
      } else {
        t := next;
        next := next + interval;
        fired := fired + 1;
      }
    }
  }

  predicate StartsAt(starts: seq<nat>, interval: nat, cost: nat -> nat)
    requires interval > 0
  {
    forall k :: 0 <= k < |starts| ==> starts[k] == CallStart(interval, cost, k).now
  }

  /** `outcome(k)` is what the k-th call of f gives. The result lists when each call started: f is
      called up to its first success or error, at most maxRetries times. */
  method Retry(interval: nat, maxRetries: int, outcome: nat -> Outcome, cost: nat -> nat)
    returns (err: Option<Error>, starts: seq<nat>)
    requires maxRetries > 0 ==> interval > 0
    ensures maxRetries <= 0 ==> err == Some(BadRetryCount(maxRetries)) && starts == []
    ensures maxRetries > 0 ==> 0 < |starts| <= maxRetries && StartsAt(starts, interval, cost)
    ensures forall k :: 0 <= k < |starts| - 1 ==> outcome(k) == Undecided
    ensures maxRetries > 0 ==>
         match outcome(|starts| - 1)
         case Fail(e) => err == Some(e)
         case Done => err == None
         case Undecided => |starts| == maxRetries && err == Some(RetryFailure(maxRetries))
  {
    starts := [];
    if maxRetries <= 0 {
      return Some(BadRetryCount(maxRetries)), starts;
    }
    var tick := new Ticker(interval);
    var now: nat := 0;
    var i: nat := 0;
    while true
      invariant 0 <= i < maxRetries
      invariant tick.Valid() && !tick.full && tick.interval == interval
      invariant Trying(interval, outcome, cost, i, starts, now, tick.fired)
      decreases maxRetries - i
    {
      TryNext(interval, outcome, cost, i, starts, now, tick.fired);
      starts := starts + [now];
      var result := outcome(i);
      now := now + cost(i);
      if result.Fail? {
        return Some(result.error), starts;
      }
      if result.Done? {
        return None, starts;
      }
      if i + 1 == maxRetries {
        break;
      }
      now := tick.Receive(now);
      i := i + 1;
    }
    err := Some(RetryFailure(maxRetries));
  }

  /** Before call i: all calls so far were undecided and started on their moments, and so will call i now. */
  ghost predicate Trying(interval: nat, outcome: nat -> Outcome, cost: nat -> nat, i: nat, starts: seq<nat>,
                         now: nat, fired: nat)
    requires interval > 0
  {
    && |starts| == i && Moment(now, fired) == CallStart(interval, cost, i)
    && (forall k :: 0 <= k < i ==> outcome(k) == Undecided)
    && StartsAt(starts, interval, cost)
  }

  lemma TryNext(interval: nat, outcome: nat -> Outcome, cost: nat -> nat, i: nat, starts: seq<nat>,
                now: nat, fired: nat)
    requires interval > 0 && Trying(interval, outcome, cost, i, starts, now, fired)
    ensures StartsAt(starts + [now], interval, cost)
    ensures forall k :: 0 <= k < i ==> outcome(k) == Undecided
    ensures
      var m := ReceiveFrom(interval, fired, now + cost(i));
      outcome(i) == Undecided ==> Trying(interval, outcome, cost, i + 1, starts + [now], m.now, m.fired)
  {
  }

  // ----- pacing -----

  lemma {:induction false} DueGrows(interval: nat, j: nat, k: nat)
    requires j <= k
    ensures Due(interval, j) <= Due(interval, k)
  {
    if j < k {
      DueGrows(interval, j, k - 1);
    }
  }

  lemma {:induction false} FiredByBounds(interval: nat, fired: nat, now: nat)
    requires interval > 0 && Due(interval, fired) <= now
    ensures FiredBy(interval, fired, now) >= fired
    ensures Due(interval, FiredBy(interval, fired, now)) <= now < Due(interval, FiredBy(interval, fired, now) + 1)
    decreases now + interval - Due(interval, fired)
  {
    if Due(interval, fired + 1) <= now {
      FiredByBounds(interval, fired + 1, now);
    }
  }

  lemma ReceiveBounds(interval: nat, fired: nat, now: nat)
    requires interval > 0 && Due(interval, fired) <= now
    ensures
      var m := ReceiveFrom(interval, fired, now);
      m.fired > fired && m.now >= now && Due(interval, m.fired) <= m.now < Due(interval, m.fired + 1)
  {
    if Due(interval, fired + 1) <= now {
      FiredByBounds(interval, fired + 1, now);
    }
  }

  lemma {:induction false} CallsFollowTicks(interval: nat, cost: nat -> nat, k: nat)
    requires interval > 0
    ensures
      var m := CallStart(interval, cost, k);
      m.fired >= k && Due(interval, m.fired) <= m.now < Due(interval, m.fired + 1)
  {
    if k > 0 {
      CallsFollowTicks(interval, cost, k - 1);
      var m := CallStart(interval, cost, k - 1);
      ReceiveBounds(interval, m.fired, m.now + cost(k - 1));
    }
  }

  /** The next call starts when this one has ended and the next tick is due, whichever is later: a tick that fell
      due during the call is waiting, and of several only one is kept. */
  lemma NextCallStart(interval: nat, cost: nat -> nat, k: nat)
    requires interval > 0
    ensures
      var m, ended := CallStart(interval, cost, k), CallStart(interval, cost, k).now + cost(k);
      CallStart(interval, cost, k + 1).now ==
        if ended >= interval * (m.fired + 1) then ended else interval * (m.fired + 1)
  {
    DueIs(interval, CallStart(interval, cost, k).fired + 1);
  }

  /** And the ticks past by then are those due: so the next wait is for one not due yet. */
  lemma TicksPast(interval: nat, cost: nat -> nat, k: nat)
    requires interval > 0
    ensures
      var m := CallStart(interval, cost, k);
      interval * m.fired <= m.now < interval * (m.fired + 1)
  {
    var m := CallStart(interval, cost, k);
    CallsFollowTicks(interval, cost, k);
    DueIs(interval, m.fired);
    DueIs(interval, m.fired + 1);
  }

  /** Call k starts no earlier than k intervals after the ticker, whatever the calls take. */
  lemma CallsAreNotEarly(interval: nat, cost: nat -> nat, k: nat)
    requires interval > 0
    ensures CallStart(interval, cost, k).now >= interval * k
  {
    CallsFollowTicks(interval, cost, k);
    DueGrows(interval, k, CallStart(interval, cost, k).fired);
    DueIs(interval, k);
  }

  predicate OnTime(interval: nat, cost: nat -> nat, k: nat)
    requires interval > 0
  {
    CallStart(interval, cost, k).now == interval * k
  }

  /** Calls start exactly on schedule as long as every earlier call took no longer than the interval,
      and only then. */
  lemma {:induction false} OnScheduleIff(interval: nat, cost: nat -> nat, n: nat)
    requires interval > 0
    ensures (forall k: nat :: k <= n ==> OnTime(interval, cost, k)) <==>
      (forall k: nat :: k < n ==> cost(k) <= interval)
  {
    if n > 0 {
      OnScheduleIff(interval, cost, n - 1);
      if OnTime(interval, cost, n - 1) {
        OnTimeNext(interval, cost, n - 1);
      }
    }
  }

  /** From a call on schedule, the next one is on schedule exactly if the call is no longer than the interval. */
  lemma OnTimeNext(interval: nat, cost: nat -> nat, k: nat)
    requires interval > 0 && OnTime(interval, cost, k)
    ensures OnTime(interval, cost, k + 1) <==> cost(k) <= interval
  {
    var m := CallStart(interval, cost, k);
    CallsFollowTicks(interval, cost, k);
    DueIs(interval, k);
    DueIs(interval, k + 1);
    if m.fired > k {
      DueGrows(interval, k + 1, m.fired);
    }
    assert m.fired == k;
  }
}
