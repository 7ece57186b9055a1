/** The watchdog that renews a saga lock while its holder works (internal/service/saga_locker.go).
    Time is in nanoseconds and starts with the lease and the ticker. */
module Watchdog {
  import opened Domain

  function RenewInterval(ttl: Time): Time {
    if ttl / 2 <= 0 then 1 else ttl / 2
  }

  function RenewTimeout(ttl: Time): Time {
    if ttl / 2 <= 0 then 1 else ttl / 2
  }

  /** One call of Extend: how long it took, when in that time the store extended the lease, and what the
      watchdog was told. `Canceled` is an error that reports context cancellation. */
  datatype Reply = Extended | Refused | Canceled

  datatype Extension = Extension(took: Time, effect: Time, reply: Reply)

  /** Extend respects its timeout. */
  predicate Timely(e: Extension, ttl: Time) {
    0 <= e.effect <= e.took <= RenewTimeout(ttl)
  }

  /** The instant of the k-th tick. */
  function TickAt(k: nat, interval: Time): Time {
    if k == 0 then 0 else TickAt(k - 1, interval) + interval
  }

  /** Renewals are half a lease apart and have half a lease each, or one nanosecond. */
  lemma HalvesOfTheLease(ttl: Time)
    ensures ttl >= 2 ==> 2 * RenewInterval(ttl) <= ttl < 2 * (RenewInterval(ttl) + 1)
    ensures ttl < 2 ==> RenewInterval(ttl) == 1
    ensures RenewTimeout(ttl) == RenewInterval(ttl)
  {
  }

  lemma {:induction false} TicksAreMultiples(k: nat, interval: Time)
    ensures TickAt(k, interval) == k * interval
  {
    if k > 0 {
      TicksAreMultiples(k - 1, interval);
      assert (k - 1) * interval + interval == k * interval;
    }
  }

  /** A ticker has room for one tick: those that fall due up to the receive at `r` are dropped. */
  function NextTick(tick: Time, r: Time, interval: Time): Time
    requires interval > 0
    decreases r - tick
  {
    if tick <= r then NextTick(tick + interval, r, interval) else tick
  }

  datatype Ending =
    | StillRunning                      // every renewal so far succeeded
    | LockCanceled(at: Time)            // a renewal failed and the protected context was cancelled
    | StoppedSilently(at: Time)         // Extend reported cancellation: the loop ends, the context lives on

  /** The watchdog loop over the replies of the lock store. `starts` are the instants at which renewals
      begin, `leaseEnd` is the instant until which the lease is certainly held. */
  method Watch(ttl: Time, replies: seq<Extension>) returns (starts: seq<Time>, leaseEnd: Time, ending: Ending)
    requires ttl > 0 && forall i :: 0 <= i < |replies| ==> Timely(replies[i], ttl)
    ensures |starts| <= |replies|
    ensures forall k :: 0 <= k < |starts| ==> starts[k] == TickAt(k + 1, RenewInterval(ttl))
    ensures ttl >= 2 ==> forall k :: 0 <= k < |starts| ==> HeldUntil(ttl, replies, k) >= starts[k] + RenewTimeout(ttl)
    ensures forall i :: 0 <= i < |starts| - 1 ==> replies[i].reply == Extended
    ensures ending.StillRunning? <==> forall i :: 0 <= i < |replies| ==> replies[i].reply == Extended
    ensures ending.StillRunning? ==> |starts| == |replies| && leaseEnd == HeldUntil(ttl, replies, |replies|)
    ensures !ending.StillRunning? ==> starts != [] && leaseEnd == HeldUntil(ttl, replies, |starts| - 1)
    ensures ending.LockCanceled? ==> replies[|starts| - 1].reply == Refused
    ensures ending.LockCanceled? ==> ending.at == starts[|starts| - 1] + replies[|starts| - 1].took
    ensures ending.StoppedSilently? ==> replies[|starts| - 1].reply == Canceled
    // lease safety
    ensures ttl >= 2 && ending.LockCanceled? ==> ending.at <= leaseEnd
  {
    var interval := RenewInterval(ttl);
    var clock, tick := 0, interval;
    starts, leaseEnd, ending := [], ttl, StillRunning;
    var k := 0;
    while k < |replies|
      invariant 0 <= k == |starts| <= |replies| && ending == StillRunning
      invariant tick == TickAt(k + 1, interval) && clock <= tick
      invariant forall i :: 0 <= i < k ==> replies[i].reply == Extended
      invariant forall i :: 0 <= i < k ==> starts[i] == TickAt(i + 1, interval)
      invariant ttl >= 2 ==> forall i :: 0 <= i < k ==> HeldUntil(ttl, replies, i) >= starts[i] + RenewTimeout(ttl)
      invariant leaseEnd == HeldUntil(ttl, replies, k)
    {
      var received := if clock < tick then tick else clock;
      assert received == TickAt(k + 1, interval);
      var e := replies[k];
      starts := starts + [received];
      clock := received + e.took;
      LeaseCovers(ttl, replies, k);
      match e.reply {
        case Canceled =>
          ending := StoppedSilently(clock);
          return;
        case Refused =>
          ending := LockCanceled(clock);
          return;
        case Extended =>
          leaseEnd := received + e.effect + ttl;
          assert NextTick(tick + interval, received, interval) == tick + interval;
          tick := NextTick(tick, received, interval);
          k := k + 1;
      }
    }
  }

  /** The lease after k successful renewals, the i-th of which starts at tick i. */
  function HeldUntil(ttl: Time, replies: seq<Extension>, k: nat): Time
    requires k <= |replies|
  {
    if k == 0 then ttl else TickAt(k, RenewInterval(ttl)) + replies[k - 1].effect + ttl
  }

  /** From two nanoseconds up, the lease outlives the next renewal's timeout. */
  lemma LeaseCovers(ttl: Time, replies: seq<Extension>, k: nat)
    requires ttl > 0 && k < |replies| && forall i :: 0 <= i < |replies| ==> Timely(replies[i], ttl)
    ensures ttl >= 2 ==> HeldUntil(ttl, replies, k) >= TickAt(k + 1, RenewInterval(ttl)) + RenewTimeout(ttl)
  {
  }

  predicate AllTimely(replies: seq<Extension>, ttl: Time) {
    forall i :: 0 <= i < |replies| ==> Timely(replies[i], ttl)
  }

  /** When renewal k is over, if all before it succeeded. */
  function RenewalEnd(ttl: Time, replies: seq<Extension>, k: nat): Time
    requires k < |replies|
  {
    TickAt(k + 1, RenewInterval(ttl)) + replies[k].took
  }

  /** Every renewal, however late in its timeout, is over before the lease that it should prolong ends,
      exactly for leases of two nanoseconds or more. */
  lemma SafeIffTwoNanoseconds(ttl: Time)
    requires ttl > 0
    ensures ttl >= 2 <==>
      forall replies, k: nat :: k < |replies| && AllTimely(replies, ttl) ==>
        RenewalEnd(ttl, replies, k) <= HeldUntil(ttl, replies, k)
  {
    forall replies, k: nat | ttl >= 2 && k < |replies| && AllTimely(replies, ttl)
      ensures RenewalEnd(ttl, replies, k) <= HeldUntil(ttl, replies, k)
    {
      LeaseCovers(ttl, replies, k);
      assert Timely(replies[k], ttl);
    }
    if ttl < 2 {
      var slow := [Extension(RenewTimeout(ttl), 0, Refused)];
      assert AllTimely(slow, ttl);
      assert TickAt(1, RenewInterval(ttl)) == 1;
      assert RenewalEnd(ttl, slow, 0) == 2 > HeldUntil(ttl, slow, 0);
    }
  }
}
