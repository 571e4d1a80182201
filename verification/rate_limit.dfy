/**
 * The per-address login rate limiter of `backend/server.js`: a failure counter
 * and a lock-out deadline per client address, over an abstract millisecond clock
 * (`Date.now()` becomes a parameter).
 */
module RateLimit {
  import opened Common

  /** Failures that trigger a lock-out. */
  const MaxFailures: nat := 5
  /** Length of a lock-out: 15 minutes. */
  const LockoutMs: int := 15 * 60 * 1000

  /** The record kept for one address. */
  datatype Attempts = Attempts(count: nat, blockedUntil: int)

  /** `loginAttempts`: address to record. */
  type Limiter = map<string, Attempts>

  /** The record for an address, or the fresh one `{ count: 0, blockedUntil: 0 }`. */
  function Get(lim: Limiter, ip: string): Attempts
  {
    if ip in lim then lim[ip] else Attempts(0, 0)
  }

  /** What `checkRateLimit` answers. */
  datatype Verdict = Allowed | Refused(waitMinutes: int)

  /** `checkRateLimit`: refuses exactly while the deadline lies in the future, and then
      reports the remaining time rounded up to whole minutes. */
  function Check(lim: Limiter, ip: string, now: int): (v: Verdict)
    ensures v.Refused? <==> Get(lim, ip).blockedUntil > now
    ensures v.Refused? ==>
      (v.waitMinutes - 1) * MinuteMs < Get(lim, ip).blockedUntil - now <= v.waitMinutes * MinuteMs
  {
    var rec := Get(lim, ip);
    if rec.blockedUntil > now then Refused((rec.blockedUntil - now + MinuteMs - 1) / MinuteMs)
    else Allowed
  }

  /** `recordFail`: one more failure; the fifth sets a 15-minute lock-out from `now`
      and resets the counter. Other addresses are untouched. */
  function RecordFail(lim: Limiter, ip: string, now: int): (r: Limiter)
    ensures r.Keys == lim.Keys + {ip}
    ensures forall k :: k in lim && k != ip ==> r[k] == lim[k]
    ensures Get(lim, ip).count + 1 < MaxFailures ==>
      r[ip] == Attempts(Get(lim, ip).count + 1, Get(lim, ip).blockedUntil)
    ensures Get(lim, ip).count + 1 >= MaxFailures ==> r[ip] == Attempts(0, now + LockoutMs)
  {
    var rec := Get(lim, ip);
    var count := rec.count + 1;
    if count >= MaxFailures then lim[ip := Attempts(0, now + LockoutMs)]
    else lim[ip := Attempts(count, rec.blockedUntil)]
  }

  /** `clearAttempts`: forgets the address entirely. */
  function Clear(lim: Limiter, ip: string): (r: Limiter)
    ensures ip !in r
    ensures forall k :: k in lim && k != ip ==> k in r && r[k] == lim[k]
    ensures r.Keys <= lim.Keys
  {
    lim - {ip}
  }

  /** After clearing, the address has a zero count, no lock-out, and is let through. */
  lemma ClearedIsAllowed(lim: Limiter, ip: string, now: int)
    requires now >= 0
    ensures Get(Clear(lim, ip), ip) == Attempts(0, 0)
    ensures Check(Clear(lim, ip), ip, now) == Allowed
  {
  }

  /** Counters stay below the threshold: the threshold failure always resets it. */
  ghost predicate CountsBelowMax(lim: Limiter)
  {
    forall k :: k in lim ==> lim[k].count < MaxFailures
  }

  lemma RecordFailKeepsCountsBelowMax(lim: Limiter, ip: string, now: int)
    requires CountsBelowMax(lim)
    ensures CountsBelowMax(RecordFail(lim, ip, now))
  {
  }

  /** A run of failures from one address at the given times, in order. */
  function FailAll(lim: Limiter, ip: string, times: seq<int>): Limiter
  {
    if |times| == 0 then lim
    else RecordFail(FailAll(lim, ip, times[..|times| - 1]), ip, times[|times| - 1])
  }

  /** Below the threshold each failure adds one to the counter and leaves the deadline. */
  lemma {:induction false} FailuresAccumulate(lim: Limiter, ip: string, times: seq<int>)
    requires Get(lim, ip).count + |times| < MaxFailures
    ensures Get(FailAll(lim, ip, times), ip)
      == Attempts(Get(lim, ip).count + |times|, Get(lim, ip).blockedUntil)
  {
    if |times| > 0 {
      FailuresAccumulate(lim, ip, times[..|times| - 1]);
    }
  }

  /** Five consecutive failures from a clean counter lock the address out for
      15 minutes from the fifth one, with the counter back at zero. */
  lemma FiveFailuresLockOut(lim: Limiter, ip: string, times: seq<int>)
    requires Get(lim, ip).count == 0
    requires |times| == MaxFailures
    ensures Get(FailAll(lim, ip, times), ip) == Attempts(0, times[4] + LockoutMs)
  {
    FailuresAccumulate(lim, ip, times[..4]);
  }

  /** Right after a lock-out is set at `t0`, every check before it expires is refused
      with a wait of 1 to 15 minutes; from `t0 + LockoutMs` on the address is let through. */
  lemma FreshLockoutWait(lim: Limiter, ip: string, t0: int, t: int)
    requires Get(lim, ip).count == MaxFailures - 1
    requires t0 <= t
    ensures t < t0 + LockoutMs ==>
      Check(RecordFail(lim, ip, t0), ip, t).Refused?
      && 1 <= Check(RecordFail(lim, ip, t0), ip, t).waitMinutes <= 15
    ensures t >= t0 + LockoutMs ==> Check(RecordFail(lim, ip, t0), ip, t) == Allowed
  {
  }
}
