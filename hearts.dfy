/** The heart profile of the single player: a bounded counter that regenerates
    lazily, one heart per period, whenever the profile is read. */
module Hearts {
  import opened Outcomes

  /** HEART_REGEN_SECONDS: one heart comes back every four hours. */
  const HEART_REGEN_SECONDS: int := 4 * 3600

  /** The contents of user.json; timestamps are whole seconds. */
  datatype Profile = Profile(hearts: int, maxHearts: int, lastRegenTime: int)

  /** What a first access and the debug reset write: 3 of 3 hearts, clock at 0. */
  const DEFAULT_PROFILE: Profile := Profile(3, 3, 0)

  /** The invariant of a well-formed profile. */
  predicate Bounded(p: Profile) {
    0 <= p.hearts <= p.maxHearts
  }

  function Min(a: int, b: int): int { if a <= b then a else b }

  function Max(a: int, b: int): int { if a >= b then a else b }

  /** Whether reading the profile at `now` adds at least one heart. */
  predicate Regenerates(p: Profile, now: int) {
    p.hearts < p.maxHearts && (now - p.lastRegenTime) / HEART_REGEN_SECONDS > 0
  }

  /** The profile as a read at `now` leaves it: every full period elapsed since
      `lastRegenTime` is worth one heart, up to the maximum, and the clock moves
      forward by whole periods only, so the part of a period already waited
      for is kept. */
  function Regenerate(p: Profile, now: int): (r: Profile)
    ensures r.maxHearts == p.maxHearts
    ensures p.hearts <= r.hearts
    ensures Bounded(p) ==> Bounded(r)
    ensures r == p <==> p.hearts >= p.maxHearts || now - p.lastRegenTime < HEART_REGEN_SECONDS
    ensures r != p <==> Regenerates(p, now)
  {
    if Regenerates(p, now) then
      var elapsed := now - p.lastRegenTime;
      Profile(Min(p.maxHearts, p.hearts + elapsed / HEART_REGEN_SECONDS),
              p.maxHearts,
              now - elapsed % HEART_REGEN_SECONDS)
    else
      p
  }

  /** Below the maximum, a read credits floor(elapsed / period) hearts, capped,
      and leaves exactly the remainder of the elapsed time on the clock, which
      is therefore less than one period. */
  lemma RegenerateCredits(p: Profile, now: int)
    requires p.hearts < p.maxHearts && p.lastRegenTime <= now
    ensures Regenerate(p, now).hearts
            == Min(p.maxHearts, p.hearts + (now - p.lastRegenTime) / HEART_REGEN_SECONDS)
    ensures now - Regenerate(p, now).lastRegenTime == (now - p.lastRegenTime) % HEART_REGEN_SECONDS
    ensures 0 <= now - Regenerate(p, now).lastRegenTime < HEART_REGEN_SECONDS
  {
  }

  /** A second read at the same instant changes nothing. */
  lemma RegenerateIdempotent(p: Profile, now: int)
    ensures Regenerate(Regenerate(p, now), now) == Regenerate(p, now)
  {
    var r := Regenerate(p, now);
    if Regenerates(p, now) {
      var elapsed := now - p.lastRegenTime;
      assert now - r.lastRegenTime == elapsed % HEART_REGEN_SECONDS;
    }
  }

  /** Subtracting whole periods from a duration leaves its remainder alone and
      lowers its quotient by the number of periods. */
  lemma ShiftByPeriods(x: int, q: int)
    ensures (x - HEART_REGEN_SECONDS * q) / HEART_REGEN_SECONDS == x / HEART_REGEN_SECONDS - q
    ensures (x - HEART_REGEN_SECONDS * q) % HEART_REGEN_SECONDS == x % HEART_REGEN_SECONDS
  {
    var y := x - HEART_REGEN_SECONDS * q;
    var a, b := x / HEART_REGEN_SECONDS, x % HEART_REGEN_SECONDS;
    assert x == HEART_REGEN_SECONDS * a + b && 0 <= b < HEART_REGEN_SECONDS;
    assert y == HEART_REGEN_SECONDS * (a - q) + b;
  }

  lemma DivMonotone(x: int, y: int)
    requires x <= y
    ensures x / HEART_REGEN_SECONDS <= y / HEART_REGEN_SECONDS
  {
  }

  /** Lazy regeneration does not depend on how often the profile is read: a
      read at t1 followed by a read at t2 yields the same hearts as a single
      read at t2, and the very same profile whenever the maximum was not
      reached (at the maximum the clock is not running and its value is not
      used). */
  lemma RegeneratePathIndependent(p: Profile, t1: int, t2: int)
    requires t1 <= t2
    ensures Regenerate(Regenerate(p, t1), t2).hearts == Regenerate(p, t2).hearts
    ensures Regenerate(Regenerate(p, t1), t2).maxHearts == Regenerate(p, t2).maxHearts
    ensures Regenerate(p, t2).hearts < p.maxHearts
            ==> Regenerate(Regenerate(p, t1), t2) == Regenerate(p, t2)
  {
    var r1 := Regenerate(p, t1);
    if Regenerates(p, t1) {
      var e1, e2 := t1 - p.lastRegenTime, t2 - p.lastRegenTime;
      var q1 := e1 / HEART_REGEN_SECONDS;
      DivMonotone(e1, e2);
      assert r1.lastRegenTime == p.lastRegenTime + HEART_REGEN_SECONDS * q1;
      ShiftByPeriods(e2, q1);
      assert t2 - r1.lastRegenTime == e2 - HEART_REGEN_SECONDS * q1;
      if r1.hearts < p.maxHearts {
        assert r1.hearts == p.hearts + q1;
        if !Regenerates(r1, t2) {
          assert e2 / HEART_REGEN_SECONDS == q1;
          assert t2 - e2 % HEART_REGEN_SECONDS == p.lastRegenTime + HEART_REGEN_SECONDS * q1;
        }
      }
    }
  }

  /** Starting an episode costs one heart. A debit from a full profile starts
      the regeneration clock at `now`; a debit from below the maximum leaves a
      running clock alone. */
  function Debit(p: Profile, now: int): (r: Result<Profile>)
    ensures r.Failure? <==> p.hearts <= 0
    ensures r.Failure? ==> r.error == NoHearts
    ensures r.Success? ==> r.value.hearts == p.hearts - 1 && r.value.maxHearts == p.maxHearts
    ensures r.Success? && p.hearts == p.maxHearts ==> r.value.lastRegenTime == now
    ensures r.Success? && p.hearts != p.maxHearts ==> r.value.lastRegenTime == p.lastRegenTime
    ensures r.Success? && Bounded(p) ==> Bounded(r.value) && r.value.hearts < r.value.maxHearts
  {
    if p.hearts <= 0 then
      Failure(NoHearts)
    else
      var hearts := p.hearts - 1;
      Success(Profile(hearts, p.maxHearts,
                      if hearts == p.maxHearts - 1 then now else p.lastRegenTime))
  }

  /** Seconds until the next heart, as reported next to the profile: zero at
      the maximum, otherwise what is left of the current period, never
      negative. */
  function NextHeartIn(p: Profile, now: int): (r: int)
    ensures 0 <= r
    ensures p.hearts >= p.maxHearts ==> r == 0
    ensures p.lastRegenTime <= now ==> r <= HEART_REGEN_SECONDS
    ensures p.hearts < p.maxHearts && now - p.lastRegenTime <= HEART_REGEN_SECONDS
            ==> now + r == p.lastRegenTime + HEART_REGEN_SECONDS
    ensures p.hearts < p.maxHearts && now - p.lastRegenTime >= HEART_REGEN_SECONDS ==> r == 0
  {
    if p.hearts < p.maxHearts then
      Max(0, HEART_REGEN_SECONDS - (now - p.lastRegenTime))
    else
      0
  }

  /** While less than one period has elapsed below the maximum, the wait
      strictly shrinks as time advances and no heart is added. */
  lemma NextHeartInDecreases(p: Profile, t1: int, t2: int)
    requires p.hearts < p.maxHearts
    requires t1 < t2 && t2 - p.lastRegenTime < HEART_REGEN_SECONDS
    ensures NextHeartIn(p, t2) < NextHeartIn(p, t1)
    ensures Regenerate(p, t2) == p
  {
  }

  /** A profile that is below the maximum right after a read always reports a
      positive wait of at most one period: any heart already due was credited
      by the read itself. */
  lemma WaitAfterRead(p: Profile, now: int)
    requires p.lastRegenTime <= now
    ensures Regenerate(p, now).hearts < p.maxHearts
            ==> 0 < NextHeartIn(Regenerate(p, now), now) <= HEART_REGEN_SECONDS
  {
    if Regenerate(p, now).hearts < p.maxHearts {
      RegenerateCredits(p, now);
    }
  }

  /** A read that adds a heart leaves at least one heart to pay with, unless
      the stored count was negative, which no write of the backend produces. */
  lemma ReadThenNoHearts(p: Profile, now: int)
    requires Regenerates(p, now) && Debit(Regenerate(p, now), now).Failure?
    ensures p.hearts < 0
  {
  }

  /** After a successful start (a read followed by a debit at the same `now`)
      the profile is below its maximum and its clock runs with less than one
      period elapsed. */
  lemma ClockRunsAfterStart(p: Profile, now: int)
    requires Bounded(p) && p.lastRegenTime <= now
    requires Debit(Regenerate(p, now), now).Success?
    ensures Debit(Regenerate(p, now), now).value.hearts < p.maxHearts
    ensures 0 <= now - Debit(Regenerate(p, now), now).value.lastRegenTime < HEART_REGEN_SECONDS
  {
    var r := Regenerate(p, now);
    if r.hearts < r.maxHearts {
      RegenerateCredits(p, now);
    }
  }
}
