/** What the probe promises about its row: when a check is granted, what each call writes, and what a failure delays. */
module ProbeLaws {
  import opened Common
  import opened ProbeSpec
  import opened ProbeRuns

  /** The calls that are made: a name of at most 128 and a version of at most 200 characters, sensible times. */
  lemma {:induction false} ArgumentsMean(e: Event, now: real)
    ensures ArgumentsOk(e, now) <==>
              now >= 0.0 &&
              match e
              case Acquire(owner, version, _, interval, lease, cooldown) =>
                && owner != "" && |owner| < 129 && version != "" && |version| < 201
                && !(interval < 1.0) && !(lease < 1.0) && !(cooldown < 0.0)
              case Renew(_, _, lease) => !(lease < 1.0)
              case Finish(_, _, _, nextCheckAt, success, error, retry) =>
                !(nextCheckAt < now) && !(retry < 0.0) && !(success == None && error == "")
              case Abandon(_, _) => true
  {
  }

  /** The row exists and somebody's lease on it runs. */
  predicate Leased(row: Row, now: real) {
    row.owner != "" && now < row.leaseUntil
  }

  /** A well-formed success for this version is stored and not yet due for renewal. */
  predicate Fresh(row: Row, version: string, now: real) {
    && now < row.nextCheckAt && row.currentVersion == version
    && row.lastSuccess.Some? && row.lastSuccess.value.wellFormed
  }

  /** The answer to a check, from the existing row alone; it is granted exactly when nothing stands against it. */
  lemma {:induction false} AnswerMeans(c: Channel, row: Row, e: Event, now: real)
    requires e.Acquire? && c.row == Some(row)
    ensures var answer := AcquireOutcome(Seeded(c, e.interval, e.cooldown), e, now);
            && (answer == Busy <==> Leased(row, now))
            && (answer == Backoff <==> !Leased(row, now) && now < row.retryNotBefore)
            && (answer == CoolingDown <==>
                  !Leased(row, now) && row.retryNotBefore <= now && now < row.cooldownUntil)
            && (answer == Cached <==>
                  && !Leased(row, now) && row.retryNotBefore <= now && row.cooldownUntil <= now
                  && !e.force && Fresh(row, e.version, now))
    ensures Accepted(c, e, now) <==>
              && !Leased(row, now) && row.retryNotBefore <= now && row.cooldownUntil <= now
              && (e.force || !Fresh(row, e.version, now))
    ensures !Accepted(c, e, now) ==> Apply(c, e, now) == c
  {
  }

  /** The shorter of a length asked for and its limit. */
  function Capped(asked: real, limit: real): real {
    if asked < limit then asked else limit
  }

  /** A grant writes the new holder, lease, cooldown and generation and leaves the results alone. */
  lemma {:induction false} GrantWrites(c: Channel, row: Row, e: Event, now: real)
    requires e.Acquire? && c.row == Some(row) && Accepted(c, e, now)
    ensures var c' := Apply(c, e, now);
            && c'.check == c.check && c'.row.Some?
            && var got := c'.row.value;
               && got.owner == e.owner && got.currentVersion == e.version && got.lastAttemptAt == Some(now)
               && got.generation == row.generation + 1
               && got.leaseUntil == got.nextCheckAt == now + Capped(e.lease, 3600.0)
               && got.cooldownUntil == now + Capped(e.cooldown, 86400.0)
               && got.lastSuccess == row.lastSuccess && got.lastSuccessAt == row.lastSuccessAt
               && got.lastFailureAt == row.lastFailureAt && got.failures == row.failures
               && got.lastError == row.lastError && got.retryNotBefore == row.retryNotBefore
  {
  }

  /**
   * The first check of a channel: a well-formed older result counts as the
   * last attempt and success, so it delays this check as its own row would;
   * a malformed or missing one does not.
   */
  lemma {:induction false} FirstCheck(c: Channel, e: Event, now: real)
    requires e.Acquire? && c.row == None
    ensures var row := Seeded(c, e.interval, e.cooldown);
            && row.owner == "" && row.leaseUntil == 0.0 && row.generation == 0 && row.failures == 0
            && row.lastError == "" && row.retryNotBefore == 0.0 && row.lastFailureAt == None
            && (if c.check.Some? && c.check.value.wellFormed then
                  var seen := c.check.value;
                  && row.lastSuccess == c.check && row.currentVersion == seen.currentVersion
                  && row.lastAttemptAt == row.lastSuccessAt == Some(seen.checkedAt)
                  && row.nextCheckAt == seen.checkedAt + e.interval
                  && row.cooldownUntil == seen.checkedAt + Capped(e.cooldown, 86400.0)
                else
                  && row.lastSuccess == None && row.currentVersion == ""
                  && row.lastAttemptAt == row.lastSuccessAt == None
                  && row.nextCheckAt == row.cooldownUntil == 0.0)
            && (Accepted(c, e, now) <==> Accepted(c.(row := Some(row)), e, now))
            && Apply(c, e, now) == Apply(c.(row := Some(row)), e, now)
  {
  }

  /** The caller holds the generation it was granted. */
  predicate Holds(c: Channel, owner: Owner, generation: nat) {
    c.row.Some? && c.row.value.owner == owner && c.row.value.generation == generation
  }

  lemma {:induction false} RenewMeans(c: Channel, owner: Owner, generation: nat, lease: real, now: real)
    ensures var e := Renew(owner, generation, lease);
            && (Accepted(c, e, now) <==> Holds(c, owner, generation) && now < c.row.value.leaseUntil)
            && Apply(c, e, now) ==
               if Accepted(c, e, now)
               then Channel(Some(c.row.value.(leaseUntil := now + Capped(lease, 3600.0))), c.check)
               else c
  {
  }

  /** A result is taken from the holder of a running lease that checked the row's version. */
  lemma {:induction false} FinishMeans(c: Channel, e: Event, now: real)
    requires e.Finish?
    ensures Accepted(c, e, now) <==>
              && Holds(c, e.owner, e.generation) && now < c.row.value.leaseUntil
              && c.row.value.currentVersion == e.version
    ensures !Accepted(c, e, now) ==> Apply(c, e, now) == c
    ensures Accepted(c, e, now) ==>
              var c', row := Apply(c, e, now), c.row.value;
              && c'.row.Some?
              && var got := c'.row.value;
                 && got.owner == "" && got.leaseUntil == 0.0 && got.nextCheckAt == e.nextCheckAt
                 && got.generation == row.generation && got.currentVersion == row.currentVersion
                 && got.cooldownUntil == row.cooldownUntil && got.lastAttemptAt == row.lastAttemptAt
  {
  }

  /** What a success and a failure leave behind, in the row and in the older table. */
  lemma {:induction false} FinishWrites(c: Channel, e: Event, now: real)
    requires e.Finish? && Accepted(c, e, now)
    ensures Apply(c, e, now).row.Some?
    ensures var c', row, got := Apply(c, e, now), c.row.value, Apply(c, e, now).row.value;
            if e.success.Some? then
              && c'.check == got.lastSuccess && got.lastSuccess.Some? && got.lastSuccess.value.checkedAt == now
              && got.lastSuccess.value.currentVersion == e.version
              && got.lastSuccess.value.body == e.success.value.body
              && got.lastSuccess.value.wellFormed == e.success.value.wellFormed
              && got.lastSuccessAt == Some(now) && got.lastFailureAt == row.lastFailureAt
              && got.failures == 0 && got.lastError == "" && got.retryNotBefore == 0.0
            else
              && c'.check == c.check && got.lastSuccess == row.lastSuccess && got.lastSuccessAt == row.lastSuccessAt
              && got.lastFailureAt == Some(now) && got.failures == row.failures + 1
              && got.lastError <= e.error && |got.lastError| == (if |e.error| < 80 then |e.error| else 80)
              && got.retryNotBefore == e.retryNotBefore
  {
  }

  /** Giving up ends the lease and makes the next check due at once; nothing else changes. */
  lemma {:induction false} AbandonMeans(c: Channel, owner: Owner, generation: nat, now: real)
    ensures var e := Abandon(owner, generation);
            && (Accepted(c, e, now) <==> Holds(c, owner, generation))
            && Apply(c, e, now) ==
               if Accepted(c, e, now)
               then Channel(Some(c.row.value.(owner := "", leaseUntil := 0.0,
                                              nextCheckAt := Capped(c.row.value.nextCheckAt, now))), c.check)
               else c
  {
  }

  // ----- a failure delays the next check -----

  /** Nobody holds the row, and no check is due before this time. */
  predicate BacksOff(c: Channel, until: real) {
    c.row.Some? && c.row.value.owner == "" && c.row.value.leaseUntil <= 0.0 && c.row.value.retryNotBefore == until
  }

  lemma {:induction false} BackoffStep(c: Channel, e: Event, now: real, until: real)
    requires BacksOff(c, until) && ArgumentsOk(e, now)
    ensures BacksOff(Apply(c, e, now), until) || (Grants(c, e, now) && now >= until)
  {
    if e.Acquire? {
      AnswerMeans(c, c.row.value, e, now);
    }
  }

  /** Some check was granted after point i and up to point j, and not before that time. */
  ghost predicate GrantedSince(states: seq<Channel>, events: seq<Event>, clock: seq<real>, i: nat, j: nat, until: real)
    requires IsRun(states, events, clock)
  {
    exists k :: i < k <= j && k < |events| && Grants(states[k], events[k], clock[k]) && clock[k] >= until
  }

  lemma {:induction false} BackoffLasts(states: seq<Channel>, events: seq<Event>, clock: seq<real>, until: real,
                                        i: nat, j: nat)
    requires IsRun(states, events, clock) && i < j < |states| && BacksOff(states[i + 1], until)
    ensures BacksOff(states[j], until) || GrantedSince(states, events, clock, i, j - 1, until)
    decreases j
  {
    if i + 1 < j {
      BackoffLasts(states, events, clock, until, i, j - 1);
      if BacksOff(states[j - 1], until) {
        assert ArgumentsOk(events[j - 1], clock[j - 1]);
        BackoffStep(states[j - 1], events[j - 1], clock[j - 1], until);
      }
    }
  }

  /**
   * After a stored failure the first check that is granted, forced or not,
   * comes no sooner than the failure's `retry_not_before`; so does every later
   * one while the clock does not go backwards.
   */
  lemma {:induction false} FailureDelaysNextCheck(states: seq<Channel>, events: seq<Event>, clock: seq<real>, i: nat,
                                                  j: nat)
    requires IsRun(states, events, clock) && i < j < |events|
    requires Stores(states[i], events[i], clock[i]) && events[i].success == None
    requires Grants(states[j], events[j], clock[j])
    ensures GrantedSince(states, events, clock, i, j, events[i].retryNotBefore)
    ensures (forall k :: i < k < j ==> !Grants(states[k], events[k], clock[k])) ==>
              clock[j] >= events[i].retryNotBefore
    ensures (forall k :: i < k < j ==> clock[k] <= clock[j]) ==> clock[j] >= events[i].retryNotBefore
  {
    var until := events[i].retryNotBefore;
    FinishMeans(states[i], events[i], clock[i]);
    FinishWrites(states[i], events[i], clock[i]);
    BackoffLasts(states, events, clock, until, i, j);
    if BacksOff(states[j], until) {
      BackoffStep(states[j], events[j], clock[j], until);
      AnswerMeans(states[j], states[j].row.value, events[j], clock[j]);
    }
  }
}
