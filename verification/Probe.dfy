/**
 * The shared release probe of backend/db.py, for one channel: a schedule, a
 * cooldown and a generation-fenced lease around the check for new releases.
 */
module ProbeSpec {
  import opened Common

  type Owner = string

  /** A stored check result; `wellFormed` is the reader's format test on it. */
  datatype Result = Result(wellFormed: bool, currentVersion: string, checkedAt: real, body: string)

  datatype Row = Row(
    currentVersion: string, lastSuccess: Option<Result>,
    lastAttemptAt: Option<real>, lastSuccessAt: Option<real>, lastFailureAt: Option<real>,
    nextCheckAt: real, failures: nat, lastError: string, retryNotBefore: real,
    cooldownUntil: real, owner: Owner, leaseUntil: real, generation: nat)

  /** The probe row and the older `platform_update_checks` row of the same channel. */
  datatype Channel = Channel(row: Option<Row>, check: Option<Result>)

  datatype Event =
    | Acquire(owner: Owner, version: string, force: bool, interval: real, lease: real, cooldown: real)
    | Renew(owner: Owner, generation: nat, lease: real)
    | Finish(owner: Owner, generation: nat, version: string, nextCheckAt: real,
             success: Option<Result>, error: string, retryNotBefore: real)
    | Abandon(owner: Owner, generation: nat)

  /** `Refused` is an invalid argument. */
  datatype Outcome = Granted | Busy | Backoff | CoolingDown | Cached | Refused

  /** Arguments that the source accepts; others raise before any transaction. */
  predicate ArgumentsOk(e: Event, now: real) {
    && now >= 0.0
    && (e.Acquire? ==> 0 < |e.owner| <= 128 && 0 < |e.version| <= 200)
    && (e.Acquire? ==> e.interval >= 1.0 && e.lease >= 1.0 && e.cooldown >= 0.0)
    && (e.Renew? ==> e.lease >= 1.0)
    && (e.Finish? ==> e.nextCheckAt >= now && e.retryNotBefore >= 0.0 && (e.success.Some? || e.error != ""))
  }

  function LeaseLength(lease: real): real {
    MinReal(lease, 3600.0)
  }

  function CooldownLength(cooldown: real): real {
    MinReal(cooldown, 86400.0)
  }

  /** The column keeps eighty characters. */
  function ErrorText(error: string): string {
    if |error| > 80 then error[..80] else error
  }

  function Usable(r: Option<Result>): Option<Result> {
    if r.Some? && r.value.wellFormed then r else None
  }

  /** The row read by acquire: a missing one is seeded from a successful older check. */
  function Seeded(c: Channel, interval: real, cooldown: real): Row {
    match c.row
    case Some(row) => row
    case None =>
      match Usable(c.check)
      case Some(r) => Row(r.currentVersion, Some(r), Some(r.checkedAt), Some(r.checkedAt), None,
                          r.checkedAt + interval, 0, "", 0.0, r.checkedAt + CooldownLength(cooldown), "", 0.0, 0)
      case None => Row("", None, None, None, None, 0.0, 0, "", 0.0, 0.0, "", 0.0, 0)
  }

  function AcquireOutcome(row: Row, e: Event, now: real): Outcome
    requires e.Acquire?
  {
    if row.owner != "" && row.leaseUntil > now then Busy
    else if row.retryNotBefore > now then Backoff
    else if row.cooldownUntil > now then CoolingDown
    else if !e.force && row.nextCheckAt > now && row.currentVersion == e.version
        && Usable(row.lastSuccess).Some? then Cached
    else Granted
  }

  function GrantRow(row: Row, e: Event, now: real): Row
    requires e.Acquire?
  {
    row.(currentVersion := e.version, lastAttemptAt := Some(now), nextCheckAt := now + LeaseLength(e.lease),
         cooldownUntil := now + CooldownLength(e.cooldown), owner := e.owner,
         leaseUntil := now + LeaseLength(e.lease), generation := row.generation + 1)
  }

  predicate Fenced(c: Channel, owner: Owner, generation: nat) {
    c.row.Some? && c.row.value.owner == owner && c.row.value.generation == generation
  }

  predicate Accepted(c: Channel, e: Event, now: real) {
    match e
    case Acquire(_, _, _, interval, _, cooldown) => AcquireOutcome(Seeded(c, interval, cooldown), e, now) == Granted
    case Renew(owner, generation, _) => Fenced(c, owner, generation) && c.row.value.leaseUntil > now
    case Finish(owner, generation, version, _, _, _, _) =>
      Fenced(c, owner, generation) && c.row.value.currentVersion == version && c.row.value.leaseUntil > now
    case Abandon(owner, generation) => Fenced(c, owner, generation)
  }

  function FinishRow(row: Row, e: Event, now: real): Row
    requires e.Finish?
  {
    match e.success
    case Some(r) =>
      row.(lastSuccess := Some(r.(currentVersion := e.version, checkedAt := now)), lastSuccessAt := Some(now),
           failures := 0,
           lastError := "", retryNotBefore := 0.0, nextCheckAt := e.nextCheckAt, owner := "", leaseUntil := 0.0)
    case None =>
      row.(lastFailureAt := Some(now), failures := row.failures + 1, lastError := ErrorText(e.error),
           retryNotBefore := e.retryNotBefore, nextCheckAt := e.nextCheckAt, owner := "", leaseUntil := 0.0)
  }

  function Apply(c: Channel, e: Event, now: real): Channel {
    match e
    case Acquire(_, _, _, interval, _, cooldown) =>
      var row := Seeded(c, interval, cooldown);
      c.(row := Some(if AcquireOutcome(row, e, now) == Granted then GrantRow(row, e, now) else row))
    case Renew(_, _, lease) =>
      if Accepted(c, e, now) then c.(row := Some(c.row.value.(leaseUntil := now + LeaseLength(lease)))) else c
    case Finish(_, _, _, _, success, _, _) =>
      if !Accepted(c, e, now) then c
      else
        var row := FinishRow(c.row.value, e, now);
        Channel(Some(row), if success.Some? then row.lastSuccess else c.check)
    case Abandon(_, _) =>
      if !Accepted(c, e, now) then c
      else c.(row := Some(c.row.value.(owner := "", leaseUntil := 0.0,
                                       nextCheckAt := MinReal(c.row.value.nextCheckAt, now))))
  }

  /** Each state follows from the one before it. */
  ghost predicate Follows(states: seq<Channel>, events: seq<Event>, clock: seq<real>) {
    && |states| == |events| + 1 && |clock| == |events|
    && forall i :: 0 <= i < |events| ==> states[i + 1] == Apply(states[i], events[i], clock[i])
  }

  /** A channel's history: from a missing row on, with arguments that the source accepts. */
  ghost predicate IsRun(states: seq<Channel>, events: seq<Event>, clock: seq<real>) {
    && Follows(states, events, clock) && states[0].row == None
    && forall i :: 0 <= i < |events| ==> ArgumentsOk(events[i], clock[i])
  }

  lemma {:induction false} RunGrows(states: seq<Channel>, events: seq<Event>, clock: seq<real>, e: Event, now: real)
    requires IsRun(states, events, clock) && ArgumentsOk(e, now)
    ensures IsRun(states + [Apply(states[|events|], e, now)], events + [e], clock + [now])
  {
  }
}

module ProbeStores {
  import opened Common
  import opened ProbeSpec

  class ProbeStore {
    var row: Option<Row>
    var check: Option<Result>

    ghost var states: seq<Channel>
    ghost var events: seq<Event>
    ghost var clock: seq<real>

    ghost function Abs(): Channel
      reads this
    {
      Channel(row, check)
    }

    /** The calls made on this object lead, one after the other, to its present state. */
    ghost predicate Valid()
      reads this
    {
      IsRun(states, events, clock) && states[|events|] == Abs()
    }

    constructor (check: Option<Result>)
      ensures Valid() && Abs() == Channel(None, check) && events == []
    {
      row, this.check := None, check;
      states, events, clock := [Channel(None, check)], [], [];
    }

    /** Write down the transaction that is about to be made. */
    ghost method Log(e: Event, now: real)
      requires Valid() && ArgumentsOk(e, now)
      modifies this`states, this`events, this`clock
      ensures IsRun(states, events, clock) && states[|events|] == Apply(Abs(), e, now)
      ensures events == old(events) + [e] && clock == old(clock) + [now]
    {
      RunGrows(states, events, clock, e, now);
      states, events, clock := states + [Apply(Abs(), e, now)], events + [e], clock + [now];
    }

    /** The call was made on these tables and is recorded; None is an invalid argument, which changes nothing. */
    ghost predicate Performed(was: Channel, before: seq<Event>, e: Event, now: real, ok: Option<bool>)
      reads this
    {
      if ArgumentsOk(e, now) then
        && ok == Some(Accepted(was, e, now)) && Abs() == Apply(was, e, now)
        && events == before + [e] && clock != [] && clock[|clock| - 1] == now
      else ok == None && Abs() == was && events == before
    }

    method AcquireProbe(owner: Owner, version: string, force: bool, interval: real, lease: real, cooldown: real,
                        now: real)
      returns (outcome: Outcome, generation: nat)
      requires Valid()
      modifies this
      ensures Valid()
      ensures var e := Acquire(owner, version, force, interval, lease, cooldown);
              if ArgumentsOk(e, now) then
                && events == old(events) + [e] && clock == old(clock) + [now] && Abs() == Apply(old(Abs()), e, now)
                && outcome == AcquireOutcome(Seeded(old(Abs()), interval, cooldown), e, now)
                && row.Some? && generation == row.value.generation
              else outcome == Refused && Abs() == old(Abs()) && events == old(events)
    {
      if !ArgumentsOk(Acquire(owner, version, force, interval, lease, cooldown), now) {
        return Refused, 0;
      }
      Log(Acquire(owner, version, force, interval, lease, cooldown), now);
      if row.None? {
        var r := Usable(check);
        if r.Some? {
          var at := r.value.checkedAt;
          row := Some(Row(r.value.currentVersion, r, Some(at), Some(at), None, at + interval, 0, "", 0.0,
                          at + MinReal(cooldown, 86400.0), "", 0.0, 0));
        } else {
          row := Some(Row("", None, None, None, None, 0.0, 0, "", 0.0, 0.0, "", 0.0, 0));
        }
      }
      var state := row.value;
      outcome := Granted;
      if state.owner != "" && state.leaseUntil > now {
        outcome := Busy;
      } else if state.retryNotBefore > now {
        outcome := Backoff;
      } else if state.cooldownUntil > now {
        outcome := CoolingDown;
      } else if !force && state.nextCheckAt > now && state.currentVersion == version
          && Usable(state.lastSuccess).Some? {
        outcome := Cached;
      }
      generation := state.generation;
      if outcome == Granted {
        generation := generation + 1;
        row := Some(state.(currentVersion := version, lastAttemptAt := Some(now),
                           nextCheckAt := now + LeaseLength(lease),
                           cooldownUntil := now + CooldownLength(cooldown), owner := owner,
                           leaseUntil := now + LeaseLength(lease), generation := generation));
      }
    }

    method RenewProbe(owner: Owner, generation: nat, lease: real, now: real) returns (ok: Option<bool>)
      requires Valid()
      modifies this
      ensures Valid() && Performed(old(Abs()), old(events), Renew(owner, generation, lease), now, ok)
    {
      if !ArgumentsOk(Renew(owner, generation, lease), now) {
        return None;
      }
      Log(Renew(owner, generation, lease), now);
      if row.Some? && row.value.owner == owner && row.value.generation == generation && row.value.leaseUntil > now {
        row := Some(row.value.(leaseUntil := now + LeaseLength(lease)));
        return Some(true);
      }
      return Some(false);
    }

    method FinishProbe(owner: Owner, generation: nat, version: string, nextCheckAt: real, success: Option<Result>,
                       error: string, retryNotBefore: real, now: real) returns (ok: Option<bool>)
      requires Valid()
      modifies this
      ensures var e := Finish(owner, generation, version, nextCheckAt, success, error, retryNotBefore);
              Valid() && Performed(old(Abs()), old(events), e, now, ok)
    {
      if !ArgumentsOk(Finish(owner, generation, version, nextCheckAt, success, error, retryNotBefore), now) {
        return None;
      }
      Log(Finish(owner, generation, version, nextCheckAt, success, error, retryNotBefore), now);
      ok := Some(row.Some? && row.value.owner == owner && row.value.generation == generation
                 && row.value.currentVersion == version && row.value.leaseUntil > now);
      if ok.value {
        var state := row.value.(nextCheckAt := nextCheckAt, owner := "", leaseUntil := 0.0);
        if success.Some? {
          var stored := success.value.(currentVersion := version, checkedAt := now);
          row := Some(state.(lastSuccess := Some(stored), lastSuccessAt := Some(now), failures := 0,
                             lastError := "", retryNotBefore := 0.0));
          check := Some(stored);
        } else {
          row := Some(state.(lastFailureAt := Some(now), failures := state.failures + 1, lastError := ErrorText(error),
                             retryNotBefore := retryNotBefore));
        }
      }
    }

    method AbandonProbe(owner: Owner, generation: nat, now: real) returns (ok: Option<bool>)
      requires Valid()
      modifies this
      ensures Valid() && Performed(old(Abs()), old(events), Abandon(owner, generation), now, ok)
    {
      if !ArgumentsOk(Abandon(owner, generation), now) {
        return None;
      }
      Log(Abandon(owner, generation), now);
      ok := Some(row.Some? && row.value.owner == owner && row.value.generation == generation);
      if ok.value {
        row := Some(row.value.(owner := "", leaseUntil := 0.0, nextCheckAt := MinReal(row.value.nextCheckAt, now)));
      }
    }
  }
}

/** What every run of one channel keeps; the clock is not assumed to be monotone. */
module ProbeRuns {
  import opened Common
  import opened ProbeSpec

  predicate Grants(c: Channel, e: Event, now: real) {
    e.Acquire? && Accepted(c, e, now)
  }

  predicate Stores(c: Channel, e: Event, now: real) {
    e.Finish? && Accepted(c, e, now)
  }

  function GenerationOf(c: Channel): nat {
    if c.row.Some? then c.row.value.generation else 0
  }

  // ----- spacing of granted checks -----

  predicate CoolsUntil(c: Channel, until: real) {
    c.row.Some? && c.row.value.cooldownUntil >= until
  }

  lemma {:induction false} CooldownLasts(states: seq<Channel>, events: seq<Event>, clock: seq<real>, i: nat, j: nat)
    requires IsRun(states, events, clock) && i < j < |states| && Grants(states[i], events[i], clock[i])
    ensures CoolsUntil(states[j], clock[i] + CooldownLength(events[i].cooldown))
    decreases j
  {
    if i + 1 < j {
      CooldownLasts(states, events, clock, i, j - 1);
      assert ArgumentsOk(events[j - 1], clock[j - 1]);
    }
  }

  /** Two granted checks are at least the earlier one's cooldown apart, forced or not. */
  lemma {:induction false} GrantsAreSpaced(states: seq<Channel>, events: seq<Event>, clock: seq<real>, i: nat, j: nat)
    requires IsRun(states, events, clock) && i < j < |events|
    requires Grants(states[i], events[i], clock[i]) && Grants(states[j], events[j], clock[j])
    ensures clock[j] >= clock[i] + CooldownLength(events[i].cooldown)
  {
    CooldownLasts(states, events, clock, i, j);
  }

  // ----- generation fencing -----

  /** Nothing of generation g can be stored any more. */
  predicate Spent(c: Channel, g: nat) {
    c.row.Some? && (c.row.value.generation > g || (c.row.value.generation == g && c.row.value.leaseUntil <= 0.0))
  }

  lemma {:induction false} SpentStep(c: Channel, e: Event, now: real, g: nat)
    requires ArgumentsOk(e, now) && Spent(c, g)
    ensures Spent(Apply(c, e, now), g)
    ensures (e.Finish? || e.Renew?) && e.generation == g ==> !Accepted(c, e, now) && Apply(c, e, now) == c
  {
  }

  lemma {:induction false} SpentForever(states: seq<Channel>, events: seq<Event>, clock: seq<real>, g: nat, i: nat,
                                        j: nat)
    requires IsRun(states, events, clock) && i <= j < |states| && Spent(states[i], g)
    ensures Spent(states[j], g)
    decreases j
  {
    if i < j {
      SpentForever(states, events, clock, g, i, j - 1);
      SpentStep(states[j - 1], events[j - 1], clock[j - 1], g);
    }
  }

  /** Each grant stores at most one result. */
  lemma {:induction false} OneResultPerGrant(states: seq<Channel>, events: seq<Event>, clock: seq<real>, i: nat, j: nat)
    requires IsRun(states, events, clock) && i < j < |events|
    requires Stores(states[i], events[i], clock[i]) && Stores(states[j], events[j], clock[j])
    ensures events[i].generation < events[j].generation
  {
    assert Spent(states[i + 1], events[i].generation);
    SpentForever(states, events, clock, events[i].generation, i + 1, j);
    SpentStep(states[j], events[j], clock[j], events[i].generation);
  }

  /** After a newer grant, a finish or renewal of an older one is refused and changes nothing. */
  lemma {:induction false} OlderGrantIsFenced(states: seq<Channel>, events: seq<Event>, clock: seq<real>, i: nat,
                                              j: nat)
    requires IsRun(states, events, clock) && i < j < |events| && Grants(states[i], events[i], clock[i])
    requires (events[j].Finish? || events[j].Renew?) && events[j].generation <= GenerationOf(states[i])
    ensures !Accepted(states[j], events[j], clock[j]) && states[j + 1] == states[j]
  {
    SpentForever(states, events, clock, events[j].generation, i + 1, j);
    SpentStep(states[j], events[j], clock[j], events[j].generation);
  }

  /** An expired holder cannot store or renew, even before anybody takes over. */
  lemma {:induction false} ExpiredHolderIsFenced(c: Channel, e: Event, now: real)
    requires (e.Finish? || e.Renew?) && c.row.Some? && c.row.value.leaseUntil <= now
    ensures !Accepted(c, e, now) && Apply(c, e, now) == c
  {
  }

  // ----- results -----

  /** Failures stored since the last stored success. */
  ghost function FailuresSince(states: seq<Channel>, events: seq<Event>, clock: seq<real>, i: nat): nat
    requires IsRun(states, events, clock) && i < |states|
  {
    if i == 0 then 0
    else if !Stores(states[i - 1], events[i - 1], clock[i - 1]) then FailuresSince(states, events, clock, i - 1)
    else if events[i - 1].success.Some? then 0
    else FailuresSince(states, events, clock, i - 1) + 1
  }

  /** The last success stored before point i, or the one imported from the older table. */
  ghost function LastStored(states: seq<Channel>, events: seq<Event>, clock: seq<real>, i: nat): Option<Result>
    requires IsRun(states, events, clock) && i < |states|
  {
    if i == 0 then Usable(states[0].check)
    else
      var e := events[i - 1];
      if Stores(states[i - 1], e, clock[i - 1]) && e.success.Some? then
        Some(e.success.value.(currentVersion := e.version, checkedAt := clock[i - 1]))
      else LastStored(states, events, clock, i - 1)
  }

  /**
   * In every reachable state the row's failure counter and last success are
   * what the history of accepted finishes says, so no failure, renewal,
   * abandonment or refused call ever alters the last success; and the older
   * table holds the same result once the row has one.
   */
  lemma {:induction false} RowTellsHistory(states: seq<Channel>, events: seq<Event>, clock: seq<real>, i: nat)
    requires IsRun(states, events, clock) && i < |states|
    ensures states[i].row.Some? ==> states[i].row.value.failures == FailuresSince(states, events, clock, i)
    ensures states[i].row.Some? ==> states[i].row.value.lastSuccess == LastStored(states, events, clock, i)
    ensures states[i].row.None? ==> FailuresSince(states, events, clock, i) == 0 && states[i].check == states[0].check
                                    && LastStored(states, events, clock, i) == Usable(states[i].check)
    ensures states[i].row.Some? && states[i].row.value.lastSuccess.Some? ==>
              states[i].check == states[i].row.value.lastSuccess
  {
    if i > 0 {
      RowTellsHistory(states, events, clock, i - 1);
    }
  }
}
