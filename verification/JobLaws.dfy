/**
 * What the queue promises about the rows themselves: when a job may be taken
 * and when it must be, what each call writes, and what never changes.  A job
 * is taken when its attempts go up by one.
 */
module JobLaws {
  import opened Common
  import opened JobSpec
  import opened JobRuns

  predicate Takes(t: Table, t': Table, id: nat) {
    id in t.jobs && id in t'.jobs && t'.jobs[id].attempts == t.jobs[id].attempts + 1
  }

  /** Seconds of a lease, as asked but at least one and at most an hour. */
  function Seconds(asked: real): real {
    if asked < 1.0 then 1.0 else if asked > 3600.0 then 3600.0 else asked
  }

  function Bounded(x: real, lo: real, hi: real): real {
    if x < lo then lo else if x > hi then hi else x
  }

  /** Waiting, and its time has come. */
  predicate Due(j: Job, now: real) {
    (j.status == Queued || j.status == Retry) && j.availableAt <= now
  }

  /** Running under a lease that has run out, with an attempt left. */
  predicate Abandoned(j: Job, now: real) {
    j.status == Running && j.leaseUntil.Some? && j.leaseUntil.value <= now && j.attempts < j.maxAttempts
  }

  predicate Wanted(j: Job, e: Event)
    requires e.Claim?
  {
    e.kinds.Some? ==> j.identity.kind in e.kinds.value
  }

  // ----- claims -----

  lemma {:induction false} ClaimedWhenDue(t: Table, e: Event, now: real, id: nat)
    requires TableInv(t) && Claims(t, e, now, id)
    ensures id in t.jobs && (Due(t.jobs[id], now) || Abandoned(t.jobs[id], now))
    ensures (e.Claim? && Wanted(t.jobs[id], e)) || (e.ClaimOne? && e.id == id)
  {
  }

  lemma {:induction false} ClaimedRow(t: Table, e: Event, now: real, id: nat)
    requires Claims(t, e, now, id) && id in t.jobs && (Due(t.jobs[id], now) || Abandoned(t.jobs[id], now))
    ensures id in Apply(t, e, now).jobs
    ensures Apply(t, e, now).jobs[id] ==
            t.jobs[id].(status := Running, attempts := t.jobs[id].attempts + 1, leaseOwner := Some(e.owner),
                        leaseUntil := Some(now + Seconds(e.seconds)), updatedAt := now,
                        completedAt := if Due(t.jobs[id], now) then t.jobs[id].completedAt else None,
                        availableAt := if Due(t.jobs[id], now) then t.jobs[id].availableAt else now)
  {
  }

  lemma {:induction false} TakenStep(t: Table, e: Event, now: real, id: nat)
    requires TableInv(t) && Takes(t, Apply(t, e, now), id)
    ensures (e.Claim? && Wanted(t.jobs[id], e)) || (e.ClaimOne? && e.id == id)
    ensures Due(t.jobs[id], now) || Abandoned(t.jobs[id], now)
    ensures Apply(t, e, now).jobs[id] ==
            t.jobs[id].(status := Running, attempts := t.jobs[id].attempts + 1, leaseOwner := Some(e.owner),
                        leaseUntil := Some(now + Seconds(e.seconds)), updatedAt := now,
                        availableAt := if Due(t.jobs[id], now) then t.jobs[id].availableAt else now)
  {
    AttemptsStep(t, e, now, id);
    ClaimedWhenDue(t, e, now, id);
    ClaimedRow(t, e, now, id);
  }

  /**
   * In every run a job is taken only by a claim that wants its kind, only when
   * it is due or abandoned, and then runs for the claimer until the deadline.
   */
  lemma {:induction false} TakenOnlyWhenDue(tables: seq<Table>, events: seq<Event>, clock: seq<real>, id: nat, j: nat)
    requires IsRun(tables, events, clock) && j < |events| && Takes(tables[j], tables[j + 1], id)
    ensures (events[j].Claim? && Wanted(tables[j].jobs[id], events[j])) || (events[j].ClaimOne? && events[j].id == id)
    ensures Due(tables[j].jobs[id], clock[j]) || Abandoned(tables[j].jobs[id], clock[j])
    ensures var row := tables[j + 1].jobs[id];
            && row.status == Running && row.leaseOwner == Some(events[j].owner)
            && row.leaseUntil == Some(clock[j] + Seconds(events[j].seconds))
  {
    RunInv(tables, events, clock, j);
    TakenStep(tables[j], events[j], clock[j], id);
  }

  ghost function TakenIds(t: Table, t': Table): set<nat> {
    set id | id in t.jobs && Takes(t, t', id)
  }

  lemma {:induction false} ChosenAreTaken(t: Table, e: Event, now: real)
    requires TableInv(t) && e.Claim?
    ensures TakenIds(t, Apply(t, e, now)) == Chosen(t.jobs, e, now)
  {
    LowestIsAPrefix(EligibleIds(Recovered(t.jobs, now), now, e.kinds), ClampInt(e.limit, 1, 100));
  }

  /** A claim takes no more jobs than its limit, one to a hundred; with no kinds to choose from it does nothing. */
  lemma {:induction false} TakesAtMostLimit(t: Table, e: Event, now: real)
    requires TableInv(t) && e.Claim?
    ensures |TakenIds(t, Apply(t, e, now))| <= (if e.limit < 1 then 1 else if e.limit > 100 then 100 else e.limit)
    ensures e.kinds == Some({}) ==> Apply(t, e, now) == t
  {
    ChosenAreTaken(t, e, now);
    LowestIsAPrefix(EligibleIds(Recovered(t.jobs, now), now, e.kinds), ClampInt(e.limit, 1, 100));
  }

  lemma {:induction false} DueIsEligible(t: Table, e: Event, now: real, id: nat)
    requires TableInv(t) && e.Claim? && id in t.jobs
    ensures id in EligibleIds(Recovered(t.jobs, now), now, e.kinds) <==>
            (Due(t.jobs[id], now) || Abandoned(t.jobs[id], now)) && Wanted(t.jobs[id], e)
  {
  }

  /** A claim passes a due job over only for as many earlier ones as it may take. */
  lemma {:induction false} DueIsTaken(t: Table, e: Event, now: real, id: nat)
    requires TableInv(t) && e.Claim? && e.kinds != Some({}) && id in t.jobs
    requires (Due(t.jobs[id], now) || Abandoned(t.jobs[id], now)) && Wanted(t.jobs[id], e)
    ensures var taken := TakenIds(t, Apply(t, e, now));
            || id in taken
            || (|taken| == (if e.limit < 1 then 1 else if e.limit > 100 then 100 else e.limit)
                && forall k :: k in taken ==> k < id)
  {
    var all, n := EligibleIds(Recovered(t.jobs, now), now, e.kinds), ClampInt(e.limit, 1, 100);
    DueIsEligible(t, e, now, id);
    ChosenAreTaken(t, e, now);
    LowestIsAPrefix(all, n);
    if id !in Lowest(all, n) {
      SubsetSize(Lowest(all, n), all);
      ShortTakesAll(all, n, id);
    }
  }

  lemma {:induction false} ShortTakesAll(all: set<nat>, n: nat, id: nat)
    requires id in all && id !in Lowest(all, n)
    ensures |Lowest(all, n)| == n && forall k :: k in Lowest(all, n) ==> k < id
  {
    LowestIsAPrefix(all, n);
    if |all| < n {
      SubsetSize(Lowest(all, n), all - {id});
    }
    forall k | k in Lowest(all, n) ensures k < id {
    }
  }

  /** A claim of one job takes it exactly when it is due or abandoned. */
  lemma {:induction false} OneIsTaken(t: Table, e: Event, now: real)
    requires TableInv(t) && e.ClaimOne?
    ensures Takes(t, Apply(t, e, now), e.id) <==>
            e.id in t.jobs && (Due(t.jobs[e.id], now) || Abandoned(t.jobs[e.id], now))
    ensures Accepted(t, e, now) <==> Takes(t, Apply(t, e, now), e.id)
  {
  }

  /** What a claim does to the jobs it does not take: expired ones go back, or to the dead letters. */
  lemma {:induction false} ClaimRecovers(t: Table, e: Event, now: real, id: nat)
    requires TableInv(t) && id in t.jobs && (e.ClaimOne? || (e.Claim? && e.kinds != Some({})))
    requires !Takes(t, Apply(t, e, now), id)
    ensures id in Apply(t, e, now).jobs
    ensures var row, row' := t.jobs[id], Apply(t, e, now).jobs[id];
            if row.status == Running && row.leaseUntil.Some? && row.leaseUntil.value <= now then
              && row'.leaseOwner == None && row'.leaseUntil == None && row'.attempts == row.attempts
              && row'.availableAt == now && row'.identity == row.identity && row'.maxAttempts == row.maxAttempts
              && (if row.attempts >= row.maxAttempts then row'.status == DeadLetter && row'.completedAt == Some(now)
                  else row'.status == Retry && row'.completedAt == None)
            else row' == row
  {
    if e.Claim? {
      ChosenAreTaken(t, e, now);
    }
  }

  // ----- waiting -----

  /** A waiting job that nobody takes stays as it is. */
  lemma {:induction false} WaitingStep(t: Table, e: Event, now: real, id: nat)
    requires TableInv(t) && id in t.jobs && (t.jobs[id].status == Queued || t.jobs[id].status == Retry)
    requires t.jobs[id].availableAt > now
    ensures id in Apply(t, e, now).jobs && Apply(t, e, now).jobs[id] == t.jobs[id]
  {
  }

  lemma {:induction false} WaitsAt(tables: seq<Table>, events: seq<Event>, clock: seq<real>, id: nat, k: nat, row: Job)
    requires IsRun(tables, events, clock) && k < |events| && Get(tables[k].jobs, id) == Some(row)
    requires (row.status == Queued || row.status == Retry) && row.availableAt > clock[k]
    ensures Get(tables[k + 1].jobs, id) == Some(row) && !Takes(tables[k], tables[k + 1], id)
  {
    RunInv(tables, events, clock, k);
    WaitingStep(tables[k], events[k], clock[k], id);
  }

  /** While the clock is below its time, a waiting job is not taken and does not change at all. */
  lemma {:induction false} NotTakenBefore(tables: seq<Table>, events: seq<Event>, clock: seq<real>, id: nat, i: nat,
                                          j: nat)
    requires IsRun(tables, events, clock) && i <= j < |tables| && id in tables[i].jobs
    requires tables[i].jobs[id].status == Queued || tables[i].jobs[id].status == Retry
    requires forall k :: i <= k < j ==> clock[k] < tables[i].jobs[id].availableAt
    ensures id in tables[j].jobs && tables[j].jobs[id] == tables[i].jobs[id]
    ensures forall k :: i <= k < j ==> !Takes(tables[k], tables[k + 1], id)
    decreases j
  {
    if i < j {
      NotTakenBefore(tables, events, clock, id, i, j - 1);
      WaitsAt(tables, events, clock, id, j - 1, tables[i].jobs[id]);
    }
  }

  /** The owner still holds the job under a lease that has not run out. */
  predicate HeldBy(t: Table, id: nat, owner: Owner, now: real) {
    && id in t.jobs && t.jobs[id].status == Running && t.jobs[id].leaseOwner == Some(owner)
    && t.jobs[id].leaseUntil.Some? && t.jobs[id].leaseUntil.value > now
  }

  /** A deferral puts the job back with its attempt, for at least a twentieth of a second and at most a quarter hour. */
  lemma {:induction false} DeferWrites(t: Table, id: nat, owner: Owner, delay: real, now: real)
    requires TableInv(t)
    ensures var e := Defer(id, owner, delay);
            && (Accepted(t, e, now) <==> HeldBy(t, id, owner, now))
            && Apply(t, e, now) ==
               if HeldBy(t, id, owner, now) then
                 t.(jobs := t.jobs[id := t.jobs[id].(status := Retry, attempts := t.jobs[id].attempts - 1,
                                                     leaseOwner := None, leaseUntil := None,
                                                     availableAt := now + Bounded(delay, 0.05, 900.0),
                                                     updatedAt := now)])
               else t
  {
  }

  /** After a deferral the job is not taken until the delay has passed. */
  lemma {:induction false} DeferredJobWaits(tables: seq<Table>, events: seq<Event>, clock: seq<real>, i: nat, j: nat)
    requires IsRun(tables, events, clock) && i < j < |tables| && events[i].Defer?
    requires HeldBy(tables[i], events[i].id, events[i].owner, clock[i])
    requires forall k :: i < k < j ==> clock[k] < clock[i] + Bounded(events[i].delay, 0.05, 900.0)
    ensures forall k :: i < k < j ==> !Takes(tables[k], tables[k + 1], events[i].id)
  {
    RunInv(tables, events, clock, i);
    DeferWrites(tables[i], events[i].id, events[i].owner, events[i].delay, clock[i]);
    NotTakenBefore(tables, events, clock, events[i].id, i + 1, j);
  }

  const BACKOFF := [1.0, 2.0, 4.0, 8.0, 16.0, 32.0, 64.0, 128.0, 256.0]

  /** Seconds until a failed job is tried again. */
  function Backoff(attempts: nat, retryDelay: Option<real>): real {
    if retryDelay.Some? then Bounded(retryDelay.value, 0.0, 900.0) else BACKOFF[if attempts < 8 then attempts else 8]
  }

  lemma {:induction false} PowersOfTwo(n: nat)
    requires n <= 8
    ensures Pow2(n) as real == BACKOFF[n]
  {
    if n > 0 {
      PowersOfTwo(n - 1);
    }
  }

  /** A failure ends the lease: dead letter at the last attempt, else another try after the back-off. */
  lemma {:induction false} FailWrites(t: Table, id: nat, owner: Owner, retryDelay: Option<real>, now: real)
    requires TableInv(t)
    ensures var e := Fail(id, owner, retryDelay);
            var held := id in t.jobs && t.jobs[id].status == Running && t.jobs[id].leaseOwner == Some(owner);
            && (Accepted(t, e, now) <==> held)
            && Apply(t, e, now) ==
               if !held then t
               else if t.jobs[id].attempts == t.jobs[id].maxAttempts then
                 t.(jobs := t.jobs[id := t.jobs[id].(status := DeadLetter, leaseOwner := None, leaseUntil := None,
                                                     availableAt := now, completedAt := Some(now), updatedAt := now)])
               else
                 t.(jobs := t.jobs[id := t.jobs[id].(status := Retry, leaseOwner := None, leaseUntil := None,
                                                     availableAt := now + Backoff(t.jobs[id].attempts, retryDelay),
                                                     updatedAt := now)])
  {
    if id in t.jobs {
      PowersOfTwo(if t.jobs[id].attempts < 8 then t.jobs[id].attempts else 8);
    }
  }

  /** After a failure short of the last attempt the job is not taken until the back-off has passed. */
  lemma {:induction false} FailedJobWaits(tables: seq<Table>, events: seq<Event>, clock: seq<real>, i: nat, j: nat)
    requires IsRun(tables, events, clock) && i < j < |tables| && events[i].Fail? && events[i].id in tables[i].jobs
    requires var row := tables[i].jobs[events[i].id];
             row.status == Running && row.leaseOwner == Some(events[i].owner) && row.attempts < row.maxAttempts
    requires forall k :: i < k < j ==>
               clock[k] < clock[i] + Backoff(tables[i].jobs[events[i].id].attempts, events[i].retryDelay)
    ensures forall k :: i < k < j ==> !Takes(tables[k], tables[k + 1], events[i].id)
  {
    RunInv(tables, events, clock, i);
    FailWrites(tables[i], events[i].id, events[i].owner, events[i].retryDelay, clock[i]);
    NotTakenBefore(tables, events, clock, events[i].id, i + 1, j);
  }

  /** Enqueueing makes one new waiting job per identity, under an id never used before. */
  lemma {:induction false} EnqueueWrites(t: Table, identity: Identity, maxAttempts: int, delay: real, now: real)
    requires TableInv(t)
    ensures var t' := Apply(t, Enqueue(identity, maxAttempts, delay), now);
            if exists id :: id in t.jobs && t.jobs[id].identity == identity then t' == t
            else
              && t.nextId !in t.jobs && t'.nextId == t.nextId + 1
              && t'.jobs == t.jobs[t.nextId :=
                   Job(identity, Queued, 0, if maxAttempts < 1 then 1 else if maxAttempts > 20 then 20 else maxAttempts,
                       now + (if delay < 0.0 then 0.0 else delay), None, None, None, now)]
  {
  }

  /** A new job is not taken before its delay has passed. */
  lemma {:induction false} EnqueuedJobWaits(tables: seq<Table>, events: seq<Event>, clock: seq<real>, i: nat, j: nat)
    requires IsRun(tables, events, clock) && i < j < |tables| && events[i].Enqueue?
    requires !exists id :: id in tables[i].jobs && tables[i].jobs[id].identity == events[i].identity
    requires forall k :: i < k < j ==> clock[k] < clock[i] + events[i].delay
    ensures forall k :: i < k < j ==> !Takes(tables[k], tables[k + 1], tables[i].nextId)
  {
    RunInv(tables, events, clock, i);
    EnqueueWrites(tables[i], events[i].identity, events[i].maxAttempts, events[i].delay, clock[i]);
    if i + 1 < j {
      NotTakenBefore(tables, events, clock, tables[i].nextId, i + 1, j);
    }
  }

  // ----- renewing and completing -----

  lemma {:induction false} RenewWrites(t: Table, id: nat, owner: Owner, seconds: real, now: real)
    ensures var e := Renew(id, owner, seconds);
            && (Accepted(t, e, now) <==> HeldBy(t, id, owner, now))
            && Apply(t, e, now) ==
               if HeldBy(t, id, owner, now)
               then t.(jobs := t.jobs[id := t.jobs[id].(leaseUntil := Some(now + Seconds(seconds)), updatedAt := now)])
               else t
  {
  }

  lemma {:induction false} CompleteWrites(t: Table, id: nat, owner: Owner, fenced: bool, now: real)
    ensures var e := Complete(id, owner, fenced);
            var held := id in t.jobs && t.jobs[id].status == Running && t.jobs[id].leaseOwner == Some(owner) && fenced;
            && (Accepted(t, e, now) <==> held)
            && Apply(t, e, now) ==
               if held
               then t.(jobs := t.jobs[id := t.jobs[id].(status := Completed, leaseOwner := None, leaseUntil := None,
                                                        completedAt := Some(now), updatedAt := now)])
               else t
  {
  }

  /** The account fence: the job's user and account (or the default account), enabled and of this generation. */
  lemma {:induction false} FenceMeans(j: Job, user: int, account: int, generation: int, isDefault: bool,
                                      accounts: map<int, Account>)
    ensures FencedBy(j, user, account, generation, isDefault, accounts) <==>
              && j.identity.user == user
              && (j.identity.account == account || (j.identity.account == 0 && isDefault))
              && account in accounts && accounts[account].user == user && accounts[account].enabled
              && accounts[account].generation == generation
  {
  }

  /** Retention deletes the finished ones of the rows it looked at, and nothing else. */
  lemma {:induction false} PruneMeans(t: Table, gone: set<nat>, now: real)
    ensures var t' := Apply(t, Prune(gone), now);
            && t'.nextId == t.nextId
            && (forall id :: id in t'.jobs <==>
                  && id in t.jobs
                  && !(id in gone && (t.jobs[id].status == Completed || t.jobs[id].status == DeadLetter)))
            && forall id :: id in t'.jobs ==> t'.jobs[id] == t.jobs[id]
  {
  }

  // ----- what never changes -----

  lemma {:induction false} FinishedStep(t: Table, e: Event, now: real, id: nat)
    requires TableInv(t) && id in t.jobs
    ensures t.jobs[id].status == Completed || t.jobs[id].status == DeadLetter ==>
              id !in Apply(t, e, now).jobs || Apply(t, e, now).jobs[id] == t.jobs[id]
    ensures t.jobs[id].status != Completed && t.jobs[id].status != DeadLetter ==> id in Apply(t, e, now).jobs
    ensures id in Apply(t, e, now).jobs ==>
              Apply(t, e, now).jobs[id].identity == t.jobs[id].identity &&
              Apply(t, e, now).jobs[id].maxAttempts == t.jobs[id].maxAttempts
  {
  }

  lemma {:induction false} GoneStays(t: Table, e: Event, now: real, id: nat)
    requires TableInv(t) && id !in t.jobs && id < t.nextId
    ensures id !in Apply(t, e, now).jobs && id < Apply(t, e, now).nextId
  {
  }

  /** A finished job never changes again; at most it is deleted, and its id is never used again. */
  lemma {:induction false} FinishedIsFinal(tables: seq<Table>, events: seq<Event>, clock: seq<real>, id: nat, i: nat,
                                           j: nat)
    requires IsRun(tables, events, clock) && i <= j < |tables| && id in tables[i].jobs
    requires tables[i].jobs[id].status == Completed || tables[i].jobs[id].status == DeadLetter
    ensures id in tables[j].jobs ==> tables[j].jobs[id] == tables[i].jobs[id]
    ensures id < tables[j].nextId
    decreases j
  {
    RunInv(tables, events, clock, i);
    if i < j {
      FinishedIsFinal(tables, events, clock, id, i, j - 1);
      RunInv(tables, events, clock, j - 1);
      if id in tables[j - 1].jobs {
        FinishedStep(tables[j - 1], events[j - 1], clock[j - 1], id);
        RunInv(tables, events, clock, j);
      } else {
        GoneStays(tables[j - 1], events[j - 1], clock[j - 1], id);
      }
      if id !in tables[j].jobs {
        NextIdGrows(tables[j - 1], events[j - 1], clock[j - 1]);
      }
    }
  }

  lemma {:induction false} NextIdGrows(t: Table, e: Event, now: real)
    ensures t.nextId <= Apply(t, e, now).nextId
  {
  }

  /** No job that is not finished is ever lost. */
  lemma {:induction false} UnfinishedIsKept(tables: seq<Table>, events: seq<Event>, clock: seq<real>, id: nat, i: nat)
    requires IsRun(tables, events, clock) && i < |events| && id in tables[i].jobs
    requires tables[i].jobs[id].status != Completed && tables[i].jobs[id].status != DeadLetter
    ensures id in tables[i + 1].jobs
  {
    RunInv(tables, events, clock, i);
    FinishedStep(tables[i], events[i], clock[i], id);
  }
}
