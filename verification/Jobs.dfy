/**
 * The durable job queue of backend/db.py.
 *
 * Each method of `DB` is one SQLite transaction, so one step on a finite map
 * from job id to row.  `JobSpec` gives the effect of every transaction and
 * `JobTable` performs it in place, with the loops of claim and recovery.
 */
module JobSpec {
  import opened Common

  type Owner = string
  datatype Identity = Identity(user: int, account: int, kind: string, key: string)
  datatype Status = Queued | Running | Retry | Completed | DeadLetter

  datatype Job = Job(
    identity: Identity,
    status: Status,
    attempts: nat,
    maxAttempts: nat,
    availableAt: real,
    leaseOwner: Option<Owner>,
    leaseUntil: Option<real>,
    completedAt: Option<real>,
    updatedAt: real)

  /** `nextId` is the AUTOINCREMENT counter: an id is never used twice. */
  datatype Table = Table(jobs: map<nat, Job>, nextId: nat)

  /** A row of `shop_accounts`. */
  datatype Account = Account(user: int, enabled: bool, generation: int)

  datatype Event =
    | Enqueue(identity: Identity, maxAttempts: int, delay: real)
    | Claim(owner: Owner, limit: int, seconds: real, kinds: Option<set<string>>)
    | ClaimOne(id: nat, owner: Owner, seconds: real)
    | Renew(id: nat, owner: Owner, seconds: real)
    | Defer(id: nat, owner: Owner, delay: real)
    | Complete(id: nat, owner: Owner, fenced: bool)
    | Fail(id: nat, owner: Owner, retryDelay: Option<real>)
    | Prune(gone: set<nat>)

  predicate Terminal(j: Job) {
    j.status == Completed || j.status == DeadLetter
  }

  predicate Pending(j: Job) {
    j.status == Queued || j.status == Retry
  }

  function ClampInt(x: int, lo: int, hi: int): int {
    if x < lo then lo else if x > hi then hi else x
  }

  function LeaseEnd(now: real, seconds: real): real {
    now + Clamp(seconds, 1.0, 3600.0)
  }

  // ----- rows -----

  predicate Expired(j: Job, now: real) {
    j.status == Running && j.leaseUntil.Some? && j.leaseUntil.value <= now
  }

  function RecoverRow(j: Job, now: real): Job {
    if !Expired(j, now) then j
    else
      var dead := j.attempts >= j.maxAttempts;
      j.(status := if dead then DeadLetter else Retry, leaseOwner := None, leaseUntil := None,
         availableAt := now, completedAt := if dead then Some(now) else None, updatedAt := now)
  }

  function ClaimRow(j: Job, owner: Owner, until: real, now: real): Job {
    j.(status := Running, attempts := j.attempts + 1, leaseOwner := Some(owner), leaseUntil := Some(until),
       updatedAt := now)
  }

  predicate OwnedBy(j: Job, owner: Owner) {
    j.status == Running && j.leaseOwner == Some(owner)
  }

  /** The stricter guard of renew and defer: the lease must not have run out. */
  predicate LiveFor(j: Job, owner: Owner, now: real) {
    OwnedBy(j, owner) && j.leaseUntil.Some? && j.leaseUntil.value > now
  }

  function DeferRow(j: Job, until: real, now: real): Job {
    j.(status := Retry, availableAt := until, attempts := if j.attempts > 0 then j.attempts - 1 else 0,
       leaseOwner := None, leaseUntil := None, updatedAt := now)
  }

  function CompleteRow(j: Job, now: real): Job {
    j.(status := Completed, leaseOwner := None, leaseUntil := None, completedAt := Some(now), updatedAt := now)
  }

  function Pow2(n: nat): nat {
    if n == 0 then 1 else 2 * Pow2(n - 1)
  }

  function RetryAt(j: Job, now: real, retryDelay: Option<real>): real {
    match retryDelay
    case None => now + MinReal(Pow2(if j.attempts < 8 then j.attempts else 8) as real, 900.0)
    case Some(d) => now + Clamp(d, 0.0, 900.0)
  }

  function FailRow(j: Job, now: real, retryDelay: Option<real>): Job {
    var dead := j.attempts >= j.maxAttempts;
    j.(status := if dead then DeadLetter else Retry,
       availableAt := if dead then now else RetryAt(j, now, retryDelay),
       leaseOwner := None, leaseUntil := None,
       completedAt := if dead then Some(now) else None, updatedAt := now)
  }

  // ----- transactions -----

  function Recovered(jobs: map<nat, Job>, now: real): map<nat, Job> {
    map id | id in jobs :: RecoverRow(jobs[id], now)
  }

  predicate Eligible(j: Job, now: real, kinds: Option<set<string>>) {
    Pending(j) && j.availableAt <= now && (kinds.Some? ==> j.identity.kind in kinds.value)
  }

  function EligibleIds(jobs: map<nat, Job>, now: real, kinds: Option<set<string>>): set<nat> {
    set id | id in jobs && Eligible(jobs[id], now, kinds)
  }

  /** `ORDER BY id LIMIT n`: the members with fewer than n smaller members. */
  function Lowest(ids: set<nat>, n: int): set<nat> {
    set id | id in ids && |Below(ids, id)| < n
  }

  function Below(ids: set<nat>, bound: nat): set<nat> {
    set id | id in ids && id < bound
  }

  function Chosen(jobs: map<nat, Job>, e: Event, now: real): set<nat>
    requires e.Claim?
  {
    if e.kinds == Some({}) then {}
    else Lowest(EligibleIds(Recovered(jobs, now), now, e.kinds), ClampInt(e.limit, 1, 100))
  }

  function ClaimedRows(jobs: map<nat, Job>, ids: set<nat>, owner: Owner, until: real, now: real): map<nat, Job> {
    map id | id in jobs :: if id in ids then ClaimRow(jobs[id], owner, until, now) else jobs[id]
  }

  predicate FencedBy(j: Job, user: int, account: int, generation: int, isDefault: bool, accounts: map<int, Account>) {
    && j.identity.user == user && (j.identity.account == account || (j.identity.account == 0 && isDefault))
    && account in accounts && accounts[account] == Account(user, true, generation)
  }

  predicate Known(jobs: map<nat, Job>, identity: Identity) {
    exists id :: id in jobs && jobs[id].identity == identity
  }

  function NewJob(identity: Identity, maxAttempts: int, delay: real, now: real): Job {
    Job(identity, Queued, 0, ClampInt(maxAttempts, 1, 20), now + MaxReal(delay, 0.0), None, None, None, now)
  }

  /** Whether the transaction changes its target row, which is also what it answers. */
  predicate Accepted(t: Table, e: Event, now: real) {
    match e
    case ClaimOne(id, _, _) => id in t.jobs && Eligible(RecoverRow(t.jobs[id], now), now, None)
    case Renew(id, owner, _) => id in t.jobs && LiveFor(t.jobs[id], owner, now)
    case Defer(id, owner, _) => id in t.jobs && LiveFor(t.jobs[id], owner, now)
    case Complete(id, owner, fenced) => id in t.jobs && OwnedBy(t.jobs[id], owner) && fenced
    case Fail(id, owner, _) => id in t.jobs && OwnedBy(t.jobs[id], owner)
    case _ => true
  }

  function Apply(t: Table, e: Event, now: real): Table {
    match e
    case Enqueue(identity, maxAttempts, delay) =>
      if Known(t.jobs, identity) then t
      else Table(t.jobs[t.nextId := NewJob(identity, maxAttempts, delay, now)], t.nextId + 1)
    case Claim(owner, _, seconds, kinds) =>
      if kinds == Some({}) then t
      else t.(jobs := ClaimedRows(Recovered(t.jobs, now), Chosen(t.jobs, e, now), owner, LeaseEnd(now, seconds), now))
    case ClaimOne(id, owner, seconds) =>
      t.(jobs := ClaimedRows(Recovered(t.jobs, now), if Accepted(t, e, now) then {id} else {},
                             owner, LeaseEnd(now, seconds), now))
    case Renew(id, _, seconds) =>
      if !Accepted(t, e, now) then t
      else t.(jobs := t.jobs[id := t.jobs[id].(leaseUntil := Some(LeaseEnd(now, seconds)), updatedAt := now)])
    case Defer(id, _, delay) =>
      if !Accepted(t, e, now) then t
      else t.(jobs := t.jobs[id := DeferRow(t.jobs[id], now + Clamp(delay, 0.05, 900.0), now)])
    case Complete(id, _, _) =>
      if !Accepted(t, e, now) then t else t.(jobs := t.jobs[id := CompleteRow(t.jobs[id], now)])
    case Fail(id, _, retryDelay) =>
      if !Accepted(t, e, now) then t else t.(jobs := t.jobs[id := FailRow(t.jobs[id], now, retryDelay)])
    case Prune(gone) => t.(jobs := t.jobs - (set id | id in gone && id in t.jobs && Terminal(t.jobs[id])))
  }
}

/** The `jobs` table and the methods of `DB` that write it. */
module JobQueue {
  import opened Common
  import opened JobSpec
  import opened JobRuns

  class JobTable {
    var jobs: map<nat, Job>
    var nextId: nat
    ghost var tables: seq<Table>
    ghost var events: seq<Event>
    ghost var clock: seq<real>

    ghost function Abs(): Table
      reads this
    {
      Table(jobs, nextId)
    }

    /** The calls made on this object are a run of the queue that ends in its present rows. */
    ghost predicate Valid()
      reads this
    {
      IsRun(tables, events, clock) && tables[|events|] == Abs()
    }

    constructor ()
      ensures Valid() && Abs() == Table(map[], 0) && events == []
    {
      jobs, nextId := map[], 0;
      tables, events, clock := [Table(map[], 0)], [], [];
    }

    /** Write down the transaction that is about to be made. */
    ghost method Log(e: Event, now: real)
      requires Valid()
      modifies this`tables, this`events, this`clock
      ensures IsRun(tables, events, clock) && tables[|events|] == Apply(Abs(), e, now)
      ensures events == old(events) + [e] && clock == old(clock) + [now]
    {
      RunGrows(tables, events, clock, e, now);
      tables, events, clock := tables + [Apply(Abs(), e, now)], events + [e], clock + [now];
    }

    method EnqueueJob(identity: Identity, maxAttempts: int, delay: real, now: real)
      requires Valid()
      modifies this
      ensures Abs() == Apply(old(Abs()), Enqueue(identity, maxAttempts, delay), now)
      ensures Valid() && events == old(events) + [Enqueue(identity, maxAttempts, delay)] && clock == old(clock) + [now]
    {
      Log(Enqueue(identity, maxAttempts, delay), now);
      if !(exists id :: id in jobs && jobs[id].identity == identity) {
        jobs := jobs[nextId := NewJob(identity, maxAttempts, delay, now)];
        nextId := nextId + 1;
      }
    }

    /** The recovery loop over the rows whose lease has run out. */
    method RecoverExpiredJobs(now: real) returns (count: nat)
      modifies this`jobs
      ensures jobs == Recovered(old(jobs), now)
      ensures count == |set id | id in old(jobs) && Expired(old(jobs)[id], now)|
    {
      var rows := set id | id in jobs && Expired(jobs[id], now);
      var todo := rows;
      while todo != {}
        invariant todo <= rows && jobs.Keys == old(jobs).Keys
        invariant forall id :: id in jobs ==>
          jobs[id] == if id in todo then old(jobs)[id] else RecoverRow(old(jobs)[id], now)
        decreases todo
      {
        var id :| id in todo;
        jobs := jobs[id := RecoverRow(jobs[id], now)];
        todo := todo - {id};
      }
      count := |rows|;
    }

    /** Scan ids upwards and collect the first `limit` eligible ones. */
    method SelectIds(limit: nat, now: real, kinds: Option<set<string>>) returns (ids: set<nat>)
      requires forall id :: id in jobs ==> id < nextId
      requires limit > 0
      ensures ids == Lowest(EligibleIds(jobs, now, kinds), limit)
    {
      ids := {};
      ghost var all := EligibleIds(jobs, now, kinds);
      var i := 0;
      while i < nextId && |ids| < limit
        invariant 0 <= i <= nextId
        invariant ids == Below(all, i) && |ids| <= limit
      {
        if i in jobs && Eligible(jobs[i], now, kinds) {
          ids := ids + {i};
        }
        i := i + 1;
      }
      forall id | id in all
        ensures id in ids <==> |Below(all, id)| < limit
      {
        if id < i {
          SubsetSize(Below(all, id), ids - {id});
        } else {
          SubsetSize(ids, Below(all, id));
        }
      }
    }

    /** The loop over the selected ids. */
    method ClaimRows(ids: set<nat>, owner: Owner, until: real, now: real)
      requires ids <= jobs.Keys
      modifies this`jobs
      ensures jobs == ClaimedRows(old(jobs), ids, owner, until, now)
    {
      var todo := ids;
      while todo != {}
        invariant todo <= ids && jobs.Keys == old(jobs).Keys
        invariant forall id :: id in jobs ==>
          jobs[id] == if id in ids && id !in todo then ClaimRow(old(jobs)[id], owner, until, now) else old(jobs)[id]
        decreases todo
      {
        var id :| id in todo;
        jobs := jobs[id := ClaimRow(jobs[id], owner, until, now)];
        todo := todo - {id};
      }
    }

    method ClaimJobs(owner: Owner, limit: int, seconds: real, kinds: Option<set<string>>, now: real)
      returns (ids: set<nat>)
      requires Valid()
      modifies this
      ensures Abs() == Apply(old(Abs()), Claim(owner, limit, seconds, kinds), now)
      ensures Valid() && events == old(events) + [Claim(owner, limit, seconds, kinds)] && clock == old(clock) + [now]
      ensures ids == Chosen(old(jobs), Claim(owner, limit, seconds, kinds), now)
    {
      RunInv(tables, events, clock, |events|);
      Log(Claim(owner, limit, seconds, kinds), now);
      if kinds == Some({}) {
        return {};
      }
      var recovered := RecoverExpiredJobs(now);
      ids := SelectIds(ClampInt(limit, 1, 100), now, kinds);
      ClaimRows(ids, owner, LeaseEnd(now, seconds), now);
    }

    method ClaimJob(id: nat, owner: Owner, seconds: real, now: real) returns (claimed: bool)
      requires Valid()
      modifies this
      ensures Abs() == Apply(old(Abs()), ClaimOne(id, owner, seconds), now)
      ensures Valid() && events == old(events) + [ClaimOne(id, owner, seconds)] && clock == old(clock) + [now]
      ensures claimed == Accepted(old(Abs()), ClaimOne(id, owner, seconds), now)
    {
      Log(ClaimOne(id, owner, seconds), now);
      var recovered := RecoverExpiredJobs(now);
      claimed := id in jobs && Eligible(jobs[id], now, None);
      if claimed {
        jobs := jobs[id := ClaimRow(jobs[id], owner, LeaseEnd(now, seconds), now)];
      }
    }

    method RenewJob(id: nat, owner: Owner, seconds: real, now: real) returns (renewed: bool)
      requires Valid()
      modifies this
      ensures Abs() == Apply(old(Abs()), Renew(id, owner, seconds), now)
      ensures Valid() && events == old(events) + [Renew(id, owner, seconds)] && clock == old(clock) + [now]
      ensures renewed == Accepted(old(Abs()), Renew(id, owner, seconds), now)
    {
      Log(Renew(id, owner, seconds), now);
      renewed := id in jobs && LiveFor(jobs[id], owner, now);
      if renewed {
        jobs := jobs[id := jobs[id].(leaseUntil := Some(LeaseEnd(now, seconds)), updatedAt := now)];
      }
    }

    method DeferJob(id: nat, owner: Owner, delay: real, now: real) returns (deferred: bool)
      requires Valid()
      modifies this
      ensures Abs() == Apply(old(Abs()), Defer(id, owner, delay), now)
      ensures Valid() && events == old(events) + [Defer(id, owner, delay)] && clock == old(clock) + [now]
      ensures deferred == Accepted(old(Abs()), Defer(id, owner, delay), now)
    {
      Log(Defer(id, owner, delay), now);
      deferred := id in jobs && LiveFor(jobs[id], owner, now);
      if deferred {
        jobs := jobs[id := DeferRow(jobs[id], now + Clamp(delay, 0.05, 900.0), now)];
      }
    }

    /** `fenced` is the shop-account condition of complete_job_for_account; complete_job passes true. */
    method CompleteJob(id: nat, owner: Owner, fenced: bool, now: real) returns (completed: bool)
      requires Valid()
      modifies this
      ensures Abs() == Apply(old(Abs()), Complete(id, owner, fenced), now)
      ensures Valid() && events == old(events) + [Complete(id, owner, fenced)] && clock == old(clock) + [now]
      ensures completed == Accepted(old(Abs()), Complete(id, owner, fenced), now)
    {
      Log(Complete(id, owner, fenced), now);
      completed := id in jobs && OwnedBy(jobs[id], owner) && fenced;
      if completed {
        jobs := jobs[id := CompleteRow(jobs[id], now)];
      }
    }

    /** The fence of complete_job_for_account: the job is the account's, and the account is enabled and not replaced. */
    method CompleteJobForAccount(id: nat, owner: Owner, user: int, account: int, generation: int, isDefault: bool,
                                 accounts: map<int, Account>, now: real) returns (completed: bool)
      requires Valid()
      modifies this
      ensures completed <==>
                && id in old(jobs) && OwnedBy(old(jobs)[id], owner)
                && FencedBy(old(jobs)[id], user, account, generation, isDefault, accounts)
      ensures var fenced := id in old(jobs) && FencedBy(old(jobs)[id], user, account, generation, isDefault, accounts);
              Valid() && events == old(events) + [Complete(id, owner, fenced)] && clock == old(clock) + [now]
      ensures Abs() == if completed then Table(old(jobs)[id := CompleteRow(old(jobs)[id], now)], old(nextId))
                else old(Abs())
    {
      var fenced := id in jobs && FencedBy(jobs[id], user, account, generation, isDefault, accounts);
      completed := CompleteJob(id, owner, fenced, now);
    }

    /** Retention: finished rows go, whatever set of old ids it looked at. */
    method PruneJobs(gone: set<nat>, now: real)
      requires Valid()
      modifies this
      ensures Abs() == Apply(old(Abs()), Prune(gone), now)
      ensures Valid() && events == old(events) + [Prune(gone)] && clock == old(clock) + [now]
    {
      Log(Prune(gone), now);
      jobs := jobs - (set id | id in gone && id in jobs && Terminal(jobs[id]));
    }

    method FailJob(id: nat, owner: Owner, retryDelay: Option<real>, now: real) returns (failed: bool)
      requires Valid()
      modifies this
      ensures Abs() == Apply(old(Abs()), Fail(id, owner, retryDelay), now)
      ensures Valid() && events == old(events) + [Fail(id, owner, retryDelay)] && clock == old(clock) + [now]
      ensures failed == Accepted(old(Abs()), Fail(id, owner, retryDelay), now)
    {
      Log(Fail(id, owner, retryDelay), now);
      failed := id in jobs && OwnedBy(jobs[id], owner);
      if failed {
        jobs := jobs[id := FailRow(jobs[id], now, retryDelay)];
      }
    }
  }
}

/** What every run of the queue keeps. */
module JobRuns {
  import opened Common
  import opened JobSpec

  ghost predicate IsRun(tables: seq<Table>, events: seq<Event>, clock: seq<real>) {
    && |tables| == |events| + 1 && |clock| == |events|
    && tables[0] == Table(map[], 0)
    && forall i :: 0 <= i < |events| ==> tables[i + 1] == Apply(tables[i], events[i], clock[i])
  }

  lemma {:induction false} RunGrows(tables: seq<Table>, events: seq<Event>, clock: seq<real>, e: Event, now: real)
    requires IsRun(tables, events, clock)
    ensures IsRun(tables + [Apply(tables[|events|], e, now)], events + [e], clock + [now])
  {
  }

  // ----- the row invariant -----

  predicate JobInv(j: Job) {
    && 1 <= j.maxAttempts <= 20
    && j.attempts <= j.maxAttempts
    && (j.status == Running <==> j.leaseOwner.Some?)
    && (j.status == Running <==> j.leaseUntil.Some?)
    && (Pending(j) ==> j.attempts < j.maxAttempts)
    && (j.status == Running || j.status == Completed ==> j.attempts >= 1)
    && (j.status == DeadLetter ==> j.attempts == j.maxAttempts)
    && (Terminal(j) <==> j.completedAt.Some?)
  }

  ghost predicate TableInv(t: Table) {
    && (forall id :: id in t.jobs ==> id < t.nextId && JobInv(t.jobs[id]))
    && (forall a, b :: a in t.jobs && b in t.jobs && t.jobs[a].identity == t.jobs[b].identity ==> a == b)
  }

  lemma {:induction false} StepInv(t: Table, e: Event, now: real)
    requires TableInv(t)
    ensures TableInv(Apply(t, e, now))
  {
    var t' := Apply(t, e, now);
    forall id | id in t'.jobs
      ensures id < t'.nextId && JobInv(t'.jobs[id])
      ensures id in t.jobs ==> t'.jobs[id].identity == t.jobs[id].identity
    {
      RowStep(t, e, now, id);
    }
  }

  /** One row, one transaction. */
  lemma {:induction false} RowStep(t: Table, e: Event, now: real, id: nat)
    requires (id in t.jobs ==> id < t.nextId && JobInv(t.jobs[id])) && id in Apply(t, e, now).jobs
    ensures id < Apply(t, e, now).nextId && JobInv(Apply(t, e, now).jobs[id])
    ensures id in t.jobs ==> Apply(t, e, now).jobs[id].identity == t.jobs[id].identity
  {
    if e.Claim? || e.ClaimOne? {
      ClaimStep(t, e, now, id);
    }
  }

  lemma {:induction false} ClaimStep(t: Table, e: Event, now: real, id: nat)
    requires id in t.jobs && JobInv(t.jobs[id]) && (e.Claim? || e.ClaimOne?)
    ensures var j := Apply(t, e, now).jobs[id]; JobInv(j) && j.identity == t.jobs[id].identity
  {
    assert JobInv(RecoverRow(t.jobs[id], now));
  }

  lemma {:induction false} RunInv(tables: seq<Table>, events: seq<Event>, clock: seq<real>, i: nat)
    requires IsRun(tables, events, clock) && i < |tables|
    ensures TableInv(tables[i])
  {
    if i > 0 {
      RunInv(tables, events, clock, i - 1);
      StepInv(tables[i - 1], events[i - 1], clock[i - 1]);
    }
  }

  // ----- attempts, claims and deferrals -----

  predicate Claims(t: Table, e: Event, now: real, id: nat) {
    || (e.Claim? && id in t.jobs && id in Chosen(t.jobs, e, now))
    || (e.ClaimOne? && e.id == id && Accepted(t, e, now))
  }

  predicate Defers(t: Table, e: Event, now: real, id: nat) {
    e.Defer? && e.id == id && Accepted(t, e, now)
  }

  ghost function ClaimCount(tables: seq<Table>, events: seq<Event>, clock: seq<real>, id: nat, i: nat): nat
    requires IsRun(tables, events, clock) && i < |tables|
  {
    if i == 0 then 0
    else ClaimCount(tables, events, clock, id, i - 1)
         + if Claims(tables[i - 1], events[i - 1], clock[i - 1], id) then 1 else 0
  }

  ghost function DeferCount(tables: seq<Table>, events: seq<Event>, clock: seq<real>, id: nat, i: nat): nat
    requires IsRun(tables, events, clock) && i < |tables|
  {
    if i == 0 then 0
    else DeferCount(tables, events, clock, id, i - 1)
         + if Defers(tables[i - 1], events[i - 1], clock[i - 1], id) then 1 else 0
  }

  lemma {:induction false} AttemptsStep(t: Table, e: Event, now: real, id: nat)
    requires TableInv(t) && id in Apply(t, e, now).jobs
    ensures var before := if id in t.jobs then t.jobs[id].attempts else 0;
            Apply(t, e, now).jobs[id].attempts + (if Defers(t, e, now, id) then 1 else 0)
              == before + if Claims(t, e, now, id) then 1 else 0
    ensures id !in t.jobs ==> id == t.nextId
  {
  }

  /** Ids not issued yet have no history. */
  lemma {:induction false} UnbornHasNoHistory(tables: seq<Table>, events: seq<Event>, clock: seq<real>, id: nat, i: nat)
    requires IsRun(tables, events, clock) && i < |tables| && tables[i].nextId <= id
    ensures ClaimCount(tables, events, clock, id, i) == DeferCount(tables, events, clock, id, i) == 0
  {
    if i > 0 {
      RunInv(tables, events, clock, i - 1);
      UnbornHasNoHistory(tables, events, clock, id, i - 1);
    }
  }

  /** A job's `attempts` column is its claims minus its deferrals, whatever else happened to it. */
  lemma {:induction false} AttemptsCountClaims(tables: seq<Table>, events: seq<Event>, clock: seq<real>, id: nat,
                                               i: nat)
    requires IsRun(tables, events, clock) && i < |tables| && id in tables[i].jobs
    ensures tables[i].jobs[id].attempts + DeferCount(tables, events, clock, id, i)
              == ClaimCount(tables, events, clock, id, i)
    ensures ClaimCount(tables, events, clock, id, i)
              <= tables[i].jobs[id].maxAttempts + DeferCount(tables, events, clock, id, i)
  {
    RunInv(tables, events, clock, i);
    if i > 0 {
      RunInv(tables, events, clock, i - 1);
      AttemptsStep(tables[i - 1], events[i - 1], clock[i - 1], id);
      if id in tables[i - 1].jobs {
        AttemptsCountClaims(tables, events, clock, id, i - 1);
      } else {
        UnbornHasNoHistory(tables, events, clock, id, i - 1);
      }
    }
  }

  // ----- exclusive claims -----

  predicate Held(t: Table, id: nat, owner: Owner) {
    id in t.jobs && OwnedBy(t.jobs[id], owner)
  }

  /** The owner gave the job up, or a claim transaction found its deadline passed. */
  predicate Ends(t: Table, e: Event, now: real, id: nat, owner: Owner) {
    || ((e.Complete? || e.Fail? || e.Defer?) && e.id == id && e.owner == owner && Accepted(t, e, now))
    || ((e.Claim? || e.ClaimOne?) && id in t.jobs && Expired(t.jobs[id], now))
  }

  lemma {:induction false} HeldStep(t: Table, e: Event, now: real, id: nat, owner: Owner)
    requires TableInv(t) && Held(t, id, owner) && !Ends(t, e, now, id, owner)
    ensures Held(Apply(t, e, now), id, owner) && !Claims(t, e, now, id)
  {
  }

  /**
   * If a job is running under `owner` at point i and is claimed again by
   * anybody at point j, then somewhere from i to j that owner ended its claim
   * or the lease deadline stored in the row had passed.
   */
  lemma {:induction false} ReclaimNeedsEnd(tables: seq<Table>, events: seq<Event>, clock: seq<real>, id: nat,
                                           owner: Owner, i: nat, j: nat)
    requires IsRun(tables, events, clock) && i <= j < |events|
    requires Held(tables[i], id, owner) && Claims(tables[j], events[j], clock[j], id)
    ensures exists k :: i <= k <= j && Ends(tables[k], events[k], clock[k], id, owner)
    decreases j - i
  {
    RunInv(tables, events, clock, i);
    if !Ends(tables[i], events[i], clock[i], id, owner) {
      HeldStep(tables[i], events[i], clock[i], id, owner);
      ReclaimNeedsEnd(tables, events, clock, id, owner, i + 1, j);
    }
  }

  predicate ByOwner(e: Event, id: nat, owner: Owner) {
    (e.Renew? || e.Defer? || e.Complete? || e.Fail?) && e.id == id && e.owner == owner
  }

  predicate ClaimedBy(t: Table, e: Event, now: real, id: nat, owner: Owner) {
    Claims(t, e, now, id) && e.owner == owner
  }

  lemma {:induction false} NotHeldStep(t: Table, e: Event, now: real, id: nat, owner: Owner)
    requires TableInv(t) && !Held(t, id, owner) && !ClaimedBy(t, e, now, id, owner)
    ensures !Held(Apply(t, e, now), id, owner)
  {
  }

  /**
   * Once the job is not running under `owner` (it ended the claim, lost it to
   * recovery, or another worker claimed the job), nothing that owner sends for
   * the job is accepted or changes any row until it claims the job anew.
   */
  lemma {:induction false} SupersededOwnerIsFenced(tables: seq<Table>, events: seq<Event>, clock: seq<real>, id: nat,
                                                   owner: Owner, i: nat, j: nat)
    requires IsRun(tables, events, clock) && i <= j < |events|
    requires !Held(tables[i], id, owner)
    requires forall k :: i <= k < j ==> !ClaimedBy(tables[k], events[k], clock[k], id, owner)
    requires ByOwner(events[j], id, owner)
    ensures !Accepted(tables[j], events[j], clock[j]) && tables[j + 1] == tables[j]
    decreases j - i
  {
    RunInv(tables, events, clock, i);
    if i < j {
      NotHeldStep(tables[i], events[i], clock[i], id, owner);
      SupersededOwnerIsFenced(tables, events, clock, id, owner, i + 1, j);
    }
  }

  /** After another worker's claim the old owner no longer holds the job. */
  lemma {:induction false} ClaimSupersedes(t: Table, e: Event, now: real, id: nat, owner: Owner)
    requires TableInv(t) && Claims(t, e, now, id) && e.owner != owner
    ensures Held(Apply(t, e, now), id, e.owner) && !Held(Apply(t, e, now), id, owner)
  {
  }

  lemma {:induction false} LowestSize(ids: set<nat>, n: nat)
    ensures |Lowest(ids, n)| == if |ids| < n then |ids| else n
    decreases |ids|
  {
    if ids == {} {
      assert Lowest(ids, n) == {};
    } else {
      HasMaximum(ids);
      var m :| m in ids && forall k :: k in ids ==> k <= m;
      LowestSize(ids - {m}, n);
      LowestOneMore(ids, n, m);
    }
  }

  lemma {:induction false} LowestOneMore(ids: set<nat>, n: nat, m: nat)
    requires m in ids && forall k :: k in ids ==> k <= m
    ensures Lowest(ids, n) == Lowest(ids - {m}, n) + if |ids - {m}| < n then {m} else {}
  {
    var rest := ids - {m};
    assert Below(ids, m) == rest;
    forall k | k in rest
      ensures Below(ids, k) == Below(rest, k)
    {
    }
  }

  /** `claim_jobs` takes the lowest eligible ids, and exactly as many as the limit allows. */
  lemma {:induction false} LowestIsAPrefix(ids: set<nat>, n: nat)
    ensures Lowest(ids, n) <= ids
    ensures |Lowest(ids, n)| == if |ids| < n then |ids| else n
    ensures forall a, b :: a in Lowest(ids, n) && b in ids && b < a ==> b in Lowest(ids, n)
  {
    LowestSize(ids, n);
    forall a, b | a in Lowest(ids, n) && b in ids && b < a
      ensures b in Lowest(ids, n)
    {
      SubsetSize(Below(ids, b), Below(ids, a));
    }
  }

  lemma {:induction false} HasMaximum(ids: set<nat>)
    requires ids != {}
    ensures exists m :: m in ids && forall k :: k in ids ==> k <= m
    decreases ids
  {
    var x :| x in ids;
    var rest := ids - {x};
    if rest == {} {
      assert ids == {x};
    } else {
      HasMaximum(rest);
      var m :| m in rest && forall k :: k in rest ==> k <= m;
      var top := if m < x then x else m;
      forall k | k in ids
        ensures k <= top
      {
        assert k == x || k in rest;
      }
    }
  }
}
