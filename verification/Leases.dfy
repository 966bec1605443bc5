/**
 * Owner-fenced control leases: the `control_leases` table of backend/db.py and
 * its client backend/account_leases.py.  Time is a parameter of every step.
 */
module LeaseSpec {
  import opened Common

  type Owner = string
  type Resource = string
  datatype Row = Row(owner: Owner, leaseUntil: real, cooldownUntil: real)
  type Rows = map<Resource, Row>

  datatype Event =
    | Acquire(key: Resource, owner: Owner, seconds: real, cooldown: real)
    | Reserve(key: Resource, owner: Owner, seconds: real, syncKey: Resource, riskUntil: real, ignoreSyncCooldown: bool)
    | Renew(key: Resource, owner: Owner, seconds: real)
    | Release(key: Resource, owner: Owner)
    | ArmCooldown(key: Resource, cooldown: real)

  datatype Code = Acquired | Busy | Cooldown | RiskCooldown

  /** Leases are clamped to between one second and one hour. */
  function Length(seconds: real): real {
    Clamp(seconds, 1.0, 3600.0)
  }

  function AcquireCode(rows: Rows, key: Resource, owner: Owner, now: real): Code {
    if key in rows && rows[key].owner != owner && rows[key].leaseUntil > now then Busy
    else if key in rows && rows[key].owner != owner && rows[key].cooldownUntil > now then Cooldown
    else Acquired
  }

  /** What one row contributes to the list of reasons not to reserve. */
  function RowBlockers(rows: Rows, key: Resource, now: real, ignoreCooldown: bool): seq<(real, Code)> {
    if key !in rows then []
    else
      (if rows[key].leaseUntil > now then [(rows[key].leaseUntil, Busy)] else []) +
      (if rows[key].cooldownUntil > now && !ignoreCooldown then [(rows[key].cooldownUntil, Cooldown)] else [])
  }

  function Blockers(rows: Rows, e: Event, now: real): seq<(real, Code)>
    requires e.Reserve?
  {
    (if e.riskUntil > now then [(e.riskUntil, RiskCooldown)] else []) +
    RowBlockers(rows, e.syncKey, now, e.ignoreSyncCooldown) +
    RowBlockers(rows, e.key, now, e.ignoreSyncCooldown && e.key == e.syncKey)
  }

  predicate Accepted(rows: Rows, e: Event, now: real) {
    match e
    case Acquire(key, owner, _, _) => AcquireCode(rows, key, owner, now) == Acquired
    case Reserve(_, _, _, _, _, _) => Blockers(rows, e, now) == []
    case Renew(key, owner, _) => key in rows && rows[key].owner == owner && rows[key].leaseUntil > now
    case Release(key, owner) => key in rows && rows[key].owner == owner
    case ArmCooldown(_, _) => true
  }

  function Apply(rows: Rows, e: Event, now: real): Rows {
    if !Accepted(rows, e, now) then rows
    else
      match e
      case Acquire(key, owner, seconds, cooldown) =>
        rows[key := Row(owner, now + Length(seconds), now + Clamp(cooldown, 0.0, 86400.0))]
      case Reserve(key, owner, seconds, _, _, _) =>
        rows[key := Row(owner, now + Length(seconds), if key in rows then rows[key].cooldownUntil else 0.0)]
      case Renew(key, _, seconds) => rows[key := rows[key].(leaseUntil := now + Length(seconds))]
      case Release(key, _) => rows[key := rows[key].(owner := "", leaseUntil := 0.0)]
      case ArmCooldown(key, cooldown) =>
        var until := now + Clamp(cooldown, 0.0, 86400.0);
        rows[key := if key in rows then rows[key].(cooldownUntil := until) else Row("", 0.0, until)]
  }

  /** Each table follows from the one before it. */
  ghost predicate Follows(tables: seq<Rows>, events: seq<Event>, clock: seq<real>) {
    && |tables| == |events| + 1 && |clock| == |events|
    && forall i :: 0 <= i < |events| ==> tables[i + 1] == Apply(tables[i], events[i], clock[i])
  }

  lemma {:induction false} FollowsGrows(tables: seq<Rows>, events: seq<Event>, clock: seq<real>, e: Event, now: real)
    requires Follows(tables, events, clock)
    ensures Follows(tables + [Apply(tables[|events|], e, now)], events + [e], clock + [now])
  {
  }
}

module LeaseTables {
  import opened Common
  import opened LeaseSpec

  /** `max(1, math.ceil(remaining))` */
  function WholeSeconds(remaining: real): (n: int)
    ensures n >= 1 && n as real >= remaining && (n == 1 || n as real < remaining + 1.0)
  {
    Max(1, -(-remaining).Floor)
  }

  predicate IsLatest(blockers: seq<(real, Code)>, deadline: real, code: Code) {
    (deadline, code) in blockers && forall k :: 0 <= k < |blockers| ==> blockers[k].0 <= deadline
  }

  method LatestBlocker(blockers: seq<(real, Code)>) returns (deadline: real, code: Code)
    requires blockers != []
    ensures IsLatest(blockers, deadline, code)
  {
    deadline, code := blockers[0].0, blockers[0].1;
    for i := 1 to |blockers|
      invariant (deadline, code) in blockers
      invariant forall k :: 0 <= k < i ==> blockers[k].0 <= deadline
    {
      if blockers[i].0 > deadline {
        deadline, code := blockers[i].0, blockers[i].1;
      }
    }
  }

  class LeaseTable {
    var rows: Rows
    ghost var tables: seq<Rows>
    ghost var events: seq<Event>
    ghost var clock: seq<real>

    /** The calls made on this object lead, one after the other, to its present rows. */
    ghost predicate Valid()
      reads this
    {
      Follows(tables, events, clock) && tables[|events|] == rows
    }

    constructor ()
      ensures Valid() && rows == map[] && events == []
    {
      rows, tables, events, clock := map[], [map[]], [], [];
    }

    /** Write down the transaction that is about to be made. */
    ghost method Log(e: Event, now: real)
      requires Valid()
      modifies this`tables, this`events, this`clock
      ensures Follows(tables, events, clock) && tables[|events|] == Apply(rows, e, now)
      ensures events == old(events) + [e] && clock == old(clock) + [now]
    {
      FollowsGrows(tables, events, clock, e, now);
      tables, events, clock := tables + [Apply(rows, e, now)], events + [e], clock + [now];
    }

    method AcquireLease(key: Resource, owner: Owner, seconds: real, cooldown: real, now: real) returns (code: Code)
      requires Valid()
      modifies this
      ensures code == AcquireCode(old(rows), key, owner, now)
      ensures rows == Apply(old(rows), Acquire(key, owner, seconds, cooldown), now)
      ensures Valid() && events == old(events) + [Acquire(key, owner, seconds, cooldown)] && clock == old(clock) + [now]
    {
      Log(Acquire(key, owner, seconds, cooldown), now);
      if key in rows && rows[key].owner != owner && rows[key].leaseUntil > now {
        return Busy;
      }
      if key in rows && rows[key].owner != owner && rows[key].cooldownUntil > now {
        return Cooldown;
      }
      rows := rows[key := Row(owner, now + Length(seconds), now + Clamp(cooldown, 0.0, 86400.0))];
      code := Acquired;
    }

    /** Answers the reason with the latest deadline, and the whole seconds to wait for it. */
    method ReserveShop(key: Resource, owner: Owner, seconds: real, syncKey: Resource, riskUntil: real,
                       ignoreSyncCooldown: bool, now: real) returns (code: Code, retryAfter: int)
      requires Valid()
      modifies this
      ensures var e := Reserve(key, owner, seconds, syncKey, riskUntil, ignoreSyncCooldown);
              && rows == Apply(old(rows), e, now)
              && Valid() && events == old(events) + [e] && clock == old(clock) + [now]
              && (if Accepted(old(rows), e, now) then code == Acquired && retryAfter == 0
                  else exists deadline ::
                    IsLatest(Blockers(old(rows), e, now), deadline, code) && retryAfter == WholeSeconds(deadline - now))
    {
      Log(Reserve(key, owner, seconds, syncKey, riskUntil, ignoreSyncCooldown), now);
      var blockers: seq<(real, Code)> := if riskUntil > now then [(riskUntil, RiskCooldown)] else [];
      blockers := blockers + RowBlockers(rows, syncKey, now, ignoreSyncCooldown);
      blockers := blockers + RowBlockers(rows, key, now, ignoreSyncCooldown && key == syncKey);
      if blockers == [] {
        rows := rows[key := Row(owner, now + Length(seconds), if key in rows then rows[key].cooldownUntil else 0.0)];
        code, retryAfter := Acquired, 0;
      } else {
        var deadline;
        deadline, code := LatestBlocker(blockers);
        retryAfter := WholeSeconds(deadline - now);
      }
    }

    method RenewLease(key: Resource, owner: Owner, seconds: real, now: real) returns (renewed: bool)
      requires Valid()
      modifies this
      ensures renewed == Accepted(old(rows), Renew(key, owner, seconds), now)
      ensures rows == Apply(old(rows), Renew(key, owner, seconds), now)
      ensures Valid() && events == old(events) + [Renew(key, owner, seconds)] && clock == old(clock) + [now]
    {
      Log(Renew(key, owner, seconds), now);
      renewed := key in rows && rows[key].owner == owner && rows[key].leaseUntil > now;
      if renewed {
        rows := rows[key := rows[key].(leaseUntil := now + Length(seconds))];
      }
    }

    method ReleaseLease(key: Resource, owner: Owner, now: real) returns (released: bool)
      requires Valid()
      modifies this
      ensures released == Accepted(old(rows), Release(key, owner), now)
      ensures rows == Apply(old(rows), Release(key, owner), now)
      ensures Valid() && events == old(events) + [Release(key, owner)] && clock == old(clock) + [now]
    {
      Log(Release(key, owner), now);
      released := key in rows && rows[key].owner == owner;
      if released {
        rows := rows[key := rows[key].(owner := "", leaseUntil := 0.0)];
      }
    }

    /** Whatever call another client makes. */
    method Perform(e: Event, now: real)
      requires Valid()
      modifies this
      ensures rows == Apply(old(rows), e, now)
      ensures Valid() && events == old(events) + [e] && clock == old(clock) + [now]
    {
      match e
      case Acquire(key, owner, seconds, cooldown) =>
        var code := AcquireLease(key, owner, seconds, cooldown, now);
      case Reserve(key, owner, seconds, syncKey, riskUntil, ignore) =>
        var code, retryAfter := ReserveShop(key, owner, seconds, syncKey, riskUntil, ignore, now);
      case Renew(key, owner, seconds) =>
        var renewed := RenewLease(key, owner, seconds, now);
      case Release(key, owner) =>
        var released := ReleaseLease(key, owner, now);
      case ArmCooldown(key, cooldown) =>
        ArmLeaseCooldown(key, cooldown, now);
    }

    method ArmLeaseCooldown(key: Resource, cooldown: real, now: real)
      requires Valid()
      modifies this
      ensures rows == Apply(old(rows), ArmCooldown(key, cooldown), now)
      ensures Valid() && events == old(events) + [ArmCooldown(key, cooldown)] && clock == old(clock) + [now]
    {
      Log(ArmCooldown(key, cooldown), now);
      var until := now + Clamp(cooldown, 0.0, 86400.0);
      if key in rows {
        rows := rows[key := rows[key].(cooldownUntil := until)];
      } else {
        rows := rows[key := Row("", 0.0, until)];
      }
    }
  }

  /** The handle of one held lease; `lost` is set once and for all by a failed renewal. */
  class AccountLease {
    const db: LeaseTable
    const key: Resource
    const owner: Owner
    const seconds: real
    var stopped: bool
    var lost: bool

    constructor (db: LeaseTable, key: Resource, owner: Owner, seconds: real)
      ensures this.db == db && this.key == key && this.owner == owner && !stopped && !lost
      ensures this.seconds == MaxReal(1.0, seconds)
    {
      this.db, this.key, this.owner, this.seconds := db, key, owner, MaxReal(1.0, seconds);
      stopped, lost := false, false;
    }

    /** `storageOk` is false when the database call raises. */
    method EnsureOwned(now: real, storageOk: bool) returns (owned: bool)
      requires db.Valid()
      modifies this`lost, db
      ensures db.Valid()
      ensures owned <==>
                !old(stopped) && !old(lost) && storageOk && Accepted(old(db.rows), Renew(key, owner, seconds), now)
      ensures lost == (old(lost) || (!old(stopped) && !owned))
      ensures db.rows == if old(stopped) || old(lost) || !storageOk then old(db.rows)
                         else Apply(old(db.rows), Renew(key, owner, seconds), now)
    {
      if stopped || lost {
        return false;
      }
      if !storageOk {
        lost := true;
        return false;
      }
      owned := db.RenewLease(key, owner, seconds, now);
      if !owned {
        lost := true;
      }
    }

    method Close(now: real, storageOk: bool)
      requires db.Valid()
      modifies this, db
      ensures db.Valid()
      ensures stopped && lost == (old(lost) || !storageOk)
      ensures db.rows == if storageOk then Apply(old(db.rows), Release(key, owner), now) else old(db.rows)
    {
      stopped := true;
      if storageOk {
        var released := db.ReleaseLease(key, owner, now);
      } else {
        lost := true;
      }
    }
  }

  ghost predicate NoneOwned(rows: Rows, owners: set<Owner>) {
    forall k :: k in rows ==> rows[k].owner !in owners
  }

  /** An event of some other client, at its own time. */
  datatype Timed = Timed(event: Event, at: real)

  /**
   * One lease of a block: key, owner and time of the acquisition, and what
   * other clients and the block's own renewal threads do just before it is
   * acquired and just before it is released.
   */
  datatype Request = Request(key: Resource, owner: Owner, at: real, before: seq<Timed>, closing: seq<Timed>)

  /** The event is a renewal, perhaps by a thread of the block itself, or does not act under one of these names. */
  predicate Foreign(e: Event, owners: set<Owner>) {
    e.ArmCooldown? || e.Renew? || e.owner !in owners
  }

  predicate AllForeign(events: seq<Timed>, owners: set<Owner>) {
    forall i :: 0 <= i < |events| ==> Foreign(events[i].event, owners)
  }

  function Ran(rows: Rows, events: seq<Timed>): Rows
    decreases |events|
  {
    if events == [] then rows else Ran(Apply(rows, events[0].event, events[0].at), events[1..])
  }

  function TakenRows(rows: Rows, block: seq<Request>, seconds: real): Rows {
    if block == [] then rows
    else
      var r := block[|block| - 1];
      Apply(Ran(TakenRows(rows, block[..|block| - 1], seconds), r.before), Acquire(r.key, r.owner, seconds, 0.0), r.at)
  }

  /** Request i finds its key free once the earlier ones are taken. */
  predicate FreeInTurn(rows: Rows, block: seq<Request>, seconds: real, i: nat)
    requires i < |block|
  {
    var r := block[i];
    Accepted(Ran(TakenRows(rows, block[..i], seconds), r.before), Acquire(r.key, r.owner, seconds, 0.0), r.at)
  }

  ghost predicate OnlyHolders(rows: Rows, owners: set<Owner>, block: seq<Request>) {
    forall k :: k in rows && rows[k].owner in owners ==>
      exists i :: 0 <= i < |block| && block[i].key == k && block[i].owner == rows[k].owner
  }

  /** Nobody else can put one of these names into a row. */
  lemma {:induction false} ForeignStep(rows: Rows, e: Event, now: real, owners: set<Owner>, block: seq<Request>)
    requires OnlyHolders(rows, owners, block) && Foreign(e, owners) && "" !in owners
    ensures OnlyHolders(Apply(rows, e, now), owners, block)
  {
    var after := Apply(rows, e, now);
    forall k | k in after && after[k].owner in owners
      ensures k in rows && rows[k].owner == after[k].owner
    {
    }
  }

  lemma {:induction false} ForeignRun(rows: Rows, events: seq<Timed>, owners: set<Owner>, block: seq<Request>)
    requires OnlyHolders(rows, owners, block) && AllForeign(events, owners) && "" !in owners
    ensures OnlyHolders(Ran(rows, events), owners, block)
    decreases |events|
  {
    if events != [] {
      ForeignStep(rows, events[0].event, events[0].at, owners, block);
      ForeignRun(Apply(rows, events[0].event, events[0].at), events[1..], owners, block);
    }
  }

  lemma {:induction false} HolderAdded(rows: Rows, front: seq<Request>, r: Request, owners: set<Owner>, seconds: real)
    requires OnlyHolders(rows, owners, front)
    ensures OnlyHolders(Apply(rows, Acquire(r.key, r.owner, seconds, 0.0), r.at), owners, front + [r])
  {
    var after, block := Apply(rows, Acquire(r.key, r.owner, seconds, 0.0), r.at), front + [r];
    forall k | k in after && after[k].owner in owners
      ensures exists i :: 0 <= i < |block| && block[i].key == k && block[i].owner == after[k].owner
    {
      if k in rows && after[k] == rows[k] {
        var i :| 0 <= i < |front| && front[i].key == k && front[i].owner == rows[k].owner;
        assert block[i] == front[i];
      } else {
        assert block[|front|] == r;
      }
    }
  }

  lemma {:induction false} TakenHolders(rows: Rows, block: seq<Request>, owners: set<Owner>, seconds: real)
    requires NoneOwned(rows, owners) && "" !in owners
    requires forall i :: 0 <= i < |block| ==> AllForeign(block[i].before, owners)
    ensures OnlyHolders(TakenRows(rows, block, seconds), owners, block)
  {
    if block != [] {
      var front, r := block[..|block| - 1], block[|block| - 1];
      TakenHolders(rows, front, owners, seconds);
      ForeignRun(TakenRows(rows, front, seconds), r.before, owners, front);
      HolderAdded(Ran(TakenRows(rows, front, seconds), r.before), front, r, owners, seconds);
      assert block == front + [r];
    }
  }

  /** Other clients at work. */
  method Interfere(db: LeaseTable, events: seq<Timed>)
    requires db.Valid()
    modifies db
    ensures db.Valid() && db.rows == Ran(old(db.rows), events)
  {
    var rest := events;
    while rest != []
      invariant db.Valid() && Ran(old(db.rows), events) == Ran(db.rows, rest)
      decreases |rest|
    {
      db.Perform(rest[0].event, rest[0].at);
      rest := rest[1..];
    }
  }

  /**
   * Opening an `account_leases` block while other clients go on: acquire one
   * lease per request in order, and on the first refusal, or storage error at
   * a position in `faults`, release what was taken in reverse.  Owners are
   * fresh random names.
   */
  method OpenAccountLeases(db: LeaseTable, block: seq<Request>, ghost owners: set<Owner>, seconds: real,
                           faults: set<nat>)
    returns (granted: bool)
    requires db.Valid() && NoneOwned(db.rows, owners) && "" !in owners
    requires forall i :: 0 <= i < |block| ==>
               block[i].owner in owners && AllForeign(block[i].before, owners) && AllForeign(block[i].closing, owners)
    modifies db
    ensures db.Valid() && (!granted ==> NoneOwned(db.rows, owners))
    ensures granted ==> db.rows == TakenRows(old(db.rows), block, seconds)
    ensures granted <==> forall i :: 0 <= i < |block| ==> i !in faults && FreeInTurn(old(db.rows), block, seconds, i)
  {
    var taken := 0;
    granted := true;
    ghost var start := db.rows;
    while taken < |block| && granted
      invariant 0 <= taken <= |block| && db.Valid()
      invariant granted ==> db.rows == TakenRows(start, block[..taken], seconds)
      invariant !granted ==> taken < |block| && OnlyHolders(db.rows, owners, block[..taken])
      invariant !granted ==> taken in faults || !FreeInTurn(start, block, seconds, taken)
      invariant forall i :: 0 <= i < taken ==> i !in faults && FreeInTurn(start, block, seconds, i)
      decreases |block| - taken, granted
    {
      var r := block[taken];
      TakenHolders(start, block[..taken], owners, seconds);
      ForeignRun(db.rows, r.before, owners, block[..taken]);
      Interfere(db, r.before);
      granted := taken !in faults;
      if granted {
        var code := db.AcquireLease(r.key, r.owner, seconds, 0.0, r.at);
        granted := code == Acquired;
        if granted {
          assert block[..taken + 1][..taken] == block[..taken];
          taken := taken + 1;
        }
      }
    }
    assert granted ==> block[..taken] == block;
    if !granted {
      ReleaseAll(db, block[..taken], owners);
    }
  }

  method ReleaseAll(db: LeaseTable, block: seq<Request>, ghost owners: set<Owner>)
    requires db.Valid() && OnlyHolders(db.rows, owners, block) && "" !in owners
    requires forall i :: 0 <= i < |block| ==> AllForeign(block[i].closing, owners)
    modifies db
    ensures db.Valid() && NoneOwned(db.rows, owners)
  {
    var left := |block|;
    assert block[..left] == block;
    while left > 0
      invariant 0 <= left <= |block| && db.Valid()
      invariant OnlyHolders(db.rows, owners, block[..left])
    {
      left := left - 1;
      ForeignRun(db.rows, block[left].closing, owners, block[..left + 1]);
      Interfere(db, block[left].closing);
      ghost var rows := db.rows;
      var released := db.ReleaseLease(block[left].key, block[left].owner, block[left].at);
      OneFewerHolder(rows, block[..left + 1], owners);
      assert block[..left + 1][..left] == block[..left];
    }
  }

  lemma {:induction false} OneFewerHolder(rows: Rows, block: seq<Request>, owners: set<Owner>)
    requires block != [] && OnlyHolders(rows, owners, block) && "" !in owners
    ensures var r := block[|block| - 1];
            OnlyHolders(Apply(rows, Release(r.key, r.owner), r.at), owners, block[..|block| - 1])
  {
    var r, front := block[|block| - 1], block[..|block| - 1];
    var after := Apply(rows, Release(r.key, r.owner), r.at);
    forall k | k in after && after[k].owner in owners
      ensures exists i :: 0 <= i < |front| && front[i].key == k && front[i].owner == after[k].owner
    {
      assert after[k] == rows[k];
      var i :| 0 <= i < |block| && block[i].key == k && block[i].owner == rows[k].owner;
      assert i < |front| && front[i] == block[i];
    }
  }
}

/** What holds over every run of lease events with a clock that never goes back. */
module LeaseRuns {
  import opened Common
  import opened LeaseSpec
  import opened LeaseTables

  ghost predicate IsRun(tables: seq<Rows>, events: seq<Event>, clock: seq<real>) {
    Follows(tables, events, clock) && forall i, j :: 0 <= i <= j < |events| ==> clock[i] <= clock[j]
  }

  predicate Takes(e: Event) {
    e.Acquire? || e.Reserve? || e.Renew?
  }

  /** Event e gave `owner` the lease on `key`. */
  predicate Grants(rows: Rows, e: Event, now: real, key: Resource, owner: Owner) {
    Takes(e) && e.key == key && e.owner == owner && Accepted(rows, e, now)
  }

  predicate Protected(rows: Rows, key: Resource, owner: Owner, until: real) {
    key in rows && rows[key].owner == owner && rows[key].leaseUntil >= until
  }

  lemma {:induction false} GrantProtects(rows: Rows, e: Event, now: real, key: Resource, owner: Owner)
    requires Grants(rows, e, now, key, owner)
    ensures Protected(Apply(rows, e, now), key, owner, now + Length(e.seconds))
  {
  }

  lemma {:induction false} ProtectedStep(rows: Rows, e: Event, now: real, key: Resource, owner: Owner, until: real)
    requires Protected(rows, key, owner, until) && now < until
    requires !(e.Release? && e.key == key && e.owner == owner)
    requires Grants(rows, e, now, key, owner) ==> now + Length(e.seconds) >= until
    ensures Protected(Apply(rows, e, now), key, owner, until)
    ensures forall other :: other != owner ==> !Grants(rows, e, now, key, other)
  {
  }

  /**
   * After owner A got the lease on a key at time t for s seconds, no other
   * owner's acquire, reserve or renew of that key succeeds before t + s, unless
   * A released it.  A asks for at least s seconds each time.
   */
  lemma {:induction false} LeaseExcludesOthers(tables: seq<Rows>, events: seq<Event>, clock: seq<real>, key: Resource,
                                               a: Owner, b: Owner, i: nat, j: nat)
    requires IsRun(tables, events, clock) && i < j < |events| && a != b
    requires Grants(tables[i], events[i], clock[i], key, a)
    requires forall k :: i < k < j ==> !(events[k].Release? && events[k].key == key && events[k].owner == a)
    requires forall k :: i < k < j && Takes(events[k]) && events[k].key == key && events[k].owner == a ==>
               Length(events[k].seconds) >= Length(events[i].seconds)
    requires Grants(tables[j], events[j], clock[j], key, b)
    ensures clock[j] >= clock[i] + Length(events[i].seconds)
  {
    var until := clock[i] + Length(events[i].seconds);
    if clock[j] < until {
      GrantProtects(tables[i], events[i], clock[i], key, a);
      var k := i + 1;
      while k < j
        invariant i < k <= j && Protected(tables[k], key, a, until)
      {
        assert clock[i] <= clock[k] <= clock[j];
        ProtectedStep(tables[k], events[k], clock[k], key, a, until);
        k := k + 1;
      }
      ProtectedStep(tables[j], events[j], clock[j], key, a, until);
    }
  }

  predicate Alive(rows: Rows, key: Resource, owner: Owner, now: real) {
    key in rows && rows[key].owner == owner && rows[key].leaseUntil > now
  }

  /** Once its lease has run out or was released, an owner cannot renew itself back. */
  lemma {:induction false} ExpiredOwnerCannotRenew(tables: seq<Rows>, events: seq<Event>, clock: seq<real>,
                                                   key: Resource, owner: Owner, i: nat, j: nat)
    requires IsRun(tables, events, clock) && i <= j < |events| && owner != ""
    requires !Alive(tables[i], key, owner, clock[i])
    requires forall k :: i <= k < j ==>
               !((events[k].Acquire? || events[k].Reserve?) && events[k].key == key && events[k].owner == owner)
    ensures !Alive(tables[j], key, owner, clock[j])
    ensures events[j].Renew? && events[j].key == key && events[j].owner == owner ==>
              !Accepted(tables[j], events[j], clock[j]) && tables[j + 1] == tables[j]
    decreases j - i
  {
    if i < j {
      assert clock[i] <= clock[i + 1];
      ExpiredOwnerCannotRenew(tables, events, clock, key, owner, i + 1, j);
    }
  }

  /**
   * A released lease stays released, whatever late renewals of the same owner
   * or steps of other owners follow: nothing but a new acquisition by that
   * owner puts its name back into the row.
   */
  lemma {:induction false} ReleasedStaysReleased(tables: seq<Rows>, events: seq<Event>, clock: seq<real>, key: Resource,
                                                 owner: Owner, i: nat, j: nat)
    requires IsRun(tables, events, clock) && i < j < |tables| && owner != ""
    requires events[i] == Release(key, owner)
    requires forall k :: i < k < j ==>
               !((events[k].Acquire? || events[k].Reserve?) && events[k].key == key && events[k].owner == owner)
    ensures key in tables[j] ==> tables[j][key].owner != owner
    decreases j
  {
    if i + 1 < j {
      ReleasedStaysReleased(tables, events, clock, key, owner, i, j - 1);
    }
  }

  /** The wait reported with a refused reservation is enough: after it the same request succeeds. */
  lemma {:induction false} ReportedWaitSuffices(rows: Rows, e: Event, now: real, deadline: real, code: Code,
                                                later: real)
    requires e.Reserve? && IsLatest(Blockers(rows, e, now), deadline, code)
    requires later >= now + WholeSeconds(deadline - now) as real
    ensures Accepted(rows, e, later)
  {
    var blockers := Blockers(rows, e, now);
    LatestIsLater(rows, e, now, deadline, code);
    if e.riskUntil > now {
      assert blockers[0] == (e.riskUntil, RiskCooldown);
    }
    RowCovered(rows, e.syncKey, now, e.ignoreSyncCooldown, blockers, deadline, later);
    RowCovered(rows, e.key, now, e.ignoreSyncCooldown && e.key == e.syncKey, blockers, deadline, later);
  }

  lemma {:induction false} RowIsAhead(rows: Rows, key: Resource, now: real, ignore: bool, b: (real, Code))
    requires b in RowBlockers(rows, key, now, ignore)
    ensures b.0 > now
  {
  }

  lemma {:induction false} LatestIsLater(rows: Rows, e: Event, now: real, deadline: real, code: Code)
    requires e.Reserve? && IsLatest(Blockers(rows, e, now), deadline, code)
    ensures deadline > now && forall b :: b in Blockers(rows, e, now) ==> b.0 <= deadline
  {
    var ignore := e.ignoreSyncCooldown && e.key == e.syncKey;
    if (deadline, code) in RowBlockers(rows, e.syncKey, now, e.ignoreSyncCooldown) {
      RowIsAhead(rows, e.syncKey, now, e.ignoreSyncCooldown, (deadline, code));
    } else if (deadline, code) in RowBlockers(rows, e.key, now, ignore) {
      RowIsAhead(rows, e.key, now, ignore, (deadline, code));
    }
  }

  lemma {:induction false} RowCovered(rows: Rows, key: Resource, now: real, ignore: bool, blockers: seq<(real, Code)>,
                                      deadline: real, later: real)
    requires now <= deadline <= later
    requires forall b :: b in RowBlockers(rows, key, now, ignore) ==> b in blockers
    requires forall b :: b in blockers ==> b.0 <= deadline
    ensures RowBlockers(rows, key, later, ignore) == []
  {
    if key in rows {
      var own := RowBlockers(rows, key, now, ignore);
      if rows[key].leaseUntil > now {
        assert own[0] == (rows[key].leaseUntil, Busy);
      }
      if rows[key].cooldownUntil > now && !ignore {
        assert own[|own| - 1] == (rows[key].cooldownUntil, Cooldown);
      }
    }
  }
}
