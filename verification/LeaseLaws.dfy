/** What the lease table promises about its rows: when a call succeeds, what it writes, what it keeps others from. */
module LeaseLaws {
  import opened Common
  import opened LeaseSpec
  import opened LeaseRuns

  /** Seconds of a lease, as asked but at least one and at most an hour. */
  function Seconds(asked: real): real {
    if asked < 1.0 then 1.0 else if asked > 3600.0 then 3600.0 else asked
  }

  /** A cooldown, as asked but not negative and at most a day. */
  function Cooling(asked: real): real {
    if asked < 0.0 then 0.0 else if asked > 86400.0 then 86400.0 else asked
  }

  predicate LeasedAt(rows: Rows, key: Resource, now: real) {
    key in rows && rows[key].leaseUntil > now
  }

  predicate CoolingAt(rows: Rows, key: Resource, now: real) {
    key in rows && rows[key].cooldownUntil > now
  }

  // ----- the calls -----

  /** Acquiring: busy under another owner's live lease, cooling down after it, else granted a lease and a cooldown. */
  lemma {:induction false} AcquireMeans(rows: Rows, key: Resource, owner: Owner, seconds: real, cooldown: real,
                                        now: real)
    ensures var foreign := key in rows && rows[key].owner != owner;
            var e := Acquire(key, owner, seconds, cooldown);
            && (AcquireCode(rows, key, owner, now) == Busy <==> foreign && LeasedAt(rows, key, now))
            && (AcquireCode(rows, key, owner, now) == Cooldown <==>
                  foreign && !LeasedAt(rows, key, now) && CoolingAt(rows, key, now))
            && (Accepted(rows, e, now) <==> !foreign || (!LeasedAt(rows, key, now) && !CoolingAt(rows, key, now)))
            && (Accepted(rows, e, now) <==> AcquireCode(rows, key, owner, now) == Acquired)
            && Apply(rows, e, now) ==
               if Accepted(rows, e, now) then rows[key := Row(owner, now + Seconds(seconds), now + Cooling(cooldown))]
               else rows
  {
  }

  /**
   * A reservation goes through exactly when no risk is pending, neither the
   * sync row nor the shop's own row is leased, and neither is cooling down,
   * where the sync cooldown may be ignored.
   */
  lemma {:induction false} ReserveMeans(rows: Rows, e: Event, now: real)
    requires e.Reserve?
    ensures Accepted(rows, e, now) <==>
              && e.riskUntil <= now && !LeasedAt(rows, e.syncKey, now) && !LeasedAt(rows, e.key, now)
              && (CoolingAt(rows, e.syncKey, now) ==> e.ignoreSyncCooldown)
              && (CoolingAt(rows, e.key, now) ==> e.ignoreSyncCooldown && e.key == e.syncKey)
    ensures Apply(rows, e, now) ==
              if Accepted(rows, e, now)
              then rows[e.key := Row(e.owner, now + Seconds(e.seconds),
                                     if e.key in rows then rows[e.key].cooldownUntil else 0.0)]
              else rows
  {
    RowFree(rows, e.syncKey, now, e.ignoreSyncCooldown);
    RowFree(rows, e.key, now, e.ignoreSyncCooldown && e.key == e.syncKey);
  }

  lemma {:induction false} RowFree(rows: Rows, key: Resource, now: real, ignore: bool)
    ensures RowBlockers(rows, key, now, ignore) == [] <==>
              !LeasedAt(rows, key, now) && (CoolingAt(rows, key, now) ==> ignore)
  {
  }

  /** The reasons reported with a refused reservation are true, with their own deadlines. */
  lemma {:induction false} ReasonsAreTrue(rows: Rows, e: Event, now: real, deadline: real, code: Code)
    requires e.Reserve?
    ensures (deadline, code) in Blockers(rows, e, now) <==>
              || (code == RiskCooldown && deadline == e.riskUntil && deadline > now)
              || (code == Busy && deadline > now &&
                  ((e.syncKey in rows && rows[e.syncKey].leaseUntil == deadline) ||
                   (e.key in rows && rows[e.key].leaseUntil == deadline)))
              || (code == Cooldown && deadline > now &&
                  ((e.syncKey in rows && rows[e.syncKey].cooldownUntil == deadline && !e.ignoreSyncCooldown) ||
                   (e.key in rows && rows[e.key].cooldownUntil == deadline &&
                    !(e.ignoreSyncCooldown && e.key == e.syncKey))))
  {
    RowReasons(rows, e.syncKey, now, e.ignoreSyncCooldown, deadline, code);
    RowReasons(rows, e.key, now, e.ignoreSyncCooldown && e.key == e.syncKey, deadline, code);
  }

  lemma {:induction false} RowReasons(rows: Rows, key: Resource, now: real, ignore: bool, deadline: real, code: Code)
    ensures (deadline, code) in RowBlockers(rows, key, now, ignore) <==>
              && key in rows && deadline > now
              && ((code == Busy && rows[key].leaseUntil == deadline) ||
                  (code == Cooldown && rows[key].cooldownUntil == deadline && !ignore))
  {
  }

  lemma {:induction false} RenewMeans(rows: Rows, key: Resource, owner: Owner, seconds: real, now: real)
    ensures var e := Renew(key, owner, seconds);
            && (Accepted(rows, e, now) <==> LeasedAt(rows, key, now) && rows[key].owner == owner)
            && Apply(rows, e, now) ==
               if Accepted(rows, e, now)
               then rows[key := Row(owner, now + Seconds(seconds), rows[key].cooldownUntil)] else rows
  {
  }

  lemma {:induction false} ReleaseMeans(rows: Rows, key: Resource, owner: Owner, now: real)
    ensures var e := Release(key, owner);
            && (Accepted(rows, e, now) <==> key in rows && rows[key].owner == owner)
            && Apply(rows, e, now) ==
               if Accepted(rows, e, now) then rows[key := Row("", 0.0, rows[key].cooldownUntil)] else rows
  {
  }

  lemma {:induction false} ArmMeans(rows: Rows, key: Resource, cooldown: real, now: real)
    ensures Apply(rows, ArmCooldown(key, cooldown), now) ==
              rows[key := if key in rows then Row(rows[key].owner, rows[key].leaseUntil, now + Cooling(cooldown))
                          else Row("", 0.0, now + Cooling(cooldown))]
  {
  }

  // ----- a lease keeps reservations away -----

  /** A reservation that names this key, as its shop or as its sync row. */
  predicate Names(e: Event, key: Resource) {
    e.Reserve? && (e.key == key || e.syncKey == key)
  }

  lemma {:induction false} ProtectedBlocks(rows: Rows, e: Event, now: real, key: Resource, owner: Owner, until: real)
    requires Protected(rows, key, owner, until) && now < until && Names(e, key)
    ensures !Accepted(rows, e, now)
  {
    ReserveMeans(rows, e, now);
  }

  lemma {:induction false} StaysProtected(tables: seq<Rows>, events: seq<Event>, clock: seq<real>, key: Resource,
                                          a: Owner, i: nat, j: nat)
    requires IsRun(tables, events, clock) && i < j < |events| && Grants(tables[i], events[i], clock[i], key, a)
    requires forall k :: i < k < j ==> !(events[k].Release? && events[k].key == key && events[k].owner == a)
    requires forall k :: i < k < j && Takes(events[k]) && events[k].key == key && events[k].owner == a ==>
               Length(events[k].seconds) >= Length(events[i].seconds)
    requires clock[j] < clock[i] + Length(events[i].seconds)
    ensures Protected(tables[j], key, a, clock[i] + Length(events[i].seconds))
  {
    var until := clock[i] + Length(events[i].seconds);
    GrantProtects(tables[i], events[i], clock[i], key, a);
    var k := i + 1;
    while k < j
      invariant i < k <= j && Protected(tables[k], key, a, until)
    {
      assert clock[i] <= clock[k] <= clock[j];
      ProtectedStep(tables[k], events[k], clock[k], key, a, until);
      k := k + 1;
    }
  }

  /**
   * After A got the lease on a key at time t for s seconds, no reservation that
   * names the key as its shop or as its sync row goes through before t + s,
   * not even A's own, unless A released it.
   */
  lemma {:induction false} LeaseBlocksReservations(tables: seq<Rows>, events: seq<Event>, clock: seq<real>,
                                                   key: Resource,
                                                   a: Owner, i: nat, j: nat)
    requires IsRun(tables, events, clock) && i < j < |events| && Grants(tables[i], events[i], clock[i], key, a)
    requires forall k :: i < k < j ==> !(events[k].Release? && events[k].key == key && events[k].owner == a)
    requires forall k :: i < k < j && Takes(events[k]) && events[k].key == key && events[k].owner == a ==>
               Length(events[k].seconds) >= Length(events[i].seconds)
    requires Names(events[j], key) && Accepted(tables[j], events[j], clock[j])
    ensures clock[j] >= clock[i] + Seconds(events[i].seconds)
  {
    if clock[j] < clock[i] + Length(events[i].seconds) {
      StaysProtected(tables, events, clock, key, a, i, j);
      ProtectedBlocks(tables[j], events[j], clock[j], key, a, clock[i] + Length(events[i].seconds));
    }
  }

  // ----- a cooldown keeps others away -----

  /** The key cools down until then, and its row names nobody but this owner. */
  predicate Cools(rows: Rows, key: Resource, owner: Owner, until: real) {
    key in rows && rows[key].cooldownUntil >= until && (rows[key].owner == owner || rows[key].owner == "")
  }

  /** What may end a cooldown early: a new one is armed, its owner acquires again, or a reservation ignores it. */
  predicate Resets(e: Event, key: Resource, owner: Owner) {
    || (e.ArmCooldown? && e.key == key)
    || (e.Acquire? && e.key == key && (e.owner == owner || e.owner == ""))
    || (e.Reserve? && e.key == key && e.syncKey == key && e.ignoreSyncCooldown)
  }

  lemma {:induction false} CoolingStep(rows: Rows, e: Event, now: real, key: Resource, owner: Owner, until: real)
    requires Cools(rows, key, owner, until) && now < until && !Resets(e, key, owner)
    ensures Cools(Apply(rows, e, now), key, owner, until)
    ensures e.Acquire? && e.key == key ==> !Accepted(rows, e, now)
    ensures Names(e, key) && !e.ignoreSyncCooldown ==> !Accepted(rows, e, now)
  {
    if e.Reserve? {
      ReserveMeans(rows, e, now);
    }
  }

  lemma {:induction false} CoolingLasts(tables: seq<Rows>, events: seq<Event>, clock: seq<real>, key: Resource,
                                        owner: Owner, until: real, i: nat, j: nat)
    requires IsRun(tables, events, clock) && i <= j < |events| && Cools(tables[i], key, owner, until)
              && clock[j] < until
    requires forall k :: i <= k < j ==> !Resets(events[k], key, owner)
    ensures Cools(tables[j], key, owner, until)
    decreases j
  {
    if i < j {
      assert clock[j - 1] <= clock[j];
      CoolingLasts(tables, events, clock, key, owner, until, i, j - 1);
      CoolingStep(tables[j - 1], events[j - 1], clock[j - 1], key, owner, until);
    }
  }

  /** The cooldown this event stores for its key, and the owner it does not keep out. */
  lemma {:induction false} CooldownStored(rows: Rows, e: Event, now: real)
    requires (e.Acquire? && Accepted(rows, e, now)) || e.ArmCooldown?
    ensures var owner := if e.Acquire? then e.owner else if e.key in rows then rows[e.key].owner else "";
            Cools(Apply(rows, e, now), e.key, owner, now + Cooling(e.cooldown))
  {
  }

  /**
   * After an acquisition or an armed cooldown of c seconds at time t, nobody
   * but the owner acquires the key before t + c, and no reservation that names
   * it and respects cooldowns goes through, unless the cooldown is reset.
   */
  lemma {:induction false} CooldownKeepsOthersAway(tables: seq<Rows>, events: seq<Event>, clock: seq<real>, i: nat,
                                                   j: nat)
    requires IsRun(tables, events, clock) && i < j < |events|
    requires (events[i].Acquire? && Accepted(tables[i], events[i], clock[i])) || events[i].ArmCooldown?
    requires var key := events[i].key;
             var owner := if events[i].Acquire? then events[i].owner
                          else if key in tables[i] then tables[i][key].owner else "";
             && (forall k :: i < k <= j ==> !Resets(events[k], key, owner))
             && ((events[j].Acquire? && events[j].key == key)
                 || (Names(events[j], key) && !events[j].ignoreSyncCooldown))
    requires Accepted(tables[j], events[j], clock[j])
    ensures clock[j] >= clock[i] + Cooling(events[i].cooldown)
  {
    var key, until := events[i].key, clock[i] + Cooling(events[i].cooldown);
    var owner := if events[i].Acquire? then events[i].owner
                 else if key in tables[i] then tables[i][key].owner else "";
    if clock[j] < until {
      CooldownStored(tables[i], events[i], clock[i]);
      CoolingLasts(tables, events, clock, key, owner, until, i + 1, j);
      CoolingStep(tables[j], events[j], clock[j], key, owner, until);
    }
  }
}
