/**
 * Update operations of backend/db.py: one-use confirmations, the operation
 * state machine, and the `platform_updates` table that mirrors it.
 */
module UpdateSpec {
  import opened Common

  type OpId = string
  type Digest = string
  datatype Action = ApplyUpdate | RollbackUpdate

  /** The status and phase vocabulary; `Unlisted` is any other text. */
  datatype Stage =
    | Staged | Queued | VerifyingPackage | Building | Preflighting | Preparing | Stopping | BackingUp
    | Migrating | Switching | Verifying | RollingBack
    | Succeeded | RolledBack | Failed | RecoveryFailed
    | Unlisted(name: string)

  predicate Terminal(p: Stage) {
    p.Succeeded? || p.RolledBack? || p.Failed? || p.RecoveryFailed?
  }

  /** UPDATE_OPERATION_PHASE_ORDER; the terminal phases have no entry there. */
  function Order(p: Stage): Option<nat> {
    match p
    case Staged => Some(0) case Queued => Some(1) case VerifyingPackage => Some(2) case Building => Some(3)
    case Preflighting => Some(4) case Preparing => Some(5) case Stopping => Some(6) case BackingUp => Some(7)
    case Migrating => Some(8) case Switching => Some(9) case Verifying => Some(10) case RollingBack => Some(11)
    case _ => None
  }

  predicate TransitionAllowed(current: Stage, next: Stage) {
    if next == Staged then false
    else if Terminal(next) then true
    else if Order(current).None? || Order(next).None? then false
    else if current == RollingBack then next == RollingBack
    else Order(next).value >= Order(current).value
  }

  datatype Op = Op(
    action: Action, version: string, channel: string, manifest: string,
    expectedVersion: string, currentVersion: string, requestedBy: int, session: Digest,
    confirmation: Digest, status: Stage, phase: Stage, error: string,
    requestedAt: Option<real>, publishedAt: Option<real>, executorAt: real, updatedAt: real)

  datatype Confirmation = Confirmation(
    user: int, action: Action, expiresAt: real, usedAt: Option<real>,
    session: Digest, version: string, manifest: string, operation: OpId)

  datatype MirrorKey = MirrorKey(version: string, channel: string)
  datatype MirrorStatus = Requested(action: Action) | Mirrored(stage: Stage)
  datatype MirrorRow = MirrorRow(status: MirrorStatus, manifest: string, error: string, requestedBy: int,
                                 updatedAt: real)

  /** `bound` records every confirmation ever issued, with the operation it was issued for. */
  datatype Db = Db(
    ops: map<OpId, Op>,
    confirmations: map<Digest, Confirmation>,
    mirror: map<MirrorKey, MirrorRow>,
    bound: map<Digest, OpId>)

  const EMPTY := Db(map[], map[], map[], map[])

  datatype Payload = Payload(
    operation: OpId, action: Action, version: string, status: Stage, phase: Stage,
    currentVersion: string, error: string, at: real)

  /** `admin` says whether the session token belongs to a live administrator session. */
  datatype Event =
    | Confirm(digest: Digest, conf: Confirmation, ttl: int, admin: bool)
    | Consume(digest: Digest, user: int, action: Action, session: Digest, version: string, manifest: string, id: OpId,
              admin: bool)
    | Create(id: OpId, action: Action, version: string, channel: string, manifest: string,
             expectedVersion: string, requestedBy: int, session: Digest)
    | Queue(id: OpId, digest: Digest, user: int, session: Digest, action: Action, version: string, admin: bool)
    | Publish(id: OpId)
    | NoteError(id: OpId, code: string)
    | Observe(id: OpId, payload: Payload)
    | Prune(confirmations: set<Digest>, rows: set<MirrorKey>)

  predicate Active(op: Op) {
    op.status != Staged && !Terminal(op.status)
  }

  predicate NoneActive(db: Db) {
    forall id :: id in db.ops ==> !Active(db.ops[id])
  }

  function KeyOf(op: Op): MirrorKey {
    MirrorKey(op.version, op.channel)
  }

  function MirrorStatusOf(op: Op): MirrorStatus {
    if op.status == Queued then Requested(op.action) else Mirrored(op.status)
  }

  predicate MirrorActive(row: MirrorRow) {
    row.status.Requested? || (row.status.stage != Staged && !Terminal(row.status.stage))
  }

  function WithMirror(db: Db, id: OpId): Db
    requires id in db.ops
  {
    var op := db.ops[id];
    db.(mirror := db.mirror[KeyOf(op) :=
                            MirrorRow(MirrorStatusOf(op), op.manifest, op.error, op.requestedBy, op.updatedAt)])
  }

  predicate Matches(db: Db, digest: Digest, user: int, action: Action, session: Digest, version: string,
                    manifest: string, id: OpId, admin: bool, now: real)
  {
    digest in db.confirmations &&
    var c := db.confirmations[digest];
    && c.usedAt == None && c.expiresAt > now && c.user == user && c.action == action
    && c.session == session && c.version == version && c.manifest == manifest && c.operation == id && admin
  }

  function Used(db: Db, digest: Digest, now: real): map<Digest, Confirmation>
    requires digest in db.confirmations
  {
    db.confirmations[digest := db.confirmations[digest].(usedAt := Some(now))]
  }

  function QueuedDb(db: Db, id: OpId, digest: Digest, now: real): Db
    requires id in db.ops && digest in db.confirmations
  {
    var op := db.ops[id].(status := Queued, phase := Queued, error := "", confirmation := digest,
                          requestedAt := Some(now), updatedAt := now);
    WithMirror(db.(confirmations := Used(db, digest, now), ops := db.ops[id := op]), id)
  }

  /** The caller of queue is the administrator and session that staged this very operation. */
  predicate Addressed(db: Db, e: Event)
    requires e.Queue?
  {
    && e.id in db.ops && db.ops[e.id].action == e.action && db.ops[e.id].version == e.version
    && db.ops[e.id].requestedBy == e.user && db.ops[e.id].session == e.session && e.admin
  }

  predicate Queues(db: Db, e: Event, now: real)
    requires e.Queue?
  {
    && Addressed(db, e) && db.ops[e.id].status == Staged && NoneActive(db)
    && Matches(db, e.digest, e.user, e.action, e.session, e.version, db.ops[e.id].manifest, e.id, true, now)
  }

  predicate Observes(db: Db, e: Event)
    requires e.Observe?
  {
    e.id in db.ops &&
    var op, p := db.ops[e.id], e.payload;
    && op.requestedAt.Some? && !Terminal(op.status) && p.at > op.executorAt
    && p.operation == e.id && p.action == op.action && p.version == op.version
    && TransitionAllowed(op.phase, p.phase)
  }

  predicate IsHex(s: string, n: nat) {
    |s| == n && forall i :: 0 <= i < |s| ==> '0' <= s[i] <= '9' || 'a' <= s[i] <= 'f'
  }

  /** What a confirmation must name: a session, a version, a manifest and an operation. */
  predicate Nameable(session: Digest, version: string, manifest: string, id: OpId) {
    session != "" && version != "" && IsHex(manifest, 64) && IsHex(id, 32)
  }

  const CHANNELS := {"stable", "beta", "release"}

  predicate Creatable(id: OpId, channel: string, manifest: string, requester: int, session: Digest) {
    IsHex(id, 32) && channel in CHANNELS && IsHex(manifest, 64) && IsHex(session, 64) && requester > 0
  }

  /** What the caller is told: the row for queue, True or False for the others; False is also an invalid argument. */
  predicate Accepted(db: Db, e: Event, now: real) {
    match e
    case Confirm(_, c, _, admin) => Nameable(c.session, c.version, c.manifest, c.operation) && admin
    case Consume(d, user, action, session, version, manifest, id, admin) =>
      && Nameable(session, version, manifest, id)
      && Matches(db, d, user, action, session, version, manifest, id, admin, now)
    case Create(id, _, _, channel, manifest, _, requester, session) =>
      Creatable(id, channel, manifest, requester, session) && NoneActive(db) && id !in db.ops
    case Queue(id, digest, _, _, _, _, _) =>
      Queues(db, e, now) || (Addressed(db, e) && db.ops[id].status != Staged && db.ops[id].confirmation == digest)
    case Observe(_, _) => Observes(db, e)
    case _ => true
  }

  function Apply(db: Db, e: Event, now: real): Db {
    match e
    case Confirm(digest, conf, ttl, admin) =>
      if !Accepted(db, e, now) then db
      else
        var seconds := if ttl < 30 then 30 else if ttl > 300 then 300 else ttl;
        db.(confirmations := db.confirmations[digest := conf.(expiresAt := now + seconds as real, usedAt := None)],
            bound := db.bound[digest := conf.operation])
    case Consume(digest, _, _, _, _, _, _, _) =>
      if Accepted(db, e, now) then db.(confirmations := Used(db, digest, now)) else db
    case Create(id, action, version, channel, manifest, expected, requester, session) =>
      if !Accepted(db, e, now) then db
      else
        var op := Op(action, version, channel, manifest, expected, expected, requester, session, "",
                     Staged, Staged, "", None, None, 0.0, now);
        WithMirror(db.(ops := db.ops[id := op]), id)
    case Queue(id, digest, _, _, _, _, _) =>
      if !Queues(db, e, now) then db else QueuedDb(db, id, digest, now)
    case Publish(id) =>
      if id !in db.ops || db.ops[id].requestedAt.None? then db
      else
        var op := db.ops[id];
        db.(ops := db.ops[id := op.(publishedAt := if op.publishedAt.Some? then op.publishedAt else Some(now),
                                    error := if op.executorAt == 0.0 then "" else op.error)])
    case NoteError(id, code) =>
      if id !in db.ops || Terminal(db.ops[id].status) then db
      else db.(ops := db.ops[id := db.ops[id].(error := SafeCode(code))])
    case Observe(id, p) =>
      if !Observes(db, e) then db
      else
        var op := db.ops[id];
        var op' := op.(status := p.status, phase := p.phase, currentVersion := p.currentVersion, error := p.error,
                       executorAt := p.at, publishedAt := if op.publishedAt.Some? then op.publishedAt else Some(p.at),
                       updatedAt := MaxReal(now, p.at));
        WithMirror(db.(ops := db.ops[id := op']), id)
    case Prune(digests, rows) =>
      db.(confirmations := db.confirmations - (set d | d in digests && d in db.confirmations &&
                             (db.confirmations[d].expiresAt <= now || db.confirmations[d].usedAt.Some?)),
          mirror := db.mirror - (set k | k in rows && k in db.mirror && Prunable(db.mirror[k])))
  }

  /** An error code of the expected form, or the general one. */
  function SafeCode(code: string): string {
    if && 0 < |code| <= 80 && 'a' <= code[0] <= 'z'
       && forall i :: 0 <= i < |code| ==> 'a' <= code[i] <= 'z' || '0' <= code[i] <= '9' || code[i] == '_'
    then code else "update_state_invalid"
  }

  /** Each database follows from the one before it, starting with empty tables. */
  ghost predicate Follows(dbs: seq<Db>, events: seq<Event>, clock: seq<real>) {
    && |dbs| == |events| + 1 && |clock| == |events| && dbs[0] == EMPTY
    && forall i :: 0 <= i < |events| ==> dbs[i + 1] == Apply(dbs[i], events[i], clock[i])
  }

  lemma {:induction false} FollowsGrows(dbs: seq<Db>, events: seq<Event>, clock: seq<real>, e: Event, now: real)
    requires Follows(dbs, events, clock)
    ensures Follows(dbs + [Apply(dbs[|events|], e, now)], events + [e], clock + [now])
  {
  }

  /** Retention removes finished rows, but keeps a failed recovery. */
  predicate Prunable(row: MirrorRow) {
    row.status.Mirrored? && (row.status.stage.Succeeded? || row.status.stage.RolledBack? || row.status.stage.Failed?)
  }
}

module UpdateStores {
  import opened Common
  import opened UpdateSpec

  /** The three tables, written by the methods of `DB`. */
  class UpdateStore {
    var ops: map<OpId, Op>
    var confirmations: map<Digest, Confirmation>
    var mirror: map<MirrorKey, MirrorRow>
    ghost var bound: map<Digest, OpId>
    ghost var dbs: seq<Db>
    ghost var events: seq<Event>
    ghost var clock: seq<real>

    ghost function Abs(): Db
      reads this
    {
      Db(ops, confirmations, mirror, bound)
    }

    /** The calls made on this object lead, one after the other, to its present tables. */
    ghost predicate Valid()
      reads this
    {
      Follows(dbs, events, clock) && dbs[|events|] == Abs()
    }

    constructor ()
      ensures Valid() && Abs() == EMPTY && events == []
    {
      ops, confirmations, mirror, bound := map[], map[], map[], map[];
      dbs, events, clock := [EMPTY], [], [];
    }

    /** Write down the transaction that is about to be made. */
    ghost method Log(e: Event, now: real)
      requires Valid()
      modifies this`dbs, this`events, this`clock
      ensures Follows(dbs, events, clock) && dbs[|events|] == Apply(Abs(), e, now)
      ensures events == old(events) + [e] && clock == old(clock) + [now]
    {
      FollowsGrows(dbs, events, clock, e, now);
      dbs, events, clock := dbs + [Apply(Abs(), e, now)], events + [e], clock + [now];
    }

    method MirrorOperation(id: OpId)
      requires id in ops
      modifies this`mirror
      ensures Abs() == WithMirror(old(Abs()), id)
    {
      var op := ops[id];
      var status := if op.status == Queued then Requested(op.action) else Mirrored(op.status);
      mirror := mirror[MirrorKey(op.version, op.channel) :=
                       MirrorRow(status, op.manifest, op.error, op.requestedBy, op.updatedAt)];
    }

    method CreateConfirmation(digest: Digest, conf: Confirmation, ttl: int, admin: bool, now: real) returns (ok: bool)
      requires Valid()
      modifies this
      ensures ok == Accepted(old(Abs()), Confirm(digest, conf, ttl, admin), now)
      ensures Abs() == Apply(old(Abs()), Confirm(digest, conf, ttl, admin), now)
      ensures Valid() && events == old(events) + [Confirm(digest, conf, ttl, admin)] && clock == old(clock) + [now]
    {
      Log(Confirm(digest, conf, ttl, admin), now);
      if !Nameable(conf.session, conf.version, conf.manifest, conf.operation) || !admin {
        return false;
      }
      var seconds := if ttl < 30 then 30 else if ttl > 300 then 300 else ttl;
      confirmations := confirmations[digest := conf.(expiresAt := now + seconds as real, usedAt := None)];
      bound := bound[digest := conf.operation];
      ok := true;
    }

    /** `active_update_operation() is not None` */
    method HasActiveOperation() returns (active: bool)
      ensures active == !NoneActive(Abs())
    {
      active := exists id :: id in ops && Active(ops[id]);
    }

    method CreateOperation(id: OpId, action: Action, version: string, channel: string, manifest: string,
                           expected: string, requester: int, session: Digest, now: real) returns (ok: bool)
      requires Valid()
      modifies this
      ensures ok == Accepted(old(Abs()), Create(id, action, version, channel, manifest, expected, requester, session),
                             now)
      ensures Abs() == Apply(old(Abs()), Create(id, action, version, channel, manifest, expected, requester, session),
                             now)
      ensures Valid() && clock == old(clock) + [now]
      ensures events == old(events) + [Create(id, action, version, channel, manifest, expected, requester, session)]
    {
      Log(Create(id, action, version, channel, manifest, expected, requester, session), now);
      if !Creatable(id, channel, manifest, requester, session) {
        return false;
      }
      var busy := HasActiveOperation();
      if busy || id in ops {
        return false;
      }
      ops := ops[id := Op(action, version, channel, manifest, expected, expected, requester, session, "",
                          Staged, Staged, "", None, None, 0.0, now)];
      MirrorOperation(id);
      ok := true;
    }

    method QueueOperation(id: OpId, digest: Digest, user: int, session: Digest, action: Action, version: string,
                          admin: bool, now: real) returns (row: Option<Op>)
      requires Valid()
      modifies this
      ensures row.Some? == Accepted(old(Abs()), Queue(id, digest, user, session, action, version, admin), now)
      ensures Abs() == Apply(old(Abs()), Queue(id, digest, user, session, action, version, admin), now)
      ensures Valid() && events == old(events) + [Queue(id, digest, user, session, action, version, admin)]
                && clock == old(clock) + [now]
      ensures row.Some? ==> id in ops && row == Some(ops[id])
    {
      Log(Queue(id, digest, user, session, action, version, admin), now);
      if id !in ops || ops[id].action != action || ops[id].version != version
         || ops[id].requestedBy != user || ops[id].session != session || !admin {
        return None;
      }
      if ops[id].status != Staged {
        return if ops[id].confirmation == digest then Some(ops[id]) else None;
      }
      var busy := HasActiveOperation();
      if busy || !Matches(Db(ops, confirmations, mirror, map[]), digest, user, action, session, version,
                          ops[id].manifest, id, true, now) {
        return None;
      }
      StartOperation(id, digest, now);
      row := Some(ops[id]);
    }

    /** The writes of a queueing that goes through. */
    method StartOperation(id: OpId, digest: Digest, now: real)
      requires id in ops && digest in confirmations
      modifies this`ops, this`confirmations, this`mirror
      ensures Abs() == QueuedDb(old(Abs()), id, digest, now)
    {
      confirmations := confirmations[digest := confirmations[digest].(usedAt := Some(now))];
      ops := ops[id := ops[id].(status := Queued, phase := Queued, error := "", confirmation := digest,
                                requestedAt := Some(now), updatedAt := now)];
      MirrorOperation(id);
    }

    method ConsumeConfirmation(digest: Digest, user: int, action: Action, session: Digest, version: string,
                               manifest: string, id: OpId, admin: bool, now: real) returns (ok: bool)
      requires Valid()
      modifies this
      ensures ok == Accepted(old(Abs()), Consume(digest, user, action, session, version, manifest, id, admin), now)
      ensures Abs() == Apply(old(Abs()), Consume(digest, user, action, session, version, manifest, id, admin), now)
      ensures Valid() && events == old(events) + [Consume(digest, user, action, session, version, manifest, id, admin)]
                && clock == old(clock) + [now]
    {
      Log(Consume(digest, user, action, session, version, manifest, id, admin), now);
      ok := && Nameable(session, version, manifest, id)
            && Matches(Db(ops, confirmations, mirror, map[]), digest, user, action, session, version, manifest, id,
                       admin, now);
      if ok {
        confirmations := confirmations[digest := confirmations[digest].(usedAt := Some(now))];
      }
    }

    method MarkPublished(id: OpId, now: real)
      requires Valid()
      modifies this
      ensures Abs() == Apply(old(Abs()), Publish(id), now)
      ensures Valid() && events == old(events) + [Publish(id)] && clock == old(clock) + [now]
    {
      Log(Publish(id), now);
      if id in ops && ops[id].requestedAt.Some? {
        if ops[id].publishedAt.None? {
          ops := ops[id := ops[id].(publishedAt := Some(now))];
        }
        if ops[id].executorAt == 0.0 {
          ops := ops[id := ops[id].(error := "")];
        }
      }
    }

    method RecordError(id: OpId, code: string, now: real)
      requires Valid()
      modifies this
      ensures Abs() == Apply(old(Abs()), NoteError(id, code), now)
      ensures Valid() && events == old(events) + [NoteError(id, code)] && clock == old(clock) + [now]
    {
      Log(NoteError(id, code), now);
      if id in ops && !Terminal(ops[id].status) {
        ops := ops[id := ops[id].(error := SafeCode(code))];
      }
    }

    /** Retention, whatever sets of old rows it looked at. */
    method PruneRows(digests: set<Digest>, rows: set<MirrorKey>, now: real)
      requires Valid()
      modifies this
      ensures Abs() == Apply(old(Abs()), Prune(digests, rows), now)
      ensures Valid() && events == old(events) + [Prune(digests, rows)] && clock == old(clock) + [now]
    {
      Log(Prune(digests, rows), now);
      confirmations := confirmations - (set d | d in digests && d in confirmations &&
                         (confirmations[d].expiresAt <= now || confirmations[d].usedAt.Some?));
      mirror := mirror - (set k | k in rows && k in mirror && Prunable(mirror[k]));
    }

    method ObserveOperation(id: OpId, p: Payload, now: real) returns (ok: bool)
      requires Valid()
      modifies this
      ensures ok == Accepted(old(Abs()), Observe(id, p), now)
      ensures Abs() == Apply(old(Abs()), Observe(id, p), now)
      ensures Valid() && events == old(events) + [Observe(id, p)] && clock == old(clock) + [now]
    {
      Log(Observe(id, p), now);
      if id !in ops || ops[id].requestedAt.None? || Terminal(ops[id].status) || p.at <= ops[id].executorAt
         || p.operation != id || p.action != ops[id].action || p.version != ops[id].version
         || !TransitionAllowed(ops[id].phase, p.phase) {
        return false;
      }
      var published := if ops[id].publishedAt.Some? then ops[id].publishedAt else Some(p.at);
      ops := ops[id := ops[id].(status := p.status, phase := p.phase, currentVersion := p.currentVersion,
                                error := p.error, executorAt := p.at, publishedAt := published,
                                updatedAt := MaxReal(now, p.at))];
      MirrorOperation(id);
      ok := true;
    }
  }
}

/** What every run keeps, given the trusted reader and fresh confirmation tokens. */
module UpdateRuns {
  import opened Common
  import opened UpdateSpec

  /** The root-owned executor file never says `staged`, and a terminal phase comes with a terminal status. */
  predicate TrustedPayload(p: Payload) {
    p.status != Staged && (Terminal(p.phase) ==> Terminal(p.status))
  }

  predicate FreshToken(db: Db, e: Event) {
    e.Confirm? ==> e.digest !in db.bound
  }

  predicate Trusted(db: Db, e: Event) {
    (e.Observe? ==> TrustedPayload(e.payload)) && FreshToken(db, e)
  }

  ghost predicate IsRun(dbs: seq<Db>, events: seq<Event>, clock: seq<real>) {
    Follows(dbs, events, clock) && forall i :: 0 <= i < |events| ==> Trusted(dbs[i], events[i])
  }

  /** Phases in the order they are reached, with every terminal phase last. */
  function Rank(p: Stage): nat {
    if Terminal(p) then 12 else if Order(p).Some? then Order(p).value else 13
  }

  /** How the columns of one operation hang together. */
  predicate Shaped(op: Op) {
    && (op.status == Staged <==> op.phase == Staged)
    && (op.status == Staged <==> op.requestedAt.None?)
    && (Terminal(op.phase) ==> Terminal(op.status))
    && Rank(op.phase) <= 12 && op.executorAt >= 0.0
    && (Terminal(op.status) ==> op.executorAt > 0.0)
  }

  /** A started operation names the confirmation that was issued for it and is used up. */
  predicate Authorized(db: Db, id: OpId)
    requires id in db.ops
  {
    var op := db.ops[id];
    op.status != Staged ==>
      && Get(db.bound, op.confirmation) == Some(id)
      && (op.confirmation in db.confirmations ==> db.confirmations[op.confirmation].usedAt.Some?)
  }

  ghost predicate OneActive(db: Db) {
    forall a, b :: a in db.ops && b in db.ops && Active(db.ops[a]) && Active(db.ops[b]) ==> a == b
  }

  ghost predicate ActiveIsMirrored(db: Db) {
    forall id :: id in db.ops && Active(db.ops[id]) ==>
      KeyOf(db.ops[id]) in db.mirror && db.mirror[KeyOf(db.ops[id])].status == MirrorStatusOf(db.ops[id])
  }

  ghost predicate MirrorIsActive(db: Db) {
    forall k :: k in db.mirror && MirrorActive(db.mirror[k]) ==> HasActiveAt(db, k)
  }

  ghost predicate HasActiveAt(db: Db, k: MirrorKey) {
    exists id :: id in db.ops && Active(db.ops[id]) && KeyOf(db.ops[id]) == k
  }

  /** At most one operation is active, and the mirror's active row is exactly that operation's row. */
  ghost predicate MirrorInv(db: Db) {
    OneActive(db) && ActiveIsMirrored(db) && MirrorIsActive(db)
  }

  ghost predicate Inv(db: Db) {
    && (forall id :: id in db.ops ==> Shaped(db.ops[id]) && Authorized(db, id))
    && BoundAsIssued(db) && MirrorInv(db)
  }

  lemma {:induction false} ShapeStep(db: Db, e: Event, now: real, id: OpId)
    requires id in db.ops ==> Shaped(db.ops[id])
    requires Trusted(db, e) && id in Apply(db, e, now).ops
    ensures Shaped(Apply(db, e, now).ops[id])
  {
    if e.Observe? {
      ShapeObserve(db, e, now, id);
    } else if e.Queue? || e.Publish? || e.NoteError? {
      ShapeUpdate(db, e, now, id);
    }
  }

  lemma {:induction false} ShapeObserve(db: Db, e: Event, now: real, id: OpId)
    requires id in db.ops && Shaped(db.ops[id]) && e.Observe? && TrustedPayload(e.payload)
    ensures id in Apply(db, e, now).ops && Shaped(Apply(db, e, now).ops[id])
  {
  }

  lemma {:induction false} ShapeUpdate(db: Db, e: Event, now: real, id: OpId)
    requires id in db.ops && Shaped(db.ops[id]) && (e.Queue? || e.Publish? || e.NoteError?)
    ensures id in Apply(db, e, now).ops && Shaped(Apply(db, e, now).ops[id])
  {
  }

  ghost predicate BoundAsIssued(db: Db) {
    forall d :: d in db.confirmations ==> Get(db.bound, d) == Some(db.confirmations[d].operation)
  }

  lemma {:induction false} AuthorizedStep(db: Db, e: Event, now: real, id: OpId)
    requires (id in db.ops ==> Shaped(db.ops[id]) && Authorized(db, id)) && BoundAsIssued(db)
    requires Trusted(db, e) && id in Apply(db, e, now).ops
    ensures Authorized(Apply(db, e, now), id)
  {
    if e.Queue? {
      AuthorizedQueue(db, e, now, id);
    } else if e.Observe? || e.Publish? || e.NoteError? {
      AuthorizedUpdate(db, e, now, id);
    }
  }

  lemma {:induction false} AuthorizedQueue(db: Db, e: Event, now: real, id: OpId)
    requires e.Queue? && id in db.ops && Authorized(db, id) && BoundAsIssued(db)
    ensures id in Apply(db, e, now).ops && Authorized(Apply(db, e, now), id)
  {
  }

  lemma {:induction false} AuthorizedUpdate(db: Db, e: Event, now: real, id: OpId)
    requires (e.Observe? || e.Publish? || e.NoteError?) && Trusted(db, e)
    requires id in db.ops && Shaped(db.ops[id]) && Authorized(db, id)
    ensures id in Apply(db, e, now).ops && Authorized(Apply(db, e, now), id)
  {
  }

  lemma {:induction false} BindingsStep(db: Db, e: Event, now: real, d: Digest)
    requires BoundAsIssued(db) && Trusted(db, e) && d in Apply(db, e, now).confirmations
    ensures Get(Apply(db, e, now).bound, d) == Some(Apply(db, e, now).confirmations[d].operation)
  {
  }

  ghost predicate OnlyActive(db: Db, id: OpId) {
    forall other :: other in db.ops && Active(db.ops[other]) ==> other == id
  }

  /** One operation changes while no other one is active. */
  lemma {:induction false} MirrorWrite(db: Db, id: OpId, op: Op)
    requires MirrorInv(db) && OnlyActive(db, id) && (id in db.ops ==> KeyOf(op) == KeyOf(db.ops[id]))
    ensures MirrorInv(WithMirror(db.(ops := db.ops[id := op]), id))
  {
    WriteKeepsOne(db, id, op);
    WriteMirrors(db, id, op);
    WriteIsActive(db, id, op);
  }

  lemma {:induction false} WriteKeepsOne(db: Db, id: OpId, op: Op)
    requires OnlyActive(db, id)
    ensures OneActive(WithMirror(db.(ops := db.ops[id := op]), id))
  {
  }

  lemma {:induction false} WriteMirrors(db: Db, id: OpId, op: Op)
    requires OnlyActive(db, id)
    ensures ActiveIsMirrored(WithMirror(db.(ops := db.ops[id := op]), id))
  {
  }

  lemma {:induction false} WriteIsActive(db: Db, id: OpId, op: Op)
    requires MirrorIsActive(db) && OnlyActive(db, id) && (id in db.ops ==> KeyOf(op) == KeyOf(db.ops[id]))
    ensures MirrorIsActive(WithMirror(db.(ops := db.ops[id := op]), id))
  {
    var db' := WithMirror(db.(ops := db.ops[id := op]), id);
    forall k | k in db'.mirror && MirrorActive(db'.mirror[k]) ensures HasActiveAt(db', k) {
      if k != KeyOf(op) {
        ActiveRowIsMine(db, id, k);
      }
      assert db'.ops[id] == op && Active(op) && KeyOf(op) == k;
    }
  }

  lemma {:induction false} ActiveRowIsMine(db: Db, id: OpId, k: MirrorKey)
    requires MirrorIsActive(db) && k in db.mirror && MirrorActive(db.mirror[k]) && OnlyActive(db, id)
    ensures id in db.ops && KeyOf(db.ops[id]) == k
  {
    assert HasActiveAt(db, k);
  }

  /** A change that leaves status, action and key of an operation alone. */
  ghost predicate Quiet(db: Db, id: OpId, op: Op) {
    && id in db.ops && op.status == db.ops[id].status && op.action == db.ops[id].action
    && KeyOf(op) == KeyOf(db.ops[id])
  }

  lemma {:induction false} MirrorQuiet(db: Db, id: OpId, op: Op)
    requires MirrorInv(db) && Quiet(db, id, op)
    ensures MirrorInv(db.(ops := db.ops[id := op]))
  {
    QuietKeepsOne(db, id, op);
    QuietMirrors(db, id, op);
    QuietIsActive(db, id, op);
  }

  lemma {:induction false} QuietKeepsOne(db: Db, id: OpId, op: Op)
    requires OneActive(db) && Quiet(db, id, op)
    ensures OneActive(db.(ops := db.ops[id := op]))
  {
  }

  lemma {:induction false} QuietMirrors(db: Db, id: OpId, op: Op)
    requires ActiveIsMirrored(db) && Quiet(db, id, op)
    ensures ActiveIsMirrored(db.(ops := db.ops[id := op]))
  {
  }

  lemma {:induction false} QuietIsActive(db: Db, id: OpId, op: Op)
    requires MirrorIsActive(db) && Quiet(db, id, op)
    ensures MirrorIsActive(db.(ops := db.ops[id := op]))
  {
    var db' := db.(ops := db.ops[id := op]);
    forall k | k in db'.mirror && MirrorActive(db'.mirror[k]) ensures HasActiveAt(db', k) {
      var x :| x in db.ops && Active(db.ops[x]) && KeyOf(db.ops[x]) == k;
      assert x in db'.ops && KeyOf(db'.ops[x]) == k && Active(db'.ops[x]);
    }
  }

  lemma {:induction false} MirrorCreate(db: Db, e: Event, now: real)
    requires MirrorInv(db) && e.Create?
    ensures MirrorInv(Apply(db, e, now))
  {
    if Accepted(db, e, now) {
      MirrorWrite(db, e.id, Apply(db, e, now).ops[e.id]);
    }
  }

  lemma {:induction false} MirrorQueue(db: Db, e: Event, now: real)
    requires MirrorInv(db) && e.Queue?
    ensures MirrorInv(Apply(db, e, now))
  {
    if Queues(db, e, now) {
      var op := Apply(db, e, now).ops[e.id];
      MirrorWrite(db.(confirmations := Used(db, e.digest, now)), e.id, op);
    }
  }

  lemma {:induction false} MirrorObserve(db: Db, e: Event, now: real)
    requires MirrorInv(db) && e.Observe? && (e.id in db.ops ==> Shaped(db.ops[e.id]))
    ensures MirrorInv(Apply(db, e, now))
  {
    if Observes(db, e) {
      assert Active(db.ops[e.id]);
      MirrorWrite(db, e.id, Apply(db, e, now).ops[e.id]);
    }
  }

  lemma {:induction false} MirrorNote(db: Db, e: Event, now: real)
    requires MirrorInv(db) && (e.Publish? || e.NoteError?)
    ensures MirrorInv(Apply(db, e, now))
  {
    if e.id in db.ops {
      MirrorQuiet(db, e.id, Apply(db, e, now).ops[e.id]);
    }
  }

  lemma {:induction false} MirrorStep(db: Db, e: Event, now: real)
    requires Inv(db) && Trusted(db, e)
    ensures MirrorInv(Apply(db, e, now))
  {
    if e.Create? {
      MirrorCreate(db, e, now);
    } else if e.Queue? {
      MirrorQueue(db, e, now);
    } else if e.Observe? {
      MirrorObserve(db, e, now);
    } else if e.Publish? || e.NoteError? {
      MirrorNote(db, e, now);
    }
  }

  lemma {:induction false} StepInv(db: Db, e: Event, now: real)
    requires Inv(db) && Trusted(db, e)
    ensures Inv(Apply(db, e, now))
  {
    MirrorStep(db, e, now);
    forall id | id in Apply(db, e, now).ops
      ensures Shaped(Apply(db, e, now).ops[id]) && Authorized(Apply(db, e, now), id)
    {
      ShapeStep(db, e, now, id);
      AuthorizedStep(db, e, now, id);
    }
    forall d | d in Apply(db, e, now).confirmations
      ensures Get(Apply(db, e, now).bound, d) == Some(Apply(db, e, now).confirmations[d].operation)
    {
      BindingsStep(db, e, now, d);
    }
  }

  lemma {:induction false} RunInv(dbs: seq<Db>, events: seq<Event>, clock: seq<real>, i: nat)
    requires IsRun(dbs, events, clock) && i < |dbs|
    ensures Inv(dbs[i])
  {
    if i > 0 {
      RunInv(dbs, events, clock, i - 1);
      StepInv(dbs[i - 1], events[i - 1], clock[i - 1]);
    }
  }

  /** In every reachable state: one active operation at most, and the mirror shows exactly it. */
  lemma {:induction false} OneActiveAndMirrored(dbs: seq<Db>, events: seq<Event>, clock: seq<real>, i: nat)
    requires IsRun(dbs, events, clock) && i < |dbs|
    ensures forall a, b :: a in dbs[i].ops && b in dbs[i].ops && Active(dbs[i].ops[a]) && Active(dbs[i].ops[b]) ==>
              a == b
    ensures forall k :: (k in dbs[i].mirror && MirrorActive(dbs[i].mirror[k])) <==>
              exists id :: id in dbs[i].ops && Active(dbs[i].ops[id]) && KeyOf(dbs[i].ops[id]) == k
    ensures forall id :: id in dbs[i].ops && Active(dbs[i].ops[id]) ==>
              dbs[i].mirror[KeyOf(dbs[i].ops[id])].status == MirrorStatusOf(dbs[i].ops[id])
  {
    RunInv(dbs, events, clock, i);
  }

  // ----- leaving `staged` -----

  predicate Leaves(db: Db, e: Event, now: real, id: OpId) {
    id in db.ops && db.ops[id].status == Staged && id in Apply(db, e, now).ops
        && Apply(db, e, now).ops[id].status != Staged
  }

  /** Only a queue call leaves `staged`, consuming one live unused confirmation of this very operation. */
  lemma {:induction false} LeavingNeedsConfirmation(db: Db, e: Event, now: real, id: OpId)
    requires Inv(db) && Trusted(db, e) && Leaves(db, e, now, id)
    ensures e.Queue? && e.id == id && e.digest in db.confirmations
    ensures var c := db.confirmations[e.digest];
            c.operation == id && c.usedAt == None && c.expiresAt > now && c.manifest == db.ops[id].manifest
    ensures var db' := Apply(db, e, now);
            && db'.confirmations[e.digest].usedAt == Some(now) && db'.ops[id].confirmation == e.digest
            && db'.ops[id].status == Queued
  {
    assert Shaped(db.ops[id]);
  }

  /** How one operation may move in one step; `observed` says whether an observation of it was taken. */
  ghost predicate Progress(op: Op, op': Op, observed: bool) {
    && Rank(op.phase) <= Rank(op'.phase)
    && (op.phase != op'.phase ==> Rank(op.phase) < Rank(op'.phase))
    && (op.status != Staged ==> op'.status != Staged && op'.confirmation == op.confirmation)
    && (if observed then op'.executorAt > op.executorAt else op'.executorAt == op.executorAt)
    && (Terminal(op.status) ==> op'.(publishedAt := None) == op.(publishedAt := None))
  }

  lemma {:induction false} RankRises(from: Stage, next: Stage)
    requires TransitionAllowed(from, next) && !Terminal(from)
    ensures Rank(from) <= Rank(next) || Rank(from) == 13
    ensures from != next ==> Rank(from) < Rank(next) || Rank(from) == 13
  {
  }

  lemma {:induction false} ObserveProgress(db: Db, e: Event, now: real)
    requires e.Observe? && Observes(db, e) && TrustedPayload(e.payload) && Shaped(db.ops[e.id])
    ensures e.id in Apply(db, e, now).ops && Progress(db.ops[e.id], Apply(db, e, now).ops[e.id], true)
  {
    RankRises(db.ops[e.id].phase, e.payload.phase);
  }

  lemma {:induction false} QueueProgress(db: Db, e: Event, now: real)
    requires e.Queue? && e.id in db.ops && Shaped(db.ops[e.id])
    ensures e.id in Apply(db, e, now).ops && Progress(db.ops[e.id], Apply(db, e, now).ops[e.id], false)
  {
  }

  lemma {:induction false} NoteProgress(db: Db, e: Event, now: real)
    requires (e.Publish? || e.NoteError?) && e.id in db.ops && Shaped(db.ops[e.id])
    ensures e.id in Apply(db, e, now).ops && Progress(db.ops[e.id], Apply(db, e, now).ops[e.id], false)
  {
  }

  lemma {:induction false} OthersUntouched(db: Db, e: Event, now: real, id: OpId)
    requires id in db.ops
    requires (e.Observe? && !Observes(db, e)) || ((e.Observe? || e.Queue? || e.Publish? || e.NoteError?) ==> e.id != id)
    ensures id in Apply(db, e, now).ops && Apply(db, e, now).ops[id] == db.ops[id]
  {
  }

  lemma {:induction false} ProgressStep(db: Db, e: Event, now: real, id: OpId)
    requires Trusted(db, e) && id in db.ops && Shaped(db.ops[id])
    ensures id in Apply(db, e, now).ops
    ensures Progress(db.ops[id], Apply(db, e, now).ops[id], e.Observe? && e.id == id && Observes(db, e))
  {
    if e.Observe? && e.id == id && Observes(db, e) {
      ObserveProgress(db, e, now);
    } else if e.Queue? && e.id == id {
      QueueProgress(db, e, now);
    } else if (e.Publish? || e.NoteError?) && e.id == id {
      NoteProgress(db, e, now);
    } else {
      OthersUntouched(db, e, now, id);
    }
  }

  /** What `Progress` adds up to over any number of steps. */
  ghost predicate Ahead(op: Op, op': Op) {
    && Rank(op.phase) <= Rank(op'.phase) && op.executorAt <= op'.executorAt
    && (op.status != Staged ==> op'.status != Staged && op'.confirmation == op.confirmation)
    && (Terminal(op.status) ==> op'.(publishedAt := None) == op.(publishedAt := None))
  }

  ghost predicate Present(dbs: seq<Db>, id: OpId, i: nat, j: nat) {
    i <= j < |dbs| && forall k :: i <= k <= j ==> id in dbs[k].ops
  }

  /** If the operation is present at point k, the next step keeps it and makes progress. */
  ghost predicate ProgressAt(dbs: seq<Db>, id: OpId, k: nat) {
    k + 1 < |dbs| && id in dbs[k].ops ==> id in dbs[k + 1].ops && Moves(dbs[k].ops[id], dbs[k + 1].ops[id])
  }

  ghost predicate Moves(op: Op, op': Op) {
    Progress(op, op', false) || Progress(op, op', true)
  }

  /** The operation is there and makes only progress, from point i to point j. */
  ghost predicate Progressing(dbs: seq<Db>, id: OpId, i: nat, j: nat) {
    Present(dbs, id, i, j) && forall k: nat :: ProgressAt(dbs, id, k)
  }

  lemma {:induction false} RunKeepsProgress(dbs: seq<Db>, events: seq<Event>, clock: seq<real>, id: OpId)
    requires IsRun(dbs, events, clock)
    ensures forall k: nat :: ProgressAt(dbs, id, k)
  {
    forall k: nat ensures ProgressAt(dbs, id, k) {
      if k + 1 < |dbs| && id in dbs[k].ops {
        RunInv(dbs, events, clock, k);
        ProgressStep(dbs[k], events[k], clock[k], id);
      }
    }
  }

  lemma {:induction false} StretchProgresses(dbs: seq<Db>, id: OpId, i: nat, j: nat)
    requires (forall k: nat :: ProgressAt(dbs, id, k)) && i <= j < |dbs| && id in dbs[i].ops
    ensures Progressing(dbs, id, i, j)
    decreases j
  {
    if i < j {
      StretchProgresses(dbs, id, i, j - 1);
      assert ProgressAt(dbs, id, j - 1);
    }
  }

  lemma {:induction false} RunProgresses(dbs: seq<Db>, events: seq<Event>, clock: seq<real>, id: OpId, i: nat, j: nat)
    requires IsRun(dbs, events, clock) && i <= j < |dbs| && id in dbs[i].ops
    ensures Progressing(dbs, id, i, j)
  {
    RunKeepsProgress(dbs, events, clock, id);
    StretchProgresses(dbs, id, i, j);
  }

  lemma {:induction false} AheadStep(op: Op, op1: Op, op2: Op)
    requires Ahead(op, op1) && Moves(op1, op2)
    ensures Ahead(op, op2)
  {
  }

  lemma {:induction false} ProgressAddsUp(dbs: seq<Db>, id: OpId, i: nat, j: nat)
    requires Progressing(dbs, id, i, j)
    ensures Ahead(dbs[i].ops[id], dbs[j].ops[id])
    decreases j
  {
    if i < j {
      ProgressAddsUp(dbs, id, i, j - 1);
      assert ProgressAt(dbs, id, j - 1);
      AheadStep(dbs[i].ops[id], dbs[j - 1].ops[id], dbs[j].ops[id]);
    }
  }

  /** Over any stretch of a run: ranks and executor times rise, and a terminal result is final. */
  lemma {:induction false} ProgressOnly(dbs: seq<Db>, events: seq<Event>, clock: seq<real>, id: OpId, i: nat, j: nat)
    requires IsRun(dbs, events, clock) && i <= j < |dbs| && id in dbs[i].ops
    ensures id in dbs[j].ops && Ahead(dbs[i].ops[id], dbs[j].ops[id])
  {
    RunProgresses(dbs, events, clock, id, i, j);
    ProgressAddsUp(dbs, id, i, j);
  }

  /** An operation leaves `staged` at most once, and no confirmation starts two operations. */
  lemma {:induction false} LeavesStagedOnce(dbs: seq<Db>, events: seq<Event>, clock: seq<real>, a: OpId, b: OpId,
                                            i: nat, j: nat)
    requires IsRun(dbs, events, clock) && i < j < |events|
    ensures Leaves(dbs[i], events[i], clock[i], a) && Leaves(dbs[j], events[j], clock[j], b) ==>
              a != b && events[i].Queue? && events[j].Queue? && events[i].digest != events[j].digest
  {
    if Leaves(dbs[i], events[i], clock[i], a) && Leaves(dbs[j], events[j], clock[j], b) {
      RunInv(dbs, events, clock, i);
      RunInv(dbs, events, clock, j);
      RunInv(dbs, events, clock, i + 1);
      LeavingNeedsConfirmation(dbs[i], events[i], clock[i], a);
      LeavingNeedsConfirmation(dbs[j], events[j], clock[j], b);
      assert a in dbs[i + 1].ops;
      ProgressOnly(dbs, events, clock, a, i + 1, j);
      assert Authorized(dbs[j], a);
    }
  }

  /** Presenting the consumed token again returns the row and writes nothing. */
  lemma {:induction false} ReplayChangesNothing(db: Db, e: Event, now: real)
    requires e.Queue? && Addressed(db, e) && db.ops[e.id].status != Staged
    ensures Apply(db, e, now) == db
    ensures Accepted(db, e, now) <==> e.digest == db.ops[e.id].confirmation
  {
  }

  // ----- the number of phase changes -----

  ghost function PhaseChanges(dbs: seq<Db>, id: OpId, i: nat, j: nat): nat
    requires Present(dbs, id, i, j)
    decreases j
  {
    if i == j then 0
    else PhaseChanges(dbs, id, i, j - 1) + if dbs[j].ops[id].phase != dbs[j - 1].ops[id].phase then 1 else 0
  }

  lemma {:induction false} ChangesFitInRanks(dbs: seq<Db>, id: OpId, i: nat, j: nat)
    requires Progressing(dbs, id, i, j)
    ensures PhaseChanges(dbs, id, i, j) + Rank(dbs[i].ops[id].phase) <= Rank(dbs[j].ops[id].phase)
    decreases j
  {
    if i < j {
      ChangesFitInRanks(dbs, id, i, j - 1);
      assert ProgressAt(dbs, id, j - 1);
    }
  }

  lemma {:induction false} StartedRank(op: Op)
    requires Shaped(op)
    ensures Rank(op.phase) <= 12 && (op.status != Staged ==> Rank(op.phase) >= 1)
  {
  }

  lemma {:induction false} RunShapes(dbs: seq<Db>, events: seq<Event>, clock: seq<real>, i: nat, id: OpId)
    requires IsRun(dbs, events, clock) && i < |dbs| && id in dbs[i].ops
    ensures Shaped(dbs[i].ops[id])
  {
    RunInv(dbs, events, clock, i);
  }

  /** After it was queued, an operation changes phase at most eleven times. */
  lemma {:induction false} AtMostElevenChanges(dbs: seq<Db>, events: seq<Event>, clock: seq<real>, id: OpId,
                                               i: nat, j: nat)
    requires IsRun(dbs, events, clock) && i <= j < |dbs| && id in dbs[i].ops && dbs[i].ops[id].status != Staged
    ensures Present(dbs, id, i, j) && PhaseChanges(dbs, id, i, j) <= 11
  {
    RunProgresses(dbs, events, clock, id, i, j);
    RunShapes(dbs, events, clock, i, id);
    RunShapes(dbs, events, clock, j, id);
    ChangesFitInRanks(dbs, id, i, j);
    StartedRank(dbs[i].ops[id]);
    StartedRank(dbs[j].ops[id]);
  }

  // ----- both halves of the reader assumption are needed -----

  function Repeat(c: char, n: nat): string {
    seq(n, _ => c)
  }

  const OP_ID: OpId := Repeat('a', 32)
  const MANIFEST := Repeat('b', 64)
  const SESSION: Digest := Repeat('c', 64)
  const CREATION := Create(OP_ID, ApplyUpdate, "2", "release", MANIFEST, "1", 7, SESSION)

  function Confirming(token: Digest): Event {
    Confirm(token, Confirmation(7, ApplyUpdate, 0.0, None, SESSION, "2", MANIFEST, OP_ID), 30, true)
  }

  function Queueing(token: Digest): Event {
    Queue(OP_ID, token, 7, SESSION, ApplyUpdate, "2", true)
  }

  function Report(status: Stage, phase: Stage, at: real): Event {
    Observe(OP_ID, Payload(OP_ID, ApplyUpdate, "2", status, phase, "1", "", at))
  }

  /** The only operation is the one of these events. */
  predicate OnlyOp(db: Db) {
    && db.ops.Keys == {OP_ID}
    && var op := db.ops[OP_ID];
       op.action == ApplyUpdate && op.version == "2" && op.manifest == MANIFEST && op.requestedBy == 7
       && op.session == SESSION
  }

  lemma {:induction false} ConfirmAndQueue(db: Db, token: Digest)
    requires OnlyOp(db) && db.ops[OP_ID].status == Staged && token !in db.bound
    ensures var db1 := Apply(db, Confirming(token), 0.0);
            var db2 := Apply(db1, Queueing(token), 0.0);
            && Leaves(db1, Queueing(token), 0.0, OP_ID) && OnlyOp(db2) && db2.bound == db.bound[token := OP_ID]
            && var op := db2.ops[OP_ID];
               && op.status == Queued && op.phase == Queued && op.requestedAt.Some?
               && op.executorAt == db.ops[OP_ID].executorAt
  {
    var db1 := Apply(db, Confirming(token), 0.0);
    assert db1.ops == db.ops && NoneActive(db1) && Queues(db1, Queueing(token), 0.0);
  }

  /** A run without repeated tokens, whose observations never report a terminal phase. */
  ghost predicate IsTame(dbs: seq<Db>, events: seq<Event>, clock: seq<real>) {
    && Follows(dbs, events, clock)
    && forall i :: 0 <= i < |events| ==>
         FreshToken(dbs[i], events[i]) && (events[i].Observe? ==> !Terminal(events[i].payload.phase))
  }

  lemma {:induction false} TameGrows(dbs: seq<Db>, events: seq<Event>, clock: seq<real>, e: Event)
    requires IsTame(dbs, events, clock) && FreshToken(dbs[|events|], e)
    requires e.Observe? ==> !Terminal(e.payload.phase)
    ensures IsTame(dbs + [Apply(dbs[|events|], e, 0.0)], events + [e], clock + [0.0])
  {
    FollowsGrows(dbs, events, clock, e, 0.0);
  }

  /** Two more steps: a confirmation, and the operation leaves `staged`. */
  lemma {:induction false} QueueNext(dbs: seq<Db>, events: seq<Event>, clock: seq<real>, token: Digest)
    returns (dbs': seq<Db>, events': seq<Event>, clock': seq<real>)
    requires IsTame(dbs, events, clock) && OnlyOp(dbs[|events|]) && dbs[|events|].ops[OP_ID].status == Staged
    requires token !in dbs[|events|].bound
    ensures IsTame(dbs', events', clock') && dbs <= dbs' && clock <= clock'
    ensures events' == events + [Confirming(token), Queueing(token)]
    ensures var n := |events|;
            && Leaves(dbs'[n + 1], events'[n + 1], clock'[n + 1], OP_ID) && OnlyOp(dbs'[n + 2])
            && dbs'[n + 2].bound == dbs[n].bound[token := OP_ID]
            && var op := dbs'[n + 2].ops[OP_ID];
               && op.status == Queued && op.phase == Queued && op.requestedAt.Some?
               && op.executorAt == dbs[n].ops[OP_ID].executorAt
  {
    var n := |events|;
    ConfirmAndQueue(dbs[n], token);
    TameGrows(dbs, events, clock, Confirming(token));
    var dbs1, events1, clock1 := dbs + [Apply(dbs[n], Confirming(token), 0.0)], events + [Confirming(token)],
        clock + [0.0];
    TameGrows(dbs1, events1, clock1, Queueing(token));
    dbs', clock' := dbs1 + [Apply(dbs1[n + 1], Queueing(token), 0.0)], clock1 + [0.0];
    events' := events1 + [Queueing(token)];
    assert events' == events + [Confirming(token), Queueing(token)];
  }

  /** A run up to the point where the operation has been queued for the first time. */
  lemma {:induction false} QueuedRun() returns (dbs: seq<Db>, events: seq<Event>, clock: seq<real>)
    ensures IsTame(dbs, events, clock) && events == [CREATION, Confirming("t1"), Queueing("t1")]
    ensures Leaves(dbs[2], events[2], clock[2], OP_ID) && OnlyOp(dbs[3]) && dbs[3].bound == map["t1" := OP_ID]
    ensures var op := dbs[3].ops[OP_ID];
            op.status == Queued && op.phase == Queued && op.requestedAt.Some? && op.executorAt == 0.0
  {
    var created := Apply(EMPTY, CREATION, 0.0);
    assert Accepted(EMPTY, CREATION, 0.0) && OnlyOp(created) && created.bound == map[];
    TameGrows([EMPTY], [], [], CREATION);
    assert [EMPTY] + [created] == [EMPTY, created] && [] + [CREATION] == [CREATION] && [] + [0.0] == [0.0];
    dbs, events, clock := QueueNext([EMPTY, created], [CREATION], [0.0], "t1");
    assert events == [CREATION, Confirming("t1"), Queueing("t1")];
  }

  /** A reader that reports `staged` lets one operation leave `staged` twice. */
  lemma {:induction false} StagedReportRestages() returns (dbs: seq<Db>, events: seq<Event>, clock: seq<real>)
    ensures IsTame(dbs, events, clock) && |events| == 6
    ensures Leaves(dbs[2], events[2], clock[2], OP_ID) && Leaves(dbs[5], events[5], clock[5], OP_ID)
  {
    var dbs0, events0, clock0 := QueuedRun();
    var report := Report(Staged, Queued, 1.0);
    var back := Restaged(dbs0[3], report);
    TameGrows(dbs0, events0, clock0, report);
    var dbs1, events1, clock1 := dbs0 + [back], events0 + [report], clock0 + [0.0];
    dbs, events, clock := QueueNext(dbs1, events1, clock1, "t2");
    assert dbs[2] == dbs1[2] == dbs0[2] && events[2] == events0[2] && clock[2] == clock1[2] == clock0[2];
  }

  lemma {:induction false} Restaged(db: Db, report: Event) returns (back: Db)
    requires OnlyOp(db) && db.ops[OP_ID].status == Queued && db.ops[OP_ID].phase == Queued
    requires db.ops[OP_ID].requestedAt.Some? && db.ops[OP_ID].executorAt == 0.0 && report == Report(Staged, Queued, 1.0)
    ensures back == Apply(db, report, 0.0) && OnlyOp(back) && back.ops[OP_ID].status == Staged && back.bound == db.bound
  {
    assert Observes(db, report);
    back := Apply(db, report, 0.0);
  }

  function OtherEnd(phase: Stage): Stage {
    if phase == Succeeded then Failed else Succeeded
  }

  lemma {:induction false} EndlessStep(db: Db, n: nat) returns (e: Event)
    requires n > 0 && MayGoOn(db, n - 1)
    ensures e.Observe? && e.payload.status == Building && Terminal(e.payload.phase)
    ensures MayGoOn(Apply(db, e, 0.0), n) && Apply(db, e, 0.0).ops[OP_ID].phase != db.ops[OP_ID].phase
  {
    e := Report(Building, OtherEnd(db.ops[OP_ID].phase), n as real);
    assert Observes(db, e);
  }

  /** A run of 3 + n steps without repeated tokens or `staged` reports, all of whose last n steps change the phase. */
  ghost predicate IsEndless(dbs: seq<Db>, events: seq<Event>, clock: seq<real>, n: nat) {
    && Follows(dbs, events, clock) && |events| == 3 + n
    && (forall i :: 0 <= i < |events| ==>
          FreshToken(dbs[i], events[i]) && (events[i].Observe? ==> events[i].payload.status != Staged))
    && Present(dbs, OP_ID, 3, 3 + n) && dbs[3].ops[OP_ID].status == Queued && PhaseChanges(dbs, OP_ID, 3, 3 + n) == n
  }

  ghost predicate MayGoOn(db: Db, n: nat) {
    && OnlyOp(db) && db.ops[OP_ID].requestedAt.Some? && !Terminal(db.ops[OP_ID].status)
    && db.ops[OP_ID].executorAt == n as real
  }

  lemma {:induction false} OneMoreChange(dbs: seq<Db>, db: Db, n: nat)
    requires |dbs| == 4 + n && Present(dbs, OP_ID, 3, 3 + n) && PhaseChanges(dbs, OP_ID, 3, 3 + n) == n
    requires OP_ID in db.ops && db.ops[OP_ID].phase != dbs[3 + n].ops[OP_ID].phase
    ensures Present(dbs + [db], OP_ID, 3, 4 + n) && PhaseChanges(dbs + [db], OP_ID, 3, 4 + n) == n + 1
  {
    SameChanges(dbs, dbs + [db], OP_ID, 3, 3 + n);
  }

  lemma {:induction false} EndlessGrows(dbs: seq<Db>, events: seq<Event>, clock: seq<real>, n: nat, e: Event, db: Db)
    requires IsEndless(dbs, events, clock, n) && e.Observe? && e.payload.status != Staged
    requires db == Apply(dbs[3 + n], e, 0.0) && OP_ID in db.ops && db.ops[OP_ID].phase != dbs[3 + n].ops[OP_ID].phase
    ensures IsEndless(dbs + [db], events + [e], clock + [0.0], n + 1)
  {
    FollowsGrows(dbs, events, clock, e, 0.0);
    OneMoreChange(dbs, db, n);
  }

  /** An endless run so far that can go on. */
  ghost predicate GoesOn(dbs: seq<Db>, events: seq<Event>, clock: seq<real>, n: nat) {
    IsEndless(dbs, events, clock, n) && MayGoOn(dbs[3 + n], n)
  }

  lemma {:induction false} EndlessStart() returns (dbs: seq<Db>, events: seq<Event>, clock: seq<real>)
    ensures GoesOn(dbs, events, clock, 0)
  {
    dbs, events, clock := QueuedRun();
    assert forall i :: 0 <= i < 3 ==> !events[i].Observe?;
  }

  lemma {:induction false} EndlessNext(dbs: seq<Db>, events: seq<Event>, clock: seq<real>, n: nat)
    returns (dbs': seq<Db>, events': seq<Event>, clock': seq<real>)
    requires GoesOn(dbs, events, clock, n)
    ensures GoesOn(dbs', events', clock', n + 1)
  {
    var e := EndlessStep(dbs[3 + n], n + 1);
    var db := Apply(dbs[3 + n], e, 0.0);
    EndlessGrows(dbs, events, clock, n, e, db);
    dbs', events', clock' := dbs + [db], events + [e], clock + [0.0];
  }

  /**
   * A reader that reports a terminal phase with a status that is not terminal
   * makes an operation change phase as often as it likes.
   */
  lemma {:induction false} TerminalPhaseWithoutStatus(n: nat)
    returns (dbs: seq<Db>, events: seq<Event>, clock: seq<real>)
    ensures GoesOn(dbs, events, clock, n)
  {
    if n == 0 {
      dbs, events, clock := EndlessStart();
    } else {
      dbs, events, clock := TerminalPhaseWithoutStatus(n - 1);
      dbs, events, clock := EndlessNext(dbs, events, clock, n - 1);
    }
  }

  lemma {:induction false} SameChanges(a: seq<Db>, b: seq<Db>, id: OpId, i: nat, j: nat)
    requires Present(a, id, i, j) && |a| <= |b| && a == b[..|a|]
    ensures Present(b, id, i, j) && PhaseChanges(b, id, i, j) == PhaseChanges(a, id, i, j)
    decreases j
  {
    assert forall k :: i <= k <= j ==> b[k] == a[k];
    if i < j {
      SameChanges(a, b, id, i, j - 1);
    }
  }
}
