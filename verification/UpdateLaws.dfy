/**
 * What the update tables promise about their columns: who may do what and
 * when, what each call writes, and how often a confirmation token serves.
 */
module UpdateLaws {
  import opened Common
  import opened UpdateSpec
  import opened UpdateRuns

  const FINISHED := {Succeeded, RolledBack, Failed, RecoveryFailed}

  /** The phases in the order in which an executor goes through them. */
  const PHASES := [Staged, Queued, VerifyingPackage, Building, Preflighting, Preparing, Stopping, BackingUp,
                   Migrating, Switching, Verifying, RollingBack]

  /** Every operation is still staged or has finished. */
  predicate Idle(db: Db) {
    forall id :: id in db.ops ==> db.ops[id].status == Staged || db.ops[id].status in FINISHED
  }

  predicate HexDigits(s: string) {
    forall i :: 0 <= i < |s| ==> s[i] in "0123456789abcdef"
  }

  predicate Digits(s: string, n: nat) {
    |s| == n && HexDigits(s)
  }

  lemma {:induction false} HexMeans(s: string, n: nat)
    ensures IsHex(s, n) <==> Digits(s, n)
  {
    assert forall c: char :: c in "0123456789abcdef" <==> '0' <= c <= '9' || 'a' <= c <= 'f' by {
      HexChars();
    }
  }

  lemma {:induction false} HexChars()
    ensures forall c: char :: c in "0123456789abcdef" <==> '0' <= c <= '9' || 'a' <= c <= 'f'
  {
    var hex := "0123456789abcdef";
    forall c: char | '0' <= c <= '9' || 'a' <= c <= 'f' ensures c in hex {
      var i := if c <= '9' then c as int - '0' as int else 10 + c as int - 'a' as int;
      assert hex[i] == c;
    }
  }

  /** An idle table has no operation that the source would call active. */
  lemma {:induction false} IdleMeans(db: Db)
    ensures NoneActive(db) <==> Idle(db)
  {
  }

  // ----- the calls -----

  /** A confirmation is issued to a live administrator session that names everything, unused, for 30 to 300 seconds. */
  lemma {:induction false} ConfirmMeans(db: Db, digest: Digest, c: Confirmation, ttl: int, admin: bool, now: real)
    ensures var e := Confirm(digest, c, ttl, admin);
            && (Accepted(db, e, now) <==>
                  admin && c.session != "" && c.version != "" && Digits(c.manifest, 64) && Digits(c.operation, 32))
            && (!Accepted(db, e, now) ==> Apply(db, e, now) == db)
            && (Accepted(db, e, now) ==>
                  var db' := Apply(db, e, now);
                  && db'.ops == db.ops && db'.mirror == db.mirror && digest in db'.confirmations
                  && db'.confirmations == db.confirmations[digest := db'.confirmations[digest]]
                  && var kept := db'.confirmations[digest];
                     && kept.user == c.user && kept.action == c.action && kept.session == c.session
                     && kept.version == c.version && kept.manifest == c.manifest && kept.operation == c.operation
                     && kept.usedAt == None && (30 <= ttl <= 300 ==> kept.expiresAt == now + ttl as real)
                     && (ttl < 30 ==> kept.expiresAt == now + 30.0) && (ttl > 300 ==> kept.expiresAt == now + 300.0))
  {
    HexMeans(c.manifest, 64);
    HexMeans(c.operation, 32);
  }

  /** The columns of a confirmation that this caller may use up now. */
  predicate Usable(c: Confirmation, user: int, action: Action, session: Digest, version: string, manifest: string,
                   id: OpId, now: real)
  {
    && c.usedAt == None && now < c.expiresAt && (c.user, c.action, c.session) == (user, action, session)
    && (c.version, c.manifest, c.operation) == (version, manifest, id)
  }

  /** Consuming a confirmation directly. */
  lemma {:induction false} ConsumeMeans(db: Db, e: Event, now: real)
    requires e.Consume?
    ensures Accepted(db, e, now) <==>
              && e.admin && e.session != "" && e.version != "" && Digits(e.manifest, 64) && Digits(e.id, 32)
              && e.digest in db.confirmations
              && Usable(db.confirmations[e.digest], e.user, e.action, e.session, e.version, e.manifest, e.id, now)
    ensures !Accepted(db, e, now) ==> Apply(db, e, now) == db
    ensures Accepted(db, e, now) ==>
              var c := db.confirmations[e.digest];
              Apply(db, e, now) ==
              db.(confirmations := db.confirmations[e.digest := c.(usedAt := Some(now))])
  {
    HexMeans(e.manifest, 64);
    HexMeans(e.id, 32);
  }

  /** The mirrored row of an operation. */
  predicate Shows(db: Db, id: OpId) {
    && id in db.ops && MirrorKey(db.ops[id].version, db.ops[id].channel) in db.mirror
    && var op, row := db.ops[id], db.mirror[MirrorKey(db.ops[id].version, db.ops[id].channel)];
       && row.status == (if op.status == Queued then Requested(op.action) else Mirrored(op.status))
       && row.manifest == op.manifest && row.error == op.error && row.requestedBy == op.requestedBy
       && row.updatedAt == op.updatedAt
  }

  /** One operation was written and mirrored; no other operation or mirrored row changed. */
  predicate WritesOnly(db: Db, db': Db, id: OpId) {
    && Shows(db', id) && db'.bound == db.bound && db'.ops == db.ops[id := db'.ops[id]]
    && var key := MirrorKey(db'.ops[id].version, db'.ops[id].channel);
       db'.mirror == db.mirror[key := db'.mirror[key]]
  }

  /** Staging: only a new, well-formed operation while every other one is staged or finished. */
  lemma {:induction false} CreateMeans(db: Db, e: Event, now: real)
    requires e.Create?
    ensures Accepted(db, e, now) <==>
              && Idle(db) && e.id !in db.ops && e.requestedBy > 0
              && (e.channel == "stable" || e.channel == "beta" || e.channel == "release")
              && Digits(e.id, 32) && Digits(e.manifest, 64) && Digits(e.session, 64)
    ensures !Accepted(db, e, now) ==> Apply(db, e, now) == db
    ensures Accepted(db, e, now) ==>
              var db' := Apply(db, e, now);
              && WritesOnly(db, db', e.id) && db'.confirmations == db.confirmations
              && var op := db'.ops[e.id];
                 && op.action == e.action && op.version == e.version && op.channel == e.channel
                 && op.manifest == e.manifest && op.expectedVersion == op.currentVersion == e.expectedVersion
                 && op.requestedBy == e.requestedBy && op.session == e.session && op.confirmation == ""
                 && op.status == op.phase == Staged && op.error == "" && op.requestedAt == op.publishedAt == None
                 && op.executorAt == 0.0 && op.updatedAt == now
  {
    HexMeans(e.id, 32);
    HexMeans(e.manifest, 64);
    HexMeans(e.session, 64);
    IdleMeans(db);
  }

  /** The caller of a queueing is a live administrator session, the user and session that staged this very operation. */
  predicate OwnCall(op: Op, e: Event)
    requires e.Queue?
  {
    && e.admin && e.user == op.requestedBy && e.session == op.session && e.action == op.action
    && e.version == op.version
  }

  /**
   * Queueing: answered only to the administrator and session that staged the
   * operation; a staged one goes through with a usable confirmation while the
   * table is idle, a started one is answered for the token that started it.
   */
  lemma {:induction false} QueueMeans(db: Db, e: Event, now: real)
    requires e.Queue?
    ensures Accepted(db, e, now) <==>
              && e.id in db.ops && OwnCall(db.ops[e.id], e)
              && if db.ops[e.id].status == Staged then
                   && Idle(db) && e.digest in db.confirmations
                   && Usable(db.confirmations[e.digest], e.user, e.action, e.session, e.version,
                             db.ops[e.id].manifest, e.id, now)
                 else db.ops[e.id].confirmation == e.digest
    ensures !Accepted(db, e, now) || db.ops[e.id].status != Staged ==> Apply(db, e, now) == db
  {
    IdleMeans(db);
  }

  lemma {:induction false} QueueWrites(db: Db, e: Event, now: real)
    requires e.Queue? && Accepted(db, e, now) && db.ops[e.id].status == Staged
    ensures var db', op := Apply(db, e, now), db.ops[e.id];
            && WritesOnly(db, db', e.id) && e.digest in db.confirmations
            && db'.confirmations ==
               db.confirmations[e.digest := db.confirmations[e.digest].(usedAt := Some(now))]
            && db'.ops[e.id] == op.(status := Queued, phase := Queued, error := "", confirmation := e.digest,
                                    requestedAt := Some(now), updatedAt := now)
  {
  }

  /**
   * In every reachable state an operation leaves `staged` only through its own
   * administrator and session, with a confirmation whose every column agrees.
   */
  lemma {:induction false} LeavingIsAuthorised(dbs: seq<Db>, events: seq<Event>, clock: seq<real>, i: nat, id: OpId)
    requires IsRun(dbs, events, clock) && i < |events| && id in dbs[i].ops
    requires dbs[i].ops[id].status == Staged && id in dbs[i + 1].ops && dbs[i + 1].ops[id].status != Staged
    ensures var e, op := events[i], dbs[i].ops[id];
            && e.Queue? && e.id == id && e.admin && e.digest in dbs[i].confirmations
            && var c := dbs[i].confirmations[e.digest];
               && e.user == op.requestedBy == c.user && e.session == op.session == c.session
               && e.action == op.action == c.action && e.version == op.version == c.version
               && op.manifest == c.manifest && c.operation == id && c.usedAt == None && clock[i] < c.expiresAt
  {
    RunInv(dbs, events, clock, i);
    assert Leaves(dbs[i], events[i], clock[i], id);
    LeavingNeedsConfirmation(dbs[i], events[i], clock[i], id);
    QueueMeans(dbs[i], events[i], clock[i]);
  }

  /** What is staged, then confirmed by the same session, can be queued by it while the table is idle. */
  lemma {:induction false} ConfirmedIsQueued(db: Db, digest: Digest, ttl: int, id: OpId, now: real, later: real)
    requires id in db.ops && db.ops[id].status == Staged && Idle(db) && now <= later < now + 30.0
    requires var op := db.ops[id];
             && op.session != "" && op.version != "" && Digits(op.manifest, 64) && Digits(id, 32)
    ensures var op := db.ops[id];
            var c := Confirmation(op.requestedBy, op.action, 0.0, None, op.session, op.version, op.manifest, id);
            var db' := Apply(db, Confirm(digest, c, ttl, true), now);
            var queue := Queue(id, digest, op.requestedBy, op.session, op.action, op.version, true);
            Accepted(db', queue, later) && Apply(db', queue, later).ops[id].status == Queued
  {
    var op := db.ops[id];
    var c := Confirmation(op.requestedBy, op.action, 0.0, None, op.session, op.version, op.manifest, id);
    ConfirmMeans(db, digest, c, ttl, true, now);
    var db' := Apply(db, Confirm(digest, c, ttl, true), now);
    var queue := Queue(id, digest, op.requestedBy, op.session, op.action, op.version, true);
    QueueMeans(db', queue, later);
    QueueWrites(db', queue, later);
  }

  /** Publishing keeps the first time, and forgets the error while the executor has not reported. */
  lemma {:induction false} PublishMeans(db: Db, id: OpId, now: real)
    ensures var db' := Apply(db, Publish(id), now);
            if id in db.ops && db.ops[id].requestedAt.Some? then
              var op := db.ops[id];
              && id in db'.ops && db' == db.(ops := db.ops[id := db'.ops[id]])
              && db'.ops[id].publishedAt.Some?
              && (op.publishedAt.Some? ==> db'.ops[id].publishedAt == op.publishedAt)
              && (op.publishedAt.None? ==> db'.ops[id].publishedAt == Some(now))
              && db'.ops[id].error == (if op.executorAt == 0.0 then "" else op.error)
              && db'.ops[id].(publishedAt := None, error := "") == op.(publishedAt := None, error := "")
            else db' == db
  {
  }

  predicate Letter(c: char) {
    'a' <= c <= 'z'
  }

  /** A letter followed by at most seventy-nine letters, digits or underscores. */
  predicate IsCode(code: string) {
    && code != "" && Letter(code[0]) && |code| < 81
    && forall c: char :: c in code ==> Letter(c) || '0' <= c <= '9' || c == '_'
  }

  lemma {:induction false} CodeMeans(code: string)
    ensures SafeCode(code) == if IsCode(code) then code else "update_state_invalid"
  {
    assert forall i :: 0 <= i < |code| ==> code[i] in code;
  }

  /** An error is noted on unfinished operations only, as given if it is a code. */
  lemma {:induction false} ErrorMeans(db: Db, id: OpId, code: string, now: real)
    ensures Apply(db, NoteError(id, code), now) ==
            if id in db.ops && db.ops[id].status !in FINISHED
            then db.(ops := db.ops[id := db.ops[id].(error := if IsCode(code) then code else "update_state_invalid")])
            else db
  {
    CodeMeans(code);
  }

  // ----- observations -----

  predicate At(p: Stage, i: nat) {
    i < |PHASES| && PHASES[i] == p
  }

  /** Forward in the list of phases and never back to `staged`; out of `rolling_back` only to an end. */
  ghost predicate Forward(from: Stage, next: Stage) {
    || next in FINISHED
    || (exists i: nat, j: nat :: At(from, i) && At(next, j) && i <= j && 0 < j && (i == 11 ==> j == 11))
  }

  lemma {:induction false} PhaseMeans(from: Stage, next: Stage)
    ensures TransitionAllowed(from, next) <==> Forward(from, next)
    ensures forall i: nat :: At(from, i) <==> Order(from) == Some(i)
  {
    OrderIsPosition(from);
    OrderIsPosition(next);
    if Order(from).Some? && Order(next).Some? {
      assert At(from, Order(from).value) && At(next, Order(next).value);
    }
  }

  lemma {:induction false} OrderIsPosition(p: Stage)
    ensures forall i: nat :: At(p, i) <==> Order(p) == Some(i)
  {
    assert |PHASES| == 12;
  }

  /** An executor report is taken exactly when it is newer, about this unfinished operation, and moves forward. */
  lemma {:induction false} ObserveMeans(db: Db, id: OpId, p: Payload, now: real)
    ensures Accepted(db, Observe(id, p), now) <==>
              && id in db.ops && db.ops[id].requestedAt.Some? && db.ops[id].status !in FINISHED
              && p.at > db.ops[id].executorAt && p.operation == id && p.action == db.ops[id].action
              && p.version == db.ops[id].version && Forward(db.ops[id].phase, p.phase)
    ensures !Accepted(db, Observe(id, p), now) ==> Apply(db, Observe(id, p), now) == db
  {
    if id in db.ops {
      PhaseMeans(db.ops[id].phase, p.phase);
    }
  }

  lemma {:induction false} ObserveWrites(db: Db, id: OpId, p: Payload, now: real)
    requires Accepted(db, Observe(id, p), now)
    ensures var db', op := Apply(db, Observe(id, p), now), db.ops[id];
            && WritesOnly(db, db', id) && db'.confirmations == db.confirmations
            && db'.ops[id].status == p.status && db'.ops[id].phase == p.phase
            && db'.ops[id].currentVersion == p.currentVersion && db'.ops[id].error == p.error
            && db'.ops[id].executorAt == p.at
            && db'.ops[id].publishedAt == (if op.publishedAt.Some? then op.publishedAt else Some(p.at))
            && db'.ops[id].updatedAt == (if now < p.at then p.at else now)
            && op == db'.ops[id].(status := op.status, phase := op.phase, currentVersion := op.currentVersion,
                                  error := op.error, executorAt := op.executorAt, publishedAt := op.publishedAt,
                                  updatedAt := op.updatedAt)
  {
  }

  /** Retention removes used or expired confirmations and rows that ended well enough, and nothing else. */
  lemma {:induction false} PruneMeans(db: Db, digests: set<Digest>, rows: set<MirrorKey>, now: real)
    ensures var db' := Apply(db, Prune(digests, rows), now);
            && db'.ops == db.ops && db'.bound == db.bound
            && (forall d :: d in db'.confirmations <==>
                  && d in db.confirmations
                  && !(d in digests && (db.confirmations[d].usedAt.Some? || db.confirmations[d].expiresAt <= now)))
            && (forall d :: d in db'.confirmations ==> db'.confirmations[d] == db.confirmations[d])
            && (forall k :: k in db'.mirror <==>
                  && k in db.mirror
                  && !(k in rows &&
                       db.mirror[k].status in {Mirrored(Succeeded), Mirrored(RolledBack), Mirrored(Failed)}))
            && (forall k :: k in db'.mirror ==> db'.mirror[k] == db.mirror[k])
  {
  }

  // ----- one at a time -----

  /** The operation has been queued and has not ended. */
  predicate Underway(db: Db, id: OpId) {
    id in db.ops && db.ops[id].status != Staged && db.ops[id].status !in FINISHED
  }

  /** The mirrored row says that its version is requested or being installed. */
  predicate ShownUnderway(db: Db, key: MirrorKey) {
    && key in db.mirror
    && match db.mirror[key].status
       case Requested(_) => true
       case Mirrored(stage) => stage != Staged && stage !in FINISHED
  }

  /** In every reachable state at most one operation is under way, and the mirror shows exactly that one. */
  lemma {:induction false} OneUnderway(dbs: seq<Db>, events: seq<Event>, clock: seq<real>, i: nat)
    requires IsRun(dbs, events, clock) && i < |dbs|
    ensures forall a, b :: Underway(dbs[i], a) && Underway(dbs[i], b) ==> a == b
    ensures forall key :: ShownUnderway(dbs[i], key) <==>
              exists id :: Underway(dbs[i], id) && MirrorKey(dbs[i].ops[id].version, dbs[i].ops[id].channel) == key
    ensures forall id :: Underway(dbs[i], id) ==>
              var op := dbs[i].ops[id];
              MirrorKey(op.version, op.channel) in dbs[i].mirror
    ensures forall id :: Underway(dbs[i], id) ==>
              var op := dbs[i].ops[id];
              dbs[i].mirror[MirrorKey(op.version, op.channel)].status ==
              if op.status == Queued then Requested(op.action) else Mirrored(op.status)
  {
    var db := dbs[i];
    RunInv(dbs, events, clock, i);
    forall id ensures Underway(db, id) <==> id in db.ops && Active(db.ops[id]) {
    }
    forall key ensures ShownUnderway(db, key) <==> key in db.mirror && MirrorActive(db.mirror[key]) {
    }
    forall key ensures ShownUnderway(db, key) <==>
        exists id :: Underway(db, id) && MirrorKey(db.ops[id].version, db.ops[id].channel) == key {
      UnderwayAt(db, key);
    }
  }

  lemma {:induction false} UnderwayAt(db: Db, key: MirrorKey)
    requires MirrorInv(db)
    ensures ShownUnderway(db, key) <==>
              exists id :: Underway(db, id) && MirrorKey(db.ops[id].version, db.ops[id].channel) == key
  {
    if ShownUnderway(db, key) {
      assert MirrorActive(db.mirror[key]) && HasActiveAt(db, key);
      var id :| id in db.ops && Active(db.ops[id]) && KeyOf(db.ops[id]) == key;
      assert Underway(db, id);
    }
    if id :| Underway(db, id) && MirrorKey(db.ops[id].version, db.ops[id].channel) == key {
      assert Active(db.ops[id]) && KeyOf(db.ops[id]) == key;
    }
  }

  // ----- a confirmation serves once, and not for long -----

  /** The token was issued once and can no longer be used after this time. */
  predicate Bounded(db: Db, digest: Digest, until: real) {
    && digest in db.bound
    && (digest in db.confirmations ==>
        db.confirmations[digest].usedAt.Some? || db.confirmations[digest].expiresAt <= until)
  }

  predicate Spent(db: Db, digest: Digest) {
    digest in db.bound && (digest in db.confirmations ==> db.confirmations[digest].usedAt.Some?)
  }

  /** This call uses the token up: consumed directly, or by starting an operation. */
  predicate Spends(db: Db, e: Event, now: real, digest: Digest) {
    && Accepted(db, e, now)
    && ((e.Consume? && e.digest == digest) || (e.Queue? && e.digest == digest && db.ops[e.id].status == Staged))
  }

  lemma {:induction false} SpendingUses(db: Db, e: Event, now: real, digest: Digest)
    requires Spends(db, e, now, digest) && digest in db.bound
    ensures Spent(Apply(db, e, now), digest)
    ensures digest in db.confirmations && db.confirmations[digest].usedAt == None
              && now < db.confirmations[digest].expiresAt
  {
    if e.Queue? {
      QueueMeans(db, e, now);
      QueueWrites(db, e, now);
    } else {
      ConsumeMeans(db, e, now);
    }
  }

  lemma {:induction false} TokenStep(db: Db, e: Event, now: real, digest: Digest, until: real)
    requires FreshToken(db, e)
    ensures Spent(db, digest) ==> Spent(Apply(db, e, now), digest)
    ensures Bounded(db, digest, until) ==> Bounded(Apply(db, e, now), digest, until)
  {
  }

  lemma {:induction false} TokensKept(dbs: seq<Db>, events: seq<Event>, clock: seq<real>, digest: Digest, until: real,
                                      i: nat, j: nat)
    requires IsRun(dbs, events, clock) && i <= j < |dbs|
    ensures Spent(dbs[i], digest) ==> Spent(dbs[j], digest)
    ensures Bounded(dbs[i], digest, until) ==> Bounded(dbs[j], digest, until)
    decreases j
  {
    if i < j {
      TokensKept(dbs, events, clock, digest, until, i, j - 1);
      assert Trusted(dbs[j - 1], events[j - 1]);
      TokenStep(dbs[j - 1], events[j - 1], clock[j - 1], digest, until);
    }
  }

  /** No token is used up twice, whether consumed directly or by starting an operation. */
  lemma {:induction false} TokenServesOnce(dbs: seq<Db>, events: seq<Event>, clock: seq<real>, digest: Digest,
                                           i: nat, j: nat)
    requires IsRun(dbs, events, clock) && i < j < |events| && Spends(dbs[i], events[i], clock[i], digest)
    ensures !Spends(dbs[j], events[j], clock[j], digest)
  {
    RunInv(dbs, events, clock, i);
    TokenIsIssued(dbs[i], events[i], clock[i], digest);
    SpendingUses(dbs[i], events[i], clock[i], digest);
    TokensKept(dbs, events, clock, digest, 0.0, i + 1, j);
    if Spends(dbs[j], events[j], clock[j], digest) {
      SpendingUses(dbs[j], events[j], clock[j], digest);
    }
  }

  lemma {:induction false} TokenIsIssued(db: Db, e: Event, now: real, digest: Digest)
    requires Inv(db) && Spends(db, e, now, digest)
    ensures digest in db.bound
  {
    if e.Queue? {
      QueueMeans(db, e, now);
    }
    assert Get(db.bound, digest) == Some(db.confirmations[digest].operation);
  }

  /** No token is used up more than five minutes after it was issued, or after the shorter time asked for. */
  lemma {:induction false} TokenExpires(dbs: seq<Db>, events: seq<Event>, clock: seq<real>, i: nat, j: nat)
    requires IsRun(dbs, events, clock) && i < j < |events| && events[i].Confirm?
    requires Accepted(dbs[i], events[i], clock[i]) && Spends(dbs[j], events[j], clock[j], events[i].digest)
    ensures clock[j] < clock[i] + 300.0
    ensures 30 <= events[i].ttl <= 300 ==> clock[j] < clock[i] + events[i].ttl as real
  {
    var e := events[i];
    ConfirmMeans(dbs[i], e.digest, e.conf, e.ttl, e.admin, clock[i]);
    var until := dbs[i + 1].confirmations[e.digest].expiresAt;
    TokensKept(dbs, events, clock, e.digest, until, i + 1, j);
    SpendingUses(dbs[j], events[j], clock[j], e.digest);
  }
}
