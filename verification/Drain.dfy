/**
 * The maintenance drain handshake of backend/app.py: business writes counted
 * at the HTTP door, worker starts checked under a lock, the watcher that stops
 * all workers, and drain readers that look at the counters one by one.  The
 * maintenance flag is a file, so it may be set between any two steps.
 */
module DrainModel {
  import opened Common

  type CallId = nat
  type ReaderId = nat

  /**
   * What makes a call visible to a drain reader: the business-write counter,
   * a live worker-control lease, or nothing (a lease that ran out mid-call).
   */
  datatype Kind = Counted | Leased | Bare

  /**
   * Tested: a counted write past its maintenance test, counter lock held.
   * Checked: inside `bot_start`, past the maintenance test, start lock held.
   */
  datatype Pc = Arrived | Tested | Inside | Checked | Gone
  datatype Call = Call(kind: Kind, pc: Pc)

  /** How far a drain reader got, with the maintenance period it saw. */
  datatype Reader = Idle | SawFlag(period: nat) | SawNoLease(period: nat) | SawNoWrite(period: nat) | Ready(period: nat)

  datatype World = World(
    flag: bool,
    period: nat,                 // maintenance periods ended so far
    businessWrites: int,
    calls: map<CallId, Call>,
    counterLock: Option<CallId>, // _business_write_lock
    startLock: Option<CallId>,   // _worker_maintenance_lock
    workers: set<nat>,
    nextWorker: nat,
    readers: map<ReaderId, Reader>)

  datatype Step =
    | Arrive(call: CallId, kind: Kind)
    | Test(call: CallId)
    | Count(call: CallId)
    | Enter(call: CallId)
    | Check(call: CallId)
    | Spawn(call: CallId, ok: bool)
    | Leave(call: CallId)
    | Lapse(call: CallId)
    | WorkerExit(worker: nat)
    | WatcherStop
    | SetFlag
    | ClearFlag
    | ReadFlag(reader: ReaderId)
    | ReadLeases(reader: ReaderId)
    | ReadWrites(reader: ReaderId)
    | ReadWorkers(reader: ReaderId)

  const START := World(false, 0, 0, map[], None, None, {}, 0, map[])

  predicate At(w: World, c: CallId, pc: Pc) {
    c in w.calls && w.calls[c].pc == pc
  }

  predicate OfKind(w: World, c: CallId, kind: Kind) {
    c in w.calls && w.calls[c].kind == kind
  }

  /** Admitted and not finished. */
  predicate Open(w: World, c: CallId) {
    At(w, c, Inside) || At(w, c, Checked)
  }

  function OpenOf(w: World, kind: Kind): set<CallId> {
    set c | c in w.calls && w.calls[c].kind == kind && Open(w, c)
  }

  function ReaderAt(w: World, r: ReaderId): Reader {
    if r in w.readers then w.readers[r] else Idle
  }

  predicate Enabled(w: World, step: Step) {
    match step
    case Arrive(c, kind) => c !in w.calls && !kind.Bare?
    case Test(c) => At(w, c, Arrived) && OfKind(w, c, Counted) && w.counterLock == None
    case Count(c) => At(w, c, Tested)
    case Enter(c) => At(w, c, Arrived) && !OfKind(w, c, Counted)
    case Check(c) => At(w, c, Inside) && w.startLock == None
    case Spawn(c, _) => At(w, c, Checked)
    case Leave(c) => At(w, c, Inside) && (OfKind(w, c, Counted) ==> w.counterLock == None)
    case Lapse(c) => Open(w, c) && OfKind(w, c, Leased)
    case WatcherStop => w.flag && w.startLock == None
    case ReadLeases(r) => ReaderAt(w, r).SawFlag?
    case ReadWrites(r) => ReaderAt(w, r).SawNoLease? && w.counterLock == None
    case ReadWorkers(r) => ReaderAt(w, r).SawNoWrite?
    case _ => true
  }

  function Moved(w: World, c: CallId, pc: Pc): map<CallId, Call>
    requires c in w.calls
  {
    w.calls[c := w.calls[c].(pc := pc)]
  }

  function Told(w: World, r: ReaderId, good: bool, next: Reader): World {
    w.(readers := w.readers[r := if good then next else Idle])
  }

  function Apply(w: World, step: Step): World
    requires Enabled(w, step)
  {
    match step
    case Arrive(c, kind) => w.(calls := w.calls[c := Call(kind, Arrived)])
    case Test(c) =>
      if w.flag then w.(calls := Moved(w, c, Gone)) else w.(calls := Moved(w, c, Tested), counterLock := Some(c))
    case Count(c) =>
      w.(calls := Moved(w, c, Inside), counterLock := None, businessWrites := w.businessWrites + 1)
    case Enter(c) => w.(calls := Moved(w, c, Inside))
    case Check(c) => if w.flag then w else w.(calls := Moved(w, c, Checked), startLock := Some(c))
    case Spawn(c, ok) =>
      var w1 := w.(calls := Moved(w, c, Inside), startLock := None);
      if ok then w1.(workers := w.workers + {w.nextWorker}, nextWorker := w.nextWorker + 1) else w1
    case Leave(c) =>
      w.(calls := Moved(w, c, Gone),
         businessWrites := if OfKind(w, c, Counted) then w.businessWrites - 1 else w.businessWrites)
    case Lapse(c) => w.(calls := w.calls[c := w.calls[c].(kind := Bare)])
    case WorkerExit(k) => w.(workers := w.workers - {k})
    case WatcherStop => w.(workers := {})
    case SetFlag => w.(flag := true)
    case ClearFlag => w.(flag := false, period := w.period + 1)
    case ReadFlag(r) => Told(w, r, w.flag, SawFlag(w.period))
    case ReadLeases(r) => Told(w, r, OpenOf(w, Leased) == {}, SawNoLease(ReaderAt(w, r).period))
    case ReadWrites(r) => Told(w, r, w.businessWrites == 0, SawNoWrite(ReaderAt(w, r).period))
    case ReadWorkers(r) => Told(w, r, w.workers == {}, Ready(ReaderAt(w, r).period))
  }

  /** `worlds` follows from its first member by `steps`. */
  ghost predicate Follows(worlds: seq<World>, steps: seq<Step>) {
    && |worlds| == |steps| + 1
    && forall i :: 0 <= i < |steps| ==> Enabled(worlds[i], steps[i]) && worlds[i + 1] == Apply(worlds[i], steps[i])
  }

  ghost predicate IsRun(worlds: seq<World>, steps: seq<Step>) {
    Follows(worlds, steps) && worlds[0] == START
  }

  lemma {:induction false} RunGrows(worlds: seq<World>, steps: seq<Step>, step: Step)
    requires IsRun(worlds, steps) && Enabled(worlds[|steps|], step)
    ensures IsRun(worlds + [Apply(worlds[|steps|], step)], steps + [step])
  {
  }
}

/** The counter and the start gate as the request handlers use them. */
module DrainGate {
  import opened Common
  import opened DrainModel

  class Gate {
    var flag: bool
    var businessWrites: int
    var calls: map<CallId, Call>
    var counterLock: Option<CallId>
    var startLock: Option<CallId>
    var workers: set<nat>
    var nextWorker: nat
    var period: nat
    var readers: map<ReaderId, Reader>
    ghost var worlds: seq<World>
    ghost var steps: seq<Step>

    function Abs(): World
      reads this
    {
      World(flag, period, businessWrites, calls, counterLock, startLock, workers, nextWorker, readers)
    }

    /** What happened to this object is a run that ends in its present state. */
    ghost predicate Valid()
      reads this
    {
      IsRun(worlds, steps) && worlds[|steps|] == Abs()
    }

    constructor ()
      ensures Valid() && Abs() == START && steps == []
    {
      flag, businessWrites, calls, counterLock, startLock := false, 0, map[], None, None;
      workers, nextWorker, period, readers := {}, 0, 0, map[];
      worlds, steps := [START], [];
    }

    /** The test of `security_headers`; an admitted write keeps the counter lock. */
    method TestWrite(c: CallId) returns (admitted: bool)
      requires Valid() && Enabled(Abs(), Test(c))
      modifies this
      ensures Valid() && Abs() == Apply(old(Abs()), Test(c)) && steps == old(steps) + [Test(c)]
      ensures admitted == !flag
    {
      RunGrows(worlds, steps, Test(c));
      worlds, steps := worlds + [Apply(Abs(), Test(c))], steps + [Test(c)];
      admitted := !flag;
      if admitted {
        calls := calls[c := calls[c].(pc := Tested)];
        counterLock := Some(c);
      } else {
        calls := calls[c := calls[c].(pc := Gone)];
      }
    }

    /** The increment, which releases the counter lock. */
    method CountWrite(c: CallId)
      requires Valid() && Enabled(Abs(), Count(c))
      modifies this
      ensures Valid() && Abs() == Apply(old(Abs()), Count(c)) && steps == old(steps) + [Count(c)]
    {
      RunGrows(worlds, steps, Count(c));
      worlds, steps := worlds + [Apply(Abs(), Count(c))], steps + [Count(c)];
      businessWrites := businessWrites + 1;
      calls := calls[c := calls[c].(pc := Inside)];
      counterLock := None;
    }

    /** The `finally` of the same handler. */
    method FinishWrite(c: CallId)
      requires Valid() && Enabled(Abs(), Leave(c)) && calls[c].kind == Counted
      modifies this
      ensures Valid() && Abs() == Apply(old(Abs()), Leave(c)) && steps == old(steps) + [Leave(c)]
    {
      RunGrows(worlds, steps, Leave(c));
      worlds, steps := worlds + [Apply(Abs(), Leave(c))], steps + [Leave(c)];
      businessWrites := businessWrites - 1;
      calls := calls[c := calls[c].(pc := Gone)];
    }

    /** The test of `bot_start`; a start that passes keeps the start lock. */
    method CheckStart(c: CallId) returns (passed: bool)
      requires Valid() && Enabled(Abs(), Check(c))
      modifies this
      ensures Valid() && Abs() == Apply(old(Abs()), Check(c)) && steps == old(steps) + [Check(c)]
      ensures passed == !flag
    {
      RunGrows(worlds, steps, Check(c));
      worlds, steps := worlds + [Apply(Abs(), Check(c))], steps + [Check(c)];
      passed := !flag;
      if passed {
        calls := calls[c := calls[c].(pc := Checked)];
        startLock := Some(c);
      }
    }

    /** The spawn at the end of `bot_start`, which releases the start lock. */
    method SpawnWorker(c: CallId, spawnOk: bool)
      requires Valid() && Enabled(Abs(), Spawn(c, spawnOk))
      modifies this
      ensures Valid() && Abs() == Apply(old(Abs()), Spawn(c, spawnOk)) && steps == old(steps) + [Spawn(c, spawnOk)]
    {
      RunGrows(worlds, steps, Spawn(c, spawnOk));
      worlds, steps := worlds + [Apply(Abs(), Spawn(c, spawnOk))], steps + [Spawn(c, spawnOk)];
      if spawnOk {
        workers, nextWorker := workers + {nextWorker}, nextWorker + 1;
      }
      calls := calls[c := calls[c].(pc := Inside)];
      startLock := None;
    }

    /** Steps taken elsewhere: arrivals, lapsing leases, exits, the flag, and the drain readers. */
    method Elsewhere(step: Step)
      requires Valid() && Enabled(Abs(), step)
      modifies this
      ensures Valid() && Abs() == Apply(old(Abs()), step) && steps == old(steps) + [step]
    {
      RunGrows(worlds, steps, step);
      var w := Apply(Abs(), step);
      worlds, steps := worlds + [w], steps + [step];
      flag, period, businessWrites, calls := w.flag, w.period, w.businessWrites, w.calls;
      counterLock, startLock := w.counterLock, w.startLock;
      workers, nextWorker, readers := w.workers, w.nextWorker, w.readers;
    }

    /** The watcher's stop of all workers. */
    method StopWorkers()
      requires Valid() && Enabled(Abs(), WatcherStop)
      modifies this
      ensures Valid() && Abs() == Apply(old(Abs()), WatcherStop) && steps == old(steps) + [WatcherStop]
    {
      RunGrows(worlds, steps, WatcherStop);
      worlds, steps := worlds + [Apply(Abs(), WatcherStop)], steps + [WatcherStop];
      workers := {};
    }
  }
}

module DrainRuns {
  import opened Common
  import opened DrainModel

  /** While the period a reader saw lasts, each of its findings stays true. */
  ghost predicate ReaderInv(w: World, reader: Reader) {
    !reader.Idle? && reader.period == w.period ==>
      && w.flag
      && (!reader.SawFlag? ==> forall c: CallId :: At(w, c, Checked) ==> w.calls[c].kind != Leased)
      && (reader.SawNoWrite? || reader.Ready? ==> OpenOf(w, Counted) == {} && w.counterLock == None)
  }

  ghost predicate Inv(w: World) {
    && w.businessWrites == |OpenOf(w, Counted)|
    && (forall c: CallId :: At(w, c, Checked) <==> w.startLock == Some(c))
    && (forall c: CallId :: At(w, c, Tested) <==> w.counterLock == Some(c))
    && (forall c: CallId :: At(w, c, Tested) ==> w.calls[c].kind == Counted)
    && (forall r: ReaderId :: r in w.readers ==> w.readers[r].Idle? || w.readers[r].period <= w.period)
    && (forall r: ReaderId :: r in w.readers ==> ReaderInv(w, w.readers[r]))
  }

  lemma {:induction false} OpenUnchanged(w: World, step: Step)
    requires Enabled(w, step) && !step.Count? && !step.Leave? && !step.Enter?
    ensures OpenOf(Apply(w, step), Counted) == OpenOf(w, Counted)
    ensures Apply(w, step).businessWrites == w.businessWrites
  {
  }

  lemma {:induction false} CountOpens(w: World, c: CallId)
    requires Enabled(w, Count(c)) && w.calls[c].kind == Counted
    ensures OpenOf(Apply(w, Count(c)), Counted) == OpenOf(w, Counted) + {c} && c !in OpenOf(w, Counted)
  {
  }

  lemma {:induction false} EnterOpensNone(w: World, c: CallId)
    requires Enabled(w, Enter(c))
    ensures OpenOf(Apply(w, Enter(c)), Counted) == OpenOf(w, Counted)
  {
  }

  lemma {:induction false} LeaveCloses(w: World, c: CallId)
    requires Enabled(w, Leave(c))
    ensures OpenOf(Apply(w, Leave(c)), Counted) == OpenOf(w, Counted) - {c}
    ensures c in OpenOf(w, Counted) <==> w.calls[c].kind == Counted
  {
  }

  lemma {:induction false} CountInv(w: World, step: Step)
    requires Inv(w) && Enabled(w, step)
    ensures Apply(w, step).businessWrites == |OpenOf(Apply(w, step), Counted)|
  {
    if step.Count? {
      CountOpens(w, step.call);
    } else if step.Leave? {
      LeaveCloses(w, step.call);
    } else if step.Enter? {
      EnterOpensNone(w, step.call);
    } else {
      OpenUnchanged(w, step);
    }
  }

  /** Under the flag no counted write opens, unless it was tested before. */
  lemma {:induction false} FlagKeepsClosed(w: World, step: Step)
    requires Enabled(w, step) && w.flag && w.counterLock == None && (forall c: CallId :: !At(w, c, Tested))
    ensures OpenOf(Apply(w, step), Counted) <= OpenOf(w, Counted) && Apply(w, step).counterLock == None
  {
    if step.Enter? {
      EnterOpensNone(w, step.call);
    }
  }

  /** An earlier finding of a reader survives every step, whoever makes it. */
  lemma {:induction false} FindingLasts(w: World, step: Step, reader: Reader)
    requires Inv(w) && Enabled(w, step) && ReaderInv(w, reader)
    requires reader.Idle? || reader.period <= w.period
    ensures ReaderInv(Apply(w, step), reader)
  {
    if !reader.Idle? && reader.period == w.period && !step.ClearFlag? {
      if reader.SawNoWrite? || reader.Ready? {
        FlagKeepsClosed(w, step);
      }
    }
  }

  /** A reader's new finding is true when it is made. */
  lemma {:induction false} FindingHolds(w: World, step: Step)
    requires Inv(w) && Enabled(w, step)
    requires step.ReadFlag? || step.ReadLeases? || step.ReadWrites? || step.ReadWorkers?
    ensures ReaderInv(w, Apply(w, step).readers[step.reader])
  {
    if step.ReadLeases? && OpenOf(w, Leased) == {} {
      forall c: CallId | At(w, c, Checked) ensures w.calls[c].kind != Leased {
        assert c !in OpenOf(w, Leased);
      }
    } else if step.ReadWrites? && w.businessWrites == 0 {
      assert OpenOf(w, Counted) == {};
    }
  }

  lemma {:induction false} ReadersInv(w: World, step: Step)
    requires Inv(w) && Enabled(w, step)
    ensures forall r: ReaderId :: r in Apply(w, step).readers ==> ReaderInv(Apply(w, step), Apply(w, step).readers[r])
  {
    var w' := Apply(w, step);
    forall r: ReaderId | r in w'.readers ensures ReaderInv(w', w'.readers[r]) {
      if r in w.readers && w'.readers[r] == w.readers[r] {
        FindingLasts(w, step, w.readers[r]);
      } else {
        FindingHolds(w, step);
        SameCalls(w, step, w'.readers[r]);
      }
    }
  }

  /** A read changes nothing that a finding is about. */
  lemma {:induction false} SameCalls(w: World, step: Step, reader: Reader)
    requires Enabled(w, step) && ReaderInv(w, reader)
    requires step.ReadFlag? || step.ReadLeases? || step.ReadWrites? || step.ReadWorkers?
    ensures ReaderInv(Apply(w, step), reader)
  {
  }

  lemma {:induction false} StartLockInv(w: World, step: Step)
    requires (forall c: CallId :: At(w, c, Checked) <==> w.startLock == Some(c)) && Enabled(w, step)
    ensures forall c: CallId :: At(Apply(w, step), c, Checked) <==> Apply(w, step).startLock == Some(c)
  {
    var w' := Apply(w, step);
    forall c: CallId ensures At(w', c, Checked) <==> w'.startLock == Some(c) {
      assert At(w, c, Checked) <==> w.startLock == Some(c);
    }
  }

  lemma {:induction false} CounterLockInv(w: World, step: Step)
    requires forall c: CallId :: At(w, c, Tested) <==> w.counterLock == Some(c)
    requires (forall c: CallId :: At(w, c, Tested) ==> w.calls[c].kind == Counted) && Enabled(w, step)
    ensures forall c: CallId :: At(Apply(w, step), c, Tested) <==> Apply(w, step).counterLock == Some(c)
    ensures forall c: CallId :: At(Apply(w, step), c, Tested) ==> Apply(w, step).calls[c].kind == Counted
  {
    var w' := Apply(w, step);
    forall c: CallId
      ensures At(w', c, Tested) <==> w'.counterLock == Some(c)
      ensures At(w', c, Tested) ==> w'.calls[c].kind == Counted
    {
      assert At(w, c, Tested) <==> w.counterLock == Some(c);
    }
  }

  lemma {:induction false} StepInv(w: World, step: Step)
    requires Inv(w) && Enabled(w, step)
    ensures Inv(Apply(w, step))
  {
    CountInv(w, step);
    StartLockInv(w, step);
    CounterLockInv(w, step);
    ReadersInv(w, step);
  }

  lemma {:induction false} RunInv(worlds: seq<World>, steps: seq<Step>, i: nat)
    requires IsRun(worlds, steps) && i < |worlds|
    ensures Inv(worlds[i])
  {
    if i > 0 {
      RunInv(worlds, steps, i - 1);
      StepInv(worlds[i - 1], steps[i - 1]);
    } else {
      assert OpenOf(START, Counted) == {};
    }
  }

  /** Nothing visible to a reader can write or start a worker. */
  ghost predicate Drained(w: World) {
    && w.flag && OpenOf(w, Counted) == {} && w.counterLock == None && (forall c: CallId :: !At(w, c, Tested))
    && forall c: CallId :: At(w, c, Checked) ==> w.calls[c].kind == Bare
  }

  predicate Spawns(w: World, step: Step) {
    step.Spawn? && step.ok && At(w, step.call, Checked)
  }

  /** The step lets a business write in: it passes the test, or is counted. */
  predicate Admits(w: World, step: Step) {
    (step.Test? && !w.flag) || step.Count?
  }

  lemma {:induction false} DrainedStep(w: World, step: Step)
    requires Drained(w) && Enabled(w, step) && !step.ClearFlag?
    ensures Drained(Apply(w, step)) && !Admits(w, step)
    ensures Spawns(w, step) ==> w.calls[step.call].kind == Bare
    ensures !Spawns(w, step) ==> Apply(w, step).workers <= w.workers
  {
    FlagKeepsClosed(w, step);
    var w' := Apply(w, step);
    assert OpenOf(w', Counted) == {};
    forall c: CallId ensures !At(w', c, Tested) && (At(w', c, Checked) ==> w'.calls[c].kind == Bare) {
      assert !At(w, c, Tested) && (At(w, c, Checked) ==> w.calls[c].kind == Bare);
    }
  }

  /** Reader r has just reported ready, in the maintenance period that still lasts. */
  ghost predicate ReportsReady(worlds: seq<World>, steps: seq<Step>, i: nat, r: ReaderId)
    requires IsRun(worlds, steps)
  {
    && 0 < i < |worlds| && steps[i - 1] == ReadWorkers(r)
    && ReaderAt(worlds[i], r).Ready? && ReaderAt(worlds[i], r).period == worlds[i].period
  }

  lemma {:induction false} ReadyIsDrained(worlds: seq<World>, steps: seq<Step>, i: nat, r: ReaderId)
    requires IsRun(worlds, steps) && ReportsReady(worlds, steps, i, r)
    ensures Drained(worlds[i]) && worlds[i].businessWrites == 0 && worlds[i].workers == {}
  {
    RunInv(worlds, steps, i);
    assert ReaderInv(worlds[i], worlds[i].readers[r]);
    forall c: CallId | At(worlds[i], c, Checked) ensures worlds[i].calls[c].kind == Bare {
      assert c !in OpenOf(worlds[i], Counted);
    }
  }

  /** What a step does to a drained world. */
  ghost predicate Harmless(w: World, step: Step, w': World) {
    && !Admits(w, step) && (Spawns(w, step) ==> OfKind(w, step.call, Bare))
    && (!Spawns(w, step) ==> w'.workers <= w.workers)
  }

  lemma {:induction false} DrainedAt(worlds: seq<World>, steps: seq<Step>, k: nat)
    requires Follows(worlds, steps) && k < |steps| && Drained(worlds[k]) && !steps[k].ClearFlag?
    ensures Drained(worlds[k + 1]) && Harmless(worlds[k], steps[k], worlds[k + 1])
  {
    DrainedStep(worlds[k], steps[k]);
  }

  lemma {:induction false} DrainedLasts(worlds: seq<World>, steps: seq<Step>, i: nat, j: nat)
    requires Follows(worlds, steps) && i <= j < |worlds| && Drained(worlds[i])
    requires forall k :: i <= k < j ==> !steps[k].ClearFlag?
    ensures Drained(worlds[j])
    ensures forall k :: i <= k < j ==> Harmless(worlds[k], steps[k], worlds[k + 1])
    decreases j
  {
    if i < j {
      DrainedLasts(worlds, steps, i, j - 1);
      DrainedAt(worlds, steps, j - 1);
    }
  }

  ghost predicate SpawnedBetween(worlds: seq<World>, steps: seq<Step>, i: nat, j: nat)
    requires j <= |steps| < |worlds|
  {
    exists k :: i <= k < j && Spawns(worlds[k], steps[k])
  }

  lemma {:induction false} NoneSpawned(worlds: seq<World>, steps: seq<Step>, i: nat, j: nat)
    requires |worlds| == |steps| + 1 && i <= j < |worlds| && worlds[i].workers == {}
    requires forall k :: i <= k < j ==> Harmless(worlds[k], steps[k], worlds[k + 1])
    requires !SpawnedBetween(worlds, steps, i, j)
    ensures worlds[j].workers == {}
    decreases j
  {
    if i < j {
      NoneSpawned(worlds, steps, i, j - 1);
      assert Harmless(worlds[j - 1], steps[j - 1], worlds[j - 1 + 1]);
    }
  }

  /**
   * After a reader reported ready in the current maintenance period: no
   * admitted business write is running, and until the flag is cleared none is
   * admitted, no worker is spawned by a counted write or under a live lease,
   * and without a bare start no worker exists at all.
   */
  lemma {:induction false} ReadyMeansDrained(worlds: seq<World>, steps: seq<Step>, i: nat, r: ReaderId, j: nat)
    requires IsRun(worlds, steps) && ReportsReady(worlds, steps, i, r) && i <= j < |worlds|
    requires forall k :: i <= k < j ==> !steps[k].ClearFlag?
    ensures Drained(worlds[j]) && worlds[j].businessWrites == 0
    ensures forall k :: i <= k < j ==>
              !Admits(worlds[k], steps[k]) && (Spawns(worlds[k], steps[k]) ==> OfKind(worlds[k], steps[k].call, Bare))
    ensures !SpawnedBetween(worlds, steps, i, j) ==> worlds[j].workers == {}
  {
    ReadyIsDrained(worlds, steps, i, r);
    DrainedLasts(worlds, steps, i, j);
    RunInv(worlds, steps, j);
    forall k | i <= k < j
      ensures !Admits(worlds[k], steps[k]) && (Spawns(worlds[k], steps[k]) ==> OfKind(worlds[k], steps[k].call, Bare))
    {
      assert Harmless(worlds[k], steps[k], worlds[k + 1]);
    }
    if !SpawnedBetween(worlds, steps, i, j) {
      NoneSpawned(worlds, steps, i, j);
    }
  }

  // ----- when a worker can still appear after ready -----

  /** The flag is on and no start is past its test. */
  ghost predicate Quiet(w: World) {
    w.flag && forall c: CallId :: !At(w, c, Checked)
  }

  lemma {:induction false} QuietStep(w: World, step: Step)
    requires Quiet(w) && Enabled(w, step) && !step.ClearFlag?
    ensures Quiet(Apply(w, step)) && Apply(w, step).workers <= w.workers && !Spawns(w, step)
  {
    forall c: CallId ensures !At(Apply(w, step), c, Checked) {
      assert !At(w, c, Checked);
    }
  }

  lemma {:induction false} QuietLasts(worlds: seq<World>, steps: seq<Step>, j: nat)
    requires Follows(worlds, steps) && Quiet(worlds[0]) && j < |worlds|
    requires forall k :: 0 <= k < j ==> !steps[k].ClearFlag?
    ensures Quiet(worlds[j]) && worlds[j].workers <= worlds[0].workers
    ensures forall k :: 0 <= k < j ==> !Spawns(worlds[k], steps[k])
    decreases j
  {
    if j > 0 {
      QuietLasts(worlds, steps, j - 1);
      QuietStep(worlds[j - 1], steps[j - 1]);
    }
  }

  /** Some continuation spawns a worker before the flag is cleared. */
  ghost predicate MaySpawn(w: World) {
    exists more: seq<World>, steps: seq<Step> :: SpawnsAlong(w, more, steps)
  }

  ghost predicate SpawnsAlong(w: World, more: seq<World>, steps: seq<Step>) {
    && steps != [] && Follows(more, steps) && more[0] == w
    && (forall k :: 0 <= k < |steps| ==> !steps[k].ClearFlag?)
    && Spawns(more[|steps| - 1], steps[|steps| - 1])
  }

  lemma {:induction false} MaySpawnExactlyWhenLocked(w: World)
    requires Inv(w) && w.flag
    ensures MaySpawn(w) <==> w.startLock.Some?
  {
    if w.startLock.Some? {
      var step := Spawn(w.startLock.value, true);
      assert At(w, w.startLock.value, Checked);
      assert SpawnsAlong(w, [w, Apply(w, step)], [step]);
    } else if MaySpawn(w) {
      var more: seq<World>, steps: seq<Step> :| SpawnsAlong(w, more, steps);
      assert Quiet(w);
      QuietLasts(more, steps, |steps|);
    }
  }

  /**
   * After ready, a worker can still be spawned before the flag is cleared if
   * and only if the start lock is held at that moment, and then its holder is
   * a start whose lease has run out.
   */
  lemma {:induction false} SpawnAfterReadyExactlyWhen(worlds: seq<World>, steps: seq<Step>, i: nat, r: ReaderId)
    requires IsRun(worlds, steps) && ReportsReady(worlds, steps, i, r)
    ensures MaySpawn(worlds[i]) <==> worlds[i].startLock.Some?
    ensures worlds[i].startLock.Some? ==> OfKind(worlds[i], worlds[i].startLock.value, Bare)
  {
    RunInv(worlds, steps, i);
    ReadyIsDrained(worlds, steps, i, r);
    MaySpawnExactlyWhenLocked(worlds[i]);
  }

  lemma {:induction false} FollowsJoin(a: seq<World>, sa: seq<Step>, b: seq<World>, sb: seq<Step>)
    requires Follows(a, sa) && Follows(b, sb) && a[|sa|] == b[0]
    ensures Follows(a + b[1..], sa + sb)
    ensures forall k :: 0 <= k < |b| ==> (a + b[1..])[|sa| + k] == b[k]
  {
    var ws, ss := a + b[1..], sa + sb;
    forall i | 0 <= i < |ss| ensures Enabled(ws[i], ss[i]) && ws[i + 1] == Apply(ws[i], ss[i]) {
      if i >= |sa| {
        assert ss[i] == sb[i - |sa|] && ws[i] == b[i - |sa|] && ws[i + 1] == b[i - |sa| + 1];
      } else {
        assert ss[i] == sa[i] && ws[i] == a[i] && ws[i + 1] == a[i + 1];
      }
    }
  }

  /** A start under a lease, past its test, when the flag is set and the lease runs out. */
  const CHECKED := START.(calls := map[0 := Call(Leased, Checked)], startLock := Some(0))
  const LAPSED := CHECKED.(flag := true, calls := map[0 := Call(Bare, Checked)])

  function Reading(reader: Reader): World {
    LAPSED.(readers := map[0 := reader])
  }

  lemma {:induction false} StartPassesItsTest() returns (worlds: seq<World>, steps: seq<Step>)
    ensures Follows(worlds, steps) && |steps| == 3 && worlds[0] == START && worlds[3] == CHECKED
  {
    worlds := [START, START.(calls := map[0 := Call(Leased, Arrived)]), START.(calls := map[0 := Call(Leased, Inside)]),
               CHECKED];
    steps := [Arrive(0, Leased), Enter(0), Check(0)];
    assert worlds[1] == Apply(START, Arrive(0, Leased));
    assert worlds[2] == Apply(worlds[1], Enter(0));
    assert worlds[3] == Apply(worlds[2], Check(0));
  }

  lemma {:induction false} LeaseRunsOut() returns (worlds: seq<World>, steps: seq<Step>)
    ensures Follows(worlds, steps) && |steps| == 2 && worlds[0] == CHECKED && worlds[2] == LAPSED
  {
    worlds, steps := [CHECKED, CHECKED.(flag := true), LAPSED], [SetFlag, Lapse(0)];
    assert worlds[1] == Apply(CHECKED, SetFlag);
    assert worlds[2] == Apply(worlds[1], Lapse(0));
  }

  /** With the lease gone the reader finds nothing, and goes on from one reading to the next. */
  lemma {:induction false} ReadsOn(step: Step, before: World, after: World)
    requires || (step == ReadFlag(0) && before == LAPSED && after == Reading(SawFlag(0)))
             || (step == ReadLeases(0) && before == Reading(SawFlag(0)) && after == Reading(SawNoLease(0)))
             || (step == ReadWrites(0) && before == Reading(SawNoLease(0)) && after == Reading(SawNoWrite(0)))
             || (step == ReadWorkers(0) && before == Reading(SawNoWrite(0)) && after == Reading(Ready(0)))
    ensures Follows([before, after], [step])
  {
    assert OpenOf(before, Leased) == {};
    assert after.readers == Apply(before, step).readers;
  }

  lemma {:induction false} ReaderSeesNothing() returns (worlds: seq<World>, steps: seq<Step>)
    ensures Follows(worlds, steps) && |steps| == 4 && worlds[0] == LAPSED && worlds[4] == Reading(Ready(0))
    ensures steps[3] == ReadWorkers(0)
  {
    worlds := [LAPSED, Reading(SawFlag(0)), Reading(SawNoLease(0)), Reading(SawNoWrite(0)), Reading(Ready(0))];
    steps := [ReadFlag(0), ReadLeases(0), ReadWrites(0), ReadWorkers(0)];
    forall i | 0 <= i < 4 ensures Enabled(worlds[i], steps[i]) && worlds[i + 1] == Apply(worlds[i], steps[i]) {
      ReadsOn(steps[i], worlds[i], worlds[i + 1]);
      var two, one := [worlds[i], worlds[i + 1]], [steps[i]];
      assert Enabled(two[0], one[0]) && two[1] == Apply(two[0], one[0]);
    }
  }

  /**
   * The lock can be held: a leased start passes its test, the flag is set, its
   * lease runs out, a reader reports ready, and then the worker appears.
   */
  lemma {:induction false} BareStartEscapes() returns (worlds: seq<World>, steps: seq<Step>)
    ensures IsRun(worlds, steps) && |steps| == 10 && ReportsReady(worlds, steps, 9, 0)
    ensures Spawns(worlds[9], steps[9]) && worlds[9].workers == {} && worlds[10].workers == {0} && worlds[10].flag
  {
    var a, sa := StartPassesItsTest();
    var b, sb := LeaseRunsOut();
    var c, sc := ReaderSeesNothing();
    FollowsJoin(a, sa, b, sb);
    var ab, sab := a + b[1..], sa + sb;
    assert ab[|sa| + 2] == LAPSED;
    FollowsJoin(ab, sab, c, sc);
    var abc, sabc := ab + c[1..], sab + sc;
    assert abc[|sab| + 4] == Reading(Ready(0)) && sabc[8] == sc[3];
    var last := [Reading(Ready(0)), Apply(Reading(Ready(0)), Spawn(0, true))];
    FollowsJoin(abc, sabc, last, [Spawn(0, true)]);
    worlds, steps := abc + last[1..], sabc + [Spawn(0, true)];
  }

  /**
   * The watcher stops the workers under the start lock.  From then until the
   * flag is cleared no start of any kind gets past its test, so nothing is
   * spawned and no worker comes back.
   */
  lemma {:induction false} WatcherStopIsFinal(worlds: seq<World>, steps: seq<Step>, i: nat, j: nat)
    requires IsRun(worlds, steps) && i < j < |worlds| && steps[i].WatcherStop?
    requires forall k :: i < k < j ==> !steps[k].ClearFlag?
    ensures Quiet(worlds[j]) && worlds[j].workers == {}
    ensures forall k :: i < k < j ==> !Spawns(worlds[k], steps[k])
    decreases j
  {
    RunInv(worlds, steps, i);
    if i + 1 < j {
      WatcherStopIsFinal(worlds, steps, i, j - 1);
      QuietStep(worlds[j - 1], steps[j - 1]);
    } else {
      forall c: CallId ensures !At(worlds[j], c, Checked) {
        assert !At(worlds[i], c, Checked);
      }
    }
  }
}
