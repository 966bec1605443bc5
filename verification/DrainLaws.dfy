/** What the drain steps do to calls, workers and readers, and that the handshake comes to an end. */
module DrainLaws {
  import opened Common
  import opened DrainModel
  import opened DrainRuns

  /** The call is past the door, as a call of this kind. */
  predicate InsideAs(call: Call, kind: Kind) {
    call == Call(kind, Inside) || call == Call(kind, Checked)
  }

  /** Who can take a step: locks are waited for, starts and departures are made from inside, readings in their order. */
  lemma {:induction false} StepsAreTaken(w: World, step: Step)
    ensures Enabled(w, step) <==>
              match step
              case Arrive(c, kind) => c !in w.calls && (kind == Counted || kind == Leased)
              case Test(c) => c in w.calls && w.calls[c] == Call(Counted, Arrived) && w.counterLock == None
              case Count(c) => c in w.calls && w.calls[c].pc == Tested
              case Enter(c) => c in w.calls && w.calls[c].pc == Arrived && w.calls[c].kind != Counted
              case Check(c) => c in w.calls && w.calls[c].pc == Inside && w.startLock == None
              case Spawn(c, _) => c in w.calls && w.calls[c].pc == Checked
              case Leave(c) =>
                c in w.calls && w.calls[c].pc == Inside && (w.calls[c].kind != Counted || w.counterLock == None)
              case Lapse(c) => c in w.calls && InsideAs(w.calls[c], Leased)
              case WatcherStop => w.startLock == None && w.flag
              case ReadLeases(r) => r in w.readers && w.readers[r].SawFlag?
              case ReadWrites(r) => r in w.readers && w.readers[r].SawNoLease? && w.counterLock == None
              case ReadWorkers(r) => r in w.readers && w.readers[r].SawNoWrite?
              case WorkerExit(_) => true
              case SetFlag => true
              case ClearFlag => true
              case ReadFlag(_) => true
  {
  }

  // ----- the doors -----

  /** A counted write is let in exactly while the flag is off; otherwise it is turned away and nothing else changes. */
  lemma {:induction false} WriteDoor(w: World, c: CallId)
    requires Enabled(w, Test(c))
    ensures var w' := Apply(w, Test(c));
            && c in w'.calls && w'.calls[c].kind == Counted && w'.calls == w.calls[c := w'.calls[c]]
            && (w'.calls[c].pc == Tested <==> !w.flag) && (w'.calls[c].pc == Gone <==> w.flag)
            && w'.counterLock == (if w.flag then None else Some(c))
            && w' == w.(calls := w'.calls, counterLock := w'.counterLock)
  {
  }

  /** A tested write is counted once, whatever the flag says by now, and gives the lock back. */
  lemma {:induction false} WriteIsCounted(w: World, c: CallId)
    requires Enabled(w, Count(c))
    ensures Apply(w, Count(c)) ==
            w.(calls := w.calls[c := Call(w.calls[c].kind, Inside)], counterLock := None,
               businessWrites := w.businessWrites + 1)
  {
  }

  /** A start passes exactly while the flag is off, and then holds the start lock. */
  lemma {:induction false} StartDoor(w: World, c: CallId)
    requires Enabled(w, Check(c))
    ensures var w' := Apply(w, Check(c));
            if w.flag then w' == w
            else
              && c in w'.calls && w'.calls[c].pc == Checked && w'.startLock == Some(c)
              && w' == w.(calls := w.calls[c := w.calls[c].(pc := Checked)], startLock := Some(c))
  {
  }

  /** The write counter is the number of counted writes that are inside, in every reachable world. */
  lemma {:induction false} CounterIsExact(worlds: seq<World>, steps: seq<Step>, i: nat)
    requires IsRun(worlds, steps) && i < |worlds|
    ensures worlds[i].businessWrites == |set c | c in worlds[i].calls && InsideAs(worlds[i].calls[c], Counted)|
  {
    RunInv(worlds, steps, i);
    var inside := set c | c in worlds[i].calls && InsideAs(worlds[i].calls[c], Counted);
    assert inside == OpenOf(worlds[i], Counted);
  }

  // ----- workers -----

  ghost predicate WorkersAreOld(w: World) {
    forall k :: k in w.workers ==> k < w.nextWorker
  }

  lemma {:induction false} WorkersStep(w: World, step: Step)
    requires Enabled(w, step) && WorkersAreOld(w)
    ensures WorkersAreOld(Apply(w, step)) && w.nextWorker <= Apply(w, step).nextWorker
  {
  }

  lemma {:induction false} WorkersOfRun(worlds: seq<World>, steps: seq<Step>, i: nat)
    requires IsRun(worlds, steps) && i < |worlds|
    ensures WorkersAreOld(worlds[i])
  {
    if i > 0 {
      WorkersOfRun(worlds, steps, i - 1);
      WorkersStep(worlds[i - 1], steps[i - 1]);
    }
  }

  /** A spawn adds exactly one worker, a new one, and gives the start lock back; a failed one only gives it back. */
  lemma {:induction false} SpawnMeans(worlds: seq<World>, steps: seq<Step>, i: nat)
    requires IsRun(worlds, steps) && i < |steps| && steps[i].Spawn?
    ensures var w, w' := worlds[i], worlds[i + 1];
            && w.startLock == Some(steps[i].call) && w'.startLock == None && w'.businessWrites == w.businessWrites
            && At(w', steps[i].call, Inside) && w'.flag == w.flag
            && (if steps[i].ok then exists k :: k !in w.workers && w'.workers == w.workers + {k}
                else w'.workers == w.workers)
  {
    RunInv(worlds, steps, i);
    WorkersOfRun(worlds, steps, i);
    assert worlds[i].nextWorker !in worlds[i].workers;
  }

  /** Workers appear by spawns only, and go by an exit or the watcher's stop only. */
  lemma {:induction false} WorkersChangeBy(w: World, step: Step, k: nat)
    requires Enabled(w, step)
    ensures k !in w.workers && k in Apply(w, step).workers ==> step.Spawn? && step.ok
    ensures k in w.workers && k !in Apply(w, step).workers ==> step == WorkerExit(k) || step == WatcherStop
    ensures step == WorkerExit(k) || step == WatcherStop ==> k !in Apply(w, step).workers
  {
  }

  // ----- readers -----

  /** Each reading goes on exactly when it finds nothing, and otherwise the reader starts over. */
  lemma {:induction false} ReadMeans(w: World, step: Step)
    requires Enabled(w, step)
    requires step.ReadFlag? || step.ReadLeases? || step.ReadWrites? || step.ReadWorkers?
    ensures var w', r := Apply(w, step), step.reader;
            && w' == w.(readers := w'.readers) && r in w'.readers && w'.readers == w.readers[r := w'.readers[r]]
            && (step.ReadFlag? ==> w'.readers[r] == if w.flag then SawFlag(w.period) else Idle)
            && (step.ReadLeases? ==>
                  w'.readers[r] ==
                  if forall c :: c in w.calls ==> !InsideAs(w.calls[c], Leased)
                  then SawNoLease(w.readers[r].period) else Idle)
            && (step.ReadWrites? ==>
                  w'.readers[r] == if w.businessWrites == 0 then SawNoWrite(w.readers[r].period) else Idle)
            && (step.ReadWorkers? ==>
                  w'.readers[r] == if w.workers == {} then Ready(w.readers[r].period) else Idle)
  {
    if step.ReadLeases? {
      LeasesMean(w);
    }
  }

  lemma {:induction false} LeasesMean(w: World)
    ensures OpenOf(w, Leased) == {} <==> forall c :: c in w.calls ==> !InsideAs(w.calls[c], Leased)
  {
    assert forall c: CallId :: c in OpenOf(w, Leased) <==> c in w.calls && InsideAs(w.calls[c], Leased);
  }

  /** Nothing a reader looks at is going on. */
  ghost predicate NothingGoesOn(w: World) {
    && w.flag && w.businessWrites == 0 && w.workers == {} && w.counterLock == None
    && forall c :: c in w.calls ==> !InsideAs(w.calls[c], Leased)
  }

  /** The readings of one reader, without other steps in between. */
  function Readings(r: ReaderId): seq<Step> {
    [ReadFlag(r), ReadLeases(r), ReadWrites(r), ReadWorkers(r)]
  }

  lemma {:induction false} NextReading(w: World, step: Step, now: Reader, next: Reader)
    requires NothingGoesOn(w)
    requires step.ReadLeases? || step.ReadWrites? || step.ReadWorkers? ==> ReaderAt(w, step.reader) == now
    requires || (step.ReadFlag? && next == SawFlag(w.period))
             || (step.ReadLeases? && now == SawFlag(w.period) && next == SawNoLease(w.period))
             || (step.ReadWrites? && now == SawNoLease(w.period) && next == SawNoWrite(w.period))
             || (step.ReadWorkers? && now == SawNoWrite(w.period) && next == Ready(w.period))
    ensures Enabled(w, step) && ReaderAt(Apply(w, step), step.reader) == next
    ensures NothingGoesOn(Apply(w, step)) && Apply(w, step).period == w.period
  {
    ReadMeans(w, step);
  }

  /** So a reader that is left to itself while nothing goes on reports ready for this period. */
  lemma {:induction false} QuietReaderReportsReady(w: World, r: ReaderId) returns (worlds: seq<World>)
    requires NothingGoesOn(w)
    ensures Follows(worlds, Readings(r)) && worlds[0] == w && ReaderAt(worlds[4], r) == Ready(w.period)
  {
    NextReading(w, ReadFlag(r), Idle, SawFlag(w.period));
    var w1 := Apply(w, ReadFlag(r));
    NextReading(w1, ReadLeases(r), SawFlag(w.period), SawNoLease(w.period));
    var w2 := Apply(w1, ReadLeases(r));
    NextReading(w2, ReadWrites(r), SawNoLease(w.period), SawNoWrite(w.period));
    var w3 := Apply(w2, ReadWrites(r));
    NextReading(w3, ReadWorkers(r), SawNoWrite(w.period), Ready(w.period));
    worlds := [w, w1, w2, w3, Apply(w3, ReadWorkers(r))];
  }

  /** Clearing the flag ends the period: no finding of any reader is about the new one. */
  lemma {:induction false} PeriodEnds(worlds: seq<World>, steps: seq<Step>, i: nat, r: ReaderId)
    requires IsRun(worlds, steps) && i < |steps| && steps[i].ClearFlag?
    ensures !worlds[i + 1].flag && worlds[i + 1].readers == worlds[i].readers
    ensures r in worlds[i + 1].readers && !worlds[i + 1].readers[r].Idle? ==>
              worlds[i + 1].readers[r].period < worlds[i + 1].period
  {
    RunInv(worlds, steps, i);
  }

  // ----- the handshake ends -----

  /** Whoever holds a lock can take the step that gives it back. */
  lemma {:induction false} LocksComeBack(worlds: seq<World>, steps: seq<Step>, i: nat)
    requires IsRun(worlds, steps) && i < |worlds|
    ensures var w := worlds[i];
            && (w.counterLock.Some? ==>
                  Enabled(w, Count(w.counterLock.value)) && Apply(w, Count(w.counterLock.value)).counterLock == None)
            && (w.startLock.Some? ==>
                  forall ok :: Enabled(w, Spawn(w.startLock.value, ok))
                               && Apply(w, Spawn(w.startLock.value, ok)).startLock == None)
  {
    RunInv(worlds, steps, i);
  }

  /** And a call that is inside can always leave while the counter lock is free, which takes it out of the count. */
  lemma {:induction false} CallsLeave(w: World, c: CallId)
    requires At(w, c, Inside) && w.counterLock == None
    ensures Enabled(w, Leave(c)) && At(Apply(w, Leave(c)), c, Gone)
    ensures Apply(w, Leave(c)).businessWrites == w.businessWrites - if w.calls[c].kind == Counted then 1 else 0
  {
  }
}
