/**
 * What the answers of start, stop, adopt and the reaper mean, said of the
 * dictionaries alone, and what each call achieves when nobody interferes.
 */
module SupervisorLaws {
  import opened Common
  import opened SupervisorModel
  import opened SupervisorRuns
  import opened SupervisorTheorems

  /** The shop has a registered process that is alive. */
  predicate LiveWorker(s: State, key: Key) {
    key in s.procs && s.procs[key] in s.live
  }

  /** The shop is idle: no live process, none being retired, no slot held. */
  predicate Idle(s: State, key: Key) {
    !LiveWorker(s, key) && key !in s.transitions && key !in s.reservations
  }

  function Counted(s: State): set<Key> {
    set k | k in s.procs.Keys + s.transitions.Keys + s.reservations.Keys &&
            (LiveWorker(s, k) || k in s.transitions || k in s.reservations)
  }

  lemma {:induction false} CountedKeys(s: State)
    ensures Counted(s) == RunningKeys(s)
  {
  }

  // ----- modes -----

  predicate ModesMatch(s: State) {
    s.modes.Keys == s.procs.Keys
  }

  lemma {:induction false} StopModes(s: State, key: Key, caller: Caller)
    requires ModesMatch(s)
    ensures ModesMatch(StopState(s, key, caller))
  {
  }

  lemma {:induction false} AdvanceModes(s: State, pc: Pc, choice: bool, limit: nat)
    requires ModesMatch(s) && Resolvable(s, pc)
    ensures ModesMatch(AdvanceMem(s, pc, choice, limit))
  {
    if pc.StopEnter? {
      StopModes(s, pc.key, pc.caller);
    }
  }

  lemma {:induction false} ModesStep(w: World, step: Step, limit: nat)
    requires ModesMatch(w.mem) && Enabled(w, step)
    ensures ModesMatch(Apply(w, step, limit).mem)
  {
    if step.Advance? {
      AdvanceModes(w.mem, w.threads[step.thread], step.choice, limit);
    }
  }

  /** In every reachable world exactly the registered shops have a mode. */
  lemma {:induction false} ModesFollowProcesses(worlds: seq<World>, steps: seq<Step>, limit: nat, i: nat)
    requires IsRun(worlds, steps, limit) && i < |worlds|
    ensures worlds[i].mem.modes.Keys == worlds[i].mem.procs.Keys
  {
    if i > 0 {
      ModesFollowProcesses(worlds, steps, limit, i - 1);
      ModesStep(worlds[i - 1], steps[i - 1], limit);
    }
  }

  // ----- the answers of start -----

  /** The pending transition of the shop is being worked on by another thread. */
  predicate BeingRetired(s: State, key: Key) {
    key in s.transitions && s.transitions[key] in s.objects && s.objects[s.transitions[key]].terminating
  }

  /**
   * The first section of start ends the call exactly when the shop's slot is
   * held, its transition is being worked on, or a live worker already runs in
   * the requested mode, and never touches the dictionaries.
   */
  lemma {:induction false} StartAnswers(worlds: seq<World>, steps: seq<Step>, limit: nat, i: nat, th: Thread, key: Key,
                                        mode: Mode)
    requires IsRun(worlds, steps, limit) && i < |steps| && steps[i] == CallStart(th, key, mode)
    ensures worlds[i + 1].mem == worlds[i].mem && th in worlds[i + 1].threads
    ensures var s, pc := worlds[i].mem, worlds[i + 1].threads[th];
            && (pc.Done? && pc.outcome == AlreadyRunning <==>
                  && key !in s.reservations && key !in s.transitions
                  && key in s.procs && s.procs[key] in s.live && key in s.modes && s.modes[key] == mode)
            && (pc.Done? && pc.outcome != AlreadyRunning <==> key in s.reservations || BeingRetired(s, key))
            && (pc.Done? ==> pc.outcome == AlreadyRunning || pc.outcome == TransitionInProgress)
  {
  }

  /** A live worker in another mode, with nothing else going on: the call goes on to the restart. */
  lemma {:induction false} OtherModeGoesOn(worlds: seq<World>, steps: seq<Step>, limit: nat, i: nat, th: Thread,
                                           key: Key, mode: Mode)
    requires IsRun(worlds, steps, limit) && i < |steps| && steps[i] == CallStart(th, key, mode)
    requires var s := worlds[i].mem;
             && LiveWorker(s, key) && key !in s.transitions && key !in s.reservations
             && key in s.modes && s.modes[key] != mode
    ensures th in worlds[i + 1].threads && !worlds[i + 1].threads[th].Done?
  {
    StartAnswers(worlds, steps, limit, i, th, key, mode);
  }

  /** The six answers of the spawning section, each with its exact condition. */
  lemma {:induction false} SpawnAnswers(s: State, key: Key, token: Option<Token>, limit: nat, spawnOk: bool)
    ensures var lost := token.Some? && !(key in s.reservations && s.reservations[key] == token.value);
            var full := token.None? && |Counted(s)| >= limit;
            var busy, live := key in s.transitions, LiveWorker(s, key);
            var outcome := SpawnOutcome(s, key, token, limit, spawnOk);
            && (outcome == StartCancelled <==> lost)
            && (outcome == TransitionInProgress <==> !lost && busy)
            && (outcome == AlreadyRunning <==> !lost && !busy && live)
            && (outcome == MaxBotsReached <==> !lost && !busy && !live && full)
            && (outcome == Started <==> !lost && !busy && !live && !full && spawnOk)
            && (outcome == SpawnFailed <==> !lost && !busy && !live && !full && !spawnOk)
  {
    CountedKeys(s);
  }

  /**
   * A start that reports success has put a process that did not exist before
   * under the shop, alive and in the requested mode; any other answer of the
   * spawning section leaves the dictionaries alone.
   */
  lemma {:induction false} StartedMeansRunning(worlds: seq<World>, steps: seq<Step>, limit: nat, i: nat, th: Thread)
    requires IsRun(worlds, steps, limit) && i < |steps| && steps[i].Advance? && steps[i].thread == th
    requires th in worlds[i].threads && worlds[i].threads[th].StartSpawn?
    ensures th in worlds[i + 1].threads
    ensures var pc, pc', s, s' := worlds[i].threads[th], worlds[i + 1].threads[th], worlds[i].mem, worlds[i + 1].mem;
            && (pc'.Done? || pc'.StartFinish?)
            && if pc'.outcome == Started then
                 && pc.key in s'.procs && s'.procs[pc.key] !in s.owner && s'.procs[pc.key] in s'.live
                 && pc.key in s'.modes && s'.modes[pc.key] == pc.mode
                 && pc.key in s'.generations && s'.generations[pc.key] > Generation(s, pc.key)
                 && s'.reservations == s.reservations && s'.transitions == s.transitions
               else s' == s
  {
    RunInv(worlds, steps, limit, i);
  }

  // ----- nobody waits for nothing -----

  /** A thread that will record the result of killing the process of t. */
  predicate Kills(pc: Pc, t: TransitionId) {
    (pc.StopKill? || pc.StopKilled?) && pc.t == t
  }

  ghost predicate HasKiller(w: World, t: TransitionId) {
    exists th :: th in w.threads && Kills(w.threads[th], t)
  }

  /** A transition's event is set exactly while nobody claims to terminate it, and a claim has a thread behind it. */
  ghost predicate Attended(w: World) {
    forall t :: t in w.mem.objects ==>
      && (w.mem.objects[t].done <==> !w.mem.objects[t].terminating)
      && (w.mem.objects[t].terminating ==> HasKiller(w, t))
  }

  ghost predicate AttendedAt(w: World, t: TransitionId) {
    t in w.mem.objects ==>
      && (w.mem.objects[t].done <==> !w.mem.objects[t].terminating)
      && (w.mem.objects[t].terminating ==> HasKiller(w, t))
  }

  /** One transition object before and after: as it was, served, or claimed by a killer at program point pc'. */
  predicate ObjectMoved(s: State, s': State, pc': Pc, t: TransitionId) {
    t in s'.objects ==>
      || (t in s.objects && s'.objects[t] == s.objects[t])
      || (t in s.objects && s'.objects[t].done && !s'.objects[t].terminating)
      || (!s'.objects[t].done && s'.objects[t].terminating && Kills(pc', t))
  }

  lemma {:induction false} PublishMoves(s: State, key: Key, t0: TransitionId, ok: bool, pc': Pc, t: TransitionId)
    requires t0 in s.objects
    ensures ObjectMoved(s, Publish(s, key, t0, ok), pc', t)
  {
  }

  lemma {:induction false} RetryMoves(s: State, key: Key, caller: Caller, t0: TransitionId, t: TransitionId)
    requires t0 in s.objects
    ensures ObjectMoved(s, RetryState(s, key, t0), RetryPc(s, key, caller, t0), t)
  {
  }

  lemma {:induction false} StopMoves(s: State, key: Key, caller: Caller, t: TransitionId)
    ensures ObjectMoved(s, StopState(s, key, caller), StopPc(s, key, caller), t)
  {
  }

  lemma {:induction false} OthersMove(s: State, pc: Pc, choice: bool, limit: nat)
    requires Resolvable(s, pc) && !pc.StopEnter? && !pc.StopRetry? && !pc.StopKilled? && !pc.StartRetired?
    ensures AdvanceMem(s, pc, choice, limit).objects == s.objects
  {
  }

  /** How a thread's step changes one transition object. */
  lemma {:induction false} ObjectMoves(s: State, pc: Pc, choice: bool, limit: nat, t: TransitionId)
    requires Resolvable(s, pc)
    ensures ObjectMoved(s, AdvanceMem(s, pc, choice, limit), AdvancePc(s, pc, choice, limit), t)
  {
    match pc
    case StopEnter(key, caller) => StopMoves(s, key, caller, t);
    case StopRetry(key, caller, t0) => RetryMoves(s, key, caller, t0, t);
    case StopKilled(key, _, t0, ok) => PublishMoves(s, key, t0, ok, AdvancePc(s, pc, choice, limit), t);
    case StartRetired(key, _, _, t0, ok) => PublishMoves(s, key, t0, ok, AdvancePc(s, pc, choice, limit), t);
    case _ => OthersMove(s, pc, choice, limit);
  }

  /** A killer stays one until it has recorded its result. */
  lemma {:induction false} KillerStays(s: State, pc: Pc, choice: bool, limit: nat, t: TransitionId)
    requires Resolvable(s, pc) && Kills(pc, t) && t in s.objects
    ensures Kills(AdvancePc(s, pc, choice, limit), t) ||
            (t in AdvanceMem(s, pc, choice, limit).objects && !AdvanceMem(s, pc, choice, limit).objects[t].terminating)
  {
  }

  lemma {:induction false} AttendedAdvance(w: World, th: Thread, choice: bool, limit: nat, w': World, t: TransitionId)
    requires Attended(w) && Enabled(w, Advance(th, choice)) && w' == Apply(w, Advance(th, choice), limit)
    ensures AttendedAt(w', t)
  {
    var pc := w.threads[th];
    ObjectMoves(w.mem, pc, choice, limit, t);
    assert th in w'.threads && w'.threads[th] == AdvancePc(w.mem, pc, choice, limit);
    if t in w'.mem.objects && t in w.mem.objects && w'.mem.objects[t] == w.mem.objects[t]
       && w'.mem.objects[t].terminating {
      var u :| u in w.threads && Kills(w.threads[u], t);
      if u == th {
        KillerStays(w.mem, pc, choice, limit, t);
      }
      assert u in w'.threads && Kills(w'.threads[u], t);
    }
  }

  lemma {:induction false} AttendedElsewhere(w: World, step: Step, limit: nat, w': World, t: TransitionId)
    requires Attended(w) && Enabled(w, step) && !step.Advance? && w' == Apply(w, step, limit)
    ensures AttendedAt(w', t)
  {
    if t in w'.mem.objects && w'.mem.objects[t].terminating {
      var u :| u in w.threads && Kills(w.threads[u], t);
      assert u in w'.threads && Kills(w'.threads[u], t);
    }
  }

  lemma {:induction false} RunAttended(worlds: seq<World>, steps: seq<Step>, limit: nat, i: nat)
    requires IsRun(worlds, steps, limit) && i < |worlds|
    ensures Attended(worlds[i])
  {
    if i > 0 {
      RunAttended(worlds, steps, limit, i - 1);
      forall t | t in worlds[i].mem.objects ensures AttendedAt(worlds[i], t) {
        if steps[i - 1].Advance? {
          AttendedAdvance(worlds[i - 1], steps[i - 1].thread, steps[i - 1].choice, limit, worlds[i], t);
        } else {
          AttendedElsewhere(worlds[i - 1], steps[i - 1], limit, worlds[i], t);
        }
      }
    }
  }

  /**
   * A stop that waits for another thread never waits for nothing: unless the
   * event is set, some thread is still going to set it; and a shop is refused
   * as being retired only while such a thread exists.
   */
  lemma {:induction false} WaitersAreServed(worlds: seq<World>, steps: seq<Step>, limit: nat, i: nat, t: TransitionId)
    requires IsRun(worlds, steps, limit) && i < |worlds| && t in worlds[i].mem.objects
    ensures worlds[i].mem.objects[t].done || exists th :: th in worlds[i].threads && Kills(worlds[i].threads[th], t)
    ensures worlds[i].mem.objects[t].terminating ==>
              exists th :: th in worlds[i].threads && Kills(worlds[i].threads[th], t)
  {
    RunAttended(worlds, steps, limit, i);
  }

  // ----- the sections on their own -----

  lemma {:induction false} BookedFacts(s: State, key: Key, caller: Caller)
    ensures var b := Booked(s, key, caller);
            && b.generations == s.generations[key := Generation(s, key) + 1]
            && b.reservations == (if caller.Client? then s.reservations - {key} else s.reservations)
            && b == s.(reservations := b.reservations, generations := b.generations)
  {
  }

  lemma {:induction false} DetachedFacts(s: State, key: Key)
    requires key in s.procs
    ensures var d := Detach(s, key);
            && d == s.(procs := s.procs - {key}, modes := s.modes - {key}, objects := d.objects,
                       transitions := s.transitions[key := s.next], next := s.next + 1)
            && d.objects == s.objects[s.next := Transition(s.procs[key], None, true, false)]
  {
  }

  /** An outside stop of a shop that is already being retired waits for that. */
  lemma {:induction false} OutsideStopWaits(s: State, key: Key)
    requires key in s.transitions
    ensures var s' := StopState(s, key, Client);
            && StopPc(s, key, Client) == StopWait(key, Client, s.transitions[key])
            && s' == s.(reservations := s.reservations - {key},
                        generations := s.generations[key := Generation(s, key) + 1])
  {
    BookedFacts(s, key, Client);
  }

  /** One of a shop without a live worker clears what is left of it and answers so. */
  lemma {:induction false} OutsideStopClears(s: State, key: Key)
    requires key !in s.transitions && !LiveWorker(s, key)
    ensures var s' := StopState(s, key, Client);
            && StopPc(s, key, Client) == Done(key, NotRunning, None)
            && s' == s.(reservations := s.reservations - {key},
                        generations := s.generations[key := Generation(s, key) + 1],
                        procs := s.procs - {key}, modes := s.modes - {key})
  {
    BookedFacts(s, key, Client);
  }

  /** One of a running shop moves the process into a transition of its own and goes on to kill it. */
  lemma {:induction false} OutsideStopDetaches(s: State, key: Key)
    requires key !in s.transitions && LiveWorker(s, key)
    ensures var s' := StopState(s, key, Client);
            && StopPc(s, key, Client) == StopKill(key, Client, s.next)
            && s' == s.(reservations := s.reservations - {key},
                        generations := s.generations[key := Generation(s, key) + 1],
                        procs := s.procs - {key}, modes := s.modes - {key}, next := s.next + 1,
                        transitions := s.transitions[key := s.next],
                        objects := s.objects[s.next := Transition(s.procs[key], None, true, false)])
  {
    BookedFacts(s, key, Client);
    DetachedFacts(Booked(s, key, Client), key);
  }

  /** The stop inside a restart is refused exactly when the restart's slot is gone, and then nothing is touched. */
  lemma {:induction false} RestartStopNeedsSlot(s: State, key: Key, mode: Mode, token: Token)
    requires !(key in s.reservations && s.reservations[key] == token)
    ensures StopState(s, key, Restart(mode, token)) == s
    ensures StopPc(s, key, Restart(mode, token)) == StartFinish(key, token, StartCancelled)
  {
  }

  /** Otherwise it does what an outside stop does, but keeps the slot and goes on to spawn where nothing runs. */
  lemma {:induction false} RestartStopKeepsSlot(s: State, key: Key, mode: Mode, token: Token)
    requires key in s.reservations && s.reservations[key] == token
    ensures var caller, s' := Restart(mode, token), StopState(s, key, Restart(mode, token));
            && s' == StopState(s, key, Client).(reservations := s.reservations)
            && StopPc(s, key, caller) ==
               if key in s.transitions then StopWait(key, caller, s.transitions[key])
               else if LiveWorker(s, key) then StopKill(key, caller, s.next)
               else StartSpawn(key, mode, Some(token))
  {
    BookedKeeping(s, key, mode, token);
    if key !in s.transitions && LiveWorker(s, key) {
      DetachKeeping(Booked(s, key, Client), key, s.reservations);
    }
  }

  lemma {:induction false} BookedKeeping(s: State, key: Key, mode: Mode, token: Token)
    ensures Booked(s, key, Restart(mode, token)) == Booked(s, key, Client).(reservations := s.reservations)
  {
  }

  lemma {:induction false} DetachKeeping(s: State, key: Key, slots: map<Key, Token>)
    requires key in s.procs
    ensures Detach(s.(reservations := slots), key) == Detach(s, key).(reservations := slots)
  {
  }

  /** After the spawning section a restart goes on to give its slot back; any other start has its answer. */
  lemma {:induction false} SpawnGoesOn(s: State, key: Key, token: Option<Token>, limit: nat, spawnOk: bool)
    ensures var pc, outcome := SpawnPc(s, key, token, limit, spawnOk), SpawnOutcome(s, key, token, limit, spawnOk);
            && (token.Some? ==> pc == StartFinish(key, token.value, outcome))
            && (token.None? ==> pc == Done(key, outcome, None))
  {
  }

  /** The last section of a restart gives back its own slot, and nobody else's. */
  lemma {:induction false} OwnSlotIsGivenBack(s: State, key: Key, token: Token)
    ensures FinishState(s, key, token) ==
            if key in s.reservations && s.reservations[key] == token then s.(reservations := s.reservations - {key})
            else s
  {
  }

  /** The count has each shop once that runs, is being retired or is reserved: everybody's, or those of one user. */
  lemma {:induction false} CountMeans(s: State, k: Key, user: int)
    ensures k in RunningOf(s, None) <==> !Idle(s, k)
    ensures k in RunningOf(s, Some(user)) <==> !Idle(s, k) && k.user == user
  {
  }

  /** The reserving section: refused for a transition, a slot or a changed generation; else it takes a live slot. */
  lemma {:induction false} ReserveAnswers(s: State, key: Key, mode: Mode, generation: nat)
    ensures var refused := key in s.transitions || key in s.reservations ||
                           generation != (if key in s.generations then s.generations[key] else 0);
            var s', pc := ReserveState(s, key, generation), ReservePc(s, key, mode, generation);
            if refused then s' == s && pc == Done(key, TransitionInProgress, None)
            else if LiveWorker(s, key) then
              && s' == s.(reservations := s.reservations[key := s.next], next := s.next + 1)
              && pc == StopEnter(key, Restart(mode, s.next))
            else s' == s && pc == StartSpawn(key, mode, None)
  {
  }

  /** Recording a kill: the object is released and its event set; the shop is free only if the process is dead. */
  lemma {:induction false} KillIsRecorded(s: State, key: Key, t: TransitionId, ok: bool)
    requires t in s.objects
    ensures var s' := Publish(s, key, t, ok);
            && s'.objects == s.objects[t := Transition(s.objects[t].proc, Some(ok), false, true)]
            && (ok && key in s.transitions && s.transitions[key] == t ==> s'.transitions == s.transitions - {key})
            && (!(ok && key in s.transitions && s.transitions[key] == t) ==> s'.transitions == s.transitions)
            && s' == s.(objects := s'.objects, transitions := s'.transitions)
  {
  }

  /** What a stop that waited finds when it wakes up. */
  lemma {:induction false} WokenStopAnswers(s: State, key: Key, t: TransitionId)
    requires t in s.objects
    ensures var mine := key in s.transitions && s.transitions[key] == t;
            var dead, claimed := s.objects[t].terminated == Some(true), s.objects[t].terminating;
            var s', pc, p := RetryState(s, key, t), RetryPc(s, key, Client, t), s.objects[t].proc;
            && (!mine ==> s' == s && pc == Done(key, Stopped, Some(p)))
            && (mine && dead ==> s' == s.(transitions := s.transitions - {key}) && pc == Done(key, Stopped, Some(p)))
            && (mine && !dead && claimed ==> s' == s && pc == Done(key, StopTimeout, Some(p)))
            && (mine && !dead && !claimed ==>
                  && s' == s.(objects := s.objects[t := s.objects[t].(terminating := true, done := false)])
                  && pc == StopKill(key, Client, t))
  {
  }

  /** A restart goes on to spawn exactly after a stop that left no process, else it ends with the stop's answer. */
  lemma {:induction false} RestartAfterStop(key: Key, mode: Mode, token: Token, outcome: Outcome, victim: Option<Proc>)
    ensures StopReturn(key, Restart(mode, token), outcome, victim) ==
              if outcome == Stopped || outcome == NotRunning then StartSpawn(key, mode, Some(token))
              else StartFinish(key, token, outcome)
    ensures StopReturn(key, Client, outcome, victim) == Done(key, outcome, victim)
  {
  }

  /**
   * A start that finds the transition of a stop that failed tries the kill
   * again: with success the shop is free and the start goes on, without it
   * nothing has changed and the start is refused.
   */
  lemma {:induction false} StaleTransitionIsRetried(s: State, key: Key, mode: Mode, limit: nat)
    requires key in s.transitions && s.transitions[key] in s.objects && !s.objects[s.transitions[key]].terminating
    requires key !in s.reservations
    ensures var t, g := s.transitions[key], Generation(s, key);
            && StartCheck(s, key, mode) == StartRetire(key, mode, g, t)
            && AdvancePc(s, StartRetire(key, mode, g, t), true, limit) == StartRetired(key, mode, g, t, true)
            && AdvanceMem(s, StartRetire(key, mode, g, t), true, limit) == s.(live := s.live - {s.objects[t].proc})
            && AdvancePc(s, StartRetired(key, mode, g, t, true), true, limit) == StartReserve(key, mode, g)
            && AdvanceMem(s, StartRetired(key, mode, g, t, true), true, limit).transitions == s.transitions - {key}
            && AdvancePc(s, StartRetire(key, mode, g, t), false, limit) == StartRetired(key, mode, g, t, false)
            && AdvanceMem(s, StartRetire(key, mode, g, t), false, limit) == s
            && AdvancePc(s, StartRetired(key, mode, g, t, false), true, limit) == Done(key, TransitionInProgress, None)
            && AdvanceMem(s, StartRetired(key, mode, g, t, false), true, limit).transitions == s.transitions
  {
  }

  /** Adoption registers a verified process of an idle shop, in the rules mode, and otherwise changes nothing. */
  lemma {:induction false} AdoptRegisters(s: State, key: Key, verified: bool)
    ensures var s', answer := AdoptState(s, key, verified), AdoptOutcome(s, key, verified);
            && (answer == AlreadyRunning <==> !Idle(s, key))
            && (answer == PidMismatch <==> Idle(s, key) && !verified)
            && (answer == Adopted <==> Idle(s, key) && verified)
            && (answer != Adopted ==> s' == s)
            && (answer == Adopted ==>
                  && s'.procs == s.procs[key := s.next] && s'.live == s.live + {s.next}
                  && s'.modes == s.modes[key := Rules]
                  && s'.transitions == s.transitions && s'.reservations == s.reservations
                  && Generation(s', key) == Generation(s, key) + 1)
  {
  }

  /** After a reaper pass every registered process is alive, and the live ones are all still registered. */
  lemma {:induction false} ReaperCleans(s: State, k: Key)
    ensures var s' := Reaped(s);
            && (k in s'.procs <==> LiveWorker(s, k)) && (k in s'.procs ==> s'.procs[k] == s.procs[k])
            && (k in s'.modes <==> k in s.modes && !(k in s.procs && s.procs[k] !in s.live))
            && (k in s'.modes ==> s'.modes[k] == s.modes[k])
            && Generation(s', k) == Generation(s, k) + (if k in s.procs && s.procs[k] !in s.live then 1 else 0)
            && s'.live == s.live && s'.transitions == s.transitions && s'.reservations == s.reservations
  {
  }
}

/** What a call achieves when it runs through without interruption. */
module UndisturbedCalls {
  import opened Common
  import opened SupervisorModel
  import opened SupervisorRuns
  import opened SupervisorTheorems
  import opened SupervisorLaws

  ghost predicate Goes(w: World, step: Step, limit: nat, w': World) {
    Enabled(w, step) && w' == Apply(w, step, limit)
  }

  /** Exactly these steps, one after the other, lead from the first world to the last. */
  ghost predicate Leads(worlds: seq<World>, steps: seq<Step>, limit: nat) {
    |worlds| == |steps| + 1 && forall i :: 0 <= i < |steps| ==> Goes(worlds[i], steps[i], limit, worlds[i + 1])
  }

  lemma {:induction false} LeadsJoin(a: seq<World>, sa: seq<Step>, b: seq<World>, sb: seq<Step>, limit: nat)
    requires Leads(a, sa, limit) && Leads(b, sb, limit) && a[|sa|] == b[0]
    ensures Leads(a + b[1..], sa + sb, limit) && (a + b[1..])[|sa| + |sb|] == b[|sb|] && (a + b[1..])[0] == a[0]
  {
    var ws, ss := a + b[1..], sa + sb;
    forall i | 0 <= i < |ss| ensures Goes(ws[i], ss[i], limit, ws[i + 1]) {
      if i >= |sa| {
        assert ss[i] == sb[i - |sa|] && ws[i] == b[i - |sa|] && ws[i + 1] == b[i - |sa| + 1];
      } else {
        assert ss[i] == sa[i] && ws[i] == a[i] && ws[i + 1] == a[i + 1];
      }
    }
  }

  lemma {:induction false} LeadsTwo(w: World, a: Step, w1: World, b: Step, w2: World, limit: nat)
    requires Goes(w, a, limit, w1) && Goes(w1, b, limit, w2)
    ensures Leads([w, w1, w2], [a, b], limit)
  {
  }

  lemma {:induction false} LeadsThree(w: World, a: Step, w1: World, b: Step, w2: World, c: Step, w3: World, limit: nat)
    requires Goes(w, a, limit, w1) && Goes(w1, b, limit, w2) && Goes(w2, c, limit, w3)
    ensures Leads([w, w1, w2, w3], [a, b, c], limit)
  {
  }

  lemma {:induction false} ThreadTwice(threads: map<Thread, Pc>, th: Thread, a: Pc, b: Pc)
    ensures threads[th := a][th := b] == threads[th := b]
  {
  }

  /** A thread's next step, from what the step functions say about its program point. */
  lemma {:induction false} StepTo(w: World, th: Thread, limit: nat, pc': Pc, w': World)
    requires th in w.threads && !w.threads[th].Done? && !w.threads[th].StopWait? && Resolvable(w.mem, w.threads[th])
    requires pc' == AdvancePc(w.mem, w.threads[th], true, limit)
    requires w'.mem == AdvanceMem(w.mem, w.threads[th], true, limit) && w'.threads == w.threads[th := pc']
    ensures Goes(w, Advance(th, true), limit, w')
  {
  }

  // ----- starting an idle shop -----

  /** A new process of the shop, in this mode; nothing else has changed. */
  predicate StartsNew(s: State, s': State, key: Key, mode: Mode) {
    && s'.procs == s.procs[key := s.next] && s'.live == s.live + {s.next} && s'.modes == s.modes[key := mode]
    && s'.transitions == s.transitions && s'.reservations == s.reservations
  }

  lemma {:induction false} Registered(s: State, key: Key, mode: Mode)
    ensures StartsNew(s, Register(s, key, mode), key, mode)
  {
  }

  lemma {:induction false} StartCalls(w: World, th: Thread, key: Key, mode: Mode, limit: nat, w1: World)
    requires th !in w.threads && Idle(w.mem, key)
    requires w1 == World(w.mem, w.threads[th := StartReserve(key, mode, Generation(w.mem, key))])
    ensures Goes(w, CallStart(th, key, mode), limit, w1)
  {
  }

  lemma {:induction false} StartFindsIdle(w: World, th: Thread, key: Key, mode: Mode, limit: nat, w': World)
    requires Get(w.threads, th) == Some(StartReserve(key, mode, Generation(w.mem, key))) && Idle(w.mem, key)
    requires w' == World(w.mem, w.threads[th := StartSpawn(key, mode, None)])
    ensures Goes(w, Advance(th, true), limit, w')
  {
  }

  lemma {:induction false} StartSpawns(w: World, th: Thread, key: Key, mode: Mode, limit: nat, w': World)
    requires Get(w.threads, th) == Some(StartSpawn(key, mode, None)) && Idle(w.mem, key) && |Counted(w.mem)| < limit
    requires w' == World(Register(w.mem, key, mode), w.threads[th := Done(key, Started, None)])
    ensures Goes(w, Advance(th, true), limit, w')
  {
    CountedKeys(w.mem);
  }

  /** Starting an idle shop below the limit runs a new worker in the requested mode. */
  lemma {:induction false} UndisturbedStart(w: World, th: Thread, key: Key, mode: Mode, limit: nat)
    returns (worlds: seq<World>)
    requires th !in w.threads && Idle(w.mem, key) && |Counted(w.mem)| < limit
    ensures Leads(worlds, [CallStart(th, key, mode), Advance(th, true), Advance(th, true)], limit) && worlds[0] == w
    ensures worlds[3].threads == w.threads[th := Done(key, Started, None)] && StartsNew(w.mem, worlds[3].mem, key, mode)
  {
    var reserve, spawn, last := StartReserve(key, mode, Generation(w.mem, key)), StartSpawn(key, mode, None),
                                Done(key, Started, None);
    var w1, w2 := World(w.mem, w.threads[th := reserve]), World(w.mem, w.threads[th := spawn]);
    var w3 := World(Register(w.mem, key, mode), w.threads[th := last]);
    ThreadTwice(w.threads, th, reserve, spawn);
    ThreadTwice(w.threads, th, spawn, last);
    StartCalls(w, th, key, mode, limit, w1);
    StartFindsIdle(w1, th, key, mode, limit, w2);
    StartSpawns(w2, th, key, mode, limit, w3);
    Registered(w.mem, key, mode);
    LeadsThree(w, CallStart(th, key, mode), w1, Advance(th, true), w2, Advance(th, true), w3, limit);
    worlds := [w, w1, w2, w3];
  }

  // ----- stopping a running shop -----

  /** The worker of the shop is gone, dead and forgotten; `slots` are the reservations left. */
  predicate StopsWorker(s: State, s': State, key: Key, slots: map<Key, Token>)
    requires key in s.procs
  {
    && s'.procs == s.procs - {key} && s'.modes == s.modes - {key} && s'.live == s.live - {s.procs[key]}
    && s'.transitions == s.transitions && s'.reservations == slots
  }

  function Slots(s: State, key: Key, caller: Caller): map<Key, Token> {
    if caller.Client? then s.reservations - {key} else s.reservations
  }

  /** The shop's process in its own new transition, before the kill. */
  function Detached(s: State, key: Key, caller: Caller): State
    requires key in s.procs
  {
    s.(reservations := Slots(s, key, caller), generations := s.generations[key := Generation(s, key) + 1],
       procs := s.procs - {key}, modes := s.modes - {key}, next := s.next + 1,
       transitions := s.transitions[key := s.next],
       objects := s.objects[s.next := Transition(s.procs[key], None, true, false)])
  }

  lemma {:induction false} StopDetaches(s: State, key: Key, caller: Caller)
    requires LiveWorker(s, key) && key !in s.transitions
              && (caller.Restart? ==> Get(s.reservations, key) == Some(caller.token))
    ensures StopState(s, key, caller) == Detached(s, key, caller)
    ensures StopPc(s, key, caller) == StopKill(key, caller, s.next)
  {
    BookedFacts(s, key, caller);
    DetachedFacts(Booked(s, key, caller), key);
  }

  lemma {:induction false} PublishForgets(s: State, key: Key, caller: Caller)
    requires LiveWorker(s, key) && key !in s.transitions
    ensures var d := Detached(s, key, caller);
            var s' := Publish(d.(live := d.live - {s.procs[key]}), key, s.next, true);
            StopsWorker(s, s', key, Slots(s, key, caller)) && s'.next == s.next + 1
  {
    assert s.transitions[key := s.next] - {key} == s.transitions;
  }

  lemma {:induction false} KillStep(w: World, th: Thread, key: Key, caller: Caller, t: TransitionId, limit: nat,
                                    w': World)
    requires Get(w.threads, th) == Some(StopKill(key, caller, t)) && t in w.mem.objects
    requires w' == World(w.mem.(live := w.mem.live - {w.mem.objects[t].proc}),
                         w.threads[th := StopKilled(key, caller, t, true)])
    ensures Goes(w, Advance(th, true), limit, w')
  {
  }

  lemma {:induction false} KilledStep(w: World, th: Thread, key: Key, caller: Caller, t: TransitionId, limit: nat,
                                      w': World)
    requires Get(w.threads, th) == Some(StopKilled(key, caller, t, true)) && t in w.mem.objects
    requires w' == World(Publish(w.mem, key, t, true),
                         w.threads[th := StopReturn(key, caller, Stopped, Some(w.mem.objects[t].proc))])
    ensures Goes(w, Advance(th, true), limit, w')
  {
  }

  lemma {:induction false} StopSteps(w: World, th: Thread, key: Key, caller: Caller, limit: nat)
    returns (worlds: seq<World>)
    requires Get(w.threads, th) == Some(StopEnter(key, caller)) && LiveWorker(w.mem, key) && key !in w.mem.transitions
    requires caller.Restart? ==> Get(w.mem.reservations, key) == Some(caller.token)
    ensures Leads(worlds, [Advance(th, true), Advance(th, true), Advance(th, true)], limit) && worlds[0] == w
    ensures worlds[3].threads == w.threads[th := StopReturn(key, caller, Stopped, Some(w.mem.procs[key]))]
    ensures StopsWorker(w.mem, worlds[3].mem, key, Slots(w.mem, key, caller)) && worlds[3].mem.next == w.mem.next + 1
  {
    var s, t := w.mem, w.mem.next;
    var kill, killed := StopKill(key, caller, t), StopKilled(key, caller, t, true);
    var last := StopReturn(key, caller, Stopped, Some(s.procs[key]));
    var d := Detached(s, key, caller);
    var w1 := World(d, w.threads[th := kill]);
    var w2 := World(d.(live := d.live - {s.procs[key]}), w.threads[th := killed]);
    var w3 := World(Publish(w2.mem, key, t, true), w.threads[th := last]);
    StopDetaches(s, key, caller);
    PublishForgets(s, key, caller);
    ThreadTwice(w.threads, th, kill, killed);
    ThreadTwice(w.threads, th, killed, last);
    StepTo(w, th, limit, kill, w1);
    KillStep(w1, th, key, caller, t, limit, w2);
    KilledStep(w2, th, key, caller, t, limit, w3);
    LeadsThree(w, Advance(th, true), w1, Advance(th, true), w2, Advance(th, true), w3, limit);
    worlds := [w, w1, w2, w3];
  }

  /** Stopping a running shop kills its worker and leaves the shop idle. */
  lemma {:induction false} UndisturbedStop(w: World, th: Thread, key: Key, limit: nat) returns (worlds: seq<World>)
    requires th !in w.threads && LiveWorker(w.mem, key) && key !in w.mem.transitions
    ensures Leads(worlds, [CallStop(th, key)] + [Advance(th, true), Advance(th, true), Advance(th, true)], limit)
    ensures worlds[0] == w && worlds[4].threads == w.threads[th := Done(key, Stopped, Some(w.mem.procs[key]))]
    ensures StopsWorker(w.mem, worlds[4].mem, key, w.mem.reservations - {key}) && Idle(worlds[4].mem, key)
  {
    var w1 := w.(threads := w.threads[th := StopEnter(key, Client)]);
    assert Goes(w, CallStop(th, key), limit, w1);
    assert Leads([w, w1], [CallStop(th, key)], limit);
    var rest := StopSteps(w1, th, key, Client, limit);
    ThreadTwice(w.threads, th, StopEnter(key, Client), Done(key, Stopped, Some(w.mem.procs[key])));
    LeadsJoin([w, w1], [CallStop(th, key)], rest, [Advance(th, true), Advance(th, true), Advance(th, true)], limit);
    worlds := [w, w1] + rest[1..];
  }

  // ----- changing the mode of a running shop -----

  lemma {:induction false} RestartCalls(w: World, th: Thread, key: Key, mode: Mode, limit: nat, w1: World)
    requires th !in w.threads && LiveWorker(w.mem, key) && key !in w.mem.transitions && key !in w.mem.reservations
    requires Get(w.mem.modes, key) != Some(mode)
    requires w1 == World(w.mem, w.threads[th := StartReserve(key, mode, Generation(w.mem, key))])
    ensures Goes(w, CallStart(th, key, mode), limit, w1)
  {
  }

  lemma {:induction false} RestartReserves(w: World, th: Thread, key: Key, mode: Mode, limit: nat, w': World)
    requires Get(w.threads, th) == Some(StartReserve(key, mode, Generation(w.mem, key))) && LiveWorker(w.mem, key)
    requires key !in w.mem.transitions && key !in w.mem.reservations
    requires w' == World(w.mem.(reservations := w.mem.reservations[key := w.mem.next], next := w.mem.next + 1),
                         w.threads[th := StopEnter(key, Restart(mode, w.mem.next))])
    ensures Goes(w, Advance(th, true), limit, w')
  {
  }

  lemma {:induction false} SlotSpawns(w: World, th: Thread, key: Key, mode: Mode, token: Token, limit: nat, w': World)
    requires Get(w.threads, th) == Some(StartSpawn(key, mode, Some(token)))
    requires key !in w.mem.procs && key !in w.mem.transitions && Get(w.mem.reservations, key) == Some(token)
    requires w' == World(Register(w.mem, key, mode), w.threads[th := StartFinish(key, token, Started)])
    ensures Goes(w, Advance(th, true), limit, w')
  {
  }

  lemma {:induction false} SlotFinishes(w: World, th: Thread, key: Key, token: Token, limit: nat, w': World)
    requires Get(w.threads, th) == Some(StartFinish(key, token, Started)) && Get(w.mem.reservations, key) == Some(token)
    requires w' == World(w.mem.(reservations := w.mem.reservations - {key}), w.threads[th := Done(key, Started, None)])
    ensures Goes(w, Advance(th, true), limit, w')
  {
  }

  lemma {:induction false} RestartEnds(w: World, th: Thread, key: Key, mode: Mode, token: Token, limit: nat)
    returns (worlds: seq<World>)
    requires Get(w.threads, th) == Some(StartSpawn(key, mode, Some(token)))
    requires key !in w.mem.procs && key !in w.mem.transitions && Get(w.mem.reservations, key) == Some(token)
    ensures Leads(worlds, [Advance(th, true), Advance(th, true)], limit) && worlds[0] == w
    ensures worlds[2].threads == w.threads[th := Done(key, Started, None)]
    ensures worlds[2].mem.reservations == w.mem.reservations - {key}
    ensures StartsNew(w.mem, worlds[2].mem.(reservations := w.mem.reservations), key, mode)
  {
    var finish, last := StartFinish(key, token, Started), Done(key, Started, None);
    Registered(w.mem, key, mode);
    var w1 := World(Register(w.mem, key, mode), w.threads[th := finish]);
    var w2 := World(w1.mem.(reservations := w1.mem.reservations - {key}), w.threads[th := last]);
    ThreadTwice(w.threads, th, finish, last);
    SlotSpawns(w, th, key, mode, token, limit, w1);
    SlotFinishes(w1, th, key, token, limit, w2);
    LeadsTwo(w, Advance(th, true), w1, Advance(th, true), w2, limit);
    worlds := [w, w1, w2];
  }

  /** The old process is dead, a new one runs in this mode, and nothing is left behind. */
  predicate ReplacesWorker(s: State, s': State, key: Key, mode: Mode)
    requires key in s.procs
  {
    && key in s'.procs && s'.procs[key] !in s.owner
    && s'.procs == s.procs[key := s'.procs[key]] && s'.live == s.live - {s.procs[key]} + {s'.procs[key]}
    && s'.modes == s.modes[key := mode] && s'.transitions == s.transitions && s'.reservations == s.reservations
  }

  lemma {:induction false} Replaced(s: State, s2: State, s3: State, key: Key, mode: Mode)
    requires key in s.procs && key !in s.reservations && (forall p :: p in s.owner ==> p < s.next)
    requires StopsWorker(s, s2, key, s.reservations[key := s.next]) && s2.next == s.next + 2
    requires StartsNew(s2, s3.(reservations := s2.reservations), key, mode)
              && s3.reservations == s2.reservations - {key}
    ensures ReplacesWorker(s, s3, key, mode)
  {
    assert s.reservations[key := s.next] - {key} == s.reservations;
    assert (s.procs - {key})[key := s2.next] == s.procs[key := s2.next];
    assert (s.modes - {key})[key := mode] == s.modes[key := mode];
  }

  function RestartSteps(th: Thread, key: Key, mode: Mode): seq<Step> {
    [CallStart(th, key, mode), Advance(th, true)] + StopAndSpawn(th)
  }

  function StopAndSpawn(th: Thread): seq<Step> {
    [Advance(th, true), Advance(th, true), Advance(th, true)] + [Advance(th, true), Advance(th, true)]
  }

  lemma {:induction false} RestartBegins(w: World, th: Thread, key: Key, mode: Mode, limit: nat, w2: World)
    returns (worlds: seq<World>)
    requires th !in w.threads && LiveWorker(w.mem, key) && key !in w.mem.transitions && key !in w.mem.reservations
    requires Get(w.mem.modes, key) != Some(mode)
    requires w2 == World(w.mem.(reservations := w.mem.reservations[key := w.mem.next], next := w.mem.next + 1),
                         w.threads[th := StopEnter(key, Restart(mode, w.mem.next))])
    ensures Leads(worlds, [CallStart(th, key, mode), Advance(th, true)], limit) && worlds[0] == w && worlds[2] == w2
  {
    var reserve := StartReserve(key, mode, Generation(w.mem, key));
    var w1 := World(w.mem, w.threads[th := reserve]);
    ThreadTwice(w.threads, th, reserve, StopEnter(key, Restart(mode, w.mem.next)));
    RestartCalls(w, th, key, mode, limit, w1);
    RestartReserves(w1, th, key, mode, limit, w2);
    LeadsTwo(w, CallStart(th, key, mode), w1, Advance(th, true), w2, limit);
    worlds := [w, w1, w2];
  }

  lemma {:induction false} RestartFollows(w: World, th: Thread, key: Key, mode: Mode, token: Token, limit: nat)
    returns (worlds: seq<World>, s2: State)
    requires Get(w.threads, th) == Some(StopEnter(key, Restart(mode, token)))
    requires LiveWorker(w.mem, key) && key !in w.mem.transitions && Get(w.mem.reservations, key) == Some(token)
    ensures Leads(worlds, StopAndSpawn(th), limit) && worlds[0] == w
    ensures worlds[5].threads == w.threads[th := Done(key, Started, None)]
    ensures StopsWorker(w.mem, s2, key, w.mem.reservations) && s2.next == w.mem.next + 1
    ensures StartsNew(s2, worlds[5].mem.(reservations := s2.reservations), key, mode)
    ensures worlds[5].mem.reservations == s2.reservations - {key}
  {
    var b, c := [Advance(th, true), Advance(th, true), Advance(th, true)], [Advance(th, true), Advance(th, true)];
    var first := StopSteps(w, th, key, Restart(mode, token), limit);
    var w2 := first[3];
    s2 := w2.mem;
    var second := RestartEnds(w2, th, key, mode, token, limit);
    LeadsJoin(first, b, second, c, limit);
    ThreadTwice(w.threads, th, w2.threads[th], Done(key, Started, None));
    worlds := first + second[1..];
  }

  /**
   * A mode change of a running shop replaces its worker: the old process is
   * dead, a new one runs in the new mode, and nothing is left behind, whatever
   * the limit.
   */
  lemma {:induction false} UndisturbedRestart(w: World, th: Thread, key: Key, mode: Mode, limit: nat)
    returns (worlds: seq<World>)
    requires th !in w.threads && MemInv(w.mem)
    requires LiveWorker(w.mem, key) && key !in w.mem.transitions && key !in w.mem.reservations
    requires key in w.mem.modes && w.mem.modes[key] != mode
    ensures Leads(worlds, RestartSteps(th, key, mode), limit) && |worlds| == 8 && worlds[0] == w
    ensures worlds[7].threads == w.threads[th := Done(key, Started, None)]
    ensures ReplacesWorker(w.mem, worlds[7].mem, key, mode)
  {
    var s, last := w.mem, Done(key, Started, None);
    var enter := StopEnter(key, Restart(mode, s.next));
    var w1 := World(s.(reservations := s.reservations[key := s.next], next := s.next + 1), w.threads[th := enter]);
    var first := RestartBegins(w, th, key, mode, limit, w1);
    var second, s2 := RestartFollows(w1, th, key, mode, s.next, limit);
    ThreadTwice(w.threads, th, enter, last);
    LeadsJoin(first, [CallStart(th, key, mode), Advance(th, true)], second, StopAndSpawn(th), limit);
    Replaced(s, s2, second[5].mem, key, mode);
    worlds := first + second[1..];
  }
}
