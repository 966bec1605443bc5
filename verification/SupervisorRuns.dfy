/**
 * Every interleaving of start, stop, adopt, the reaper and process death.
 *
 * A world is the shared state plus the program counter of every call made so
 * far.  One step is one lock section, one kill attempt, one wait, one process
 * death or one reaper pass.
 */
module SupervisorRuns {
  import opened Common
  import opened SupervisorModel

  type Thread = nat
  datatype World = World(mem: State, threads: map<Thread, Pc>)

  datatype Step =
    | CallStart(thread: Thread, key: Key, mode: Mode)
    | CallStop(thread: Thread, key: Key)
    | Advance(thread: Thread, choice: bool)
    | Adopt(key: Key, verified: bool)
    | Die(proc: Proc)
    | Reap

  /** The transition object a thread still has to look at, if any. */
  function Refers(pc: Pc): Option<TransitionId> {
    match pc
    case StartRetire(_, _, _, t) => Some(t)
    case StartRetired(_, _, _, t, _) => Some(t)
    case StopKill(_, _, t) => Some(t)
    case StopKilled(_, _, t, _) => Some(t)
    case StopWait(_, _, t) => Some(t)
    case StopRetry(_, _, t) => Some(t)
    case _ => None
  }

  predicate Resolvable(s: State, pc: Pc) {
    Refers(pc).Some? ==> Refers(pc).value in s.objects
  }

  /**
   * The next action of a thread.  `choice` settles what the source leaves to
   * its surroundings: whether the kill succeeded, whether the wait saw the
   * event before its timeout, whether the child process could be created.
   * A successful `_terminate_process` means that the process is dead.
   */
  function AdvanceMem(s: State, pc: Pc, choice: bool, limit: nat): State
    requires Resolvable(s, pc)
  {
    match pc
    case StartRetire(_, _, _, t) => if choice then s.(live := s.live - {s.objects[t].proc}) else s
    case StartRetired(key, _, _, t, ok) => Publish(s, key, t, ok)
    case StartReserve(key, _, generation) => ReserveState(s, key, generation)
    case StartSpawn(key, mode, token) => SpawnState(s, key, mode, token, limit, choice)
    case StartFinish(key, token, _) => FinishState(s, key, token)
    case StopEnter(key, caller) => StopState(s, key, caller)
    case StopKill(_, _, t) => if choice then s.(live := s.live - {s.objects[t].proc}) else s
    case StopKilled(key, _, t, ok) => Publish(s, key, t, ok)
    case StopWait(_, _, _) => s
    case StopRetry(key, _, t) => RetryState(s, key, t)
    case Done(_, _, _) => s
  }

  function AdvancePc(s: State, pc: Pc, choice: bool, limit: nat): Pc
    requires Resolvable(s, pc)
  {
    match pc
    case StartRetire(key, mode, g, t) => StartRetired(key, mode, g, t, choice)
    case StartRetired(key, mode, g, t, ok) =>
      if ok then StartReserve(key, mode, g) else Done(key, TransitionInProgress, None)
    case StartReserve(key, mode, g) => ReservePc(s, key, mode, g)
    case StartSpawn(key, mode, token) => SpawnPc(s, key, token, limit, choice)
    case StartFinish(key, _, outcome) => Done(key, outcome, None)
    case StopEnter(key, caller) => StopPc(s, key, caller)
    case StopKill(key, caller, t) => StopKilled(key, caller, t, choice)
    case StopKilled(key, caller, t, ok) =>
      StopReturn(key, caller, if ok then Stopped else StopFailed, Some(s.objects[t].proc))
    case StopWait(key, caller, t) =>
      if choice then StopRetry(key, caller, t)
      else StopReturn(key, caller, StopTimeout, Some(s.objects[t].proc))
    case StopRetry(key, caller, t) => RetryPc(s, key, caller, t)
    case Done(_, _, _) => pc
  }

  predicate Enabled(w: World, step: Step) {
    match step
    case CallStart(th, _, _) => th !in w.threads
    case CallStop(th, _) => th !in w.threads
    case Advance(th, choice) =>
      && th in w.threads && !w.threads[th].Done?
      && Resolvable(w.mem, w.threads[th])
      && (w.threads[th].StopWait? && choice ==> w.mem.objects[w.threads[th].t].done)
    case Adopt(_, _) => true
    case Die(_) => true
    case Reap => true
  }

  function Apply(w: World, step: Step, limit: nat): World
    requires Enabled(w, step)
  {
    match step
    case CallStart(th, key, mode) => w.(threads := w.threads[th := StartCheck(w.mem, key, mode)])
    case CallStop(th, key) => w.(threads := w.threads[th := StopEnter(key, Client)])
    case Advance(th, choice) =>
      World(AdvanceMem(w.mem, w.threads[th], choice, limit),
            w.threads[th := AdvancePc(w.mem, w.threads[th], choice, limit)])
    case Adopt(key, verified) => w.(mem := AdoptState(w.mem, key, verified))
    case Die(p) => w.(mem := w.mem.(live := w.mem.live - {p}))
    case Reap => w.(mem := Reaped(w.mem))
  }

  /** `worlds` is a run of `steps` from the freshly loaded module. */
  ghost predicate IsRun(worlds: seq<World>, steps: seq<Step>, limit: nat) {
    && |worlds| == |steps| + 1
    && worlds[0] == World(EMPTY, map[])
    && forall i :: 0 <= i < |steps| ==>
         Enabled(worlds[i], steps[i]) && worlds[i + 1] == Apply(worlds[i], steps[i], limit)
  }

  lemma {:induction false} RunGrows(worlds: seq<World>, steps: seq<Step>, limit: nat, step: Step)
    requires IsRun(worlds, steps, limit) && Enabled(worlds[|steps|], step)
    ensures IsRun(worlds + [Apply(worlds[|steps|], step, limit)], steps + [step], limit)
  {
  }

  // ----- the invariant of the shared dictionaries -----

  ghost predicate Numbered(s: State) {
    && (forall p :: p in s.owner ==> p < s.next)
    && (forall t :: t in s.objects ==> t < s.next && s.objects[t].proc in s.owner)
    && (forall k :: k in s.reservations ==> s.reservations[k] < s.next)
    && (forall k :: k in s.procs ==> s.procs[k] in s.owner && s.owner[s.procs[k]] == k)
    && s.live <= s.owner.Keys
  }

  /** A shop being retired is not registered; a live process has one current transition object. */
  ghost predicate Separated(s: State)
    requires Numbered(s)
  {
    && (forall k :: k in s.transitions ==>
          && k !in s.procs && s.transitions[k] in s.objects
          && s.owner[s.objects[s.transitions[k]].proc] == k)
    && (forall t :: t in s.objects && s.objects[t].proc in s.live ==>
          Get(s.transitions, s.owner[s.objects[t].proc]) == Some(t))
  }

  predicate InTransition(s: State, key: Key, p: Proc) {
    key in s.transitions && s.transitions[key] in s.objects && s.objects[s.transitions[key]].proc == p
  }

  /** No live process is lost: it is registered or being retired, under its own shop. */
  ghost predicate Tracked(s: State)
    requires Numbered(s)
  {
    && (forall p :: p in s.live ==> Get(s.procs, s.owner[p]) == Some(p) || InTransition(s, s.owner[p], p))
    && (forall t :: t in s.objects && s.objects[t].terminated == Some(true) ==> s.objects[t].proc !in s.live)
  }

  ghost predicate MemInv(s: State) {
    Numbered(s) && Separated(s) && Tracked(s)
  }

  function TokenOf(pc: Pc): Option<Token> {
    match pc
    case StartSpawn(_, _, token) => token
    case StartFinish(_, token, _) => Some(token)
    case StopEnter(_, caller) => CallerToken(caller)
    case StopKill(_, caller, _) => CallerToken(caller)
    case StopKilled(_, caller, _, _) => CallerToken(caller)
    case StopWait(_, caller, _) => CallerToken(caller)
    case StopRetry(_, caller, _) => CallerToken(caller)
    case _ => None
  }

  function CallerToken(caller: Caller): Option<Token> {
    if caller.Restart? then Some(caller.token) else None
  }

  /** What a thread may rely on about the objects it remembers. */
  ghost predicate PcInv(s: State, pc: Pc) {
    && (Refers(pc).Some? ==>
          && Refers(pc).value in s.objects
          && s.objects[Refers(pc).value].proc in s.owner
          && s.owner[s.objects[Refers(pc).value].proc] == pc.key)
    && (pc.StartRetired? && pc.ok ==> s.objects[pc.t].proc !in s.live)
    && (pc.StopKilled? && pc.ok ==> s.objects[pc.t].proc !in s.live)
    && (TokenOf(pc).Some? ==> TokenOf(pc).value < s.next)
    && (pc.StartRetire? || pc.StartRetired? || pc.StartReserve? ==> pc.generation <= Generation(s, pc.key))
    && (pc.Done? && pc.outcome == Stopped && pc.victim.Some? ==>
          pc.victim.value in s.owner && pc.victim.value !in s.live)
  }

  /** How one thread's step may change what another thread remembers. */
  ghost predicate Grows(s: State, s': State) {
    && s.next <= s'.next
    && (forall t :: t in s.objects ==> t in s'.objects && s'.objects[t].proc == s.objects[t].proc)
    && (forall p :: p in s.owner ==> p in s'.owner && s'.owner[p] == s.owner[p])
    && (forall p :: p in s.owner && p in s'.live ==> p in s.live)
    && (forall k :: Generation(s, k) <= Generation(s', k))
  }

  lemma {:induction false} PcStable(s: State, s': State, pc: Pc)
    requires PcInv(s, pc) && Grows(s, s')
    ensures PcInv(s', pc)
  {
  }

  lemma {:induction false} KillKeeps(s: State, p: Proc)
    requires MemInv(s)
    ensures MemInv(s.(live := s.live - {p})) && Grows(s, s.(live := s.live - {p}))
  {
  }

  lemma {:induction false} RegisterGrows(s: State, key: Key, mode: Mode)
    requires MemInv(s) && key !in s.transitions && !Holds(s, key)
    ensures Numbered(Register(s, key, mode)) && Grows(s, Register(s, key, mode))
  {
  }

  lemma {:induction false} RegisterSeparated(s: State, key: Key, mode: Mode)
    requires MemInv(s) && key !in s.transitions && !Holds(s, key)
    ensures Numbered(Register(s, key, mode)) && Separated(Register(s, key, mode))
  {
  }

  lemma {:induction false} RegisterTracked(s: State, key: Key, mode: Mode)
    requires MemInv(s) && key !in s.transitions && !Holds(s, key)
    ensures Numbered(Register(s, key, mode)) && Tracked(Register(s, key, mode))
  {
    var s' := Register(s, key, mode);
    forall p | p in s'.live
      ensures Get(s'.procs, s'.owner[p]) == Some(p) || InTransition(s', s'.owner[p], p)
    {
      if p != s.next {
        assert Get(s.procs, s.owner[p]) == Some(p) || InTransition(s, s.owner[p], p);
      }
    }
  }

  lemma {:induction false} RegisterKeeps(s: State, key: Key, mode: Mode)
    requires MemInv(s) && key !in s.transitions && !Holds(s, key)
    ensures MemInv(Register(s, key, mode)) && Grows(s, Register(s, key, mode))
  {
    RegisterGrows(s, key, mode);
    RegisterSeparated(s, key, mode);
    RegisterTracked(s, key, mode);
  }

  /** A transition may be dropped only when its process is dead. */
  lemma {:induction false} DropGrows(s: State, key: Key)
    requires MemInv(s) && key in s.transitions && s.objects[s.transitions[key]].proc !in s.live
    ensures Numbered(s.(transitions := s.transitions - {key})) && Grows(s, s.(transitions := s.transitions - {key}))
  {
  }

  lemma {:induction false} DropSeparated(s: State, key: Key)
    requires MemInv(s) && key in s.transitions && s.objects[s.transitions[key]].proc !in s.live
    ensures Numbered(s.(transitions := s.transitions - {key})) && Separated(s.(transitions := s.transitions - {key}))
  {
  }

  lemma {:induction false} DropTracked(s: State, key: Key)
    requires MemInv(s) && key in s.transitions && s.objects[s.transitions[key]].proc !in s.live
    ensures Numbered(s.(transitions := s.transitions - {key})) && Tracked(s.(transitions := s.transitions - {key}))
  {
    var s' := s.(transitions := s.transitions - {key});
    forall p | p in s'.live
      ensures Get(s'.procs, s'.owner[p]) == Some(p) || InTransition(s', s'.owner[p], p)
    {
      assert Get(s.procs, s.owner[p]) == Some(p) || InTransition(s, s.owner[p], p);
    }
  }

  lemma {:induction false} DropKeeps(s: State, key: Key)
    requires MemInv(s) && key in s.transitions && s.objects[s.transitions[key]].proc !in s.live
    ensures MemInv(s.(transitions := s.transitions - {key})) && Grows(s, s.(transitions := s.transitions - {key}))
  {
    DropGrows(s, key);
    DropSeparated(s, key);
    DropTracked(s, key);
  }

  lemma {:induction false} TouchGrows(s: State, t: TransitionId, o: Transition)
    requires MemInv(s) && t in s.objects && o.proc == s.objects[t].proc
    requires o.terminated == Some(true) ==> o.proc !in s.live
    ensures Numbered(s.(objects := s.objects[t := o])) && Grows(s, s.(objects := s.objects[t := o]))
  {
  }

  lemma {:induction false} TouchSeparated(s: State, t: TransitionId, o: Transition)
    requires MemInv(s) && t in s.objects && o.proc == s.objects[t].proc
    requires o.terminated == Some(true) ==> o.proc !in s.live
    ensures Numbered(s.(objects := s.objects[t := o])) && Separated(s.(objects := s.objects[t := o]))
  {
  }

  lemma {:induction false} TouchTracked(s: State, t: TransitionId, o: Transition)
    requires MemInv(s) && t in s.objects && o.proc == s.objects[t].proc
    requires o.terminated == Some(true) ==> o.proc !in s.live
    ensures Numbered(s.(objects := s.objects[t := o])) && Tracked(s.(objects := s.objects[t := o]))
  {
    var s' := s.(objects := s.objects[t := o]);
    forall p | p in s'.live
      ensures Get(s'.procs, s'.owner[p]) == Some(p) || InTransition(s', s'.owner[p], p)
    {
      assert Get(s.procs, s.owner[p]) == Some(p) || InTransition(s, s.owner[p], p);
    }
  }

  lemma {:induction false} TouchKeeps(s: State, t: TransitionId, o: Transition)
    requires MemInv(s) && t in s.objects && o.proc == s.objects[t].proc
    requires o.terminated == Some(true) ==> o.proc !in s.live
    ensures MemInv(s.(objects := s.objects[t := o])) && Grows(s, s.(objects := s.objects[t := o]))
  {
    TouchGrows(s, t, o);
    TouchSeparated(s, t, o);
    TouchTracked(s, t, o);
  }

  lemma {:induction false} PublishKeeps(s: State, key: Key, t: TransitionId, ok: bool)
    requires MemInv(s) && t in s.objects && (ok ==> s.objects[t].proc !in s.live)
    ensures MemInv(Publish(s, key, t, ok)) && Grows(s, Publish(s, key, t, ok))
  {
    var o := s.objects[t].(terminated := Some(ok), terminating := false, done := true);
    TouchKeeps(s, t, o);
    if ok && Get(s.transitions, key) == Some(t) {
      DropKeeps(s.(objects := s.objects[t := o]), key);
    }
  }

  lemma {:induction false} RetryKeeps(s: State, key: Key, t: TransitionId)
    requires MemInv(s) && t in s.objects
    ensures MemInv(RetryState(s, key, t)) && Grows(s, RetryState(s, key, t))
  {
    if Get(s.transitions, key) == Some(t) {
      if s.objects[t].terminated == Some(true) {
        DropKeeps(s, key);
      } else if !s.objects[t].terminating {
        TouchKeeps(s, t, s.objects[t].(terminating := true, done := false));
      }
    }
  }

  lemma {:induction false} BookKeeps(s: State, key: Key, caller: Caller)
    requires MemInv(s)
    ensures MemInv(Booked(s, key, caller)) && Grows(s, Booked(s, key, caller))
  {
  }

  lemma {:induction false} DetachGrows(s: State, key: Key)
    requires MemInv(s) && key !in s.transitions && Holds(s, key)
    ensures Numbered(Detach(s, key)) && Grows(s, Detach(s, key))
  {
  }

  lemma {:induction false} DetachSeparated(s: State, key: Key)
    requires MemInv(s) && key !in s.transitions && Holds(s, key)
    ensures Numbered(Detach(s, key)) && Separated(Detach(s, key))
  {
  }

  lemma {:induction false} DetachTracked(s: State, key: Key)
    requires MemInv(s) && key !in s.transitions && Holds(s, key)
    ensures Numbered(Detach(s, key)) && Tracked(Detach(s, key))
  {
    var s' := Detach(s, key);
    forall p | p in s'.live
      ensures Get(s'.procs, s'.owner[p]) == Some(p) || InTransition(s', s'.owner[p], p)
    {
      assert Get(s.procs, s.owner[p]) == Some(p) || InTransition(s, s.owner[p], p);
    }
  }

  lemma {:induction false} DetachKeeps(s: State, key: Key)
    requires MemInv(s) && key !in s.transitions && Holds(s, key)
    ensures MemInv(Detach(s, key)) && Grows(s, Detach(s, key))
  {
    DetachGrows(s, key);
    DetachSeparated(s, key);
    DetachTracked(s, key);
  }

  lemma {:induction false} UnregisterKeeps(s: State, key: Key)
    requires MemInv(s) && !Holds(s, key)
    ensures MemInv(Unregister(s, key)) && Grows(s, Unregister(s, key))
  {
  }

  lemma {:induction false} GrowsTwice(s: State, s1: State, s2: State)
    requires Grows(s, s1) && Grows(s1, s2)
    ensures Grows(s, s2)
  {
  }

  lemma {:induction false} StopKeeps(s: State, key: Key, caller: Caller)
    requires MemInv(s)
    ensures MemInv(StopState(s, key, caller)) && Grows(s, StopState(s, key, caller))
  {
    if !StopRefused(s, key, caller) {
      BookKeeps(s, key, caller);
      if key !in s.transitions {
        StopTail(Booked(s, key, caller), key);
        GrowsTwice(s, Booked(s, key, caller), StopState(s, key, caller));
      }
    }
  }

  lemma {:induction false} StopTail(s: State, key: Key)
    requires MemInv(s) && key !in s.transitions
    ensures Holds(s, key) ==> MemInv(Detach(s, key)) && Grows(s, Detach(s, key))
    ensures !Holds(s, key) ==> MemInv(Unregister(s, key)) && Grows(s, Unregister(s, key))
  {
    if Holds(s, key) {
      DetachKeeps(s, key);
    } else {
      UnregisterKeeps(s, key);
    }
  }

  lemma {:induction false} ReapKeeps(s: State)
    requires MemInv(s)
    ensures MemInv(Reaped(s)) && Grows(s, Reaped(s))
  {
  }

  lemma {:induction false} AdvanceKeeps(s: State, pc: Pc, choice: bool, limit: nat)
    requires MemInv(s) && PcInv(s, pc) && Resolvable(s, pc)
    ensures MemInv(AdvanceMem(s, pc, choice, limit)) && Grows(s, AdvanceMem(s, pc, choice, limit))
  {
    match pc
    case StartRetire(_, _, _, t) => KillKeeps(s, s.objects[t].proc);
    case StartRetired(key, _, _, t, ok) => PublishKeeps(s, key, t, ok);
    case StartSpawn(key, mode, token) =>
      if SpawnOutcome(s, key, token, limit, choice) == Started {
        RegisterKeeps(s, key, mode);
      }
    case StopEnter(key, caller) => StopKeeps(s, key, caller);
    case StopKill(_, _, t) => KillKeeps(s, s.objects[t].proc);
    case StopKilled(key, _, t, ok) => PublishKeeps(s, key, t, ok);
    case StopRetry(key, _, t) => RetryKeeps(s, key, t);
    case StartReserve(key, _, generation) => ReserveKeeps(s, key, generation);
    case StartFinish(_, _, _) => FinishKeeps(s, pc);
    case _ =>
  }

  lemma {:induction false} ReserveKeeps(s: State, key: Key, generation: nat)
    requires MemInv(s)
    ensures MemInv(ReserveState(s, key, generation)) && Grows(s, ReserveState(s, key, generation))
  {
  }

  lemma {:induction false} FinishKeeps(s: State, pc: Pc)
    requires MemInv(s) && pc.StartFinish?
    ensures MemInv(FinishState(s, pc.key, pc.reservation)) && Grows(s, FinishState(s, pc.key, pc.reservation))
  {
  }

  lemma {:induction false} StopReturnOk(s: State, key: Key, caller: Caller, outcome: Outcome, victim: Option<Proc>)
    requires CallerToken(caller).Some? ==> CallerToken(caller).value < s.next
    requires outcome == Stopped && victim.Some? ==> victim.value in s.owner && victim.value !in s.live
    ensures PcInv(s, StopReturn(key, caller, outcome, victim))
  {
  }

  lemma {:induction false} StopPcKeeps(s: State, key: Key, caller: Caller)
    requires PcInv(s, StopEnter(key, caller))
    requires key in s.transitions ==> PcInv(s, StopWait(key, caller, s.transitions[key]))
    requires Holds(s, key) ==> s.procs[key] in s.owner && s.owner[s.procs[key]] == key
    ensures PcInv(StopState(s, key, caller), StopPc(s, key, caller))
  {
    var s' := StopState(s, key, caller);
    assert s.next <= s'.next && s'.owner == s.owner;
    if StopRefused(s, key, caller) {
      StopReturnOk(s', key, caller, StartCancelled, None);
    } else if key in s.transitions {
      assert s'.objects == s.objects;
    } else if Holds(s, key) {
      assert s'.objects[s.next].proc == s.procs[key];
    } else {
      StopReturnOk(s', key, caller, NotRunning, None);
    }
  }

  /** In particular, an answer `Stopped` is given only about a dead process. */
  lemma {:induction false} RetryPcKeeps(s: State, key: Key, caller: Caller, t: TransitionId)
    requires PcInv(s, StopRetry(key, caller, t))
    requires s.objects[t].proc in s.live ==> Get(s.transitions, key) == Some(t) && s.objects[t].terminated != Some(true)
    ensures PcInv(RetryState(s, key, t), RetryPc(s, key, caller, t))
  {
  }

  lemma {:induction false} StartPcKeeps(s: State, pc: Pc, choice: bool, limit: nat)
    requires PcInv(s, pc) && (pc.StartRetire? || pc.StartRetired? || pc.StartReserve? || pc.StartSpawn?
                              || pc.StartFinish?)
    ensures PcInv(AdvanceMem(s, pc, choice, limit), AdvancePc(s, pc, choice, limit))
  {
  }

  lemma {:induction false} StopWaitPcKeeps(s: State, pc: Pc, choice: bool, limit: nat)
    requires PcInv(s, pc) && Resolvable(s, pc) && (pc.StopKill? || pc.StopWait? || pc.Done?)
    ensures PcInv(AdvanceMem(s, pc, choice, limit), AdvancePc(s, pc, choice, limit))
  {
    if pc.StopWait? {
      StopReturnOk(s, pc.key, pc.caller, StopTimeout, Some(s.objects[pc.t].proc));
    }
  }

  lemma {:induction false} StopKilledPcKeeps(s: State, pc: Pc, choice: bool, limit: nat)
    requires PcInv(s, pc) && Resolvable(s, pc) && pc.StopKilled?
    ensures PcInv(AdvanceMem(s, pc, choice, limit), AdvancePc(s, pc, choice, limit))
  {
    StopReturnOk(Publish(s, pc.key, pc.t, pc.ok), pc.key, pc.caller,
                 if pc.ok then Stopped else StopFailed, Some(s.objects[pc.t].proc));
  }

  lemma {:induction false} AdvancePcKeeps(s: State, pc: Pc, choice: bool, limit: nat)
    requires MemInv(s) && PcInv(s, pc) && Resolvable(s, pc)
    ensures PcInv(AdvanceMem(s, pc, choice, limit), AdvancePc(s, pc, choice, limit))
  {
    if pc.StopEnter? {
      StopPcKeeps(s, pc.key, pc.caller);
    } else if pc.StopRetry? {
      RetryPcKeeps(s, pc.key, pc.caller, pc.t);
    } else if pc.StopKilled? {
      StopKilledPcKeeps(s, pc, choice, limit);
    } else if pc.StopKill? || pc.StopWait? || pc.Done? {
      StopWaitPcKeeps(s, pc, choice, limit);
    } else {
      StartPcKeeps(s, pc, choice, limit);
    }
  }
}
