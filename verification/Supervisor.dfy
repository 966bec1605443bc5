/**
 * The worker supervisor of backend/bot_manager.py.
 *
 * `start`, `stop`, `adopt` and the reaper run in several threads.  Every lock
 * section of the source is one function here (its effect on the shared
 * dictionaries, and where the calling thread continues), and the work done
 * between two lock sections (killing a process, waiting for an event) is a
 * separate step.  `Supervisor` (below) is the imperative form of the same lock
 * sections; SupervisorRuns.dfy proves what every interleaving keeps.
 */
module SupervisorModel {
  import opened Common

  datatype Key = Key(user: int, account: string)
  datatype Mode = Rules | RulesAi
  type Proc = nat
  type TransitionId = nat
  type Token = nat

  /** A `_ProcessTransition` object; its fields change while threads hold it. */
  datatype Transition = Transition(proc: Proc, terminated: Option<bool>, terminating: bool, done: bool)

  /**
   * The module dictionaries, plus the operating system's view: `live` holds the
   * processes whose `poll()` is None and `owner` every process ever managed,
   * with the shop it was started or adopted for.  `next` numbers new objects.
   */
  datatype State = State(
    procs: map<Key, Proc>,
    modes: map<Key, Mode>,
    generations: map<Key, nat>,
    transitions: map<Key, TransitionId>,
    objects: map<TransitionId, Transition>,
    reservations: map<Key, Token>,
    live: set<Proc>,
    owner: map<Proc, Key>,
    next: nat)

  const EMPTY: State := State(map[], map[], map[], map[], map[], map[], {}, map[], 0)

  datatype Outcome =
    | Started | AlreadyRunning | StartCancelled | TransitionInProgress | MaxBotsReached | SpawnFailed
    | Stopped | StopFailed | StopTimeout | NotRunning
    | Adopted | PidMismatch

  /** Who called `stop`: a client, or a mode-change `start` holding a reservation. */
  datatype Caller = Client | Restart(mode: Mode, token: Token)

  /** Where a thread is between two lock sections, with its local variables. */
  datatype Pc =
    | StartRetire(key: Key, mode: Mode, generation: nat, t: TransitionId)
    | StartRetired(key: Key, mode: Mode, generation: nat, t: TransitionId, ok: bool)
    | StartReserve(key: Key, mode: Mode, generation: nat)
    | StartSpawn(key: Key, mode: Mode, token: Option<Token>)
    | StartFinish(key: Key, reservation: Token, outcome: Outcome)
    | StopEnter(key: Key, caller: Caller)
    | StopKill(key: Key, caller: Caller, t: TransitionId)
    | StopKilled(key: Key, caller: Caller, t: TransitionId, ok: bool)
    | StopWait(key: Key, caller: Caller, t: TransitionId)
    | StopRetry(key: Key, caller: Caller, t: TransitionId)
    | Done(key: Key, outcome: Outcome, victim: Option<Proc>)

  function Generation(s: State, key: Key): nat {
    if key in s.generations then s.generations[key] else 0
  }

  function Bump(s: State, key: Key): map<Key, nat> {
    s.generations[key := Generation(s, key) + 1]
  }

  predicate Holds(s: State, key: Key) {
    key in s.procs && s.procs[key] in s.live
  }

  predicate IsRunning(s: State, key: Key) {
    Holds(s, key) || key in s.transitions || key in s.reservations
  }

  /** The key set behind `running_count`. */
  function RunningKeys(s: State): set<Key> {
    (set k | k in s.procs && s.procs[k] in s.live) + s.transitions.Keys + s.reservations.Keys
  }

  /** `running_count`, of everybody or of one user. */
  function RunningOf(s: State, user: Option<int>): set<Key> {
    set k | k in RunningKeys(s) && (user.Some? ==> k.user == user.value)
  }

  // ----- lock sections of `start` -----

  function StartCheck(s: State, key: Key, mode: Mode): Pc
  {
    if key in s.reservations then Done(key, TransitionInProgress, None)
    else if key in s.transitions then
      var t := s.transitions[key];
      if t in s.objects && s.objects[t].terminating then Done(key, TransitionInProgress, None)
      else StartRetire(key, mode, Generation(s, key), t)
    else if Holds(s, key) && Get(s.modes, key) == Some(mode) then Done(key, AlreadyRunning, None)
    else StartReserve(key, mode, Generation(s, key))
  }

  /** The section that records a `_terminate_process` result, shared by start and stop. */
  function Publish(s: State, key: Key, t: TransitionId, ok: bool): State
    requires t in s.objects
  {
    s.(objects := s.objects[t := s.objects[t].(terminated := Some(ok), terminating := false, done := true)],
       transitions := if ok && Get(s.transitions, key) == Some(t) then s.transitions - {key} else s.transitions)
  }

  function ReserveState(s: State, key: Key, generation: nat): State {
    if key in s.transitions || key in s.reservations || Generation(s, key) != generation then s
    else if Holds(s, key) then s.(reservations := s.reservations[key := s.next], next := s.next + 1)
    else s
  }

  function ReservePc(s: State, key: Key, mode: Mode, generation: nat): Pc {
    if key in s.transitions || key in s.reservations || Generation(s, key) != generation then
      Done(key, TransitionInProgress, None)
    else if Holds(s, key) then StopEnter(key, Restart(mode, s.next))
    else StartSpawn(key, mode, None)
  }

  /** The verdict of the spawning section; Started means the process exists afterwards. */
  function SpawnOutcome(s: State, key: Key, token: Option<Token>, limit: nat, spawnOk: bool): Outcome {
    if token.Some? && Get(s.reservations, key) != token then StartCancelled
    else if key in s.transitions then TransitionInProgress
    else if Holds(s, key) then AlreadyRunning
    else if token.None? && |RunningKeys(s)| >= limit then MaxBotsReached
    else if spawnOk then Started
    else SpawnFailed
  }

  function Register(s: State, key: Key, mode: Mode): State {
    s.(procs := s.procs[key := s.next], modes := s.modes[key := mode], generations := Bump(s, key),
       live := s.live + {s.next}, owner := s.owner[s.next := key], next := s.next + 1)
  }

  function SpawnState(s: State, key: Key, mode: Mode, token: Option<Token>, limit: nat, spawnOk: bool): State {
    if SpawnOutcome(s, key, token, limit, spawnOk) == Started then Register(s, key, mode) else s
  }

  function SpawnPc(s: State, key: Key, token: Option<Token>, limit: nat, spawnOk: bool): Pc {
    var outcome := SpawnOutcome(s, key, token, limit, spawnOk);
    if token.Some? then StartFinish(key, token.value, outcome) else Done(key, outcome, None)
  }

  /** The `finally` block: drop the reservation if it is still this start's own. */
  function FinishState(s: State, key: Key, token: Token): State {
    if Get(s.reservations, key) == Some(token) then s.(reservations := s.reservations - {key}) else s
  }

  // ----- lock sections of `stop` -----

  /** What the caller of `stop` does with its answer. */
  function StopReturn(key: Key, caller: Caller, outcome: Outcome, victim: Option<Proc>): Pc {
    match caller
    case Client => Done(key, outcome, victim)
    case Restart(mode, token) =>
      if outcome == Stopped || outcome == NotRunning then StartSpawn(key, mode, Some(token))
      else StartFinish(key, token, outcome)
  }

  predicate StopRefused(s: State, key: Key, caller: Caller) {
    caller.Restart? && Get(s.reservations, key) != Some(caller.token)
  }

  function Booked(s: State, key: Key, caller: Caller): State {
    s.(reservations := if caller.Client? then s.reservations - {key} else s.reservations,
       generations := Bump(s, key))
  }

  function Unregister(s: State, key: Key): State {
    s.(procs := s.procs - {key}, modes := s.modes - {key})
  }

  /** Move the registered process into a new transition object. */
  function Detach(s: State, key: Key): State
    requires key in s.procs
  {
    s.(procs := s.procs - {key}, modes := s.modes - {key},
       objects := s.objects[s.next := Transition(s.procs[key], None, true, false)],
       transitions := s.transitions[key := s.next], next := s.next + 1)
  }

  function StopState(s: State, key: Key, caller: Caller): State {
    if StopRefused(s, key, caller) then s
    else if key in s.transitions then Booked(s, key, caller)
    else if Holds(s, key) then Detach(Booked(s, key, caller), key)
    else Unregister(Booked(s, key, caller), key)
  }

  function StopPc(s: State, key: Key, caller: Caller): Pc {
    if StopRefused(s, key, caller) then StopReturn(key, caller, StartCancelled, None)
    else if key in s.transitions then StopWait(key, caller, s.transitions[key])
    else if Holds(s, key) then StopKill(key, caller, s.next)
    else StopReturn(key, caller, NotRunning, None)
  }

  function RetryState(s: State, key: Key, t: TransitionId): State
    requires t in s.objects
  {
    if Get(s.transitions, key) != Some(t) then s
    else if s.objects[t].terminated == Some(true) then s.(transitions := s.transitions - {key})
    else if s.objects[t].terminating then s
    else s.(objects := s.objects[t := s.objects[t].(terminating := true, done := false)])
  }

  function RetryPc(s: State, key: Key, caller: Caller, t: TransitionId): Pc
    requires t in s.objects
  {
    var victim := Some(s.objects[t].proc);
    if Get(s.transitions, key) != Some(t) then StopReturn(key, caller, Stopped, victim)
    else if s.objects[t].terminated == Some(true) then StopReturn(key, caller, Stopped, victim)
    else if s.objects[t].terminating then StopReturn(key, caller, StopTimeout, victim)
    else StopKill(key, caller, t)
  }

  // ----- adopt and the reaper -----

  /** `verified` is the second identity check, made under the lock. */
  function AdoptState(s: State, key: Key, verified: bool): State {
    if IsRunning(s, key) || !verified then s else Register(s, key, Rules)
  }

  function AdoptOutcome(s: State, key: Key, verified: bool): Outcome {
    if IsRunning(s, key) then AlreadyRunning else if verified then Adopted else PidMismatch
  }

  /** The reaper's treatment of one set of keys. */
  function Forget(s: State, keys: set<Key>): State {
    s.(procs := s.procs - keys, modes := s.modes - keys,
       generations := map k | k in s.generations.Keys + keys ::
                        Generation(s, k) + if k in keys then 1 else 0)
  }

  /** One pass of the reaper: forget every managed process that has exited. */
  function Reaped(s: State): State {
    Forget(s, set k | k in s.procs && s.procs[k] !in s.live)
  }

  lemma {:induction false} ForgetNone(s: State)
    ensures Forget(s, {}) == s
  {
    assert Forget(s, {}).generations == s.generations;
  }

  lemma {:induction false} ForgetOneMore(s: State, keys: set<Key>, key: Key)
    requires key !in keys
    ensures var f := Forget(s, keys);
            Forget(s, keys + {key}) == f.(procs := f.procs - {key}, modes := f.modes - {key},
                                          generations := Bump(f, key))
  {
    assert s.procs - (keys + {key}) == s.procs - keys - {key};
    assert s.modes - (keys + {key}) == s.modes - keys - {key};
    ForgetBumps(s, keys, key);
  }

  lemma {:induction false} ForgetBumps(s: State, keys: set<Key>, key: Key)
    requires key !in keys
    ensures Forget(s, keys + {key}).generations == Bump(Forget(s, keys), key)
  {
    var a, b := Forget(s, keys + {key}).generations, Bump(Forget(s, keys), key);
    assert a.Keys == b.Keys;
    assert forall k :: k in a ==> a[k] == b[k];
  }
}

/** The module state of bot_manager.py and its lock sections, in place. */
module Supervisor {
  import opened Common
  import opened SupervisorModel
  import opened SupervisorRuns

  class Supervisor {
    var procs: map<Key, Proc>
    var modes: map<Key, Mode>
    var generations: map<Key, nat>
    var transitions: map<Key, TransitionId>
    var objects: map<TransitionId, Transition>
    var reservations: map<Key, Token>
    var live: set<Proc>
    var next: nat
    ghost var owner: map<Proc, Key>
    var threads: map<Thread, Pc>
    const limit: nat
    ghost var worlds: seq<World>
    ghost var steps: seq<Step>

    ghost function Abs(): State
      reads this
    {
      State(procs, modes, generations, transitions, objects, reservations, live, owner, next)
    }

    ghost function Now(): World
      reads this
    {
      World(Abs(), threads)
    }

    /** What the threads did to this object is a run that ends in its present state. */
    ghost predicate Valid()
      reads this
    {
      IsRun(worlds, steps, limit) && worlds[|steps|] == Now()
    }

    constructor (limit: nat)
      ensures Valid() && Abs() == EMPTY && threads == map[] && steps == [] && this.limit == limit
    {
      procs, modes, generations, transitions := map[], map[], map[], map[];
      objects, reservations, live, next, owner := map[], map[], {}, 0, map[];
      threads, this.limit := map[], limit;
      worlds, steps := [World(EMPTY, map[])], [];
    }

    /** Write down the step that is about to be made. */
    ghost method Log(step: Step)
      requires Valid() && Enabled(Now(), step)
      modifies this`worlds, this`steps
      ensures IsRun(worlds, steps, limit) && worlds[|steps|] == Apply(Now(), step, limit)
      ensures steps == old(steps) + [step]
    {
      RunGrows(worlds, steps, limit, step);
      worlds, steps := worlds + [Apply(Now(), step, limit)], steps + [step];
    }

    /** A new call of `start` makes its first lock section; a new call of `stop` is about to. */
    method Call(step: Step)
      requires Valid() && Enabled(Now(), step) && (step.CallStart? || step.CallStop?)
      modifies this`threads, this`worlds, this`steps
      ensures Valid() && Now() == Apply(old(Now()), step, limit) && steps == old(steps) + [step]
    {
      Log(step);
      match step
      case CallStart(th, key, mode) =>
        var pc := CheckSection(key, mode);
        threads := threads[th := pc];
      case CallStop(th, key) =>
        threads := threads[th := StopEnter(key, Client)];
    }

    /** What happens without a thread of `start` or `stop`: adoption, process death, the reaper. */
    method Elsewhere(step: Step)
      requires Valid() && Enabled(Now(), step) && (step.Adopt? || step.Die? || step.Reap?)
      modifies this
      ensures Valid() && Now() == Apply(old(Now()), step, limit) && steps == old(steps) + [step]
    {
      Log(step);
      match step
      case Adopt(key, verified) =>
        var outcome := AdoptSection(key, verified);
      case Die(p) =>
        live := live - {p};
      case Reap =>
        ReapSection();
    }

    /** A thread goes on: one lock section, one kill or one wait. */
    method Continue(th: Thread, choice: bool)
      requires Valid() && Enabled(Now(), Advance(th, choice))
      modifies this
      ensures Valid() && Now() == Apply(old(Now()), Advance(th, choice), limit)
      ensures steps == old(steps) + [Advance(th, choice)]
    {
      Log(Advance(th, choice));
      var pc := threads[th];
      if pc.StartRetire? || pc.StartRetired? || pc.StartReserve? || pc.StartSpawn? || pc.StartFinish? {
        pc := ContinueStart(pc, choice);
      } else {
        pc := ContinueStop(pc, choice);
      }
      threads := threads[th := pc];
    }

    method ContinueStart(pc: Pc, choice: bool) returns (next': Pc)
      requires pc.StartRetire? || pc.StartRetired? || pc.StartReserve? || pc.StartSpawn? || pc.StartFinish?
      requires Resolvable(Abs(), pc)
      modifies this
      ensures Abs() == AdvanceMem(old(Abs()), pc, choice, limit) && next' == AdvancePc(old(Abs()), pc, choice, limit)
      ensures threads == old(threads) && worlds == old(worlds) && steps == old(steps)
    {
      match pc
      case StartRetire(key, mode, g, t) =>
        if choice {
          live := live - {objects[t].proc};
        }
        next' := StartRetired(key, mode, g, t, choice);
      case StartRetired(key, mode, g, t, ok) =>
        PublishSection(key, t, ok);
        next' := if ok then StartReserve(key, mode, g) else Done(key, TransitionInProgress, None);
      case StartReserve(key, mode, g) =>
        next' := ReserveSection(key, mode, g);
      case StartSpawn(key, mode, token) =>
        next' := SpawnSection(key, mode, token, limit, choice);
      case StartFinish(key, token, outcome) =>
        FinishSection(key, token);
        next' := Done(key, outcome, None);
    }

    method ContinueStop(pc: Pc, choice: bool) returns (next': Pc)
      requires pc.StopEnter? || pc.StopKill? || pc.StopKilled? || pc.StopWait? || pc.StopRetry?
      requires Resolvable(Abs(), pc)
      modifies this
      ensures Abs() == AdvanceMem(old(Abs()), pc, choice, limit) && next' == AdvancePc(old(Abs()), pc, choice, limit)
      ensures threads == old(threads) && worlds == old(worlds) && steps == old(steps)
    {
      match pc
      case StopEnter(key, caller) =>
        next' := StopSection(key, caller);
      case StopKill(key, caller, t) =>
        if choice {
          live := live - {objects[t].proc};
        }
        next' := StopKilled(key, caller, t, choice);
      case StopKilled(key, caller, t, ok) =>
        var victim := Some(objects[t].proc);
        PublishSection(key, t, ok);
        next' := StopReturn(key, caller, if ok then Stopped else StopFailed, victim);
      case StopWait(key, caller, t) =>
        next' := if choice then StopRetry(key, caller, t)
                 else StopReturn(key, caller, StopTimeout, Some(objects[t].proc));
      case StopRetry(key, caller, t) =>
        next' := RetrySection(key, caller, t);
    }

    method BumpGeneration(key: Key)
      modifies this`generations
      ensures generations == Bump(old(Abs()), key)
    {
      var current := if key in generations then generations[key] else 0;
      generations := generations[key := current + 1];
    }

    method RegisterProcess(key: Key, mode: Mode)
      modifies this`procs, this`modes, this`generations, this`live, this`owner, this`next
      ensures Abs() == Register(old(Abs()), key, mode)
    {
      procs := procs[key := next];
      modes := modes[key := mode];
      live, owner := live + {next}, owner[next := key];
      next := next + 1;
      BumpGeneration(key);
    }

    method RunningCount(user: Option<int>) returns (n: nat)
      ensures n == |RunningOf(Abs(), user)|
      ensures user.None? ==> n == |RunningKeys(Abs())|
    {
      var keys := (set k | k in procs && procs[k] in live) + transitions.Keys + reservations.Keys;
      n := |set k | k in keys && (user.Some? ==> k.user == user.value)|;
      assert RunningOf(Abs(), None) == RunningKeys(Abs());
    }

    method CheckSection(key: Key, mode: Mode) returns (pc: Pc)
      ensures pc == StartCheck(Abs(), key, mode)
    {
      if key in reservations {
        return Done(key, TransitionInProgress, None);
      }
      var generation := if key in generations then generations[key] else 0;
      if key in transitions {
        var t := transitions[key];
        if t in objects && objects[t].terminating {
          return Done(key, TransitionInProgress, None);
        }
        return StartRetire(key, mode, generation, t);
      }
      if key in procs && procs[key] in live && key in modes && modes[key] == mode {
        return Done(key, AlreadyRunning, None);
      }
      pc := StartReserve(key, mode, generation);
    }

    method PublishSection(key: Key, t: TransitionId, ok: bool)
      requires t in objects
      modifies this`objects, this`transitions
      ensures Abs() == Publish(old(Abs()), key, t, ok)
    {
      objects := objects[t := objects[t].(terminated := Some(ok), terminating := false)];
      if ok && key in transitions && transitions[key] == t {
        transitions := transitions - {key};
      }
      objects := objects[t := objects[t].(done := true)];
    }

    method ReserveSection(key: Key, mode: Mode, generation: nat) returns (pc: Pc)
      modifies this`reservations, this`next
      ensures Abs() == ReserveState(old(Abs()), key, generation)
      ensures pc == ReservePc(old(Abs()), key, mode, generation)
    {
      var current := if key in generations then generations[key] else 0;
      if key in transitions || key in reservations || current != generation {
        return Done(key, TransitionInProgress, None);
      }
      if key in procs && procs[key] in live {
        pc := StopEnter(key, Restart(mode, next));
        reservations := reservations[key := next];
        next := next + 1;
      } else {
        pc := StartSpawn(key, mode, None);
      }
    }

    method SpawnSection(key: Key, mode: Mode, token: Option<Token>, limit: nat, spawnOk: bool)
      returns (pc: Pc)
      modifies this`procs, this`modes, this`generations, this`live, this`owner, this`next
      ensures Abs() == SpawnState(old(Abs()), key, mode, token, limit, spawnOk)
      ensures pc == SpawnPc(old(Abs()), key, token, limit, spawnOk)
    {
      var outcome := Started;
      if token.Some? && (key !in reservations || reservations[key] != token.value) {
        outcome := StartCancelled;
      } else if key in transitions {
        outcome := TransitionInProgress;
      } else if key in procs && procs[key] in live {
        outcome := AlreadyRunning;
      } else {
        var count := RunningCount(None);
        if token.None? && count >= limit {
          outcome := MaxBotsReached;
        } else if spawnOk {
          RegisterProcess(key, mode);
        } else {
          outcome := SpawnFailed;
        }
      }
      pc := if token.Some? then StartFinish(key, token.value, outcome) else Done(key, outcome, None);
    }

    method FinishSection(key: Key, token: Token)
      modifies this`reservations
      ensures Abs() == FinishState(old(Abs()), key, token)
    {
      if key in reservations && reservations[key] == token {
        reservations := reservations - {key};
      }
    }

    method StopSection(key: Key, caller: Caller) returns (pc: Pc)
      modifies this`procs, this`modes, this`generations, this`reservations, this`objects, this`transitions, this`next
      ensures Abs() == StopState(old(Abs()), key, caller)
      ensures pc == StopPc(old(Abs()), key, caller)
    {
      if caller.Client? {
        reservations := reservations - {key};
      } else if key !in reservations || reservations[key] != caller.token {
        return StopReturn(key, caller, StartCancelled, None);
      }
      BumpGeneration(key);
      if key in transitions {
        return StopWait(key, caller, transitions[key]);
      }
      pc := DetachSection(key, caller);
    }

    /** The rest of that section: pop the process and open a transition if it still lives. */
    method DetachSection(key: Key, caller: Caller) returns (pc: Pc)
      modifies this`procs, this`modes, this`objects, this`transitions, this`next
      ensures Abs() == if Holds(old(Abs()), key) then Detach(old(Abs()), key) else Unregister(old(Abs()), key)
      ensures pc == if Holds(old(Abs()), key) then StopKill(key, caller, old(next))
                    else StopReturn(key, caller, NotRunning, None)
    {
      var proc := Get(procs, key);
      procs, modes := procs - {key}, modes - {key};
      if proc.Some? && proc.value in live {
        objects := objects[next := Transition(proc.value, None, true, false)];
        transitions := transitions[key := next];
        pc := StopKill(key, caller, next);
        next := next + 1;
      } else {
        pc := StopReturn(key, caller, NotRunning, None);
      }
    }

    method RetrySection(key: Key, caller: Caller, t: TransitionId) returns (pc: Pc)
      requires t in objects
      modifies this`objects, this`transitions
      ensures Abs() == RetryState(old(Abs()), key, t)
      ensures pc == RetryPc(old(Abs()), key, caller, t)
    {
      var victim := Some(objects[t].proc);
      if key !in transitions || transitions[key] != t {
        return StopReturn(key, caller, Stopped, victim);
      }
      if objects[t].terminated == Some(true) {
        transitions := transitions - {key};
        return StopReturn(key, caller, Stopped, victim);
      }
      if objects[t].terminating {
        return StopReturn(key, caller, StopTimeout, victim);
      }
      objects := objects[t := objects[t].(terminating := true, done := false)];
      pc := StopKill(key, caller, t);
    }

    method AdoptSection(key: Key, verified: bool) returns (outcome: Outcome)
      modifies this`procs, this`modes, this`generations, this`live, this`owner, this`next
      ensures Abs() == AdoptState(old(Abs()), key, verified)
      ensures outcome == AdoptOutcome(old(Abs()), key, verified)
    {
      if (key in procs && procs[key] in live) || key in transitions || key in reservations {
        return AlreadyRunning;
      }
      if !verified {
        return PidMismatch;
      }
      RegisterProcess(key, Rules);
      outcome := Adopted;
    }

    /** The reaper's treatment of one key. */
    method ReapKey(key: Key)
      modifies this`procs, this`modes, this`generations
      ensures var s := old(Abs());
              Abs() == s.(procs := s.procs - {key}, modes := s.modes - {key}, generations := Bump(s, key))
    {
      procs, modes := procs - {key}, modes - {key};
      BumpGeneration(key);
    }

    /** The reaper's loop over the dead keys it listed. */
    method ReapSection()
      modifies this`procs, this`modes, this`generations
      ensures Abs() == Reaped(old(Abs()))
    {
      var dead := set k | k in procs && procs[k] !in live;
      var todo := dead;
      ghost var start, gone := Abs(), {};
      ForgetNone(start);
      while todo != {}
        invariant todo !! gone && todo + gone == dead && Abs() == Forget(start, gone)
        decreases todo
      {
        var key :| key in todo;
        ForgetOneMore(start, gone, key);
        ReapKey(key);
        todo, gone := todo - {key}, gone + {key};
      }
      assert gone == dead;
    }
  }
}
