/** What holds in every reachable world of the worker supervisor. */
module SupervisorTheorems {
  import opened Common
  import opened SupervisorModel
  import opened SupervisorRuns

  /** The thread's own reservation is the one stored for its shop. */
  predicate HoldsSlot(s: State, pc: Pc) {
    TokenOf(pc).Some? && Get(s.reservations, pc.key) == TokenOf(pc)
  }

  /** While a restart holds its slot, the only transition of its shop is the one it created. */
  predicate SlotOk(s: State, pc: Pc) {
    HoldsSlot(s, pc) ==>
      && !pc.StopWait? && !pc.StopRetry?
      && (pc.StopEnter? || pc.StartSpawn? ==> pc.key !in s.transitions)
      && (pc.StopKill? || pc.StopKilled? ==>
            Get(s.transitions, pc.key) == None || Get(s.transitions, pc.key) == Some(pc.t))
  }

  ghost predicate ThreadsInv(w: World) {
    forall th :: th in w.threads ==> PcInv(w.mem, w.threads[th]) && SlotOk(w.mem, w.threads[th])
  }

  ghost predicate TokensDistinct(w: World) {
    forall a, b :: a in w.threads && b in w.threads && a != b && TokenOf(w.threads[a]).Some? ==>
      TokenOf(w.threads[a]) != TokenOf(w.threads[b])
  }

  ghost predicate Inv(w: World) {
    MemInv(w.mem) && ThreadsInv(w) && TokensDistinct(w)
  }

  lemma {:induction false} SlotMovesStop(s: State, key: Key, caller: Caller)
    requires SlotOk(s, StopEnter(key, caller))
    ensures SlotOk(StopState(s, key, caller), StopPc(s, key, caller))
  {
  }

  lemma {:induction false} SlotMovesStart(s: State, pc: Pc, choice: bool, limit: nat)
    requires Resolvable(s, pc) && SlotOk(s, pc)
    requires pc.StartRetire? || pc.StartRetired? || pc.StartReserve? || pc.StartSpawn? || pc.StartFinish? || pc.Done?
    ensures SlotOk(AdvanceMem(s, pc, choice, limit), AdvancePc(s, pc, choice, limit))
  {
  }

  lemma {:induction false} SlotMovesKill(s: State, pc: Pc, choice: bool, limit: nat)
    requires Resolvable(s, pc) && SlotOk(s, pc) && (pc.StopKill? || pc.StopKilled?)
    ensures SlotOk(AdvanceMem(s, pc, choice, limit), AdvancePc(s, pc, choice, limit))
  {
  }

  lemma {:induction false} SlotMovesWait(s: State, pc: Pc, choice: bool, limit: nat)
    requires Resolvable(s, pc) && SlotOk(s, pc) && (pc.StopWait? || pc.StopRetry?)
    ensures SlotOk(AdvanceMem(s, pc, choice, limit), AdvancePc(s, pc, choice, limit))
  {
  }

  lemma {:induction false} SlotMoves(s: State, pc: Pc, choice: bool, limit: nat)
    requires Resolvable(s, pc) && SlotOk(s, pc)
    ensures SlotOk(AdvanceMem(s, pc, choice, limit), AdvancePc(s, pc, choice, limit))
  {
    if pc.StopEnter? {
      SlotMovesStop(s, pc.key, pc.caller);
    } else if pc.StopKill? || pc.StopKilled? {
      SlotMovesKill(s, pc, choice, limit);
    } else if pc.StopWait? || pc.StopRetry? {
      SlotMovesWait(s, pc, choice, limit);
    } else {
      SlotMovesStart(s, pc, choice, limit);
    }
  }

  /** The shop's reservation is the same, and its transition is the same or gone. */
  predicate Calm(s: State, s': State, key: Key) {
    && Get(s'.reservations, key) == Get(s.reservations, key)
    && (Get(s'.transitions, key) == Get(s.transitions, key) || Get(s'.transitions, key) == None)
  }

  predicate ClientStop(pc: Pc, key: Key) {
    pc == StopEnter(key, Client)
  }

  lemma {:induction false} TailCalm(s: State, other: Key, key: Key)
    requires other !in s.transitions
    ensures Calm(s, Unregister(s, other), key)
    ensures other in s.procs && other != key ==> Calm(s, Detach(s, other), key)
  {
  }

  lemma {:induction false} BookCalm(s: State, other: Key, caller: Caller, key: Key)
    requires caller.Client? ==> other != key
    ensures Calm(s, Booked(s, other, caller), key) && Booked(s, other, caller).transitions == s.transitions
  {
  }

  lemma {:induction false} StopCalm(s: State, other: Key, caller: Caller, key: Key, token: Token)
    requires Get(s.reservations, key) == Some(token) && CallerToken(caller) != Some(token)
    requires !ClientStop(StopEnter(other, caller), key)
    ensures Calm(s, StopState(s, other, caller), key)
  {
    if !StopRefused(s, other, caller) {
      BookCalm(s, other, caller, key);
      if other !in s.transitions {
        TailCalm(Booked(s, other, caller), other, key);
      }
    }
  }

  lemma {:induction false} StartCalm(s: State, other: Pc, choice: bool, limit: nat, key: Key, token: Token)
    requires Resolvable(s, other) && TokenOf(other) != Some(token) && Get(s.reservations, key) == Some(token)
    requires other.StartRetire? || other.StartRetired? || other.StartReserve? || other.StartSpawn? || other.StartFinish?
    ensures Calm(s, AdvanceMem(s, other, choice, limit), key)
  {
  }

  lemma {:induction false} OtherCalm(s: State, other: Pc, choice: bool, limit: nat, key: Key, token: Token)
    requires Resolvable(s, other) && TokenOf(other) != Some(token)
    requires Get(s.reservations, key) == Some(token) && !ClientStop(other, key)
    ensures Calm(s, AdvanceMem(s, other, choice, limit), key)
  {
    if other.StopEnter? {
      StopCalm(s, other.key, other.caller, key, token);
    } else if !other.StopKill? && !other.StopKilled? && !other.StopWait? && !other.StopRetry? && !other.Done? {
      StartCalm(s, other, choice, limit, key, token);
    }
  }

  lemma {:induction false} DetachFacts(s: State, key: Key)
    ensures Unregister(s, key).reservations == s.reservations && Unregister(s, key).generations == s.generations
    ensures key in s.procs ==> Detach(s, key).reservations == s.reservations
    ensures key in s.procs ==> Detach(s, key).generations == s.generations
  {
  }

  lemma {:induction false} StopFacts(s: State, key: Key, caller: Caller)
    ensures var s' := StopState(s, key, caller);
            && s'.reservations == (if caller.Client? then s.reservations - {key} else s.reservations)
            && (caller.Client? ==> Generation(s', key) == Generation(s, key) + 1)
  {
    if !StopRefused(s, key, caller) {
      DetachFacts(Booked(s, key, caller), key);
    }
  }

  /** A reservation that is gone never comes back: later tokens are new. */
  lemma {:induction false} TokenStaysGone(s: State, other: Pc, choice: bool, limit: nat, key: Key, token: Token)
    requires Resolvable(s, other) && token < s.next && Get(s.reservations, key) != Some(token)
    ensures Get(AdvanceMem(s, other, choice, limit).reservations, key) != Some(token)
  {
    if other.StopEnter? {
      StopFacts(s, other.key, other.caller);
    }
  }

  lemma {:induction false} CalmKeepsSlot(s: State, s': State, pc: Pc)
    requires HoldsSlot(s, pc) && SlotOk(s, pc) && Calm(s, s', pc.key)
    ensures HoldsSlot(s', pc) && SlotOk(s', pc)
  {
  }

  lemma {:induction false} LostSlotIsOk(s': State, pc: Pc)
    requires TokenOf(pc).Some? ==> Get(s'.reservations, pc.key) != TokenOf(pc)
    ensures SlotOk(s', pc) && !HoldsSlot(s', pc)
  {
  }

  lemma {:induction false} ClientStopTakes(s: State, other: Pc, choice: bool, limit: nat, key: Key)
    requires ClientStop(other, key)
    ensures key !in AdvanceMem(s, other, choice, limit).reservations
  {
    StopFacts(s, key, Client);
  }

  /** Another thread's step leaves the slot alone, or takes it away altogether. */
  lemma {:induction false} SlotStable(s: State, pc: Pc, other: Pc, choice: bool, limit: nat, s': State)
    requires PcInv(s, pc) && SlotOk(s, pc) && Resolvable(s, other) && s' == AdvanceMem(s, other, choice, limit)
    requires TokenOf(pc).Some? ==> TokenOf(pc) != TokenOf(other)
    ensures SlotOk(s', pc) && (HoldsSlot(s', pc) ==> HoldsSlot(s, pc))
    ensures HoldsSlot(s, pc) && !ClientStop(other, pc.key) ==> HoldsSlot(s', pc)
  {
    if TokenOf(pc).None? {
      LostSlotIsOk(s', pc);
    } else if !HoldsSlot(s, pc) {
      TokenStaysGone(s, other, choice, limit, pc.key, TokenOf(pc).value);
      LostSlotIsOk(s', pc);
    } else if ClientStop(other, pc.key) {
      ClientStopTakes(s, other, choice, limit, pc.key);
      LostSlotIsOk(s', pc);
    } else {
      OtherCalm(s, other, choice, limit, pc.key, TokenOf(pc).value);
      CalmKeepsSlot(s, s', pc);
    }
  }

  lemma {:induction false} TokenFlow(s: State, pc: Pc, choice: bool, limit: nat)
    requires Resolvable(s, pc)
    ensures var pc' := AdvancePc(s, pc, choice, limit);
            TokenOf(pc') == None || TokenOf(pc') == TokenOf(pc) || TokenOf(pc') == Some(s.next)
    ensures !pc.Done? ==> AdvancePc(s, pc, choice, limit).key == pc.key
  {
  }

  lemma {:induction false} AdvanceThreads(w: World, th: Thread, choice: bool, limit: nat, w': World)
    requires Inv(w) && Enabled(w, Advance(th, choice)) && w' == Apply(w, Advance(th, choice), limit)
    requires Grows(w.mem, w'.mem)
    ensures ThreadsInv(w')
  {
    var pc := w.threads[th];
    forall u | u in w'.threads
      ensures PcInv(w'.mem, w'.threads[u]) && SlotOk(w'.mem, w'.threads[u])
    {
      if u == th {
        AdvancePcKeeps(w.mem, pc, choice, limit);
        SlotMoves(w.mem, pc, choice, limit);
      } else {
        PcStable(w.mem, w'.mem, w.threads[u]);
        SlotStable(w.mem, w.threads[u], pc, choice, limit, w'.mem);
      }
    }
  }

  /** A thread's token is its old one, a new one or none, so tokens stay distinct. */
  lemma {:induction false} TokensStayDistinct(w: World, th: Thread, pc': Pc)
    requires TokensDistinct(w) && th in w.threads
    requires TokenOf(pc') == None || TokenOf(pc') == TokenOf(w.threads[th]) || TokenOf(pc') == Some(w.mem.next)
    requires forall u :: u in w.threads && TokenOf(w.threads[u]).Some? ==> TokenOf(w.threads[u]).value < w.mem.next
    ensures TokensDistinct(w.(threads := w.threads[th := pc']))
  {
  }

  lemma {:induction false} TokensDistinctIn(w: World, w': World)
    requires TokensDistinct(w) && w'.threads == w.threads
    ensures TokensDistinct(w')
  {
  }

  lemma {:induction false} AdvanceInv(w: World, th: Thread, choice: bool, limit: nat)
    requires Inv(w) && Enabled(w, Advance(th, choice))
    ensures Inv(Apply(w, Advance(th, choice), limit))
  {
    var pc := w.threads[th];
    var w' := Apply(w, Advance(th, choice), limit);
    AdvanceKeeps(w.mem, pc, choice, limit);
    AdvanceThreads(w, th, choice, limit, w');
    TokenFlow(w.mem, pc, choice, limit);
    TokensStayDistinct(w, th, AdvancePc(w.mem, pc, choice, limit));
    TokensDistinctIn(w.(threads := w'.threads), w');
  }

  /** Steps that change only the shared state, without touching any slot. */
  lemma {:induction false} QuietInv(w: World, s': State)
    requires Inv(w) && MemInv(s') && Grows(w.mem, s')
    requires s'.reservations == w.mem.reservations && s'.transitions == w.mem.transitions
    ensures Inv(w.(mem := s'))
  {
    forall u | u in w.threads
      ensures PcInv(s', w.threads[u]) && SlotOk(s', w.threads[u])
    {
      PcStable(w.mem, s', w.threads[u]);
    }
  }

  lemma {:induction false} CallInv(w: World, th: Thread, pc: Pc)
    requires Inv(w) && th !in w.threads && PcInv(w.mem, pc) && TokenOf(pc) == None
    ensures Inv(w.(threads := w.threads[th := pc]))
  {
  }

  lemma {:induction false} StepInv(w: World, step: Step, limit: nat)
    requires Inv(w) && Enabled(w, step)
    ensures Inv(Apply(w, step, limit))
  {
    match step
    case CallStart(th, key, mode) => CallInv(w, th, StartCheck(w.mem, key, mode));
    case CallStop(th, key) => CallInv(w, th, StopEnter(key, Client));
    case Advance(th, choice) => AdvanceInv(w, th, choice, limit);
    case Adopt(key, verified) =>
      if !IsRunning(w.mem, key) && verified {
        RegisterKeeps(w.mem, key, Rules);
        QuietInv(w, Register(w.mem, key, Rules));
      }
    case Die(p) =>
      KillKeeps(w.mem, p);
      QuietInv(w, w.mem.(live := w.mem.live - {p}));
    case Reap =>
      ReapKeeps(w.mem);
      QuietInv(w, Reaped(w.mem));
  }

  lemma {:induction false} RunInv(worlds: seq<World>, steps: seq<Step>, limit: nat, i: nat)
    requires IsRun(worlds, steps, limit) && i < |worlds|
    ensures Inv(worlds[i])
  {
    if i > 0 {
      RunInv(worlds, steps, limit, i - 1);
      StepInv(worlds[i - 1], steps[i - 1], limit);
    }
  }

  /**
   * At most one live worker per shop, in any interleaving: a process ever
   * started or adopted for a shop and still alive is the registered one or the
   * one in the shop's transition, never both, and no second one exists.
   */
  lemma {:induction false} AtMostOneLiveWorker(worlds: seq<World>, steps: seq<Step>, limit: nat, i: nat, p: Proc)
    requires IsRun(worlds, steps, limit) && i < |worlds|
    requires p in worlds[i].mem.live
    ensures var s := worlds[i].mem;
            && p in s.owner
            && ((Get(s.procs, s.owner[p]) == Some(p)) != InTransition(s, s.owner[p], p))
            && (forall q :: q in s.live && q in s.owner && s.owner[q] == s.owner[p] ==> q == p)
  {
    RunInv(worlds, steps, limit, i);
  }

  /** A stop that answered success leaves its process dead for the rest of the run. */
  lemma {:induction false} StoppedMeansDead(worlds: seq<World>, steps: seq<Step>, limit: nat, i: nat, j: nat,
                                            th: Thread)
    requires IsRun(worlds, steps, limit) && i <= j < |worlds|
    requires th in worlds[i].threads && worlds[i].threads[th].Done?
    requires worlds[i].threads[th].outcome == Stopped && worlds[i].threads[th].victim.Some?
    ensures worlds[i].threads[th].victim.value !in worlds[j].mem.live
    decreases j - i
  {
    RunInv(worlds, steps, limit, i);
    if i < j {
      DoneStays(worlds[i], steps[i], limit, th);
      StoppedMeansDead(worlds, steps, limit, i + 1, j, th);
    }
  }

  lemma {:induction false} DoneStays(w: World, step: Step, limit: nat, th: Thread)
    requires Enabled(w, step) && th in w.threads && w.threads[th].Done?
    ensures var w' := Apply(w, step, limit); th in w'.threads && w'.threads[th] == w.threads[th]
  {
  }

  // ----- the worker limit -----

  lemma {:induction false} RegisterCounts(s: State, key: Key, mode: Mode)
    requires forall p :: p in s.live ==> p < s.next
    requires forall k :: k in s.procs ==> s.procs[k] < s.next
    ensures RunningKeys(Register(s, key, mode)) <= RunningKeys(s) + {key}
    ensures RunningKeys(s) <= RunningKeys(Register(s, key, mode))
  {
  }

  lemma {:induction false} AdvanceCounts(s: State, pc: Pc, choice: bool, limit: nat)
    requires MemInv(s) && Resolvable(s, pc)
    ensures var s' := AdvanceMem(s, pc, choice, limit);
            || RunningKeys(s') <= RunningKeys(s)
            || (RunningKeys(s') <= RunningKeys(s) + {pc.key} && |RunningKeys(s)| < limit)
  {
    if pc.StartSpawn? {
      if SpawnOutcome(s, pc.key, pc.token, limit, choice) == Started {
        RegisterCounts(s, pc.key, pc.mode);
      }
    } else {
      KeysShrink(s, pc, choice, limit);
    }
  }

  lemma {:induction false} PublishShrinks(s: State, key: Key, t: TransitionId, ok: bool)
    requires t in s.objects
    ensures RunningKeys(Publish(s, key, t, ok)) <= RunningKeys(s)
  {
  }

  lemma {:induction false} RetryShrinks(s: State, key: Key, t: TransitionId)
    requires t in s.objects
    ensures RunningKeys(RetryState(s, key, t)) <= RunningKeys(s)
  {
  }

  lemma {:induction false} ReserveShrinks(s: State, key: Key, generation: nat)
    ensures RunningKeys(ReserveState(s, key, generation)) <= RunningKeys(s)
  {
  }

  lemma {:induction false} FinishShrinks(s: State, key: Key, token: Token)
    ensures RunningKeys(FinishState(s, key, token)) <= RunningKeys(s)
  {
  }

  lemma {:induction false} KillShrinks(s: State, p: Proc)
    ensures RunningKeys(s.(live := s.live - {p})) <= RunningKeys(s)
  {
  }

  lemma {:induction false} KeysShrink(s: State, pc: Pc, choice: bool, limit: nat)
    requires Resolvable(s, pc) && !pc.StartSpawn?
    ensures RunningKeys(AdvanceMem(s, pc, choice, limit)) <= RunningKeys(s)
  {
    match pc
    case StartRetire(_, _, _, t) => KillShrinks(s, s.objects[t].proc);
    case StartRetired(key, _, _, t, ok) => PublishShrinks(s, key, t, ok);
    case StartReserve(key, _, generation) => ReserveShrinks(s, key, generation);
    case StartFinish(key, token, _) => FinishShrinks(s, key, token);
    case StopEnter(key, caller) => StopShrinks(s, key, caller);
    case StopKill(_, _, t) => KillShrinks(s, s.objects[t].proc);
    case StopKilled(key, _, t, ok) => PublishShrinks(s, key, t, ok);
    case StopRetry(key, _, t) => RetryShrinks(s, key, t);
    case _ =>
  }

  lemma {:induction false} StopShrinks(s: State, key: Key, caller: Caller)
    ensures RunningKeys(StopState(s, key, caller)) <= RunningKeys(s)
  {
    if !StopRefused(s, key, caller) {
      BookShrinks(s, key, caller);
      if key !in s.transitions && Holds(s, key) {
        DetachShrinks(Booked(s, key, caller), key);
      }
    }
  }

  lemma {:induction false} BookShrinks(s: State, key: Key, caller: Caller)
    ensures RunningKeys(Booked(s, key, caller)) <= RunningKeys(s)
    ensures RunningKeys(Unregister(Booked(s, key, caller), key)) <= RunningKeys(s)
  {
  }

  lemma {:induction false} DetachShrinks(s: State, key: Key)
    requires Holds(s, key)
    ensures RunningKeys(Detach(s, key)) <= RunningKeys(s)
  {
  }

  lemma {:induction false} AdvanceRaises(w: World, th: Thread, choice: bool, limit: nat)
    requires Inv(w) && Enabled(w, Advance(th, choice))
    ensures |RunningKeys(Apply(w, Advance(th, choice), limit).mem)| <= Max(limit, |RunningKeys(w.mem)|)
  {
    var before, after := RunningKeys(w.mem), RunningKeys(Apply(w, Advance(th, choice), limit).mem);
    AdvanceCounts(w.mem, w.threads[th], choice, limit);
    if after <= before {
      SubsetSize(after, before);
    } else {
      SubsetSize(after, before + {w.threads[th].key});
    }
  }

  /** A verified adoption adds at most its own shop; the other steps without a thread add none. */
  lemma {:induction false} ElsewhereRaises(w: World, step: Step, limit: nat)
    requires MemInv(w.mem) && Enabled(w, step) && !step.Advance?
    ensures |RunningKeys(Apply(w, step, limit).mem)| <= |RunningKeys(w.mem)| + if step.Adopt? then 1 else 0
  {
    var before, after := RunningKeys(w.mem), RunningKeys(Apply(w, step, limit).mem);
    if step.Adopt? {
      RegisterCounts(w.mem, step.key, Rules);
      SubsetSize(after, before + {step.key});
    } else {
      SubsetSize(after, before);
    }
  }

  /** One step raises the count above the larger of the limit and its old value only by adopting, and then by one. */
  lemma {:induction false} CountStep(w: World, step: Step, limit: nat)
    requires Inv(w) && Enabled(w, step)
    ensures |RunningKeys(Apply(w, step, limit).mem)| <= Max(limit, |RunningKeys(w.mem)|) + if step.Adopt? then 1 else 0
  {
    if step.Advance? {
      AdvanceRaises(w, step.thread, step.choice, limit);
    } else {
      ElsewhereRaises(w, step, limit);
    }
  }

  lemma {:induction false} RunCount(worlds: seq<World>, steps: seq<Step>, limit: nat, i: nat)
    requires IsRun(worlds, steps, limit) && i < |steps|
    ensures |RunningKeys(worlds[i + 1].mem)| <=
            Max(limit, |RunningKeys(worlds[i].mem)|) + if steps[i].Adopt? then 1 else 0
  {
    RunInv(worlds, steps, limit, i);
    CountStep(worlds[i], steps[i], limit);
  }

  /** The number of adoption steps from point i to point j. */
  ghost function Adoptions(steps: seq<Step>, i: nat, j: nat): nat
    requires i <= j <= |steps|
    decreases j
  {
    if i == j then 0 else Adoptions(steps, i, j - 1) + if steps[j - 1].Adopt? then 1 else 0
  }

  ghost function Counts(worlds: seq<World>): seq<nat> {
    seq(|worlds|, i requires 0 <= i < |worlds| => |RunningKeys(worlds[i].mem)|)
  }

  ghost predicate RisesSlowly(counts: seq<nat>, steps: seq<Step>, limit: nat) {
    && |counts| == |steps| + 1
    && forall i :: 0 <= i < |steps| ==> counts[i + 1] <= Max(limit, counts[i]) + if steps[i].Adopt? then 1 else 0
  }

  lemma {:induction false} RunRisesSlowly(worlds: seq<World>, steps: seq<Step>, limit: nat)
    requires IsRun(worlds, steps, limit)
    ensures RisesSlowly(Counts(worlds), steps, limit)
  {
    forall i | 0 <= i < |steps|
      ensures Counts(worlds)[i + 1] <= Max(limit, Counts(worlds)[i]) + if steps[i].Adopt? then 1 else 0
    {
      RunCount(worlds, steps, limit, i);
    }
  }

  lemma {:induction false} RisesAddUp(counts: seq<nat>, steps: seq<Step>, limit: nat, i: nat, j: nat)
    requires RisesSlowly(counts, steps, limit) && i <= j < |counts|
    ensures counts[j] <= Max(limit, counts[i]) + Adoptions(steps, i, j)
    decreases j
  {
    if i < j {
      RisesAddUp(counts, steps, limit, i, j - 1);
      assert counts[j - 1 + 1] <= Max(limit, counts[j - 1]) + if steps[j - 1].Adopt? then 1 else 0;
    }
  }

  /**
   * Over any stretch of a run the count exceeds the larger of the limit and
   * its value at the start by no more than the adoptions in between; without
   * an adoption it does not exceed it at all.
   */
  lemma {:induction false} WorkerLimit(worlds: seq<World>, steps: seq<Step>, limit: nat, i: nat, j: nat)
    requires IsRun(worlds, steps, limit) && i <= j < |worlds|
    ensures |RunningKeys(worlds[j].mem)| <= Max(limit, |RunningKeys(worlds[i].mem)|) + Adoptions(steps, i, j)
  {
    RunRisesSlowly(worlds, steps, limit);
    RisesAddUp(Counts(worlds), steps, limit, i, j);
  }

  // ----- the slot of a mode-change restart -----

  /** Every step of a restart that still holds its slot, up to and including the spawn, keeps the count. */
  lemma {:induction false} RestartKeepsCount(s: State, pc: Pc, choice: bool, limit: nat)
    requires Numbered(s) && PcInv(s, pc) && SlotOk(s, pc) && HoldsSlot(s, pc) && !pc.StartFinish?
    ensures RunningKeys(AdvanceMem(s, pc, choice, limit)) == RunningKeys(s)
  {
    if pc.StartSpawn? {
      SpawnKeysKept(s, pc, choice, limit);
    } else if pc.StopEnter? {
      StopKeysKept(s, pc.key, pc.caller);
    } else if pc.StopKill? {
      KillKeysKept(s, pc.key, s.objects[pc.t].proc);
    } else {
      assert pc.StopKilled?;
      PublishKeysKept(s, pc.key, pc.t, pc.ok);
    }
  }

  lemma {:induction false} SlotFollows(s: State, pc: Pc, choice: bool, limit: nat)
    requires Resolvable(s, pc) && SlotOk(s, pc) && HoldsSlot(s, pc) && !pc.StartFinish?
    ensures HoldsSlot(AdvanceMem(s, pc, choice, limit), AdvancePc(s, pc, choice, limit))
  {
    if pc.StopEnter? {
      StopFacts(s, pc.key, pc.caller);
    }
  }

  lemma {:induction false} SpawnKeysKept(s: State, pc: Pc, choice: bool, limit: nat)
    requires Numbered(s) && pc.StartSpawn? && HoldsSlot(s, pc)
    ensures RunningKeys(SpawnState(s, pc.key, pc.mode, pc.token, limit, choice)) == RunningKeys(s)
  {
    if SpawnOutcome(s, pc.key, pc.token, limit, choice) == Started {
      RegisterCounts(s, pc.key, pc.mode);
    }
  }

  lemma {:induction false} BookedKeysKept(s: State, key: Key, caller: Caller)
    requires key in s.reservations && caller.Restart?
    ensures RunningKeys(Booked(s, key, caller)) == RunningKeys(s) && key in Booked(s, key, caller).reservations
  {
  }

  lemma {:induction false} DetachKeysKept(s: State, key: Key)
    requires key in s.reservations
    ensures RunningKeys(Unregister(s, key)) == RunningKeys(s)
    ensures key in s.procs ==> RunningKeys(Detach(s, key)) == RunningKeys(s)
  {
  }

  lemma {:induction false} StopKeysKept(s: State, key: Key, caller: Caller)
    requires key in s.reservations && caller.Restart?
    ensures RunningKeys(StopState(s, key, caller)) == RunningKeys(s)
  {
    BookedKeysKept(s, key, caller);
    DetachKeysKept(Booked(s, key, caller), key);
  }

  lemma {:induction false} KillKeysKept(s: State, key: Key, p: Proc)
    requires Numbered(s) && key in s.reservations && p in s.owner && s.owner[p] == key
    ensures RunningKeys(s.(live := s.live - {p})) == RunningKeys(s)
  {
  }

  lemma {:induction false} PublishKeysKept(s: State, key: Key, t: TransitionId, ok: bool)
    requires key in s.reservations && t in s.objects
    ensures RunningKeys(Publish(s, key, t, ok)) == RunningKeys(s)
  {
  }

  /** Its spawn is then never refused for the limit, a foreign transition or a lost reservation. */
  lemma {:induction false} RestartSpawns(s: State, pc: Pc, limit: nat, spawnOk: bool)
    requires SlotOk(s, pc) && HoldsSlot(s, pc) && pc.StartSpawn?
    ensures var outcome := SpawnOutcome(s, pc.key, pc.token, limit, spawnOk);
            if Holds(s, pc.key) then outcome == AlreadyRunning
            else outcome == if spawnOk then Started else SpawnFailed
  {
  }

  predicate OutsideStop(w: World, step: Step, key: Key) {
    step.Advance? && step.thread in w.threads && ClientStop(w.threads[step.thread], key)
  }

  predicate OwnFinish(w: World, step: Step, th: Thread) {
    step.Advance? && step.thread == th && th in w.threads && w.threads[th].StartFinish?
  }

  lemma {:induction false} SlotStep(w: World, step: Step, limit: nat, th: Thread)
    requires Inv(w) && Enabled(w, step) && th in w.threads && HoldsSlot(w.mem, w.threads[th])
    requires !OutsideStop(w, step, w.threads[th].key) && !OwnFinish(w, step, th)
    ensures var w' := Apply(w, step, limit);
            && th in w'.threads && HoldsSlot(w'.mem, w'.threads[th]) && w'.threads[th].key == w.threads[th].key
  {
    if step.Advance? {
      if step.thread == th {
        SlotFollows(w.mem, w.threads[th], step.choice, limit);
        TokenFlow(w.mem, w.threads[th], step.choice, limit);
      } else {
        SlotStable(w.mem, w.threads[th], w.threads[step.thread], step.choice, limit, Apply(w, step, limit).mem);
      }
    }
  }

  /** From its reservation to its `finally`, only an outside stop of that shop takes the slot away. */
  lemma {:induction false} SlotSurvives(worlds: seq<World>, steps: seq<Step>, limit: nat, i: nat, j: nat, th: Thread,
                                        key: Key)
    requires IsRun(worlds, steps, limit) && i <= j < |worlds|
    requires th in worlds[i].threads && HoldsSlot(worlds[i].mem, worlds[i].threads[th])
              && worlds[i].threads[th].key == key
    requires forall k :: i <= k < j ==> !OutsideStop(worlds[k], steps[k], key) && !OwnFinish(worlds[k], steps[k], th)
    ensures th in worlds[j].threads && HoldsSlot(worlds[j].mem, worlds[j].threads[th])
              && worlds[j].threads[th].key == key
    ensures key in RunningKeys(worlds[j].mem)
    decreases j
  {
    if i < j {
      SlotSurvives(worlds, steps, limit, i, j - 1, th, key);
      RunInv(worlds, steps, limit, j - 1);
      SlotStep(worlds[j - 1], steps[j - 1], limit, th);
    }
  }

  // ----- a stop cancels the starts it finds in flight -----

  /** A start that can no longer reach `Started`. */
  predicate Doomed(s: State, pc: Pc) {
    match pc
    case StartRetire(key, _, g, _) => g < Generation(s, key)
    case StartRetired(key, _, g, _, _) => g < Generation(s, key)
    case StartReserve(key, _, g) => g < Generation(s, key)
    case StartFinish(_, _, outcome) => outcome != Started
    case Done(_, outcome, _) => outcome != Started
    case _ => TokenOf(pc).Some? && !HoldsSlot(s, pc)
  }

  /** A start between its first lock section and its spawn, holding a fence that a stop can break. */
  predicate InFlight(pc: Pc) {
    pc.StartRetire? || pc.StartRetired? || pc.StartReserve? ||
    (TokenOf(pc).Some? && !pc.StartFinish?)
  }

  lemma {:induction false} DoomedAdvance(s: State, pc: Pc, choice: bool, limit: nat)
    requires PcInv(s, pc) && Doomed(s, pc)
    ensures Doomed(AdvanceMem(s, pc, choice, limit), AdvancePc(s, pc, choice, limit))
  {
  }

  lemma {:induction false} DoomedOther(s: State, pc: Pc, other: Pc, choice: bool, limit: nat)
    requires MemInv(s) && PcInv(s, pc) && SlotOk(s, pc) && PcInv(s, other) && Doomed(s, pc)
    requires TokenOf(pc).Some? ==> TokenOf(pc) != TokenOf(other)
    ensures Doomed(AdvanceMem(s, other, choice, limit), pc)
  {
    AdvanceKeeps(s, other, choice, limit);
    SlotStable(s, pc, other, choice, limit, AdvanceMem(s, other, choice, limit));
  }

  lemma {:induction false} DoomedStep(w: World, step: Step, limit: nat, th: Thread)
    requires Inv(w) && Enabled(w, step) && th in w.threads && Doomed(w.mem, w.threads[th])
    ensures var w' := Apply(w, step, limit); th in w'.threads && Doomed(w'.mem, w'.threads[th])
  {
    match step
    case Advance(u, choice) =>
      if u == th {
        DoomedAdvance(w.mem, w.threads[th], choice, limit);
      } else {
        DoomedOther(w.mem, w.threads[th], w.threads[u], choice, limit);
      }
    case Reap => ReapKeeps(w.mem);
    case _ =>
  }

  lemma {:induction false} DoomedForever(worlds: seq<World>, steps: seq<Step>, limit: nat, i: nat, j: nat, th: Thread)
    requires IsRun(worlds, steps, limit) && i <= j < |worlds|
    requires th in worlds[i].threads && Doomed(worlds[i].mem, worlds[i].threads[th])
    ensures th in worlds[j].threads && Doomed(worlds[j].mem, worlds[j].threads[th])
    decreases j
  {
    if i < j {
      DoomedForever(worlds, steps, limit, i, j - 1, th);
      RunInv(worlds, steps, limit, j - 1);
      DoomedStep(worlds[j - 1], steps[j - 1], limit, th);
    }
  }

  lemma {:induction false} StopBreaksFence(s: State, pc: Pc)
    requires PcInv(s, pc) && InFlight(pc)
    ensures Doomed(StopState(s, pc.key, Client), pc)
  {
    StopFacts(s, pc.key, Client);
    if TokenOf(pc).None? {
      assert pc.generation <= Generation(s, pc.key);
    }
  }

  lemma {:induction false} StopDooms(w: World, step: Step, limit: nat, th: Thread)
    requires ThreadsInv(w) && Enabled(w, step) && th in w.threads && InFlight(w.threads[th])
    requires OutsideStop(w, step, w.threads[th].key)
    ensures var w' := Apply(w, step, limit); th in w'.threads && Doomed(w'.mem, w'.threads[th])
  {
    StopBreaksFence(w.mem, w.threads[th]);
  }

  /**
   * An outside stop of a shop, landing at step i while a start of that shop is
   * fenced by its generation or its reservation, means that this start never
   * reports a started worker at any later point of the run.
   */
  lemma {:induction false} StopCancelsStart(worlds: seq<World>, steps: seq<Step>, limit: nat, i: nat, j: nat,
                                            th: Thread)
    requires IsRun(worlds, steps, limit) && i < j < |worlds|
    requires th in worlds[i].threads && InFlight(worlds[i].threads[th])
    requires OutsideStop(worlds[i], steps[i], worlds[i].threads[th].key)
    ensures th in worlds[j].threads
    ensures (worlds[j].threads[th].Done? || worlds[j].threads[th].StartFinish?) ==>
              worlds[j].threads[th].outcome != Started
  {
    RunInv(worlds, steps, limit, i);
    StopDooms(worlds[i], steps[i], limit, th);
    DoomedForever(worlds, steps, limit, i + 1, j, th);
  }

  lemma {:induction false} StopFrees(s: State, key: Key)
    requires key !in s.transitions && !Holds(s, key)
    ensures var s' := StopState(s, key, Client);
            RunningKeys(s') == RunningKeys(s) - {key} && key !in s'.transitions && !Holds(s', key)
  {
  }

  lemma {:induction false} StopRetires(s: State, key: Key)
    requires key in s.transitions || Holds(s, key)
    ensures key in StopState(s, key, Client).transitions
  {
  }

  lemma {:induction false} UnreservedSpawn(s: State, key: Key, limit: nat)
    ensures SpawnOutcome(s, key, None, limit, true) == Started <==>
              key !in s.transitions && !Holds(s, key) && |RunningKeys(s)| < limit
  {
  }

  /**
   * The fence has one gap: a start that found no worker holds no reservation,
   * and its spawning section does not look at the generation again.  An outside
   * stop that lands there is not noticed if and only if the shop has no live
   * worker and no transition, and the other shops leave room.
   */
  lemma {:induction false} UnreservedStartIgnoresStop(s: State, key: Key, limit: nat)
    ensures SpawnOutcome(StopState(s, key, Client), key, None, limit, true) == Started <==>
              key !in s.transitions && !Holds(s, key) && |RunningKeys(s) - {key}| < limit
  {
    UnreservedSpawn(StopState(s, key, Client), key, limit);
    if key in s.transitions || Holds(s, key) {
      StopRetires(s, key);
    } else {
      StopFrees(s, key);
    }
  }

  /** The state of a shop that was stopped without ever having a worker. */
  function StoppedOnce(key: Key): State {
    EMPTY.(generations := map[key := 1])
  }

  lemma {:induction false} StopOfNothing(key: Key)
    ensures StopState(EMPTY, key, Client) == StoppedOnce(key)
    ensures StopPc(EMPTY, key, Client) == Done(key, NotRunning, None)
  {
    assert StopState(EMPTY, key, Client).generations == map[key := 1];
  }

  lemma {:induction false} SpawnAfterStop(key: Key)
    ensures SpawnOutcome(StoppedOnce(key), key, None, 1, true) == Started
  {
    assert RunningKeys(StoppedOnce(key)) == {};
  }

  /** Thread 0 starts a shop, thread 1 stops it before the spawn, and the worker is started all the same. */
  function GapSteps(key: Key): seq<Step> {
    [CallStart(0, key, Rules), Advance(0, true), CallStop(1, key), Advance(1, true), Advance(0, true)]
  }

  function GapWorlds(key: Key): seq<World> {
    var spawn, stopped := StartSpawn(key, Rules, None), Done(key, NotRunning, None);
    [World(EMPTY, map[]), World(EMPTY, map[0 := StartReserve(key, Rules, 0)]), World(EMPTY, map[0 := spawn]),
     World(EMPTY, map[0 := spawn, 1 := StopEnter(key, Client)]), World(StoppedOnce(key), map[0 := spawn, 1 := stopped]),
     World(Register(StoppedOnce(key), key, Rules), map[0 := Done(key, Started, None), 1 := stopped])]
  }

  lemma {:induction false} StartFindsNothing(key: Key)
    ensures StartCheck(EMPTY, key, Rules) == StartReserve(key, Rules, 0)
    ensures ReserveState(EMPTY, key, 0) == EMPTY && ReservePc(EMPTY, key, Rules, 0) == StartSpawn(key, Rules, None)
  {
  }

  lemma {:induction false} GapBegins(key: Key, i: nat)
    requires i < 3
    ensures Enabled(GapWorlds(key)[i], GapSteps(key)[i])
    ensures GapWorlds(key)[i + 1] == Apply(GapWorlds(key)[i], GapSteps(key)[i], 1)
  {
    StartFindsNothing(key);
  }

  lemma {:induction false} GapStops(key: Key)
    ensures Enabled(GapWorlds(key)[3], GapSteps(key)[3])
    ensures GapWorlds(key)[4] == Apply(GapWorlds(key)[3], GapSteps(key)[3], 1)
  {
    StopOfNothing(key);
  }

  lemma {:induction false} GapSpawns(key: Key)
    ensures Enabled(GapWorlds(key)[4], GapSteps(key)[4])
    ensures GapWorlds(key)[5] == Apply(GapWorlds(key)[4], GapSteps(key)[4], 1)
  {
    SpawnAfterStop(key);
  }

  /** The gap is reachable. */
  lemma {:induction false} StoppedStartSpawns(key: Key) returns (worlds: seq<World>, steps: seq<Step>)
    ensures IsRun(worlds, steps, 1) && |steps| == 5
    ensures Get(worlds[2].threads, 0) == Some(StartSpawn(key, Rules, None)) && OutsideStop(worlds[3], steps[3], key)
    ensures Get(worlds[5].threads, 0) == Some(Done(key, Started, None)) && Holds(worlds[5].mem, key)
  {
    worlds, steps := GapWorlds(key), GapSteps(key);
    forall i | 0 <= i < 5 ensures Enabled(worlds[i], steps[i]) && worlds[i + 1] == Apply(worlds[i], steps[i], 1) {
      if i < 3 {
        GapBegins(key, i);
      } else if i == 3 {
        GapStops(key);
      } else {
        GapSpawns(key);
      }
    }
  }
}
