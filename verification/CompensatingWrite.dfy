/**
 * Compensating multi-file writes of backend/account_storage.py: a block that
 * raises puts every file it declared back to its snapshot, or names it.
 */
module WriteModel {
  import opened Common

  datatype File = Absent | Regular(bytes: seq<Byte>) | Link | Directory

  /** `atomic_write_path` may also raise after the replacement: chmod and fsync follow it. */
  datatype WriteFault = NoFault | FailsBefore | FailsAfter

  /** What the environment makes fail while one file is being restored. */
  datatype RestoreFault = RestoreFault(inspect: bool, read: bool, unlink: bool, write: WriteFault)

  /** What happens inside the block: a call of the yielded `write`, or another writer. */
  datatype Action =
    | Write(name: string, payload: seq<Byte>, fault: WriteFault)
    | Foreign(name: string, file: File)

  type Files = map<string, File>

  function At(files: Files, name: string): File {
    if name in files then files[name] else Absent
  }

  /** The file after an atomic write, and whether the write returned. */
  function Landed(file: File, payload: seq<Byte>, fault: WriteFault): File {
    if file.Directory? || fault.FailsBefore? then file else Regular(payload)
  }

  predicate Returns(file: File, fault: WriteFault) {
    !file.Directory? && fault.NoFault?
  }

  /** One action as the file `name` sees it. */
  function Acted(file: File, a: Action, names: seq<string>, name: string): File {
    match a
    case Write(n, payload, fault) => if n == name && n in names then Landed(file, payload, fault) else file
    case Foreign(n, other) => if n == name then other else file
  }

  function Track(file: File, script: seq<Action>, names: seq<string>, name: string): File
    decreases |script|
  {
    if script == [] then file else Track(Acted(file, script[0], names, name), script[1..], names, name)
  }

  function Recorded(last: Option<seq<Byte>>, a: Action, names: seq<string>, name: string): Option<seq<Byte>> {
    if a.Write? && a.name == name && name in names then Some(a.payload) else last
  }

  /** The payload `write` last recorded for a name, starting from `last`. */
  function Tried(last: Option<seq<Byte>>, script: seq<Action>, names: seq<string>, name: string): Option<seq<Byte>>
    decreases |script|
  {
    if script == [] then last else Tried(Recorded(last, script[0], names, name), script[1..], names, name)
  }

  function AsFile(snapshot: Option<seq<Byte>>): File {
    if snapshot.None? then Absent else Regular(snapshot.value)
  }

  /** `_restore_file`: the file afterwards, and whether it returned. */
  function Restored(file: File, original: Option<seq<Byte>>, tried: Option<seq<Byte>>, f: RestoreFault): (File, bool) {
    if f.inspect || file.Link? || file.Directory? then (file, false)
    else if original.None? then
      if file.Absent? then (file, true)
      else if f.read || tried != Some(file.bytes) || f.unlink then (file, false)
      else (Absent, true)
    else if file.Regular? && f.read then (file, false)
    else if file == Regular(original.value) then (file, true)
    else (Landed(file, original.value, f.write), Returns(file, f.write))
  }

  predicate NoDuplicates(names: seq<string>) {
    forall i, j :: 0 <= i < j < |names| ==> names[i] != names[j]
  }

  /** Every declared file is absent, or regular and readable. */
  predicate Snapshotable(files: Files, names: seq<string>, unreadable: set<string>) {
    forall i :: 0 <= i < |names| ==>
      At(files, names[i]).Absent? || (At(files, names[i]).Regular? && names[i] !in unreadable)
  }

  function SnapshotOf(file: File): Option<seq<Byte>> {
    if file.Regular? then Some(file.bytes) else None
  }

  predicate NoWrites(script: seq<Action>) {
    forall i :: 0 <= i < |script| ==> script[i].Foreign?
  }

  function Flat(parts: seq<seq<Action>>): seq<Action> {
    if parts == [] then [] else Flat(parts[..|parts| - 1]) + parts[|parts| - 1]
  }

  lemma {:induction false} TrackJoin(file: File, a: seq<Action>, b: seq<Action>, names: seq<string>, name: string)
    ensures Track(file, a + b, names, name) == Track(Track(file, a, names, name), b, names, name)
    decreases |a|
  {
    if a == [] {
      assert a + b == b;
    } else {
      assert (a + b)[1..] == a[1..] + b;
      TrackJoin(Acted(file, a[0], names, name), a[1..], b, names, name);
    }
  }

  lemma {:induction false} TriedJoin(last: Option<seq<Byte>>, a: seq<Action>, b: seq<Action>, names: seq<string>,
                                     name: string)
    requires NoWrites(b)
    ensures Tried(last, a + b, names, name) == Tried(last, a, names, name)
    decreases |a| + |b|
  {
    if a != [] {
      assert (a + b)[1..] == a[1..] + b;
      TriedJoin(Recorded(last, a[0], names, name), a[1..], b, names, name);
    } else if b != [] {
      assert a + b == b && [] + b[1..] == b[1..];
      TriedJoin(last, [], b[1..], names, name);
    }
  }

  lemma {:induction false} FlatNoWrites(parts: seq<seq<Action>>)
    requires forall i :: 0 <= i < |parts| ==> NoWrites(parts[i])
    ensures NoWrites(Flat(parts))
  {
    if parts != [] {
      FlatNoWrites(parts[..|parts| - 1]);
    }
  }

  lemma {:induction false} FlatMore(parts: seq<seq<Action>>, i: nat, j: nat)
    requires i <= j < |parts|
    ensures Flat(parts[i..j + 1]) == Flat(parts[i..j]) + parts[j]
  {
    assert parts[i..j + 1][..j - i] == parts[i..j];
  }

  /** A declared file after a block that raised, and whether its restore returned. */
  function Outcome(before: File, script: seq<Action>, names: seq<string>, name: string, f: RestoreFault): (File, bool) {
    Restored(Track(before, script, names, name), SnapshotOf(before), Tried(None, script, names, name), f)
  }
}

module AccountStorage {
  import opened Common
  import opened WriteModel
  import opened WriteTheorems

  datatype Result = Refused | Completed | Raised | RecoveryError(failed: seq<string>)

  class Store {
    var files: Files

    constructor (initial: Files)
      ensures files == initial
    {
      files := initial;
    }

    /** The loop that captures the snapshots; None is an unsafe, unreadable or repeated name. */
    method Snapshot(names: seq<string>, unreadable: set<string>)
      returns (snapshots: Option<map<string, Option<seq<Byte>>>>)
      ensures snapshots.Some? <==> NoDuplicates(names) && Snapshotable(files, names, unreadable)
      ensures snapshots.Some? ==> forall n :: n in names ==>
                n in snapshots.value && snapshots.value[n] == SnapshotOf(At(files, n))
    {
      var taken: map<string, Option<seq<Byte>>> := map[];
      for i := 0 to |names|
        invariant NoDuplicates(names[..i]) && Snapshotable(files, names[..i], unreadable)
        invariant forall n :: n in taken <==> n in names[..i]
        invariant forall n :: n in taken ==> taken[n] == SnapshotOf(At(files, n))
      {
        var name, file := names[i], At(files, names[i]);
        assert names[..i + 1] == names[..i] + [name];
        if name in taken {
          ghost var j :| 0 <= j < i && names[j] == name;
          assert !NoDuplicates(names);
          return None;
        }
        if file.Link? || file.Directory? || (file.Regular? && name in unreadable) {
          return None;
        }
        taken := taken[name := SnapshotOf(file)];
      }
      assert names[..|names|] == names;
      return Some(taken);
    }

    /** One action of the block. */
    method Perform(a: Action, names: seq<string>, attempted: map<string, seq<Byte>>)
      returns (attempted': map<string, seq<Byte>>)
      modifies this
      ensures forall n :: At(files, n) == Acted(old(At(files, n)), a, names, n)
      ensures forall n :: Get(attempted', n) == Recorded(Get(attempted, n), a, names, n)
    {
      attempted' := attempted;
      match a
      case Write(name, payload, fault) =>
        if name in names {
          attempted' := attempted[name := payload];
          files := files[name := Landed(At(files, name), payload, fault)];
        }
      case Foreign(name, file) =>
        files := files[name := file];
    }

    /** The block's actions in order. */
    method RunBlock(script: seq<Action>, names: seq<string>) returns (attempted: map<string, seq<Byte>>)
      modifies this
      ensures forall n :: At(files, n) == Track(old(At(files, n)), script, names, n)
      ensures forall n :: Get(attempted, n) == Tried(None, script, names, n)
    {
      attempted := map[];
      var rest := script;
      while rest != []
        invariant forall n :: Track(old(At(files, n)), script, names, n) == Track(At(files, n), rest, names, n)
        invariant forall n :: Tried(None, script, names, n) == Tried(Get(attempted, n), rest, names, n)
        decreases |rest|
      {
        attempted := Perform(rest[0], names, attempted);
        rest := rest[1..];
      }
    }

    /** `_restore_file` on the file system. */
    method RestoreFile(name: string, original: Option<seq<Byte>>, tried: Option<seq<Byte>>, f: RestoreFault)
      returns (ok: bool)
      modifies this
      ensures (At(files, name), ok) == Restored(old(At(files, name)), original, tried, f)
      ensures forall n :: n != name ==> At(files, n) == old(At(files, n))
    {
      var file := At(files, name);
      if f.inspect || file.Link? || file.Directory? {
        return false;
      }
      if original.None? {
        if file.Absent? {
          return true;
        }
        if f.read || tried != Some(file.bytes) || f.unlink {
          return false;
        }
        files := files - {name};
        return true;
      }
      if file.Regular? {
        if f.read {
          return false;
        }
        if file.bytes == original.value {
          return true;
        }
      }
      files := files[name := Landed(file, original.value, f.write)];
      return Returns(file, f.write);
    }

    /**
     * The restore loop: every file is tried, whatever failed before it.  Other
     * writers do `meanwhile[i]` just before file i is restored.
     */
    method RestoreAll(names: seq<string>, snapshots: map<string, Option<seq<Byte>>>, attempted: map<string, seq<Byte>>,
                      faults: map<string, RestoreFault>, meanwhile: seq<seq<Action>>) returns (failed: seq<string>)
      requires NoDuplicates(names) && |meanwhile| == |names|
      requires forall n :: n in names ==> n in snapshots && n in faults
      modifies this
      ensures forall i :: 0 <= i < |names| ==>
                Handled(At(files, names[i]), names[i] in failed, old(At(files, names[i])), names, i, |names|, meanwhile,
                        snapshots[names[i]], Get(attempted, names[i]), faults[names[i]])
      ensures forall n :: n !in names ==>
                At(files, n) == Track(old(At(files, n)), Flat(meanwhile), names, n) && n !in failed
    {
      failed := [];
      ghost var start := files;
      assert meanwhile[0..0] == [];
      for i := 0 to |names|
        invariant RestoredUpTo(Restoring(names, snapshots, attempted, faults, meanwhile), start, files, i, failed)
      {
        ghost var before, failed0 := files, failed;
        var name := names[i];
        var ignored := RunBlock(meanwhile[i], names);
        ghost var mid := files;
        var ok := RestoreFile(name, snapshots[name], Get(attempted, name), faults[name]);
        if !ok {
          failed := failed + [name];
        }
        RestoreStep(Restoring(names, snapshots, attempted, faults, meanwhile), start, before, mid, files, i, failed0,
                    failed);
      }
      assert meanwhile[0..|names|] == meanwhile && names[..|names|] == names;
      ghost var x := Restoring(names, snapshots, attempted, faults, meanwhile);
      forall i | 0 <= i < |names|
        ensures Handled(At(files, names[i]), names[i] in failed, At(start, names[i]), names, i, |names|, meanwhile,
                        snapshots[names[i]], Get(attempted, names[i]), faults[names[i]])
      {
        assert Done(x, start, files, i, |names|, failed);
      }
      forall n | n !in names ensures At(files, n) == Track(At(start, n), Flat(meanwhile), names, n) && n !in failed {
        assert Waiting(x, start, files, |names|, failed, n);
      }
    }

    /** `compensating_write` around a block that does `script` and then raises or not. */
    method CompensatingWrite(names: seq<string>, script: seq<Action>, raises: bool, unreadable: set<string>,
                             faults: map<string, RestoreFault>, meanwhile: seq<seq<Action>>) returns (result: Result)
      requires |meanwhile| == |names| && (forall n :: n in names ==> n in faults)
      requires forall i :: 0 <= i < |meanwhile| ==> NoWrites(meanwhile[i])
      modifies this
      ensures result.Refused? <==> !(NoDuplicates(names) && old(Snapshotable(files, names, unreadable)))
      ensures result.Refused? ==> files == old(files)
      ensures !result.Refused? ==> (result.Completed? <==> !raises)
      ensures result.Completed? ==> forall n :: At(files, n) == Track(old(At(files, n)), script, names, n)
      ensures result.Raised? || result.RecoveryError? ==>
                forall i :: 0 <= i < |names| ==>
                  var n := names[i];
                  var r := Outcome(old(At(files, n)), script + Flat(meanwhile[0..i + 1]), names, n, faults[n]);
                  && At(files, n) == Track(r.0, Flat(meanwhile[i + 1..|names|]), names, n)
                  && (r.1 <==> !(result.RecoveryError? && n in result.failed))
      ensures result.Raised? || result.RecoveryError? ==>
                forall i :: 0 <= i < |names| && !(result.RecoveryError? && names[i] in result.failed) ==>
                  var n := names[i];
                  At(files, n) == Track(old(At(files, n)), Flat(meanwhile[i + 1..|names|]), names, n)
      ensures result.Raised? || result.RecoveryError? ==>
                forall n :: n !in names ==> At(files, n) == Track(old(At(files, n)), script + Flat(meanwhile), names, n)
      ensures result.RecoveryError? ==> result.failed != [] && forall n :: n in result.failed ==> n in names
    {
      var snapshots := Snapshot(names, unreadable);
      if snapshots.None? {
        return Refused;
      }
      ghost var start := files;
      var attempted := RunBlock(script, names);
      if !raises {
        return Completed;
      }
      ghost var ended := files;
      var failed := RestoreAll(names, snapshots.value, attempted, faults, meanwhile);
      result := if failed == [] then Raised else RecoveryError(failed);
      forall i | 0 <= i < |names|
        ensures var n := names[i];
                var r := Outcome(At(start, n), script + Flat(meanwhile[0..i + 1]), names, n, faults[n]);
                At(files, n) == Track(r.0, Flat(meanwhile[i + 1..|names|]), names, n) && (r.1 <==> n !in failed)
        ensures names[i] !in failed ==>
                  At(files, names[i]) == Track(At(start, names[i]), Flat(meanwhile[i + 1..|names|]), names, names[i])
      {
        var n := names[i];
        HandledIsOutcome(At(files, n), n in failed, At(start, n), script, names, i, meanwhile, faults[n]);
      }
      forall n | n !in names ensures At(files, n) == Track(At(start, n), script + Flat(meanwhile), names, n) {
        TrackJoin(At(start, n), script, Flat(meanwhile), names, n);
      }
    }
  }

  /** What the restore loop works on. */
  datatype Restoring = Restoring(names: seq<string>, snapshots: map<string, Option<seq<Byte>>>,
                                 attempted: map<string, seq<Byte>>, faults: map<string, RestoreFault>,
                                 meanwhile: seq<seq<Action>>)

  ghost predicate Ready(x: Restoring) {
    && NoDuplicates(x.names) && |x.meanwhile| == |x.names|
    && forall n :: n in x.names ==> n in x.snapshots && n in x.faults
  }

  ghost predicate Done(x: Restoring, start: Files, files: Files, j: nat, i: nat, failed: seq<string>)
    requires Ready(x) && j < i <= |x.names|
  {
    var n := x.names[j];
    Handled(At(files, n), n in failed, At(start, n), x.names, j, i, x.meanwhile,
            x.snapshots[n], Get(x.attempted, n), x.faults[n])
  }

  ghost predicate Waiting(x: Restoring, start: Files, files: Files, i: nat, failed: seq<string>, n: string)
    requires Ready(x) && i <= |x.names|
  {
    At(files, n) == Track(At(start, n), Flat(x.meanwhile[0..i]), x.names, n) && n !in failed
  }

  ghost predicate RestoredUpTo(x: Restoring, start: Files, files: Files, i: nat, failed: seq<string>)
    requires Ready(x) && i <= |x.names|
  {
    && (forall j :: 0 <= j < i ==> Done(x, start, files, j, i, failed))
    && (forall n :: n !in x.names[..i] ==> Waiting(x, start, files, i, failed, n))
  }

  /** One turn of the loop: others act on `before`, then file i of `mid` is restored. */
  ghost predicate IsTurn(x: Restoring, before: Files, mid: Files, after: Files, i: nat, failed: seq<string>,
                         failed': seq<string>)
    requires Ready(x) && i < |x.names|
  {
    var name := x.names[i];
    var r := Restored(At(mid, name), x.snapshots[name], Get(x.attempted, name), x.faults[name]);
    && (forall n :: At(mid, n) == Track(At(before, n), x.meanwhile[i], x.names, n))
    && At(after, name) == r.0 && (forall n :: n != name ==> At(after, n) == At(mid, n))
    && failed' == if r.1 then failed else failed + [name]
  }

  lemma {:induction false} TurnDone(x: Restoring, start: Files, before: Files, mid: Files, after: Files, i: nat,
                                    failed: seq<string>, failed': seq<string>, j: nat)
    requires Ready(x) && j <= i < |x.names| && IsTurn(x, before, mid, after, i, failed, failed')
    requires RestoredUpTo(x, start, before, i, failed)
    ensures Done(x, start, after, j, i + 1, failed')
  {
    if j < i {
      EarlierDone(x, start, before, mid, after, i, failed, failed', j);
    } else {
      var n := x.names[i];
      assert n !in x.names[..i] && Waiting(x, start, before, i, failed, n);
      var ok := Restored(At(mid, n), x.snapshots[n], Get(x.attempted, n), x.faults[n]).1;
      HandledNow(At(start, n), At(mid, n), ok, x.names, i, x.meanwhile, x.snapshots[n], Get(x.attempted, n),
                 x.faults[n]);
    }
  }

  lemma {:induction false} EarlierDone(x: Restoring, start: Files, before: Files, mid: Files, after: Files, i: nat,
                                       failed: seq<string>, failed': seq<string>, j: nat)
    requires Ready(x) && j < i < |x.names| && IsTurn(x, before, mid, after, i, failed, failed')
    requires Done(x, start, before, j, i, failed)
    ensures Done(x, start, after, j, i + 1, failed')
  {
    var n, name := x.names[j], x.names[i];
    if n != name {
      HandledLater(At(before, n), n in failed, At(start, n), x.names, j, i, x.meanwhile,
                   x.snapshots[n], Get(x.attempted, n), x.faults[n]);
    }
  }

  lemma {:induction false} TurnWaiting(x: Restoring, start: Files, before: Files, mid: Files, after: Files, i: nat,
                                       failed: seq<string>, failed': seq<string>, n: string)
    requires Ready(x) && i < |x.names| && IsTurn(x, before, mid, after, i, failed, failed')
    requires n != x.names[i] && Waiting(x, start, before, i, failed, n)
    ensures Waiting(x, start, after, i + 1, failed', n)
  {
    FlatMore(x.meanwhile, 0, i);
    TrackJoin(At(start, n), Flat(x.meanwhile[0..i]), x.meanwhile[i], x.names, n);
  }

  lemma {:induction false} RestoreStep(x: Restoring, start: Files, before: Files, mid: Files, after: Files, i: nat,
                                       failed: seq<string>, failed': seq<string>)
    requires Ready(x) && i < |x.names| && IsTurn(x, before, mid, after, i, failed, failed')
    requires RestoredUpTo(x, start, before, i, failed)
    ensures RestoredUpTo(x, start, after, i + 1, failed')
  {
    var next := i + 1;
    forall j | 0 <= j < next ensures Done(x, start, after, j, next, failed') {
      TurnDone(x, start, before, mid, after, i, failed, failed', j);
    }
    assert x.names[..next] == x.names[..i] + [x.names[i]];
    forall n | n !in x.names[..next] ensures Waiting(x, start, after, next, failed', n) {
      TurnWaiting(x, start, before, mid, after, i, failed, failed', n);
    }
  }

  /** File i was restored after `meanwhile[..i + 1]`, and has since seen what other writers did up to point j. */
  ghost predicate Handled(now: File, failed: bool, start: File, names: seq<string>, i: nat, j: nat,
                          meanwhile: seq<seq<Action>>, original: Option<seq<Byte>>, tried: Option<seq<Byte>>,
                          f: RestoreFault)
    requires i < j <= |names| == |meanwhile|
  {
    var r := Restored(Track(start, Flat(meanwhile[0..i + 1]), names, names[i]), original, tried, f);
    now == Track(r.0, Flat(meanwhile[i + 1..j]), names, names[i]) && failed == !r.1
  }

  lemma {:induction false} HandledLater(before: File, failed: bool, start: File, names: seq<string>, i: nat, j: nat,
                                        meanwhile: seq<seq<Action>>, original: Option<seq<Byte>>,
                                        tried: Option<seq<Byte>>, f: RestoreFault)
    requires i < j < |names| == |meanwhile|
              && Handled(before, failed, start, names, i, j, meanwhile, original, tried, f)
    ensures Handled(Track(before, meanwhile[j], names, names[i]), failed, start, names, i, j + 1, meanwhile, original,
                    tried, f)
  {
    var r := Restored(Track(start, Flat(meanwhile[0..i + 1]), names, names[i]), original, tried, f);
    FlatMore(meanwhile, i + 1, j);
    TrackJoin(r.0, Flat(meanwhile[i + 1..j]), meanwhile[j], names, names[i]);
  }

  lemma {:induction false} HandledNow(start: File, mid: File, ok: bool, names: seq<string>, i: nat,
                                      meanwhile: seq<seq<Action>>, original: Option<seq<Byte>>,
                                      tried: Option<seq<Byte>>, f: RestoreFault)
    requires i < |names| == |meanwhile| && ok == Restored(mid, original, tried, f).1
    requires mid == Track(Track(start, Flat(meanwhile[0..i]), names, names[i]), meanwhile[i], names, names[i])
    ensures Handled(Restored(mid, original, tried, f).0, !ok, start, names, i, i + 1, meanwhile, original, tried, f)
  {
    FlatMore(meanwhile, 0, i);
    TrackJoin(start, Flat(meanwhile[0..i]), meanwhile[i], names, names[i]);
    assert meanwhile[i + 1..i + 1] == [];
  }

  lemma {:induction false} HandledIsOutcome(now: File, failed: bool, before: File, script: seq<Action>,
                                            names: seq<string>,
                                            i: nat, meanwhile: seq<seq<Action>>, f: RestoreFault)
    requires i < |names| == |meanwhile| && (before.Absent? || before.Regular?)
    requires forall k :: 0 <= k < |meanwhile| ==> NoWrites(meanwhile[k])
    requires Handled(now, failed, Track(before, script, names, names[i]), names, i, |names|, meanwhile,
                     SnapshotOf(before), Tried(None, script, names, names[i]), f)
    ensures var r := Outcome(before, script + Flat(meanwhile[0..i + 1]), names, names[i], f);
            now == Track(r.0, Flat(meanwhile[i + 1..|names|]), names, names[i]) && (r.1 <==> !failed)
    ensures !failed ==> now == Track(before, Flat(meanwhile[i + 1..|names|]), names, names[i])
  {
    var later := Flat(meanwhile[0..i + 1]);
    FlatNoWrites(meanwhile[0..i + 1]);
    TrackJoin(before, script, later, names, names[i]);
    TriedJoin(None, script, later, names, names[i]);
    if !failed {
      UnnamedFilesAreRestored(before, script + later, names, names[i], f);
    }
  }
}

module WriteTheorems {
  import opened Common
  import opened WriteModel

  /** A restore that returned leaves exactly the snapshot, whatever was there and whatever failed on the way. */
  lemma {:induction false} RestoredIsSnapshot(file: File, original: Option<seq<Byte>>, tried: Option<seq<Byte>>,
                                              f: RestoreFault)
    requires Restored(file, original, tried, f).1
    ensures Restored(file, original, tried, f).0 == AsFile(original)
  {
  }

  /** What a raising block leaves of a declared file. */
  lemma {:induction false} UnnamedFilesAreRestored(before: File, script: seq<Action>, names: seq<string>, name: string,
                                                   f: RestoreFault)
    requires before.Absent? || before.Regular?
    ensures Outcome(before, script, names, name, f).1 ==> Outcome(before, script, names, name, f).0 == before
  {
    var r := Restored(Track(before, script, names, name), SnapshotOf(before), Tried(None, script, names, name), f);
    if r.1 {
      RestoredIsSnapshot(Track(before, script, names, name), SnapshotOf(before), Tried(None, script, names, name), f);
    }
  }

  /** A file is removed only while it holds the last payload this block tried to write to it. */
  lemma {:induction false} OnlyOwnPayloadIsRemoved(before: File, script: seq<Action>, names: seq<string>, name: string,
                                                   f: RestoreFault)
    requires before.Absent? || before.Regular?
    ensures var now, after := Track(before, script, names, name), Outcome(before, script, names, name, f).0;
            after != now ==>
              || (before.Absent? && after.Absent? && now.Regular?
                  && Tried(None, script, names, name) == Some(now.bytes))
              || (before.Regular? && after == before)
  {
  }

  // When nothing outside the block interferes.

  predicate NoForeign(script: seq<Action>) {
    forall i :: 0 <= i < |script| ==> script[i].Write?
  }

  const QUIET := RestoreFault(false, false, false, NoFault)

  /** The payload that last reached the file. */
  function Reached(last: Option<seq<Byte>>, script: seq<Action>, name: string): Option<seq<Byte>>
    decreases |script|
  {
    if script == [] then last
    else
      var a := script[0];
      Reached(if a.Write? && a.name == name && !a.fault.FailsBefore? then Some(a.payload) else last, script[1..], name)
  }

  lemma {:induction false} TracksReached(file: File, last: Option<seq<Byte>>, script: seq<Action>, names: seq<string>,
                                         name: string)
    requires NoForeign(script) && name in names && (file.Absent? || file.Regular?)
    requires last.Some? ==> file == Regular(last.value)
    ensures var now, reached := Track(file, script, names, name), Reached(last, script, name);
            (last.Some? ==> reached.Some?) && now == if reached.Some? then Regular(reached.value) else file
    decreases |script|
  {
    if script != [] {
      var a := script[0];
      var last' := if a.Write? && a.name == name && !a.fault.FailsBefore? then Some(a.payload) else last;
      TracksReached(Acted(file, a, names, name), last', script[1..], names, name);
    }
  }

  /**
   * Without another writer and without faults during recovery, a file is named
   * exactly when it was absent and the payload that last reached it is not the
   * one last tried.
   */
  lemma {:induction false} NamedExactlyWhen(before: File, script: seq<Action>, names: seq<string>, name: string)
    requires NoForeign(script) && name in names && (before.Absent? || before.Regular?)
    ensures Outcome(before, script, names, name, QUIET).1 <==>
              before.Regular? || Reached(None, script, name).None?
                  || Reached(None, script, name) == Tried(None, script, names, name)
  {
    TracksReached(before, None, script, names, name);
  }

  function WritesTo(script: seq<Action>, name: string): nat {
    if script == [] then 0
    else (if script[0].Write? && script[0].name == name then 1 else 0) + WritesTo(script[1..], name)
  }

  lemma {:induction false} NoWriteNoChange(last: Option<seq<Byte>>, script: seq<Action>, names: seq<string>,
                                           name: string)
    requires WritesTo(script, name) == 0
    ensures Reached(last, script, name) == last && Tried(last, script, names, name) == last
  {
    if script != [] {
      NoWriteNoChange(last, script[1..], names, name);
    }
  }

  lemma {:induction false} OneWrite(script: seq<Action>, names: seq<string>, name: string)
    requires name in names && WritesTo(script, name) <= 1
    ensures Reached(None, script, name).None? || Reached(None, script, name) == Tried(None, script, names, name)
  {
    if script != [] {
      var a := script[0];
      if a.Write? && a.name == name {
        NoWriteNoChange(Some(a.payload), script[1..], names, name);
        NoWriteNoChange(None, script[1..], names, name);
      } else {
        OneWrite(script[1..], names, name);
      }
    }
  }

  /** One write per name, no other writer and no fault during recovery: the file is back and not named. */
  lemma {:induction false} OneWriteIsUndone(before: File, script: seq<Action>, names: seq<string>, name: string)
    requires NoForeign(script) && name in names && (before.Absent? || before.Regular?) && WritesTo(script, name) <= 1
    ensures Outcome(before, script, names, name, QUIET) == (before, true)
  {
    OneWrite(script, names, name);
    NamedExactlyWhen(before, script, names, name);
    UnnamedFilesAreRestored(before, script, names, name, QUIET);
  }

  /** A second write that fails before replacing hides the first payload, which then stays. */
  lemma {:induction false} SecondWriteIsNotUndone(names: seq<string>, name: string, one: seq<Byte>, two: seq<Byte>)
    requires name in names && one != two
    ensures Outcome(Absent, [Write(name, one, NoFault), Write(name, two, FailsBefore)], names, name, QUIET) ==
              (Regular(one), false)
  {
    var script := [Write(name, one, NoFault), Write(name, two, FailsBefore)];
    assert script[1..] == [script[1]] && script[1..][1..] == [];
    var second := script[1..];
    assert Track(Absent, script, names, name) == Track(Regular(one), second, names, name) ==
              Track(Regular(one), [], names, name);
    assert Tried(None, script, names, name) == Tried(Some(one), second, names, name) ==
              Tried(Some(two), [], names, name);
  }

  /** Names that were not declared are not touched by the block's own writes. */
  lemma {:induction false} UndeclaredIsUntouched(file: File, script: seq<Action>, names: seq<string>, name: string)
    requires NoForeign(script) && name !in names
    ensures Track(file, script, names, name) == file
  {
    if script != [] {
      UndeclaredIsUntouched(file, script[1..], names, name);
    }
  }

  /**
   * With one write per name, no other writer and no fault during recovery, a
   * block that raised leaves the whole store as it found it.
   */
  lemma {:induction false} StoreIsUndone(before: Files, script: seq<Action>, names: seq<string>, name: string)
    requires NoForeign(script) && (name in names ==> WritesTo(script, name) <= 1)
    requires name in names ==> At(before, name).Absent? || At(before, name).Regular?
    ensures if name in names then Outcome(At(before, name), script, names, name, QUIET) == (At(before, name), true)
            else Track(At(before, name), script, names, name) == At(before, name)
  {
    if name in names {
      OneWriteIsUndone(At(before, name), script, names, name);
    } else {
      UndeclaredIsUntouched(At(before, name), script, names, name);
    }
  }
}

/** What the pieces mean, said of the files and of the block's own actions. */
module WriteLaws {
  import opened Common
  import opened WriteModel

  /** The block wrote, or tried to write, this file with this action. */
  predicate WritesFile(a: Action, name: string) {
    a.Write? && a.name == name
  }

  predicate Touches(a: Action, name: string) {
    a.name == name
  }

  lemma {:induction false} TriedLast(last: Option<seq<Byte>>, script: seq<Action>, a: Action, names: seq<string>,
                                     name: string)
    ensures Tried(last, script + [a], names, name) == Recorded(Tried(last, script, names, name), a, names, name)
    decreases |script|
  {
    if script == [] {
      assert [a][1..] == [];
      assert [] + [a] == [a];
    } else {
      assert (script + [a])[1..] == script[1..] + [a];
      TriedLast(Recorded(last, script[0], names, name), script[1..], a, names, name);
    }
  }

  /** Action k is the block's last write to the file. */
  predicate LastWrite(script: seq<Action>, name: string, k: nat) {
    k < |script| && WritesFile(script[k], name) && forall j :: k < j < |script| ==> !WritesFile(script[j], name)
  }

  /** What is remembered for a declared file is the payload of the block's last write to it, failed or not. */
  lemma {:induction false} TriedMeans(script: seq<Action>, names: seq<string>, name: string, k: nat)
    requires name in names
    ensures LastWrite(script, name, k) ==> Tried(None, script, names, name) == Some(script[k].payload)
    ensures (forall j :: 0 <= j < |script| ==> !WritesFile(script[j], name)) ==>
              Tried(None, script, names, name) == None
    decreases |script|
  {
    if script != [] {
      var front, a := script[..|script| - 1], script[|script| - 1];
      assert script == front + [a];
      TriedLast(None, front, a, names, name);
      TriedMeans(front, names, name, k);
    }
  }

  /** What one action makes of the file: only a write to a declared name that replaces it, or another writer. */
  lemma {:induction false} ActionMeans(file: File, a: Action, names: seq<string>, name: string)
    ensures Acted(file, a, names, name) ==
              match a
              case Foreign(n, other) => if n == name then other else file
              case Write(n, payload, fault) =>
                if n != name || name !in names || file == Directory || fault == FailsBefore then file
                else Regular(payload)
  {
  }

  lemma {:induction false} Untouched(file: File, script: seq<Action>, names: seq<string>, name: string)
    requires forall j :: 0 <= j < |script| ==> !Touches(script[j], name)
    ensures Track(file, script, names, name) == file
    decreases |script|
  {
    if script != [] {
      Untouched(file, script[1..], names, name);
    }
  }

  /** After the block a declared file holds the payload of its last write, unless that failed or others touched it. */
  lemma {:induction false} LastWriteStays(file: File, script: seq<Action>, names: seq<string>, name: string, k: nat)
    requires name in names && k < |script| && WritesFile(script[k], name) && script[k].fault != FailsBefore
    requires forall j :: k < j < |script| ==> !Touches(script[j], name)
    ensures var before := Track(file, script[..k], names, name);
            Track(file, script, names, name) == if before == Directory then Directory else Regular(script[k].payload)
  {
    var front, later := script[..k], script[k + 1..];
    assert script == front + ([script[k]] + later);
    TrackJoin(file, front, [script[k]] + later, names, name);
    var before := Track(file, front, names, name);
    assert ([script[k]] + later)[1..] == later;
    Untouched(Acted(before, script[k], names, name), later, names, name);
  }

  /** When a restore returns, and what one that does not leaves behind. */
  lemma {:induction false} RestoreMeans(file: File, original: Option<seq<Byte>>, tried: Option<seq<Byte>>,
                                        f: RestoreFault)
    ensures Restored(file, original, tried, f).1 <==>
              && !f.inspect && file != Link && file != Directory
              && (file.Regular? && original == None ==> !f.read && tried == Some(file.bytes) && !f.unlink)
              && (file.Regular? && original.Some? ==> !f.read)
              && (original.Some? && file != Regular(original.value) ==> f.write == NoFault)
    ensures !Restored(file, original, tried, f).1 ==>
              Restored(file, original, tried, f).0 ==
              if && original.Some? && f.write == FailsAfter && !f.inspect
                  && (file.Absent? || (file.Regular? && !f.read))
              then Regular(original.value) else file
  {
  }

  /** A block is refused for a name declared twice, a link or directory, or a file that cannot be read. */
  lemma {:induction false} RefusedMeans(files: Files, names: seq<string>, unreadable: set<string>)
    ensures !(NoDuplicates(names) && Snapshotable(files, names, unreadable)) <==>
              || (exists i, j :: 0 <= i < j < |names| && names[i] == names[j])
              || (exists n :: n in names && n in files
                    && (files[n] == Link || files[n] == Directory || (files[n].Regular? && n in unreadable)))
  {
    if !Snapshotable(files, names, unreadable) {
      var i :| 0 <= i < |names| &&
        !(At(files, names[i]).Absent? || (At(files, names[i]).Regular? && names[i] !in unreadable));
      assert names[i] in names && names[i] in files;
    }
  }
}
