/**
 Replacing the service's binary (`meshSwapBinary` and `copyMeshBinary` in
 mesh_update_windows.go) under every fault schedule.  The machine records a
 moment after each single effect, so "at every step" is a statement about the
 record: a power cut can fall between any two moments.
 */
module BinarySwap {

  type Path = string
  type Bytes = string

  /** How one copy ends: all of it, or a failure to open either file, after some bytes, or after the last one. */
  datatype CopyFault = Completes | NoSource | NoTarget | StopsAfter(bytes: nat) | FailsAtEnd

  /** What happens each time the machine is asked for something. */
  datatype Schedule = Schedule(
    stops: nat -> bool, starts: nat -> bool, healthy: nat -> bool, copies: nat -> CopyFault, hashFails: bool)

  datatype Effect = Stop(ok: bool) | Start(ok: bool) | Health(ok: bool) | Write(path: Path)

  /** An effect, the files after it, and whether the service was stopped: a stop succeeded and no start followed. */
  datatype Moment = Moment(effect: Effect, files: map<Path, Bytes>, stopped: bool)

  function BackupOf(installed: Path): (r: Path)
    ensures r != installed
  {
    assert |installed + ".previous"| > |installed|;
    installed + ".previous"
  }

  class Machine {
    const schedule: Schedule
    var files: map<Path, Bytes>
    var stopped: bool
    var record: seq<Moment>
    var stops: nat
    var starts: nat
    var checks: nat
    var copies: nat

    constructor (s: Schedule, f: map<Path, Bytes>)
      ensures schedule == s && files == f && record == [] && !stopped
    {
      schedule, files, stopped, record := s, f, false, [];
      stops, starts, checks, copies := 0, 0, 0, 0;
    }

    method StopService() returns (ok: bool)
      modifies this
      ensures files == old(files) && (ok ==> stopped) && (!ok ==> stopped == old(stopped))
      ensures ok == schedule.stops(old(stops)) && stops == old(stops) + 1
      ensures starts == old(starts) && checks == old(checks) && copies == old(copies)
      ensures record == old(record) + [Moment(Stop(ok), files, stopped)]
    {
      ok := schedule.stops(stops);
      stops := stops + 1;
      if ok { stopped := true; }
      record := record + [Moment(Stop(ok), files, stopped)];
    }

    method StartService() returns (ok: bool)
      modifies this
      ensures files == old(files) && !stopped
      ensures ok == schedule.starts(old(starts)) && starts == old(starts) + 1
      ensures stops == old(stops) && checks == old(checks) && copies == old(copies)
      ensures record == old(record) + [Moment(Start(ok), files, stopped)]
    {
      ok := schedule.starts(starts);
      starts := starts + 1;
      stopped := false;
      record := record + [Moment(Start(ok), files, stopped)];
    }

    method CheckHealth() returns (ok: bool)
      modifies this
      ensures files == old(files) && stopped == old(stopped)
      ensures ok == schedule.healthy(old(checks)) && checks == old(checks) + 1
      ensures stops == old(stops) && starts == old(starts) && copies == old(copies)
      ensures record == old(record) + [Moment(Health(ok), files, stopped)]
    {
      ok := schedule.healthy(checks);
      checks := checks + 1;
      record := record + [Moment(Health(ok), files, stopped)];
    }

    /**
     `copyMeshBinary`: truncate the target, then append the source's bytes.  A copy that reports success left the
     target equal to the source; one that fails may leave any prefix.  Only the target ever changes.  It succeeds if
     and only if the source is there and nothing fails.
     */
    method CopyBinary(source: Path, target: Path) returns (ok: bool)
      modifies this
      ensures stopped == old(stopped) && SameExcept(files, old(files), target)
      ensures target in old(files) ==> target in files
      ensures ok <==> source in old(files) && schedule.copies(old(copies)).Completes?
      ensures copies == old(copies) + 1 && stops == old(stops) && starts == old(starts) && checks == old(checks)
      ensures ok && source == target ==> target in files && files[target] == ""
      ensures ok && source != target ==> source in files && target in files && files[target] == files[source]
      ensures Copying(old(record), record, old(files), stopped, target)
    {
      hide Copying;
      CopyNothing(record, files, stopped, target);
      var fault := schedule.copies(copies);
      copies := copies + 1;
      if fault.NoSource? || source !in files { return false; }
      if fault.NoTarget? { return false; }
      files := files[target := ""];
      CopyMore(old(record), record, old(files), stopped, target, Moment(Write(target), files, stopped));
      record := record + [Moment(Write(target), files, stopped)];
      var n := 0;
      while n < |files[source]|
        invariant source in files && target in files && n <= |files[source]| && stopped == old(stopped)
        invariant copies == old(copies) + 1 && stops == old(stops) && starts == old(starts) && checks == old(checks)
        invariant SameExcept(files, old(files), target)
        invariant if source == target then files[target] == "" else files[target] == files[source][..n]
        invariant Copying(old(record), record, old(files), stopped, target)
        decreases |files[source]| - n
      {
        if fault.StopsAfter? && n >= fault.bytes { return false; }
        files := files[target := files[target] + [files[source][n]]];
        CopyMore(old(record), record, old(files), stopped, target, Moment(Write(target), files, stopped));
        record := record + [Moment(Write(target), files, stopped)];
        n := n + 1;
      }
      return fault.Completes?;
    }

    /**
     `meshSwapBinary`.  At every moment the old binary is whole in place or in the backup, the installed file changes
     only while the service is stopped, and the service is only ever started on the old binary or on one with the
     expected hash.  The schedule decides the outcome: without a fault, a staged binary with the expected hash is put in
     place; a failed stop, backup or rollback copy each gives its own result, and everything else rolls back.
     */
    method SwapBinary(staged: Path, installed: Path, expected: string, hash: Bytes -> string) returns (r: Outcome)
      modifies this
      requires installed in files
      ensures installed in files
      ensures Continues(old(record), record, Swap(installed, old(files)[installed], expected, hash))
      ensures match r
              case Updated =>
                && hash(files[installed]) == expected
                && |record| >= |old(record)| + 2 && record[|record| - 2..]
                     == [Moment(Start(true), files, false), Moment(Health(true), files, false)]
                && BackupOf(installed) in files && files[BackupOf(installed)] == old(files)[installed]
              case NotStopped => files == old(files)
              case NoBackup => files[installed] == old(files)[installed]
              case RolledBack(restarted) =>
                && files[installed] == old(files)[installed] && |record| > |old(record)|
                && record[|record| - 1] == Moment(Start(restarted), files, false)
              case StillRunning => BackupOf(installed) in files && files[BackupOf(installed)] == old(files)[installed]
              case NotRestored => BackupOf(installed) in files && files[BackupOf(installed)] == old(files)[installed]
      ensures var s, c, t, h := old(stops), old(copies), old(starts), old(checks);
        var right := RightBytes(old(files), staged, installed, expected, hash);
        var placed := schedule.copies(c + 1).Completes? && !schedule.hashFails && right;
        r == if !schedule.stops(s) then NotStopped
             else if !schedule.copies(c).Completes? then NoBackup
             else if placed && schedule.starts(t) && schedule.healthy(h) then Updated
             else if !schedule.stops(s + 1) then StillRunning
             else if !schedule.copies(c + 2).Completes? then NotRestored
             else RolledBack(schedule.starts(if placed then t + 1 else t))
      ensures r == Updated && staged != installed && staged != BackupOf(installed) ==>
        staged in old(files) && files[installed] == old(files)[staged]
    {
      hide Continues, Copying, RightBytes, SameExcept, Good, AllGood, BackupOf;
      ghost var swap := Swap(installed, files[installed], expected, hash);
      ghost var from, before := record, files;
      GoodSoFar(record, swap);
      var did, saved := SaveOld(installed, from, swap);
      if !did { return NotStopped; }
      if !saved { return NoBackup; }
      RightAfterBackup(before, files, staged, installed, expected, hash);
      ghost var backed := files;
      r := Replace(staged, installed, expected, hash, from, swap);
      if staged != BackupOf(installed) { OtherFile(backed, before, BackupOf(installed), staged); }
    }

    /** The rest of `meshSwapBinary`, with the old binary kept: put the new one in place, or put the old one back. */
    method Replace(staged: Path, installed: Path, expected: string, hash: Bytes -> string, ghost from: seq<Moment>,
                   ghost swap: Swap) returns (r: Outcome)
      modifies this
      requires swap.installed == installed && swap.expected == expected && swap.hash == hash
      requires stopped && installed in files
      requires BackupOf(installed) in files && files[BackupOf(installed)] == swap.was && Continues(from, record, swap)
      ensures installed in files && Continues(from, record, swap) && BackupOf(installed) in files
      ensures files[BackupOf(installed)] == swap.was
      ensures r == Updated ==>
        hash(files[installed]) == expected && |record| >= |from| + 2
        && record[|record| - 2..] == [Moment(Start(true), files, false), Moment(Health(true), files, false)]
      ensures r.RolledBack? ==>
        files[installed] == swap.was && |record| > |from|
        && record[|record| - 1] == Moment(Start(r.restarted), files, false)
      ensures r == Updated && staged != installed ==> staged in old(files) && files[installed] == old(files)[staged]
      ensures var placed := schedule.copies(old(copies)).Completes? && !schedule.hashFails && staged in old(files)
                            && hash(if staged == installed then "" else old(files)[staged]) == expected;
        var t := old(starts);
        r == if placed && schedule.starts(t) && schedule.healthy(old(checks)) then Updated
             else if !schedule.stops(old(stops)) then StillRunning
             else if !schedule.copies(old(copies) + 1).Completes? then NotRestored
             else RolledBack(schedule.starts(if placed then t + 1 else t))
    {
      hide Continues, Good, BackupOf;
      var did := PutNew(staged, installed, expected, hash, from, swap);
      if did { return Updated; }
      r := PutBack(BackupOf(installed), installed, from, swap);
    }

    /** The start of `meshSwapBinary`: stop the service and copy its binary aside; it runs again if that fails. */
    method SaveOld(installed: Path, ghost from: seq<Moment>, ghost swap: Swap) returns (did: bool, saved: bool)
      modifies this
      requires installed == swap.installed && installed in files && files[installed] == swap.was
      requires Continues(from, record, swap)
      ensures Continues(from, record, swap) && SameExcept(files, old(files), BackupOf(installed))
      ensures did == schedule.stops(old(stops)) && saved == (did && schedule.copies(old(copies)).Completes?)
      ensures stops == old(stops) + 1 && copies == (if did then old(copies) + 1 else old(copies))
      ensures (saved ==> starts == old(starts) && stopped) && checks == old(checks)
      ensures installed in files && files[installed] == swap.was
      ensures !did ==> files == old(files)
      ensures saved ==> BackupOf(installed) in files && files[BackupOf(installed)] == swap.was
    {
      hide Continues, Copying;
      saved := false;
      did := StopService();
      GoodMore(from, record[..|record| - 1], record[|record| - 1], swap);
      if !did { return; }
      ghost var before, kept := record, files;
      saved := CopyBinary(installed, BackupOf(installed));
      CopyGood(from, before, record, kept, stopped, BackupOf(installed), swap);
      if !saved {
        var _ := StartService();
        GoodMore(from, record[..|record| - 1], record[|record| - 1], swap);
      }
    }

    /** The way back: never replace a binary until the failed service is stopped. */
    method PutBack(backup: Path, installed: Path, ghost from: seq<Moment>, ghost swap: Swap) returns (r: Outcome)
      modifies this
      requires backup == BackupOf(installed) && installed == swap.installed && installed in files
      requires backup in files && files[backup] == swap.was && Continues(from, record, swap)
      ensures installed in files && Continues(from, record, swap) && |record| > |from|
      ensures r == if !schedule.stops(old(stops)) then StillRunning
                   else if !schedule.copies(old(copies)).Completes? then NotRestored
                   else RolledBack(schedule.starts(old(starts)))
      ensures r.RolledBack? ==>
        files[installed] == swap.was && record[|record| - 1] == Moment(Start(r.restarted), files, false)
      ensures backup in files && files[backup] == swap.was
    {
      hide AllGood, Copying;
      var did := StopService();
      GoodMore(from, record[..|record| - 1], record[|record| - 1], swap);
      if !did { return StillRunning; }
      ghost var before, kept := record, files;
      did := CopyBinary(backup, installed);
      CopyGood(from, before, record, kept, stopped, installed, swap);
      CopyLonger(before, record, kept, stopped, installed);
      if !did { return NotRestored; }
      did := StartService();
      GoodMore(from, record[..|record| - 1], record[|record| - 1], swap);
      return RolledBack(did);
    }

    /** Put the new binary in place, check it, and start it. */
    method PutNew(staged: Path, installed: Path, expected: string, hash: Bytes -> string, ghost from: seq<Moment>,
                  ghost swap: Swap) returns (ok: bool)
      modifies this
      requires swap.installed == installed && swap.expected == expected && swap.hash == hash
      requires stopped && installed in files
      requires BackupOf(installed) in files && files[BackupOf(installed)] == swap.was && Continues(from, record, swap)
      ensures installed in files && Continues(from, record, swap) && BackupOf(installed) in files
      ensures files[BackupOf(installed)] == swap.was
      ensures stops == old(stops) && copies == old(copies) + 1
      ensures var placed := schedule.copies(old(copies)).Completes? && !schedule.hashFails && staged in old(files)
                            && hash(if staged == installed then "" else old(files)[staged]) == expected;
        && ok == (placed && schedule.starts(old(starts)) && schedule.healthy(old(checks)))
        && starts == (if placed then old(starts) + 1 else old(starts))
      ensures ok && staged != installed ==> files[installed] == old(files)[staged]
      ensures ok ==>
        hash(files[installed]) == expected && |record| >= |from| + 2
        && record[|record| - 2..] == [Moment(Start(true), files, false), Moment(Health(true), files, false)]
    {
      hide AllGood, Copying;
      ghost var before, kept := record, files;
      ok := CopyBinary(staged, installed);
      CopyGood(from, before, record, kept, stopped, installed, swap);
      if ok { ok := !schedule.hashFails && hash(files[installed]) == expected; }
      if ok {
        ok := StartService();
        GoodMore(from, record[..|record| - 1], record[|record| - 1], swap);
      }
      if ok {
        ok := CheckHealth();
        GoodMore(from, record[..|record| - 1], record[|record| - 1], swap);
      }
    }
  }

  /**
   The returned pair, spelt out: updated is (false, no error); rolled back is (true, an error); the others are (false,
   an error), for a service that would not stop, a backup that could not be made, a new service that would not stop
   again, and a rollback copy that failed.
   */
  datatype Outcome = Updated | NotStopped | NoBackup | RolledBack(restarted: bool) | StillRunning | NotRestored

  /** What a copy of `staged` puts in place, once the backup is made, has the expected hash. */
  ghost predicate RightBytes(
    files: map<Path, Bytes>, staged: Path, installed: Path, expected: string, hash: Bytes -> string)
    requires installed in files
  {
    if staged == installed then hash("") == expected
    else if staged == BackupOf(installed) then hash(files[installed]) == expected
    else staged in files && hash(files[staged]) == expected
  }

  lemma RightAfterBackup(
      before: map<Path, Bytes>, files: map<Path, Bytes>, staged: Path, installed: Path, expected: string,
      hash: Bytes -> string)
    requires installed in before && BackupOf(installed) in files && files[BackupOf(installed)] == before[installed]
    requires SameExcept(files, before, BackupOf(installed))
    ensures RightBytes(before, staged, installed, expected, hash)
       <==> staged in files && hash(if staged == installed then "" else files[staged]) == expected
  {
  }

  lemma OtherFile(now: map<Path, Bytes>, before: map<Path, Bytes>, target: Path, p: Path)
    requires SameExcept(now, before, target) && p != target
    ensures p in now <==> p in before
    ensures p in now ==> now[p] == before[p]
  {
  }

  ghost predicate SameExcept(now: map<Path, Bytes>, before: map<Path, Bytes>, target: Path) {
    forall p :: p != target ==> (p in now <==> p in before) && (p in now ==> now[p] == before[p])
  }

  /** What a copy adds to the record: only writes of its target, at most the target changed. */
  ghost predicate Copying(
    before: seq<Moment>, now: seq<Moment>, files: map<Path, Bytes>, stopped: bool, target: Path)
  {
    && |before| <= |now| && now[..|before|] == before
    && forall k :: |before| <= k < |now| ==>
         now[k].effect == Write(target) && now[k].stopped == stopped && SameExcept(now[k].files, files, target)
  }

  /** The swap being carried out: where, from what, to what. */
  datatype Swap = Swap(installed: Path, was: Bytes, expected: string, hash: Bytes -> string)

  /** The old binary is whole, in place or in the backup. */
  ghost predicate Preserved(files: map<Path, Bytes>, swap: Swap) {
    || (swap.installed in files && files[swap.installed] == swap.was)
    || (BackupOf(swap.installed) in files && files[BackupOf(swap.installed)] == swap.was)
  }

  /** One moment: nothing lost, no write under a running service, no start on anything torn. */
  ghost predicate Good(m: Moment, swap: Swap) {
    && Preserved(m.files, swap)
    && (m.effect == Write(swap.installed) ==> m.stopped)
    && (m.effect.Start? ==>
          && swap.installed in m.files
          && (m.files[swap.installed] == swap.was || swap.hash(m.files[swap.installed]) == swap.expected))
  }

  ghost predicate AllGood(record: seq<Moment>, from: nat, swap: Swap) {
    forall k :: from <= k < |record| ==> Good(record[k], swap)
  }

  /** The record continues from, and everything since is good. */
  ghost predicate Continues(from: seq<Moment>, record: seq<Moment>, swap: Swap) {
    |from| <= |record| && record[..|from|] == from && AllGood(record, |from|, swap)
  }

  lemma GoodSoFar(record: seq<Moment>, swap: Swap)
    ensures Continues(record, record, swap)
  {
  }

  lemma GoodMore(from: seq<Moment>, record: seq<Moment>, m: Moment, swap: Swap)
    requires Continues(from, record, swap) && Good(m, swap)
    ensures Continues(from, record + [m], swap)
  {
  }

  lemma CopyNothing(record: seq<Moment>, files: map<Path, Bytes>, stopped: bool, target: Path)
    ensures Copying(record, record, files, stopped, target)
  {
  }

  lemma CopyMore(
      before: seq<Moment>, now: seq<Moment>, files: map<Path, Bytes>, stopped: bool, target: Path, m: Moment)
    requires Copying(before, now, files, stopped, target)
    requires m.effect == Write(target) && m.stopped == stopped && SameExcept(m.files, files, target)
    ensures Copying(before, now + [m], files, stopped, target)
  {
  }

  lemma CopyLonger(
      before: seq<Moment>, now: seq<Moment>, files: map<Path, Bytes>, stopped: bool, target: Path)
    requires Copying(before, now, files, stopped, target)
    ensures |before| <= |now|
  {
  }

  lemma CopyGood(
      from: seq<Moment>, before: seq<Moment>, now: seq<Moment>, files: map<Path, Bytes>, stopped: bool, target: Path,
      swap: Swap)
    requires Continues(from, before, swap) && Copying(before, now, files, stopped, target)
    requires target == swap.installed ==> stopped
    requires var kept := if target == swap.installed then BackupOf(swap.installed) else swap.installed;
      kept != target && kept in files && files[kept] == swap.was
    ensures Continues(from, now, swap)
  {
    forall k | |from| <= k < |now| ensures Good(now[k], swap) {
      if k < |before| { assert now[k] == now[..|before|][k]; }
    }
    assert now[..|from|] == now[..|before|][..|from|];
  }
}
