/**
 The release operator (`deploy-mcp-release.py`): a journal written ahead of every change, an admission
 gate, a network barrier, and a rollback that any exception may interrupt and any later one may resume.
 */
module Deployment {
  import opened Outcomes

  type File = nat

  /** The files a release replaces: the runtime manifest, the two service units and the edge's configuration. */
  datatype Files = Files(manifest: File, apiUnit: File, webUnit: File, edge: File) {
    function WithApps(from: Files): Files {
      this.(manifest := from.manifest, apiUnit := from.apiUnit, webUnit := from.webUnit)
    }
  }

  datatype Gate = Drain | Closed

  /** The network filter's table: absent, only counting, or rejecting. */
  datatype Table = NoTable | Tracking | Barrier

  datatype Entry =
    | Snapshot | EdgeBootstrap | DrainStep | SwitchApps | SwitchEdge | Public
    | NetworkTracking | NetworkBarrier | Complete | RollbackBlocked | RollbackComplete

  datatype State = Preflight | ActivePublicVerified | BlockedRetained | RolledBack

  datatype Journal = Journal(steps: seq<Entry>, state: State)

  /** `Caught`: the classes of exception the operator handles; `Escaping`: any other, an interrupt for one. */
  datatype Failure = Caught | Escaping

  // ----- Waiting for quiet -----

  /** One poll of `settle`: what `quiet` answers, or the exception raised in its place. */
  datatype Poll = Quiet | Busy | Raising(failure: Failure)

  /** Three quiet polls with no busy one between them; handled exceptions do not count either way. */
  ghost predicate ThreeQuiet(polls: seq<Poll>) {
    exists i: nat, j: nat, k: nat :: QuietAt(polls, i, j, k)
  }

  ghost predicate QuietAt(polls: seq<Poll>, i: nat, j: nat, k: nat) {
    && i < j < k < |polls|
    && polls[i] == polls[j] == polls[k] == Quiet
    && forall m :: i <= m <= k ==> polls[m] != Busy
  }

  /** The quiet polls since the last busy one: what the counter holds. */
  ghost function Streak(polls: seq<Poll>): nat {
    if polls == [] then 0
    else
      var n := |polls| - 1;
      match polls[n]
      case Quiet => Streak(polls[..n]) + 1
      case Busy => 0
      case Raising(_) => Streak(polls[..n])
  }

  lemma {:induction false} StreakGrows(polls: seq<Poll>, i: nat, k: nat)
    requires i < k <= |polls| && polls[i] == Quiet && forall m :: i <= m < k ==> polls[m] != Busy
    ensures Streak(polls[..k]) >= Streak(polls[..i]) + 1
  {
    assert polls[..k][..k - 1] == polls[..k - 1];
    if i < k - 1 {
      StreakGrows(polls, i, k - 1);
    }
  }

  /** A streak has its polls: the last of them is `k`, and nothing after the previous ones was busy. */
  lemma {:induction false} StreakLast(polls: seq<Poll>) returns (k: nat)
    requires Streak(polls) > 0
    ensures k < |polls| && polls[k] == Quiet && Streak(polls[..k]) == Streak(polls) - 1
    ensures forall m :: k <= m < |polls| ==> polls[m] != Busy
  {
    var n := |polls| - 1;
    if polls[n] == Quiet {
      k := n;
    } else {
      k := StreakLast(polls[..n]);
      assert polls[..n][..k] == polls[..k];
    }
  }

  lemma QuietCounts(polls: seq<Poll>, i: nat, j: nat, k: nat)
    requires QuietAt(polls, i, j, k) && |polls| == k + 1
    ensures Streak(polls) >= 3
  {
    StreakGrows(polls, i, j);
    StreakGrows(polls, j, k);
    assert polls[..k + 1] == polls;
    StreakGrows(polls, k, k + 1);
  }

  lemma CountIsQuiet(polls: seq<Poll>)
    requires Streak(polls) >= 3
    ensures ThreeQuiet(polls)
  {
    var k := StreakLast(polls);
    var j := StreakLast(polls[..k]);
    assert polls[..k][..j] == polls[..j];
    var i := StreakLast(polls[..j]);
    hide Streak;
    assert polls[i] == Quiet && polls[j] == Quiet;
    forall m | i <= m <= k
      ensures polls[m] != Busy
    {
      assert m < j ==> polls[m] == polls[..j][m];
      assert j <= m < k ==> polls[m] == polls[..k][m];
    }
    assert QuietAt(polls, i, j, k);
  }

  /** The counter reaches three exactly at the poll that completes three quiet ones. */
  lemma StreakIsThreeQuiet(polls: seq<Poll>, n: nat)
    requires n < |polls| && !ThreeQuiet(polls[..n])
    ensures ThreeQuiet(polls[..n + 1]) <==> Streak(polls[..n + 1]) >= 3
  {
    var all := polls[..n + 1];
    if Streak(all) >= 3 {
      CountIsQuiet(all);
    }
    if ThreeQuiet(all) {
      var i: nat, j: nat, k: nat :| QuietAt(all, i, j, k);
      if k < n {
        assert QuietAt(polls[..n], i, j, k);
      } else {
        QuietCounts(all, i, j, k);
      }
    }
  }

  // ----- What was observed -----

  /** A poll and what stood in the way of new work when it was made. */
  datatype Sighting = Sighting(gate: Option<Gate>, table: Table, poll: Poll)

  ghost function Polls(sightings: seq<Sighting>): seq<Poll> {
    seq(|sightings|, i requires 0 <= i < |sightings| => sightings[i].poll)
  }

  /** Quiet three times while admission was draining. */
  ghost predicate QuietDraining(sightings: seq<Sighting>) {
    ThreeQuiet(Polls(sightings)) && forall s :: s in sightings ==> s.gate == Some(Drain)
  }

  /** Quiet three times while admission was closed and the barrier was up. */
  ghost predicate QuietClosed(sightings: seq<Sighting>) {
    ThreeQuiet(Polls(sightings)) && forall s :: s in sightings ==> s.gate == Some(Closed) && s.table == Barrier
  }

  /** The old work was seen to end: first while draining, then behind the closed gate and the barrier. */
  ghost predicate Drained(sightings: seq<Sighting>) {
    exists i: nat, j: nat, k: nat, l: nat :: DrainedAt(sightings, i, j, k, l)
  }

  ghost predicate DrainedAt(sightings: seq<Sighting>, i: nat, j: nat, k: nat, l: nat) {
    i <= j <= k <= l <= |sightings| && QuietDraining(sightings[i..j]) && QuietClosed(sightings[k..l])
  }

  lemma Sliced(whole: seq<Sighting>, part: seq<Sighting>, d: nat, i: nat, j: nat)
    requires d + |part| <= |whole| && whole[d..d + |part|] == part && i <= j <= |part|
    ensures part[i..j] == whole[i + d..j + d]
  {
    assert forall x :: 0 <= x < |part| ==> part[x] == whole[d + x];
  }

  /** What was observed during a part of a time was observed during the time. */
  lemma DrainedDuring(start: seq<Sighting>, from: seq<Sighting>, to: seq<Sighting>, end: seq<Sighting>)
    requires start <= from <= to <= end && Drained(to[|from|..])
    ensures Drained(end[|start|..])
  {
    var part, whole, d := to[|from|..], end[|start|..], |from| - |start|;
    var i: nat, j: nat, k: nat, l: nat :| DrainedAt(part, i, j, k, l);
    hide QuietDraining, QuietClosed;
    assert whole[d..d + |part|] == part;
    Sliced(whole, part, d, i, j);
    Sliced(whole, part, d, k, l);
    assert DrainedAt(whole, i + d, j + d, k + d, l + d);
  }

  lemma DrainedBoth(start: seq<Sighting>, a: seq<Sighting>, b: seq<Sighting>, end: seq<Sighting>)
    requires start <= a <= b <= end && QuietDraining(a[|start|..]) && QuietClosed(end[|b|..])
    ensures Drained(end[|start|..])
  {
    var whole := end[|start|..];
    var j, k := |a| - |start|, |b| - |start|;
    assert whole[0..j] == a[|start|..] && whole[k..|whole|] == end[|b|..];
    hide QuietDraining, QuietClosed;
    assert DrainedAt(whole, 0, j, k, |whole|);
  }

  // ----- The operator -----

  class Operator {
    /** The machine. */
    var files: Files
    var gate: Option<Gate>
    var table: Table

    /** The session directory: the snapshot, and the journal once it has been written. */
    var saved: Files
    var disk: Option<Journal>

    /** The process. */
    var memory: Journal
    var barrierActive: Option<bool>

    /** The release to install, and how many polls fit into the time a settling may take. */
    const stage: Files
    const patience: nat

    /** No exception comes of its own accord and all work is quiet; otherwise any effect may raise. */
    const calm: bool

    /** Every poll that was made. */
    ghost var observed: seq<Sighting>

    constructor (files: Files, gate: Option<Gate>, table: Table, stage: Files, patience: nat, calm: bool)
      ensures this.files == files && this.gate == gate && this.table == table
      ensures this.stage == stage && this.patience == patience && this.calm == calm
      ensures disk == None && memory == Journal([], Preflight) && barrierActive == None && observed == []
    {
      this.files, this.gate, this.table := files, gate, table;
      this.stage, this.patience, this.calm := stage, patience, calm;
      saved, disk, memory, barrierActive := files, None, Journal([], Preflight), None;
      observed := [];
    }

    // ----- What holds whatever raises -----

    /**
     The write-ahead property: whatever differs from the snapshot, the journal on disk says so. And until
     the opening is in the journal, other apps than the snapshot's stand behind a closed gate and a
     barrier.
     */
    ghost predicate Safe()
      reads this
    {
      && disk.Some?
      && Ordered(disk.value)
      && (SwitchApps !in disk.value.steps ==> files.WithApps(saved) == files)
      && (EdgeBootstrap !in disk.value.steps ==> files.edge == saved.edge && table == NoTable)
      && (Public !in disk.value.steps && files.WithApps(saved) != files ==> gate == Some(Closed) && table == Barrier)
    }

    /** The process knows everything on disk, so writing its journal loses nothing. */
    ghost predicate Informed()
      reads this
    {
      disk.Some? && disk.value.steps <= memory.steps && Ordered(memory)
    }

    /** The process's idea of the barrier is right. */
    ghost predicate Mirror()
      reads this
    {
      barrierActive == Some(table == Barrier)
    }

    ghost predicate Restored()
      reads this
    {
      files == saved && table == NoTable && gate == None
    }

    /** Nothing raises and there is time for three polls. */
    ghost predicate Smooth() {
      calm && patience >= 3
    }

    // ----- Effects: each may raise before or after it happens -----

    /** A command or a check that changes nothing modelled. */
    method Command() returns (r: Outcome<Failure>)
      ensures calm ==> r.Done?
    {
      if !calm {
        if * {
          return Raised(Caught);
        }
        if * {
          return Raised(Escaping);
        }
      }
      return Done;
    }

    method WriteJournal() returns (r: Outcome<Failure>)
      modifies this`disk
      ensures disk == old(disk) || disk == Some(memory)
      ensures r.Done? ==> disk == Some(memory)
      ensures calm ==> r.Done?
    {
      r := Command();
      if r.Done? {
        disk := Some(memory);
        r := Command();
      }
    }

    method Note(step: Entry) returns (r: Outcome<Failure>)
      requires Safe() && Informed()
      requires Ordered(memory.(steps := memory.steps + [step]))
      modifies this`memory, this`disk
      ensures Safe() && Informed() && old(disk).value.steps <= disk.value.steps
      ensures memory == old(memory).(steps := old(memory).steps + [step])
      ensures disk == old(disk) || disk == Some(memory)
      ensures r.Done? ==> disk == Some(memory)
      ensures calm ==> r.Done?
    {
      memory := memory.(steps := memory.steps + [step]);
      r := WriteJournal();
    }

    method WriteGate(state: Gate) returns (r: Outcome<Failure>)
      modifies this`gate
      ensures gate == old(gate) || gate == Some(state)
      ensures r.Done? ==> gate == Some(state)
      ensures calm ==> r.Done?
    {
      r := Command();
      if r.Done? {
        gate := Some(state);
        r := Command();
      }
    }

    method UnlinkGate() returns (r: Outcome<Failure>)
      modifies this`gate
      ensures gate == old(gate) || gate == None
      ensures r.Done? ==> gate == None
      ensures calm ==> r.Done?
    {
      r := Command();
      if r.Done? {
        gate := None;
        r := Command();
      }
    }

    method EdgeConfig(source: File) returns (r: Outcome<Failure>)
      modifies this`files
      ensures files == old(files) || files == old(files).(edge := source)
      ensures r.Done? ==> files.edge == source
      ensures calm ==> r.Done?
    {
      r := Command();
      if r.Done? {
        files := files.(edge := source);
        :- Command();
        r := Command();
      }
    }

    method LoadTable(next: Table) returns (r: Outcome<Failure>)
      modifies this`table
      ensures table == old(table) || table == next
      ensures r.Done? ==> table == next
      ensures calm ==> r.Done?
    {
      r := Command();
      if r.Done? {
        table := next;
        r := Command();
      }
    }

    /**
     The units and the manifest, one after the other, and the restart; only behind a closed gate.
     `fail`: the number of files written when a handled exception comes, none when it is three or more.
     */
    method InstallApps(from: Files, fail: nat) returns (r: Outcome<Failure>)
      requires gate == Some(Closed)
      modifies this`files
      ensures PartlyInstalled(old(files), from, files, 3)
      ensures r.Done? ==> files == old(files).WithApps(from)
      ensures calm ==> (r.Done? <==> fail >= 3) && (fail < 3 ==> files == Installed(old(files), from, fail))
    {
      assert files == Installed(old(files), from, 0);
      r := Command();
      if r.Raised? {
        return;
      }
      if fail == 0 {
        return Raised(Caught);
      }
      files := files.(apiUnit := from.apiUnit);
      assert files == Installed(old(files), from, 1);
      r := Command();
      if r.Raised? {
        return;
      }
      if fail == 1 {
        return Raised(Caught);
      }
      files := files.(webUnit := from.webUnit);
      assert files == Installed(old(files), from, 2);
      r := Command();
      if r.Raised? {
        return;
      }
      if fail == 2 {
        return Raised(Caught);
      }
      files := files.(manifest := from.manifest);
      assert files == Installed(old(files), from, 3);
      r := Command();
    }

    /** `network_tracking`: a table is in place afterwards, and the process knows which. */
    method TrackNetwork() returns (r: Outcome<Failure>)
      requires Safe() && Informed() && EdgeBootstrap in disk.value.steps
      modifies this`memory, this`disk, this`table, this`barrierActive
      ensures Safe() && Informed() && old(disk).value.steps <= disk.value.steps
      ensures r.Done? ==> table != NoTable && Mirror()
      ensures calm ==> r.Done?
    {
      r := Command();
      if r.Raised? {
        return;
      }
      if table != NoTable {
        :- Command();
        barrierActive := Some(table == Barrier);
        return Done;
      }
      :- Note(NetworkTracking);
      :- LoadTable(Tracking);
      barrierActive := Some(false);
      r := Done;
    }

    /** `network_barrier(True)`: with a right idea of the barrier before, it is up afterwards. */
    method RaiseBarrier() returns (r: Outcome<Failure>)
      requires Safe() && Informed() && EdgeBootstrap in disk.value.steps
      modifies this`memory, this`disk, this`table, this`barrierActive
      ensures Safe() && Informed() && old(disk).value.steps <= disk.value.steps
      ensures r.Done? && old(Mirror()) ==> table == Barrier && Mirror()
      ensures calm ==> r.Done?
    {
      r := Command();
      if r.Raised? {
        return;
      }
      if barrierActive != Some(true) {
        :- Note(Entry.NetworkBarrier);
        :- LoadTable(Barrier);
      }
      barrierActive := Some(true);
      r := Done;
    }

    /** `network_barrier(False)`. */
    method DropBarrier() returns (r: Outcome<Failure>)
      modifies this`table, this`barrierActive
      ensures table == old(table) || table == NoTable
      ensures r.Done? ==> table == NoTable && Mirror()
      ensures calm ==> r.Done?
    {
      r := Command();
      if r.Raised? {
        return;
      }
      if table != NoTable {
        :- LoadTable(NoTable);
      }
      barrierActive := Some(false);
      r := Done;
    }

    // ----- Settling -----

    /** `quiet`, or the exception raised in its place; the poll is observed. */
    method Look() returns (poll: Poll)
      modifies this`observed
      ensures observed == old(observed) + [Sighting(gate, table, poll)]
      ensures calm ==> poll == Quiet
    {
      poll := *;
      if calm {
        poll := Quiet;
      }
      observed := observed + [Sighting(gate, table, poll)];
    }

    /**
     `settle`: it completes at the first poll that makes three quiet ones with no busy one between them,
     and gives up when its time is over; all it goes by are polls it made, behind the gate and the table
     as they stand.
     */
    method Settle() returns (r: Outcome<Failure>)
      modifies this`observed
      ensures old(observed) <= observed && |observed| - |old(observed)| <= patience
      ensures forall s :: s in observed[|old(observed)|..] ==> s.gate == gate && s.table == table
      ensures r.Done? <==> ThreeQuiet(Polls(observed[|old(observed)|..]))
      ensures forall i :: |old(observed)| <= i < |observed| ==> !ThreeQuiet(Polls(observed[|old(observed)|..i]))
      ensures r == Raised(Caught) ==> |observed| - |old(observed)| == patience
      ensures r == Raised(Escaping) ==> observed != [] && observed[|observed| - 1].poll == Raising(Escaping)
      ensures Smooth() ==> r.Done?
    {
      ghost var start := observed;
      var consecutive, made := 0, 0;
      while made < patience
        invariant start <= observed && |observed| == |start| + made && made <= patience
        invariant consecutive == Streak(Polls(observed[|start|..])) < 3
        invariant forall s :: s in observed[|start|..] ==> s.gate == gate && s.table == table
        invariant !ThreeQuiet(Polls(observed[|start|..]))
        invariant forall i :: |start| <= i < |observed| ==> !ThreeQuiet(Polls(observed[|start|..i]))
        invariant calm ==> consecutive == made
      {
        ghost var before := observed;
        var poll := Look();
        made := made + 1;
        PollAdded(start, before, observed);
        hide ThreeQuiet, Polls;
        match poll
        case Quiet =>
          consecutive := consecutive + 1;
          if consecutive >= 3 {
            return Done;
          }
        case Busy =>
          consecutive := 0;
        case Raising(failure) =>
          if failure == Escaping {
            return Raised(Escaping);
          }
      }
      return Raised(Caught);
    }

    // ----- Activation -----

    /** `preflight`: the snapshot is taken with no table and no gate in place, and is journaled last. */
    method TakeSnapshot() returns (r: Outcome<Failure>)
      requires disk == None && memory == Journal([], Preflight)
      modifies this`saved, this`memory, this`disk
      ensures disk.Some? ==> Safe() && Informed() && saved == files && gate == None && table == NoTable
      ensures disk.Some? ==> disk.value == Journal([Snapshot], Preflight) && memory == disk.value
      ensures r.Done? ==> disk.Some?
      ensures calm && table == NoTable && gate == None ==> r.Done?
    {
      r := Command();
      if r.Raised? {
        return;
      }
      if table != NoTable {
        return Raised(Caught);
      }
      if gate.Some? {
        return Raised(Caught);
      }
      saved := files;
      :- Command();
      memory := memory.(steps := memory.steps + [Snapshot]);
      r := WriteJournal();
    }

    method BootstrapEdge() returns (r: Outcome<Failure>)
      requires Safe() && Informed() && files.WithApps(saved) == files
      modifies this`files, this`table, this`memory, this`disk, this`barrierActive
      ensures Safe() && Informed()
      ensures files == old(files) || files == old(files).(edge := stage.edge)
      ensures r.Done? ==> EdgeBootstrap in disk.value.steps && Mirror() && files == old(files).(edge := stage.edge)
      ensures calm ==> r.Done?
    {
      r := Note(EdgeBootstrap);
      if r.Raised? {
        return;
      }
      :- TrackNetwork();
      :- EdgeConfig(stage.edge);
      r := Command();
    }

    /** `drain`: admission is drained, then closed behind the barrier, each until work is quiet. */
    method DrainWork() returns (r: Outcome<Failure>)
      requires Safe() && Informed() && EdgeBootstrap in disk.value.steps && Mirror() && files.WithApps(saved) == files
      modifies this`gate, this`table, this`memory, this`disk, this`barrierActive, this`observed
      ensures Safe() && Informed() && EdgeBootstrap in disk.value.steps && old(observed) <= observed
      ensures r.Done? ==> gate == Some(Closed) && table == Barrier && Mirror() && Drained(observed[|old(observed)|..])
      ensures Smooth() ==> r.Done?
    {
      r := Note(DrainStep);
      if r.Raised? {
        return;
      }
      :- WriteGate(Drain);
      r := CloseAdmission();
    }

    /** Two settlings with the gate closed and the barrier raised between them. */
    method CloseAdmission() returns (r: Outcome<Failure>)
      requires Safe() && Informed() && EdgeBootstrap in disk.value.steps && Mirror() && gate == Some(Drain)
      modifies this`gate, this`table, this`memory, this`disk, this`barrierActive, this`observed
      ensures Safe() && Informed() && old(disk).value.steps <= disk.value.steps && old(observed) <= observed
      ensures r.Done? ==> gate == Some(Closed) && table == Barrier && Mirror() && Drained(observed[|old(observed)|..])
      ensures Smooth() ==> r.Done?
    {
      ghost var start := observed;
      r := Settle();
      ghost var drained := observed;
      if r.Raised? {
        return;
      }
      :- WriteGate(Closed);
      :- RaiseBarrier();
      r := Settle();
      if r.Raised? {
        return;
      }
      DrainedBoth(start, drained, drained, observed);
      hide Drained, ThreeQuiet;
      r := Command();
    }

    method SwitchToCandidate() returns (r: Outcome<Failure>)
      requires Safe() && Informed() && gate == Some(Closed) && table == Barrier
      modifies this`files, this`memory, this`disk
      ensures Safe() && Informed() && old(disk).value.steps <= disk.value.steps
      ensures r.Done? ==> SwitchApps in disk.value.steps && files == old(files).WithApps(stage)
      ensures calm ==> r.Done?
    {
      r := Note(SwitchApps);
      if r.Raised? {
        return;
      }
      :- InstallApps(stage, 3);
      r := Command();
    }

    method SwitchEdgeAgain() returns (r: Outcome<Failure>)
      requires Safe() && Informed() && EdgeBootstrap in disk.value.steps
      modifies this`files, this`memory, this`disk
      ensures Safe() && Informed() && old(disk).value.steps <= disk.value.steps
      ensures r.Done? ==> files == old(files).(edge := stage.edge)
      ensures calm ==> r.Done?
    {
      r := Note(SwitchEdge);
      if r.Raised? {
        return;
      }
      :- EdgeConfig(stage.edge);
      r := Command();
    }

    /** `public`: gate and barrier go only once the entry is on disk. */
    method OpenToPublic() returns (r: Outcome<Failure>)
      requires Safe() && Informed() && EdgeBootstrap in disk.value.steps && SwitchApps in disk.value.steps
      modifies this`gate, this`table, this`memory, this`disk, this`barrierActive
      ensures Safe() && Informed()
      ensures Public !in disk.value.steps ==> gate == old(gate) && table == old(table)
      ensures r.Done? ==>
              gate == None && table == NoTable && Public in disk.value.steps && disk.value.state == ActivePublicVerified
      ensures calm ==> r.Done?
    {
      assert EdgeBootstrap in memory.steps && SwitchApps in memory.steps;
      :- Note(Public);
      assert Public in memory.steps;
      :- DropBarrier();
      :- UnlinkGate();
      :- Command();
      memory := memory.(state := ActivePublicVerified);
      r := Note(Complete);
    }

    /** The five steps; the apps change only after the old work was seen to end. */
    method Steps() returns (r: Outcome<Failure>)
      requires Safe() && Informed() && saved == files
      modifies this`files, this`gate, this`table, this`memory, this`disk, this`barrierActive, this`observed
      ensures Safe() && old(observed) <= observed
      ensures r.Done? ==> files == stage && gate == None && table == NoTable
                          && Public in disk.value.steps && disk.value.state == ActivePublicVerified
      ensures r.Done? || files.WithApps(saved) != files ==> Drained(observed[|old(observed)|..])
      ensures Smooth() ==> r.Done?
    {
      r := BootstrapEdge();
      if r.Raised? {
        return;
      }
      :- DrainWork();
      hide Drained;
      r := SwitchAndOpen();
    }

    /** The last three steps, once the old work has ended. */
    method SwitchAndOpen() returns (r: Outcome<Failure>)
      requires Safe() && Informed() && EdgeBootstrap in disk.value.steps && gate == Some(Closed) && table == Barrier
      modifies this`files, this`gate, this`table, this`memory, this`disk, this`barrierActive
      ensures Safe()
      ensures r.Done? ==> files == stage && gate == None && table == NoTable
                          && Public in disk.value.steps && disk.value.state == ActivePublicVerified
      ensures calm ==> r.Done?
    {
      r := SwitchToCandidate();
      if r.Raised? {
        return;
      }
      :- SwitchEdgeAgain();
      r := OpenToPublic();
    }

    /**
     `activate`: it completes with the candidate in place and admission open, and does when nothing
     raises. Whatever interrupts it, the journal covers what was done; when the rollback that follows
     completes, nothing is left of it. `fail` is the failure point of that rollback.
     */
    method Activate(fail: nat) returns (r: Outcome<Failure>, rolledBack: bool)
      requires disk == None && memory == Journal([], Preflight)
      modifies this
      ensures if disk.None? then files == old(files) && gate == old(gate) && table == old(table)
              else Safe() && saved == old(files) && old(gate) == None && old(table) == NoTable
      ensures r.Done? ==> files == stage && gate == None && table == NoTable && disk.Some?
                          && Public in disk.value.steps && disk.value.state == ActivePublicVerified
      ensures rolledBack ==> r.Raised? && files == old(files) && gate == None && table == NoTable
      ensures old(observed) <= observed
      ensures r.Done? || files.WithApps(old(files)) != files ==> Drained(observed[|old(observed)|..])
      ensures Smooth() && old(gate) == None && old(table) == NoTable ==> r.Done?
    {
      rolledBack := false;
      :- TakeSnapshot();
      hide Drained, Ordered;
      ghost var start := observed;
      r := Steps();
      ghost var stepped := observed;
      if r.Raised? {
        ghost var reached := files;
        var back, restoring := Rollback(fail);
        StillDrained(start, stepped, observed, reached.WithApps(saved) != reached);
        if back.Raised? {
          return back, false;
        }
        rolledBack := true;
      }
    }

    // ----- Rollback -----

    /** The drain of a rollback after the release was opened; anything handled blocks the rollback. */
    method DrainForRollback() returns (r: Outcome<Failure>)
      requires Safe() && Informed() && EdgeBootstrap in disk.value.steps && Mirror() && gate == Some(Drain)
      modifies this`gate, this`table, this`memory, this`disk, this`barrierActive, this`observed
      ensures Safe() && Informed() && old(disk).value.steps <= disk.value.steps && old(observed) <= observed
      ensures r.Done? ==> gate == Some(Closed) && Drained(observed[|old(observed)|..])
      ensures Smooth() ==> r.Done?
    {
      r := Command();
      if r.Raised? {
        return;
      }
      r := CloseAdmission();
      hide Drained;
      if r.Done? {
        r := Command();
      }
    }

    /** The current release is kept: admission is opened again if it is found in order. */
    method KeepCurrent() returns (r: Outcome<Failure>)
      modifies this`gate, this`table, this`barrierActive
      ensures gate == old(gate) || gate == None
      ensures table == old(table) || table == NoTable
      ensures r != Raised(Caught)
      ensures calm ==> r.Done?
    {
      r := Reopen();
      if r == Raised(Caught) {
        r := Done;
      }
    }

    method Reopen() returns (r: Outcome<Failure>)
      modifies this`gate, this`table, this`barrierActive
      ensures gate == old(gate) || gate == None
      ensures table == old(table) || table == NoTable
      ensures calm ==> r.Done?
    {
      r := Command();
      if r.Raised? {
        return;
      }
      if * {
        return Done;
      }
      :- DropBarrier();
      r := UnlinkGate();
    }

    /**
     The apps, then the edge's configuration. `fail`: the number of files written when a handled exception
     comes, none when it is four or more.
     */
    method RestoreSnapshot(fail: nat) returns (r: Outcome<Failure>)
      requires Safe() && Informed() && gate == Some(Closed)
      modifies this`files, this`gate, this`table, this`memory, this`disk, this`barrierActive
      ensures Safe() && old(disk).value.steps <= disk.value.steps
      ensures PartlyInstalled(old(files), saved, files, 4)
      ensures r.Done? ==> Restored() && disk.value.state == RolledBack
      ensures calm && SwitchApps in old(memory).steps && fail < 4 ==>
              r.Raised? && files == Installed(old(files), saved, fail)
      ensures calm && fail >= 4 ==> r.Done?
    {
      assert files == Installed(files, saved, 0);
      if SwitchApps in memory.steps {
        :- InstallApps(saved, fail);
        :- Command();
      }
      assert files == Installed(old(files), saved, 3);
      if fail == 3 {
        return Raised(Caught);
      }
      r := RestoreEdge();
      assert files == Installed(old(files), saved, 3) || files == Installed(old(files), saved, 4);
      if r.Raised? {
        return;
      }
      hide PartlyInstalled, Installed;
      :- UnlinkGate();
      memory := memory.(state := RolledBack);
      r := Note(RollbackComplete);
    }

    method RestoreEdge() returns (r: Outcome<Failure>)
      modifies this`files, this`table, this`barrierActive
      ensures files == old(files) || (EdgeBootstrap in memory.steps && files == old(files).(edge := saved.edge))
      ensures table == old(table) || table == NoTable
      ensures r.Done? && EdgeBootstrap in memory.steps ==> files.edge == saved.edge && table == NoTable
      ensures calm ==> r.Done?
    {
      if EdgeBootstrap in memory.steps {
        :- EdgeConfig(saved.edge);
        :- DropBarrier();
        :- Command();
      } else if Entry.NetworkBarrier in memory.steps {
        :- DropBarrier();
      }
      r := Done;
    }

    /**
     The way to a closed gate when the release was already open. `drain` is how the drain ended: what is
     handled there keeps the release and is noted, `noted` says whether that reached the disk.
     */
    method CloseOpened() returns (r: Outcome<Failure>, drain: Outcome<Failure>, noted: bool)
      requires Safe() && Informed() && EdgeBootstrap in disk.value.steps && Public in disk.value.steps
      modifies this`gate, this`table, this`memory, this`disk, this`barrierActive, this`observed
      ensures Safe() && Informed() && old(disk).value.steps <= disk.value.steps && old(observed) <= observed
      ensures r.Done? ==> gate == Some(Closed) && Drained(observed[|old(observed)|..])
      ensures drain == Raised(Caught) && r == Raised(Caught) ==>
              memory.state == BlockedRetained && RollbackBlocked in memory.steps
      ensures noted ==> disk == Some(memory) && memory.state == BlockedRetained && RollbackBlocked in disk.value.steps
      ensures drain == Raised(Caught) && r.Raised? && calm ==> noted
      ensures Smooth() ==> r.Done?
    {
      drain, noted := Done, false;
      hide Drained;
      ghost var start := observed;
      :- TrackNetwork();
      :- WriteGate(Drain);
      :- Command();
      drain := DrainForRollback();
      r := drain;
      if drain == Raised(Caught) {
        :- KeepCurrent();
        memory := memory.(state := BlockedRetained);
        :- Note(RollbackBlocked);
        return Raised(Caught), drain, true;
      }
    }

    /**
     `rollback`, started in a new process or in the one that failed. Whenever it completes, everything
     is as the snapshot had it. If it raises before the restoring phase, the files are untouched, and
     after the release was opened that phase begins only once the old work was seen to end. `fail` is
     the failure point within the four writes of that phase.
     */
    method Rollback(fail: nat) returns (r: Outcome<Failure>, ghost restoring: bool)
      requires disk.Some? ==> Safe()
      modifies this`files, this`gate, this`table, this`memory, this`disk, this`barrierActive, this`observed
      ensures old(observed) <= observed
      ensures old(disk).None? ==> r.Raised? && disk.None? && gate == old(gate) && table == old(table)
      ensures old(disk).Some? ==> Safe() && old(disk).value.steps <= disk.value.steps
      ensures r.Done? ==> restoring && Restored()
      ensures !restoring ==> files == old(files)
      ensures restoring ==> PartlyInstalled(old(files), saved, files, 4)
      ensures restoring ==> old(disk).Some?
      ensures files != old(files) && Public in old(disk).value.steps ==> Drained(observed[|old(observed)|..])
      ensures Smooth() && old(disk).Some? ==> restoring
      ensures Smooth() && old(disk).Some? && fail >= 4 ==> r.Done?
      ensures Smooth() && old(disk).Some? && SwitchApps in old(disk).value.steps && fail < 4 ==>
                r.Raised? && files == Installed(old(files), saved, fail)
    {
      restoring := false;
      hide Drained, PartlyInstalled, Installed;
      if disk.None? {
        return Raised(Caught), restoring;
      }
      memory := disk.value;
      :- Command();
      if memory.state == ActivePublicVerified || Public in memory.steps {
        var drain, noted;
        r, drain, noted := CloseOpened();
        if r.Raised? {
          return;
        }
      } else {
        :- WriteGate(Closed);
      }
      restoring := true;
      r := RestoreSnapshot(fail);
    }

    /** However often a rollback is interrupted, the first one that completes restores the snapshot. */
    method Recover(attempts: nat) returns (done: bool)
      requires Safe()
      modifies this`files, this`gate, this`table, this`memory, this`disk, this`barrierActive, this`observed
      ensures Safe() && (done ==> Restored())
      ensures Smooth() && attempts > 0 ==> done
    {
      done := false;
      for i := 0 to attempts
        invariant Safe() && !done
        invariant Smooth() ==> i == 0
      {
        var fail: nat := *;
        if calm {
          fail := 4;
        }
        var r, restoring := Rollback(fail);
        if r.Done? {
          return true;
        }
      }
    }
  }

  lemma PollAdded(start: seq<Sighting>, before: seq<Sighting>, after: seq<Sighting>)
    requires start <= before && |after| == |before| + 1 && after == before + [after[|before|]]
    requires !ThreeQuiet(Polls(before[|start|..]))
    ensures var polls, poll := Polls(before[|start|..]), after[|before|].poll;
            && Polls(after[|start|..]) == polls + [poll]
            && (ThreeQuiet(polls + [poll]) <==> Streak(polls + [poll]) >= 3)
            && Streak(polls + [poll]) == match poll
               case Quiet => Streak(polls) + 1
               case Busy => 0
               case Raising(_) => Streak(polls)
    ensures after[|start|..] == before[|start|..] + [after[|before|]]
    ensures forall i :: |start| <= i <= |before| ==> after[|start|..i] == before[|start|..i]
    ensures before[|start|..|before|] == before[|start|..]
  {
    var polls, poll := Polls(before[|start|..]), after[|before|].poll;
    assert Polls(after[|start|..]) == polls + [poll];
    assert (polls + [poll])[..|polls|] == polls && (polls + [poll])[..|polls| + 1] == polls + [poll];
    StreakIsThreeQuiet(polls + [poll], |polls|);
  }

  lemma StillDrained(start: seq<Sighting>, middle: seq<Sighting>, end: seq<Sighting>, switched: bool)
    requires start <= middle <= end && (switched ==> Drained(middle[|start|..]))
    ensures switched ==> Drained(end[|start|..])
  {
    if switched {
      DrainedDuring(start, start, middle, end);
    }
  }

  /** What the order of the steps makes true of every journal. */
  predicate Ordered(j: Journal) {
    && (Public in j.steps ==> EdgeBootstrap in j.steps && SwitchApps in j.steps)
    && (j.state == ActivePublicVerified ==> Public in j.steps)
  }

  /** The files after the first `k` of the four writes: the units, the manifest, the edge's configuration. */
  function Installed(files: Files, from: Files, k: nat): Files {
    var one := if k >= 1 then files.(apiUnit := from.apiUnit) else files;
    var two := if k >= 2 then one.(webUnit := from.webUnit) else one;
    var three := if k >= 3 then two.(manifest := from.manifest) else two;
    if k >= 4 then three.(edge := from.edge) else three
  }

  ghost predicate PartlyInstalled(before: Files, from: Files, after: Files, most: nat) {
    exists k: nat :: k <= most && after == Installed(before, from, k)
  }

  // ----- An interrupted restoring phase -----

  /** The files in the order in which they are written. */
  function InOrder(files: Files): seq<File> {
    [files.apiUnit, files.webUnit, files.manifest, files.edge]
  }

  /** The exception comes between two files that the releases do not share. */
  predicate Splits(previous: Files, stage: Files, fail: nat) {
    var a, b := InOrder(previous), InOrder(stage);
    exists i, j :: 0 <= i < fail <= j < 4 && a[i] != b[i] && a[j] != b[j]
  }

  /** What is installed is the one release or the other exactly when they share the files that would differ. */
  lemma InstalledExactly(previous: Files, stage: Files, fail: nat)
    ensures Installed(stage, previous, fail) == previous <==>
            (forall j :: fail <= j < 4 ==> InOrder(previous)[j] == InOrder(stage)[j])
    ensures Installed(stage, previous, fail) == stage <==>
            (forall i :: 0 <= i < fail && i < 4 ==> InOrder(previous)[i] == InOrder(stage)[i])
  {
    var a, b := InOrder(previous), InOrder(stage);
    assert a[0] == b[0] <==> previous.apiUnit == stage.apiUnit;
    assert a[1] == b[1] <==> previous.webUnit == stage.webUnit;
    assert a[2] == b[2] <==> previous.manifest == stage.manifest;
    assert a[3] == b[3] <==> previous.edge == stage.edge;
  }

  /**
   A release is activated without trouble, and then rolled back with an exception at the failure point.
   All four files end as in the one release or as in the other, exactly unless the exception comes
   between two files that the releases do not share.
   */
  method InterruptedRollback(previous: Files, stage: Files, fail: nat) returns (operator: Operator)
    ensures fresh(operator) && operator.Safe() && operator.saved == previous
    ensures operator.files == Installed(stage, previous, fail)
    ensures operator.files == previous || operator.files == stage <==> !Splits(previous, stage, fail)
    ensures fail >= 4 ==> operator.Restored()
  {
    operator := new Operator(previous, None, NoTable, stage, 3, true);
    var activated, rolledBack := operator.Activate(4);
    hide Drained;
    var r, restoring := operator.Rollback(fail);
    InstalledExactly(previous, stage, fail);
  }
}
