/**
 The two clients of the reservation protocol (`FilesService.upload` and
 `QuotationDocumentsService.generate`), effect by effect, proved to follow the step system.
 */
module FilesService {
  import opened Outcomes
  import Storage = FileStorage
  import opened FileCapacity
  import opened UploadProtocol

  type Claim = Storage.Claim
  type Key = Storage.Key
  type Blob = Storage.Blob

  ghost predicate Reaches(l: Limits, s: State, t: State) {
    exists steps :: Run(l, s, steps) == Some(t)
  }

  lemma ReachesTrans(l: Limits, s: State, t: State, u: State)
    requires Reaches(l, s, t) && Reaches(l, t, u)
    ensures Reaches(l, s, u)
  {
    hide After;
    var a :| Run(l, s, a) == Some(t);
    var b :| Run(l, t, b) == Some(u);
    RunAppend(l, s, a, b);
  }

  lemma ReachesStep(l: Limits, s: State, t: State, step: Step)
    requires Inv(l, s) && After(l, s, step) == Some(t)
    ensures Reaches(l, s, t) && Inv(l, t)
  {
    hide After, Inv;
    StepKeepsInv(l, s, step);
    assert [step][1..] == [];
    assert Run(l, t, []) == Some(t);
    assert Run(l, s, [step]) == Some(t);
  }

  /** A step that is not taken by the client `id` itself. */
  predicate Foreign(step: Step, id: Claim) {
    OfSession(step) || OfReaper(step) || step.Expire? || step.id != id
  }

  ghost predicate OthersRan(l: Limits, s: State, t: State, id: Claim) {
    exists steps :: (forall i :: 0 <= i < |steps| ==> Foreign(steps[i], id)) && Run(l, s, steps) == Some(t)
  }

  lemma {:induction false} ForeignKeeps(l: Limits, s: State, steps: seq<Step>, id: Claim)
    requires forall i :: 0 <= i < |steps| ==> Foreign(steps[i], id)
    requires id in s.clients && Run(l, s, steps).Some?
    ensures id in Run(l, s, steps).value.clients && Run(l, s, steps).value.clients[id] == s.clients[id]
    decreases |steps|
  {
    if steps != [] {
      ForeignStepKeeps(l, s, steps[0], id);
      hide After;
      ForeignKeeps(l, After(l, s, steps[0]).value, steps[1..], id);
    }
  }

  /** A client's entry is changed only by its own steps; the reaper and the sessions change none. */
  lemma ForeignStepKeeps(l: Limits, s: State, step: Step, id: Claim)
    requires Foreign(step, id) && id in s.clients && After(l, s, step).Some?
    ensures id in After(l, s, step).value.clients && After(l, s, step).value.clients[id] == s.clients[id]
  {
    if OfSession(step) {
      AfterIsSession(l, s, step);
      hide After, AssertFileCapacity, HasRow;
    } else if step.Start? || step.Expire? {
      hide AssertFileCapacity, HasRow;
    } else if OfReaper(step) {
      hide HasRow, InTransaction;
    } else {
      OwnStepMoves(l, s, step);
    }
  }

  lemma OwnStepMoves(l: Limits, s: State, step: Step)
    requires !OfSession(step) && !OfReaper(step) && !step.Start? && !step.Expire?
    requires After(l, s, step).Some?
    ensures Moved(s, After(l, s, step).value, step.id)
  {
    hide After;
    if step.Reserve? {
      AfterIsOwn(l, s, step);
      hide AfterReserve;
      ReserveFrame(l, s, step.id, step.ending);
    } else if step.Commit? {
      AfterIsOwn(l, s, step);
      hide AfterCommit;
      CommitFrame(s, step.id, step.ending);
    } else {
      OwnShrinks(l, s, step);
    }
  }

  lemma OthersKeep(l: Limits, s: State, t: State, id: Claim)
    requires Inv(l, s) && OthersRan(l, s, t, id) && id in s.clients
    ensures Inv(l, t) && Reaches(l, s, t) && id in t.clients && t.clients[id] == s.clients[id]
  {
    var steps :| (forall i :: 0 <= i < |steps| ==> Foreign(steps[i], id)) && Run(l, s, steps) == Some(t);
    hide Inv, After, Run;
    RunKeepsInv(l, s, steps);
    ForeignKeeps(l, s, steps, id);
  }

  /** Between two of a client's effects: its phase is `phase`, and all is in order. */
  ghost predicate At(l: Limits, s: State, id: Claim, c: Client, phase: Phase) {
    Inv(l, s) && id in s.clients && s.clients[id] == c.(phase := phase)
  }

  class FilesService {
    const limits: Limits
    const storage: Storage.FileStorage
    var db: Db
    var expired: set<Claim>
    var reaping: map<Claim, Reaping>
    ghost var clients: map<Claim, Client>
    ghost var owner: map<Key, Claim>
    ghost var committed: map<Key, Blob>
    ghost var overdue: set<Claim>
    ghost var late: set<Claim>
    ghost var reheld: map<SessionId, Row>

    ghost function View(): State
      reads this, storage
    {
      State(db, storage.disk, clients, expired, reaping, owner, committed, overdue, late, reheld)
    }

    constructor (limits: Limits, storage: Storage.FileStorage)
      requires storage.disk == map[]
      ensures this.limits == limits && this.storage == storage
      ensures db == NoRows() && clients == map[]
    {
      this.limits, this.storage := limits, storage;
      db := NoRows();
      expired, reaping := {}, map[];
      clients, owner, committed, overdue, late, reheld := map[], map[], map[], {}, {}, map[];
    }

    /** Where other clients, the clock and the reaper may run; callers know no more than the contract. */
    method Others(ghost id: Claim)
      modifies this, storage
      ensures OthersRan(limits, old(View()), View(), id)
    {
      assert Run(limits, View(), []) == Some(View());
    }

    ghost method Move(id: Claim, phase: Phase)
      requires id in clients
      modifies this`clients
      ensures View() == To(old(View()), id, phase)
    {
      clients := clients[id := clients[id].(phase := phase)];
    }

    /** The first transaction, from taking the global lock to its commit. */
    method Reserve(id: Claim, c: Client) returns (ok: bool)
      requires At(limits, View(), id, c, Created)
      modifies this, storage
      ensures Reaches(limits, old(View()), View())
      ensures At(limits, View(), id, c, if ok then Reserved else Caught)
    {
      hide Inv, AssertFileCapacity;
      ghost var before := View();
      Others(id);
      OthersKeep(limits, before, View(), id);
      ghost var s := View();
      var recent: nat, open: nat, actorLimit: nat := *, *, *;
      var admitted := CheckFileCapacity(db, limits, c.key.organization, |c.data|, false, recent, open, actorLimit);
      forall ending {
        AfterIsOwn(limits, s, Step.Reserve(id, ending));
      }
      hide After;
      var lost: bool := *;
      ok := *;
      if lost || admitted.Raised? {
        ok := false;
        Move(id, Caught);
        ReachesStep(limits, s, View(), Step.Reserve(id, RolledBack));
      } else {
        CreatedUnreserved(limits, s, id);
        db := db.(reservations := db.reservations[id := RowOf(c)]);
        Move(id, if ok then Reserved else Caught);
        ReachesStep(limits, s, View(), Step.Reserve(id, if ok then Acknowledged else Unheard));
      }
      ReachesTrans(limits, before, s, View());
    }

    /** `putStream` under the reservation; a failed write may leave a part behind. */
    method Put(id: Claim, c: Client) returns (ok: bool)
      requires At(limits, View(), id, c, Reserved)
      modifies this, storage
      ensures Reaches(limits, old(View()), View())
      ensures At(limits, View(), id, c, if ok then Written else Caught)
    {
      hide Inv, AssertFileCapacity;
      ghost var before := View();
      Others(id);
      OthersKeep(limits, before, View(), id);
      ghost var s := View();
      ghost var path := Storage.Pending(c.key, id);
      ReservedUnwritten(limits, s, id);
      var r, fate := storage.PutStream(c.key.organization, [c.data], Some(c.key), Some(id), c.key);
      assert Storage.Concat([c.data]) == c.data;
      ok := r.Ok?;
      ghost var writing := if ok then Complete else if path in storage.disk then Torn(storage.disk[path]) else Removed;
      Storage.ChangedOnlyAt(s.disk, storage.disk, path);
      if path in storage.disk {
        late := if id in overdue then late + {id} else late;
      }
      Move(id, if ok then Written else Caught);
      ReachesStep(limits, s, View(), Step.Write(id, writing));
      ReachesTrans(limits, before, s, View());
    }

    /** A failure of the client's own inside or before its second transaction. */
    ghost method Fail(id: Claim, c: Client, before: State)
      requires id in clients && At(limits, View(), id, c, clients[id].phase)
      requires clients[id].phase == Written || InTransaction(clients[id].phase)
      requires Reaches(limits, before, View())
      modifies this`clients
      ensures Reaches(limits, before, View())
      ensures At(limits, View(), id, c, Caught)
    {
      hide Inv;
      ghost var s := View();
      Move(id, Caught);
      ReachesStep(limits, s, View(), Step.Raise(id));
      ReachesTrans(limits, before, s, View());
    }

    /** The second transaction locks its reservation; it finds it missing, expired or held, or goes on. */
    method Begin(id: Claim, c: Client) returns (ok: bool)
      requires At(limits, View(), id, c, Written)
      modifies this, storage
      ensures Reaches(limits, old(View()), View())
      ensures At(limits, View(), id, c, if ok then Opened else Caught)
    {
      hide Inv;
      ghost var before := View();
      Others(id);
      OthersKeep(limits, before, View(), id);
      ghost var s := View();
      var lost: bool := *;
      ok := !lost && id !in reaping && id in db.reservations && id !in expired;
      if lost || id in reaping {
        Fail(id, c, before);
      } else {
        Move(id, if ok then Opened else Caught);
        ReachesStep(limits, s, View(), Step.Begin(id));
        ReachesTrans(limits, before, s, View());
      }
    }

    /** An upload whose payload was already accepted removes its pending object. */
    method ClearReplay(id: Claim, c: Client) returns (ok: bool)
      requires At(limits, View(), id, c, Opened) && c.kind == Upload
      modifies this, storage
      ensures Reaches(limits, old(View()), View())
      ensures At(limits, View(), id, c, if ok then Cleared else Caught)
    {
      hide Inv;
      ghost var before := View();
      Others(id);
      OthersKeep(limits, before, View(), id);
      ghost var s := View();
      var o := storage.RemovePending(c.key, id);
      ok := o.Done?;
      if ok {
        Move(id, Cleared);
        ReachesStep(limits, s, View(), Step.ClearReplay(id));
        ReachesTrans(limits, before, s, View());
      } else {
        Fail(id, c, before);
      }
    }

    /** The rename that publishes the object, inside the second transaction. */
    method Publish(id: Claim, c: Client) returns (ok: bool)
      requires At(limits, View(), id, c, Opened)
      modifies this, storage
      ensures Reaches(limits, old(View()), View())
      ensures At(limits, View(), id, c, if ok then Published else Caught)
    {
      hide Inv, AfterReserve, AfterSession, AfterReap, AfterWrite, AfterBegin, AfterCommit, AfterLookup, HasRow, Run,
        OthersRan, Reaches;
      ghost var before := View();
      Others(id);
      OthersKeep(limits, before, View(), id);
      ghost var s := View();
      var o := storage.PublishPending(c.key, id);
      ok := o.Done?;
      if ok {
        Move(id, Published);
        ReachesStep(limits, s, View(), Step.Publish(id));
        ReachesTrans(limits, before, s, View());
      } else {
        Fail(id, c, before);
      }
    }

    /** The rows, and the commit of the second transaction; its acknowledgement may be lost. */
    method Commit(id: Claim, c: Client, replay: bool) returns (ok: bool)
      requires At(limits, View(), id, c, if replay then Cleared else Published)
      modifies this, storage
      ensures Reaches(limits, old(View()), View())
      ensures At(limits, View(), id, c, if ok then Finished else Caught)
      ensures ok && !replay ==> HasRow(db, c.key)
    {
      hide Inv, AfterReserve, AfterSession, AfterReap, AfterWrite, AfterBegin, AfterLookup, Run,
        OthersRan, Reaches;
      ghost var before := View();
      Others(id);
      OthersKeep(limits, before, View(), id);
      ghost var s := View();
      var rolledBack: bool := *;
      ok := *;
      ghost var ending := if rolledBack then RolledBack else if ok then Acknowledged else Unheard;
      if rolledBack {
        ok := false;
      } else {
        ghost var inTransaction := s.clients[id];
        db := db.(reservations := db.reservations - {id});
        if !replay {
          if c.kind == Upload {
            db := db.(files := db.files[c.key := RowOf(c)]);
          } else {
            db := db.(documents := db.documents[c.key := RowOf(c)]);
          }
          committed := committed[c.key := c.data];
        }
        assert RowOf(inTransaction) == RowOf(c);
        assert View() == Settled(s, id);
      }
      Move(id, if ok then Finished else Caught);
      ReachesStep(limits, s, View(), Step.Commit(id, ending));
      ReachesTrans(limits, before, s, View());
    }

    /** The `catch` path: it deletes only while its reservation is there, and drops it last. */
    method CleanUp(id: Claim, c: Client)
      requires At(limits, View(), id, c, Caught)
      modifies this, storage
      ensures Reaches(limits, old(View()), View())
      ensures At(limits, View(), id, c, Finished)
    {
      hide Inv;
      ghost var before := View();
      var found := Look(id, c);
      ghost var looked := View();
      if found {
        var erased := ErasePending(id, c);
        ghost var half := View();
        ReachesTrans(limits, before, looked, half);
        if erased {
          erased := EraseFinal(id, c);
          ghost var whole := View();
          ReachesTrans(limits, before, half, whole);
          if erased {
            Drop(id, c);
            ReachesTrans(limits, before, whole, View());
          }
        }
      }
    }

    method Look(id: Claim, c: Client) returns (found: bool)
      requires At(limits, View(), id, c, Caught)
      modifies this, storage
      ensures Reaches(limits, old(View()), View())
      ensures At(limits, View(), id, c, if found then ErasingPending else Finished)
    {
      hide Inv, AfterReserve, AfterSession, AfterReap, AfterWrite, AfterBegin, AfterCommit, HasRow, Run,
        OthersRan, Reaches;
      ghost var before := View();
      Others(id);
      OthersKeep(limits, before, View(), id);
      ghost var s := View();
      var heard: bool := *;
      found := heard && id in db.reservations;
      Move(id, if found then ErasingPending else Finished);
      ReachesStep(limits, s, View(), Step.Lookup(id, heard));
      ReachesTrans(limits, before, s, View());
    }

    method ErasePending(id: Claim, c: Client) returns (ok: bool)
      requires At(limits, View(), id, c, Phase.ErasingPending)
      modifies this, storage
      ensures Reaches(limits, old(View()), View())
      ensures At(limits, View(), id, c, if ok then ErasingFinal else Finished)
    {
      hide Inv, AfterReserve, AfterSession, AfterReap, AfterWrite, AfterBegin, AfterCommit, AfterLookup, HasRow, Run,
        OthersRan, Reaches;
      ghost var before := View();
      Others(id);
      OthersKeep(limits, before, View(), id);
      ghost var s := View();
      var o := storage.RemovePending(c.key, id);
      ok := o.Done?;
      Move(id, if ok then ErasingFinal else Finished);
      ReachesStep(limits, s, View(), Step.ErasePending(id, ok));
      ReachesTrans(limits, before, s, View());
    }

    method EraseFinal(id: Claim, c: Client) returns (ok: bool)
      requires At(limits, View(), id, c, ErasingFinal)
      modifies this, storage
      ensures Reaches(limits, old(View()), View())
      ensures At(limits, View(), id, c, if ok then Dropping else Finished)
    {
      hide Inv, AfterReserve, AfterSession, AfterReap, AfterWrite, AfterBegin, AfterCommit, AfterLookup, HasRow, Run,
        OthersRan, Reaches;
      ghost var before := View();
      Others(id);
      OthersKeep(limits, before, View(), id);
      ghost var s := View();
      KeyWellFormed(limits, s, id);
      var o := storage.Remove(c.key);
      ok := o.Done?;
      Move(id, if ok then Dropping else Finished);
      ReachesStep(limits, s, View(), Step.EraseFinal(id, ok));
      ReachesTrans(limits, before, s, View());
    }

    method Drop(id: Claim, c: Client)
      requires At(limits, View(), id, c, Dropping)
      modifies this, storage
      ensures Reaches(limits, old(View()), View())
      ensures At(limits, View(), id, c, Finished)
    {
      hide Inv, Reaches, OthersRan;
      ghost var before := View();
      Others(id);
      OthersKeep(limits, before, View(), id);
      ghost var s := View();
      DropRow(id, c);
      ReachesTrans(limits, before, s, View());
    }

    /** The deletion of the reservation itself, unless it is lost or the reaper holds the row. */
    method DropRow(id: Claim, c: Client)
      requires At(limits, View(), id, c, Dropping)
      modifies this, storage
      ensures Reaches(limits, old(View()), View())
      ensures At(limits, View(), id, c, Finished)
    {
      hide Inv, Reaches;
      ghost var s := View();
      AfterDropping(limits, s, id);
      hide After;
      var lost: bool := *;
      if lost || id in reaping {
        Move(id, Finished);
        ReachesStep(limits, s, View(), Step.Stop(id));
      } else {
        db := db.(reservations := db.reservations - {id});
        Move(id, Finished);
        ReachesStep(limits, s, View(), Step.Drop(id, Acknowledged));
      }
    }

    /** The `try` block: the two transactions around the write. */
    method Attempt(id: Claim, c: Client) returns (ok: bool, replay: bool)
      requires At(limits, View(), id, c, Created)
      modifies this, storage
      ensures Reaches(limits, old(View()), View())
      ensures At(limits, View(), id, c, if ok then Finished else Caught)
      ensures replay ==> c.kind == Upload
      ensures ok && !replay ==> HasRow(db, c.key)
    {
      hide Inv;
      ghost var before := View();
      replay := false;
      ok := Reserve(id, c);
      ghost var reserved := View();
      if !ok {
        return;
      }
      ok := Put(id, c);
      ghost var written := View();
      ReachesTrans(limits, before, reserved, written);
      if !ok {
        return;
      }
      ok := Begin(id, c);
      ghost var begun := View();
      ReachesTrans(limits, before, written, begun);
      if !ok {
        return;
      }
      replay := *;
      replay := replay && c.kind == Upload;
      if replay {
        ok := ClearReplay(id, c);
      } else {
        ok := Publish(id, c);
      }
      ghost var published := View();
      ReachesTrans(limits, before, begun, published);
      if !ok {
        return;
      }
      ok := Commit(id, c, replay);
      ReachesTrans(limits, before, published, View());
    }

    /**
     `upload` and `generate`: under a fresh reservation id and a fresh key, whatever fails and whoever
     runs in between. The world moves along a run of the step system, the invariant holds at the end,
     the client is done, and on success a committed row stands over exactly the bytes that were sent,
     unless the upload was answered as a replay.
     */
    method Transfer(kind: Kind, id: Claim, key: Key, data: Blob) returns (ok: bool, replay: bool)
      requires Inv(limits, View()) && id !in clients && id !in db.reservations && FreshKey(View(), key)
      modifies this, storage
      ensures Inv(limits, View()) && Reaches(limits, old(View()), View())
      ensures id in clients && clients[id] == Client(kind, key, data, Finished)
      ensures replay ==> kind == Upload
      ensures ok && !replay ==>
              HasRow(db, key) && Storage.Final(key) in storage.disk && storage.disk[Storage.Final(key)] == data
    {
      hide Sound, Charges;
      ghost var before := View();
      var c := Client(kind, key, data, Created);
      clients := clients[id := c];
      owner := owner[key := id];
      ReachesStep(limits, before, View(), Step.Start(id, kind, key, data));
      ghost var s := View();
      ok, replay := Attempt(id, c);
      ReachesTrans(limits, before, s, View());
      if ok {
        if !replay {
          RowHolds(limits, View(), id);
        }
      } else {
        ghost var t := View();
        CleanUp(id, c);
        ReachesTrans(limits, before, t, View());
      }
    }
  }

  lemma AfterDropping(l: Limits, s: State, id: Claim)
    requires id in s.clients && s.clients[id].phase == Dropping
    ensures After(l, s, Step.Stop(id)) == Some(To(s, id, Finished))
    ensures id !in s.reaping ==>
              After(l, s, Step.Drop(id, Acknowledged))
              == Some(To(s, id, Finished).(db := s.db.(reservations := s.db.reservations - {id})))
  {
  }

  lemma CreatedUnreserved(l: Limits, s: State, id: Claim)
    requires Inv(l, s) && id in s.clients && s.clients[id].phase == Created
    ensures id !in s.db.reservations
  {
    assert ClientOk(s, id);
  }

  lemma ReservedUnwritten(l: Limits, s: State, id: Claim)
    requires Inv(l, s) && id in s.clients && s.clients[id].phase == Reserved
    ensures Storage.Pending(s.clients[id].key, id) !in s.disk
  {
    assert ClientOk(s, id);
  }

  lemma KeyWellFormed(l: Limits, s: State, id: Claim)
    requires Inv(l, s) && id in s.clients
    ensures s.clients[id].key.wellFormed
  {
    assert ClientOk(s, id);
  }

  /** A client whose key has a row sees its own bytes there. */
  lemma RowHolds(l: Limits, s: State, id: Claim)
    requires Inv(l, s) && id in s.clients && HasRow(s.db, s.clients[id].key)
    ensures var key := s.clients[id].key;
            Storage.Final(key) in s.disk && s.disk[Storage.Final(key)] == s.clients[id].data
  {
    assert ClientOk(s, id);
  }
}
