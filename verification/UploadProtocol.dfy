/**
 The reservation protocol of uploads and quotation documents as a step system. Rows live in a
 transactional database, objects on a disk that is not; any effect may fail, any transaction may
 commit without its client hearing of it, any process may stop, and clients interleave freely.
 */
module UploadProtocol {
  import opened Outcomes
  import opened FileStorage
  import opened FileCapacity

  datatype Kind = Upload | Generate

  /** How far a client has come; `Opened` to `Cleared` lie inside its second transaction. */
  datatype Phase =
    | Created
    | Reserved
    | Written
    | Opened
    | Published
    | Cleared
    | Caught
    | ErasingPending
    | ErasingFinal
    | Dropping
    | Finished

  datatype Client = Client(kind: Kind, key: Key, data: Blob, phase: Phase)

  /** How far the reaper has come with a reservation whose row it holds locked. */
  datatype Reaping = Locked | PendingErased | FinalErased

  /** How a transaction ends: the client hears of the commit, or does not, or it is rolled back. */
  datatype Ending = Acknowledged | Unheard | RolledBack

  /** How a write ends: complete, failed and removed again, or failed with a part left on disk. */
  datatype Writing = Complete | Removed | Torn(part: Blob)

  /**
   The shared state. `expired` are the reservations past their time; the rest is history that only
   the statements look at: the owner of each key, what was committed under it, the reservations that
   ever expired, those whose object was written after that, and the released sessions that are charged
   again, each with how much.
   */
  datatype State = State(
    db: Db,
    disk: Disk,
    clients: map<Claim, Client>,
    expired: set<Claim>,
    reaping: map<Claim, Reaping>,
    owner: map<Key, Claim>,
    committed: map<Key, Blob>,
    overdue: set<Claim>,
    late: set<Claim>,
    reheld: map<SessionId, Row>)

  datatype Step =
    | Start(id: Claim, kind: Kind, key: Key, data: Blob)
    | Reserve(id: Claim, ending: Ending)
    | Write(id: Claim, writing: Writing)
    | Begin(id: Claim)
    | Publish(id: Claim)
    | ClearReplay(id: Claim)
    | Commit(id: Claim, ending: Ending)
    | Raise(id: Claim)
    | Lookup(id: Claim, heard: bool)
    | ErasePending(id: Claim, ok: bool)
    | EraseFinal(id: Claim, ok: bool)
    | Drop(id: Claim, ending: Ending)
    | Stop(id: Claim)
    | Expire(id: Claim)
    | ReapLock(id: Claim)
    | ReapPending(id: Claim)
    | ReapFinal(id: Claim)
    | ReapDelete(id: Claim)
    | ReapAbort(id: Claim, postponed: bool)
    | OpenSession(sid: SessionId, row: Row)
    | Materialize(sid: SessionId, key: Key, data: Blob)
    | Retire(sid: SessionId, key: Key)
    | RemoveAsset(key: Key)
    | Release(sid: SessionId)

  predicate OfReaper(step: Step) {
    step.ReapLock? || step.ReapPending? || step.ReapFinal? || step.ReapDelete? || step.ReapAbort?
  }

  predicate OfSession(step: Step) {
    step.OpenSession? || step.Materialize? || step.Retire? || step.RemoveAsset? || step.Release?
  }

  predicate HasRow(db: Db, key: Key) {
    key in db.files || key in db.documents
  }

  predicate InTransaction(p: Phase) {
    p == Opened || p == Published || p == Cleared
  }

  function RowOf(c: Client): Row {
    Row(c.key.organization, c.key, |c.data|)
  }

  function To(s: State, id: Claim, phase: Phase): State
    requires id in s.clients
  {
    s.(clients := s.clients[id := s.clients[id].(phase := phase)])
  }

  /** Keys are random: a fresh one is used nowhere. */
  predicate FreshKey(s: State, key: Key) {
    key.wellFormed && key !in s.owner && !HasRow(s.db, key) && Final(key) !in s.disk
  }

  /** The first transaction: under the global lock, admission and the reservation row. */
  ghost function AfterReserve(l: Limits, s: State, id: Claim, ending: Ending): Option<State>
    requires id in s.clients
  {
    var c := s.clients[id];
    if c.phase != Created then None
    else if ending == RolledBack then Some(To(s, id, Caught))
    else if AssertFileCapacity(s.db, l, c.key.organization, |c.data|, false).Raised?
        || id in s.db.reservations then None
    else
      var t := To(s, id, if ending == Acknowledged then Reserved else Caught);
      Some(t.(db := t.db.(reservations := t.db.reservations[id := RowOf(c)])))
  }

  /** `putStream` under the reservation's claim. */
  function AfterWrite(s: State, id: Claim, writing: Writing): Option<State>
    requires id in s.clients
  {
    var c := s.clients[id];
    var path := Pending(c.key, id);
    if c.phase != Reserved || path in s.disk then None
    else
      match writing
      case Removed => Some(To(s, id, Caught))
      case Complete => Some(Landed(To(s, id, Written), id, path, c.data))
      case Torn(part) => if part <= c.data then Some(Landed(To(s, id, Caught), id, path, part)) else None
  }

  function Landed(s: State, id: Claim, path: Path, data: Blob): State {
    s.(disk := s.disk[path := data], late := if id in s.overdue then s.late + {id} else s.late)
  }

  /** The second transaction begins: it locks its reservation, if that is still there and in time. */
  function AfterBegin(s: State, id: Claim): Option<State>
    requires id in s.clients
  {
    if s.clients[id].phase != Written || id in s.reaping then None
    else if id in s.db.reservations && id !in s.expired then Some(To(s, id, Opened))
    else Some(To(s, id, Caught))
  }

  function AfterPublish(s: State, id: Claim): Option<State>
    requires id in s.clients
  {
    var key := s.clients[id].key;
    if s.clients[id].phase != Opened || Pending(key, id) !in s.disk then None
    else Some(To(s, id, Published).(disk := Renamed(s.disk, key, id)))
  }

  /** An upload that turns out to be a replay removes its pending object instead. */
  function AfterClearReplay(s: State, id: Claim): Option<State>
    requires id in s.clients
  {
    if s.clients[id].phase != Opened || s.clients[id].kind != Upload then None
    else Some(To(s, id, Cleared).(disk := s.disk - {Pending(s.clients[id].key, id)}))
  }

  /** The rows after the second transaction: the reservation is gone, and a published object has a row. */
  function SettledDb(db: Db, id: Claim, c: Client): Db {
    var db := db.(reservations := db.reservations - {id});
    if c.phase == Cleared then db
    else if c.kind == Upload then db.(files := db.files[c.key := RowOf(c)])
    else db.(documents := db.documents[c.key := RowOf(c)])
  }

  function Settled(s: State, id: Claim): State
    requires id in s.clients
  {
    var c := s.clients[id];
    s.(db := SettledDb(s.db, id, c),
       committed := if c.phase == Cleared then s.committed else s.committed[c.key := c.data])
  }

  function AfterCommit(s: State, id: Claim, ending: Ending): Option<State>
    requires id in s.clients
  {
    var c := s.clients[id];
    if c.phase != Published && c.phase != Cleared then None
    else
      match ending
      case RolledBack => Some(To(s, id, Caught))
      case Acknowledged => Some(To(Settled(s, id), id, Finished))
      case Unheard => Some(To(Settled(s, id), id, Caught))
  }

  /** The failure path looks its reservation up; not finding it, or failing to, it touches nothing. */
  function AfterLookup(s: State, id: Claim, heard: bool): Option<State>
    requires id in s.clients
  {
    if s.clients[id].phase != Caught then None
    else Some(To(s, id, if heard && id in s.db.reservations then ErasingPending else Finished))
  }

  function AfterErasePending(s: State, id: Claim, ok: bool): Option<State>
    requires id in s.clients
  {
    if s.clients[id].phase != ErasingPending then None
    else if !ok then Some(To(s, id, Finished))
    else Some(To(s, id, ErasingFinal).(disk := s.disk - {Pending(s.clients[id].key, id)}))
  }

  function AfterEraseFinal(s: State, id: Claim, ok: bool): Option<State>
    requires id in s.clients
  {
    if s.clients[id].phase != ErasingFinal then None
    else if !ok then Some(To(s, id, Finished))
    else Some(To(s, id, Dropping).(disk := s.disk - {Final(s.clients[id].key)}))
  }

  /** Only then is the reservation dropped, so that what is left is still charged. */
  function AfterDrop(s: State, id: Claim, ending: Ending): Option<State>
    requires id in s.clients
  {
    if s.clients[id].phase != Dropping || id in s.reaping then None
    else if ending == RolledBack then Some(To(s, id, Finished))
    else Some(To(s, id, Finished).(db := s.db.(reservations := s.db.reservations - {id})))
  }

  /** Inside its second transaction, or before it, a client may raise for reasons of its own. */
  function AfterRaise(s: State, id: Claim): Option<State>
    requires id in s.clients
  {
    if s.clients[id].phase == Written || InTransaction(s.clients[id].phase) then Some(To(s, id, Caught)) else None
  }

  function AfterExpire(s: State, id: Claim): Option<State> {
    if id in s.db.reservations then Some(s.(expired := s.expired + {id}, overdue := s.overdue + {id})) else None
  }

  function AfterStart(s: State, id: Claim, kind: Kind, key: Key, data: Blob): Option<State> {
    if id in s.clients || id in s.db.reservations || !FreshKey(s, key) then None
    else Some(s.(clients := s.clients[id := Client(kind, key, data, Created)], owner := s.owner[key := id]))
  }

  /** One step of the reaper's transaction on an expired reservation. */
  function AfterReap(s: State, step: Step): Option<State>
    requires OfReaper(step)
  {
    var id := step.id;
    if id !in s.db.reservations then None
    else
      var key := s.db.reservations[id].key;
      match step
      case ReapLock(_) =>
        if id in s.reaping || id !in s.expired || (id in s.clients && InTransaction(s.clients[id].phase)) then None
        else Some(s.(reaping := s.reaping[id := Locked]))
      case ReapPending(_) =>
        if id !in s.reaping || s.reaping[id] != Locked || HasRow(s.db, key) then None
        else Some(s.(reaping := s.reaping[id := PendingErased], disk := s.disk - {Pending(key, id)}))
      case ReapFinal(_) =>
        if id !in s.reaping || s.reaping[id] != PendingErased then None
        else Some(s.(reaping := s.reaping[id := FinalErased], disk := s.disk - {Final(key)}))
      case ReapDelete(_) =>
        if id !in s.reaping || (s.reaping[id] != FinalErased && !HasRow(s.db, key)) then None
        else Some(s.(reaping := s.reaping - {id}, db := s.db.(reservations := s.db.reservations - {id})))
      case ReapAbort(_, postponed) =>
        if id !in s.reaping then None
        else Some(s.(reaping := s.reaping - {id}, expired := if postponed then s.expired - {id} else s.expired))
  }

  /**
   Staged uploads, as quantities: opened under admission, turned into a file, released. The file of an
   ended session is retired, which needs no admission, before its object is removed.
   */
  ghost function AfterSession(l: Limits, s: State, step: Step): Option<State>
    requires OfSession(step)
  {
    match step
    case OpenSession(sid, row) =>
      if sid in s.db.sessions || AssertFileCapacity(s.db, l, row.organization, row.size, true).Raised? then None
      else Some(s.(db := s.db.(sessions := s.db.sessions[sid := row], staged := s.db.staged[sid := row])))
    case Materialize(sid, key, data) =>
      if sid !in s.db.staged || !FreshKey(s, key) then None
      else
        Some(s.(disk := s.disk[Final(key) := data],
                committed := s.committed[key := data],
                db := WithFile(s.db, sid, key)))
    case Retire(sid, key) =>
      if sid !in s.db.filed || s.db.filed[sid].key != key then None
      else Some(s.(db := Retired(s.db, sid), reheld := Reheld(s, sid)))
    case RemoveAsset(key) =>
      if key !in s.db.retired then None else Some(s.(disk := s.disk - {Final(key)}))
    case Release(sid) =>
      Some(s.(db := Released(s.db, sid), reheld := s.reheld - {sid}))
  }

  /** What is charged again when the file of `sid` is retired: nothing while the staging is still held. */
  function Reheld(s: State, sid: SessionId): map<SessionId, Row>
    requires sid in s.db.filed
  {
    if sid in s.db.materialized then s.reheld
    else s.reheld[sid := s.db.filed[sid].(size := Held(s.db, sid))]
  }

  /** The state after a step, if the step can be taken. */
  ghost function After(l: Limits, s: State, step: Step): Option<State> {
    if OfSession(step) then AfterSession(l, s, step)
    else if OfReaper(step) then AfterReap(s, step)
    else if step.Expire? then AfterExpire(s, step.id)
    else if step.Start? then AfterStart(s, step.id, step.kind, step.key, step.data)
    else if step.id !in s.clients then None
    else
      match step
      case Reserve(id, ending) => AfterReserve(l, s, id, ending)
      case Write(id, writing) => AfterWrite(s, id, writing)
      case Begin(id) => AfterBegin(s, id)
      case Publish(id) => AfterPublish(s, id)
      case ClearReplay(id) => AfterClearReplay(s, id)
      case Commit(id, ending) => AfterCommit(s, id, ending)
      case Raise(id) => AfterRaise(s, id)
      case Lookup(id, heard) => AfterLookup(s, id, heard)
      case ErasePending(id, ok) => AfterErasePending(s, id, ok)
      case EraseFinal(id, ok) => AfterEraseFinal(s, id, ok)
      case Drop(id, ending) => AfterDrop(s, id, ending)
      case Stop(id) => Some(To(s, id, Finished))
  }

  ghost function Run(l: Limits, s: State, steps: seq<Step>): Option<State>
    decreases |steps|
  {
    if steps == [] then Some(s)
    else
      match After(l, s, steps[0])
      case None => None
      case Some(t) => Run(l, t, steps[1..])
  }

  /** The rows whose files were not retired have their objects, with what was committed. */
  ghost predicate RowsStand(s: State) {
    forall key :: HasRow(s.db, key) && key !in s.db.retired ==> RowStands(s, key)
  }

  predicate RowStands(s: State, key: Key) {
    Final(key) in s.disk && key in s.committed && s.disk[Final(key)] == s.committed[key]
  }

  /** Nobody at work, and every object on disk has its row. */
  ghost predicate Initial(l: Limits, s: State) {
    && s.clients == map[] && s.owner == map[] && s.reaping == map[] && s.expired == s.overdue == s.late == {}
    && s.db.reservations == map[] && Separate(s.db)
    && s.reheld == map[] && Filed(s.db)
    && (forall path :: path in s.disk ==> path.Final? && HasRow(s.db, path.key))
    && RowsStand(s)
    && s.db.staged.Keys <= s.db.sessions.Keys && Charges(l, s)
  }

  // ----- The invariant -----

  /** What holds of one client in every reachable state. */
  ghost predicate ClientOk(s: State, id: Claim)
    requires id in s.clients
  {
    var c := s.clients[id];
    var pending, final, row := Pending(c.key, id) in s.disk, Final(c.key) in s.disk, HasRow(s.db, c.key);
    && c.key in s.owner && s.owner[c.key] == id && c.key.wellFormed
    && (id in s.db.reservations ==> s.db.reservations[id] == RowOf(c) && !row)
    && (row ==> c.key in s.committed && s.committed[c.key] == c.data)
    && (pending ==> id in s.db.reservations || id in s.late)
    && (c.phase == Created ==> id !in s.db.reservations && !pending && !final && !row)
    && (c.phase == Reserved ==> !pending && !final && !row && (id in s.db.reservations || id in s.overdue))
    && (c.phase == Written || c.phase == Opened ==>
        !final && !row && (pending ==> s.disk[Pending(c.key, id)] == c.data))
    && (InTransaction(c.phase) ==> id in s.db.reservations && id !in s.reaping && !row)
    && (c.phase == Published ==> final && s.disk[Final(c.key)] == c.data)
    && (c.phase == Cleared ==> !final)
    && (c.phase == Published || c.phase == Cleared ==> !pending)
    && (c.phase == ErasingPending || c.phase == ErasingFinal || c.phase == Dropping ==> !row)
    && (c.phase == ErasingFinal || c.phase == Dropping ==> !pending)
    && (c.phase == Dropping ==> !final)
    && (id in s.reaping && s.reaping[id] != Locked ==> !pending || id in s.late)
    && (id in s.reaping && s.reaping[id] == FinalErased ==> !final)
  }

  ghost predicate ClientsOk(s: State) {
    forall id :: id in s.clients ==> ClientOk(s, id)
  }

  /** Every object on disk belongs to a client or to a row, and every row not retired has its object. */
  ghost predicate ObjectsOk(s: State) {
    && (forall key, id :: Pending(key, id) in s.disk ==> id in s.clients && s.clients[id].key == key)
    && (forall key :: Final(key) in s.disk ==>
        HasRow(s.db, key) || (key in s.owner && s.owner[key] in s.db.reservations))
    && RowsStand(s)
  }

  ghost predicate TablesOk(s: State) {
    && s.db.reservations.Keys <= s.clients.Keys
    && s.reaping.Keys <= s.db.reservations.Keys
    && s.reaping.Keys <= s.overdue
    && s.expired <= s.overdue
    && (forall key :: key in s.owner ==> s.owner[key] in s.clients && s.clients[s.owner[key]].key == key)
    && Separate(s.db)
  }

  /** Sessions and clients share no keys, and what is charged again is a retired file's session. */
  ghost predicate SessionsOk(s: State) {
    && Filed(s.db)
    && s.db.staged.Keys <= s.db.sessions.Keys
    && (forall sid :: sid in s.db.filed ==> s.db.filed[sid].key !in s.owner)
    && s.db.retired !! s.owner.Keys
    && (forall sid :: sid in s.reheld ==> ReheldOk(s, sid))
  }

  predicate ReheldOk(s: State, sid: SessionId)
    requires sid in s.reheld
  {
    && sid in s.db.materialized && sid in s.db.filed
    && s.db.filed[sid].key in s.db.retired
    && s.reheld[sid].organization == s.db.filed[sid].organization
    && s.reheld[sid].size <= Held(s.db, sid)
  }

  /** The bytes charged stay within the limits, except for what sessions are charged again. */
  ghost predicate Charges(l: Limits, s: State) {
    && (forall who :: Charged(s.db, who) <= Limit(l, who) + Bytes(s.reheld, who))
    && (s.db.sessions == map[] ==> WithinRows(s.db, l))
  }

  ghost predicate Inv(l: Limits, s: State) {
    Sound(s) && Charges(l, s)
  }

  lemma InitialInv(l: Limits, s: State)
    requires Initial(l, s)
    ensures Inv(l, s)
  {
  }

  /** `t` differs from `s` only in what belongs to the client `id`. */
  ghost predicate Local(s: State, t: State, id: Claim)
    requires id in s.clients
  {
    && LocalClients(s, t, id)
    && LocalDb(s.db, t.db, s.clients[id].key, id)
    && LocalDisk(s.disk, t.disk, s.clients[id].key, id)
  }

  ghost predicate LocalClients(s: State, t: State, id: Claim)
    requires id in s.clients
  {
    var key := s.clients[id].key;
    && t.clients.Keys == s.clients.Keys
    && t.clients[id].key == key
    && (forall i :: i in s.clients && i != id ==> t.clients[i] == s.clients[i])
    && t.owner == s.owner && t.reheld == s.reheld
    && (forall i :: i != id ==>
        (i in t.reaping <==> i in s.reaping) && (i in s.reaping ==> t.reaping[i] == s.reaping[i]))
    && (forall i :: i != id ==> (i in t.expired <==> i in s.expired) && (i in t.overdue <==> i in s.overdue))
    && (forall i :: i != id ==> (i in t.late <==> i in s.late))
    && (forall k :: k != key ==>
        (k in t.committed <==> k in s.committed) && (k in s.committed ==> t.committed[k] == s.committed[k]))
  }

  ghost predicate LocalDb(s: Db, t: Db, key: Key, id: Claim) {
    LocalReservations(s, t, id) && LocalRows(s, t, key) && LocalSessions(s, t)
  }

  ghost predicate LocalSessions(s: Db, t: Db) {
    && t.sessions == s.sessions && t.staged == s.staged && t.materialized == s.materialized
    && t.filed == s.filed && t.retired == s.retired
  }

  ghost predicate LocalReservations(s: Db, t: Db, id: Claim) {
    forall i :: i != id ==> (i in t.reservations <==> i in s.reservations)
                            && (i in s.reservations ==> t.reservations[i] == s.reservations[i])
  }

  ghost predicate LocalRows(s: Db, t: Db, key: Key) {
    forall k :: k != key ==> (k in t.files <==> k in s.files) && (k in t.documents <==> k in s.documents)
                             && (k in s.files ==> t.files[k] == s.files[k])
  }

  ghost predicate LocalDisk(s: Disk, t: Disk, key: Key, id: Claim) {
    forall path :: path != Pending(key, id) && path != Final(key) ==>
      (path in t <==> path in s) && (path in s ==> t[path] == s[path])
  }

  /** What the client `id`, its objects and its rows must satisfy. */
  ghost predicate OwnOk(t: State, id: Claim)
    requires id in t.clients
  {
    var key := t.clients[id].key;
    && ClientOk(t, id)
    && (Final(key) in t.disk ==> HasRow(t.db, key) || id in t.db.reservations)
    && (HasRow(t.db, key) ==> RowStands(t, key))
    && (id in t.reaping ==> id in t.db.reservations && id in t.overdue)
    && (id in t.expired ==> id in t.overdue)
    && !(key in t.db.files && key in t.db.documents)
  }

  ghost predicate Sound(s: State) {
    ClientsOk(s) && ObjectsOk(s) && TablesOk(s) && SessionsOk(s)
  }

  /** A local change that leaves its own client in order leaves all in order: keys are not shared. */
  lemma LocalKeeps(s: State, t: State, id: Claim)
    requires Sound(s) && id in s.clients && Local(s, t, id) && OwnOk(t, id)
    ensures Sound(t)
  {
    forall i | i in t.clients
      ensures ClientOk(t, i)
    {
      if i != id {
        LocalOther(s, t, id, i);
      }
    }
    hide ClientOk, ClientsOk;
    LocalSessionsKeep(s, t, id);
    LocalTables(s, t, id);
    LocalObjects(s, t, id);
    hide Local, OwnOk, ObjectsOk, TablesOk, SessionsOk;
  }

  lemma LocalSessionsKeep(s: State, t: State, id: Claim)
    requires SessionsOk(s) && id in s.clients && Local(s, t, id)
    requires s.clients[id].key in s.owner
    ensures SessionsOk(t)
  {
    hide LocalReservations, LocalDisk;
  }

  lemma LocalOther(s: State, t: State, id: Claim, i: Claim)
    requires id in s.clients && i in s.clients && i != id && ClientOk(s, i) && Local(s, t, id)
    requires s.clients[id].key in s.owner && s.owner[s.clients[id].key] == id
    ensures i in t.clients && ClientOk(t, i)
  {
    assert s.clients[i].key != s.clients[id].key;
  }

  lemma LocalTables(s: State, t: State, id: Claim)
    requires TablesOk(s) && id in s.clients && Local(s, t, id) && OwnOk(t, id)
    ensures TablesOk(t)
  {
    hide ClientOk;
  }

  lemma LocalObjects(s: State, t: State, id: Claim)
    requires ObjectsOk(s) && TablesOk(s) && id in s.clients && Local(s, t, id) && OwnOk(t, id)
    requires s.clients[id].key in s.owner && s.owner[s.clients[id].key] == id
    ensures ObjectsOk(t)
  {
    hide ClientOk;
    forall k, i | Pending(k, i) in t.disk
      ensures i in t.clients && t.clients[i].key == k
    {
      assert Pending(k, i) in s.disk || k == s.clients[id].key;
    }
    forall k | k != s.clients[id].key
      ensures Final(k) in t.disk ==> HasRow(t.db, k) || (k in t.owner && t.owner[k] in t.db.reservations)
      ensures HasRow(t.db, k) && k !in t.db.retired ==> RowStands(t, k)
    {
      LocalObject(s, t, id, k);
    }
    hide Local;
    LocalKeepsKey(s, t, id);
  }

  lemma LocalKeepsKey(s: State, t: State, id: Claim)
    requires id in s.clients && Local(s, t, id)
    ensures id in t.clients && t.clients[id].key == s.clients[id].key && t.owner == s.owner
  {
  }

  lemma LocalObject(s: State, t: State, id: Claim, k: Key)
    requires ObjectsOk(s) && TablesOk(s) && id in s.clients && Local(s, t, id) && k != s.clients[id].key
    ensures Final(k) in t.disk ==> HasRow(t.db, k) || (k in t.owner && t.owner[k] in t.db.reservations)
    ensures HasRow(t.db, k) && k !in t.db.retired ==> RowStands(t, k)
  {
    assert HasRow(t.db, k) == HasRow(s.db, k);
    assert Final(k) in t.disk <==> Final(k) in s.disk;
  }

  lemma SoundOwn(s: State, id: Claim)
    requires Sound(s) && id in s.clients
    ensures OwnOk(s, id)
  {
    assert ClientOk(s, id);
  }

  lemma ReserveFrame(l: Limits, s: State, id: Claim, ending: Ending)
    requires id in s.clients && AfterReserve(l, s, id, ending).Some?
    ensures Local(s, AfterReserve(l, s, id, ending).value, id)
  {
    hide AssertFileCapacity, RowOf;
  }

  lemma ReserveLocal(l: Limits, s: State, id: Claim, ending: Ending)
    requires id in s.clients && OwnOk(s, id) && AfterReserve(l, s, id, ending).Some?
    ensures var t := AfterReserve(l, s, id, ending).value; Local(s, t, id) && OwnOk(t, id)
  {
    ReserveFrame(l, s, id, ending);
    hide AssertFileCapacity, LocalDb, LocalDisk;
  }

  /** A change of phase and of what is on disk under the client's own paths. */
  lemma DiskFrame(s: State, t: State, id: Claim, phase: Phase)
    requires id in s.clients && LocalDisk(s.disk, t.disk, s.clients[id].key, id)
    requires t == To(s, id, phase).(disk := t.disk, late := t.late) && (t.late == s.late || t.late == s.late + {id})
    ensures Local(s, t, id)
  {
    hide LocalDisk;
  }

  lemma WriteLocal(s: State, id: Claim, writing: Writing)
    requires id in s.clients && OwnOk(s, id) && AfterWrite(s, id, writing).Some?
    ensures var t := AfterWrite(s, id, writing).value; Local(s, t, id) && OwnOk(t, id)
  {
    var t := AfterWrite(s, id, writing).value;
    DiskFrame(s, t, id, t.clients[id].phase);
    hide Local;
  }

  lemma PublishLocal(s: State, id: Claim, t: State)
    requires id in s.clients && OwnOk(s, id) && AfterPublish(s, id) == Some(t)
    ensures Local(s, t, id) && OwnOk(t, id)
  {
  }

  lemma ClearReplayLocal(s: State, id: Claim, t: State)
    requires id in s.clients && OwnOk(s, id) && AfterClearReplay(s, id) == Some(t)
    ensures Local(s, t, id) && OwnOk(t, id)
  {
  }

  /** The moves from one phase to another that need nothing done to rows or objects. */
  lemma PhaseOwn(s: State, id: Claim, phase: Phase)
    requires id in s.clients && OwnOk(s, id)
    requires || phase == Caught
             || phase == Finished
             || (phase == Opened && s.clients[id].phase == Written && id in s.db.reservations && id !in s.reaping)
             || (phase == ErasingPending && id in s.db.reservations)
    ensures OwnOk(To(s, id, phase), id)
  {
  }

  lemma PhaseLocal(s: State, id: Claim, t: State, heard: bool)
    requires id in s.clients && OwnOk(s, id)
    requires || AfterBegin(s, id) == Some(t) || AfterRaise(s, id) == Some(t) || AfterLookup(s, id, heard) == Some(t)
             || t == To(s, id, Finished)
    ensures Local(s, t, id) && OwnOk(t, id)
  {
    var phase := t.clients[id].phase;
    assert t == To(s, id, phase);
    hide Local, OwnOk, To;
    PhaseOwn(s, id, phase);
    ToFrame(s, id, phase);
  }

  lemma ExpireLocal(s: State, id: Claim, t: State)
    requires id in s.clients && OwnOk(s, id) && AfterExpire(s, id) == Some(t)
    ensures Local(s, t, id) && OwnOk(t, id)
  {
  }

  lemma ErasePendingLocal(s: State, id: Claim, ok: bool, t: State)
    requires id in s.clients && OwnOk(s, id) && AfterErasePending(s, id, ok) == Some(t)
    ensures Local(s, t, id) && OwnOk(t, id)
  {
    DiskFrame(s, t, id, t.clients[id].phase);
    hide Local;
  }

  lemma EraseFinalLocal(s: State, id: Claim, ok: bool, t: State)
    requires id in s.clients && OwnOk(s, id) && AfterEraseFinal(s, id, ok) == Some(t)
    ensures Local(s, t, id) && OwnOk(t, id)
  {
    DiskFrame(s, t, id, t.clients[id].phase);
    hide Local;
  }

  lemma DropLocal(s: State, id: Claim, ending: Ending, t: State)
    requires id in s.clients && OwnOk(s, id) && AfterDrop(s, id, ending) == Some(t)
    ensures Local(s, t, id) && OwnOk(t, id)
  {
  }

  lemma ToFrame(s: State, id: Claim, phase: Phase)
    requires id in s.clients
    ensures Local(s, To(s, id, phase), id)
  {
  }

  lemma SettledRows(db: Db, id: Claim, c: Client)
    ensures LocalRows(db, SettledDb(db, id, c), c.key)
  {
    RowInserted(db.files, c.key, RowOf(c));
    RowInserted(db.documents, c.key, RowOf(c));
    hide RowOf;
  }

  lemma RowInserted(table: map<Key, Row>, key: Key, row: Row)
    ensures forall k :: k != key ==>
            (k in table[key := row] <==> k in table) && (k in table ==> table[key := row][k] == table[k])
  {
  }

  lemma SettledReservations(db: Db, id: Claim, c: Client)
    ensures LocalReservations(db, SettledDb(db, id, c), id)
  {
    hide RowOf;
    ReservationsWithout(db, id);
  }

  lemma ReservationsWithout(db: Db, id: Claim)
    ensures LocalReservations(db, db.(reservations := db.reservations - {id}), id)
  {
  }

  lemma SettledSessions(db: Db, id: Claim, c: Client)
    ensures LocalSessions(db, SettledDb(db, id, c))
  {
    hide RowOf;
    if c.phase != Cleared && c.kind == Upload {
    } else if c.phase != Cleared {
    }
  }

  lemma SettledDbFrame(db: Db, id: Claim, c: Client)
    ensures LocalDb(db, SettledDb(db, id, c), c.key, id)
  {
    hide SettledDb, LocalRows, LocalReservations, LocalSessions;
    SettledSessions(db, id, c);
    SettledRows(db, id, c);
    SettledReservations(db, id, c);
  }

  lemma SettledFrame(s: State, id: Claim)
    requires id in s.clients
    ensures Local(s, Settled(s, id), id)
  {
    hide LocalDb, SettledDb;
    SettledDbFrame(s.db, id, s.clients[id]);
  }

  lemma LocalTrans(s: State, t: State, u: State, id: Claim)
    requires id in s.clients && id in t.clients && Local(s, t, id) && Local(t, u, id)
    ensures Local(s, u, id)
  {
  }

  lemma CommitFrame(s: State, id: Claim, ending: Ending)
    requires id in s.clients && AfterCommit(s, id, ending).Some?
    ensures Local(s, AfterCommit(s, id, ending).value, id)
  {
    hide Local, To, Settled;
    if ending == RolledBack {
      ToFrame(s, id, Caught);
    } else {
      var settled, phase := Settled(s, id), if ending == Acknowledged then Finished else Caught;
      SettledFrame(s, id);
      SettledClients(s, id);
      ToFrame(settled, id, phase);
      LocalTrans(s, settled, To(settled, id, phase), id);
    }
  }

  lemma SettledClients(s: State, id: Claim)
    requires id in s.clients
    ensures Settled(s, id).clients == s.clients
  {
  }

  /** A commit that settles a published object leaves its client with a row and no reservation. */
  lemma PublishedOwn(s: State, id: Claim, phase: Phase)
    requires id in s.clients && OwnOk(s, id) && s.clients[id].phase == Published
    requires phase == Finished || phase == Caught
    ensures var t := Settled(s, id); id in t.clients && OwnOk(To(t, id, phase), id)
  {
  }

  /** A commit that settles a replay leaves its client with nothing. */
  lemma ClearedOwn(s: State, id: Claim, phase: Phase)
    requires id in s.clients && OwnOk(s, id) && s.clients[id].phase == Cleared
    requires phase == Finished || phase == Caught
    ensures var t := Settled(s, id); id in t.clients && OwnOk(To(t, id, phase), id)
  {
  }

  lemma CommitLocal(s: State, id: Claim, ending: Ending, t: State)
    requires id in s.clients && OwnOk(s, id) && AfterCommit(s, id, ending) == Some(t)
    ensures Local(s, t, id) && OwnOk(t, id)
  {
    CommitFrame(s, id, ending);
    hide Local, Settled, OwnOk, To;
    var phase := if ending == Acknowledged then Finished else Caught;
    if ending == RolledBack {
      PhaseOwn(s, id, Caught);
    } else if s.clients[id].phase == Published {
      PublishedOwn(s, id, phase);
    } else {
      ClearedOwn(s, id, phase);
    }
  }

  lemma ReapLocal(s: State, step: Step)
    requires OfReaper(step)
    requires step.id in s.clients && OwnOk(s, step.id) && AfterReap(s, step).Some?
    ensures var t := AfterReap(s, step).value; Local(s, t, step.id) && OwnOk(t, step.id)
  {
  }

  /** What happens to sessions and their objects touches no client. */
  lemma SessionClients(l: Limits, s: State, step: Step)
    requires OfSession(step) && ClientsOk(s) && SessionsOk(s) && AfterSession(l, s, step).Some?
    ensures ClientsOk(AfterSession(l, s, step).value)
  {
    var t := AfterSession(l, s, step).value;
    forall id | id in t.clients
      ensures ClientOk(t, id)
    {
      assert ClientOk(s, id);
      SessionOther(l, s, step, id);
    }
  }

  lemma SessionOther(l: Limits, s: State, step: Step, id: Claim)
    requires OfSession(step) && SessionsOk(s) && AfterSession(l, s, step).Some? && id in s.clients && ClientOk(s, id)
    ensures ClientOk(AfterSession(l, s, step).value, id)
  {
    hide AssertFileCapacity, Filed;
  }

  /** A change of the session tables alone. */
  ghost predicate SessionsOnly(s: State, t: State) {
    && t == s.(db := t.db, reheld := t.reheld)
    && t.db == s.db.(sessions := t.db.sessions, staged := t.db.staged, materialized := t.db.materialized,
        retired := t.db.retired)
    && s.db.retired <= t.db.retired
  }

  lemma SessionsOnlyKeep(s: State, t: State)
    requires ObjectsOk(s) && TablesOk(s) && SessionsOnly(s, t)
    ensures ObjectsOk(t) && TablesOk(t)
  {
  }

  lemma MaterializeObjects(s: State, t: State, sid: SessionId, key: Key, data: Blob)
    requires ObjectsOk(s) && TablesOk(s) && sid in s.db.staged && FreshKey(s, key)
    requires t == s.(disk := s.disk[Final(key) := data], committed := s.committed[key := data],
             db := WithFile(s.db, sid, key))
    ensures ObjectsOk(t) && TablesOk(t)
  {
    forall k | k != key
      ensures HasRow(t.db, k) == HasRow(s.db, k) && RowStands(t, k) == RowStands(s, k)
              && (Final(k) in t.disk <==> Final(k) in s.disk)
    {
    }
  }

  lemma RemoveAssetObjects(s: State, t: State, key: Key)
    requires ObjectsOk(s) && TablesOk(s) && key in s.db.retired && t == s.(disk := s.disk - {Final(key)})
    ensures ObjectsOk(t) && TablesOk(t)
  {
  }

  lemma SessionObjects(l: Limits, s: State, step: Step)
    requires OfSession(step) && ObjectsOk(s) && TablesOk(s) && SessionsOk(s) && AfterSession(l, s, step).Some?
    ensures ObjectsOk(AfterSession(l, s, step).value) && TablesOk(AfterSession(l, s, step).value)
  {
    var t := AfterSession(l, s, step).value;
    hide ObjectsOk, TablesOk, SessionsOk, AssertFileCapacity, FreshKey;
    match step {
      case Materialize(sid, key, data) => MaterializeObjects(s, t, sid, key, data);
      case RemoveAsset(key) => RemoveAssetObjects(s, t, key);
      case OpenSession(_, _) => SessionsOnlyKeep(s, t);
      case Retire(_, _) => SessionsOnlyKeep(s, t);
      case Release(_) => SessionsOnlyKeep(s, t);
    }
  }

  lemma OpenSessions(s: State, sid: SessionId, row: Row)
    requires SessionsOk(s) && sid !in s.db.sessions
    ensures SessionsOk(s.(db := s.db.(sessions := s.db.sessions[sid := row], staged := s.db.staged[sid := row])))
  {
  }

  lemma MaterializeSessions(l: Limits, s: State, step: Step)
    requires step.Materialize? && SessionsOk(s) && AfterSession(l, s, step).Some?
    ensures SessionsOk(AfterSession(l, s, step).value)
  {
    WithFileFiled(s.db, step.sid, step.key);
    assert step.sid !in s.db.filed && forall sid :: sid in s.reheld ==> ReheldOk(s, sid);
    hide Filed;
  }

  lemma RetireReheld(s: State, sid: SessionId, x: SessionId)
    requires sid in s.db.filed && x in Reheld(s, sid) && (x in s.reheld ==> ReheldOk(s, x))
    ensures ReheldOk(s.(db := Retired(s.db, sid), reheld := Reheld(s, sid)), x)
  {
  }

  lemma RetireSessions(s: State, sid: SessionId)
    requires SessionsOk(s) && sid in s.db.filed
    ensures SessionsOk(s.(db := Retired(s.db, sid), reheld := Reheld(s, sid)))
  {
    RetiredFiled(s.db, sid);
    forall x | x in Reheld(s, sid) {
      RetireReheld(s, sid, x);
    }
    hide ReheldOk, Filed, Reheld;
  }

  lemma ReleaseSessions(s: State, sid: SessionId)
    requires SessionsOk(s)
    ensures SessionsOk(s.(db := Released(s.db, sid), reheld := s.reheld - {sid}))
  {
    assert forall x :: x in s.reheld ==> ReheldOk(s, x);
  }

  lemma SessionSessions(l: Limits, s: State, step: Step)
    requires OfSession(step) && SessionsOk(s) && AfterSession(l, s, step).Some?
    ensures SessionsOk(AfterSession(l, s, step).value)
  {
    hide SessionsOk, AssertFileCapacity, FreshKey;
    match step {
      case OpenSession(sid, row) => OpenSessions(s, sid, row);
      case Materialize(_, _, _) => MaterializeSessions(l, s, step);
      case Retire(sid, _) => RetireSessions(s, sid);
      case RemoveAsset(key) => SameSessions(s, s.(disk := s.disk - {Final(key)}));
      case Release(sid) => ReleaseSessions(s, sid);
    }
  }

  lemma SameSessions(s: State, t: State)
    requires SessionsOk(s) && t.db == s.db && t.owner == s.owner && t.reheld == s.reheld
    ensures SessionsOk(t)
  {
    assert forall x :: x in s.reheld ==> ReheldOk(s, x);
  }

  lemma SessionKeeps(l: Limits, s: State, step: Step)
    requires OfSession(step) && Sound(s) && AfterSession(l, s, step).Some?
    ensures Sound(AfterSession(l, s, step).value)
  {
    hide AfterSession, ClientsOk, ObjectsOk, TablesOk, SessionsOk;
    SessionClients(l, s, step);
    SessionObjects(l, s, step);
    SessionSessions(l, s, step);
  }

  lemma StartOther(s: State, id: Claim, kind: Kind, key: Key, data: Blob, i: Claim)
    requires AfterStart(s, id, kind, key, data).Some? && i in s.clients && ClientOk(s, i)
    ensures ClientOk(AfterStart(s, id, kind, key, data).value, i)
  {
  }

  lemma StartObjects(s: State, id: Claim, kind: Kind, key: Key, data: Blob)
    requires ObjectsOk(s) && TablesOk(s) && AfterStart(s, id, kind, key, data).Some?
    ensures ObjectsOk(AfterStart(s, id, kind, key, data).value) && TablesOk(AfterStart(s, id, kind, key, data).value)
  {
  }

  lemma StartKeeps(s: State, id: Claim, kind: Kind, key: Key, data: Blob)
    requires Sound(s) && AfterStart(s, id, kind, key, data).Some?
    ensures Sound(AfterStart(s, id, kind, key, data).value)
  {
    var t := AfterStart(s, id, kind, key, data).value;
    StartObjects(s, id, kind, key, data);
    forall i | i in t.clients
      ensures ClientOk(t, i)
    {
      if i in s.clients {
        StartOther(s, id, kind, key, data, i);
      } else {
        StartOwn(s, id, kind, key, data);
      }
    }
    hide ClientOk, ObjectsOk, TablesOk;
  }

  lemma StartOwn(s: State, id: Claim, kind: Kind, key: Key, data: Blob)
    requires Sound(s) && AfterStart(s, id, kind, key, data).Some?
    ensures var t := AfterStart(s, id, kind, key, data).value; id in t.clients && ClientOk(t, id)
  {
    hide ClientsOk;
  }

  lemma StepKeepsSound(l: Limits, s: State, step: Step)
    requires Sound(s) && After(l, s, step).Some?
    ensures Sound(After(l, s, step).value)
  {
    var t := After(l, s, step).value;
    if OfSession(step) {
      hide AfterSession, Sound;
      SessionKeeps(l, s, step);
    } else if step.Start? {
      hide AfterStart, Sound;
      StartKeeps(s, step.id, step.kind, step.key, step.data);
    } else {
      hide After, Sound, OwnOk, Local;
      StepOwner(l, s, step);
      StepLocal(l, s, step);
      LocalKeeps(s, t, step.id);
    }
  }

  lemma StepLocal(l: Limits, s: State, step: Step)
    requires !OfSession(step) && !step.Start?
    requires After(l, s, step).Some? && step.id in s.clients && OwnOk(s, step.id)
    ensures Local(s, After(l, s, step).value, step.id) && OwnOk(After(l, s, step).value, step.id)
  {
    hide AfterReserve, AfterWrite, AfterBegin, AfterPublish, AfterClearReplay, AfterCommit, AfterReap, AfterSession,
      AfterLookup, AfterErasePending, AfterEraseFinal, AfterDrop, AfterRaise, AfterExpire, AfterStart, Local, OwnOk, To;
    var t := After(l, s, step).value;
    match step {
      case Reserve(id, ending) => ReserveLocal(l, s, id, ending);
      case Write(id, writing) => WriteLocal(s, id, writing);
      case Begin(id) => PhaseLocal(s, id, t, true);
      case Raise(id) => PhaseLocal(s, id, t, true);
      case Lookup(id, heard) => PhaseLocal(s, id, t, heard);
      case Stop(id) => PhaseLocal(s, id, t, true);
      case Publish(id) => PublishLocal(s, id, t);
      case ClearReplay(id) => ClearReplayLocal(s, id, t);
      case Commit(id, ending) => CommitLocal(s, id, ending, t);
      case Expire(id) => ExpireLocal(s, id, t);
      case ErasePending(id, ok) => ErasePendingLocal(s, id, ok, t);
      case EraseFinal(id, ok) => EraseFinalLocal(s, id, ok, t);
      case Drop(id, ending) => DropLocal(s, id, ending, t);
      case ReapLock(_) => ReapLocal(s, step);
      case ReapPending(_) => ReapLocal(s, step);
      case ReapFinal(_) => ReapLocal(s, step);
      case ReapDelete(_) => ReapLocal(s, step);
      case ReapAbort(_, _) => ReapLocal(s, step);
    }
  }

  /** A step of a client or of the reaper concerns a known client, which is in order. */
  lemma StepOwner(l: Limits, s: State, step: Step)
    requires !OfSession(step) && !step.Start?
    requires Sound(s) && After(l, s, step).Some?
    ensures step.id in s.clients && OwnOk(s, step.id)
  {
    hide AfterReserve, AfterWrite, AfterBegin, AfterPublish, AfterClearReplay, AfterCommit,
      AfterLookup, AfterErasePending, AfterEraseFinal, AfterDrop, AfterRaise, To;
    SoundOwn(s, step.id);
  }

  // ----- Charges -----

  /** Each sum of bytes shrinks or is within its limit, and so do the rows while there are no sessions. */
  ghost predicate Bounded(l: Limits, db: Db, after: Db) {
    && (forall who :: Charged(after, who) <= Charged(db, who) || Charged(after, who) <= Limit(l, who))
    && db.sessions.Keys <= after.sessions.Keys
    && (after.sessions == map[] ==>
          forall who :: ObjectRows(after, who) <= ObjectRows(db, who)
              || ObjectRows(after, who) <= Limit(l, who) / OBJECT_BYTES)
  }

  /** An admitted charge to one organization keeps every limit. */
  lemma AdmittedBounded(l: Limits, db: Db, after: Db, organization: Organization, size: nat, staging: bool)
    requires AssertFileCapacity(db, l, organization, size, staging).Done?
    requires forall who: Who :: Charged(after, who) <= Charged(db, who)
               + if who.Everybody? || who.organization == organization then size * (if staging then 3 else 1) else 0
    requires db.sessions.Keys <= after.sessions.Keys
    requires after.sessions == map[] ==> !staging
    requires after.sessions == map[] ==>
               (forall who: Who :: ObjectRows(after, who) <= ObjectRows(db, who)
                  + if who.Everybody? || who.organization == organization then 1 else 0)
    ensures Bounded(l, db, after)
  {
    hide Charged, ObjectRows;
  }

  lemma ReserveCharges(l: Limits, s: State, id: Claim, ending: Ending)
    requires id in s.clients && AfterReserve(l, s, id, ending).Some?
    ensures Bounded(l, s.db, AfterReserve(l, s, id, ending).value.db)
  {
    hide Charged, ObjectRows, AssertFileCapacity;
    var t := AfterReserve(l, s, id, ending).value;
    if t.db != s.db {
      var c := s.clients[id];
      forall who: Who {
        ChargeReservation(s.db, id, RowOf(c), who);
      }
      AdmittedBounded(l, s.db, t.db, c.key.organization, |c.data|, false);
    }
  }

  lemma CommitCharges(l: Limits, s: State, id: Claim, ending: Ending)
    requires Sound(s) && id in s.clients && AfterCommit(s, id, ending).Some?
    ensures Bounded(l, s.db, AfterCommit(s, id, ending).value.db)
  {
    var t := AfterCommit(s, id, ending).value;
    if t.db != s.db {
      var c := s.clients[id];
      assert ClientOk(s, id);
      assert t.db == SettledDb(s.db, id, c) && Separate(s.db) && Filed(s.db);
      hide Charged, ObjectRows, Sound, ClientOk, Filed;
      forall who
        ensures Charged(t.db, who) <= Charged(s.db, who) && ObjectRows(t.db, who) <= ObjectRows(s.db, who)
      {
        if c.phase == Cleared {
          DropReservation(s.db, id, who);
        } else if c.kind == Upload {
          ReservationToFile(s.db, id, who);
        } else {
          ReservationToDocument(s.db, id, who);
        }
      }
    }
  }

  lemma DropCharges(l: Limits, db: Db, id: Claim)
    ensures Bounded(l, db, db.(reservations := db.reservations - {id}))
  {
    hide Charged, ObjectRows;
    if id in db.reservations {
      forall who {
        DropReservation(db, id, who);
      }
    } else {
      assert db.reservations - {id} == db.reservations;
    }
  }

  lemma SessionCharges(l: Limits, s: State, step: Step)
    requires OfSession(step) && !step.Retire?
    requires Sound(s) && AfterSession(l, s, step).Some?
    ensures Bounded(l, s.db, AfterSession(l, s, step).value.db)
  {
    var t := AfterSession(l, s, step).value;
    assert Separate(s.db) && Filed(s.db) && s.db.staged.Keys <= s.db.sessions.Keys;
    hide Charged, ObjectRows, AssertFileCapacity, Sound, Filed, Separate;
    match step {
      case OpenSession(sid, row) =>
        assert sid !in s.db.staged && sid in t.db.sessions;
        forall who {
          ChargeSession(s.db, sid, row, who);
        }
        AdmittedBounded(l, s.db, t.db, row.organization, row.size, true);
      case Materialize(sid, key, _) =>
        assert sid in s.db.sessions;
        forall who {
          SessionToFile(s.db, sid, key, who);
        }
      case RemoveAsset(_) =>
      case Release(sid) =>
        forall who
          ensures Charged(t.db, who) <= Charged(s.db, who) && ObjectRows(t.db, who) == ObjectRows(s.db, who)
        {
          ReleaseSession(s.db, sid, who);
          SessionsUncounted(s.db, t.db, who);
        }
    }
  }

  lemma SessionsUncounted(db: Db, after: Db, who: Who)
    requires after == db.(staged := after.staged, materialized := after.materialized, retired := after.retired)
    ensures ObjectRows(after, who) == ObjectRows(db, who)
  {
  }

  /** Every step but the retiring of a file lets no sum grow past its limit. */
  lemma StepBounded(l: Limits, s: State, step: Step)
    requires Sound(s) && After(l, s, step).Some? && !step.Retire?
    ensures Bounded(l, s.db, After(l, s, step).value.db)
  {
    hide Bounded, Sound, AssertFileCapacity, AfterReserve, AfterCommit, AfterSession, AfterDrop, AfterReap;
    match step {
      case Reserve(id, ending) => ReserveCharges(l, s, id, ending);
      case Commit(id, ending) => CommitCharges(l, s, id, ending);
      case OpenSession(_, _) => SessionCharges(l, s, step);
      case Materialize(_, _, _) => SessionCharges(l, s, step);
      case RemoveAsset(_) => SessionCharges(l, s, step);
      case Release(_) => SessionCharges(l, s, step);
      case _ => ShrinkCharges(l, s, step);
    }
  }

  lemma ShrinkCharges(l: Limits, s: State, step: Step)
    requires Shrinks(step) && After(l, s, step).Some?
    ensures Bounded(l, s.db, After(l, s, step).value.db)
  {
    ReservationsShrink(l, s, step);
    DropCharges(l, s.db, step.id);
    SameBounded(l, s.db);
    hide After, Bounded;
  }

  lemma SameBounded(l: Limits, db: Db)
    ensures Bounded(l, db, db)
  {
  }

  predicate Shrinks(s: Step) {
    !s.Reserve? && !s.Commit? && !OfSession(s)
  }

  /** The other steps leave the tables alone, or drop one reservation. */
  lemma ReservationsShrink(l: Limits, s: State, step: Step)
    requires Shrinks(step) && After(l, s, step).Some?
    ensures Shrunk(s, After(l, s, step).value, step.id)
  {
    if OfReaper(step) || step.Start? || step.Expire? {
      hide After, Shrunk;
      ReapShrinks(l, s, step);
    } else {
      hide After;
      OwnShrinks(l, s, step);
    }
  }

  lemma OwnShrinks(l: Limits, s: State, step: Step)
    requires Shrinks(step) && !OfReaper(step) && !step.Start? && !step.Expire? && After(l, s, step).Some?
    ensures Stepped(s, After(l, s, step).value, step.id)
  {
    hide AfterReserve, AfterWrite, AfterBegin, AfterPublish, AfterClearReplay, AfterCommit, AfterReap, AfterSession,
      AfterLookup, AfterErasePending, AfterEraseFinal, AfterDrop, AfterRaise, AfterExpire, AfterStart, Stepped, To;
    match step {
      case Write(id, writing) => WriteShrinks(s, id, writing);
      case Begin(id) => PhaseShrinks(s, id, true);
      case Raise(id) => PhaseShrinks(s, id, true);
      case Lookup(id, heard) => PhaseShrinks(s, id, heard);
      case Stop(id) => PhaseShrinks(s, id, true);
      case Publish(id) => DiskShrinks(s, id, true);
      case ClearReplay(id) => DiskShrinks(s, id, true);
      case ErasePending(id, ok) => DiskShrinks(s, id, ok);
      case EraseFinal(id, ok) => DiskShrinks(s, id, ok);
      case Drop(id, ending) => DropShrinks(s, id, ending);
    }
  }

  lemma WriteShrinks(s: State, id: Claim, writing: Writing)
    requires id in s.clients && AfterWrite(s, id, writing).Some?
    ensures Stepped(s, AfterWrite(s, id, writing).value, id)
  {
  }

  lemma PhaseShrinks(s: State, id: Claim, heard: bool)
    requires id in s.clients
    ensures AfterBegin(s, id).Some? ==> Stepped(s, AfterBegin(s, id).value, id)
    ensures AfterRaise(s, id).Some? ==> Stepped(s, AfterRaise(s, id).value, id)
    ensures AfterLookup(s, id, heard).Some? ==> Stepped(s, AfterLookup(s, id, heard).value, id)
    ensures Stepped(s, To(s, id, Finished), id)
  {
    ToSteps(s, id, Opened);
    ToSteps(s, id, Caught);
    ToSteps(s, id, ErasingPending);
    ToSteps(s, id, Finished);
    hide To, Stepped, InTransaction;
  }

  lemma ToSteps(s: State, id: Claim, phase: Phase)
    requires id in s.clients
    ensures Stepped(s, To(s, id, phase), id)
  {
  }

  lemma DiskShrinks(s: State, id: Claim, ok: bool)
    requires id in s.clients
    ensures AfterPublish(s, id).Some? ==> Stepped(s, AfterPublish(s, id).value, id)
    ensures AfterClearReplay(s, id).Some? ==> Stepped(s, AfterClearReplay(s, id).value, id)
    ensures AfterErasePending(s, id, ok).Some? ==> Stepped(s, AfterErasePending(s, id, ok).value, id)
    ensures AfterEraseFinal(s, id, ok).Some? ==> Stepped(s, AfterEraseFinal(s, id, ok).value, id)
  {
  }

  lemma DropShrinks(s: State, id: Claim, ending: Ending)
    requires id in s.clients && AfterDrop(s, id, ending).Some?
    ensures Stepped(s, AfterDrop(s, id, ending).value, id)
  {
  }

  /** A client's step moves no other client. */
  predicate Stepped(s: State, t: State, id: Claim) {
    Shrunk(s, t, id) && Moved(s, t, id)
  }

  predicate Moved(s: State, t: State, id: Claim) {
    id in s.clients && id in t.clients && t.clients == s.clients[id := t.clients[id]]
  }

  lemma ReapShrinks(l: Limits, s: State, step: Step)
    requires (OfReaper(step) || step.Start? || step.Expire?) && After(l, s, step).Some?
    ensures Shrunk(s, After(l, s, step).value, step.id)
  {
    hide FreshKey, HasRow, InTransaction, AfterReserve, AfterCommit, AfterSession, AfterWrite;
  }

  predicate Shrunk(s: State, t: State, id: Claim) {
    && t.committed == s.committed && t.reheld == s.reheld && s.owner.Keys <= t.owner.Keys
    && (t.db == s.db || t.db == s.db.(reservations := s.db.reservations - {id}))
  }

  /** Only retiring and releasing move what is charged again. */
  lemma StepReheld(l: Limits, s: State, step: Step)
    requires After(l, s, step).Some? && !step.Retire? && !step.Release?
    ensures After(l, s, step).value.reheld == s.reheld
  {
    if Shrinks(step) {
      hide After;
      ReservationsShrink(l, s, step);
    } else {
      hide AssertFileCapacity, HasRow, RowOf, SettledDb, FreshKey, WithFile;
    }
  }

  lemma RetireCharges(s: State, sid: SessionId, who: Who)
    requires SessionsOk(s) && sid in s.db.filed
    ensures Charged(Retired(s.db, sid), who) - Bytes(Reheld(s, sid), who) == Charged(s.db, who) - Bytes(s.reheld, who)
    ensures ObjectRows(Retired(s.db, sid), who) == ObjectRows(s.db, who)
  {
    assert sid in s.reheld ==> ReheldOk(s, sid);
    RetireSession(s.db, sid, who);
    SessionsUncounted(s.db, Retired(s.db, sid), who);
    hide Charged, ObjectRows, Filed, Bytes;
    if sid !in s.db.materialized {
      BytesInsert(s.reheld, sid, s.db.filed[sid].(size := Held(s.db, sid)), who);
    }
  }

  lemma ReleaseCharges(s: State, sid: SessionId, who: Who)
    requires SessionsOk(s)
    ensures Charged(Released(s.db, sid), who) - Bytes(s.reheld - {sid}, who)
            <= Charged(s.db, who) - Bytes(s.reheld, who)
  {
    assert sid in s.reheld ==> ReheldOk(s, sid);
    ReleaseSession(s.db, sid, who);
    hide Charged, SessionsOk, Filed, Bytes;
    if sid in s.reheld {
      BytesRemove(s.reheld, sid, who);
    } else {
      assert s.reheld - {sid} == s.reheld;
    }
  }

  lemma RetireKeepsCharges(l: Limits, s: State, sid: SessionId)
    requires SessionsOk(s) && sid in s.db.filed && Charges(l, s)
    ensures Charges(l, s.(db := Retired(s.db, sid), reheld := Reheld(s, sid)))
  {
    forall who {
      RetireCharges(s, sid, who);
    }
    hide SessionsOk, Charged, ObjectRows, Bytes, Reheld;
  }

  lemma ReleaseKeepsCharges(l: Limits, s: State, sid: SessionId)
    requires SessionsOk(s) && Charges(l, s) && Bounded(l, s.db, Released(s.db, sid))
    ensures Charges(l, s.(db := Released(s.db, sid), reheld := s.reheld - {sid}))
  {
    forall who {
      ReleaseCharges(s, sid, who);
    }
    hide SessionsOk, Charged, ObjectRows, Bytes;
  }

  lemma BoundedKeepsCharges(l: Limits, s: State, t: State)
    requires Charges(l, s) && Bounded(l, s.db, t.db) && t.reheld == s.reheld
    ensures Charges(l, t)
  {
    hide Charged, ObjectRows, Bytes;
  }

  lemma StepKeepsCharges(l: Limits, s: State, step: Step)
    requires Inv(l, s) && After(l, s, step).Some?
    ensures Charges(l, After(l, s, step).value)
  {
    assert SessionsOk(s);
    hide Sound, SessionsOk, Charges, Bounded, After, AssertFileCapacity, Retired, Released, Reheld;
    if step.Retire? {
      AfterIsSession(l, s, step);
      RetireKeepsCharges(l, s, step.sid);
    } else {
      StepBounded(l, s, step);
      if step.Release? {
        AfterIsSession(l, s, step);
        ReleaseKeepsCharges(l, s, step.sid);
      } else {
        hide AfterSession;
        StepReheld(l, s, step);
        BoundedKeepsCharges(l, s, After(l, s, step).value);
      }
    }
  }

  lemma AfterIsSession(l: Limits, s: State, step: Step)
    requires OfSession(step)
    ensures After(l, s, step) == AfterSession(l, s, step)
  {
  }

  // ----- What holds over whole runs -----

  lemma StepKeepsInv(l: Limits, s: State, step: Step)
    requires Inv(l, s) && After(l, s, step).Some?
    ensures Inv(l, After(l, s, step).value)
  {
    hide Sound, Charges, After;
    StepKeepsSound(l, s, step);
    StepKeepsCharges(l, s, step);
  }

  /** The invariant holds at the end of every run, whoever fails and however the clients interleave. */
  lemma {:induction false} RunKeepsInv(l: Limits, s: State, steps: seq<Step>)
    requires Inv(l, s) && Run(l, s, steps).Some?
    ensures Inv(l, Run(l, s, steps).value)
    decreases |steps|
  {
    hide Inv, After;
    if steps != [] {
      StepKeepsInv(l, s, steps[0]);
      RunKeepsInv(l, After(l, s, steps[0]).value, steps[1..]);
    }
  }

  /**
   Coverage. After every run from a quiet start, every final object belongs to a committed row or to
   a live reservation, and every pending object to a live reservation, except those written after
   their reservation had expired.
   */
  lemma Coverage(l: Limits, s: State, steps: seq<Step>)
    requires Initial(l, s) && Run(l, s, steps).Some?
    ensures var t := Run(l, s, steps).value;
            && (forall key :: Final(key) in t.disk ==>
                  HasRow(t.db, key) || exists id :: id in t.db.reservations && t.db.reservations[id].key == key)
            && (forall key, id :: Pending(key, id) in t.disk ==>
                  (id in t.db.reservations && t.db.reservations[id].key == key) || id in t.late)
  {
    InitialInv(l, s);
    RunKeepsInv(l, s, steps);
    var t := Run(l, s, steps).value;
    hide Run, Charges, Initial;
    forall key | Final(key) in t.disk && !HasRow(t.db, key)
      ensures exists id :: id in t.db.reservations && t.db.reservations[id].key == key
    {
      var id := t.owner[key];
      assert ClientOk(t, id);
      assert id in t.db.reservations && t.db.reservations[id].key == key;
    }
    forall key, id | Pending(key, id) in t.disk
      ensures (id in t.db.reservations && t.db.reservations[id].key == key) || id in t.late
    {
      assert ClientOk(t, id);
    }
  }

  /** No write of the run lands after its reservation has expired. */
  ghost predicate WritesInTime(l: Limits, s: State, steps: seq<Step>)
    decreases |steps|
  {
    steps == [] ||
    ((steps[0].Write? && steps[0].writing != Removed ==> steps[0].id !in s.overdue)
     && match After(l, s, steps[0])
        case None => true
        case Some(t) => WritesInTime(l, t, steps[1..]))
  }

  lemma StepLate(l: Limits, s: State, step: Step)
    requires After(l, s, step).Some?
    requires step.Write? && step.writing != Removed ==> step.id !in s.overdue
    ensures After(l, s, step).value.late == s.late
  {
    if OfSession(step) {
      AfterIsSession(l, s, step);
      hide After, AssertFileCapacity, FreshKey;
    } else if step.Reserve? || step.Commit? {
      AfterIsOwn(l, s, step);
      hide After, AssertFileCapacity, RowOf, SettledDb;
    } else {
      hide AfterSession, AfterReserve, AfterCommit, FreshKey, HasRow, InTransaction;
    }
  }

  lemma {:induction false} InTimeNeverLate(l: Limits, s: State, steps: seq<Step>)
    requires Run(l, s, steps).Some? && WritesInTime(l, s, steps)
    ensures Run(l, s, steps).value.late == s.late
    decreases |steps|
  {
    hide After;
    if steps != [] {
      StepLate(l, s, steps[0]);
      InTimeNeverLate(l, After(l, s, steps[0]).value, steps[1..]);
    }
  }

  /** With writes in time the exception is void: every object on disk is accounted for. */
  lemma FullCoverage(l: Limits, s: State, steps: seq<Step>)
    requires Initial(l, s) && Run(l, s, steps).Some? && WritesInTime(l, s, steps)
    ensures var t := Run(l, s, steps).value;
            forall path :: path in t.disk ==>
              HasRow(t.db, path.key) || exists id :: id in t.db.reservations && t.db.reservations[id].key == path.key
  {
    hide Run, WritesInTime, After;
    Coverage(l, s, steps);
    InTimeNeverLate(l, s, steps);
    var t := Run(l, s, steps).value;
    forall path | path in t.disk && !HasRow(t.db, path.key)
      ensures exists id :: id in t.db.reservations && t.db.reservations[id].key == path.key
    {
      match path
      case Final(_) =>
      case Pending(key, id) => assert id in t.db.reservations && t.db.reservations[id].key == key;
    }
  }

  /** A row stays, and so does the record of what was committed under it. */
  ghost predicate RowKept(s: State, t: State, key: Key) {
    HasRow(t.db, key) && (key in s.committed ==> key in t.committed && t.committed[key] == s.committed[key])
  }

  /** A step never touches the row or the record of what is already committed. */
  lemma StepKeepsRow(l: Limits, s: State, step: Step, key: Key)
    requires Sound(s) && After(l, s, step).Some? && HasRow(s.db, key)
    ensures RowKept(s, After(l, s, step).value, key)
  {
    if step.Commit? {
      AfterIsOwn(l, s, step);
      hide After, Sound;
      CommitKeepsRow(s, step.id, step.ending, key);
    } else if Shrinks(step) {
      hide After, Sound;
      ReservationsShrink(l, s, step);
    } else {
      hide After, Sound;
      AdmittedKeepsRow(l, s, step, key);
    }
  }

  lemma AdmittedKeepsRow(l: Limits, s: State, step: Step, key: Key)
    requires (step.Reserve? || OfSession(step)) && After(l, s, step).Some? && HasRow(s.db, key)
    ensures RowKept(s, After(l, s, step).value, key)
  {
    if step.Reserve? {
      AfterIsOwn(l, s, step);
      hide AssertFileCapacity, RowOf, After;
    } else {
      AfterIsSession(l, s, step);
      hide AssertFileCapacity, After, Held, Purged, Reheld;
    }
  }

  lemma AfterIsOwn(l: Limits, s: State, step: Step)
    requires step.Reserve? || step.Commit?
    ensures After(l, s, step).Some? ==> step.id in s.clients
    ensures step.id in s.clients ==>
              After(l, s, step) == if step.Reserve? then AfterReserve(l, s, step.id, step.ending)
                                   else AfterCommit(s, step.id, step.ending)
  {
    hide AfterReserve, AfterCommit, AfterSession, AfterReap;
  }

  lemma CommitKeepsRow(s: State, id: Claim, ending: Ending, key: Key)
    requires Sound(s) && id in s.clients && AfterCommit(s, id, ending).Some? && HasRow(s.db, key)
    ensures RowKept(s, AfterCommit(s, id, ending).value, key)
  {
    assert ClientOk(s, id);
    hide Sound;
    assert key != s.clients[id].key;
  }

  /**
   Committed bytes are never lost. Whatever happens after a row is there, a lost acknowledgement and
   the failure path that follows it included, the row stays; and unless its file was retired, which
   never happens to what a client of the protocol committed, its object keeps exactly its bytes.
   */
  lemma {:induction false} CommittedForever(l: Limits, s: State, steps: seq<Step>, key: Key)
    requires Inv(l, s) && Run(l, s, steps).Some? && HasRow(s.db, key)
    ensures var t := Run(l, s, steps).value;
            && HasRow(t.db, key)
            && (key in s.owner || key !in t.db.retired ==> SameObject(s.disk, t.disk, key))
  {
    RunKeepsInv(l, s, steps);
    RunKeepsRow(l, s, steps, key);
    RetiredExactly(l, s, steps, key);
    hide After, Run, ClientsOk, TablesOk, Charges, Filed;
  }

  predicate SameObject(disk: Disk, after: Disk, key: Key) {
    Final(key) in disk && Final(key) in after && after[Final(key)] == disk[Final(key)]
  }

  lemma {:induction false} RunKeepsRow(l: Limits, s: State, steps: seq<Step>, key: Key)
    requires Inv(l, s) && Run(l, s, steps).Some? && HasRow(s.db, key)
    ensures RowKept(s, Run(l, s, steps).value, key)
    decreases |steps|
  {
    hide After, Charges, Sound;
    if steps != [] {
      StepKeepsInv(l, s, steps[0]);
      StepKeepsRow(l, s, steps[0], key);
      RunKeepsRow(l, After(l, s, steps[0]).value, steps[1..], key);
    }
  }

  /** A file is retired exactly by the steps that retire it; the clients' files never are. */
  lemma {:induction false} RetiredExactly(l: Limits, s: State, steps: seq<Step>, key: Key)
    requires Run(l, s, steps).Some?
    ensures var t := Run(l, s, steps).value;
            && (key in t.db.retired <==> key in s.db.retired || exists sid :: Retire(sid, key) in steps)
            && s.owner.Keys <= t.owner.Keys
    decreases |steps|
  {
    hide After;
    if steps != [] {
      StepRetires(l, s, steps[0]);
      RetiredExactly(l, After(l, s, steps[0]).value, steps[1..], key);
      assert forall sid :: Retire(sid, key) in steps <==>
          Retire(sid, key) == steps[0] || Retire(sid, key) in steps[1..];
    }
  }

  lemma StepRetires(l: Limits, s: State, step: Step)
    requires After(l, s, step).Some?
    ensures var t := After(l, s, step).value;
            && t.db.retired == s.db.retired + (if step.Retire? then {step.key} else {})
            && s.owner.Keys <= t.owner.Keys
  {
    if Shrinks(step) {
      hide After;
      ReservationsShrink(l, s, step);
    } else if OfSession(step) {
      AfterIsSession(l, s, step);
      hide AssertFileCapacity, After, FreshKey;
    } else {
      hide After;
      AdmittedRetires(l, s, step);
    }
  }

  lemma AdmittedRetires(l: Limits, s: State, step: Step)
    requires (step.Reserve? || step.Commit?) && After(l, s, step).Some?
    ensures var t := After(l, s, step).value; t.db.retired == s.db.retired && s.owner == t.owner
  {
    AfterIsOwn(l, s, step);
    hide After, AfterReserve, AfterCommit;
    if step.Reserve? {
      ReserveFrame(l, s, step.id, step.ending);
    } else {
      CommitFrame(s, step.id, step.ending);
    }
  }

  /** No step of the run retires the file of a session whose staging was released. */
  ghost predicate HeldOnce(l: Limits, s: State, steps: seq<Step>)
    decreases |steps|
  {
    steps == [] ||
    ((steps[0].Retire? ==> steps[0].sid in s.db.materialized)
     && match After(l, s, steps[0])
        case None => true
        case Some(t) => HeldOnce(l, t, steps[1..]))
  }

  lemma {:induction false} HeldOnceNeverReheld(l: Limits, s: State, steps: seq<Step>)
    requires Run(l, s, steps).Some? && HeldOnce(l, s, steps) && s.reheld == map[]
    ensures Run(l, s, steps).value.reheld == map[]
    decreases |steps|
  {
    hide After;
    if steps != [] {
      if steps[0].Retire? || steps[0].Release? {
        AfterIsSession(l, s, steps[0]);
      } else {
        StepReheld(l, s, steps[0]);
      }
      HeldOnceNeverReheld(l, After(l, s, steps[0]).value, steps[1..]);
    }
  }

  /**
   Capacity. In every interleaving the charged bytes of everybody and of each organization stay within
   their limits but for what released sessions are charged again, hence within their limits in every
   run that charges none again; while no upload session was ever opened, so do the object rows.
   */
  lemma CapacityAlways(l: Limits, s: State, steps: seq<Step>, who: Who)
    requires Initial(l, s) && Run(l, s, steps).Some?
    ensures var t := Run(l, s, steps).value;
            && Charged(t.db, who) <= Limit(l, who) + Bytes(t.reheld, who)
            && (HeldOnce(l, s, steps) ==> Charged(t.db, who) <= Limit(l, who))
            && (t.db.sessions == map[] ==> ObjectRows(t.db, who) <= Limit(l, who) / OBJECT_BYTES)
  {
    InitialInv(l, s);
    RunKeepsInv(l, s, steps);
    hide Run, Sound, Charged, ObjectRows, Filed, After, HeldOnce, RowsStand;
    if HeldOnce(l, s, steps) {
      HeldOnceNeverReheld(l, s, steps);
    }
  }

  lemma RetiredWithinExactly(l: Limits, db: Db, sid: SessionId)
    requires Filed(db) && sid in db.filed && WithinBytes(db, l)
    ensures WithinBytes(Retired(db, sid), l) <==>
            (sid !in db.materialized ==>
               && Charged(db, Everybody) + Held(db, sid) <= l.global
               && Charged(db, Only(db.filed[sid].organization)) + Held(db, sid) <= l.organization)
  {
    forall who {
      RetireSession(db, sid, who);
    }
    hide Charged, Filed, Retired, Held;
    var organization := db.filed[sid].organization;
    assert Limit(l, Everybody) == l.global && Limit(l, Only(organization)) == l.organization;
  }

  /**
   A step leaves everybody within the limits exactly when it does not retire the file of a released
   session, or there is room for what that session is charged again.
   */
  lemma StepWithinExactly(l: Limits, s: State, step: Step)
    requires Sound(s) && WithinBytes(s.db, l) && After(l, s, step).Some?
    ensures WithinBytes(After(l, s, step).value.db, l) <==>
            (step.Retire? && step.sid !in s.db.materialized ==>
               && Charged(s.db, Everybody) + Held(s.db, step.sid) <= l.global
               && Charged(s.db, Only(s.db.filed[step.sid].organization)) + Held(s.db, step.sid) <= l.organization)
  {
    var t := After(l, s, step).value;
    if step.Retire? {
      AfterIsSession(l, s, step);
      assert Filed(s.db);
      hide Sound, After, AfterSession;
      RetiredWithinExactly(l, s.db, step.sid);
      assert t.db == Retired(s.db, step.sid);
    } else {
      hide Charged, ObjectRows, Sound, After;
      StepBounded(l, s, step);
    }
  }

  // ----- The exception of the capacity statement is real -----

  function NoRows(): Db {
    Db(map[], map[], map[], map[], map[], map[], map[], {})
  }

  function NoState(): State {
    State(NoRows(), map[], map[], {}, map[], map[], map[], {}, {}, map[])
  }

  /** The tables once one session was opened. */
  function OpenedOnly(row: Row): Db {
    NoRows().(sessions := map[0 := row], staged := map[0 := row])
  }

  /** The tables once one session was opened, turned into a file, and released. */
  function ReleasedOnly(row: Row): Db {
    Released(WithFile(OpenedOnly(row), 0, row.key), 0)
  }

  lemma NoStateInitial(l: Limits)
    ensures Initial(l, NoState())
  {
    forall who {
      NoRowsCharged(who);
    }
    hide Charged, ObjectRows;
  }

  lemma NoRowsCharged(who: Who)
    ensures Charged(NoRows(), who) == 0 && ObjectRows(NoRows(), who) == 0
  {
    assert Retained(NoRows()) == map[] && NoRows().documents - NoRows().files.Keys == map[];
  }

  lemma OpenedOnlyCharged(row: Row, who: Who)
    ensures Filed(OpenedOnly(row)) && Separate(OpenedOnly(row))
    ensures Charged(OpenedOnly(row), who) == if Counts(who, row) then 3 * row.size else 0
  {
    NoRowsCharged(who);
    ChargeSession(NoRows(), 0, row, who);
    assert NoRows().(staged := NoRows().staged[0 := row], sessions := NoRows().sessions[0 := row]) == OpenedOnly(row);
    hide Charged;
  }

  lemma ReleasedOnlyCharged(row: Row, who: Who)
    ensures Filed(ReleasedOnly(row))
    ensures Charged(ReleasedOnly(row), who) == if Counts(who, row) then row.size else 0
  {
    OpenedOnlyCharged(row, who);
    WithFileFiled(OpenedOnly(row), 0, row.key);
    SessionToFile(OpenedOnly(row), 0, row.key, who);
    ReleaseSession(WithFile(OpenedOnly(row), 0, row.key), 0, who);
    hide Charged;
  }

  lemma ReleasedOnlyRows(row: Row, who: Who)
    ensures ObjectRows(ReleasedOnly(row), who) <= 2
  {
    assert Rows<SessionId>(map[], who) == 0 && Rows<Key>(map[], who) == 0 && Rows<Claim>(map[], who) == 0;
    RowsInsert<SessionId>(map[], 0, row, who);
    RowsInsert<Key>(map[], row.key, row, who);
    var db := ReleasedOnly(row);
    assert db.sessions == map[][0 := row] && db.files == map[][row.key := row];
  }

  /** A session opened, turned into a file under `row.key`, and released. */
  function ReleaseSteps(row: Row): seq<Step> {
    [OpenSession(0, row), Materialize(0, row.key, []), Release(0)]
  }

  function ReleasedState(row: Row): State {
    NoState().(db := ReleasedOnly(row), disk := map[Final(row.key) := []], committed := map[row.key := []])
  }

  lemma ReleaseRun(l: Limits, row: Row)
    requires row.key.wellFormed && 3 * row.size <= l.organization <= l.global && 2 * OBJECT_BYTES <= l.organization
    ensures Run(l, NoState(), ReleaseSteps(row)) == Some(ReleasedState(row))
  {
    forall who {
      NoRowsCharged(who);
    }
    assert 2 <= l.organization / OBJECT_BYTES <= l.global / OBJECT_BYTES;
    hide Charged, ObjectRows;
    assert AssertFileCapacity(NoRows(), l, row.organization, row.size, true).Done?;
    forall s, step | OfSession(step) {
      AfterIsSession(l, s, step);
    }
    hide After, AssertFileCapacity;
    var s1 := NoState().(db := OpenedOnly(row));
    var s2 := s1.(disk := map[Final(row.key) := []], committed := map[row.key := []],
      db := WithFile(s1.db, 0, row.key));
    assert AfterSession(l, NoState(), OpenSession(0, row)) == Some(s1);
    assert AfterSession(l, s1, Materialize(0, row.key, [])) == Some(s2);
    assert AfterSession(l, s2, Release(0)) == Some(ReleasedState(row)) by {
      assert s2.reheld - {0} == map[];
    }
    hide AfterSession;
    RunAlong(l, [NoState(), s1, s2, ReleasedState(row)], ReleaseSteps(row), 3);
  }

  /** A client that fills what is left, and the retiring of the released session's file. */
  function FillSteps(c: Client, key: Key): seq<Step> {
    [Start(0, c.kind, c.key, c.data), Step.Reserve(0, Acknowledged), Retire(0, key)]
  }

  function Filled(row: Row, c: Client): Db {
    ReleasedOnly(row).(reservations := map[0 := RowOf(c)])
  }

  lemma FilledCharged(row: Row, c: Client, who: Who)
    ensures Filed(Filled(row, c))
    ensures Charged(Filled(row, c), who)
            == (if Counts(who, row) then row.size else 0) + (if Counts(who, RowOf(c)) then |c.data| else 0)
  {
    ReleasedOnlyCharged(row, who);
    ChargeReservation(ReleasedOnly(row), 0, RowOf(c), who);
    assert Filled(row, c) == ReleasedOnly(row).(reservations := ReleasedOnly(row).reservations[0 := RowOf(c)]);
    hide Charged;
  }

  lemma FillAdmitted(l: Limits, row: Row, c: Client)
    requires row.size + |c.data| <= l.organization <= l.global && 3 * OBJECT_BYTES <= l.organization
    ensures AssertFileCapacity(ReleasedOnly(row), l, c.key.organization, |c.data|, false).Done?
  {
    forall who
      ensures Charged(ReleasedOnly(row), who) <= row.size && ObjectRows(ReleasedOnly(row), who) <= 2
    {
      ReleasedOnlyCharged(row, who);
      ReleasedOnlyRows(row, who);
    }
    assert 3 <= l.organization / OBJECT_BYTES <= l.global / OBJECT_BYTES;
    hide Charged, ObjectRows, ReleasedOnly;
  }

  lemma FillRun(l: Limits, row: Row, c: Client)
    requires c.phase == Created && c.key.wellFormed && c.key != row.key
    requires row.size + |c.data| <= l.organization <= l.global && 3 * OBJECT_BYTES <= l.organization
    ensures var r := Run(l, ReleasedState(row), FillSteps(c, row.key));
            r.Some? && r.value.db == Retired(Filled(row, c), 0)
  {
    FillAdmitted(l, row, c);
    FillStarts(row, c);
    var s := ReleasedState(row);
    var s1 := s.(clients := map[0 := c], owner := map[c.key := 0]);
    var s2 := s1.(clients := map[0 := c.(phase := Reserved)], db := Filled(row, c));
    FillReserves(l, row, c, s1);
    FillRetires(l, row, c, s2);
    FillAfter(l, s, s1, s2, c, row.key);
    hide After, AfterStart, AfterReserve, AfterSession, AssertFileCapacity, Filled, Retired, ReleasedState, Run;
    var s3 := AfterSession(l, s2, Retire(0, row.key)).value;
    ThreeSteps(l, s, s1, s2, s3, Start(0, c.kind, c.key, c.data), Step.Reserve(0, Acknowledged), Retire(0, row.key));
  }

  lemma FillRetires(l: Limits, row: Row, c: Client, s: State)
    requires s.db == Filled(row, c)
    ensures 0 in s.db.filed
    ensures var r := AfterSession(l, s, Retire(0, row.key)); r.Some? && r.value.db == Retired(Filled(row, c), 0)
  {
  }

  lemma FillStarts(row: Row, c: Client)
    requires c.phase == Created && c.key.wellFormed && c.key != row.key
    ensures AfterStart(ReleasedState(row), 0, c.kind, c.key, c.data)
            == Some(ReleasedState(row).(clients := map[0 := c], owner := map[c.key := 0]))
  {
  }

  lemma FillReserves(l: Limits, row: Row, c: Client, s: State)
    requires c.phase == Created && s == ReleasedState(row).(clients := map[0 := c], owner := map[c.key := 0])
    requires AssertFileCapacity(ReleasedOnly(row), l, c.key.organization, |c.data|, false).Done?
    ensures AfterReserve(l, s, 0, Acknowledged)
            == Some(s.(clients := map[0 := c.(phase := Reserved)], db := Filled(row, c)))
  {
    hide AssertFileCapacity;
    assert map[0 := c][0 := c.(phase := Reserved)] == map[0 := c.(phase := Reserved)];
  }

  lemma FillAfter(l: Limits, s: State, s1: State, s2: State, c: Client, key: Key)
    requires 0 in s1.clients
    ensures After(l, s, Start(0, c.kind, c.key, c.data)) == AfterStart(s, 0, c.kind, c.key, c.data)
    ensures After(l, s1, Step.Reserve(0, Acknowledged)) == AfterReserve(l, s1, 0, Acknowledged)
    ensures After(l, s2, Retire(0, key)) == AfterSession(l, s2, Retire(0, key))
  {
    hide AfterStart, AfterReserve, AfterSession;
  }

  /**
   Whatever the limits, an organization can be brought to its limit and then over it, by twice the size
   of a session's file: the session is released, others take what it gave back, and its file is retired.
   */
  lemma LimitExceeded(l: Limits, row: Row, c: Client)
    requires row.key.wellFormed && c.key.wellFormed && c.key != row.key && c.phase == Created
    requires row.organization == c.key.organization
    requires 3 * row.size <= l.organization <= l.global && 3 * OBJECT_BYTES <= l.organization
    requires row.size + |c.data| == l.organization
    ensures var r := Run(l, NoState(), ReleaseSteps(row) + FillSteps(c, row.key));
            r.Some? && Charged(r.value.db, Only(row.organization)) == l.organization + 2 * row.size
  {
    hide After;
    ReleaseRun(l, row);
    FillRun(l, row, c);
    RunAppend(l, NoState(), ReleaseSteps(row), FillSteps(c, row.key));
    FilledCharged(row, c, Only(row.organization));
    RetireSession(Filled(row, c), 0, Only(row.organization));
    hide Charged, Run, ReleaseSteps, FillSteps, ReleasedState, Filed;
  }

  // ----- The exception of the coverage statement is real -----

  /** What is left of a client's reservation once the reaper has taken it. */
  function Reaped(s: State, id: Claim, key: Key): State {
    s.(db := s.db.(reservations := s.db.reservations - {id}), disk := s.disk - {Pending(key, id)} - {Final(key)})
  }

  function ReapSteps(id: Claim): seq<Step> {
    [ReapLock(id), ReapPending(id), ReapFinal(id), ReapDelete(id)]
  }

  lemma ReapTakes(l: Limits, s: State, id: Claim)
    requires Sound(s) && id in s.clients && s.clients[id].phase == Reserved
    requires id in s.db.reservations && id in s.expired && id !in s.reaping
    ensures Run(l, s, ReapSteps(id)) == Some(Reaped(s, id, s.clients[id].key))
  {
    assert ClientOk(s, id);
    hide ClientOk, ClientsOk, ObjectsOk, TablesOk, After;
    var key := s.clients[id].key;
    ReapErases(s, id, key);
    ReapForgets(s, id, key);
    forall t {
      AfterIsReap(l, t, id);
    }
    hide AfterReap, HasRow, Reaped;
    var s1 := s.(reaping := s.reaping[id := Locked]);
    var s2 := s.(reaping := s.reaping[id := PendingErased], disk := s.disk - {Pending(key, id)});
    var s3 := s2.(reaping := s.reaping[id := FinalErased], disk := s2.disk - {Final(key)});
    FourSteps(l, s, s1, s2, s3, Reaped(s, id, key), ReapLock(id), ReapPending(id), ReapFinal(id), ReapDelete(id));
  }

  lemma ReapErases(s: State, id: Claim, key: Key)
    requires id in s.db.reservations && s.db.reservations[id].key == key && !HasRow(s.db, key)
    requires id in s.expired && id !in s.reaping && (id in s.clients ==> !InTransaction(s.clients[id].phase))
    ensures var s1 := s.(reaping := s.reaping[id := Locked]);
            var s2 := s.(reaping := s.reaping[id := PendingErased], disk := s.disk - {Pending(key, id)});
            AfterReap(s, ReapLock(id)) == Some(s1) && AfterReap(s1, ReapPending(id)) == Some(s2)
  {
    assert s.reaping[id := Locked][id := PendingErased] == s.reaping[id := PendingErased];
  }

  lemma ReapForgets(s: State, id: Claim, key: Key)
    requires id in s.db.reservations && s.db.reservations[id].key == key && id !in s.reaping
    ensures var s2 := s.(reaping := s.reaping[id := PendingErased], disk := s.disk - {Pending(key, id)});
            var s3 := s2.(reaping := s.reaping[id := FinalErased], disk := s2.disk - {Final(key)});
            AfterReap(s2, ReapFinal(id)) == Some(s3) && AfterReap(s3, ReapDelete(id)) == Some(Reaped(s, id, key))
  {
    assert s.reaping[id := PendingErased][id := FinalErased] == s.reaping[id := FinalErased];
    assert s.reaping[id := FinalErased] - {id} == s.reaping;
  }

  lemma AfterIsReap(l: Limits, s: State, id: Claim)
    ensures After(l, s, ReapLock(id)) == AfterReap(s, ReapLock(id))
    ensures After(l, s, ReapPending(id)) == AfterReap(s, ReapPending(id))
    ensures After(l, s, ReapFinal(id)) == AfterReap(s, ReapFinal(id))
    ensures After(l, s, ReapDelete(id)) == AfterReap(s, ReapDelete(id))
  {
    hide AfterReap;
  }

  lemma ThreeSteps(l: Limits, s: State, s1: State, s2: State, s3: State, a: Step, b: Step, c: Step)
    requires After(l, s, a) == Some(s1) && After(l, s1, b) == Some(s2) && After(l, s2, c) == Some(s3)
    ensures Run(l, s, [a, b, c]) == Some(s3)
  {
    hide After;
    RunAlong(l, [s, s1, s2, s3], [a, b, c], 3);
  }

  lemma FourSteps(l: Limits, s: State, s1: State, s2: State, s3: State, s4: State, a: Step, b: Step, c: Step, d: Step)
    requires After(l, s, a) == Some(s1) && After(l, s1, b) == Some(s2) && After(l, s2, c) == Some(s3)
             && After(l, s3, d) == Some(s4)
    ensures Run(l, s, [a, b, c, d]) == Some(s4)
  {
    hide After;
    RunAlong(l, [s, s1, s2, s3, s4], [a, b, c, d], 4);
  }

  function LateSteps(id: Claim): seq<Step> {
    [Write(id, Complete), Begin(id), Lookup(id, true)]
  }

  lemma AfterIsLate(l: Limits, s: State, id: Claim)
    ensures id in s.clients ==> After(l, s, Write(id, Complete)) == AfterWrite(s, id, Complete)
    ensures id in s.clients ==> After(l, s, Begin(id)) == AfterBegin(s, id)
    ensures id in s.clients ==> After(l, s, Lookup(id, true)) == AfterLookup(s, id, true)
  {
    hide AfterWrite, AfterBegin, AfterLookup;
  }

  lemma LateWriteStays(l: Limits, s: State, id: Claim)
    requires id in s.clients && s.clients[id].phase == Reserved
    requires id !in s.db.reservations && id !in s.reaping && Pending(s.clients[id].key, id) !in s.disk
    ensures var r := Run(l, s, LateSteps(id));
            && r.Some?
            && r.value.db == s.db
            && id in r.value.clients && r.value.clients[id].phase == Finished
            && Pending(s.clients[id].key, id) in r.value.disk
  {
    forall t {
      AfterIsLate(l, t, id);
    }
    hide After;
    var s1 := AfterWrite(s, id, Complete).value;
    var s2 := AfterBegin(s1, id).value;
    var s3 := AfterLookup(s2, id, true).value;
    assert s3.clients[id].phase == Finished && Pending(s.clients[id].key, id) in s3.disk && s3.db == s.db;
    hide AfterWrite, AfterBegin, AfterLookup;
    RunAlong(l, [s, s1, s2, s3], LateSteps(id), 3);
  }

  /** The client `id` is done, with no reservation and no row, and its object is still there. */
  predicate Leaked(s: State, id: Claim, key: Key) {
    && id in s.clients && s.clients[id].phase == Finished
    && Pending(key, id) in s.disk
    && id !in s.db.reservations && !HasRow(s.db, key)
  }

  /**
   A client whose reservation expired before its write landed can leave an object that nothing
   accounts for: the reaper takes the reservation, the write lands, and the failure path, finding no
   reservation, removes nothing.
   */
  lemma LateWriteLeaks(l: Limits, s: State, id: Claim)
    requires Sound(s) && id in s.clients && s.clients[id].phase == Reserved
    requires id in s.db.reservations && id in s.expired && id !in s.reaping
    ensures exists steps :: Run(l, s, steps).Some? && Leaked(Run(l, s, steps).value, id, s.clients[id].key)
  {
    var key := s.clients[id].key;
    assert ClientOk(s, id);
    hide ClientOk, Sound, After, Run;
    ReapTakes(l, s, id);
    var t := Reaped(s, id, key);
    LateWriteStays(l, t, id);
    RunAppend(l, s, ReapSteps(id), LateSteps(id));
    assert Leaked(Run(l, s, ReapSteps(id) + LateSteps(id)).value, id, key);
  }

  lemma {:induction false} RunAppend(l: Limits, s: State, a: seq<Step>, b: seq<Step>)
    ensures Run(l, s, a + b) == match Run(l, s, a) case None => None case Some(t) => Run(l, t, b)
    decreases |a|
  {
    hide After;
    if a == [] {
      assert a + b == b;
    } else {
      assert (a + b)[0] == a[0] && (a + b)[1..] == a[1..] + b;
      match After(l, s, a[0])
      case None =>
      case Some(t) => RunAppend(l, t, a[1..], b);
    }
  }

  /** A list of states, each the step's outcome of the one before, is a run. */
  lemma {:induction false} RunAlong(l: Limits, states: seq<State>, steps: seq<Step>, left: nat)
    requires |states| == |steps| + 1 && left <= |steps|
    requires forall i :: 0 <= i < |steps| ==> After(l, states[i], steps[i]) == Some(states[i + 1])
    ensures Run(l, states[|steps| - left], steps[|steps| - left..]) == Some(states[|steps|])
    decreases left
  {
    if left > 0 {
      hide After;
      RunAlong(l, states, steps, left - 1);
      var rest := steps[|steps| - left..];
      assert rest[1..] == steps[|steps| - (left - 1)..];
    }
  }
}
