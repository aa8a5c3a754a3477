/**
 Charged bytes and object rows (`file-quota.ts`): what each table is charged, and the admission test
 that runs under the global lock.
 */
module FileCapacity {
  import opened Outcomes
  import opened FileStorage

  type Organization = nat
  type SessionId = nat

  /** One megabyte of quota stands for one object row. */
  const OBJECT_BYTES: nat := 1024 * 1024

  /** A row of any of the tables that hold storage: its organization, key and size. */
  datatype Row = Row(organization: Organization, key: Key, size: nat)

  /**
   The tables the quota looks at. Upload sessions are split by what they are charged for: `staged`
   have no file yet, `filed` have one, `materialized` are those of them that still hold their staging;
   `sessions` keeps all. `retired` are the files that were deleted with their ended sessions.
   */
  datatype Db = Db(
    reservations: map<Claim, Row>,
    files: map<Key, Row>,
    documents: map<Key, Row>,
    sessions: map<SessionId, Row>,
    staged: map<SessionId, Row>,
    materialized: map<SessionId, Row>,
    filed: map<SessionId, Row>,
    retired: set<Key>)

  datatype Limits = Limits(organization: nat, global: nat)

  datatype Error = GlobalQuota | OrganizationQuota | TooManyOperations | TooManySessions

  /** Whose rows a sum is over: one organization's, or everybody's. */
  datatype Who = Everybody | Only(organization: Organization)

  predicate Counts(who: Who, row: Row) {
    who.Everybody? || row.organization == who.organization
  }

  ghost function Bytes<K(!new)>(table: map<K, Row>, who: Who): nat {
    if table == map[] then 0
    else
      var k :| k in table;
      (if Counts(who, table[k]) then table[k].size else 0) + Bytes(table - {k}, who)
  }

  ghost function Rows<K(!new)>(table: map<K, Row>, who: Who): nat {
    |set k | k in table && Counts(who, table[k])|
  }

  /** The files that `physicallyRetainedFile` leaves out: retired, their session's staging released. */
  function Purged(filed: map<SessionId, Row>, materialized: map<SessionId, Row>, retired: set<Key>): set<Key> {
    set sid | sid in filed && sid !in materialized && filed[sid].key in retired :: filed[sid].key
  }

  function Retained(db: Db): map<Key, Row> {
    db.files - Purged(db.filed, db.materialized, db.retired)
  }

  /** `permanentBytes`: retained files, documents that are not also files, and reservations. */
  ghost function Permanent(db: Db, who: Who): nat {
    Bytes(Retained(db), who) + Bytes(db.documents - db.files.Keys, who) + Bytes(db.reservations, who)
  }

  ghost function Charged(db: Db, who: Who): nat {
    Permanent(db, who) + 3 * Bytes(db.staged, who) + 2 * Bytes(db.materialized, who)
  }

  ghost function ObjectRows(db: Db, who: Who): nat {
    Rows(db.files, who) + Rows(db.sessions, who) + Rows(db.documents, who) + Rows(db.reservations, who)
  }

  /** The byte and row part of `assertFileCapacity`, in the order the source reports it. */
  ghost function AssertFileCapacity(db: Db, limits: Limits, organization: Organization, incomingBytes: nat,
      staging: bool): Outcome<Error> {
    var incoming := incomingBytes * if staging then 3 else 1;
    var incomingRows := if staging then 2 else 1;
    if Charged(db, Everybody) + incoming > limits.global
       || ObjectRows(db, Everybody) + incomingRows > limits.global / OBJECT_BYTES then Raised(GlobalQuota)
    else if Charged(db, Only(organization)) + incoming > limits.organization
            || ObjectRows(db, Only(organization)) + incomingRows > limits.organization / OBJECT_BYTES then
      Raised(OrganizationQuota)
    else Done
  }

  ghost function Limit(limits: Limits, who: Who): nat {
    if who.Everybody? then limits.global else limits.organization
  }

  ghost predicate WithinBytes(db: Db, limits: Limits) {
    forall who :: Charged(db, who) <= Limit(limits, who)
  }

  ghost predicate WithinRows(db: Db, limits: Limits) {
    forall who :: ObjectRows(db, who) <= Limit(limits, who) / OBJECT_BYTES
  }

  // ----- Sums over tables -----

  /** A sum does not depend on the order in which it visits the rows. */
  lemma {:induction false} BytesRemove<K(!new)>(table: map<K, Row>, k: K, who: Who)
    requires k in table
    ensures Bytes(table, who) == (if Counts(who, table[k]) then table[k].size else 0) + Bytes(table - {k}, who)
    decreases |table|
  {
    var first :| first in table && Bytes(table, who)
      == (if Counts(who, table[first]) then table[first].size else 0) + Bytes(table - {first}, who);
    if first != k {
      assert (table - {first}) - {k} == (table - {k}) - {first};
      BytesRemove(table - {first}, k, who);
      BytesRemove(table - {k}, first, who);
    }
  }

  lemma BytesInsert<K(!new)>(table: map<K, Row>, k: K, row: Row, who: Who)
    requires k !in table
    ensures Bytes(table[k := row], who) == Bytes(table, who) + if Counts(who, row) then row.size else 0
  {
    assert table[k := row] - {k} == table;
    BytesRemove(table[k := row], k, who);
  }

  lemma RowsRemove<K(!new)>(table: map<K, Row>, k: K, who: Who)
    requires k in table
    ensures Rows(table, who) == Rows(table - {k}, who) + if Counts(who, table[k]) then 1 else 0
  {
    var all := set x | x in table && Counts(who, table[x]);
    var rest := set x | x in table - {k} && Counts(who, (table - {k})[x]);
    if Counts(who, table[k]) {
      assert all == rest + {k};
    } else {
      assert all == rest;
    }
  }

  lemma RowsInsert<K(!new)>(table: map<K, Row>, k: K, row: Row, who: Who)
    requires k !in table
    ensures Rows(table[k := row], who) == Rows(table, who) + if Counts(who, row) then 1 else 0
  {
    assert table[k := row] - {k} == table;
    RowsRemove(table[k := row], k, who);
  }

  // ----- What each change of the tables is charged -----

  ghost predicate Separate(db: Db) {
    db.files.Keys !! db.documents.Keys
  }

  /** Each session with a file has its own, is staged no more, and holds what it was charged for. */
  ghost predicate Filed(db: Db) {
    && db.filed.Keys <= db.sessions.Keys
    && db.staged.Keys !! db.filed.Keys
    && db.materialized.Keys <= db.filed.Keys
    && (forall sid :: sid in db.materialized ==> db.materialized[sid] == db.filed[sid])
    && (forall sid :: sid in db.filed ==> db.filed[sid].key in db.files && db.files[db.filed[sid].key] == db.filed[sid])
    && (forall a, b :: a in db.filed && b in db.filed && a != b ==> db.filed[a].key != db.filed[b].key)
    && db.retired <= db.files.Keys
  }

  /** A file under a new key is retained, whatever sessions there are. */
  lemma RetainedInsert(db: Db, key: Key, row: Row, who: Who)
    requires Filed(db) && key !in db.files
    ensures Bytes(Retained(db.(files := db.files[key := row])), who)
            == Bytes(Retained(db), who) + if Counts(who, row) then row.size else 0
  {
    assert db.files[key := row] - Purged(db.filed, db.materialized, db.retired) == Retained(db)[key := row];
    BytesInsert(Retained(db), key, row, who);
  }

  /** A reservation is charged its bytes and one row. */
  lemma ChargeReservation(db: Db, id: Claim, row: Row, who: Who)
    requires id !in db.reservations
    ensures var after := db.(reservations := db.reservations[id := row]);
            && Charged(after, who) == Charged(db, who) + (if Counts(who, row) then row.size else 0)
            && ObjectRows(after, who) == ObjectRows(db, who) + (if Counts(who, row) then 1 else 0)
  {
    BytesInsert(db.reservations, id, row, who);
    RowsInsert(db.reservations, id, row, who);
  }

  lemma DropReservation(db: Db, id: Claim, who: Who)
    requires id in db.reservations
    ensures var after, row := db.(reservations := db.reservations - {id}), db.reservations[id];
            && Charged(db, who) == Charged(after, who) + (if Counts(who, row) then row.size else 0)
            && ObjectRows(db, who) == ObjectRows(after, who) + (if Counts(who, row) then 1 else 0)
  {
    BytesRemove(db.reservations, id, who);
    RowsRemove(db.reservations, id, who);
  }

  /** Turning a reservation into a file row changes neither the charge nor the row count. */
  lemma ReservationToFile(db: Db, id: Claim, who: Who)
    requires id in db.reservations && Separate(db)
    requires db.reservations[id].key !in db.files && db.reservations[id].key !in db.documents && Filed(db)
    ensures var row := db.reservations[id];
            var after := db.(reservations := db.reservations - {id}, files := db.files[row.key := row]);
            && Separate(after)
            && Charged(after, who) == Charged(db, who)
            && ObjectRows(after, who) == ObjectRows(db, who)
  {
    var row := db.reservations[id];
    BytesRemove(db.reservations, id, who);
    RowsRemove(db.reservations, id, who);
    RetainedInsert(db, row.key, row, who);
    RowsInsert(db.files, row.key, row, who);
    assert db.documents - db.files[row.key := row].Keys == db.documents == db.documents - db.files.Keys;
  }

  /** The same for a document row. */
  lemma ReservationToDocument(db: Db, id: Claim, who: Who)
    requires id in db.reservations && Separate(db)
    requires db.reservations[id].key !in db.files && db.reservations[id].key !in db.documents
    ensures var row := db.reservations[id];
            var after := db.(reservations := db.reservations - {id}, documents := db.documents[row.key := row]);
            && Separate(after)
            && Charged(after, who) == Charged(db, who)
            && ObjectRows(after, who) == ObjectRows(db, who)
  {
    var row := db.reservations[id];
    BytesRemove(db.reservations, id, who);
    RowsRemove(db.reservations, id, who);
    BytesInsert(db.documents, row.key, row, who);
    RowsInsert(db.documents, row.key, row, who);
    assert db.documents[row.key := row] - db.files.Keys == db.documents[row.key := row];
    assert db.documents - db.files.Keys == db.documents;
  }

  /** `db` with a file made of the staged session `sid`. */
  function WithFile(db: Db, sid: SessionId, key: Key): Db
    requires sid in db.staged
  {
    var row := db.staged[sid].(key := key);
    db.(staged := db.staged - {sid},
        materialized := db.materialized[sid := row],
        filed := db.filed[sid := row],
        files := db.files[key := row])
  }

  lemma WithFileFiled(db: Db, sid: SessionId, key: Key)
    requires sid in db.staged && sid in db.sessions && Filed(db) && key !in db.files
    ensures Filed(WithFile(db, sid, key))
  {
  }

  /** A session that gets its file while it holds its staging purges none. */
  lemma HolderPurgesNone(filed: map<SessionId, Row>, held: map<SessionId, Row>, retired: set<Key>, sid: SessionId,
      row: Row)
    requires sid !in filed
    ensures Purged(filed[sid := row], held[sid := row], retired) == Purged(filed, held, retired)
  {
    var f, h := filed[sid := row], held[sid := row];
    assert forall x :: x in filed ==> f[x] == filed[x] && (x in h <==> x in held);
    assert Purged(f, h, retired) == Purged(filed, held, retired);
  }

  /** The weights are neutral: 3d of staging become 2d of held staging and d of file. */
  lemma SessionToFile(db: Db, sid: SessionId, key: Key, who: Who)
    requires sid in db.staged && sid in db.sessions && Separate(db) && Filed(db) && key !in db.files
             && key !in db.documents
    ensures Separate(WithFile(db, sid, key))
    ensures Charged(WithFile(db, sid, key), who) == Charged(db, who)
  {
    var row := db.staged[sid].(key := key);
    assert sid !in db.filed && sid !in db.materialized;
    HolderPurgesNone(db.filed, db.materialized, db.retired, sid, row);
    RetainedInsert(db, key, row, who);
    hide Filed, Purged;
    BytesRemove(db.staged, sid, who);
    BytesInsert(db.materialized, sid, row, who);
    assert db.documents - db.files[key := row].Keys == db.documents == db.documents - db.files.Keys;
  }

  lemma ChargeSession(db: Db, sid: SessionId, row: Row, who: Who)
    requires sid !in db.staged
    ensures Charged(db.(staged := db.staged[sid := row], sessions := db.sessions[sid := row]), who)
            == Charged(db, who) + if Counts(who, row) then 3 * row.size else 0
  {
    BytesInsert(db.staged, sid, row, who);
  }

  /** `db` with the staging of `sid` given back. */
  function Released(db: Db, sid: SessionId): Db {
    db.(staged := db.staged - {sid}, materialized := db.materialized - {sid})
  }

  /** What a session with a file is charged while it holds its staging, its file apart unless that is retired. */
  function Held(db: Db, sid: SessionId): nat
    requires sid in db.filed
  {
    var d := db.filed[sid].size;
    if db.filed[sid].key in db.retired then 3 * d else 2 * d
  }

  /**
   Releasing a session gives back exactly its weight: three times what is staged, twice what is held,
   and once more a file that is retired.
   */
  lemma ReleaseSession(db: Db, sid: SessionId, who: Who)
    requires Filed(db)
    ensures Charged(Released(db, sid), who)
            + (if sid in db.staged && Counts(who, db.staged[sid]) then 3 * db.staged[sid].size else 0)
            + (if sid in db.materialized && Counts(who, db.filed[sid]) then Held(db, sid) else 0)
            == Charged(db, who)
  {
    var after := Released(db, sid);
    if sid in db.staged {
      BytesRemove(db.staged, sid, who);
    } else {
      assert after.staged == db.staged;
    }
    if sid in db.materialized {
      BytesRemove(db.materialized, sid, who);
      HeldRetained(after, db, sid, who);
    } else {
      assert after.materialized == db.materialized;
    }
  }

  /** `db` with the file of `sid` deleted, and its staging marked as not released. */
  function Retired(db: Db, sid: SessionId): Db
    requires sid in db.filed
  {
    db.(retired := db.retired + {db.filed[sid].key}, materialized := db.materialized[sid := db.filed[sid]])
  }

  /**
   Retiring the file of a session that holds its staging changes no charge. Where the staging had been
   released it is charged again: twice the size, or three times when the file was purged.
   */
  lemma RetireSession(db: Db, sid: SessionId, who: Who)
    requires Filed(db) && sid in db.filed
    ensures Filed(Retired(db, sid))
    ensures Charged(Retired(db, sid), who)
            == Charged(db, who) + if sid !in db.materialized && Counts(who, db.filed[sid]) then Held(db, sid) else 0
  {
    RetiredFiled(db, sid);
    var row, after := db.filed[sid], Retired(db, sid);
    if sid in db.materialized {
      assert db.materialized[sid] == row && after.materialized == db.materialized;
    } else {
      hide Filed, Purged;
      BytesInsert(db.materialized, sid, row, who);
      HeldRetained(db, db.(materialized := after.materialized), sid, who);
    }
  }

  /** While the staging is held, retiring the file leaves out no file. */
  lemma RetiredFiled(db: Db, sid: SessionId)
    requires Filed(db) && sid in db.filed
    ensures Filed(Retired(db, sid))
    ensures var after := Retired(db, sid);
            && Filed(db.(materialized := after.materialized))
            && after.materialized - {sid} == db.materialized - {sid}
            && Purged(db.filed, after.materialized, after.retired) == Purged(db.filed, after.materialized, db.retired)
  {
  }

  /** Between a session that is released and the same one held, only its file may be purged. */
  lemma HeldRetained(released: Db, held: Db, sid: SessionId, who: Who)
    requires Filed(held) && sid in held.materialized && sid !in released.materialized
    requires released.files == held.files && released.filed == held.filed && released.retired == held.retired
    requires held.materialized - {sid} == released.materialized - {sid}
    ensures Bytes(Retained(held), who) == Bytes(Retained(released), who)
            + if held.filed[sid].key in held.retired && Counts(who, held.filed[sid]) then held.filed[sid].size else 0
  {
    var key := held.filed[sid].key;
    var purged := Purged(held.filed, held.materialized, held.retired);
    assert forall x :: x in held.filed && x != sid ==> (x in held.materialized <==> x in released.materialized) by {
      assert forall x :: x != sid ==> (x in held.materialized - {sid} <==> x in held.materialized);
      assert forall x :: x != sid ==> (x in released.materialized - {sid} <==> x in released.materialized);
    }
    if key in held.retired {
      assert Purged(released.filed, released.materialized, released.retired) == purged + {key};
      assert Retained(held) - {key} == Retained(released);
      BytesRemove(Retained(held), key, who);
    } else {
      assert Purged(released.filed, released.materialized, released.retired) == purged;
    }
  }

  // ----- The queries -----

  method SumBytes<K(==, !new)>(table: map<K, Row>, who: Who) returns (n: nat)
    ensures n == Bytes(table, who)
  {
    n := 0;
    var left := table;
    while left != map[]
      invariant n + Bytes(left, who) == Bytes(table, who)
      decreases |left|
    {
      var k :| k in left;
      BytesRemove(left, k, who);
      n := n + if Counts(who, left[k]) then left[k].size else 0;
      left := left - {k};
    }
  }

  method CountRows<K(==, !new)>(table: map<K, Row>, who: Who) returns (n: nat)
    ensures n == Rows(table, who)
  {
    n := 0;
    var left := table;
    while left != map[]
      invariant n + Rows(left, who) == Rows(table, who)
      decreases |left|
    {
      var k :| k in left;
      RowsRemove(left, k, who);
      n := n + if Counts(who, left[k]) then 1 else 0;
      left := left - {k};
    }
    assert (set k | k in left && Counts(who, left[k])) == {};
  }

  method Usage(db: Db, who: Who) returns (charged: nat, rows: nat)
    ensures charged == Charged(db, who) && rows == ObjectRows(db, who)
  {
    var files := SumBytes(Retained(db), who);
    var documents := SumBytes(db.documents - db.files.Keys, who);
    var reserved := SumBytes(db.reservations, who);
    var staged := SumBytes(db.staged, who);
    var materialized := SumBytes(db.materialized, who);
    charged := files + documents + reserved + staged * 3 + materialized * 2;
    var fileRows := CountRows(db.files, who);
    var sessionRows := CountRows(db.sessions, who);
    var documentRows := CountRows(db.documents, who);
    var reservationRows := CountRows(db.reservations, who);
    rows := fileRows + sessionRows + documentRows + reservationRows;
  }

  /** The actor's own limits, after the capacity: operations of a day, and sessions still open. */
  ghost function AssertActor(staging: bool, recent: nat, open: nat, actorLimit: nat): Outcome<Error> {
    if recent >= actorLimit * 10 then Raised(TooManyOperations)
    else if staging && open >= actorLimit then Raised(TooManySessions)
    else Done
  }

  /**
   `assertFileCapacity`, over the sums the database reports; `recent` and `open` are the actor's counts.
   Capacity is decided first, so what is admitted is within it whatever the actor's limits.
   */
  method CheckFileCapacity(db: Db, limits: Limits, organization: Organization, incomingBytes: nat, staging: bool,
                           recent: nat, open: nat, actorLimit: nat)
    returns (o: Outcome<Error>)
    ensures var capacity := AssertFileCapacity(db, limits, organization, incomingBytes, staging);
            o == if capacity.Raised? then capacity else AssertActor(staging, recent, open, actorLimit)
  {
    var used, objectRows := Usage(db, Only(organization));
    var globalUsed, globalObjectRows := Usage(db, Everybody);
    var incoming := incomingBytes * if staging then 3 else 1;
    var incomingRows := if staging then 2 else 1;
    if globalUsed + incoming > limits.global || globalObjectRows + incomingRows > limits.global / OBJECT_BYTES {
      return Raised(GlobalQuota);
    }
    if used + incoming > limits.organization || objectRows + incomingRows > limits.organization / OBJECT_BYTES {
      return Raised(OrganizationQuota);
    }
    if recent >= actorLimit * 10 {
      return Raised(TooManyOperations);
    }
    if staging && open >= actorLimit {
      return Raised(TooManySessions);
    }
    return Done;
  }
}
