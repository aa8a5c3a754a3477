/**
 Delegated chat history (`project-chat.policy.ts`): a history row lends a window of a room from one
 grant to another, possibly out of a window that was itself lent. A row counts only when its whole
 provenance does, and following the provenance ends on any table, cyclic ones included.
 */
module ChatHistory {
  import opened Outcomes

  type Id = string

  type Time = int

  /** A project grant under which room grants are issued. */
  datatype Admin = Admin(actions: set<string>, ceiling: set<string>, effectiveAt: Time, expiresAt: Option<Time>,
                         revokedAt: Option<Time>, internal: bool, memberActive: bool)

  /** A room grant; `memberActive`: its membership and user are active. */
  datatype Grant = Grant(room: Id, actions: set<string>, effectiveAt: Time, expiresAt: Option<Time>,
                         revokedAt: Option<Time>, memberActive: bool, issuedUnder: Id)

  /** A window lent by the grant `source` to the grant `grant`, out of the row `provenance` if any. */
  datatype Row = Row(grant: Id, source: Id, provenance: Option<Id>, from: Time, to: Time, actions: set<string>)

  datatype Tables = Tables(admins: map<Id, Admin>, grants: map<Id, Grant>, history: map<Id, Row>)

  /** The foreign keys. */
  predicate Referenced(db: Tables) {
    && (forall h | h in db.history :: db.history[h].source in db.grants)
    && (forall g | g in db.grants :: db.grants[g].issuedUnder in db.admins)
  }

  /** What the clock shows at its successive readings. */
  type Clock = nat -> Time

  predicate Unexpired(effectiveAt: Time, expiresAt: Option<Time>, revokedAt: Option<Time>, now: Time) {
    revokedAt.None? && effectiveAt <= now && (expiresAt.Some? ==> now < expiresAt.value)
  }

  /** The lending grant and the grant it was issued under both carry the action at this moment. */
  predicate Lends(db: Tables, grant: Id, action: string, now: Time)
    requires Referenced(db) && grant in db.grants
  {
    var source := db.grants[grant];
    var admin := db.admins[source.issuedUnder];
    && Unexpired(source.effectiveAt, source.expiresAt, source.revokedAt, now)
    && source.actions >= {action, "READ"}
    && source.memberActive
    && Unexpired(admin.effectiveAt, admin.expiresAt, admin.revokedAt, now)
    && "ACCESS_ADMIN" in admin.actions
    && admin.ceiling >= {action, "READ"}
    && admin.internal
    && admin.memberActive
  }

  // ----- Provenance -----

  /** One row in itself. */
  predicate RowOk(db: Tables, h: Id, room: Id, action: string, now: Time)
    requires Referenced(db)
  {
    && h in db.history
    && db.grants[db.history[h].source].room == room
    && action in db.history[h].actions
    && Lends(db, db.history[h].source, action, now)
  }

  /** `child` was lent out of `row`: by the grant that received it, and within its window. */
  predicate Inside(child: Row, row: Row) {
    row.grant == child.source && row.from <= child.from && child.to <= row.to
  }

  predicate RootOk(db: Tables, row: Row)
    requires row.source in db.grants
  {
    db.grants[row.source].effectiveAt <= row.from
  }

  /** A complete provenance: the rows from `chain[0]` to one that was not lent out of another. */
  ghost predicate IsProvenance(db: Tables, chain: seq<Id>, room: Id, action: string, clock: Clock, tick: nat)
    requires Referenced(db)
  {
    && chain != []
    && (forall i :: 0 <= i < |chain| ==> RowOk(db, chain[i], room, action, clock(tick + i)))
    && (forall i :: 0 < i < |chain| ==>
          && db.history[chain[i - 1]].provenance == Some(chain[i])
          && Inside(db.history[chain[i - 1]], db.history[chain[i]]))
    && var root := db.history[chain[|chain| - 1]];
       root.provenance == None && RootOk(db, root)
  }

  /** The row has a complete provenance. */
  ghost predicate Valid(db: Tables, h: Id, room: Id, action: string, clock: Clock, tick: nat)
    requires Referenced(db)
    ensures Valid(db, h, room, action, clock, tick) ==> h in db.history
  {
    exists chain: seq<Id> ::
      && chain != [] && chain[0] == h
      && RowOk(db, chain[0], room, action, clock(tick))
      && IsProvenance(db, chain, room, action, clock, tick)
  }

  // ----- Following provenance -----

  function Next(db: Tables, h: Id): Option<Id> {
    if h in db.history then db.history[h].provenance else None
  }

  ghost function Follow(db: Tables, h: Option<Id>, n: nat): Option<Id>
    decreases n
  {
    if n == 0 || h.None? then h else Follow(db, Next(db, h.value), n - 1)
  }

  lemma {:induction false} FollowSum(db: Tables, h: Option<Id>, m: nat, n: nat)
    ensures Follow(db, h, m + n) == Follow(db, Follow(db, h, m), n)
    decreases m
  {
    if h.Some? && m > 0 {
      FollowSum(db, Next(db, h.value), m - 1, n);
    }
  }

  lemma {:induction false} LoopNeverEnds(db: Tables, h: Id, n: nat, m: nat)
    requires n > 0 && Follow(db, Some(h), n) == Some(h)
    ensures Follow(db, Some(h), m).Some?
  {
    if m < n {
      FollowSum(db, Some(h), m, n - m);
    } else {
      FollowSum(db, Some(h), n, m - n);
      LoopNeverEnds(db, h, n, m - n);
    }
  }

  /** A complete provenance ends, so a row on a loop has none. */
  lemma {:induction false} ProvenanceEnds(db: Tables, chain: seq<Id>, room: Id, action: string, clock: Clock, tick: nat)
    requires Referenced(db) && IsProvenance(db, chain, room, action, clock, tick)
    ensures Follow(db, Some(chain[0]), |chain|) == None
    decreases |chain|
  {
    if |chain| > 1 {
      ProvenanceTail(db, chain, room, action, clock, tick);
      ProvenanceEnds(db, chain[1..], room, action, clock, tick + 1);
    } else {
      assert Next(db, chain[0]) == None;
    }
  }

  lemma ProvenanceTail(db: Tables, chain: seq<Id>, room: Id, action: string, clock: Clock, tick: nat)
    requires Referenced(db) && |chain| > 1
    requires IsProvenance(db, chain, room, action, clock, tick)
    ensures IsProvenance(db, chain[1..], room, action, clock, tick + 1)
    ensures Next(db, chain[0]) == Some(chain[1])
  {
    var tail := chain[1..];
    hide RowOk, Inside, RootOk;
    forall i | 0 <= i < |tail|
      ensures RowOk(db, tail[i], room, action, clock(tick + 1 + i))
    {
      assert RowOk(db, chain[i + 1], room, action, clock(tick + (i + 1)));
      assert tick + (i + 1) == tick + 1 + i;
    }
  }

  lemma ProvenanceCons(db: Tables, h: Id, chain: seq<Id>, room: Id, action: string, clock: Clock, tick: nat)
    requires Referenced(db) && RowOk(db, h, room, action, clock(tick))
    requires chain != [] && IsProvenance(db, chain, room, action, clock, tick + 1)
    requires db.history[h].provenance == Some(chain[0]) && Inside(db.history[h], db.history[chain[0]])
    ensures IsProvenance(db, [h] + chain, room, action, clock, tick)
  {
    var all := [h] + chain;
    hide RowOk, Inside, RootOk;
    forall i | 0 <= i < |all|
      ensures RowOk(db, all[i], room, action, clock(tick + i))
    {
      if i > 0 {
        assert RowOk(db, chain[i - 1], room, action, clock(tick + 1 + (i - 1)));
        assert tick + 1 + (i - 1) == tick + i;
      }
    }
  }

  /** What the loop decides from a row on: `child` is the row before, whose window must fit. */
  ghost predicate Rest(db: Tables, h: Id, child: Option<Row>, room: Id, action: string, clock: Clock, tick: nat)
    requires Referenced(db)
  {
    && Valid(db, h, room, action, clock, tick)
    && (child.Some? ==> h in db.history && Inside(child.value, db.history[h]))
  }

  /** One turn of the loop on a row that is in order. */
  lemma RestStep(db: Tables, h: Id, child: Option<Row>, room: Id, action: string, clock: Clock, tick: nat)
    requires Referenced(db) && RowOk(db, h, room, action, clock(tick))
    requires child.Some? ==> Inside(child.value, db.history[h])
    ensures var row := db.history[h];
            Rest(db, h, child, room, action, clock, tick) <==>
              if row.provenance.None? then RootOk(db, row)
              else Rest(db, row.provenance.value, Some(row), room, action, clock, tick + 1)
  {
    var row := db.history[h];
    if Valid(db, h, room, action, clock, tick) {
      var chain :| chain != [] && chain[0] == h && IsProvenance(db, chain, room, action, clock, tick);
      if |chain| > 1 {
        ProvenanceTail(db, chain, room, action, clock, tick);
        assert chain[1..][0] == chain[1];
        assert Inside(db.history[chain[0]], db.history[chain[1]]);
      }
    }
    if row.provenance.None? && RootOk(db, row) {
      assert IsProvenance(db, [h], room, action, clock, tick);
    }
    if row.provenance.Some? && Rest(db, row.provenance.value, Some(row), room, action, clock, tick + 1) {
      var chain :| chain != [] && chain[0] == row.provenance.value
        && IsProvenance(db, chain, room, action, clock, tick + 1);
      ProvenanceCons(db, h, chain, room, action, clock, tick);
      assert ([h] + chain)[0] == h;
    }
  }

  /** What any row must satisfy to be part of a complete provenance. */
  lemma RestNeeds(db: Tables, h: Id, child: Option<Row>, room: Id, action: string, clock: Clock, tick: nat)
    requires Referenced(db)
    ensures Rest(db, h, child, room, action, clock, tick) ==>
              RowOk(db, h, room, action, clock(tick)) && (child.Some? ==> Inside(child.value, db.history[h]))
  {
    if Rest(db, h, child, room, action, clock, tick) {
      var chain :| chain != [] && chain[0] == h && IsProvenance(db, chain, room, action, clock, tick);
      assert RowOk(db, chain[0], room, action, clock(tick + 0));
    }
  }

  /** `y` lies one or more steps up the provenance of `x`. */
  ghost predicate Reaches(db: Tables, x: Id, y: Id) {
    exists n: nat :: n > 0 && Follow(db, Some(x), n) == Some(y)
  }

  /** A row met again is on a loop, and a row on a loop has no complete provenance. */
  lemma RestNotOnLoop(db: Tables, h: Id, child: Option<Row>, room: Id, action: string, clock: Clock, tick: nat)
    requires Referenced(db) && Reaches(db, h, h)
    ensures !Rest(db, h, child, room, action, clock, tick)
  {
    if Rest(db, h, child, room, action, clock, tick) {
      var n: nat :| n > 0 && Follow(db, Some(h), n) == Some(h);
      var chain :| chain != [] && chain[0] == h && IsProvenance(db, chain, room, action, clock, tick);
      ProvenanceEnds(db, chain, room, action, clock, tick);
      LoopNeverEnds(db, h, n, |chain|);
    }
  }

  lemma SeenStep(db: Tables, seen: set<Id>, h: Id, next: Id)
    requires Next(db, h) == Some(next)
    requires forall x :: x in seen ==> Reaches(db, x, h)
    ensures forall x :: x in seen + {h} ==> Reaches(db, x, next)
  {
    assert Follow(db, Some(h), 1) == Follow(db, Some(next), 0);
    forall x | x in seen
      ensures Reaches(db, x, next)
    {
      var n: nat :| n > 0 && Follow(db, Some(x), n) == Some(h);
      FollowSum(db, Some(x), n, 1);
      assert Follow(db, Some(x), n + 1) == Some(next);
    }
  }

  /**
   `validHistory`. It ends on every table: each turn adds a row to `seen`. It reads the clock once for
   each row it gets that far with; `ticks` counts the readings.
   */
  method ValidHistory(db: Tables, id: Id, room: Id, action: string, clock: Clock, tick: nat)
    returns (valid: bool, ticks: nat)
    requires Referenced(db)
    ensures valid <==> Valid(db, id, room, action, clock, tick)
    ensures ticks >= tick
  {
    var seen: set<Id> := {};
    var next := Some(id);
    var child: Option<Row> := None;
    ticks := tick;
    assert Rest(db, id, None, room, action, clock, tick) <==> Valid(db, id, room, action, clock, tick);
    hide Valid, Rest, Inside, Lends, RootOk, Follow;
    while next.Some?
      invariant next.Some? && ticks >= tick && seen <= db.history.Keys
      invariant Valid(db, id, room, action, clock, tick) <==> Rest(db, next.value, child, room, action, clock, ticks)
      invariant forall x :: x in seen ==> Reaches(db, x, next.value)
      decreases db.history.Keys - seen
    {
      var h := next.value;
      if h in seen {
        RestNotOnLoop(db, h, child, room, action, clock, ticks);
        return false, ticks;
      }
      RestNeeds(db, h, child, room, action, clock, ticks);
      if h !in db.history {
        return false, ticks;
      }
      var row := db.history[h];
      if db.grants[row.source].room != room || action !in row.actions {
        return false, ticks;
      }
      if child.Some? && !Inside(child.value, row) {
        return false, ticks;
      }
      var now := clock(ticks);
      if !Lends(db, row.source, action, now) {
        return false, ticks + 1;
      }
      RestStep(db, h, child, room, action, clock, ticks);
      if row.provenance.None? {
        return RootOk(db, row), ticks + 1;
      }
      SeenStep(db, seen, h, row.provenance.value);
      assert h in db.history.Keys - seen;
      seen, child, next, ticks := seen + {h}, Some(row), row.provenance, ticks + 1;
    }
    assert false;
  }

  // ----- What a valid row gives -----

  /** Windows are nested along a provenance: an instant of one is in all its ancestors'. */
  lemma {:induction false} WindowsNest(db: Tables, chain: seq<Id>, room: Id, action: string, clock: Clock, tick: nat,
      i: nat, j: nat)
    requires Referenced(db) && IsProvenance(db, chain, room, action, clock, tick) && i <= j < |chain|
    ensures db.history[chain[j]].from <= db.history[chain[i]].from && db.history[chain[i]].to <= db.history[chain[j]].to
    decreases j - i
  {
    if i < j {
      WindowsNest(db, chain, room, action, clock, tick, i, j - 1);
      assert Inside(db.history[chain[j - 1]], db.history[chain[j]]);
    }
  }

  /** A row lends from the grant `source`, in force in this room, to `grant`. */
  ghost predicate Hop(db: Tables, grant: Id, source: Id, room: Id, action: string, now: Time)
    requires Referenced(db)
  {
    && source in db.grants && db.grants[source].room == room && Lends(db, source, action, now)
    && exists h :: h in db.history && db.history[h].grant == grant && db.history[h].source == source
        && action in db.history[h].actions
  }

  /** A path of grants of one room, each lent to by the next, all in force when they are read. */
  ghost predicate IsDelegation(db: Tables, grants: seq<Id>, room: Id, action: string, clock: Clock, tick: nat)
    requires Referenced(db)
  {
    |grants| > 1 && forall i :: 0 <= i < |grants| - 1 ==>
        Hop(db, grants[i], grants[i + 1], room, action, clock(tick + i))
  }

  lemma HopAt(db: Tables, chain: seq<Id>, room: Id, action: string, clock: Clock, tick: nat, i: nat)
    requires Referenced(db) && IsProvenance(db, chain, room, action, clock, tick) && i < |chain|
    ensures chain[i] in db.history
    ensures Hop(db, db.history[chain[i]].grant, db.history[chain[i]].source, room, action, clock(tick + i))
    ensures i > 0 ==> db.history[chain[i]].grant == db.history[chain[i - 1]].source
  {
    assert RowOk(db, chain[i], room, action, clock(tick + i));
    hide Lends;
    if i > 0 {
      assert Inside(db.history[chain[i - 1]], db.history[chain[i]]);
    }
  }

  /** The grants along a provenance: the one that received the first row, then those that lent. */
  ghost function Lenders(db: Tables, chain: seq<Id>): seq<Id>
    requires Referenced(db) && chain != [] && forall i :: 0 <= i < |chain| ==> chain[i] in db.history
  {
    seq(|chain| + 1, i requires 0 <= i <= |chain| =>
      if i == 0 then db.history[chain[0]].grant else db.history[chain[i - 1]].source)
  }

  /**
   A row that counts for a grant comes down a finite path of grants in force, and every instant of its
   window is no earlier than the moment the grant at the far end took effect.
   */
  lemma ValidRowIsDelegated(db: Tables, h: Id, room: Id, action: string, clock: Clock, tick: nat)
    returns (grants: seq<Id>)
    requires Referenced(db) && Valid(db, h, room, action, clock, tick)
    ensures IsDelegation(db, grants, room, action, clock, tick)
    ensures grants[0] == db.history[h].grant
    ensures grants[|grants| - 1] in db.grants && db.grants[grants[|grants| - 1]].effectiveAt <= db.history[h].from
  {
    var chain :| chain != [] && chain[0] == h && IsProvenance(db, chain, room, action, clock, tick);
    var last := |chain| - 1;
    HopAt(db, chain, room, action, clock, tick, last);
    WindowsNest(db, chain, room, action, clock, tick, 0, last);
    assert RootOk(db, db.history[chain[last]]);
    hide IsProvenance, Hop, Lends, Inside, RowOk, Referenced;
    forall i | 0 <= i < |chain|
      ensures chain[i] in db.history
    {
      HopAt(db, chain, room, action, clock, tick, i);
    }
    grants := Lenders(db, chain);
    forall i | 0 <= i < |grants| - 1
      ensures Hop(db, grants[i], grants[i + 1], room, action, clock(tick + i))
    {
      HopAt(db, chain, room, action, clock, tick, i);
    }
  }

  // ----- The ranges of a grant -----

  datatype Range = Range(gte: Time, lt: Option<Time>, history: Option<Id>)

  /** The query of `history`, at the moments `atSource` and `atAdmin` of its two filters. */
  predicate Selected(db: Tables, grant: Id, action: string, atSource: Time, atAdmin: Time, h: Id)
    requires Referenced(db)
  {
    && h in db.history
    && db.history[h].grant == grant
    && action in db.history[h].actions
    && var source := db.grants[db.history[h].source];
       var admin := db.admins[source.issuedUnder];
       && Unexpired(source.effectiveAt, source.expiresAt, source.revokedAt, atSource)
       && source.actions >= {action, "READ"}
       && source.memberActive
       && Unexpired(admin.effectiveAt, admin.expiresAt, admin.revokedAt, atAdmin)
       && "ACCESS_ADMIN" in admin.actions
       && admin.ceiling >= {action, "READ"}
       && admin.internal
       && admin.memberActive
  }

  /** The windows of the rows that have a complete provenance, each judged from its own reading on. */
  ghost function Windows(db: Tables, rows: seq<Id>, room: Id, action: string, clock: Clock, ticks: seq<nat>): seq<Range>
    requires Referenced(db) && |ticks| == |rows|
  {
    if rows == [] then []
    else
      var n := |rows| - 1;
      Windows(db, rows[..n], room, action, clock, ticks[..n])
      + if Valid(db, rows[n], room, action, clock, ticks[n])
        then [Range(db.history[rows[n]].from, Some(db.history[rows[n]].to), Some(rows[n]))] else []
  }

  /** Readings that follow the query's two and one another. */
  ghost predicate Successive(ticks: seq<nat>) {
    (ticks != [] ==> ticks[0] == 2) && forall i, j :: 0 <= i < j < |ticks| ==> ticks[i] <= ticks[j]
  }

  /** The loop of `history` over the rows the query returns. */
  method CollectWindows(db: Tables, room: Id, action: string, rows: seq<Id>, clock: Clock)
    returns (ranges: seq<Range>, ghost ticks: seq<nat>)
    requires Referenced(db)
    ensures |ticks| == |rows| && Successive(ticks)
    ensures ranges == Windows(db, rows, room, action, clock, ticks)
  {
    hide Valid, Referenced;
    ranges, ticks := [], [];
    var tick: nat := 2;
    for i := 0 to |rows|
      invariant |ticks| == i && Successive(ticks) && (if ticks == [] then tick == 2 else ticks[i - 1] <= tick)
      invariant ranges == Windows(db, rows[..i], room, action, clock, ticks)
    {
      assert rows[..i + 1][..i] == rows[..i] && rows[..i + 1][i] == rows[i];
      ticks := ticks + [tick];
      assert ticks[..i] == ticks[..|ticks| - 1];
      var valid;
      valid, tick := ValidHistory(db, rows[i], room, action, clock, tick);
      if valid {
        ranges := ranges + [Range(db.history[rows[i]].from, Some(db.history[rows[i]].to), Some(rows[i]))];
      }
    }
    assert rows[..|rows|] == rows;
  }

  /** `history`: the grant's own range and those of the rows lent to it; `rows` is what the query returns. */
  method History(db: Tables, grant: Id, action: string, rows: seq<Id>, clock: Clock)
    returns (ranges: seq<Range>)
    requires Referenced(db) && grant in db.grants
    requires forall h :: h in rows <==> Selected(db, grant, action, clock(0), clock(1), h)
    ensures exists ticks: seq<nat> ::
              && |ticks| == |rows| && Successive(ticks)
              && ranges == [Range(db.grants[grant].effectiveAt, None, None)]
                           + Windows(db, rows, db.grants[grant].room, action, clock, ticks)
  {
    hide Selected, Valid, Referenced, Windows, Successive;
    var windows, ticks := CollectWindows(db, db.grants[grant].room, action, rows, clock);
    ranges := [Range(db.grants[grant].effectiveAt, None, None)] + windows;
  }

  /** Every lent range of a grant comes down a path of grants that starts at it. */
  lemma {:induction false} WindowsAreDelegated(db: Tables, grant: Id, rows: seq<Id>, action: string, clock: Clock,
      ticks: seq<nat>, r: Range)
    requires Referenced(db) && grant in db.grants && |ticks| == |rows|
    requires forall h :: h in rows ==> h in db.history && db.history[h].grant == grant
    requires r in Windows(db, rows, db.grants[grant].room, action, clock, ticks)
    ensures exists grants, k: nat ::
              && k < |rows| && r.history == Some(rows[k])
              && IsDelegation(db, grants, db.grants[grant].room, action, clock, ticks[k])
              && grants[0] == grant && grants[|grants| - 1] in db.grants
              && db.grants[grants[|grants| - 1]].effectiveAt <= r.gte
    decreases |rows|
  {
    var n := |rows| - 1;
    var room := db.grants[grant].room;
    if r in Windows(db, rows[..n], room, action, clock, ticks[..n]) {
      WindowsAreDelegated(db, grant, rows[..n], action, clock, ticks[..n], r);
    } else {
      assert Valid(db, rows[n], room, action, clock, ticks[n]) && r.gte == db.history[rows[n]].from;
      var grants := ValidRowIsDelegated(db, rows[n], room, action, clock, ticks[n]);
    }
  }
}
