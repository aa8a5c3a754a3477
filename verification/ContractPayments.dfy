/**
 Payment schedules and the payments allocated to them (`contracts.service.ts`): money is neither lost
 nor counted twice, whatever mistakes an allocation list contains.
 */
module ContractPayments {
  import opened Cents
  import opened Outcomes
  import opened Totals

  type Id = string

  type Key = string

  datatype Status = Planned | PartiallyPaid | Paid

  datatype Schedule = Schedule(project: Id, contract: Id, amount: int, paid: int, outstanding: int, status: Status)

  /** `amount` is exact, in cents; what is kept of it in a row is rounded. */
  datatype Allocation = Allocation(schedule: Id, amount: real)

  datatype Payment = Payment(project: Id, amount: int)

  /** A row that ties a part of a payment to a schedule. */
  datatype Row = Row(payment: Key, schedule: Id, amount: int)

  datatype Refusal = Unequal | ScheduleNotFound | ExceedsOutstanding | DuplicateKey | ExceedsValue | DuplicateSequence

  // ----- Allocation lists -----

  function SumOf(allocations: seq<Allocation>): real {
    if allocations == [] then 0.0 else SumOf(allocations[..|allocations| - 1]) + allocations[|allocations| - 1].amount
  }

  /** The schedules that the query for the listed ids finds. */
  function Found(schedules: map<Id, Schedule>, project: Id, allocations: seq<Allocation>): set<Id> {
    set a | a in allocations && Here(schedules, project, a) :: a.schedule
  }

  ghost predicate AllFound(schedules: map<Id, Schedule>, project: Id, allocations: seq<Allocation>) {
    forall a :: a in allocations ==> Here(schedules, project, a)
  }

  ghost predicate Distinct(allocations: seq<Allocation>) {
    forall i, j :: 0 <= i < j < |allocations| ==> allocations[i].schedule != allocations[j].schedule
  }

  predicate Here(schedules: map<Id, Schedule>, project: Id, a: Allocation) {
    a.schedule in schedules && schedules[a.schedule].project == project
  }

  lemma FoundLast(schedules: map<Id, Schedule>, project: Id, init: seq<Allocation>, last: Allocation)
    ensures Found(schedules, project, init + [last]) ==
            Found(schedules, project, init) + if Here(schedules, project, last) then {last.schedule} else {}
    ensures AllFound(schedules, project, init + [last]) <==>
            AllFound(schedules, project, init) && Here(schedules, project, last)
  {
    assert forall a :: a in init + [last] <==> a in init || a == last;
  }

  lemma DistinctLast(schedules: map<Id, Schedule>, project: Id, init: seq<Allocation>, last: Allocation)
    requires Here(schedules, project, last)
    ensures Distinct(init + [last]) <==> Distinct(init) && last.schedule !in Found(schedules, project, init)
  {
    var all := init + [last];
    if last.schedule in Found(schedules, project, init) {
      var a :| a in init && a.schedule == last.schedule;
      var i :| 0 <= i < |init| && init[i] == a;
      assert all[i].schedule == all[|init|].schedule;
    } else {
      forall i | 0 <= i < |init|
        ensures init[i].schedule != last.schedule
      {
        assert init[i] in init;
      }
    }
    if Distinct(all) {
      forall i, j | 0 <= i < j < |init|
        ensures init[i].schedule != init[j].schedule
      {
        assert all[i] == init[i] && all[j] == init[j];
      }
    }
  }

  /**
   Comparing two counts decides both questions at once: the query finds as many schedules as there are
   allocations exactly when each allocation has its schedule and no schedule is named twice.
   */
  lemma {:induction false} CountDecides(schedules: map<Id, Schedule>, project: Id, allocations: seq<Allocation>)
    ensures |Found(schedules, project, allocations)| <= |allocations|
    ensures |Found(schedules, project, allocations)| == |allocations| <==>
            AllFound(schedules, project, allocations) && Distinct(allocations)
  {
    if allocations == [] {
      assert Found(schedules, project, allocations) == {};
    } else {
      hide Found, AllFound, Distinct, Here;
      var n := |allocations| - 1;
      var init, last := allocations[..n], allocations[n];
      CountDecides(schedules, project, init);
      assert allocations == init + [last];
      FoundLast(schedules, project, init, last);
      if Here(schedules, project, last) {
        DistinctLast(schedules, project, init, last);
      }
    }
  }

  // ----- What a payment does to the schedules -----

  function Settled(s: Schedule, amount: real): Schedule {
    s.(paid := Stored(s.paid as real + amount),
       outstanding := Stored(s.outstanding as real - amount),
       status := if s.outstanding as real - amount == 0.0 then Paid else PartiallyPaid)
  }

  /** Amounts in whole cents, which the columns keep as they are. */
  ghost predicate AllWhole(allocations: seq<Allocation>) {
    forall a :: a in allocations ==> Whole(a.amount)
  }

  lemma {:induction false} WholeTotal(allocations: seq<Allocation>)
    requires AllWhole(allocations)
    ensures Whole(SumOf(allocations)) && StoredSum(allocations) == Stored(SumOf(allocations))
  {
    if allocations == [] {
      StoredWhole(0);
    } else {
      var init, last := allocations[..|allocations| - 1], allocations[|allocations| - 1];
      assert last in allocations && forall a :: a in init ==> a in allocations;
      hide Stored, Whole;
      WholeTotal(init);
      WholeSum(SumOf(init), last.amount);
    }
  }

  /** The allocations applied one after the other. */
  function Applied(schedules: map<Id, Schedule>, allocations: seq<Allocation>): (r: map<Id, Schedule>)
    requires forall a :: a in allocations ==> a.schedule in schedules
    ensures r.Keys == schedules.Keys
  {
    if allocations == [] then schedules
    else
      var init, last := allocations[..|allocations| - 1], allocations[|allocations| - 1];
      var before := Applied(schedules, init);
      before[last.schedule := Settled(before[last.schedule], last.amount)]
  }

  /** While no schedule is named twice, the row read at the start is still the current one. */
  lemma {:induction false} SnapshotIsCurrent(schedules: map<Id, Schedule>, allocations: seq<Allocation>, id: Id)
    requires forall a :: a in allocations ==> a.schedule in schedules
    requires id in schedules && forall a :: a in allocations ==> a.schedule != id
    ensures Applied(schedules, allocations)[id] == schedules[id]
  {
    if allocations != [] {
      SnapshotIsCurrent(schedules, allocations[..|allocations| - 1], id);
    }
  }

  function RowsOf(key: Key, allocations: seq<Allocation>): seq<Row> {
    seq(|allocations|, i requires 0 <= i < |allocations| =>
        Row(key, allocations[i].schedule, Stored(allocations[i].amount)))
  }

  // ----- The ledger's invariant -----

  ghost function PaidIn(schedules: map<Id, Schedule>, project: Id): map<Id, int> {
    map s | s in schedules && schedules[s].project == project :: schedules[s].paid
  }

  ghost function ReceivedIn(payments: map<Key, Payment>, project: Id): map<Key, int> {
    map p | p in payments && payments[p].project == project :: payments[p].amount
  }

  /** What the rows give to one schedule. */
  ghost function AllocatedTo(rows: seq<Row>, id: Id): int {
    if rows == [] then 0
    else
      var last := rows[|rows| - 1];
      AllocatedTo(rows[..|rows| - 1], id) + if last.schedule == id then last.amount else 0
  }

  ghost predicate Touched(rows: seq<Row>, id: Id) {
    exists r :: r in rows && r.schedule == id
  }

  /** One schedule against the rows: nothing lost, nothing overpaid, and the status says which. */
  ghost predicate InOrder(s: Schedule, rows: seq<Row>, id: Id) {
    && s.paid + s.outstanding == s.amount
    && s.paid == AllocatedTo(rows, id)
    && (Touched(rows, id) ==> s.outstanding >= 0 && s.status == if s.outstanding == 0 then Paid else PartiallyPaid)
    && (!Touched(rows, id) ==> s.status == Planned && s.outstanding == s.amount)
  }

  ghost predicate SchedulesInOrder(schedules: map<Id, Schedule>, rows: seq<Row>) {
    && (forall id :: id in schedules ==> InOrder(schedules[id], rows, id))
    && (forall r :: r in rows ==> r.schedule in schedules)
  }

  /** A project's schedules were paid exactly what the project received. */
  ghost predicate Conserved(schedules: map<Id, Schedule>, payments: map<Key, Payment>) {
    forall project :: Total(PaidIn(schedules, project)) == Total(ReceivedIn(payments, project))
  }

  lemma {:induction false} AppliedProject(schedules: map<Id, Schedule>, allocations: seq<Allocation>, id: Id)
    requires (forall a :: a in allocations ==> a.schedule in schedules) && id in schedules
    ensures Applied(schedules, allocations)[id].project == schedules[id].project
  {
    hide Stored;
    if allocations != [] {
      assert allocations[|allocations| - 1] in allocations;
      AppliedProject(schedules, allocations[..|allocations| - 1], id);
    }
  }

  /** By how much the paid columns grow: each is rounded after its own addition. */
  function Added(schedules: map<Id, Schedule>, allocations: seq<Allocation>): int
    requires forall a :: a in allocations ==> a.schedule in schedules
  {
    if allocations == [] then 0
    else
      var init, last := allocations[..|allocations| - 1], allocations[|allocations| - 1];
      Added(schedules, init) + Settled(schedules[last.schedule], last.amount).paid - schedules[last.schedule].paid
  }

  lemma {:induction false} AppliedTotal(schedules: map<Id, Schedule>, allocations: seq<Allocation>, project: Id,
      other: Id)
    requires AllFound(schedules, project, allocations) && Distinct(allocations)
    ensures Total(PaidIn(Applied(schedules, allocations), other)) ==
            Total(PaidIn(schedules, other)) + if other == project then Added(schedules, allocations) else 0
  {
    hide Stored;
    if allocations != [] {
      var n := |allocations| - 1;
      var init, last := allocations[..n], allocations[n];
      assert last in allocations && Here(schedules, project, last);
      assert Distinct(init) && AllFound(schedules, project, init);
      NotYetNamed(allocations, n);
      AppliedTotal(schedules, init, project, other);
      SnapshotIsCurrent(schedules, init, last.schedule);
      hide Distinct, AllFound;
      PaidUpdate(Applied(schedules, init), last.schedule, Settled(schedules[last.schedule], last.amount), other);
    }
  }

  lemma PaidUpdate(schedules: map<Id, Schedule>, id: Id, s: Schedule, project: Id)
    requires id in schedules && s.project == schedules[id].project
    ensures Total(PaidIn(schedules[id := s], project)) ==
            Total(PaidIn(schedules, project)) + if s.project == project then s.paid - schedules[id].paid else 0
  {
    var before, after := PaidIn(schedules, project), PaidIn(schedules[id := s], project);
    if s.project == project {
      assert after == before[id := s.paid];
      TotalUpdate(before, id, s.paid);
    } else {
      assert after == before;
    }
  }

  lemma ReceivedInsert(payments: map<Key, Payment>, key: Key, p: Payment, project: Id)
    requires key !in payments
    ensures Total(ReceivedIn(payments[key := p], project)) ==
            Total(ReceivedIn(payments, project)) + if p.project == project then p.amount else 0
  {
    var before, after := ReceivedIn(payments, project), ReceivedIn(payments[key := p], project);
    if p.project == project {
      assert after == before[key := p.amount];
      TotalInsert(before, key, p.amount);
    } else {
      assert after == before;
    }
  }

  /**
   A payment conserves the project's total exactly when the paid columns grow, each rounded by itself, by
   what is stored of the payment.
   */
  lemma PaymentConservesExactly(schedules: map<Id, Schedule>, payments: map<Key, Payment>, key: Key, project: Id,
      allocations: seq<Allocation>)
    requires Conserved(schedules, payments) && key !in payments
    requires AllFound(schedules, project, allocations) && Distinct(allocations)
    ensures Conserved(Applied(schedules, allocations), payments[key := Payment(project, Stored(SumOf(allocations)))])
            <==> Added(schedules, allocations) == Stored(SumOf(allocations))
  {
    var after, received := Applied(schedules, allocations),
      payments[key := Payment(project, Stored(SumOf(allocations)))];
    hide Stored, Applied, SumOf, Distinct, AllFound;
    forall other
      ensures Total(PaidIn(after, other)) == Total(ReceivedIn(received, other))
              <==> (other == project ==> Added(schedules, allocations) == Stored(SumOf(allocations)))
    {
      AppliedTotal(schedules, allocations, project, other);
      ReceivedInsert(payments, key, Payment(project, Stored(SumOf(allocations))), other);
      assert Total(PaidIn(schedules, other)) == Total(ReceivedIn(payments, other));
    }
    assert Total(PaidIn(after, project)) == Total(ReceivedIn(received, project)) <==>
        Added(schedules, allocations) == Stored(SumOf(allocations));
  }

  /** What the allocation rows keep of a list. */
  function StoredSum(allocations: seq<Allocation>): int {
    if allocations == [] then 0
    else StoredSum(allocations[..|allocations| - 1]) + Stored(allocations[|allocations| - 1].amount)
  }

  /** With nothing negative, the paid columns grow by what the allocation rows keep. */
  lemma {:induction false} AddedIsStored(schedules: map<Id, Schedule>, allocations: seq<Allocation>)
    requires forall a :: a in allocations ==> a.schedule in schedules
    requires forall a :: a in allocations ==>
      Stored(schedules[a.schedule].paid as real + a.amount) == schedules[a.schedule].paid + Stored(a.amount)
    ensures Added(schedules, allocations) == StoredSum(allocations)
  {
    hide Stored;
    if allocations != [] {
      assert allocations[|allocations| - 1] in allocations;
      AddedIsStored(schedules, allocations[..|allocations| - 1]);
    }
  }

  /** Conservation of totals where no amount is negative: the sum of the rounded parts is the rounded sum. */
  lemma TotalsKeptExactly(schedules: map<Id, Schedule>, payments: map<Key, Payment>, key: Key, project: Id,
      allocations: seq<Allocation>)
    requires Conserved(schedules, payments) && key !in payments
    requires AllFound(schedules, project, allocations) && Distinct(allocations)
    requires forall a :: a in allocations ==> a.amount >= 0.0 && schedules[a.schedule].paid >= 0
    ensures Conserved(Applied(schedules, allocations), payments[key := Payment(project, Stored(SumOf(allocations)))])
            <==> StoredSum(allocations) == Stored(SumOf(allocations))
  {
    forall a | a in allocations
      ensures Stored(schedules[a.schedule].paid as real + a.amount) == schedules[a.schedule].paid + Stored(a.amount)
    {
      AddCents(schedules[a.schedule].paid, a.amount);
    }
    PaymentConservesExactly(schedules, payments, key, project, allocations);
    hide Stored, Conserved;
    AddedIsStored(schedules, allocations);
  }

  /**
   The columns of a schedule take the allocation as its row keeps it, and no remainder is stored as
   zero.
   */
  predicate Takes(s: Schedule, amount: real) {
    && Stored(s.paid as real + amount) == s.paid + Stored(amount)
    && Stored(s.outstanding as real - amount) == s.outstanding - Stored(amount)
    && (s.outstanding == Stored(amount) ==> s.outstanding as real == amount)
  }

  /** For amounts that are not negative: no half cents, and nothing or half a cent at least remains. */
  lemma TakesExactly(s: Schedule, amount: real)
    requires s.paid >= 0 && 0.0 <= amount <= s.outstanding as real
    ensures Takes(s, amount) <==>
            !Half(amount) && (amount == s.outstanding as real || s.outstanding as real - amount >= 0.5)
  {
    var whole, part := amount.Floor, amount - amount.Floor as real;
    AddCents(s.paid, amount);
    MoveRoundsUp(s.outstanding, s.paid, whole, part);
    MoveRoundsUp(whole + 1, 0, whole, part);
  }

  lemma WholeTakes(s: Schedule, amount: real)
    requires Whole(amount)
    ensures Takes(s, amount)
  {
    WholeColumn(s.paid, amount);
    WholeColumn(s.outstanding, amount);
  }

  /** One schedule and the rows with one more for it. */
  lemma OneInOrderExactly(s: Schedule, rows: seq<Row>, all: seq<Row>, id: Id, amount: real)
    requires InOrder(s, rows, id) && amount <= s.outstanding as real
    requires Touched(all, id) && AllocatedTo(all, id) == AllocatedTo(rows, id) + Stored(amount)
    ensures InOrder(Settled(s, amount), all, id) <==> Takes(s, amount)
  {
    StoredNear(s.outstanding as real - amount);
    StoredWhole(0);
    hide Stored, AllocatedTo, Touched;
  }

  // ----- A list of allocations against the rows -----

  function GivenTo(allocations: seq<Allocation>, id: Id): int {
    if allocations == [] then 0
    else
      var last := allocations[|allocations| - 1];
      GivenTo(allocations[..|allocations| - 1], id) + if last.schedule == id then Stored(last.amount) else 0
  }

  ghost predicate Named(allocations: seq<Allocation>, id: Id) {
    exists a :: a in allocations && a.schedule == id
  }

  lemma {:induction false} AllocatedAppend(rows: seq<Row>, key: Key, allocations: seq<Allocation>, id: Id)
    ensures AllocatedTo(rows + RowsOf(key, allocations), id) == AllocatedTo(rows, id) + GivenTo(allocations, id)
    ensures Touched(rows + RowsOf(key, allocations), id) <==> Touched(rows, id) || Named(allocations, id)
  {
    hide Stored;
    if allocations == [] {
      assert rows + RowsOf(key, allocations) == rows;
    } else {
      var init, last := allocations[..|allocations| - 1], allocations[|allocations| - 1];
      var row := Row(key, last.schedule, Stored(last.amount));
      assert init + [last] == allocations;
      RowsStep(key, init, last);
      AllocatedAppend(rows, key, init, id);
      var before := rows + RowsOf(key, init);
      assert rows + RowsOf(key, allocations) == before + [row] && (before + [row])[..|before|] == before;
      hide RowsOf;
      assert Touched(before + [row], id) <==> Touched(before, id) || row.schedule == id by {
        assert row in before + [row];
      }
      assert Named(init + [last], id) <==> Named(init, id) || last.schedule == id by {
        assert last in init + [last];
      }
    }
  }

  lemma {:induction false} GivenOnce(allocations: seq<Allocation>, i: nat)
    requires Distinct(allocations) && i < |allocations|
    ensures GivenTo(allocations, allocations[i].schedule) == Stored(allocations[i].amount)
  {
    hide Stored;
    var n := |allocations| - 1;
    if i == n {
      NotYetNamed(allocations, n);
      GivenNothing(allocations[..n], allocations[n].schedule);
    } else {
      GivenOnce(allocations[..n], i);
    }
  }

  lemma {:induction false} GivenNothing(allocations: seq<Allocation>, id: Id)
    requires !Named(allocations, id)
    ensures GivenTo(allocations, id) == 0
  {
    hide Stored;
    if allocations != [] {
      assert allocations[|allocations| - 1] in allocations;
      assert forall a :: a in allocations[..|allocations| - 1] ==> a in allocations;
      GivenNothing(allocations[..|allocations| - 1], id);
    }
  }

  /** An allocated schedule ends as its own allocation settles it. */
  lemma {:induction false} AppliedAt(schedules: map<Id, Schedule>, allocations: seq<Allocation>, i: nat)
    requires (forall a :: a in allocations ==> a.schedule in schedules) && Distinct(allocations) && i < |allocations|
    ensures allocations[i] in allocations
    ensures Applied(schedules, allocations)[allocations[i].schedule]
            == Settled(schedules[allocations[i].schedule], allocations[i].amount)
  {
    hide Settled;
    var n := |allocations| - 1;
    assert allocations[i] in allocations && allocations[n] in allocations;
    if i == n {
      NotYetNamed(allocations, n);
      SnapshotIsCurrent(schedules, allocations[..n], allocations[n].schedule);
    } else {
      AppliedAt(schedules, allocations[..n], i);
    }
  }

  /** The allocated schedule, whatever the others. */
  lemma NamedInOrderExactly(schedules: map<Id, Schedule>, rows: seq<Row>, key: Key, allocations: seq<Allocation>,
      i: nat)
    requires SchedulesInOrder(schedules, rows) && (forall a :: a in allocations ==> a.schedule in schedules)
    requires Distinct(allocations) && i < |allocations|
    requires allocations[i] in allocations
             && allocations[i].amount <= schedules[allocations[i].schedule].outstanding as real
    ensures var a := allocations[i];
            InOrder(Applied(schedules, allocations)[a.schedule], rows + RowsOf(key, allocations), a.schedule)
            <==> Takes(schedules[a.schedule], a.amount)
  {
    var a := allocations[i];
    AppliedAt(schedules, allocations, i);
    AllocatedAppend(rows, key, allocations, a.schedule);
    GivenOnce(allocations, i);
    assert InOrder(schedules[a.schedule], rows, a.schedule);
    hide InOrder, Takes, Applied, RowsOf, AllocatedTo, Touched, Settled, Stored, GivenTo;
    OneInOrderExactly(schedules[a.schedule], rows, rows + RowsOf(key, allocations), a.schedule, a.amount);
  }

  lemma UnnamedInOrder(schedules: map<Id, Schedule>, rows: seq<Row>, key: Key, allocations: seq<Allocation>, id: Id)
    requires SchedulesInOrder(schedules, rows) && (forall a :: a in allocations ==> a.schedule in schedules)
    requires id in schedules && !Named(allocations, id)
    ensures InOrder(Applied(schedules, allocations)[id], rows + RowsOf(key, allocations), id)
  {
    SnapshotIsCurrent(schedules, allocations, id);
    AllocatedAppend(rows, key, allocations, id);
    GivenNothing(allocations, id);
    assert InOrder(schedules[id], rows, id);
    hide Applied, RowsOf, AllocatedTo, Touched, Stored, GivenTo;
  }

  /** A payment leaves every schedule in order exactly when each allocated one takes its allocation. */
  lemma PaymentInOrderExactly(schedules: map<Id, Schedule>, rows: seq<Row>, key: Key, allocations: seq<Allocation>)
    requires SchedulesInOrder(schedules, rows) && (forall a :: a in allocations ==> a.schedule in schedules)
    requires Distinct(allocations)
    requires forall a :: a in allocations ==> a.amount <= schedules[a.schedule].outstanding as real
    ensures SchedulesInOrder(Applied(schedules, allocations), rows + RowsOf(key, allocations))
            <==> forall a :: a in allocations ==> Takes(schedules[a.schedule], a.amount)
  {
    var after, all := Applied(schedules, allocations), rows + RowsOf(key, allocations);
    assert forall r :: r in all ==> r.schedule in after by {
      RowsNamed(key, allocations);
    }
    forall a | a in allocations
      ensures InOrder(after[a.schedule], all, a.schedule) <==> Takes(schedules[a.schedule], a.amount)
    {
      var i :| 0 <= i < |allocations| && allocations[i] == a;
      NamedInOrderExactly(schedules, rows, key, allocations, i);
    }
    forall id | id in schedules && !Named(allocations, id)
      ensures InOrder(after[id], all, id)
    {
      UnnamedInOrder(schedules, rows, key, allocations, id);
    }
    hide InOrder, Takes, Applied, RowsOf, Distinct;
  }

  lemma RowsNamed(key: Key, allocations: seq<Allocation>)
    ensures forall r :: r in RowsOf(key, allocations) ==> Named(allocations, r.schedule)
  {
    hide Stored;
    forall r | r in RowsOf(key, allocations)
      ensures Named(allocations, r.schedule)
    {
      var i :| 0 <= i < |allocations| && RowsOf(key, allocations)[i] == r;
      assert allocations[i] in allocations && allocations[i].schedule == r.schedule;
    }
  }

  lemma RowsStep(key: Key, init: seq<Allocation>, a: Allocation)
    ensures RowsOf(key, init + [a]) == RowsOf(key, init) + [Row(key, a.schedule, Stored(a.amount))]
  {
    hide Stored;
  }

  lemma NotYetNamed(allocations: seq<Allocation>, i: nat)
    requires i < |allocations| && Distinct(allocations)
    ensures forall b :: b in allocations[..i] ==> b.schedule != allocations[i].schedule
  {
  }

  lemma AppliedStep(snapshot: map<Id, Schedule>, key: Key, allocations: seq<Allocation>, i: nat)
    requires i < |allocations| && Distinct(allocations)
    requires forall a :: a in allocations ==> a.schedule in snapshot
    ensures forall a :: a in allocations[..i + 1] ==> a.schedule in snapshot
    ensures forall a :: a in allocations[..i] ==> a.schedule in snapshot
    ensures var a := allocations[i];
            && a.schedule in snapshot
            && Applied(snapshot, allocations[..i + 1]) ==
               Applied(snapshot, allocations[..i])[a.schedule := Settled(snapshot[a.schedule], a.amount)]
            && RowsOf(key, allocations[..i + 1])
                == RowsOf(key, allocations[..i]) + [Row(key, a.schedule, Stored(a.amount))]
  {
    var init, a := allocations[..i], allocations[i];
    assert a in allocations && forall b :: b in init ==> b in allocations;
    NotYetNamed(allocations, i);
    hide Distinct, Settled, Stored, RowsOf;
    SnapshotIsCurrent(snapshot, init, a.schedule);
    RowsStep(key, init, a);
    assert allocations[..i + 1] == init + [a] && (init + [a])[..i] == init;
  }

  // ----- The service -----

  datatype Ledger = Ledger(schedules: map<Id, Schedule>, payments: map<Key, Payment>, rows: seq<Row>)

  ghost predicate Inv(l: Ledger) {
    && SchedulesInOrder(l.schedules, l.rows)
    && Conserved(l.schedules, l.payments)
  }

  /** The transaction's tests of a payment, in the source's order. */
  ghost function Refused(l: Ledger, project: Id, key: Key, allocations: seq<Allocation>): Option<Refusal> {
    if !(AllFound(l.schedules, project, allocations) && Distinct(allocations)) then Some(ScheduleNotFound)
    else if exists a :: a in allocations && l.schedules[a.schedule].outstanding as real < a.amount then
      Some(ExceedsOutstanding)
    else if key in l.payments then Some(DuplicateKey)
    else None
  }

  /** The ledger after an accepted payment. */
  ghost function Paying(l: Ledger, project: Id, key: Key, allocations: seq<Allocation>): Ledger
    requires Refused(l, project, key, allocations).None?
  {
    Ledger(Applied(l.schedules, allocations),
           l.payments[key := Payment(project, Stored(SumOf(allocations)))],
           l.rows + RowsOf(key, allocations))
  }

  /** What the rounding of the columns must leave intact. */
  ghost predicate Exact(schedules: map<Id, Schedule>, allocations: seq<Allocation>) {
    && (forall a :: a in allocations ==> a.schedule in schedules && Takes(schedules[a.schedule], a.amount))
    && StoredSum(allocations) == Stored(SumOf(allocations))
  }

  /**
   An accepted payment keeps the books exactly when every schedule takes its allocation and the rounded
   parts sum to the rounded payment.
   */
  lemma PayingKeepsInvExactly(l: Ledger, project: Id, key: Key, allocations: seq<Allocation>)
    requires Inv(l) && Refused(l, project, key, allocations).None?
    ensures Inv(Paying(l, project, key, allocations)) <==> Exact(l.schedules, allocations)
  {
    PaymentInOrderExactly(l.schedules, l.rows, key, allocations);
    PaymentConservesExactly(l.schedules, l.payments, key, project, allocations);
    if forall a :: a in allocations ==> Takes(l.schedules[a.schedule], a.amount) {
      AddedIsStored(l.schedules, allocations);
    }
    hide Takes, Applied, RowsOf, Distinct, AllFound, Conserved, SchedulesInOrder, Stored, SumOf;
  }

  /** In whole cents it always does. */
  lemma PayingKeepsInv(l: Ledger, project: Id, key: Key, allocations: seq<Allocation>)
    requires Inv(l) && Refused(l, project, key, allocations).None? && AllWhole(allocations)
    ensures Inv(Paying(l, project, key, allocations))
  {
    PayingKeepsInvExactly(l, project, key, allocations);
    WholeTotal(allocations);
    forall a | a in allocations
      ensures Takes(l.schedules[a.schedule], a.amount)
    {
      WholeTakes(l.schedules[a.schedule], a.amount);
    }
  }

  class Payments {
    var schedules: map<Id, Schedule>
    var payments: map<Key, Payment>
    var rows: seq<Row>

    ghost function State(): Ledger
      reads this
    {
      Ledger(schedules, payments, rows)
    }

    constructor ()
      ensures Inv(State())
    {
      schedules, payments, rows := map[], map[], [];
      new;
      EmptyInv();
    }

    /**
     `payment`. `overlooked`: the request with the same key had not committed when it was looked up.
     A replay changes nothing; a refusal changes nothing; an accepted payment keeps the books exactly when
     the columns take it.
     */
    method Pay(project: Id, key: Key, amount: real, allocations: seq<Allocation>, overlooked: bool)
      returns (r: Result<Payment, Refusal>)
      requires Inv(State())
      modifies this
      ensures SumOf(allocations) != amount ==> r == Err(Unequal) && State() == old(State())
      ensures SumOf(allocations) == amount && key in old(payments) && !overlooked ==>
              r == Ok(old(payments)[key]) && State() == old(State())
      ensures SumOf(allocations) == amount && (key !in old(payments) || overlooked) ==>
                match Refused(old(State()), project, key, allocations)
                case Some(why) => r == Err(why) && State() == old(State())
                case None =>
                  && r == Ok(Payment(project, Stored(amount)))
                  && State() == Paying(old(State()), project, key, allocations)
      ensures State() != old(State()) ==> (Inv(State()) <==> Exact(old(schedules), allocations))
      ensures AllWhole(allocations) ==> Inv(State())
    {
      if SumOf(allocations) != amount {
        return Err(Unequal);
      }
      if key in payments && !overlooked {
        return Ok(payments[key]);
      }
      CountDecides(schedules, project, allocations);
      if Refused(State(), project, key, allocations).None? {
        PayingKeepsInvExactly(State(), project, key, allocations);
        if AllWhole(allocations) {
          PayingKeepsInv(State(), project, key, allocations);
        }
      }
      hide Inv, Found, Distinct, AllWhole, Exact;
      if |Found(schedules, project, allocations)| != |allocations| {
        return Err(ScheduleNotFound);
      }
      var snapshot := schedules;
      var fits := FitsAll(snapshot, allocations);
      if !fits {
        return Err(ExceedsOutstanding);
      }
      if key in payments {
        return Err(DuplicateKey);
      }
      payments := payments[key := Payment(project, Stored(amount))];
      Allocate(snapshot, key, allocations);
      return Ok(payments[key]);
    }

    /** The first loop of the transaction: it only tests. */
    method FitsAll(snapshot: map<Id, Schedule>, allocations: seq<Allocation>) returns (fits: bool)
      requires forall a :: a in allocations ==> a.schedule in snapshot
      ensures fits <==> !(exists a :: a in allocations && snapshot[a.schedule].outstanding as real < a.amount)
    {
      for i := 0 to |allocations|
        invariant forall j :: 0 <= j < i ==>
                  allocations[j].amount <= snapshot[allocations[j].schedule].outstanding as real
      {
        var a := allocations[i];
        assert a in allocations;
        if a.amount > snapshot[a.schedule].outstanding as real {
          return false;
        }
      }
      return true;
    }

    /** The second loop: each row is computed from what was read before the first. */
    method Allocate(snapshot: map<Id, Schedule>, key: Key, allocations: seq<Allocation>)
      requires snapshot == schedules && Distinct(allocations)
      requires forall a :: a in allocations ==> a.schedule in snapshot
      modifies this`schedules, this`rows
      ensures schedules == Applied(snapshot, allocations)
      ensures rows == old(rows) + RowsOf(key, allocations)
    {
      assert rows == rows + RowsOf(key, allocations[..0]);
      for i := 0 to |allocations|
        invariant forall a :: a in allocations[..i] ==> a.schedule in snapshot
        invariant schedules == Applied(snapshot, allocations[..i])
        invariant rows == old(rows) + RowsOf(key, allocations[..i])
      {
        var a := allocations[i];
        AppliedStep(snapshot, key, allocations, i);
        hide Distinct, Settled, Stored, RowsOf, Applied;
        rows := rows + [Row(key, a.schedule, Stored(a.amount))];
        schedules := schedules[a.schedule := Settled(snapshot[a.schedule], a.amount)];
      }
      assert allocations[..|allocations|] == allocations;
    }

    /**
     `schedules`, for a contract whose value was read as `value`; the sequence numbers start at one, so
     a contract that has schedules refuses more. `ids` are the new rows' fresh ids.
     */
    method Schedules(project: Id, contract: Id, value: int, ids: seq<Id>, items: seq<real>)
      returns (r: Outcome<Refusal>)
      requires Inv(State()) && items != [] && FreshIds(schedules, ids) && |ids| == |items|
      modifies this`schedules
      ensures r == if SumOfItems(items) > value as real then Raised(ExceedsValue)
                   else if Scheduled(old(schedules), contract) then Raised(DuplicateSequence)
                   else Done
      ensures schedules == if r.Raised? then old(schedules) else Opened(old(schedules), project, contract, ids, items)
      ensures Inv(State())
    {
      if SumOfItems(items) > value as real {
        return Raised(ExceedsValue);
      }
      if exists s :: s in schedules && schedules[s].contract == contract {
        return Raised(DuplicateSequence);
      }
      ghost var before := schedules;
      for i := 0 to |items|
        invariant schedules == Opened(before, project, contract, ids[..i], items[..i])
        invariant Inv(State())
      {
        OpenedStep(before, project, contract, ids, items, i);
        AddedKeepsInv(State(), ids[i], Unpaid(project, contract, items[i]));
        hide Inv, FreshIds, Opened, Stored;
        schedules := schedules[ids[i] := Unpaid(project, contract, items[i])];
      }
      assert ids[..|items|] == ids && items[..|items|] == items;
      return Done;
    }
  }

  // ----- Opening schedules -----

  function SumOfItems(items: seq<real>): real {
    if items == [] then 0.0 else SumOfItems(items[..|items| - 1]) + items[|items| - 1]
  }

  function Unpaid(project: Id, contract: Id, item: real): Schedule {
    Schedule(project, contract, Stored(item), 0, Stored(item), Planned)
  }

  ghost predicate FreshIds(schedules: map<Id, Schedule>, ids: seq<Id>) {
    && (forall i :: 0 <= i < |ids| ==> ids[i] !in schedules)
    && (forall i, j :: 0 <= i < j < |ids| ==> ids[i] != ids[j])
  }

  ghost predicate Scheduled(schedules: map<Id, Schedule>, contract: Id) {
    exists s :: s in schedules && schedules[s].contract == contract
  }

  /** The table with a new unpaid schedule for each item. */
  function Opened(schedules: map<Id, Schedule>, project: Id, contract: Id, ids: seq<Id>, items: seq<real>):
      map<Id, Schedule>
    requires |ids| == |items|
    decreases |ids|
  {
    if ids == [] then schedules
    else
      var n := |ids| - 1;
      Opened(schedules, project, contract, ids[..n], items[..n])[ids[n] := Unpaid(project, contract, items[n])]
  }

  lemma {:induction false} OpenedOnly(schedules: map<Id, Schedule>, project: Id, contract: Id, ids: seq<Id>,
      items: seq<real>, id: Id)
    requires |ids| == |items| && id !in schedules && id !in ids
    ensures id !in Opened(schedules, project, contract, ids, items)
    decreases |ids|
  {
    hide Unpaid;
    if ids != [] {
      var n := |ids| - 1;
      assert ids[n] in ids && forall x :: x in ids[..n] ==> x in ids;
      OpenedOnly(schedules, project, contract, ids[..n], items[..n], id);
    }
  }

  lemma OpenedStep(schedules: map<Id, Schedule>, project: Id, contract: Id, ids: seq<Id>, items: seq<real>, i: nat)
    requires i < |items| == |ids| && FreshIds(schedules, ids)
    ensures ids[i] !in Opened(schedules, project, contract, ids[..i], items[..i])
    ensures Opened(schedules, project, contract, ids[..i + 1], items[..i + 1]) ==
            Opened(schedules, project, contract, ids[..i], items[..i])[ids[i] := Unpaid(project, contract, items[i])]
  {
    hide Unpaid;
    OpenedOnly(schedules, project, contract, ids[..i], items[..i], ids[i]);
    assert ids[..i + 1][..i] == ids[..i] && items[..i + 1][..i] == items[..i];
  }

  ghost function AmountsOf(schedules: map<Id, Schedule>, contract: Id): map<Id, int> {
    map s | s in schedules && schedules[s].contract == contract :: schedules[s].amount
  }

  ghost predicate AllWholeItems(items: seq<real>) {
    forall i :: 0 <= i < |items| ==> Whole(items[i])
  }

  lemma {:induction false} WholeItems(items: seq<real>)
    requires AllWholeItems(items)
    ensures Whole(SumOfItems(items))
  {
    hide Stored;
    if items == [] {
      StoredWhole(0);
    } else {
      var n := |items| - 1;
      assert Whole(items[n]) && AllWholeItems(items[..n]);
      hide Whole, AllWholeItems;
      WholeItems(items[..n]);
      WholeSum(SumOfItems(items[..n]), items[n]);
    }
  }

  lemma AmountAdded(schedules: map<Id, Schedule>, id: Id, s: Schedule)
    requires id !in schedules
    ensures Total(AmountsOf(schedules[id := s], s.contract)) == Total(AmountsOf(schedules, s.contract)) + s.amount
  {
    assert AmountsOf(schedules[id := s], s.contract) == AmountsOf(schedules, s.contract)[id := s.amount];
    TotalInsert(AmountsOf(schedules, s.contract), id, s.amount);
  }

  lemma {:induction false} OpenedTotal(schedules: map<Id, Schedule>, project: Id, contract: Id, ids: seq<Id>,
      items: seq<real>)
    requires !Scheduled(schedules, contract) && FreshIds(schedules, ids) && |ids| == |items| && AllWholeItems(items)
    ensures Total(AmountsOf(Opened(schedules, project, contract, ids, items), contract)) == Stored(SumOfItems(items))
    decreases |ids|
  {
    if ids == [] {
      StoredWhole(0);
      assert AmountsOf(schedules, contract) == map[];
    } else {
      var n := |ids| - 1;
      OpenedStep(schedules, project, contract, ids, items, n);
      assert ids[..n + 1] == ids && items[..n + 1] == items;
      assert Whole(items[n]) && AllWholeItems(items[..n]) && FreshIds(schedules, ids[..n]);
      hide Stored, Whole, Opened, AllWholeItems, FreshIds, Scheduled, AmountsOf;
      OpenedTotal(schedules, project, contract, ids[..n], items[..n]);
      WholeItems(items[..n]);
      WholeSum(SumOfItems(items[..n]), items[n]);
      AmountAdded(Opened(schedules, project, contract, ids[..n], items[..n]), ids[n],
          Unpaid(project, contract, items[n]));
    }
  }

  /** In whole cents, the schedules of a contract promise no more than the value that was read. */
  lemma OpenedWithinValue(schedules: map<Id, Schedule>, project: Id, contract: Id, value: int, ids: seq<Id>,
      items: seq<real>)
    requires !Scheduled(schedules, contract) && FreshIds(schedules, ids) && |ids| == |items| && AllWholeItems(items)
    requires SumOfItems(items) <= value as real
    ensures Total(AmountsOf(Opened(schedules, project, contract, ids, items), contract)) <= value
  {
    OpenedTotal(schedules, project, contract, ids, items);
    WholeItems(items);
    WholeColumn(0, SumOfItems(items));
  }

  lemma {:induction false} UntouchedIsZero(rows: seq<Row>, id: Id)
    requires !Touched(rows, id)
    ensures AllocatedTo(rows, id) == 0
  {
    if rows != [] {
      var n := |rows| - 1;
      assert rows[n] in rows;
      assert forall r :: r in rows[..n] ==> r in rows;
      UntouchedIsZero(rows[..n], id);
    }
  }

  lemma AddedKeepsInv(l: Ledger, id: Id, s: Schedule)
    requires Inv(l) && id !in l.schedules
    requires s.paid == 0 && s.outstanding == s.amount && s.status == Planned
    ensures Inv(l.(schedules := l.schedules[id := s]))
  {
    UntouchedIsZero(l.rows, id);
    forall other
      ensures Total(PaidIn(l.schedules[id := s], other)) == Total(PaidIn(l.schedules, other))
    {
      if other == s.project {
        assert PaidIn(l.schedules[id := s], other) == PaidIn(l.schedules, other)[id := 0];
        TotalInsert(PaidIn(l.schedules, other), id, 0);
      } else {
        assert PaidIn(l.schedules[id := s], other) == PaidIn(l.schedules, other);
      }
    }
  }

  /** A schedule keeps its amount under an allocation unless that ends in exactly half a cent. */
  lemma SettledKeepsAmountExactly(s: Schedule, amount: real)
    requires s.paid >= 0 && s.paid + s.outstanding == s.amount
    requires 0.0 <= amount <= s.outstanding as real
    ensures var next := Settled(s, amount);
            next.paid + next.outstanding == next.amount <==> !Half(amount)
  {
    MoveKeepsSumExactly(s.outstanding, s.paid, amount);
  }

  /** All but less than half a cent: nothing is outstanding, and yet the status says partly paid. */
  lemma AlmostPaid(s: Schedule, amount: real)
    requires s.outstanding as real - 0.5 < amount < s.outstanding as real
    ensures Settled(s, amount).outstanding == 0 && Settled(s, amount).status == PartiallyPaid && !Takes(s, amount)
  {
    FloorIs(s.outstanding as real - amount + 0.5, 0);
  }

  lemma EmptyInv()
    ensures Inv(Ledger(map[], map[], []))
  {
    forall project
      ensures Total(PaidIn(map[], project)) == Total(ReceivedIn(map[], project))
    {
      assert PaidIn(map[], project) == map[] && ReceivedIn(map[], project) == map[];
    }
  }

  lemma TwoSchedules(first: Id, second: Id, open: Schedule) returns (l: Ledger)
    requires first != second && open.amount == open.outstanding == 100 && open.paid == 0 && open.status == Planned
    ensures l == Ledger(map[first := open, second := open], map[], []) && Inv(l)
  {
    EmptyInv();
    var empty := Ledger(map[], map[], []);
    AddedKeepsInv(empty, first, open);
    var one := empty.(schedules := empty.schedules[first := open]);
    AddedKeepsInv(one, second, open);
    l := one.(schedules := one.schedules[second := open]);
  }

  lemma FourTenths(open: Schedule)
    requires open.paid == 0 && open.outstanding == 100
    ensures Settled(open, 0.4) == open.(status := PartiallyPaid) && Stored(0.8) == 1
  {
    FloorIs(0.9, 0);
    FloorIs(100.1, 100);
    FloorIs(1.3, 1);
  }

  /**
   The project's total can drift in fractions of a cent even so: two allocations of four tenths of a cent
   are stored as nothing each, and their payment as one cent.
   */
  lemma FractionsBreakTotals(project: Id, contract: Id, first: Id, second: Id, key: Key)
    requires first != second
    ensures var open := Schedule(project, contract, 100, 0, 100, Planned);
            var l := Ledger(map[first := open, second := open], map[], []);
            var allocations := [Allocation(first, 0.4), Allocation(second, 0.4)];
            && Inv(l)
            && Refused(l, project, key, allocations).None?
            && !Conserved(Paying(l, project, key, allocations).schedules, Paying(l, project, key, allocations).payments)
  {
    var open := Schedule(project, contract, 100, 0, 100, Planned);
    var l := TwoSchedules(first, second, open);
    var allocations := [Allocation(first, 0.4), Allocation(second, 0.4)];
    FourTenths(open);
    FractionsAccepted(l, project, key, allocations[0], allocations[1]);
    hide Stored, Refused, Paying, RowsOf, Conserved;
    var paid := Settled(open, 0.4);
    var once := l.schedules[first := paid];
    TwoAllocations(l.schedules, allocations[0], allocations[1]);
    hide Settled, Applied, Inv, SumOf;
    PaidUpdate(l.schedules, first, paid, project);
    PaidUpdate(once, second, paid, project);
    ReceivedInsert(l.payments, key, Payment(project, 1), project);
    ConservedAt(l, project);
    var after := Paying(l, project, key, allocations);
    if Conserved(after.schedules, after.payments) {
      ConservedOf(after, project);
    }
  }

  lemma FractionsAccepted(l: Ledger, project: Id, key: Key, a: Allocation, b: Allocation)
    requires Here(l.schedules, project, a) && Here(l.schedules, project, b) && a.schedule != b.schedule
             && key !in l.payments
    requires a.amount <= l.schedules[a.schedule].outstanding as real
             && b.amount <= l.schedules[b.schedule].outstanding as real
    ensures Refused(l, project, key, [a, b]).None?
    ensures Paying(l, project, key, [a, b]).schedules == Applied(l.schedules, [a, b])
    ensures Paying(l, project, key, [a, b]).payments == l.payments[key := Payment(project, Stored(SumOf([a, b])))]
  {
    hide Stored, SumOf, Applied;
  }

  lemma ConservedOf(l: Ledger, project: Id)
    requires Conserved(l.schedules, l.payments)
    ensures Total(PaidIn(l.schedules, project)) == Total(ReceivedIn(l.payments, project))
  {
  }

  lemma TwoAllocations(schedules: map<Id, Schedule>, a: Allocation, b: Allocation)
    requires a.schedule in schedules && b.schedule in schedules && a.schedule != b.schedule
    ensures SumOf([a, b]) == a.amount + b.amount
    ensures Applied(schedules, [a, b]) ==
            schedules[a.schedule := Settled(schedules[a.schedule], a.amount)]
                     [b.schedule := Settled(schedules[b.schedule], b.amount)]
  {
    hide Settled;
    assert [a, b][..1] == [a] && [a][..0] == [];
    assert SumOf([a]) == a.amount;
    assert Applied(schedules, [a]) == schedules[a.schedule := Settled(schedules[a.schedule], a.amount)];
  }

  lemma ConservedAt(l: Ledger, project: Id)
    requires Inv(l)
    ensures Total(PaidIn(l.schedules, project)) == Total(ReceivedIn(l.payments, project))
  {
    ConservedOf(l, project);
  }
}
