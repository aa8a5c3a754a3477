/**
 The value of a contract (`contracts.service.ts`): appendices change it once they take effect. A request
 reads the appendix, then decides again inside a transaction that holds the project's lock; between the
 two, other requests come and go.
 */
module ContractValue {
  import opened Outcomes
  import opened Totals

  type Id = string

  type Request = nat

  datatype Status = Draft | InternalReview | Approved | Rejected | Cancelled | Signed | Effective

  datatype Appendix = Appendix(status: Status, change: int)

  /** A line of the value history; the first one has no appendix. */
  datatype Entry = Entry(appendix: Option<Id>, previous: int, change: int, current: int)

  /** What a request read before its transaction. */
  datatype Reading = Reading(appendix: Id, observed: Status, change: int, next: Status)

  datatype Ledger = Ledger(
    original: int,
    current: int,
    history: seq<Entry>,
    appendices: map<Id, Appendix>,
    keys: set<string>,
    readings: map<Request, Reading>)

  datatype Refusal = NotFound | InvalidTransition | Changed | Negative

  datatype Step =
    | Create(id: Id, key: string, change: int)
    | Read(request: Request, id: Id, next: Status)
    | Commit(request: Request)

  predicate Allowed(from: Status, to: Status) {
    match from
    case Draft => to == InternalReview || to == Cancelled
    case InternalReview => to == Approved || to == Rejected
    case Approved => to == Signed
    case Signed => to == Effective
    case Rejected => false
    case Cancelled => false
    case Effective => false
  }

  // ----- The steps -----

  /** `create`: the contract starts at the accepted quotation's total. */
  function Created(grandTotal: int): Ledger {
    Ledger(grandTotal, grandTotal, [Entry(None, 0, grandTotal, grandTotal)], map[], {}, map[])
  }

  /** Why the transaction of a reading is refused, if it is. */
  function Refused(l: Ledger, r: Reading): Option<Refusal> {
    if r.appendix !in l.appendices then Some(NotFound)
    else if l.appendices[r.appendix].status != r.observed then Some(Changed)
    else if r.next == Effective && l.current + r.change < 0 then Some(Negative)
    else None
  }

  /** The ledger once the transaction of a reading has gone through. */
  function Committed(l: Ledger, r: Reading): Ledger
    requires Refused(l, r).None?
  {
    var moved := l.(appendices := l.appendices[r.appendix := l.appendices[r.appendix].(status := r.next)]);
    if r.next != Effective then moved
    else
      moved.(current := l.current + r.change,
             history := l.history + [Entry(Some(r.appendix), l.current, r.change, l.current + r.change)])
  }

  function After(l: Ledger, s: Step): Ledger {
    match s
    case Create(id, key, change) =>
      // The unique key makes a repeated request find the first one's row.
      if key in l.keys then l
      else l.(appendices := l.appendices[id := Appendix(Draft, change)], keys := l.keys + {key})
    case Read(request, id, next) =>
      if id !in l.appendices || !Allowed(l.appendices[id].status, next) then l
      else l.(readings := l.readings[request := Reading(id, l.appendices[id].status, l.appendices[id].change, next)])
    case Commit(request) =>
      if request !in l.readings then l
      else
        var r, done := l.readings[request], l.(readings := l.readings - {request});
        if Refused(l, r).Some? then done else Committed(done, r)
  }

  ghost function Run(l: Ledger, steps: seq<Step>): Ledger {
    if steps == [] then l else After(Run(l, steps[..|steps| - 1]), steps[|steps| - 1])
  }

  // ----- What every run keeps -----

  ghost function Changes(appendices: map<Id, Appendix>): map<Id, int> {
    map a | a in appendices && appendices[a].status == Effective :: appendices[a].change
  }

  /** Each line starts where the line before ended, and ends at its start plus its change. */
  ghost predicate Telescopes(original: int, history: seq<Entry>) {
    history != [] &&
    if |history| == 1 then history[0] == Entry(None, 0, original, original)
    else
      var init, last := history[..|history| - 1], history[|history| - 1];
      && Telescopes(original, init)
      && last.previous == init[|init| - 1].current
      && last.current == last.previous + last.change
  }

  /** The lines after the first are those of the effective appendices, one each. */
  ghost predicate AppliedOnce(history: seq<Entry>, appendices: map<Id, Appendix>) {
    && (forall i :: 0 < i < |history| ==> IsLineOf(history[i], appendices))
    && (forall i, j :: 0 < i < j < |history| ==> history[i].appendix != history[j].appendix)
    && (forall a :: a in appendices && appendices[a].status == Effective ==> Recorded(history, a))
  }

  ghost predicate IsLineOf(line: Entry, appendices: map<Id, Appendix>) {
    && line.appendix.Some? && line.appendix.value in appendices
    && appendices[line.appendix.value] == Appendix(Effective, line.change)
  }

  ghost predicate Recorded(history: seq<Entry>, a: Id) {
    exists i :: 0 < i < |history| && history[i].appendix == Some(a)
  }

  ghost predicate ReadingSound(r: Reading, appendices: map<Id, Appendix>) {
    r.appendix in appendices && appendices[r.appendix].change == r.change && Allowed(r.observed, r.next)
  }

  ghost predicate ReadingsSound(readings: map<Request, Reading>, appendices: map<Id, Appendix>) {
    forall q :: q in readings ==> ReadingSound(readings[q], appendices)
  }

  /** Only an untouched contract can be below zero: one created so. */
  ghost predicate NonNegative(history: seq<Entry>) {
    forall i :: 0 < i < |history| ==> history[i].current >= 0
  }

  ghost predicate Inv(l: Ledger) {
    && l.current == l.original + Total(Changes(l.appendices))
    && Telescopes(l.original, l.history)
    && l.history[|l.history| - 1].current == l.current
    && AppliedOnce(l.history, l.appendices)
    && ReadingsSound(l.readings, l.appendices)
    && NonNegative(l.history)
  }

  /** A new appendix gets an id that no row has. */
  predicate FreshId(l: Ledger, s: Step) {
    s.Create? ==> s.id !in l.appendices
  }

  lemma CreatedInv(grandTotal: int)
    ensures Inv(Created(grandTotal))
  {
    assert Changes(map[]) == map[];
  }

  /** Replacing or adding an appendix that is not effective, by one that is not, changes no line. */
  lemma OtherAppendix(history: seq<Entry>, appendices: map<Id, Appendix>, id: Id, appendix: Appendix)
    requires AppliedOnce(history, appendices)
    requires id in appendices ==> appendices[id].status != Effective
    requires appendix.status != Effective
    ensures AppliedOnce(history, appendices[id := appendix])
    ensures Changes(appendices[id := appendix]) == Changes(appendices)
  {
  }

  lemma CreateKeeps(l: Ledger, s: Step)
    requires Inv(l) && s.Create? && FreshId(l, s)
    ensures Inv(After(l, s))
  {
    OtherAppendix(l.history, l.appendices, s.id, Appendix(Draft, s.change));
    hide AppliedOnce, Changes, NonNegative, Telescopes;
  }

  lemma ReadKeeps(l: Ledger, s: Step)
    requires Inv(l) && s.Read?
    ensures Inv(After(l, s))
  {
    hide AppliedOnce, Changes, NonNegative, Telescopes;
  }

  lemma DropReading(l: Ledger, request: Request)
    requires Inv(l)
    ensures Inv(l.(readings := l.readings - {request}))
  {
    hide AppliedOnce, Changes, NonNegative, Telescopes;
  }

  lemma MoveKeeps(l: Ledger, r: Reading)
    requires Inv(l) && Refused(l, r).None? && r.next != Effective && ReadingSound(r, l.appendices)
    ensures Inv(Committed(l, r))
  {
    OtherAppendix(l.history, l.appendices, r.appendix, l.appendices[r.appendix].(status := r.next));
    hide AppliedOnce, Changes, NonNegative, Telescopes;
  }

  lemma LineAdded(history: seq<Entry>, appendices: map<Id, Appendix>, line: Entry)
    requires AppliedOnce(history, appendices) && history != []
    requires line.appendix.Some? && line.appendix.value in appendices
    requires appendices[line.appendix.value].status != Effective
    ensures AppliedOnce(history + [line], appendices[line.appendix.value := Appendix(Effective, line.change)])
  {
    var id := line.appendix.value;
    var lines, after := history + [line], appendices[id := Appendix(Effective, line.change)];
    forall i | 0 < i < |lines|
      ensures IsLineOf(lines[i], after)
      ensures i < |history| ==> lines[i].appendix != line.appendix
    {
      if i < |history| {
        assert IsLineOf(history[i], appendices);
      }
    }
    forall a | a in after && after[a].status == Effective
      ensures Recorded(lines, a)
    {
      if a == id {
        assert lines[|history|].appendix == Some(a);
      } else {
        assert Recorded(history, a);
        var i :| 0 < i < |history| && history[i].appendix == Some(a);
        assert lines[i].appendix == Some(a);
      }
    }
  }

  lemma SumAdded(appendices: map<Id, Appendix>, id: Id, change: int)
    requires id in appendices && appendices[id].status != Effective
    ensures Total(Changes(appendices[id := Appendix(Effective, change)])) == Total(Changes(appendices)) + change
  {
    assert Changes(appendices[id := Appendix(Effective, change)]) == Changes(appendices)[id := change];
    TotalInsert(Changes(appendices), id, change);
  }

  lemma ReadingsKept(readings: map<Request, Reading>, appendices: map<Id, Appendix>, id: Id, status: Status)
    requires ReadingsSound(readings, appendices) && id in appendices
    ensures ReadingsSound(readings, appendices[id := appendices[id].(status := status)])
  {
  }

  lemma TelescopeAdded(original: int, history: seq<Entry>, line: Entry)
    requires Telescopes(original, history) && NonNegative(history)
    requires line.previous == history[|history| - 1].current && line.current == line.previous + line.change >= 0
    ensures Telescopes(original, history + [line]) && NonNegative(history + [line])
  {
    assert (history + [line])[..|history|] == history;
  }

  lemma ApplyKeeps(l: Ledger, r: Reading)
    requires Inv(l) && Refused(l, r).None? && r.next == Effective && ReadingSound(r, l.appendices)
    ensures Inv(Committed(l, r))
  {
    var line := Entry(Some(r.appendix), l.current, r.change, l.current + r.change);
    assert l.appendices[r.appendix] == Appendix(r.observed, r.change) && r.observed != Effective;
    var appendices := l.appendices[r.appendix := Appendix(Effective, r.change)];
    assert Committed(l, r) == Ledger(l.original, line.current, l.history + [line], appendices, l.keys, l.readings);
    assert line.current >= 0;
    hide Changes, ReadingsSound, AppliedOnce, Telescopes, NonNegative, ReadingSound, Allowed, Committed, Refused;
    SumAdded(l.appendices, r.appendix, r.change);
    ReadingsKept(l.readings, l.appendices, r.appendix, Effective);
    LineAdded(l.history, l.appendices, line);
    TelescopeAdded(l.original, l.history, line);
  }

  lemma StepKeepsInv(l: Ledger, s: Step)
    requires Inv(l) && FreshId(l, s)
    ensures Inv(After(l, s))
  {
    match s
    case Create(_, _, _) => CreateKeeps(l, s);
    case Read(_, _, _) => ReadKeeps(l, s);
    case Commit(request) =>
      if request in l.readings {
        var r, done := l.readings[request], l.(readings := l.readings - {request});
        DropReading(l, request);
        if Refused(l, r).None? {
          if r.next != Effective {
            MoveKeeps(done, r);
          } else {
            ApplyKeeps(done, r);
          }
        }
      }
  }

  ghost predicate FreshRun(l: Ledger, steps: seq<Step>) {
    forall i :: 0 <= i < |steps| ==> FreshId(Run(l, steps[..i]), steps[i])
  }

  /**
   Over every interleaving of requests, the value is the original plus the changes of the effective
   appendices, each applied once, and the history tells it line by line.
   */
  lemma {:induction false} RunKeepsInv(l: Ledger, steps: seq<Step>)
    requires Inv(l) && FreshRun(l, steps)
    ensures Inv(Run(l, steps)) && Run(l, steps).original == l.original
  {
    hide Inv;
    if steps != [] {
      var n := |steps| - 1;
      forall i | 0 <= i < n
        ensures FreshId(Run(l, steps[..n][..i]), steps[..n][i])
      {
        assert steps[..n][..i] == steps[..i];
      }
      RunKeepsInv(l, steps[..n]);
      StepKeepsInv(Run(l, steps[..n]), steps[n]);
    }
  }

  /** A contract that starts at or above zero never goes below. */
  lemma NeverNegative(grandTotal: int, steps: seq<Step>)
    requires FreshRun(Created(grandTotal), steps)
    ensures var l := Run(Created(grandTotal), steps);
            l.current >= 0 || (l.current == grandTotal && |l.history| == 1 && Total(Changes(l.appendices)) == 0)
  {
    CreatedInv(grandTotal);
    RunKeepsInv(Created(grandTotal), steps);
    var l := Run(Created(grandTotal), steps);
    assert Inv(l);
    if l.current < 0 {
      assert |l.history| == 1;
    }
  }

  /**
   Two requests that read the same appendix in the same status: once one of them has gone through, the
   other is refused and changes neither value nor history nor appendices.
   */
  lemma SecondIsRefused(l: Ledger, first: Request, second: Request)
    requires Inv(l) && first != second && first in l.readings && second in l.readings
    requires l.readings[first].appendix == l.readings[second].appendix
    requires l.readings[first].observed == l.readings[second].observed
    requires Refused(l, l.readings[first]).None?
    ensures var once := After(l, Commit(first));
            && Refused(once, once.readings[second]) == Some(Changed)
            && After(once, Commit(second)) == once.(readings := once.readings - {second})
  {
    assert Allowed(l.readings[first].observed, l.readings[first].next);
  }

  // ----- The service -----

  class Contracts {
    var original: int
    var current: int
    var history: seq<Entry>
    var appendices: map<Id, Appendix>
    var keys: set<string>
    /** What the requests in progress have read. */
    var readings: map<Request, Reading>

    ghost function State(): Ledger
      reads this
    {
      Ledger(original, current, history, appendices, keys, readings)
    }

    /** `create`. */
    constructor (grandTotal: int)
      ensures State() == Created(grandTotal) && Inv(State())
    {
      original, current, history := grandTotal, grandTotal, [Entry(None, 0, grandTotal, grandTotal)];
      appendices, keys, readings := map[], {}, map[];
      new;
      CreatedInv(grandTotal);
    }

    /** `createAppendix`. */
    method CreateAppendix(id: Id, key: string, change: int)
      requires Inv(State()) && id !in appendices
      modifies this
      ensures State() == After(old(State()), Create(id, key, change)) && Inv(State())
    {
      StepKeepsInv(State(), Create(id, key, change));
      hide Inv;
      if key !in keys {
        appendices, keys := appendices[id := Appendix(Draft, change)], keys + {key};
      }
    }

    /** The part of `transitionAppendix` before its transaction. */
    method ReadAppendix(request: Request, id: Id, next: Status) returns (r: Outcome<Refusal>)
      requires Inv(State())
      modifies this
      ensures State() == After(old(State()), Read(request, id, next)) && Inv(State())
      ensures r.Done? ==> request in readings && readings[request].appendix == id && readings[request].next == next
      ensures r.Raised? ==> State() == old(State())
    {
      StepKeepsInv(State(), Read(request, id, next));
      hide Inv;
      if id !in appendices {
        return Raised(NotFound);
      }
      if !Allowed(appendices[id].status, next) {
        return Raised(InvalidTransition);
      }
      readings := readings[request := Reading(id, appendices[id].status, appendices[id].change, next)];
      return Done;
    }

    /** The transaction of `transitionAppendix`, whatever has happened since the reading. */
    method CommitTransition(request: Request) returns (r: Outcome<Refusal>)
      requires Inv(State()) && request in readings
      modifies this
      ensures State() == After(old(State()), Commit(request)) && Inv(State())
      ensures Refused(old(State()), old(readings)[request]) == if r.Raised? then Some(r.error) else None
      ensures r.Raised? ==> current == old(current) && history == old(history) && appendices == old(appendices)
    {
      StepKeepsInv(State(), Commit(request));
      hide Inv;
      var reading := readings[request];
      readings := readings - {request};
      if reading.appendix !in appendices {
        return Raised(NotFound);
      }
      if appendices[reading.appendix].status != reading.observed {
        return Raised(Changed);
      }
      r := Apply(reading);
    }

    /** What the transaction writes once the appendix was found unchanged. */
    method Apply(reading: Reading) returns (r: Outcome<Refusal>)
      requires reading.appendix in appendices && appendices[reading.appendix].status == reading.observed
      modifies this`current, this`history, this`appendices
      ensures Refused(old(State()), reading) == if r.Raised? then Some(r.error) else None
      ensures State() == if r.Raised? then old(State()) else Committed(old(State()), reading)
    {
      if reading.next != Effective {
        appendices := appendices[reading.appendix := appendices[reading.appendix].(status := reading.next)];
        return Done;
      }
      var next := current + reading.change;
      if next < 0 {
        return Raised(Negative);
      }
      history := history + [Entry(Some(reading.appendix), current, reading.change, next)];
      current := next;
      appendices := appendices[reading.appendix := appendices[reading.appendix].(status := Effective)];
      return Done;
    }
  }
}
