/**
 A quotation and its versions (`commercial.service.ts`), and the contract made of it
 (`contracts.service.ts`): the header mirrors the current version, revisions never change the lines,
 and an accepted quotation never changes again.
 */
module Quotations {
  import opened Cents
  import opened Outcomes
  import ContractValue

  type Id = string

  datatype Status = Draft | InternalReview | Approved | Rejected | Sent | Accepted | Expired | Cancelled | Superseded

  datatype EstimateLine = EstimateLine(
    section: string, customDescription: string, itemType: string, quantity: real, unit: string,
    sellingPrice: real, position: nat, contributesToTotal: bool)

  /** A stored line: the quantity in thousandths, the prices in cents. */
  datatype Line = Line(section: string, description: string, quantity: int, unit: string, unitPrice: int,
      lineTotal: int, position: nat)

  /** The stored amounts, in cents, of a version and of the header. */
  datatype Amounts = Amounts(subtotal: int, discount: int, tax: int, shipping: int, installation: int, warranty: int,
      grandTotal: int)

  /** What a request gives beside the lines, exact, in cents. */
  datatype Charges = Charges(discount: real, tax: real, shipping: real, installation: real, warranty: real)

  /** What a revision gives: absent charges are taken over. */
  datatype Revised = Revised(discount: Option<real>, tax: Option<real>, shipping: Option<real>,
      installation: Option<real>, warranty: Option<real>)

  datatype Version = Version(number: nat, status: Status, createdBy: Id, amounts: Amounts, lines: seq<Line>)

  datatype Quotation = Quotation(currentVersion: nat, status: Status, amounts: Amounts, versions: seq<Version>)

  datatype Refusal = NotFound | Conflict | Forbidden | EstimateRequired | InvalidTotal

  datatype Actor = Actor(userId: Id, mayDiscount: bool)

  datatype Step =
    | Transition(actor: Actor, next: Status)
    | Revise(actor: Actor, revised: Revised, discountAllowed: bool)

  // ----- Amounts -----

  function Included(lines: seq<EstimateLine>): seq<EstimateLine> {
    if lines == [] then []
    else (if lines[0].contributesToTotal then [lines[0]] else []) + Included(lines[1..])
  }

  function Product(line: EstimateLine): real {
    line.quantity * line.sellingPrice
  }

  function StoredLine(line: EstimateLine): Line {
    Line(line.section, if line.customDescription != "" then line.customDescription else line.itemType,
         Stored(line.quantity * 1000.0), line.unit, Stored(line.sellingPrice), Stored(Product(line)), line.position)
  }

  function StoredLines(lines: seq<EstimateLine>): seq<Line> {
    seq(|lines|, i requires 0 <= i < |lines| => StoredLine(lines[i]))
  }

  function Subtotal(lines: seq<EstimateLine>): real {
    if lines == [] then 0.0 else Product(lines[0]) + Subtotal(lines[1..])
  }

  function GrandTotal(subtotal: real, c: Charges): real {
    subtotal - c.discount + c.tax + c.shipping + c.installation + c.warranty
  }

  function StoredAmounts(subtotal: real, c: Charges): Amounts {
    Amounts(Stored(subtotal), Stored(c.discount), Stored(c.tax), Stored(c.shipping), Stored(c.installation),
            Stored(c.warranty), Stored(GrandTotal(subtotal, c)))
  }

  /** By how many cents the stored total is off the stored parts. */
  function Error(a: Amounts): int {
    a.grandTotal - (a.subtotal - a.discount + a.tax + a.shipping + a.installation + a.warranty)
  }

  ghost predicate WholeCharges(c: Charges) {
    Whole(c.discount) && Whole(c.tax) && Whole(c.shipping) && Whole(c.installation) && Whole(c.warranty)
  }

  /** What rounding adds to an amount. */
  function Off(amount: real): real {
    Stored(amount) as real - amount
  }

  /** What rounding adds to the parts together. */
  function Drift(subtotal: real, c: Charges): real {
    Off(subtotal) - Off(c.discount) + Off(c.tax) + Off(c.shipping) + Off(c.installation) + Off(c.warranty)
  }

  /**
   The stored total is the stored parts exactly when rounding the parts drifts by less than half a cent,
   or by a half that the total rounds the same way. It is never off by more than three cents.
   */
  lemma TotalIsPartsExactly(subtotal: real, c: Charges)
    ensures Error(StoredAmounts(subtotal, c)) == 0 <==>
            if GrandTotal(subtotal, c) >= 0.0 then -0.5 < Drift(subtotal, c) <= 0.5
            else -0.5 <= Drift(subtotal, c) < 0.5
    ensures -3 <= Error(StoredAmounts(subtotal, c)) <= 3
  {
    var a := StoredAmounts(subtotal, c);
    var parts := a.subtotal - a.discount + a.tax + a.shipping + a.installation + a.warranty;
    StoredExactly(GrandTotal(subtotal, c), parts);
    StoredNear(subtotal);
    StoredNear(c.discount);
    StoredNear(c.tax);
    StoredNear(c.shipping);
    StoredNear(c.installation);
    StoredNear(c.warranty);
    StoredNear(GrandTotal(subtotal, c));
    hide Stored;
  }

  /** The charges of a request in whole cents. */
  function WholeSumOf(c: Charges): int {
    -c.discount.Floor + c.tax.Floor + c.shipping.Floor + c.installation.Floor + c.warranty.Floor
  }

  /**
   With charges in whole cents, whatever the subtotal, the total is its parts but for a subtotal that
   ends in half a cent and a total on the other side of zero.
   */
  lemma WholeChargesExactly(subtotal: real, c: Charges)
    requires WholeCharges(c)
    ensures Error(StoredAmounts(subtotal, c)) == 0 <==>
            !Half(subtotal) || (subtotal >= 0.0 <==> GrandTotal(subtotal, c) >= 0.0)
  {
    assert GrandTotal(subtotal, c) == subtotal + WholeSumOf(c) as real;
    WholeAddedExactly(subtotal, WholeSumOf(c));
    StoredWhole(c.discount.Floor);
    StoredWhole(c.tax.Floor);
    StoredWhole(c.shipping.Floor);
    StoredWhole(c.installation.Floor);
    StoredWhole(c.warranty.Floor);
    hide Stored;
  }

  /** The bound is reached: fractions of a cent in every amount can put the total three cents off. */
  lemma ThreeCentsOff()
    ensures Error(StoredAmounts(100.4, Charges(0.5, 0.4, 0.4, 0.4, 0.4))) == 3
  {
    FloorIs(100.4 + 0.5, 100);
    FloorIs(0.5 + 0.5, 1);
    FloorIs(0.4 + 0.5, 0);
    FloorIs(101.5 + 0.5, 102);
    assert GrandTotal(100.4, Charges(0.5, 0.4, 0.4, 0.4, 0.4)) == 101.5;
  }

  /** The stored totals of the lines together, each rounded by itself. */
  function LineTotals(lines: seq<Line>): int {
    if lines == [] then 0 else lines[0].lineTotal + LineTotals(lines[1..])
  }

  /** What rounding adds to the products of the lines together. */
  function LinesDrift(lines: seq<EstimateLine>): real {
    if lines == [] then 0.0 else Off(Product(lines[0])) + LinesDrift(lines[1..])
  }

  lemma {:induction false} LinesDriftIs(lines: seq<EstimateLine>)
    ensures LinesDrift(lines) == LineTotals(StoredLines(lines)) as real - Subtotal(lines)
  {
    hide Product;
    if lines != [] {
      LinesDriftIs(lines[1..]);
      assert StoredLines(lines)[1..] == StoredLines(lines[1..]);
      assert StoredLines(lines)[0].lineTotal == Stored(Product(lines[0]));
      hide Stored, StoredLines;
    }
  }

  lemma {:induction false} LinesDriftBounds(lines: seq<EstimateLine>)
    ensures -(|lines| as real) <= 2.0 * LinesDrift(lines) <= |lines| as real
  {
    hide Product;
    if lines != [] {
      LinesDriftBounds(lines[1..]);
      StoredNear(Product(lines[0]));
      hide Stored;
    }
  }

  ghost predicate WholeProducts(lines: seq<EstimateLine>) {
    forall l :: l in lines ==> Whole(Product(l))
  }

  lemma {:induction false} WholeNeverDrifts(lines: seq<EstimateLine>)
    requires WholeProducts(lines)
    ensures LinesDrift(lines) == 0.0
  {
    hide Product;
    if lines != [] {
      assert lines[0] in lines && forall l :: l in lines[1..] ==> l in lines;
      StoredWhole(Product(lines[0]).Floor);
      WholeNeverDrifts(lines[1..]);
    }
  }

  /**
   The stored subtotal is the stored line totals exactly when rounding the products drifts by less than
   half a cent, or by a half that the sum rounds the same way; never more than half a cent a line and
   half a cent off; and to the cent when every product is in whole cents.
   */
  lemma SubtotalIsLinesExactly(lines: seq<EstimateLine>)
    ensures Stored(Subtotal(lines)) == LineTotals(StoredLines(lines)) <==>
            if Subtotal(lines) >= 0.0 then -0.5 < LinesDrift(lines) <= 0.5 else -0.5 <= LinesDrift(lines) < 0.5
    ensures -|lines| - 1 <= 2 * (Stored(Subtotal(lines)) - LineTotals(StoredLines(lines))) <= |lines| + 1
    ensures WholeProducts(lines) ==> Stored(Subtotal(lines)) == LineTotals(StoredLines(lines))
  {
    LinesDriftIs(lines);
    LinesDriftBounds(lines);
    if WholeProducts(lines) {
      WholeNeverDrifts(lines);
    }
    StoredNear(Subtotal(lines));
    StoredExactly(Subtotal(lines), LineTotals(StoredLines(lines)));
    hide Stored, Subtotal, LineTotals, StoredLines, LinesDrift, WholeProducts;
  }

  // ----- The steps -----

  predicate Allowed(from: Status, to: Status) {
    match from
    case Draft => to == InternalReview || to == Cancelled
    case InternalReview => to == Approved || to == Rejected || to == Draft
    case Approved => to == Sent || to == Cancelled
    case Sent => to == Accepted || to == Rejected || to == Expired
    case Rejected => false
    case Accepted => false
    case Expired => false
    case Cancelled => false
    case Superseded => false
  }

  function Or(given: Option<real>, stored: int): real {
    match given
    case Some(value) => value
    case None => stored as real
  }

  function RevisedCharges(r: Revised, a: Amounts): Charges {
    Charges(Or(r.discount, a.discount), Or(r.tax, a.tax), Or(r.shipping, a.shipping),
        Or(r.installation, a.installation), Or(r.warranty, a.warranty))
  }

  /** The row with a number, as the query by quotation and number finds it. */
  function Find(versions: seq<Version>, number: nat): (r: Option<nat>)
    ensures r.Some? ==> r.value < |versions| && versions[r.value].number == number
    ensures r.None? ==> forall i :: 0 <= i < |versions| ==> versions[i].number != number
  {
    if versions == [] then None
    else if versions[|versions| - 1].number == number then Some(|versions| - 1)
    else Find(versions[..|versions| - 1], number)
  }

  function Refused(q: Quotation, s: Step): Option<Refusal> {
    match Find(q.versions, q.currentVersion)
    case None => Some(if s.Transition? then NotFound else Conflict)
    case Some(at) =>
      var version := q.versions[at];
      match s
      case Transition(actor, next) =>
        if !Allowed(version.status, next) then Some(Conflict)
        else if next == Approved && version.createdBy == actor.userId then Some(Forbidden)
        else None
      case Revise(actor, revised, discountAllowed) =>
        var discount := Or(revised.discount, version.amounts.discount);
        if version.status != Approved && version.status != Sent && version.status != Rejected then Some(Conflict)
        else if discount > 0.0 && !actor.mayDiscount then Some(Forbidden)
        else if discount > 0.0 && !discountAllowed then Some(NotFound)
        else None
  }

  function Revision(source: Version, actor: Actor, revised: Revised): Version {
    Version(source.number + 1, Draft, actor.userId,
            StoredAmounts(source.amounts.subtotal as real, RevisedCharges(revised, source.amounts)), source.lines)
  }

  function After(q: Quotation, s: Step): Quotation {
    if Refused(q, s).Some? then q
    else
      var at := Find(q.versions, q.currentVersion).value;
      var source := q.versions[at];
      match s
      case Transition(_, next) =>
        q.(status := next, versions := q.versions[at := source.(status := next)])
      case Revise(actor, revised, _) =>
        var revision := Revision(source, actor, revised);
        Quotation(revision.number, Draft, revision.amounts.(subtotal := q.amounts.subtotal),
                  q.versions[at := source.(status := Superseded)] + [revision])
  }

  ghost function Run(q: Quotation, steps: seq<Step>): Quotation {
    if steps == [] then q else After(Run(q, steps[..|steps| - 1]), steps[|steps| - 1])
  }

  // ----- What every run keeps -----

  ghost predicate Numbered(versions: seq<Version>) {
    forall i :: 0 <= i < |versions| ==> versions[i].number == i + 1
  }

  ghost predicate Earlier(versions: seq<Version>) {
    forall i :: 0 <= i < |versions| - 1 ==> versions[i].status == Superseded
  }

  /** Every version has the first one's lines and subtotal, and a total within three cents of its parts. */
  ghost predicate SameLines(versions: seq<Version>) {
    forall i :: 0 <= i < |versions| ==>
      && versions[i].lines == versions[0].lines
      && versions[i].amounts.subtotal == versions[0].amounts.subtotal
      && -3 <= Error(versions[i].amounts) <= 3
  }

  /** Versions are numbered from one, all but the last are superseded, and the header mirrors the last. */
  ghost predicate Inv(q: Quotation) {
    && q.versions != []
    && Numbered(q.versions)
    && Earlier(q.versions)
    && SameLines(q.versions)
    && var last := q.versions[|q.versions| - 1];
       q.currentVersion == |q.versions| && q.status == last.status != Superseded && q.amounts == last.amounts
  }

  lemma CurrentIsLast(q: Quotation)
    requires Inv(q)
    ensures Find(q.versions, q.currentVersion) == Some(|q.versions| - 1)
  {
  }

  lemma StepKeepsInv(q: Quotation, s: Step)
    requires Inv(q)
    ensures Inv(After(q, s))
  {
    CurrentIsLast(q);
    if Refused(q, s).None? && s.Revise? {
      var last := q.versions[|q.versions| - 1];
      TotalIsPartsExactly(last.amounts.subtotal as real, RevisedCharges(s.revised, last.amounts));
      StoredWhole(last.amounts.subtotal);
      hide Error, Stored, Or;
    }
  }

  lemma {:induction false} RunKeepsInv(q: Quotation, steps: seq<Step>)
    requires Inv(q)
    ensures Inv(Run(q, steps))
  {
    hide Inv, After;
    if steps != [] {
      RunKeepsInv(q, steps[..|steps| - 1]);
      StepKeepsInv(Run(q, steps[..|steps| - 1]), steps[|steps| - 1]);
    }
  }

  // ----- Totals in whole cents -----

  ghost predicate WholeRevised(r: Revised) {
    && (r.discount.Some? ==> Whole(r.discount.value))
    && (r.tax.Some? ==> Whole(r.tax.value))
    && (r.shipping.Some? ==> Whole(r.shipping.value))
    && (r.installation.Some? ==> Whole(r.installation.value))
    && (r.warranty.Some? ==> Whole(r.warranty.value))
  }

  ghost predicate WholeStep(s: Step) {
    s.Revise? ==> WholeRevised(s.revised)
  }

  /** Each version's total is its parts, to the cent. */
  ghost predicate ExactTotals(versions: seq<Version>) {
    forall i :: 0 <= i < |versions| ==> Error(versions[i].amounts) == 0
  }

  lemma OrWhole(given: Option<real>, stored: int)
    requires given.Some? ==> Whole(given.value)
    ensures Whole(Or(given, stored))
  {
    StoredWhole(stored);
  }

  lemma StoredNotHalf(cents: int)
    ensures !Half(cents as real)
  {
    FloorIs(cents as real, cents);
  }

  lemma StepKeepsTotals(q: Quotation, s: Step)
    requires Inv(q) && ExactTotals(q.versions) && WholeStep(s)
    ensures ExactTotals(After(q, s).versions)
  {
    CurrentIsLast(q);
    if Refused(q, s).None? && s.Revise? {
      var last := q.versions[|q.versions| - 1].amounts;
      OrWhole(s.revised.discount, last.discount);
      OrWhole(s.revised.tax, last.tax);
      OrWhole(s.revised.shipping, last.shipping);
      OrWhole(s.revised.installation, last.installation);
      OrWhole(s.revised.warranty, last.warranty);
      StoredNotHalf(last.subtotal);
      hide Stored, Or, Whole, Half;
      WholeChargesExactly(last.subtotal as real, RevisedCharges(s.revised, last));
    }
    hide Error, Stored, Or, Numbered, Earlier, SameLines;
  }

  /** While revisions give whole cents, every total stays its parts. */
  lemma {:induction false} RunKeepsTotals(q: Quotation, steps: seq<Step>)
    requires Inv(q) && ExactTotals(q.versions) && forall s :: s in steps ==> WholeStep(s)
    ensures ExactTotals(Run(q, steps).versions)
  {
    hide Inv, After, ExactTotals, WholeStep;
    if steps != [] {
      var n := |steps| - 1;
      assert steps[n] in steps && forall s :: s in steps[..n] ==> s in steps;
      RunKeepsTotals(q, steps[..n]);
      RunKeepsInv(q, steps[..n]);
      StepKeepsTotals(Run(q, steps[..n]), steps[n]);
    }
  }

  /**
   From a creation with charges in whole cents, through revisions in whole cents, each grand total
   equals its parts, whatever fractions the lines' products have.
   */
  lemma TotalsAlwaysExact(userId: Id, lines: seq<EstimateLine>, c: Charges, steps: seq<Step>)
    requires WholeCharges(c) && GrandTotal(Subtotal(Included(lines)), c) >= 0.0
    requires Subtotal(Included(lines)) >= 0.0 || !Half(Subtotal(Included(lines)))
    requires forall s :: s in steps ==> WholeStep(s)
    ensures ExactTotals(Run(Created(userId, lines, c), steps).versions)
  {
    WholeChargesExactly(Subtotal(Included(lines)), c);
    CreatedInv(userId, lines, c);
    hide Stored, Half, Included, Subtotal, GrandTotal, WholeStep, Inv, Run;
    RunKeepsTotals(Created(userId, lines, c), steps);
  }

  /** No command touches an accepted quotation. */
  lemma {:induction false} AcceptedForever(q: Quotation, steps: seq<Step>)
    requires Inv(q) && q.status == Accepted
    ensures Run(q, steps) == q
  {
    if steps != [] {
      AcceptedForever(q, steps[..|steps| - 1]);
      CurrentIsLast(q);
    }
  }

  /** The lines and the subtotal a quotation was made with are those of its every version. */
  lemma {:induction false} LinesForever(q: Quotation, steps: seq<Step>)
    requires Inv(q)
    ensures |Run(q, steps).versions| >= |q.versions|
    ensures forall i :: 0 <= i < |Run(q, steps).versions| ==>
              && Run(q, steps).versions[i].lines == q.versions[0].lines
              && Run(q, steps).versions[i].amounts.subtotal == q.versions[0].amounts.subtotal
  {
    if steps != [] {
      var n := |steps| - 1;
      LinesForever(q, steps[..n]);
      RunKeepsInv(q, steps[..n]);
      CurrentIsLast(Run(q, steps[..n]));
    }
  }

  // ----- Creating -----

  function Created(userId: Id, lines: seq<EstimateLine>, c: Charges): Quotation {
    var amounts := StoredAmounts(Subtotal(Included(lines)), c);
    Quotation(1, Draft, amounts, [Version(1, Draft, userId, amounts, StoredLines(Included(lines)))])
  }

  lemma CreatedInv(userId: Id, lines: seq<EstimateLine>, c: Charges)
    ensures Inv(Created(userId, lines, c))
    ensures GrandTotal(Subtotal(Included(lines)), c) >= 0.0 ==> Created(userId, lines, c).amounts.grandTotal >= 0
  {
    TotalIsPartsExactly(Subtotal(Included(lines)), c);
    StoredNear(GrandTotal(Subtotal(Included(lines)), c));
    hide Stored, Included, Subtotal, Error, GrandTotal;
  }

  /** Whether a version's subtotal is its line totals is decided when the quotation is created. */
  lemma SubtotalForever(userId: Id, lines: seq<EstimateLine>, c: Charges, steps: seq<Step>, i: nat)
    requires i < |Run(Created(userId, lines, c), steps).versions|
    ensures var v, included := Run(Created(userId, lines, c), steps).versions[i], Included(lines);
            v.amounts.subtotal == LineTotals(v.lines) <==>
              if Subtotal(included) >= 0.0 then -0.5 < LinesDrift(included) <= 0.5
              else -0.5 <= LinesDrift(included) < 0.5
  {
    CreatedInv(userId, lines, c);
    LinesForever(Created(userId, lines, c), steps);
    SubtotalIsLinesExactly(Included(lines));
    hide Inv, Run, Stored, Subtotal, LineTotals, StoredLines, LinesDrift, Included;
  }

  /**
   A contract takes the total of an accepted quotation as its original value, read before its own
   transaction; whatever happens to the quotation in between and afterwards, the two stay equal.
   */
  lemma ContractKeepsTotal(q: Quotation, until: seq<Step>, later: seq<Step>)
    requires Inv(q) && Run(q, until).status == Accepted
    ensures ContractValue.Created(Run(q, until).amounts.grandTotal).original
            == Run(Run(q, until), later).amounts.grandTotal
    ensures Run(Run(q, until), later).status == Accepted
  {
    RunKeepsInv(q, until);
    AcceptedForever(Run(q, until), later);
  }

  // ----- The service -----

  class Commercial {
    var currentVersion: nat
    var status: Status
    var amounts: Amounts
    var versions: seq<Version>

    ghost function State(): Quotation
      reads this
    {
      Quotation(currentVersion, status, amounts, versions)
    }

    /** The rows `createQuotation` writes once its tests have passed. */
    constructor (userId: Id, lines: seq<EstimateLine>, c: Charges)
      ensures State() == Created(userId, lines, c) && Inv(State())
    {
      var included := Included(lines);
      var subtotal := Subtotal(included);
      currentVersion, status, amounts := 1, Draft, StoredAmounts(subtotal, c);
      versions := [Version(1, Draft, userId, StoredAmounts(subtotal, c), StoredLines(included))];
      new;
      CreatedInv(userId, lines, c);
    }

    /** `createQuotation`; `estimate` holds the lines of the approved estimate, if there is one. */
    static method CreateQuotation(actor: Actor, estimate: Option<seq<EstimateLine>>, c: Charges)
      returns (r: Result<Commercial, Refusal>)
      ensures r.Err? ==> r.error == if c.discount > 0.0 && !actor.mayDiscount then Forbidden
                                    else if estimate.None? then EstimateRequired else InvalidTotal
      ensures r.Ok? <==> && !(c.discount > 0.0 && !actor.mayDiscount)
                         && estimate.Some?
                         && GrandTotal(Subtotal(Included(estimate.value)), c) >= 0.0
      ensures r.Ok? ==> fresh(r.value) && r.value.State() == Created(actor.userId, estimate.value, c)
                        && Inv(r.value.State()) && r.value.amounts.grandTotal >= 0
    {
      if c.discount > 0.0 && !actor.mayDiscount {
        return Err(Forbidden);
      }
      if estimate.None? {
        return Err(EstimateRequired);
      }
      CreatedInv(actor.userId, estimate.value, c);
      hide Inv, Stored, Subtotal, Included;
      var included := Included(estimate.value);
      if GrandTotal(Subtotal(included), c) < 0.0 {
        return Err(InvalidTotal);
      }
      var q := new Commercial(actor.userId, estimate.value, c);
      return Ok(q);
    }

    /** `transitionQuotation`. */
    method TransitionQuotation(actor: Actor, next: Status) returns (r: Outcome<Refusal>)
      requires Inv(State())
      modifies this
      ensures State() == After(old(State()), Transition(actor, next)) && Inv(State())
      ensures Refused(old(State()), Transition(actor, next)) == if r.Raised? then Some(r.error) else None
    {
      StepKeepsInv(State(), Transition(actor, next));
      hide Inv;
      var at := Find(versions, currentVersion);
      if at.None? {
        return Raised(NotFound);
      }
      var version := versions[at.value];
      if !Allowed(version.status, next) {
        return Raised(Conflict);
      }
      if next == Approved && version.createdBy == actor.userId {
        return Raised(Forbidden);
      }
      versions := versions[at.value := version.(status := next)];
      status := next;
      return Done;
    }

    /** `reviseQuotation`; `discountAllowed` is the verdict of the second permission query. */
    method ReviseQuotation(actor: Actor, revised: Revised, discountAllowed: bool) returns (r: Outcome<Refusal>)
      requires Inv(State())
      modifies this
      ensures State() == After(old(State()), Revise(actor, revised, discountAllowed)) && Inv(State())
      ensures Refused(old(State()), Revise(actor, revised, discountAllowed))
              == if r.Raised? then Some(r.error) else None
    {
      StepKeepsInv(State(), Revise(actor, revised, discountAllowed));
      hide Inv, Stored;
      var at := Find(versions, currentVersion);
      if at.None? {
        return Raised(Conflict);
      }
      var source := versions[at.value];
      if source.status != Approved && source.status != Sent && source.status != Rejected {
        return Raised(Conflict);
      }
      var charges := RevisedCharges(revised, source.amounts);
      if charges.discount > 0.0 && !actor.mayDiscount {
        return Raised(Forbidden);
      }
      if charges.discount > 0.0 && !discountAllowed {
        return Raised(NotFound);
      }
      versions := versions[at.value := source.(status := Superseded)];
      var revision := Revision(source, actor, revised);
      versions := versions + [revision];
      currentVersion, status := revision.number, Draft;
      amounts := revision.amounts.(subtotal := amounts.subtotal);
      return Done;
    }
  }
}
