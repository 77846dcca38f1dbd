/** EFT and cash invoices: draft, issue, send, pay, cancel, and the overdue sweep. */
module Invoices {
  import opened Common
  import opened LocalTime
  import opened Numbers
  import opened Pricing
  import opened Account

  datatype InvoiceStatus = DRAFT | SENT | AWAITING_PAYMENT | PAID | OVERDUE | CANCELLED

  datatype LineIn = LineIn(kind: string, description: string, quantity: int, unitAmountCents: int)

  datatype InvoiceLine = InvoiceLine(
    kind: string,
    description: string,
    quantity: int,
    unitAmountCents: int,
    lineTotalCents: int)

  datatype Customer = Customer(
    name: string,
    address: Option<string>,
    phone: Option<string>,
    vatRegistered: bool,
    vatNumber: Option<string>)

  datatype Field =
    | LegalName | Address | ContactEmail | BankName | BankAccountName | BankAccountNumber | BankBranchCode | VatNumber

  /** The platform's own invoicing details; a field that is not in `details` is unset. */
  datatype Supplier = Supplier(details: map<Field, string>, vatRegistered: bool, vatRate: int, paymentTermsDays: nat)

  const REQUIRED_FIELDS: seq<Field> :=
    [LegalName, Address, ContactEmail, BankName, BankAccountName, BankAccountNumber, BankBranchCode]

  /** The part of an invoice that a customer sees. */
  datatype Document = Document(
    lines: seq<InvoiceLine>,
    number: Option<string>,
    invoiceDate: Option<int>,
    dueDate: Option<int>,
    issuedAt: Option<int>,
    subtotalCents: int,
    vatRate: int,
    vatCents: int,
    totalCents: int,
    customer: Option<Customer>,
    supplier: Option<Supplier>)

  datatype Means = Eft | Cash | Unsupported(text: string)

  datatype Settlement = Settlement(at: int, means: Means, reference: Option<string>, note: Option<string>, recordedBy: string)

  datatype Invoice = Invoice(
    business: nat,
    status: InvoiceStatus,
    doc: Document,
    sentAt: Option<int>,
    settlement: Option<Settlement>,
    cancellation: Option<(int, string)>)

  datatype InvoiceError =
    | InvalidState
    | NoLines
    | NotConfigured(missing: seq<Field>)
    | AlreadyPaid
    | InvalidMethod
    | ReferenceRequired
    | CannotCancelPaid
    | AlreadyCancelled
    | Forbidden

  predicate Unpaid(s: InvoiceStatus) {
    s == SENT || s == AWAITING_PAYMENT || s == OVERDUE
  }

  // ---- transitions on values ----

  /** A stored line says what was asked for, and its total is the unit amount times the quantity. */
  predicate LineSays(l: InvoiceLine, b: LineIn) {
    && l.kind == b.kind && l.description == b.description
    && l.quantity == b.quantity && l.unitAmountCents == b.unitAmountCents
    && l.lineTotalCents == b.quantity * b.unitAmountCents
  }

  function LinesFrom(body: seq<LineIn>): (lines: seq<InvoiceLine>)
    ensures |lines| == |body| && forall i :: 0 <= i < |body| ==> LineSays(lines[i], body[i])
  {
    seq(|body|, i requires 0 <= i < |body| =>
      InvoiceLine(body[i].kind, body[i].description, body[i].quantity, body[i].unitAmountCents,
                  body[i].unitAmountCents * body[i].quantity))
  }

  function Totals(lines: seq<InvoiceLine>): (totals: seq<int>)
    ensures |totals| == |lines| && forall i :: 0 <= i < |lines| ==> totals[i] == lines[i].lineTotalCents
  {
    seq(|lines|, i requires 0 <= i < |lines| => lines[i].lineTotalCents)
  }

  function LineTotals(lines: seq<InvoiceLine>): int {
    Sum(Totals(lines))
  }

  function RateOf(s: Supplier): int {
    if s.vatRegistered && s.vatRate > 0 then s.vatRate else 0
  }

  function Totalled(doc: Document, s: Supplier): Document {
    var subtotal := LineTotals(doc.lines);
    var vat := CalculateVat(subtotal, RateOf(s), false);
    doc.(subtotalCents := subtotal, vatCents := vat, vatRate := RateOf(s), totalCents := subtotal + vat)
  }

  function BlankDocument(lines: seq<InvoiceLine>): Document {
    Document(lines, None, None, None, None, 0, 0, 0, 0, None, None)
  }

  function Drafted(business: nat, body: seq<LineIn>, s: Supplier): Invoice {
    Invoice(business, DRAFT, Totalled(BlankDocument(LinesFrom(body)), s), None, None, None)
  }

  function Edited(inv: Invoice, body: Option<seq<LineIn>>, s: Supplier): Result<Invoice, InvoiceError> {
    if inv.status != DRAFT then Err(InvalidState)
    else
      var doc := if body.Some? then inv.doc.(lines := LinesFrom(body.value)) else inv.doc;
      Ok(inv.(doc := Totalled(doc, s)))
  }

  predicate Unset(s: Supplier, f: Field) {
    f !in s.details || s.details[f] == []
  }

  function UnsetAmong(s: Supplier, fields: seq<Field>): (missing: seq<Field>)
    ensures forall f :: f in missing <==> f in fields && Unset(s, f)
  {
    if fields == [] then []
    else
      var rest := UnsetAmong(s, fields[1..]);
      assert fields == [fields[0]] + fields[1..];
      if Unset(s, fields[0]) then [fields[0]] + rest else rest
  }

  function MissingConfig(s: Supplier): seq<Field> {
    UnsetAmong(s, REQUIRED_FIELDS) + (if s.vatRegistered && Unset(s, VatNumber) then [VatNumber] else [])
  }

  function IssueError(inv: Invoice, s: Supplier): Option<InvoiceError> {
    if inv.status != DRAFT then Some(InvalidState)
    else if inv.doc.lines == [] then Some(NoLines)
    else if MissingConfig(s) != [] then Some(NotConfigured(MissingConfig(s)))
    else None
  }

  function NumberOn(now: nat, serial: nat): string {
    InvoiceNumber(Year(UtcDate(now)), serial)
  }

  function NumberedDocument(doc: Document, s: Supplier, customer: Customer, now: nat, number: string): Document {
    doc.(number := Some(number),
         invoiceDate := Some(UtcDate(now)),
         dueDate := Some(UtcDate(now + s.paymentTermsDays * DAY)),
         issuedAt := Some(now), customer := Some(customer), supplier := Some(s))
  }

  function Issued(inv: Invoice, s: Supplier, customer: Customer, now: nat, serial: nat): Invoice {
    inv.(status := AWAITING_PAYMENT, doc := NumberedDocument(Totalled(inv.doc, s), s, customer, now, NumberOn(now, serial)))
  }

  function MarkedSent(inv: Invoice, now: int): Result<Invoice, InvoiceError> {
    if Unpaid(inv.status) then Ok(inv.(status := SENT, sentAt := Some(now))) else Err(InvalidState)
  }

  function PaymentError(inv: Invoice, means: Means, reference: Option<string>): Option<InvoiceError> {
    if inv.status == PAID then Some(AlreadyPaid)
    else if !Unpaid(inv.status) then Some(InvalidState)
    else if means.Unsupported? then Some(InvalidMethod)
    else if means == Eft && !Given(reference) then Some(ReferenceRequired)
    else None
  }

  function MarkedPaid(inv: Invoice, settlement: Settlement): Invoice {
    inv.(status := PAID, settlement := Some(settlement))
  }

  /** The history row of a paid invoice, read off the invoice alone. */
  function PaidRow(inv: Invoice): Payment
    requires inv.settlement.Some?
  {
    var s := inv.settlement.value;
    Payment(inv.business, if s.means == Eft then EFT else if s.means == Cash then CASH else UNKNOWN,
            if Given(s.reference) then s.reference else inv.doc.number, inv.doc.totalCents, true, s.at)
  }

  /** A hand-recorded payment: whose, how much, by which means, under which reference, and when. */
  predicate ChargeOf(p: Payment, business: nat, total: int, means: Means, reference: Option<string>,
                     number: Option<string>, now: int) {
    && p.business == business && p.amountCents == total && p.paid && p.at == now
    && (p.provider == EFT <==> means == Eft) && (p.provider == CASH <==> means == Cash)
    && p.reference == if reference.Some? && reference.value != [] then reference else number
  }

  lemma PaidRowIs(inv: Invoice)
    requires inv.settlement.Some?
    ensures var s := inv.settlement.value;
            ChargeOf(PaidRow(inv), inv.business, inv.doc.totalCents, s.means, s.reference, inv.doc.number, s.at)
  {
  }

  function Converted(a: Account, now: int): Account {
    if a.convertedAt.None? then a.(convertedAt := Some(now)) else a
  }

  function Cancelled(inv: Invoice, why: string, superAdmin: bool, now: int): Result<Invoice, InvoiceError> {
    if inv.status == PAID then Err(CannotCancelPaid)
    else if inv.status == InvoiceStatus.CANCELLED then Err(AlreadyCancelled)
    else if inv.status != DRAFT && !superAdmin then Err(Forbidden)
    else Ok(inv.(status := InvoiceStatus.CANCELLED, cancellation := Some((now, why))))
  }

  predicate SweepDue(inv: Invoice, today: int) {
    (inv.status == SENT || inv.status == AWAITING_PAYMENT) && inv.doc.dueDate.Some? && inv.doc.dueDate.value < today
  }

  function Swept(inv: Invoice, today: int): Invoice {
    if SweepDue(inv, today) then inv.(status := OVERDUE) else inv
  }

  // ---- the code ----

  /** The database sequence behind invoice numbers: a value once taken is never given back. */
  class Sequence {
    var next: nat

    constructor ()
      ensures next == 1
    {
      next := 1;
    }

    method NextVal() returns (v: nat)
      modifies this
      ensures v == old(next) && next == old(next) + 1
    {
      v := next;
      next := next + 1;
    }
  }

  class CommercialInvoice {
    const business: nat
    var status: InvoiceStatus
    var lines: seq<InvoiceLine>
    var number: Option<string>
    var invoiceDate: Option<int>
    var dueDate: Option<int>
    var issuedAt: Option<int>
    var subtotalCents: int
    var vatRate: int
    var vatCents: int
    var totalCents: int
    var customer: Option<Customer>
    var supplier: Option<Supplier>
    var sentAt: Option<int>
    var settlement: Option<Settlement>
    var cancellation: Option<(int, string)>

    function Doc(): Document
      reads this
    {
      Document(lines, number, invoiceDate, dueDate, issuedAt, subtotalCents, vatRate, vatCents, totalCents,
               customer, supplier)
    }

    function View(): Invoice
      reads this
    {
      Invoice(business, status, Doc(), sentAt, settlement, cancellation)
    }

    constructor (business: nat, body: seq<LineIn>, s: Supplier)
      ensures View() == Drafted(business, body, s)
      ensures this.business == business && status == DRAFT && number == None && settlement == None
      ensures |lines| == |body| && forall i :: 0 <= i < |body| ==> LineSays(lines[i], body[i])
      ensures subtotalCents == LineTotals(lines)
    {
      this.business := business;
      status, lines := DRAFT, LinesFrom(body);
      number, invoiceDate, dueDate, issuedAt, customer, supplier := None, None, None, None, None, None;
      sentAt, settlement, cancellation := None, None, None;
      new;
      RecomputeTotals(s);
    }

    method RecomputeTotals(s: Supplier)
      modifies this
      ensures View() == old(View()).(doc := Totalled(old(Doc()), s))
      ensures subtotalCents == LineTotals(lines) && totalCents == subtotalCents + vatCents
      ensures vatRate == (if s.vatRegistered && s.vatRate > 0 then s.vatRate else 0)
      ensures vatCents == CalculateVat(subtotalCents, vatRate, false)
      ensures View() == old(View()).(doc := Doc()) && SameButTotals(old(Doc()), Doc())
    {
      var subtotal := LineTotals(lines);
      var vat := 0;
      if s.vatRegistered && s.vatRate > 0 {
        vat := CalculateVat(subtotal, s.vatRate, false);
        vatRate := s.vatRate;
      } else {
        vatRate := 0;
      }
      subtotalCents := subtotal;
      vatCents := vat;
      totalCents := subtotal + vat;
    }

    method Edit(body: Option<seq<LineIn>>, s: Supplier) returns (refused: Option<InvoiceError>)
      modifies this
      ensures match Edited(old(View()), body, s)
              case Ok(inv) => refused == None && View() == inv
              case Err(e) => refused == Some(e) && View() == old(View())
      ensures refused == if old(status) != DRAFT then Some(InvalidState) else None
      ensures refused == None && body.Some? ==>
                |lines| == |body.value| && forall i :: 0 <= i < |lines| ==> LineSays(lines[i], body.value[i])
      ensures refused == None && body.None? ==> lines == old(lines)
      ensures refused == None ==> subtotalCents == LineTotals(lines) && View() == old(View()).(doc := Doc())
    {
      if status != DRAFT {
        return Some(InvalidState);
      }
      if body.Some? {
        lines := LinesFrom(body.value);
      }
      RecomputeTotals(s);
      refused := None;
    }

    /** A refused issue takes no number. */
    method Issue(s: Supplier, customer: Customer, now: nat, numbers: Sequence) returns (refused: Option<InvoiceError>)
      modifies this, numbers
      ensures refused == IssueError(old(View()), s)
      ensures refused.Some? ==> View() == old(View()) && numbers.next == old(numbers.next)
      ensures refused.None? ==>
                View() == Issued(old(View()), s, customer, now, old(numbers.next))
                && numbers.next == old(numbers.next) + 1
    {
      if status != DRAFT {
        return Some(InvalidState);
      }
      if lines == [] {
        return Some(NoLines);
      }
      var missing := MissingConfig(s);
      if missing != [] {
        return Some(NotConfigured(missing));
      }
      RecomputeTotals(s);
      var serial := numbers.NextVal();
      Stamp(s, customer, now, NumberOn(now, serial));
      status := AWAITING_PAYMENT;
      refused := None;
    }

    method Stamp(s: Supplier, customer: Customer, now: nat, number: string)
      modifies this
      ensures View() == old(View()).(doc := NumberedDocument(old(Doc()), s, customer, now, number))
    {
      this.number := Some(number);
      invoiceDate := Some(UtcDate(now));
      dueDate := Some(UtcDate(now + s.paymentTermsDays * DAY));
      issuedAt := Some(now);
      this.customer := Some(customer);
      supplier := Some(s);
    }

    method MarkSent(now: int) returns (refused: Option<InvoiceError>)
      modifies this
      ensures match MarkedSent(old(View()), now)
              case Ok(inv) => refused == None && View() == inv
              case Err(e) => refused == Some(e) && View() == old(View())
      ensures refused == if old(status) in {SENT, AWAITING_PAYMENT, OVERDUE} then None else Some(InvalidState)
      ensures refused == None ==> View() == old(View()).(status := SENT, sentAt := Some(now))
    {
      if status != AWAITING_PAYMENT && status != SENT && status != OVERDUE {
        return Some(InvalidState);
      }
      status := SENT;
      sentAt := Some(now);
      refused := None;
    }

    method MarkPaid(db: Ledger, client: Business, means: Means, reference: Option<string>, note: Option<string>,
                    actor: string, now: int)
      returns (refused: Option<InvoiceError>)
      requires client.id == business
      modifies this, db, client
      ensures refused == PaymentError(old(View()), means, reference)
      ensures refused.Some? ==>
                View() == old(View()) && client.View() == old(client.View()) && db.rows == old(db.rows)
      ensures refused.None? ==>
                && View() == MarkedPaid(old(View()), Settlement(now, means, reference, note, actor))
                && client.View() == Converted(Paid(old(client.View()), now), now)
                && db.rows == old(db.rows) + [PaidRow(View())]
      ensures refused == if old(status) == PAID then Some(AlreadyPaid)
                         else if old(status) !in {SENT, AWAITING_PAYMENT, OVERDUE} then Some(InvalidState)
                         else if means.Unsupported? then Some(InvalidMethod)
                         else if means == Eft && (reference.None? || reference.value == []) then Some(ReferenceRequired)
                         else None
      ensures refused.None? ==>
                View() == old(View()).(status := PAID,
                                       settlement := Some(Settlement(now, means, reference, note, actor)))
      ensures refused.None? ==>
                && |db.rows| == |old(db.rows)| + 1 && db.rows[..|old(db.rows)|] == old(db.rows)
                && ChargeOf(db.rows[|old(db.rows)|], business, totalCents, means, reference, number, now)
                && client.View() == old(client.View()).(
                     status := ACTIVE, active := true, reason := None, periodStart := now,
                     convertedAt := if old(client.convertedAt).Some? then old(client.convertedAt) else Some(now))
    {
      if status == PAID {
        return Some(AlreadyPaid);
      }
      if status != SENT && status != AWAITING_PAYMENT && status != OVERDUE {
        return Some(InvalidState);
      }
      if means.Unsupported? {
        return Some(InvalidMethod);
      }
      if means == Eft && !Given(reference) {
        return Some(ReferenceRequired);
      }
      status := PAID;
      settlement := Some(Settlement(now, means, reference, note, actor));
      RecordPayment(db, client, now);
      refused := None;
    }

    /** The business's side of a payment: lifecycle, history row and conversion. */
    method RecordPayment(db: Ledger, client: Business, now: int)
      requires client.id == business && settlement.Some? && settlement.value.at == now
      requires !settlement.value.means.Unsupported?
      modifies db, client
      ensures client.View() == Converted(Paid(old(client.View()), now), now)
      ensures db.rows == old(db.rows) + [PaidRow(View())]
    {
      var s := settlement.value;
      client.MarkInvoicePaid(db, Some(totalCents), Some(if s.means == Eft then EFT else CASH),
                             if Given(s.reference) then s.reference else number, now);
      if client.convertedAt.None? {
        client.convertedAt := Some(now);
      }
    }

    method Cancel(why: string, superAdmin: bool, now: int) returns (refused: Option<InvoiceError>)
      modifies this
      ensures match Cancelled(old(View()), why, superAdmin, now)
              case Ok(inv) => refused == None && View() == inv
              case Err(e) => refused == Some(e) && View() == old(View())
      ensures refused == if old(status) == PAID then Some(CannotCancelPaid)
                         else if old(status) == InvoiceStatus.CANCELLED then Some(AlreadyCancelled)
                         else if old(status) != DRAFT && !superAdmin then Some(Forbidden)
                         else None
      ensures refused == None ==>
                View() == old(View()).(status := InvoiceStatus.CANCELLED, cancellation := Some((now, why)))
    {
      if status == PAID {
        return Some(CannotCancelPaid);
      }
      if status == InvoiceStatus.CANCELLED {
        return Some(AlreadyCancelled);
      }
      if status != DRAFT && !superAdmin {
        return Some(Forbidden);
      }
      status := InvoiceStatus.CANCELLED;
      cancellation := Some((now, why));
      refused := None;
    }
  }

  predicate SameButTotals(d: Document, e: Document) {
    && (d.lines, d.number, d.invoiceDate, d.dueDate, d.issuedAt) == (e.lines, e.number, e.invoiceDate, e.dueDate, e.issuedAt)
    && (d.customer, d.supplier) == (e.customer, e.supplier)
  }

  /** The subtotal grows by each line's total. */
  lemma LineTotalsSnoc(lines: seq<InvoiceLine>, l: InvoiceLine)
    ensures LineTotals([]) == 0 && LineTotals(lines + [l]) == LineTotals(lines) + l.lineTotalCents
  {
    var before, after := Totals(lines), Totals(lines + [l]);
    assert after[..|lines|] == before;
  }

  /** What issuing writes on a draft: the number, the dates from the clock and the terms, the two snapshots. */
  lemma IssuedIs(inv: Invoice, s: Supplier, customer: Customer, now: nat, serial: nat)
    ensures var issued := Issued(inv, s, customer, now, serial);
            && issued == inv.(status := AWAITING_PAYMENT, doc := issued.doc)
            && issued.doc.number == Some(InvoiceNumber(Year(LocalDate(now, 0)), serial))
            && issued.doc.invoiceDate == Some(LocalDate(now, 0)) && issued.doc.issuedAt == Some(now)
            && issued.doc.dueDate == Some(LocalDate(now, 0) + s.paymentTermsDays)
            && issued.doc.customer == Some(customer) && issued.doc.supplier == Some(s)
            && issued.doc.lines == inv.doc.lines && issued.doc.subtotalCents == LineTotals(inv.doc.lines)
  {
  }

  /** A configuration field is reported exactly when it is needed and blank; the VAT number only for a registered supplier. */
  lemma MissingConfigIff(s: Supplier, f: Field)
    ensures f in MissingConfig(s) <==> (f == VatNumber ==> s.vatRegistered) && (f !in s.details || s.details[f] == [])
  {
    assert f in REQUIRED_FIELDS <==> f != VatNumber by {
      assert REQUIRED_FIELDS[0] == LegalName && REQUIRED_FIELDS[1] == Address && REQUIRED_FIELDS[2] == ContactEmail;
      assert REQUIRED_FIELDS[3] == BankName && REQUIRED_FIELDS[4] == BankAccountName;
      assert REQUIRED_FIELDS[5] == BankAccountNumber && REQUIRED_FIELDS[6] == BankBranchCode;
    }
  }

  /** The stored totals of a document add up and carry the exclusive VAT at the stored rate. */
  ghost predicate TotalsOk(doc: Document) {
    && doc.subtotalCents == LineTotals(doc.lines)
    && (doc.totalCents, doc.vatCents) == ApplyVat(doc.subtotalCents, doc.vatRate, false)
  }

  /** VAT and subtotal of a document can be recovered from its total and rate alone. */
  lemma VatRecoverable(doc: Document)
    requires TotalsOk(doc)
    ensures CalculateVat(doc.totalCents, doc.vatRate, true) == doc.vatCents
    ensures doc.totalCents - CalculateVat(doc.totalCents, doc.vatRate, true) == doc.subtotalCents
  {
    VatRoundTrip(doc.subtotalCents, doc.vatRate);
  }
}
