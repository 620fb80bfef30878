/**
 * The synthetic audit-data generator: vendors, invoices and payments for one
 * engagement, the anchor exceptions injected into them, and the policy
 * snippets indexed for retrieval.
 *
 * Randomness is an oracle: every record draws from its own bundle of raw
 * values, `random.choice(xs)` picks `xs[pick % |xs|]`, `random.randint(a, b)`
 * is `a + pick % (b - a + 1)` and `random.random()` is a real in [0, 1).
 * Timestamps are whole days since 1970-01-01 (UTC midnight), amounts are
 * integer cents.
 */
module DataGenerator {
  import opened Wrappers
  import opened Text
  import opened Lists

  /** Days since 1970-01-01. */
  type Day = int

  /** An amount of US dollars, in cents. */
  type Cents = int

  /** A value of `random.random()`. */
  type Unit = r: real | 0.0 <= r < 1.0

  /** `random.choice` on an empty list and `vendors[1]` on a short list raise it. */
  datatype GenError = IndexError

  /** `len(range(n))`. */
  function RangeLen(n: int): nat {
    if n < 0 then 0 else n
  }

  /** `random.choice(xs)` driven by the oracle value `pick`. */
  function Choice<T>(xs: seq<T>, pick: nat): (r: T)
    requires |xs| > 0
    ensures r in xs
  {
    xs[pick % |xs|]
  }

  /** `random.randint(lo, hi)` driven by the oracle value `pick`. */
  function RandInt(lo: int, hi: int, pick: nat): (r: int)
    requires lo <= hi
    ensures lo <= r <= hi
  {
    lo + pick % (hi - lo + 1)
  }

  // ---------------------------------------------------------------------------
  // Policy snippets
  // ---------------------------------------------------------------------------

  datatype Policy = Policy(
    policyId: string,
    policyName: string,
    sectionId: string,
    sectionTitle: string,
    effectiveDate: string,
    text: string)

  /** A retrieval document for one policy section. */
  datatype PolicyDoc = PolicyDoc(
    id: string,
    docType: string,
    engagementId: string,
    policyId: string,
    section: string,
    effectiveDate: string,
    content: string)

  /** The section id with every "." replaced by "-". */
  function SectionKey(sectionId: string): (r: string)
    ensures |r| == |sectionId| && '.' !in r
    ensures forall i :: 0 <= i < |r| ==> r[i] == (if sectionId[i] == '.' then '-' else sectionId[i])
  {
    ReplaceChar(sectionId, '.', '-')
  }

  /** `POLICY_TEMPLATE.format(...)`: the header lines, a blank line, the policy text and a final newline. */
  function PolicyContent(p: Policy): (r: string)
    ensures StartsWith(r, "Policy: " + p.policyName + "\n")
    ensures OccursAt(r, |"Policy: " + p.policyName + "\n" + "Section: "|, p.sectionTitle)
    ensures OccursAt(r, |"Policy: " + p.policyName + "\n" + "Section: " + p.sectionTitle + "\nEffective Date: "|,
                     p.effectiveDate)
    ensures EndsWith(r, "\n\n" + p.text + "\n")
  {
    var head := "Policy: " + p.policyName + "\n";
    var last := "\n\n" + p.text + "\n";
    TemplateLayout(head, "Section: ", p.sectionTitle, "\nEffective Date: ", p.effectiveDate, last);
    head + ("Section: " + p.sectionTitle + ("\nEffective Date: " + p.effectiveDate)) + last
  }

  /** The template text opens with its first line, holds both header values after their labels and ends with the body. */
  lemma TemplateLayout(head: string, label1: string, value1: string, label2: string, value2: string, last: string)
    ensures StartsWith(head + (label1 + value1 + (label2 + value2)) + last, head)
    ensures OccursAt(head + (label1 + value1 + (label2 + value2)) + last, |head + label1|, value1)
    ensures OccursAt(head + (label1 + value1 + (label2 + value2)) + last, |head + label1 + value1 + label2|, value2)
    ensures EndsWith(head + (label1 + value1 + (label2 + value2)) + last, last)
  {
    var middle := label1 + value1 + (label2 + value2);
    ThreePartAffixes(head, middle, last);
    NestedPieceAt(head, label1, value1, label2 + value2, last);
    assert middle == (label1 + value1 + label2) + value2 + "";
    NestedPieceAt(head, label1 + value1 + label2, value2, "", last);
  }

  /** The document id: `doc-policy-{engagement_id}-{policy_id}-{section_key}`. */
  function PolicyDocId(engagementId: string, policyId: string, sectionId: string): string {
    "doc-policy-" + engagementId + "-" + (policyId + ("-" + SectionKey(sectionId)))
  }

  /** `generate_policy_doc`. */
  function GeneratePolicyDoc(engagementId: string, p: Policy): (r: PolicyDoc)
    ensures r.id == "doc-policy-" + engagementId + "-" + p.policyId + "-" + SectionKey(p.sectionId)
    ensures '.' !in r.id[|r.id| - |p.sectionId|..]
    ensures r.docType == "policy_snippet" && r.engagementId == engagementId
    ensures r.policyId == p.policyId && r.effectiveDate == p.effectiveDate
    ensures r.section == p.sectionTitle && r.content == PolicyContent(p)
  {
    var id := PolicyDocId(engagementId, p.policyId, p.sectionId);
    assert id[|id| - |p.sectionId|..] == SectionKey(p.sectionId);
    PolicyDoc(id, "policy_snippet", engagementId, p.policyId, p.sectionTitle, p.effectiveDate, PolicyContent(p))
  }

  /**
   * Two sections of one engagement get different document ids when their
   * policy ids have one length and differ, or agree and their section keys differ.
   */
  lemma PolicyDocIdsDiffer(engagementId: string, policyId: string, sectionId: string,
                           policyId': string, sectionId': string)
    requires |policyId| == |policyId'|
    requires policyId != policyId' || SectionKey(sectionId) != SectionKey(sectionId')
    ensures PolicyDocId(engagementId, policyId, sectionId) != PolicyDocId(engagementId, policyId', sectionId')
  {
    var pre := "doc-policy-" + engagementId + "-";
    var k, k' := SectionKey(sectionId), SectionKey(sectionId');
    PrefixCancel(pre, policyId + ("-" + k), policyId' + ("-" + k'));
    if policyId == policyId' {
      PrefixCancel(policyId, "-" + k, "-" + k');
      PrefixCancel("-", k, k');
    } else {
      EqualLengthHeadsDiffer(policyId, policyId', "-" + k, "-" + k');
    }
  }

  /** Only the section key enters the id: "3.1" and "3-1" give the same document id. */
  lemma SectionIdsCollide(engagementId: string, p: Policy)
    requires p.sectionId == "3.1"
    ensures GeneratePolicyDoc(engagementId, p).id == GeneratePolicyDoc(engagementId, p.(sectionId := "3-1")).id
  {
    assert SectionKey("3.1") == "3-1";
    assert SectionKey("3-1") == "3-1";
  }

  const PolicyTable: seq<Policy> := [
    Policy("AP-001", "Accounts Payable Policy", "3.1", "Three-Way Match", "2025-01-01",
      "Invoices should be matched to an approved PO and receiving record prior to payment. Exceptions require documented justification."),
    Policy("AP-001", "Accounts Payable Policy", "4.2", "Duplicate Invoice Prevention", "2025-01-01",
      "AP must prevent duplicate payments by checking vendor, invoice number, invoice date, and amount prior to payment release."),
    Policy("AP-002", "Vendor Master Governance", "2.3", "High Risk Vendor Review", "2025-01-01",
      "Vendors classified as High risk require periodic review, including validation of bank account changes and business purpose.")
  ]

  /** `generate_policy_snippets`: one document per policy section, with distinct ids. */
  function GeneratePolicySnippets(engagementId: string): (r: seq<PolicyDoc>)
    ensures |r| == 3
    ensures forall i :: 0 <= i < 3 ==> r[i] == GeneratePolicyDoc(engagementId, PolicyTable[i])
    ensures forall i, j :: 0 <= i < j < 3 ==> r[i].id != r[j].id
  {
    PolicySnippetIdsDistinct(engagementId);
    seq(|PolicyTable|, i requires 0 <= i < |PolicyTable| => GeneratePolicyDoc(engagementId, PolicyTable[i]))
  }

  lemma PolicySnippetIdsDistinct(engagementId: string)
    ensures forall i, j :: 0 <= i < j < 3 ==>
      PolicyDocId(engagementId, PolicyTable[i].policyId, PolicyTable[i].sectionId)
      != PolicyDocId(engagementId, PolicyTable[j].policyId, PolicyTable[j].sectionId)
  {
    var t := PolicyTable;
    assert t[0].policyId == "AP-001" && t[0].sectionId == "3.1";
    assert t[1].policyId == "AP-001" && t[1].sectionId == "4.2";
    assert t[2].policyId == "AP-002" && t[2].sectionId == "2.3";
    assert SectionKey("3.1")[0] == '3' && SectionKey("4.2")[0] == '4';
    forall i, j | 0 <= i < j < 3
      ensures PolicyDocId(engagementId, t[i].policyId, t[i].sectionId) != PolicyDocId(engagementId, t[j].policyId, t[j].sectionId)
    {
      PolicyDocIdsDiffer(engagementId, t[i].policyId, t[i].sectionId, t[j].policyId, t[j].sectionId);
    }
  }

  // ---------------------------------------------------------------------------
  // Vendors
  // ---------------------------------------------------------------------------

  datatype Vendor = Vendor(
    id: string,
    recordType: string,
    engagementId: string,
    vendorId: string,
    name: string,
    riskTier: string,
    createdAt: string,
    bankAccountHash: string)

  /** The oracle values one vendor consumes. */
  datatype VendorDraw = VendorDraw(namePick: nat, tierPick: nat, bankPick: nat)

  const VendorNames: seq<string> :=
    ["Acme Supply Co", "Northwind Parts", "Fabrikam Services", "Woodgrove Logistics", "Contoso Industrial"]

  const RiskTiers: seq<string> := ["Low", "Medium", "High"]

  function VendorId(i: nat): string {
    "VEN-" + NatToDecimal(1000 + i)
  }

  /** The i-th vendor of `generate_vendors`. */
  function MakeVendor(engagementId: string, i: nat, d: VendorDraw): (r: Vendor)
    ensures r.vendorId == "VEN-" + NatToDecimal(1000 + i) && r.id == engagementId + ":" + r.vendorId
    ensures r.recordType == "vendor" && r.engagementId == engagementId && r.createdAt == "2024-11-15"
    ensures r.name in VendorNames && r.riskTier in RiskTiers
    ensures StartsWith(r.bankAccountHash, "ba_") && AllDigits(r.bankAccountHash[3..])
    ensures 10000 <= ParseDecimal(r.bankAccountHash[3..]) <= 99999
  {
    var bank := RandInt(10000, 99999, d.bankPick);
    DecimalRoundTrip(bank);
    var hash := "ba_" + NatToDecimal(bank);
    assert hash[3..] == NatToDecimal(bank);
    Vendor(
      engagementId + ":" + VendorId(i), "vendor", engagementId, VendorId(i),
      Choice(VendorNames, d.namePick), Choice(RiskTiers, d.tierPick), "2024-11-15", hash)
  }

  /** Vendors at different positions get different vendor ids and different document ids. */
  lemma VendorIdsDiffer(engagementId: string, i: nat, j: nat, d: VendorDraw, d': VendorDraw)
    requires i != j
    ensures MakeVendor(engagementId, i, d).vendorId != MakeVendor(engagementId, j, d').vendorId
    ensures MakeVendor(engagementId, i, d).id != MakeVendor(engagementId, j, d').id
  {
    DecimalInjective(1000 + i, 1000 + j);
    PrefixCancel("VEN-", NatToDecimal(1000 + i), NatToDecimal(1000 + j));
    PrefixCancel(engagementId + ":", VendorId(i), VendorId(j));
  }

  /** The k-th vendor is the one built from the k-th draw. */
  ghost predicate VendorsFromDraws(engagementId: string, draw: nat -> VendorDraw, vendors: seq<Vendor>) {
    forall k :: 0 <= k < |vendors| ==> vendors[k] == MakeVendor(engagementId, k, draw(k))
  }

  /** Appending the vendor built from the next draw keeps the vendors built from their draws. */
  lemma VendorsFromDrawsAppend(engagementId: string, draw: nat -> VendorDraw, vendors: seq<Vendor>, v: Vendor)
    requires VendorsFromDraws(engagementId, draw, vendors)
    requires v == MakeVendor(engagementId, |vendors|, draw(|vendors|))
    ensures VendorsFromDraws(engagementId, draw, vendors + [v])
  {
    var next := vendors + [v];
    forall k | 0 <= k < |next|
      ensures next[k] == MakeVendor(engagementId, k, draw(k))
    {
      if k < |vendors| {
        assert next[k] == vendors[k];
      }
    }
  }

  /** `generate_vendors(engagement_id, n)`. */
  method GenerateVendors(engagementId: string, n: int, draw: nat -> VendorDraw) returns (vendors: seq<Vendor>)
    ensures |vendors| == RangeLen(n)
    ensures forall i :: 0 <= i < |vendors| ==> vendors[i] == MakeVendor(engagementId, i, draw(i))
    ensures forall i :: 0 <= i < |vendors| ==>
      vendors[i].vendorId == "VEN-" + NatToDecimal(1000 + i) && vendors[i].id == engagementId + ":" + vendors[i].vendorId
    ensures forall i :: 0 <= i < |vendors| ==> vendors[i].name in VendorNames && vendors[i].riskTier in RiskTiers
    ensures forall i, j :: 0 <= i < j < |vendors| ==>
      vendors[i].id != vendors[j].id && vendors[i].vendorId != vendors[j].vendorId
  {
    vendors := [];
    var i := 0;
    while i < n
      invariant 0 <= i <= RangeLen(n)
      invariant |vendors| == i
      invariant VendorsFromDraws(engagementId, draw, vendors)
    {
      var v := MakeVendor(engagementId, i, draw(i));
      VendorsFromDrawsAppend(engagementId, draw, vendors, v);
      vendors := vendors + [v];
      i := i + 1;
    }
    forall i, j | 0 <= i < j < |vendors|
      ensures vendors[i].id != vendors[j].id && vendors[i].vendorId != vendors[j].vendorId
    {
      VendorIdsDiffer(engagementId, i, j, draw(i), draw(j));
    }
  }

  // ---------------------------------------------------------------------------
  // Invoices
  // ---------------------------------------------------------------------------

  datatype Invoice = Invoice(
    id: string,
    recordType: string,
    engagementId: string,
    invoiceId: string,
    vendorId: string,
    invoiceDate: Day,
    amount: Cents,
    currency: string,
    poId: Option<string>,
    receiptId: Option<string>,
    status: string)

  /** The oracle values one generated invoice consumes, in the order the Python code draws them. */
  datatype InvoiceDraw = InvoiceDraw(
    vendorPick: nat,
    dayPick: nat,
    amountRandPick: nat,
    amountPick: nat,
    poRoll: Unit,
    poPick: nat,
    receiptRoll: Unit,
    receiptPick: nat,
    statusPick: nat)

  const InvoiceStatuses: seq<string> := ["Open", "Paid"]

  /** The amounts an invoice draws from: six fixed ones and a whole-dollar one. */
  function AmountChoices(randomDollars: int): seq<Cents> {
    [19999, 48750, 125000, 499999, 505000, 990000, randomDollars * 100]
  }

  /** A whole number of dollars from 300 to 15000, in cents. */
  lemma WholeDollarsInCents(dollars: int)
    requires 300 <= dollars <= 15000
    ensures (dollars * 100) % 100 == 0 && 30000 <= dollars * 100 <= 1500000
  {
  }

  function InvoiceId(i: nat): string {
    "INV-" + NatToDecimal(7000 + i)
  }

  /** A tagged number: `prefix` followed by the decimal digits of a value in [lo, hi]. */
  ghost predicate TaggedNumber(s: string, prefix: string, lo: nat, hi: nat) {
    StartsWith(s, prefix) && AllDigits(s[|prefix|..]) && lo <= ParseDecimal(s[|prefix|..]) <= hi
  }

  /** `prefix` followed by `str(randint(lo, hi))`. */
  function TaggedDraw(prefix: string, lo: nat, hi: nat, pick: nat): (r: string)
    requires lo <= hi
    ensures TaggedNumber(r, prefix, lo, hi)
  {
    var n := RandInt(lo, hi, pick);
    DecimalRoundTrip(n);
    assert (prefix + NatToDecimal(n))[|prefix|..] == NatToDecimal(n);
    prefix + NatToDecimal(n)
  }

  /**
   * The i-th invoice of `generate_invoices`: a listed vendor, a date within 92
   * days of `start`, one of the six fixed amounts or a whole number of dollars
   * from 300 to 15000, a PO with probability 0.75 and a receipt with 0.70.
   */
  function MakeInvoice(engagementId: string, vendors: seq<Vendor>, start: Day, i: nat, d: InvoiceDraw): (r: Invoice)
    requires |vendors| > 0
    ensures r.invoiceId == "INV-" + NatToDecimal(7000 + i) && r.id == engagementId + ":" + r.invoiceId
    ensures r.recordType == "invoice" && r.engagementId == engagementId && r.currency == "USD"
    ensures NamesListedVendor(vendors, r)
    ensures start <= r.invoiceDate <= start + 92
    ensures r.amount in [19999, 48750, 125000, 499999, 505000, 990000]
         || (r.amount % 100 == 0 && 30000 <= r.amount <= 1500000)
    ensures r.poId.Some? <==> d.poRoll < 0.75
    ensures r.poId.Some? ==> TaggedNumber(r.poId.value, "PO-", 8000, 8999)
    ensures r.receiptId.Some? <==> d.receiptRoll < 0.70
    ensures r.receiptId.Some? ==> TaggedNumber(r.receiptId.value, "RCPT-", 9000, 9999)
    ensures r.status in InvoiceStatuses
  {
    var v := d.vendorPick % |vendors|;
    var dollars := RandInt(300, 15000, d.amountRandPick);
    var amounts := AmountChoices(dollars);
    var amount := Choice(amounts, d.amountPick);
    assert amount == amounts[d.amountPick % 7];
    WholeDollarsInCents(dollars);
    Invoice(
      engagementId + ":" + InvoiceId(i), "invoice", engagementId, InvoiceId(i),
      vendors[v].vendorId,
      start + RandInt(0, 92, d.dayPick),
      amount,
      "USD",
      if d.poRoll < 0.75 then Some(TaggedDraw("PO-", 8000, 8999, d.poPick)) else None,
      if d.receiptRoll < 0.70 then Some(TaggedDraw("RCPT-", 9000, 9999, d.receiptPick)) else None,
      Choice(InvoiceStatuses, d.statusPick))
  }

  /** Every invoice names the vendor id of one of the vendors. */
  ghost predicate InvoicesReferenceVendors(vendors: seq<Vendor>, invoices: seq<Invoice>) {
    forall j :: 0 <= j < |invoices| ==> NamesListedVendor(vendors, invoices[j])
  }

  ghost predicate NamesListedVendor(vendors: seq<Vendor>, inv: Invoice) {
    exists v :: 0 <= v < |vendors| && vendors[v].vendorId == inv.vendorId
  }

  /** No two invoices share an invoice id. */
  ghost predicate DistinctInvoiceIds(invoices: seq<Invoice>) {
    forall i, j :: 0 <= i < j < |invoices| ==> invoices[i].invoiceId != invoices[j].invoiceId
  }

  /** Invoices at different positions get different invoice ids and different document ids. */
  lemma InvoiceIdsDiffer(engagementId: string, i: nat, j: nat)
    requires i != j
    ensures InvoiceId(i) != InvoiceId(j)
    ensures engagementId + ":" + InvoiceId(i) != engagementId + ":" + InvoiceId(j)
  {
    DecimalInjective(7000 + i, 7000 + j);
    PrefixCancel("INV-", NatToDecimal(7000 + i), NatToDecimal(7000 + j));
    PrefixCancel(engagementId + ":", InvoiceId(i), InvoiceId(j));
  }

  /** The k-th invoice is the one built from the k-th draw. */
  ghost predicate InvoicesFromDraws(engagementId: string, vendors: seq<Vendor>, start: Day, draw: nat -> InvoiceDraw,
                                    invoices: seq<Invoice>) {
    forall k :: 0 <= k < |invoices| ==> |vendors| > 0 && invoices[k] == MakeInvoice(engagementId, vendors, start, k, draw(k))
  }

  /** Appending the invoice built from the next draw keeps the invoices built from their draws. */
  lemma InvoicesFromDrawsAppend(engagementId: string, vendors: seq<Vendor>, start: Day, draw: nat -> InvoiceDraw,
                                invoices: seq<Invoice>, inv: Invoice)
    requires InvoicesFromDraws(engagementId, vendors, start, draw, invoices)
    requires |vendors| > 0 && inv == MakeInvoice(engagementId, vendors, start, |invoices|, draw(|invoices|))
    ensures InvoicesFromDraws(engagementId, vendors, start, draw, invoices + [inv])
  {
    var next := invoices + [inv];
    forall k | 0 <= k < |next|
      ensures next[k] == MakeInvoice(engagementId, vendors, start, k, draw(k))
    {
      if k < |invoices| {
        assert next[k] == invoices[k];
      }
    }
  }

  /**
   * `generate_invoices(engagement_id, vendors, n, start)`; `random.choice`
   * raises IndexError on the first iteration when there are no vendors.
   */
  method GenerateInvoices(engagementId: string, vendors: seq<Vendor>, n: int, start: Day, draw: nat -> InvoiceDraw)
    returns (r: Result<seq<Invoice>, GenError>)
    ensures r.Failure? <==> n > 0 && |vendors| == 0
    ensures r.Success? ==> |r.value| == RangeLen(n)
    ensures r.Success? ==> forall i :: 0 <= i < |r.value| ==>
      |vendors| > 0 && r.value[i] == MakeInvoice(engagementId, vendors, start, i, draw(i))
    ensures r.Success? ==> forall i :: 0 <= i < |r.value| ==>
      && r.value[i].invoiceId == "INV-" + NatToDecimal(7000 + i)
      && r.value[i].id == engagementId + ":" + r.value[i].invoiceId
      && start <= r.value[i].invoiceDate <= start + 92
      && r.value[i].status in InvoiceStatuses
    ensures r.Success? ==> InvoicesReferenceVendors(vendors, r.value)
    ensures r.Success? ==> DistinctInvoiceIds(r.value)
  {
    var invoices: seq<Invoice> := [];
    var i := 0;
    while i < n
      invariant 0 <= i <= RangeLen(n)
      invariant |invoices| == i
      invariant i > 0 ==> |vendors| > 0
      invariant InvoicesFromDraws(engagementId, vendors, start, draw, invoices)
    {
      if |vendors| == 0 {
        return Failure(IndexError);
      }
      var inv := MakeInvoice(engagementId, vendors, start, i, draw(i));
      InvoicesFromDrawsAppend(engagementId, vendors, start, draw, invoices, inv);
      invoices := invoices + [inv];
      i := i + 1;
    }
    forall k | 0 <= k < |invoices|
      ensures invoices[k].invoiceId == "INV-" + NatToDecimal(7000 + k)
      ensures invoices[k].id == engagementId + ":" + invoices[k].invoiceId
      ensures start <= invoices[k].invoiceDate <= start + 92
      ensures invoices[k].status in InvoiceStatuses
      ensures NamesListedVendor(vendors, invoices[k])
    {
      var inv := MakeInvoice(engagementId, vendors, start, k, draw(k));
      assert invoices[k] == inv;
    }
    forall i, j | 0 <= i < j < |invoices|
      ensures invoices[i].invoiceId != invoices[j].invoiceId
    {
      InvoiceIdsDiffer(engagementId, i, j);
    }
    return Success(invoices);
  }

  // ---------------------------------------------------------------------------
  // Payments
  // ---------------------------------------------------------------------------

  datatype Payment = Payment(
    id: string,
    recordType: string,
    engagementId: string,
    paymentId: string,
    invoiceId: string,
    vendorId: string,
    paidAt: Day,
    amount: Cents,
    payMethod: string)

  /** The oracle values one invoice consumes in `generate_payments`. */
  datatype PaymentDraw = PaymentDraw(payRoll: Unit, dayPick: nat, methodPick: nat)

  const PaymentMethods: seq<string> := ["ACH", "Wire", "Check"]

  /** `random.random() > pay_rate`: the invoice gets no payment. */
  predicate Unpaid(d: PaymentDraw, payRate: real) {
    d.payRoll > payRate
  }

  /**
   * The payment `generate_payments` builds for one invoice: it carries the
   * invoice's id, vendor and amount, and is made 1 to 60 days after it.
   */
  function MakePayment(engagementId: string, inv: Invoice, d: PaymentDraw): (p: Payment)
    ensures p.paymentId == "PAY-" + inv.invoiceId && p.id == engagementId + ":" + p.paymentId
    ensures p.recordType == "payment" && p.engagementId == engagementId
    ensures p.invoiceId == inv.invoiceId && p.vendorId == inv.vendorId && p.amount == inv.amount
    ensures inv.invoiceDate + 1 <= p.paidAt <= inv.invoiceDate + 60
    ensures p.payMethod in PaymentMethods
  {
    Payment(
      engagementId + ":" + "PAY-" + inv.invoiceId, "payment", engagementId, "PAY-" + inv.invoiceId,
      inv.invoiceId, inv.vendorId, inv.invoiceDate + RandInt(1, 60, d.dayPick), inv.amount,
      Choice(PaymentMethods, d.methodPick))
  }

  /** Every payment names an invoice with the same invoice id, vendor and amount. */
  ghost predicate PaymentsReferenceInvoices(invoices: seq<Invoice>, payments: seq<Payment>) {
    forall k :: 0 <= k < |payments| ==> PaysListedInvoice(invoices, payments[k])
  }

  ghost predicate PaysListedInvoice(invoices: seq<Invoice>, p: Payment) {
    exists j :: 0 <= j < |invoices| && InvoicePaidBy(invoices[j], p)
  }

  ghost predicate InvoicePaidBy(inv: Invoice, p: Payment) {
    inv.invoiceId == p.invoiceId && inv.vendorId == p.vendorId && inv.amount == p.amount
  }

  /**
   * `generate_payments(engagement_id, invoices, pay_rate)`. The ghost `paid`
   * lists, in increasing order, the positions of the invoices that got a payment.
   */
  method GeneratePayments(engagementId: string, invoices: seq<Invoice>, draw: nat -> PaymentDraw, payRate: real)
    returns (payments: seq<Payment>, ghost paid: seq<nat>)
    ensures |payments| == |paid| <= |invoices|
    ensures forall k :: 0 <= k < |paid| ==>
      paid[k] < |invoices| && payments[k] == MakePayment(engagementId, invoices[paid[k]], draw(paid[k]))
    ensures forall k, l :: 0 <= k < l < |paid| ==> paid[k] < paid[l]
    ensures forall i :: 0 <= i < |invoices| ==> (i in paid <==> !Unpaid(draw(i), payRate))
    ensures PaymentsReferenceInvoices(invoices, payments)
    ensures payRate >= 1.0 ==> |payments| == |invoices|
    ensures payRate < 0.0 ==> payments == []
  {
    payments, paid := [], [];
    var i := 0;
    while i < |invoices|
      invariant 0 <= i <= |invoices|
      invariant |payments| == |paid| <= i
      invariant forall k :: 0 <= k < |paid| ==>
        paid[k] < i && payments[k] == MakePayment(engagementId, invoices[paid[k]], draw(paid[k]))
      invariant forall k, l :: 0 <= k < l < |paid| ==> paid[k] < paid[l]
      invariant forall j :: 0 <= j < i ==> (j in paid <==> !Unpaid(draw(j), payRate))
      invariant payRate >= 1.0 ==> |paid| == i
      invariant payRate < 0.0 ==> payments == []
    {
      var inv := invoices[i];
      if Unpaid(draw(i), payRate) {
        i := i + 1;
        continue;
      }
      payments := payments + [MakePayment(engagementId, inv, draw(i))];
      paid := paid + [i];
      i := i + 1;
    }
    forall k | 0 <= k < |payments|
      ensures PaysListedInvoice(invoices, payments[k])
    {
      assert InvoicePaidBy(invoices[paid[k]], payments[k]);
    }
  }

  // ---------------------------------------------------------------------------
  // Anchor exceptions
  // ---------------------------------------------------------------------------

  /** 2025-08-12, 2025-08-14, 2025-08-20, 2025-08-22, 2025-09-05 and 2025-09-18. */
  const Aug12: Day := 20312
  const Aug14: Day := 20314
  const Aug20: Day := 20320
  const Aug22: Day := 20322
  const Sep05: Day := 20336
  const Sep18: Day := 20349

  function AnchorInvoice(engagementId: string, invoiceId: string, vendorId: string, date: Day): Invoice {
    Invoice(engagementId + ":" + invoiceId, "invoice", engagementId, invoiceId, vendorId, date,
      487533, "USD", Some("PO-8123"), Some("RCPT-9451"), "Paid")
  }

  function AnchorPayment(engagementId: string, invoiceId: string, vendorId: string, date: Day, amount: Cents, payMethod: string): Payment {
    Payment(engagementId + ":PAY-" + invoiceId, "payment", engagementId, "PAY-" + invoiceId,
      invoiceId, vendorId, date, amount, payMethod)
  }

  /** The duplicate invoice pair, both for `vendorId`. */
  function DuplicatePair(engagementId: string, vendorId: string): (r: seq<Invoice>)
    ensures |r| == 2 && r[0].invoiceId == "INV-ANCHOR-001" && r[1].invoiceId == "INV-ANCHOR-002"
    ensures r[0].vendorId == r[1].vendorId == vendorId && r[0].amount == r[1].amount
    ensures r[0].poId == r[1].poId != None && r[0].receiptId == r[1].receiptId != None
    ensures r[1].invoiceDate - r[0].invoiceDate == 2
    ensures r[0].status == r[1].status == "Paid"
  {
    [AnchorInvoice(engagementId, "INV-ANCHOR-001", vendorId, Aug12),
     AnchorInvoice(engagementId, "INV-ANCHOR-002", vendorId, Aug14)]
  }

  /** The payments of the duplicate pair, each matching its invoice. */
  function DuplicatePairPayments(engagementId: string, vendorId: string): (r: seq<Payment>)
    ensures |r| == 2
    ensures forall k :: 0 <= k < 2 ==> InvoicePaidBy(DuplicatePair(engagementId, vendorId)[k], r[k])
    ensures forall k :: 0 <= k < 2 ==> r[k].paidAt > DuplicatePair(engagementId, vendorId)[k].invoiceDate
  {
    [AnchorPayment(engagementId, "INV-ANCHOR-001", vendorId, Aug20, 487533, "ACH"),
     AnchorPayment(engagementId, "INV-ANCHOR-002", vendorId, Aug22, 487533, "ACH")]
  }

  /** The paid invoice without purchase order or receipt. */
  function NoPoInvoice(engagementId: string, vendorId: string): (r: Invoice)
    ensures r.invoiceId == "INV-ANCHOR-NOPO" && r.vendorId == vendorId
    ensures r.poId == None && r.receiptId == None && r.status == "Paid"
  {
    Invoice(engagementId + ":INV-ANCHOR-NOPO", "invoice", engagementId, "INV-ANCHOR-NOPO", vendorId, Sep05,
      990000, "USD", None, None, "Paid")
  }

  function NoPoPayment(engagementId: string, vendorId: string): (r: Payment)
    ensures InvoicePaidBy(NoPoInvoice(engagementId, vendorId), r)
    ensures r.paidAt > NoPoInvoice(engagementId, vendorId).invoiceDate && r.payMethod == "Wire"
  {
    AnchorPayment(engagementId, "INV-ANCHOR-NOPO", vendorId, Sep18, 990000, "Wire")
  }

  /** The three anchor invoices in the order they end up at the front of the list. */
  function AnchorInvoices(engagementId: string, vendors: seq<Vendor>): (r: seq<Invoice>)
    requires |vendors| >= 2
    ensures |r| == 3
    ensures r[0].invoiceId == "INV-ANCHOR-001" && r[1].invoiceId == "INV-ANCHOR-002" && r[2].invoiceId == "INV-ANCHOR-NOPO"
    ensures r[0].vendorId == r[1].vendorId == vendors[0].vendorId && r[2].vendorId == vendors[1].vendorId
    ensures DistinctInvoiceIds(r)
  {
    DuplicatePair(engagementId, vendors[0].vendorId) + [NoPoInvoice(engagementId, vendors[1].vendorId)]
  }

  /** The three anchor payments in the order they are appended. */
  function AnchorPayments(engagementId: string, vendors: seq<Vendor>): (r: seq<Payment>)
    requires |vendors| >= 2
    ensures |r| == 3
    ensures forall k :: 0 <= k < 3 ==> InvoicePaidBy(AnchorInvoices(engagementId, vendors)[k], r[k])
    ensures r[2].invoiceId == "INV-ANCHOR-NOPO" && r[0].invoiceId != "INV-ANCHOR-NOPO" && r[1].invoiceId != "INV-ANCHOR-NOPO"
  {
    DuplicatePairPayments(engagementId, vendors[0].vendorId) + [NoPoPayment(engagementId, vendors[1].vendorId)]
  }

  /**
   * `inject_anchor_exceptions`, changing the caller's invoice and payment lists
   * in place. It reads `vendors[0]` before changing anything and `vendors[1]`
   * only after the duplicate pair and its payments are in: with no vendor
   * nothing changes, with one vendor the pair stays in and IndexError follows.
   */
  method InjectAnchorExceptions(engagementId: string, vendors: seq<Vendor>,
                                invoices: RecordList<Invoice>, payments: RecordList<Payment>)
    returns (err: Option<GenError>)
    modifies invoices, payments
    ensures err == (if |vendors| < 2 then Some(IndexError) else None)
    ensures |vendors| == 0 ==>
      invoices.items == old(invoices.items) && payments.items == old(payments.items)
    ensures |vendors| == 1 ==>
      && invoices.items == DuplicatePair(engagementId, vendors[0].vendorId) + old(invoices.items)
      && payments.items == old(payments.items) + DuplicatePairPayments(engagementId, vendors[0].vendorId)
    ensures |vendors| >= 2 ==>
      && invoices.items == AnchorInvoices(engagementId, vendors) + old(invoices.items)
      && payments.items == old(payments.items) + AnchorPayments(engagementId, vendors)
  {
    if |vendors| == 0 {
      return Some(IndexError);
    }
    var anchorVendor := vendors[0].vendorId;
    var pair := DuplicatePair(engagementId, anchorVendor);
    var pairPayments := DuplicatePairPayments(engagementId, anchorVendor);
    invoices.Insert(0, pair[0]);
    invoices.Insert(1, pair[1]);
    payments.Append(pairPayments[0]);
    payments.Append(pairPayments[1]);
    assert invoices.items == pair + old(invoices.items);
    assert payments.items == old(payments.items) + pairPayments;
    if |vendors| < 2 {
      return Some(IndexError);
    }
    invoices.Insert(2, NoPoInvoice(engagementId, vendors[1].vendorId));
    payments.Append(NoPoPayment(engagementId, vendors[1].vendorId));
    return None;
  }

  /**
   * Putting invoices that only name known vendors in front of a list, and
   * appending payments that only name those invoices, keeps both reference
   * invariants.
   */
  lemma PrependAnchorsKeepsReferences(vendors: seq<Vendor>, front: seq<Invoice>, invoices: seq<Invoice>,
                                      payments: seq<Payment>, extra: seq<Payment>)
    requires InvoicesReferenceVendors(vendors, front) && InvoicesReferenceVendors(vendors, invoices)
    requires PaymentsReferenceInvoices(invoices, payments)
    requires PaymentsReferenceInvoices(front, extra)
    ensures InvoicesReferenceVendors(vendors, front + invoices)
    ensures PaymentsReferenceInvoices(front + invoices, payments + extra)
  {
    var all := front + invoices;
    forall j | 0 <= j < |all|
      ensures NamesListedVendor(vendors, all[j])
    {
      if j < |front| {
        assert all[j] == front[j];
      } else {
        assert all[j] == invoices[j - |front|];
      }
    }
    var ps := payments + extra;
    forall k | 0 <= k < |ps|
      ensures PaysListedInvoice(all, ps[k])
    {
      if k < |payments| {
        assert ps[k] == payments[k];
        var j :| 0 <= j < |invoices| && InvoicePaidBy(invoices[j], payments[k]);
        assert all[|front| + j] == invoices[j];
      } else {
        assert ps[k] == extra[k - |payments|];
        var j :| 0 <= j < |front| && InvoicePaidBy(front[j], extra[k - |payments|]);
        assert all[j] == front[j];
      }
    }
  }

  /** After a successful injection every invoice still names a vendor and every payment an invoice. */
  lemma AnchorsKeepReferences(engagementId: string, vendors: seq<Vendor>, invoices: seq<Invoice>, payments: seq<Payment>)
    requires |vendors| >= 2
    requires InvoicesReferenceVendors(vendors, invoices) && PaymentsReferenceInvoices(invoices, payments)
    ensures InvoicesReferenceVendors(vendors, AnchorInvoices(engagementId, vendors) + invoices)
    ensures PaymentsReferenceInvoices(AnchorInvoices(engagementId, vendors) + invoices,
                                      payments + AnchorPayments(engagementId, vendors))
  {
    var front := AnchorInvoices(engagementId, vendors);
    var extra := AnchorPayments(engagementId, vendors);
    forall j | 0 <= j < 3
      ensures NamesListedVendor(vendors, front[j])
    {
      var v := if j < 2 then 0 else 1;
      assert vendors[v].vendorId == front[j].vendorId;
    }
    forall k | 0 <= k < 3
      ensures PaysListedInvoice(front, extra[k])
    {
      assert InvoicePaidBy(front[k], extra[k]);
    }
    PrependAnchorsKeepsReferences(vendors, front, invoices, payments, extra);
  }

  /** Generated invoice ids ("INV-" and digits) never collide with the anchor ids. */
  lemma AnchorIdsAreFresh(engagementId: string, vendors: seq<Vendor>, invoices: seq<Invoice>)
    requires |vendors| >= 2
    requires DistinctInvoiceIds(invoices)
    requires forall i :: 0 <= i < |invoices| ==> invoices[i].invoiceId == InvoiceId(i)
    ensures DistinctInvoiceIds(AnchorInvoices(engagementId, vendors) + invoices)
  {
    var front := AnchorInvoices(engagementId, vendors);
    var all := front + invoices;
    forall i, j | 0 <= i < j < |all|
      ensures all[i].invoiceId != all[j].invoiceId
    {
      if j < 3 {
        assert all[i] == front[i] && all[j] == front[j];
      } else if i < 3 {
        assert all[i].invoiceId[4] == 'A';
        assert all[j] == invoices[j - 3];
        assert all[j].invoiceId[4] == NatToDecimal(7000 + (j - 3))[0];
      } else {
        assert all[i] == invoices[i - 3] && all[j] == invoices[j - 3];
      }
    }
  }

  // ---------------------------------------------------------------------------
  // The structured data of one run
  // ---------------------------------------------------------------------------

  datatype Dataset = Dataset(vendors: seq<Vendor>, invoices: seq<Invoice>, payments: seq<Payment>)

  /**
   * The last step of `main`'s data generation: the anchor exceptions are
   * injected into the generated lists through `RecordList`, and an error is propagated.
   */
  method AddAnchors(engagementId: string, vendors: seq<Vendor>, invoices: seq<Invoice>, payments: seq<Payment>)
    returns (r: Result<Dataset, GenError>)
    requires InvoicesReferenceVendors(vendors, invoices) && PaymentsReferenceInvoices(invoices, payments)
    requires DistinctInvoiceIds(invoices)
    requires forall i :: 0 <= i < |invoices| ==> invoices[i].invoiceId == InvoiceId(i)
    ensures r.Failure? <==> |vendors| < 2
    ensures r.Success? ==>
      && r.value.vendors == vendors
      && r.value.invoices == AnchorInvoices(engagementId, vendors) + invoices
      && r.value.payments == payments + AnchorPayments(engagementId, vendors)
    ensures r.Success? ==> InvoicesReferenceVendors(r.value.vendors, r.value.invoices)
    ensures r.Success? ==> PaymentsReferenceInvoices(r.value.invoices, r.value.payments)
    ensures r.Success? ==> DistinctInvoiceIds(r.value.invoices)
  {
    var invoiceList := new RecordList(invoices);
    var paymentList := new RecordList(payments);
    var err := InjectAnchorExceptions(engagementId, vendors, invoiceList, paymentList);
    if err.Some? {
      return Failure(err.value);
    }
    AnchorsKeepReferences(engagementId, vendors, invoices, payments);
    AnchorIdsAreFresh(engagementId, vendors, invoices);
    return Success(Dataset(vendors, invoiceList.items, paymentList.items));
  }

  /**
   * The data-generation steps of `main`: vendors, invoices, payments, then the
   * anchor exceptions, with every error propagated.
   */
  method GenerateStructuredData(engagementId: string, vendorCount: int, invoiceCount: int, start: Day,
                                vendorDraw: nat -> VendorDraw, invoiceDraw: nat -> InvoiceDraw,
                                paymentDraw: nat -> PaymentDraw, payRate: real)
    returns (r: Result<Dataset, GenError>)
    ensures r.Failure? <==> vendorCount < 2
    ensures r.Success? ==>
      && |r.value.vendors| == vendorCount
      && |r.value.invoices| == RangeLen(invoiceCount) + 3
      && 3 <= |r.value.payments| <= RangeLen(invoiceCount) + 3
      && r.value.invoices[0].invoiceId == "INV-ANCHOR-001"
      && r.value.invoices[1].invoiceId == "INV-ANCHOR-002"
      && r.value.invoices[2].invoiceId == "INV-ANCHOR-NOPO"
    ensures r.Success? ==> InvoicesReferenceVendors(r.value.vendors, r.value.invoices)
    ensures r.Success? ==> PaymentsReferenceInvoices(r.value.invoices, r.value.payments)
    ensures r.Success? ==> DistinctInvoiceIds(r.value.invoices)
  {
    var vendors := GenerateVendors(engagementId, vendorCount, vendorDraw);
    var invoices := GenerateInvoices(engagementId, vendors, invoiceCount, start, invoiceDraw);
    if invoices.Failure? {
      return Failure(invoices.error);
    }
    var payments, paid := GeneratePayments(engagementId, invoices.value, paymentDraw, payRate);
    r := AddAnchors(engagementId, vendors, invoices.value, payments);
  }
}
