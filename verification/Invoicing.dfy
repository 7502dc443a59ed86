/** The invoice life cycle (btpay/invoicing/service.py, btpay/invoicing/models.py). An
    invoice is its row together with its payment rows in id order. */
module Invoicing {
  import opened Money
  import opened Wrappers
  import ExchangeRates
  import Monitor

  datatype Status = Draft | Pending | Partial | Paid | Confirmed | Expired | Cancelled

  /** How a payment came in; `Stable` carries the chain and token. */
  datatype Method = Onchain | BtcPay | Lnbits | Stable(name: string)

  datatype Payment = Payment(
    via: Method, txid: string, address: string, amountBtc: real, amountFiat: real, rate: real,
    confirmations: int, confirmed: bool)

  /** The stored state of one invoice. */
  datatype Ledger = Ledger(
    status: Status, total: real, amountPaid: real, rate: real, btcAmount: real, expiresAt: Option<real>,
    payments: seq<Payment>)

  /** The settings of `InvoiceService`: percent of markup, tolerated underpayment, and how
      long a quote lasts. */
  datatype Settings = Settings(markupPercent: real, gift: real, deadline: real)

  predicate Payable(status: Status) {
    status == Pending || status == Partial || status == Paid
  }

  // ---- Totals ---------------------------------------------------------------

  datatype Line = Line(quantity: real, unitPrice: real)

  /** `calculate_amount`. */
  function LineAmount(line: Line): real {
    Cents(line.quantity * line.unitPrice)
  }

  function Subtotal(lines: seq<Line>): real {
    if lines == [] then 0.0 else Subtotal(lines[..|lines| - 1]) + LineAmount(lines[|lines| - 1])
  }

  function ExactSubtotal(lines: seq<Line>): real {
    if lines == [] then 0.0
    else ExactSubtotal(lines[..|lines| - 1]) + lines[|lines| - 1].quantity * lines[|lines| - 1].unitPrice
  }

  function TaxOf(subtotal: real, taxRate: real): real {
    if taxRate != 0.0 then Cents(subtotal * taxRate / 100.0) else 0.0
  }

  /** The total of `recalculate_totals`. */
  function TotalOf(lines: seq<Line>, taxRate: real, discount: real): real {
    var total := Subtotal(lines) + TaxOf(Subtotal(lines), taxRate) - discount;
    if total < 0.0 then 0.0 else total
  }

  method RecalculateTotals(lines: seq<Line>, taxRate: real, discount: real)
    returns (subtotal: real, tax: real, total: real)
    ensures subtotal == Subtotal(lines) && tax == TaxOf(subtotal, taxRate) && total == TotalOf(lines, taxRate, discount)
  {
    hide LineAmount, TaxOf;
    subtotal := 0.0;
    for i := 0 to |lines|
      invariant subtotal == Subtotal(lines[..i])
    {
      assert lines[..i + 1][..i] == lines[..i];
      subtotal := subtotal + LineAmount(lines[i]);
    }
    assert lines[..|lines|] == lines;
    tax := TaxOf(subtotal, taxRate);
    total := subtotal + tax - discount;
    if total < 0.0 {
      total := 0.0;
    }
  }

  /** Rounding every line costs at most half a cent a line. */
  lemma {:induction false} SubtotalNearExact(lines: seq<Line>)
    ensures Subtotal(lines) - ExactSubtotal(lines) <= 0.005 * |lines| as real
    ensures ExactSubtotal(lines) - Subtotal(lines) <= 0.005 * |lines| as real
  {
    if lines != [] {
      var front := lines[..|lines| - 1];
      SubtotalNearExact(front);
      LineNearExact(lines[|lines| - 1]);
      hide LineAmount;
      assert |lines| as real == |front| as real + 1.0;
    }
  }

  lemma LineNearExact(line: Line)
    ensures line.quantity * line.unitPrice - 0.005 <= LineAmount(line) <= line.quantity * line.unitPrice + 0.005
  {
  }

  /** The tax is so many hundredths of the subtotal, to half a cent. */
  lemma TaxNear(subtotal: real, taxRate: real)
    ensures subtotal * taxRate - 0.5 <= 100.0 * TaxOf(subtotal, taxRate) <= subtotal * taxRate + 0.5
  {
    hide Cents;
  }

  /** For a tax of at least nothing the total is the exact sum with tax, less the discount and
      at least nothing, up to half a cent for the tax and the taxed half cents of the lines. */
  lemma TotalNearExact(lines: seq<Line>, taxRate: real, discount: real)
    requires taxRate >= 0.0
    ensures var exact := ExactSubtotal(lines) * (1.0 + taxRate / 100.0) - discount;
      var error := 0.005 * |lines| as real * (1.0 + taxRate / 100.0) + 0.005;
      && TotalOf(lines, taxRate, discount) >= 0.0
      && TotalOf(lines, taxRate, discount) <= (if exact < 0.0 then 0.0 else exact) + error
      && (if exact < 0.0 then 0.0 else exact) - error <= TotalOf(lines, taxRate, discount)
  {
    hide LineAmount, Subtotal, ExactSubtotal, TaxOf;
    SubtotalNearExact(lines);
    TaxNear(Subtotal(lines), taxRate);
    Combined(Subtotal(lines), ExactSubtotal(lines), 0.005 * |lines| as real, TaxOf(Subtotal(lines), taxRate),
      taxRate / 100.0);
  }

  lemma Combined(a: real, b: real, e: real, tax: real, rate: real)
    requires b - e <= a <= b + e && rate >= 0.0 && a * (100.0 * rate) - 0.5 <= 100.0 * tax <= a * (100.0 * rate) + 0.5
    ensures b * (1.0 + rate) - (e * (1.0 + rate) + 0.005) <= a + tax <= b * (1.0 + rate) + (e * (1.0 + rate) + 0.005)
  {
    Taxed(a, b, e, rate);
    assert a * (100.0 * rate) == 100.0 * (a * rate);
  }

  lemma Taxed(a: real, b: real, e: real, rate: real)
    requires b - e <= a <= b + e && rate >= 0.0
    ensures (b - e) * rate <= a * rate <= (b + e) * rate
  {
  }

  // ---- Transitions on the stored state --------------------------------------

  /** Paid in full, or short by no more than the gift. */
  predicate Covered(total: real, paid: real, gift: real) {
    paid >= total || (paid > 0.0 && total - paid <= gift)
  }

  /** `_credit_invoice`. */
  function Credited(l: Ledger, gift: real, amount: real): Ledger {
    var paid := l.amountPaid + amount;
    l.(amountPaid := paid,
       status := if Covered(l.total, paid, gift) then Paid else if paid > 0.0 then Partial else l.status)
  }

  function Recorded(l: Ledger, gift: real, p: Payment): Ledger {
    Credited(l.(payments := l.payments + [p]), gift, p.amountFiat)
  }

  function SatPayment(l: Ledger, amountSat: int, txid: string, address: string, confirmations: int,
        via: Method): Payment {
    Payment(via, txid, address, Satoshi2Coins(amountSat), CreditedFor(amountSat, l.rate), l.rate, confirmations,
        confirmations != 0)
  }

  function FiatPayment(l: Ledger, amountFiat: real, txid: string, address: string, confirmations: int,
        via: Method): Payment {
    Payment(via, txid, address, 0.0, Cents(amountFiat), l.rate, confirmations, confirmations != 0)
  }

  /** `confirm_payment` of the payment at a position. */
  function ConfirmedAt(l: Ledger, k: nat, confirmations: int): Ledger
    requires k < |l.payments|
  {
    l.(payments := l.payments[k := l.payments[k].(confirmed := true, confirmations := confirmations)],
       status := if l.status == Paid then Confirmed else l.status)
  }

  /** Whether `check_expiry` expires the invoice. */
  predicate Expires(l: Ledger, now: real) {
    (l.status == Pending || l.status == Partial) && l.expiresAt.Some? && now >= l.expiresAt.value && l.amountPaid <= 0.0
  }

  function AfterExpiryCheck(l: Ledger, now: real): Ledger {
    if Expires(l, now) then l.(status := Expired) else l
  }

  /** `_lock_btc_rate`, given what the rate service answers. */
  function Locked(l: Ledger, s: Settings, rate: Option<real>, now: real): Result<Ledger> {
    if rate.None? || QuotedRate(rate.value, s.markupPercent) == 0.0 then Error
    else
      var quoted := QuotedRate(rate.value, s.markupPercent);
      Ok(l.(rate := quoted, btcAmount := QuotedAmount(l.total, quoted), expiresAt := Some(now + s.deadline)))
  }

  function Refreshed(l: Ledger, s: Settings, rate: Option<real>, now: real): Result<Ledger> {
    if l.status != Pending && l.status != Expired then Error
    else
      match Locked(l, s, rate, now)
      case Error => Error
      case Ok(locked) => Ok(locked.(status := Pending))
  }

  /** What `finalize_invoice` makes of an invoice if it does not raise; without the on-chain
      method no rate is locked. */
  function Finalized(l: Ledger, s: Settings, onchain: bool, rate: Option<real>, now: real): Result<Ledger> {
    if l.status != Draft || l.total <= 0.0 then Error
    else if !onchain then Ok(l.(status := Pending))
    else
      match Locked(l, s, rate, now)
      case Error => Error
      case Ok(locked) => Ok(locked.(status := Pending))
  }

  function CancelledFrom(l: Ledger): Result<Ledger> {
    if l.status != Draft && l.status != Pending then Error else Ok(l.(status := Cancelled))
  }

  function AmountDue(l: Ledger): real {
    if l.total - l.amountPaid > 0.0 then l.total - l.amountPaid else 0.0
  }

  // ---- The service ----------------------------------------------------------

  class Invoice {
    const id: int
    var paymentAddress: Monitor.BitcoinAddress?
    var status: Status
    var total: real
    var amountPaid: real
    var btcRate: real
    var btcAmount: real
    var btcRateExpiresAt: Option<real>
    var payments: seq<Payment>

    function Row(): Ledger
      reads this
    {
      Ledger(status, total, amountPaid, btcRate, btcAmount, btcRateExpiresAt, payments)
    }

    constructor (id: int, total: real)
      ensures Row() == Ledger(Draft, total, 0.0, 0.0, 0.0, None, []) && this.id == id && paymentAddress == null
    {
      this.id, paymentAddress := id, null;
      status, this.total, amountPaid := Draft, total, 0.0;
      btcRate, btcAmount, btcRateExpiresAt, payments := 0.0, 0.0, None, [];
    }
  }

  class InvoiceService {
    const settings: Settings

    constructor (settings: Settings)
      ensures this.settings == settings
    {
      this.settings := settings;
    }

    method CreditInvoice(invoice: Invoice, amountFiat: real)
      modifies invoice`status, invoice`amountPaid
      ensures invoice.Row() == Credited(old(invoice.Row()), settings.gift, amountFiat)
    {
      invoice.amountPaid := invoice.amountPaid + amountFiat;
      if invoice.amountPaid >= invoice.total {
        invoice.status := Paid;
      } else if invoice.amountPaid > 0.0 {
        var remaining := invoice.total - invoice.amountPaid;
        if remaining <= settings.gift {
          invoice.status := Paid;
        } else {
          invoice.status := Partial;
        }
      }
    }

    /** Returns the position of the new payment. */
    method RecordPayment(invoice: Invoice, amountSat: int, txid: string, address: string, confirmations: int,
          via: Method)
      returns (k: nat)
      modifies invoice`payments, invoice`status, invoice`amountPaid
      ensures var before := old(invoice.Row());
        && invoice.Row() == Recorded(before, settings.gift,
            SatPayment(before, amountSat, txid, address, confirmations, via))
        && k == |before.payments|
    {
      hide Cents, Worth, Satoshi2Coins;
      var amountBtc := Satoshi2Coins(amountSat);
      var amountFiat := if invoice.btcRate != 0.0 then Cents(Worth(amountBtc, invoice.btcRate)) else 0.0;
      k := |invoice.payments|;
      invoice.payments := invoice.payments
        + [Payment(via, txid, address, amountBtc, amountFiat, invoice.btcRate, confirmations, confirmations != 0)];
      CreditInvoice(invoice, amountFiat);
    }

    method RecordFiatPayment(invoice: Invoice, amount: real, txid: string, address: string, confirmations: int,
          via: Method)
      returns (k: nat)
      modifies invoice`payments, invoice`status, invoice`amountPaid
      ensures var before := old(invoice.Row());
        && invoice.Row() == Recorded(before, settings.gift,
            FiatPayment(before, amount, txid, address, confirmations, via))
        && k == |before.payments|
    {
      hide Cents;
      var amountFiat := Cents(amount);
      k := |invoice.payments|;
      invoice.payments := invoice.payments
        + [Payment(via, txid, address, 0.0, amountFiat, invoice.btcRate, confirmations, confirmations != 0)];
      CreditInvoice(invoice, amountFiat);
    }

    method ConfirmPayment(invoice: Invoice, k: nat, confirmations: int)
      requires k < |invoice.payments|
      modifies invoice`payments, invoice`status
      ensures invoice.Row() == ConfirmedAt(old(invoice.Row()), k, confirmations)
    {
      invoice.payments := invoice.payments[k := invoice.payments[k].(confirmed := true,
          confirmations := confirmations)];
      if invoice.status == Paid {
        invoice.status := Confirmed;
      }
    }

    method CheckExpiry(invoice: Invoice, now: real) returns (expired: bool)
      modifies invoice`status
      ensures expired == Expires(old(invoice.Row()), now) && invoice.Row() == AfterExpiryCheck(old(invoice.Row()), now)
    {
      if invoice.status != Pending && invoice.status != Partial {
        return false;
      }
      if invoice.btcRateExpiresAt.None? {
        return false;
      }
      if now < invoice.btcRateExpiresAt.value {
        return false;
      }
      if invoice.amountPaid > 0.0 {
        return false;
      }
      invoice.status := Expired;
      return true;
    }

    method LockBtcRate(invoice: Invoice, rate: Option<real>, now: real) returns (ok: bool)
      modifies invoice`btcRate, invoice`btcAmount, invoice`btcRateExpiresAt
      ensures var r := Locked(old(invoice.Row()), settings, rate, now);
        ok == r.Ok? && invoice.Row() == if ok then r.value else old(invoice.Row())
    {
      hide QuotedAmount, QuotedRate;
      if rate.None? {
        return false;
      }
      var quoted := QuotedRate(rate.value, settings.markupPercent);
      if quoted == 0.0 {
        return false;
      }
      invoice.btcRate := quoted;
      invoice.btcAmount := QuotedAmount(invoice.total, quoted);
      invoice.btcRateExpiresAt := Some(now + settings.deadline);
      return true;
    }

    method RefreshBtcQuote(invoice: Invoice, rate: Option<real>, now: real) returns (ok: bool)
      modifies invoice`btcRate, invoice`btcAmount, invoice`btcRateExpiresAt, invoice`status
      ensures var r := Refreshed(old(invoice.Row()), settings, rate, now);
        ok == r.Ok? && invoice.Row() == if ok then r.value else old(invoice.Row())
    {
      hide Locked;
      if invoice.status != Pending && invoice.status != Expired {
        return false;
      }
      LockKeepsStatus(invoice.Row(), settings, rate, now);
      ok := LockBtcRate(invoice, rate, now);
      if ok && invoice.status == Expired {
        invoice.status := Pending;
      }
    }

    /** The next address is what the wallet gives, or null if it has none or there is no wallet;
        `connected` is whether the connectors' invoices, if any, are created. Where this
        raises after assigning the address, the address stays assigned. */
    method FinalizeInvoice(invoice: Invoice, onchain: bool, next: Monitor.BitcoinAddress?, connected: bool,
          rate: Option<real>, now: real)
      returns (ok: bool)
      modifies invoice, next
      ensures var before := old(invoice.Row());
        var r := Finalized(before, settings, onchain, rate, now);
        && ok == (r.Ok? && connected && (onchain ==> next != null))
        && invoice.Row() == if ok then r.value
          else if r.Ok? && onchain && next != null then r.value.(status := Draft)
          else before
      ensures var assigns := onchain && next != null && old(invoice.status) == Draft && old(invoice.total) > 0.0;
        && invoice.paymentAddress == (if assigns then next else old(invoice.paymentAddress))
        && (next != null ==>
              && next.State() == (if assigns then old(next.State()).(status := Monitor.Assigned) else old(next.State()))
              && next.assignedToInvoiceId == if assigns then invoice.id else old(next.assignedToInvoiceId))
    {
      hide Locked;
      if invoice.status != Draft || invoice.total <= 0.0 {
        return false;
      }
      if onchain {
        if next == null {
          return false;
        }
        next.MarkAssigned(invoice.id);
        invoice.paymentAddress := next;
        LockKeepsStatus(invoice.Row(), settings, rate, now);
        ok := LockBtcRate(invoice, rate, now);
        if !ok {
          return;
        }
      }
      if !connected {
        return false;
      }
      invoice.status := Pending;
      return true;
    }

    /** An assigned address that has seen no funds is released, never to be used again. */
    method CancelInvoice(invoice: Invoice) returns (ok: bool)
      modifies invoice`status, invoice.paymentAddress
      ensures var r := CancelledFrom(old(invoice.Row()));
        ok == r.Ok? && invoice.Row() == if ok then r.value else old(invoice.Row())
      ensures var address := invoice.paymentAddress;
        address != null ==>
          var releases := ok && old(address.status) == Monitor.Assigned;
          && address.State()
               == (if releases then old(address.State()).(status := Monitor.Released) else old(address.State()))
          && address.assignedToInvoiceId == if releases then 0 else old(address.assignedToInvoiceId)
    {
      if invoice.status != Draft && invoice.status != Pending {
        return false;
      }
      var address := invoice.paymentAddress;
      if address != null && address.status == Monitor.Assigned {
        address.status, address.assignedToInvoiceId := Monitor.Released, 0;
      }
      invoice.status := Cancelled;
      return true;
    }
  }

  lemma LockKeepsStatus(l: Ledger, s: Settings, rate: Option<real>, now: real)
    ensures Locked(l, s, rate, now).Ok? ==> Locked(l, s, rate, now).value.status == l.status
  {
    hide QuotedRate, QuotedAmount;
  }

  /** A quote lasts: an unpaid invoice expires at a check from `deadline` after the quote was
      locked on, and at no earlier one; a paid one, even in part, never does. */
  lemma QuoteLasts(l: Ledger, s: Settings, rate: Option<real>, now: real, check: real)
    requires l.status in {Pending, Partial} && Locked(l, s, rate, now).Ok?
    ensures AfterExpiryCheck(Locked(l, s, rate, now).value, check).status == Expired
      <==> check - now >= s.deadline && l.amountPaid <= 0.0
  {
    hide QuotedRate, QuotedAmount;
  }

  /** A rate locked from a market rate is it with the markup, the amount is the total at that
      rate, and nothing else changes. */
  lemma LockedExactly(l: Ledger, s: Settings, rate: real, now: real)
    requires rate > 0.0 && s.markupPercent > -100.0
    ensures var r := Locked(l, s, Some(rate), now);
      && r.Ok? && 100.0 * (r.value.rate - rate) == rate * s.markupPercent
      && l.total - r.value.rate * 0.000000005 <= r.value.btcAmount * r.value.rate
           <= l.total + r.value.rate * 0.000000005
      && r.value == l.(rate := r.value.rate, btcAmount := r.value.btcAmount, expiresAt := Some(now + s.deadline))
  {
    MarkedUp(rate, s.markupPercent);
    Scaling(rate, 1.0 + s.markupPercent / 100.0);
    assert QuotedRate(rate, s.markupPercent) > 0.0;
    hide QuotedRate, QuotedAmount;
    QuotePrice(l.total, QuotedRate(rate, s.markupPercent), 0);
  }

  // ---- The ledger invariant -------------------------------------------------

  function SumFiat(payments: seq<Payment>): real {
    if payments == [] then 0.0 else SumFiat(payments[..|payments| - 1]) + payments[|payments| - 1].amountFiat
  }

  ghost predicate NothingCredited(l: Ledger) {
    l.amountPaid == 0.0
  }

  ghost predicate SomeConfirmed(payments: seq<Payment>) {
    exists k :: 0 <= k < |payments| && payments[k].confirmed
  }

  /** What holds of every invoice: the amount paid is the sum of its payments; while it is
      draft, pending, expired or cancelled nothing is credited; partial means short by more
      than the gift, paid or confirmed that it is not; confirmed takes a confirmed payment. */
  ghost predicate Balanced(l: Ledger, gift: real) {
    && l.amountPaid == SumFiat(l.payments)
    && (forall k :: 0 <= k < |l.payments| ==> l.payments[k].amountFiat >= 0.0)
    && (l.status in {Draft, Pending, Expired, Cancelled} ==> NothingCredited(l))
    && (l.status == Partial ==> l.amountPaid > 0.0 && l.amountPaid < l.total && l.total - l.amountPaid > gift)
    && (l.status in {Paid, Confirmed} ==>
          l.amountPaid > 0.0 && (l.amountPaid >= l.total || l.total - l.amountPaid <= gift))
    && (l.status == Confirmed ==> SomeConfirmed(l.payments))
    && (l.status !in {Draft, Cancelled} ==> l.total > 0.0)
    && l.rate >= 0.0
  }

  /** The moves between statuses that a life cycle may make. */
  predicate MayBecome(before: Status, after: Status) {
    match before
    case Draft => after in {Draft, Pending, Cancelled}
    case Pending => after in {Pending, Partial, Paid, Confirmed, Expired, Cancelled}
    case Partial => after in {Partial, Paid, Confirmed}
    case Paid => after in {Paid, Confirmed}
    case Confirmed => after == Confirmed
    case Expired => after in {Expired, Pending}
    case Cancelled => after == Cancelled
  }

  lemma SumAppend(payments: seq<Payment>, p: Payment)
    ensures SumFiat(payments + [p]) == SumFiat(payments) + p.amountFiat
  {
    assert (payments + [p])[..|payments|] == payments;
  }

  lemma {:induction false} SumUpdate(payments: seq<Payment>, k: nat, p: Payment)
    requires k < |payments| && p.amountFiat == payments[k].amountFiat
    ensures SumFiat(payments[k := p]) == SumFiat(payments)
  {
    var n := |payments| - 1;
    if k < n {
      SumUpdate(payments[..n], k, p);
      assert payments[k := p][..n] == payments[..n][k := p];
    } else {
      assert payments[k := p][..n] == payments[..n];
    }
  }

  /** Recording a payment on a payable invoice keeps the ledger balanced. */
  lemma RecordedBalanced(l: Ledger, gift: real, p: Payment)
    requires Balanced(l, gift) && Payable(l.status) && p.amountFiat >= 0.0
    ensures Balanced(Recorded(l, gift, p), gift) && MayBecome(l.status, Recorded(l, gift, p).status)
  {
    SumAppend(l.payments, p);
    assert l.status == Partial ==> l.amountPaid + p.amountFiat > 0.0;
  }

  lemma ConfirmedBalanced(l: Ledger, gift: real, k: nat, confirmations: int)
    requires Balanced(l, gift) && k < |l.payments|
    ensures Balanced(ConfirmedAt(l, k, confirmations), gift)
    ensures MayBecome(l.status, ConfirmedAt(l, k, confirmations).status)
  {
    var p := l.payments[k].(confirmed := true, confirmations := confirmations);
    SumUpdate(l.payments, k, p);
    assert ConfirmedAt(l, k, confirmations).payments[k].confirmed;
    assert forall j :: 0 <= j < |l.payments| ==> l.payments[k := p][j].amountFiat == l.payments[j].amountFiat;
  }

  lemma ExpiryBalanced(l: Ledger, gift: real, now: real)
    requires Balanced(l, gift)
    ensures Balanced(AfterExpiryCheck(l, now), gift) && MayBecome(l.status, AfterExpiryCheck(l, now).status)
  {
  }

  /** A markup, or a discount, keeps rates from being negative exactly if it takes off no more
      than all of them. */
  lemma MarkupExactly(rate: real, markup: real)
    requires rate > 0.0
    ensures QuotedRate(rate, markup) >= 0.0 <==> markup >= -100.0
  {
    Scaling(rate, 1.0 + markup / 100.0);
  }

  lemma Scaling(rate: real, factor: real)
    requires rate > 0.0
    ensures rate * factor >= 0.0 <==> factor >= 0.0
    ensures rate * factor == 0.0 <==> factor == 0.0
  {
  }

  /** Locking a quote keeps the ledger balanced exactly if the markup does not make the rate
      negative. */
  lemma LockedBalanced(l: Ledger, gift: real, s: Settings, rate: Option<real>, now: real)
    requires Balanced(l, gift) && (rate.Some? ==> rate.value > 0.0)
    ensures var r := Locked(l, s, rate, now);
      r.Ok? ==> (Balanced(r.value, gift) <==> s.markupPercent >= -100.0) && r.value.status == l.status
  {
    if rate.Some? {
      MarkupExactly(rate.value, s.markupPercent);
    }
    hide QuotedRate, QuotedAmount, SumFiat;
  }

  lemma RefreshBalanced(l: Ledger, gift: real, s: Settings, rate: Option<real>, now: real)
    requires Balanced(l, gift) && (rate.Some? ==> rate.value > 0.0)
    ensures var r := Refreshed(l, s, rate, now);
      r.Ok? ==> (Balanced(r.value, gift) <==> s.markupPercent >= -100.0) && MayBecome(l.status, r.value.status)
  {
    LockedBalanced(l, gift, s, rate, now);
    hide QuotedRate, QuotedAmount, SumFiat;
  }

  lemma FinalizedBalanced(l: Ledger, gift: real, s: Settings, onchain: bool, rate: Option<real>, now: real)
    requires Balanced(l, gift) && (rate.Some? ==> rate.value > 0.0)
    ensures var r := Finalized(l, s, onchain, rate, now);
      r.Ok? ==>
        (Balanced(r.value, gift) <==> !onchain || s.markupPercent >= -100.0) && r.value.status == Pending
  {
    LockedBalanced(l, gift, s, rate, now);
    hide QuotedRate, QuotedAmount, SumFiat;
  }

  lemma CancelBalanced(l: Ledger, gift: real)
    requires Balanced(l, gift)
    ensures CancelledFrom(l).Ok? ==> Balanced(CancelledFrom(l).value, gift) && MayBecome(l.status, Cancelled)
  {
  }

  /** The service itself does not guard. Whatever the status, recording a payment that credits
      nothing or more keeps the ledger balanced exactly if there is something to pay, and
      makes a move of the life cycle exactly if the invoice is payable, or is not confirmed
      and nothing is credited of a positive total. Only the callers' checks of the status
      prevent the other moves. */
  lemma RecordedExactly(l: Ledger, gift: real, p: Payment)
    requires Balanced(l, gift) && p.amountFiat >= 0.0
    ensures Balanced(Recorded(l, gift, p), gift) <==> l.total > 0.0
    ensures MayBecome(l.status, Recorded(l, gift, p).status) <==>
      Payable(l.status) || (l.status != Confirmed && p.amountFiat == 0.0 && l.total > 0.0)
  {
    SumAppend(l.payments, p);
    hide SumFiat;
  }

  /** So recording on a confirmed invoice takes it back to paid. */
  lemma CreditUndoesConfirmed(l: Ledger, gift: real, p: Payment)
    requires Balanced(l, gift) && l.status == Confirmed && p.amountFiat >= 0.0
    ensures Recorded(l, gift, p).status == Paid && !MayBecome(l.status, Recorded(l, gift, p).status)
  {
    hide SumFiat;
  }

  // ---- Quotes are enough ----------------------------------------------------

  /** The ledger after the quoted amount arrived in one on-chain payment. */
  function PaidAsQuoted(l: Ledger, gift: real, txid: string, address: string): Ledger {
    Recorded(l, gift, SatPayment(l, Coins2Satoshi(l.btcAmount), txid, address, 0, Onchain))
  }

  /** A pending invoice whose quote is paid exactly, at a rate whose rounding error is within
      the gift, becomes paid if the quoted coins are worth more than half a cent and otherwise
      stays pending. For a total of at least a cent, it becomes paid exactly if the total is
      worth more than half a satoshi. */
  lemma QuoteSuffices(l: Ledger, gift: real, txid: string, address: string)
    requires Balanced(l, gift) && l.status == Pending && l.rate > 0.0 && l.btcAmount == QuotedAmount(l.total, l.rate)
    requires QuoteError(l.rate) <= gift
    ensures PaidAsQuoted(l, gift, txid, address).status ==
      if Worth(l.btcAmount, l.rate) > 0.005 then Paid else Pending
    ensures l.total >= 0.01 ==>
      PaidAsQuoted(l, gift, txid, address).status == if l.total > l.rate * 0.000000005 then Paid else Pending
  {
    QuoteSound(l.total, l.rate);
    QuoteCredits(l.total, l.rate);
    hide CreditedFor, QuotedAmount, Coins2Satoshi, QuoteError, SumFiat, Satoshi2Coins, Worth;
    var credit := CreditedFor(Coins2Satoshi(l.btcAmount), l.rate);
    assert PaidAsQuoted(l, gift, txid, address).amountPaid == credit;
  }

  /** The rounding error of a quote is within the default gift of 5 for every rate up to the
      500 million that the exchange service accepts. */
  lemma ErrorWithinGift(rate: real)
    requires 0.0 < rate <= 500_000_000.0
    ensures QuoteError(rate) <= 2.505 && QuoteError(rate) <= 5.0
  {
  }

  /** With no markup and the default gift, at every rate the exchange service admits: locking
      the quote and then paying exactly that amount once leaves an invoice of at least a
      cent paid exactly if its total is worth more than half a satoshi, and pending
      otherwise. Half a satoshi is worth at most 2.50. */
  lemma AdmittedQuoteSuffices(l: Ledger, currency: string, rate: real, deadline: real, now: real, txid: string,
        address: string)
    requires Balanced(l, 5.0) && l.status == Pending && ExchangeRates.Admissible(rate, currency)
    ensures var locked := Locked(l, Settings(0.0, 5.0, deadline), Some(rate), now);
      && locked.Ok?
      && var paid := PaidAsQuoted(locked.value, 5.0, txid, address);
         && paid.status == (if Worth(locked.value.btcAmount, rate) > 0.005 then Paid else Pending)
         && (l.total >= 0.01 ==> paid.status == if l.total > rate * 0.000000005 then Paid else Pending)
    ensures rate * 0.000000005 <= 2.5
  {
    ErrorWithinGift(rate);
    var locked := Locked(l, Settings(0.0, 5.0, deadline), Some(rate), now);
    assert QuotedRate(rate, 0.0) == rate;
    hide QuotedAmount, QuoteError, PaidAsQuoted, Coins2Satoshi, SumFiat, Worth;
    QuoteSuffices(locked.value, 5.0, txid, address);
  }

  /** A small total can be quoted as nothing: 2 units of a currency at 500 million for a
      bitcoin round to no satoshi, and paying that leaves the invoice pending. */
  lemma TinyQuoteStaysPending()
    ensures var l := Ledger(Pending, 2.0, 0.0, 500_000_000.0, QuotedAmount(2.0, 500_000_000.0), None, []);
      l.btcAmount == 0.0 && PaidAsQuoted(l, 5.0, "", "").status == Pending
  {
    assert 2.0 / 500_000_000.0 * COIN == 0.4;
    assert 0.4.Floor == 0;
    assert RoundHalfEven(0.4) == 0;
    assert Truncate(0.0) == 0;
    assert RoundHalfEven(0.0) == 0;
  }
}
