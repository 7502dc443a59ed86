/** Whole runs of one finalized invoice with its assigned address: polls of the address,
    callbacks of the other monitors, expiry checks, quote refreshes and cancellation. */
module PaymentRuns {
  import opened Invoicing
  import opened PaymentAutomation
  import opened Wrappers
  import M = Monitor

  /** The invoice, its address, and whether the address is still assigned to it. */
  datatype System = System(ledger: Ledger, address: M.Address, isAssigned: bool)

  datatype Event =
    | Poll(poll: M.Poll)
    | Report(callback: Callback)
    | ExpiryCheck(now: real)
    | Refresh(rate: Option<real>, now: real)
    | Cancel

  /** The settings of the service and of the monitor, and the text of the address. */
  datatype Config = Config(settings: Settings, thresholds: seq<M.Threshold>, address: string)

  /** The callback that `_start_onchain_monitor` registers for what the monitor fires. */
  function CallbackFor(c: Config, isAssigned: bool, fired: M.Fired): Callback {
    match fired
    case FiredSeen(amountSat, txid) => OnchainSeen(isAssigned, c.address, amountSat, txid)
    case FiredConfirmed(amountSat, confirmations) => OnchainConfirmed(isAssigned, c.address, amountSat, confirmations)
  }

  function AfterFired(c: Config, l: Ledger, isAssigned: bool, fired: seq<M.Fired>): Ledger
    decreases |fired|
  {
    if fired == [] then l
    else AfterFired(c, AfterCallback(l, c.settings.gift, CallbackFor(c, isAssigned, fired[0])), isAssigned, fired[1..])
  }

  /** `cancel_invoice`: an address without funds is released and forgets the invoice. */
  function AfterCancel(s: System): System {
    match CancelledFrom(s.ledger)
    case Error => s
    case Ok(l) =>
      if s.address.status == M.Assigned then System(l, s.address.(status := M.Released), false)
      else s.(ledger := l)
  }

  /** Reports come from the connectors, and rates are positive. */
  predicate Sensible(e: Event) {
    match e
    case Report(callback) => WellFormed(callback) && !callback.OnchainSeen? && !callback.OnchainConfirmed?
    case Refresh(rate, _) => rate.Some? ==> rate.value > 0.0
    case _ => true
  }

  function Step(c: Config, s: System, e: Event): System
    requires Sensible(e)
  {
    match e
    case Poll(poll) =>
      var (address, fired) := M.Polled(c.thresholds, poll.backend, s.address, poll.observation);
      System(AfterFired(c, s.ledger, s.isAssigned, fired), address, s.isAssigned)
    case Report(callback) => s.(ledger := AfterCallback(s.ledger, c.settings.gift, callback))
    case ExpiryCheck(now) => s.(ledger := AfterExpiryCheck(s.ledger, now))
    case Refresh(rate, now) =>
      (match Refreshed(s.ledger, c.settings, rate, now) case Error => s case Ok(l) => s.(ledger := l))
    case Cancel => AfterCancel(s)
  }

  ghost predicate AllSensible(events: seq<Event>) {
    forall i :: 0 <= i < |events| ==> Sensible(events[i])
  }

  function Run(c: Config, s: System, events: seq<Event>): System
    requires AllSensible(events)
    decreases |events|
  {
    if events == [] then s else Run(c, Step(c, s, events[0]), events[1..])
  }

  ghost predicate AtMostOnePerMethod(payments: seq<Payment>) {
    forall via :: Count(payments, via) <= 1
  }

  /** What every run keeps: the ledger is balanced, each method has at most one payment, and
      before the address is seen there is no on-chain payment. */
  ghost predicate Inv(c: Config, s: System) {
    && Balanced(s.ledger, c.settings.gift)
    && AtMostOnePerMethod(s.ledger.payments)
    && (M.Stage(s.address.status) == 0 ==> Count(s.ledger.payments, Onchain) == 0)
  }

  /** How the ledger may change over any stretch of a run: nothing credited is taken back,
      a partial invoice stays credited, a paid one stays paid or becomes confirmed,
      confirmed and cancelled are final, and a draft is at most cancelled. */
  ghost predicate Onward(before: Ledger, after: Ledger) {
    && after.amountPaid >= before.amountPaid && after.total == before.total
    && (before.status == Partial ==> after.status in {Partial, Paid, Invoicing.Confirmed})
    && (before.status == Paid ==> after.status in {Paid, Invoicing.Confirmed})
    && (before.status == Invoicing.Confirmed ==> after.status == Invoicing.Confirmed)
    && (before.status == Cancelled ==> after.status == Cancelled)
    && (before.status == Draft ==> after.status in {Draft, Cancelled})
  }

  lemma OnwardComposes(a: Ledger, b: Ledger, c: Ledger)
    requires Onward(a, b) && Onward(b, c)
    ensures Onward(a, c)
  {
  }

  lemma CreditsOnward(l: Ledger, gift: real, p: Payment)
    requires Balanced(l, gift) && Payable(l.status) && p.amountFiat >= 0.0
    ensures Onward(l, Recorded(l, gift, p))
  {
    RecordedBalanced(l, gift, p);
    hide SumFiat;
  }

  lemma EnsuredOnward(l: Ledger, k: nat, confirmations: int)
    requires k < |l.payments|
    ensures Onward(l, EnsureConfirmed(l, k, confirmations))
  {
  }

  lemma RecordAndConfirmOnward(l: Ledger, gift: real, found: Option<nat>, p: Payment, confirmations: int)
    requires Balanced(l, gift) && Payable(l.status) && p.amountFiat >= 0.0
        && (found.Some? ==> found.value < |l.payments|)
    ensures Onward(l, RecordAndConfirm(l, gift, found, p, confirmations))
  {
    hide Balanced, Recorded, EnsureConfirmed, Onward;
    if found.Some? {
      EnsuredOnward(l, found.value, confirmations);
    } else {
      CreditsOnward(l, gift, p);
      RecordedKeeps(l, gift, p);
      EnsuredOnward(Recorded(l, gift, p), |l.payments|, confirmations);
      OnwardComposes(l, Recorded(l, gift, p), EnsureConfirmed(Recorded(l, gift, p), |l.payments|, confirmations));
    }
  }

  lemma CallbackOnward(l: Ledger, gift: real, cb: Callback)
    requires Balanced(l, gift) && WellFormed(cb)
    ensures Onward(l, AfterCallback(l, gift, cb))
  {
    OnwardSame(l);
    hide Balanced, Found, RecordAndConfirm, Recorded, SatPayment, FiatPayment, PrefixedId, StableTxid, Onward;
    if Payable(l.status) {
      match cb
      case OnchainSeen(isAssigned, address, amountSat, txid) =>
        PaymentsNonNegative(l, gift, amountSat, txid, address, 0.0, Onchain);
        CreditsOnward(l, gift, SatPayment(l, amountSat, txid, address, 0, Onchain));
      case OnchainConfirmed(isAssigned, address, amountSat, confirmations) =>
        FoundExactly(l.payments, Onchain, "", address);
        PaymentsNonNegative(l, gift, amountSat, "", address, 0.0, Onchain);
        RecordAndConfirmOnward(l, gift, Found(l.payments, Onchain, "", address),
            SatPayment(l, amountSat, "", address, 0, Onchain), confirmations);
      case BtcPayReport(btcpayId, report) =>
        var txid := PrefixedId("btcpay:", btcpayId);
        FoundExactly(l.payments, BtcPay, txid, "");
        PaymentsNonNegative(l, gift, 0, txid, "", AmountDue(l), BtcPay);
        CreditsOnward(l, gift, FiatPayment(l, AmountDue(l), txid, "", 0, BtcPay));
        RecordAndConfirmOnward(l, gift, Found(l.payments, BtcPay, txid, ""),
            FiatPayment(l, AmountDue(l), txid, "", 0, BtcPay), 1);
      case LnbitsPaid(paymentHash) =>
        var txid := PrefixedId("lnbits:", paymentHash);
        FoundExactly(l.payments, Lnbits, txid, "");
        PaymentsNonNegative(l, gift, 0, txid, "", AmountDue(l), Lnbits);
        RecordAndConfirmOnward(l, gift, Found(l.payments, Lnbits, txid, ""),
            FiatPayment(l, AmountDue(l), txid, "", 0, Lnbits), 1);
      case StablePaid(name, received, unit, address) =>
        var txid := StableTxid(name, received);
        PaymentsNonNegative(l, gift, 0, txid, address, received as real / unit, Stable(name));
        RecordAndConfirmOnward(l, gift, None,
          FiatPayment(l, received as real / unit, txid, address, 0, Stable(name)), 1);
    }
  }

  lemma OnwardSame(l: Ledger)
    ensures Onward(l, l)
  {
  }

  /** A callback other than a first sighting leaves at most one payment per method. */
  lemma CallbackKeepsOne(l: Ledger, gift: real, cb: Callback)
    requires Balanced(l, gift) && WellFormed(cb) && AtMostOnePerMethod(l.payments)
    requires cb.OnchainSeen? ==> Count(l.payments, Onchain) == 0
    ensures var after := AfterCallback(l, gift, cb);
      Balanced(after, gift) && AtMostOnePerMethod(after.payments)
      && (MethodOf(cb) != Onchain ==> Count(after.payments, Onchain) == Count(l.payments, Onchain))
  {
    CallbackKeeps(l, gift, cb);
    CountZero(l.payments, MethodOf(cb));
    hide Balanced, Count, AfterCallback, HasPayment;
    var after := AfterCallback(l, gift, cb);
    forall via ensures Count(after.payments, via) <= 1 {
      assert Count(l.payments, via) <= 1;
    }
  }

  lemma PollKeeps(c: Config, s: System, poll: M.Poll)
    requires Inv(c, s)
    ensures Inv(c, Step(c, s, Poll(poll))) && Onward(s.ledger, Step(c, s, Poll(poll)).ledger)
  {
    M.PollFires(c.thresholds, s.address, poll);
    var (address, fired) := M.Polled(c.thresholds, poll.backend, s.address, poll.observation);
    hide M.Polled, AfterCallback, Balanced, Count, AtMostOnePerMethod, Onward;
    OnwardSame(s.ledger);
    if fired != [] {
      var first := CallbackFor(c, s.isAssigned, fired[0]);
      CallbackKeepsOne(s.ledger, c.settings.gift, first);
      CallbackOnward(s.ledger, c.settings.gift, first);
      var l1 := AfterCallback(s.ledger, c.settings.gift, first);
      assert AfterFired(c, s.ledger, s.isAssigned, fired) == AfterFired(c, l1, s.isAssigned, fired[1..]);
      if |fired| == 1 {
        assert fired[1..] == [];
      } else {
        var second := CallbackFor(c, s.isAssigned, fired[1]);
        CallbackKeepsOne(l1, c.settings.gift, second);
        CallbackOnward(l1, c.settings.gift, second);
        var l2 := AfterCallback(l1, c.settings.gift, second);
        OnwardComposes(s.ledger, l1, l2);
        assert fired[1..][0] == fired[1] && fired[1..][1..] == [];
        assert AfterFired(c, l1, s.isAssigned, fired[1..]) == l2;
      }
    }
  }

  /** Whether an event locks a new quote. */
  predicate Locks(c: Config, l: Ledger, e: Event) {
    e.Refresh? && Refreshed(l, c.settings, e.rate, e.now).Ok?
  }

  /** One event keeps the invariant exactly if it locks no quote or the markup makes no rate
      negative. */
  lemma StepKeeps(c: Config, s: System, e: Event)
    requires Inv(c, s) && Sensible(e)
    ensures Inv(c, Step(c, s, e)) <==> !Locks(c, s.ledger, e) || c.settings.markupPercent >= -100.0
    ensures Onward(s.ledger, Step(c, s, e).ledger)
  {
    OnwardSame(s.ledger);
    match e
    case Poll(poll) => PollKeeps(c, s, poll);
    case Report(callback) =>
      CallbackOnward(s.ledger, c.settings.gift, callback);
      hide Balanced, AfterCallback, Count, AtMostOnePerMethod, Onward;
      CallbackKeepsOne(s.ledger, c.settings.gift, callback);
    case ExpiryCheck(now) =>
      ExpiryBalanced(s.ledger, c.settings.gift, now);
      hide Balanced, Count, AtMostOnePerMethod;
    case Refresh(rate, now) =>
      RefreshBalanced(s.ledger, c.settings.gift, c.settings, rate, now);
      RefreshOnward(s.ledger, c.settings, rate, now);
      hide Balanced, Count, AtMostOnePerMethod, Refreshed, Onward;
    case Cancel =>
      CancelBalanced(s.ledger, c.settings.gift);
      hide Balanced, Count, AtMostOnePerMethod;
  }

  lemma RefreshOnward(l: Ledger, s: Settings, rate: Option<real>, now: real)
    ensures Refreshed(l, s, rate, now).Ok? ==>
      Onward(l, Refreshed(l, s, rate, now).value) && Refreshed(l, s, rate, now).value.payments == l.payments
  {
    hide Money.QuotedAmount, Money.QuotedRate;
  }

  /** What a run needs to keep the invariant: a markup that makes no rate negative, or an
      invoice that is never quoted again. */
  predicate KeepsRates(c: Config, l: Ledger) {
    c.settings.markupPercent >= -100.0 || (l.status != Pending && l.status != Expired)
  }

  lemma KeepsRatesOnward(c: Config, before: Ledger, after: Ledger)
    requires KeepsRates(c, before) && Onward(before, after)
    ensures KeepsRates(c, after)
  {
  }

  lemma NeverLocks(c: Config, l: Ledger, e: Event)
    requires l.status != Pending && l.status != Expired
    ensures !Locks(c, l, e)
  {
  }

  /** In every run the invariant holds throughout, and nothing that was credited or decided
      is taken back. */
  lemma {:induction false} RunKeeps(c: Config, s: System, events: seq<Event>)
    requires Inv(c, s) && KeepsRates(c, s.ledger) && AllSensible(events)
    ensures Inv(c, Run(c, s, events)) && Onward(s.ledger, Run(c, s, events).ledger)
    decreases |events|
  {
    OnwardSame(s.ledger);
    hide Inv, Onward, Step, Sensible, Locks;
    if events != [] {
      assert Sensible(events[0]);
      StepKeeps(c, s, events[0]);
      if c.settings.markupPercent < -100.0 {
        NeverLocks(c, s.ledger, events[0]);
      }
      KeepsRatesOnward(c, s.ledger, Step(c, s, events[0]).ledger);
      RunKeeps(c, Step(c, s, events[0]), events[1..]);
      OnwardComposes(s.ledger, Step(c, s, events[0]).ledger, Run(c, s, events).ledger);
    }
  }

  /** Every run keeps the invariant exactly if the markup takes off no more than the whole
      rate, or the invoice is neither pending nor expired. */
  lemma RunsKeepExactly(c: Config, s: System)
    requires Inv(c, s)
    ensures (forall events :: AllSensible(events) ==> Inv(c, Run(c, s, events))) <==> KeepsRates(c, s.ledger)
  {
    hide Inv, Onward, Step;
    if KeepsRates(c, s.ledger) {
      forall events | AllSensible(events) ensures Inv(c, Run(c, s, events)) {
        RunKeeps(c, s, events);
      }
    } else {
      var e := Refresh(Some(1.0), 0.0);
      RefreshLocks(c, s.ledger);
      StepKeeps(c, s, e);
      assert [e][1..] == [];
      assert AllSensible([e]) && Run(c, s, [e]) == Step(c, s, e);
    }
  }

  lemma RefreshLocks(c: Config, l: Ledger)
    requires !KeepsRates(c, l)
    ensures Locks(c, l, Refresh(Some(1.0), 0.0))
  {
  }

  /** A draft just finalized starts such a run: with a fresh address assigned if it is to be
      paid on chain, and otherwise with none. */
  lemma FinalizedStarts(c: Config, draft: Ledger, onchain: bool, rate: Option<real>, now: real, address: M.Address)
    requires draft.status == Draft && draft.amountPaid == 0.0 && draft.payments == [] && draft.rate >= 0.0
    requires rate.Some? ==> rate.value > 0.0
    requires onchain ==> address.status == M.Assigned
    ensures var r := Finalized(draft, c.settings, onchain, rate, now);
      r.Ok? ==> (Inv(c, System(r.value, address, onchain)) <==> !onchain || c.settings.markupPercent >= -100.0)
  {
    FinalizedBalanced(draft, c.settings.gift, c.settings, onchain, rate, now);
    hide Balanced, Money.QuotedAmount, Money.QuotedRate;
  }

  // ---- What reaches an address is credited ----------------------------------

  lemma {:induction false} FiredInTurn(c: Config, l: Ledger, isAssigned: bool, fired: seq<M.Fired>)
    requires fired != []
    ensures var first := AfterCallback(l, c.settings.gift, CallbackFor(c, isAssigned, fired[0]));
      && (|fired| == 1 ==> AfterFired(c, l, isAssigned, fired) == first)
      && (|fired| == 2 ==>
            AfterFired(c, l, isAssigned, fired)
            == AfterCallback(first, c.settings.gift, CallbackFor(c, isAssigned, fired[1])))
    decreases |fired|
  {
    hide AfterCallback;
    if |fired| == 1 {
      assert fired[1..] == [];
    } else if |fired| == 2 {
      FiredInTurn(c, AfterCallback(l, c.settings.gift, CallbackFor(c, isAssigned, fired[0])), isAssigned, fired[1..]);
    }
  }

  /** While the address belongs to a payable invoice without an on-chain payment, the poll that
      first sees funds credits all of them, confirmed or not, at the locked rate, to half a
      cent. */
  lemma PollCredits(c: Config, s: System, poll: M.Poll)
    requires s.isAssigned && Payable(s.ledger.status) && s.ledger.rate > 0.0
    requires !HasPayment(s.ledger.payments, Onchain) && s.address.status != M.Seen
    requires M.SeesFunds(poll.backend, s.address, poll.observation)
    ensures var o, after := poll.observation, Step(c, s, Poll(poll)).ledger;
      var worth := (o.confirmed + o.unconfirmed) as real * s.ledger.rate / 100_000_000.0;
      worth - 0.005 <= after.amountPaid - s.ledger.amountPaid <= worth + 0.005
  {
    M.PollExactly(c.thresholds, poll.backend, s.address, poll.observation);
    var o, l, gift := poll.observation, s.ledger, c.settings.gift;
    var total := o.confirmed + o.unconfirmed;
    var (address, fired) := M.Polled(c.thresholds, poll.backend, s.address, o);
    hide M.Polled, M.Required, M.SeesFunds, AfterCallback, HasPayment, AfterFired;
    FiredInTurn(c, l, true, fired);
    OnchainCredits(l, gift, c.address, total, o.txid, 0);
    if |fired| == 2 {
      SeenThenConfirmed(l, gift, c.address, total, o.txid, fired[1].amountSat, fired[1].confirmations);
    }
  }

  /** Whatever a later poll finds credits nothing. */
  lemma LaterPollCreditsNothing(c: Config, s: System, poll: M.Poll)
    requires s.address.status == M.Seen && HasPayment(s.ledger.payments, Onchain) && s.ledger.rate > 0.0
    ensures Step(c, s, Poll(poll)).ledger.amountPaid == s.ledger.amountPaid
  {
    M.PollExactly(c.thresholds, poll.backend, s.address, poll.observation);
    var (address, fired) := M.Polled(c.thresholds, poll.backend, s.address, poll.observation);
    hide M.Polled, M.Required, M.SeesFunds, HasPayment, AfterFired;
    if fired != [] {
      FiredInTurn(c, s.ledger, s.isAssigned, fired);
      if Payable(s.ledger.status) && s.isAssigned {
        hide AfterCallback;
        OnchainCredits(s.ledger, c.settings.gift, c.address, fired[0].amountSat, "", fired[0].confirmations);
      }
    } else {
      NothingFired(c, s.ledger, s.isAssigned);
    }
  }

  lemma NothingFired(c: Config, l: Ledger, isAssigned: bool)
    ensures AfterFired(c, l, isAssigned, []) == l
  {
  }

  /** A confirmation right behind a first sighting credits nothing. */
  lemma SeenThenConfirmed(l: Ledger, gift: real, address: string, amountSat: int, txid: string, confirmed: int,
        confirmations: int)
    requires Payable(l.status) && l.rate > 0.0 && !HasPayment(l.payments, Onchain)
    ensures var seen := AfterCallback(l, gift, OnchainSeen(true, address, amountSat, txid));
      AfterCallback(seen, gift, OnchainConfirmed(true, address, confirmed, confirmations)).amountPaid == seen.amountPaid
  {
    var seen := AfterCallback(l, gift, OnchainSeen(true, address, amountSat, txid));
    FoundExactly(l.payments, Onchain, txid, "");
    var p := SatPayment(l, amountSat, txid, address, 0, Onchain);
    assert seen == Recorded(l, gift, p) by {
      hide Recorded, SatPayment, Found;
    }
    assert seen.payments[|l.payments|].via == Onchain;
    hide Recorded, SatPayment, AfterCallback;
    OnchainCredits(seen, gift, address, confirmed, "", confirmations);
  }

  /** A poll of an address that no longer belongs to the invoice leaves the invoice alone. */
  lemma PollUnassigned(c: Config, s: System, poll: M.Poll)
    requires !s.isAssigned
    ensures Step(c, s, Poll(poll)).ledger == s.ledger
  {
    var (address, fired) := M.Polled(c.thresholds, poll.backend, s.address, poll.observation);
    hide M.Polled;
    FiredUnassigned(c, s.ledger, fired);
  }

  lemma {:induction false} FiredUnassigned(c: Config, l: Ledger, fired: seq<M.Fired>)
    ensures AfterFired(c, l, false, fired) == l
    decreases |fired|
  {
    if fired != [] {
      FiredUnassigned(c, l, fired[1..]);
    }
  }

  // ---- The objects behind a run ---------------------------------------------

  /** The state of an invoice and its address; the address knows whom it is assigned to. */
  function SystemOf(invoice: Invoice, address: M.BitcoinAddress): System
    reads invoice, address
  {
    System(invoice.Row(), address.State(), address.assignedToInvoiceId == invoice.id)
  }

  /** The callbacks that `_start_onchain_monitor` registers: what the monitor fires reaches the
      invoice that the address is assigned to. */
  method Deliver(service: InvoiceService, invoice: Invoice, address: M.BitcoinAddress, fired: seq<M.Fired>,
        ghost c: Config)
    requires c.settings == service.settings && c.address == address.address
    modifies invoice`payments, invoice`status, invoice`amountPaid
    ensures invoice.Row()
         == AfterFired(c, old(invoice.Row()), address.assignedToInvoiceId == invoice.id, fired)
  {
    hide AfterCallback;
    ghost var isAssigned := address.assignedToInvoiceId == invoice.id;
    assert fired[0..] == fired;
    for i := 0 to |fired|
      invariant AfterFired(c, invoice.Row(), isAssigned, fired[i..])
             == AfterFired(c, old(invoice.Row()), isAssigned, fired)
    {
      assert fired[i..][0] == fired[i] && fired[i..][1..] == fired[i + 1..];
      Unassigned(invoice.Row(), service.settings.gift, CallbackFor(c, false, fired[i]));
      if address.assignedToInvoiceId == invoice.id {
        match fired[i]
        case FiredSeen(amountSat, txid) =>
          HandleOnchainSeen(service, invoice, address.address, amountSat, txid);
        case FiredConfirmed(amountSat, confirmations) =>
          HandleOnchainConfirmed(service, invoice, address.address, amountSat, confirmations);
      }
    }
  }

  lemma Unassigned(l: Ledger, gift: real, callback: Callback)
    requires callback.OnchainSeen? || callback.OnchainConfirmed?
    ensures !callback.isAssigned ==> AfterCallback(l, gift, callback) == l
  {
  }

  /** One event, carried out by the monitor, the connectors' handlers and the service. */
  method Perform(monitor: M.PaymentMonitor, service: InvoiceService, invoice: Invoice, address: M.BitcoinAddress,
        e: Event)
    requires Sensible(e) && invoice.paymentAddress == address && invoice.id != 0
    modifies monitor`watched, address, invoice
    ensures invoice.paymentAddress == address
    ensures SystemOf(invoice, address)
         == Step(Config(service.settings, monitor.thresholds, address.address), old(SystemOf(invoice, address)), e)
  {
    hide AfterCallback, M.Polled, Refreshed;
    ghost var c := Config(service.settings, monitor.thresholds, address.address);
    match e
    case Poll(poll) =>
      var fired := monitor.CheckAddress(address, poll.backend, poll.observation);
      Deliver(service, invoice, address, fired, c);
    case Report(callback) =>
      match callback {
        case BtcPayReport(btcpayId, report) => HandleBtcPay(service, invoice, btcpayId, report);
        case LnbitsPaid(paymentHash) => HandleLnbits(service, invoice, paymentHash);
        case StablePaid(name, received, unit, at) => HandleStablecoin(service, invoice, name, received, unit, at);
      }
    case ExpiryCheck(now) =>
      var _ := service.CheckExpiry(invoice, now);
    case Refresh(rate, now) =>
      var _ := service.RefreshBtcQuote(invoice, rate, now);
    case Cancel =>
      var _ := service.CancelInvoice(invoice);
  }

  /** A whole run: the objects end where `Run` does. */
  method Play(monitor: M.PaymentMonitor, service: InvoiceService, invoice: Invoice, address: M.BitcoinAddress,
        events: seq<Event>)
    requires AllSensible(events) && invoice.paymentAddress == address && invoice.id != 0
    modifies monitor`watched, address, invoice
    ensures SystemOf(invoice, address)
         == Run(Config(service.settings, monitor.thresholds, address.address), old(SystemOf(invoice, address)), events)
  {
    hide Step, Sensible;
    ghost var c := Config(service.settings, monitor.thresholds, address.address);
    for i := 0 to |events|
      invariant invoice.paymentAddress == address
      invariant AllSensible(events[i..])
      invariant Run(c, SystemOf(invoice, address), events[i..]) == Run(c, old(SystemOf(invoice, address)), events)
    {
      assert events[i..][0] == events[i] && events[i..][1..] == events[i + 1..];
      assert Sensible(events[i]);
      Perform(monitor, service, invoice, address, events[i]);
    }
  }
}
