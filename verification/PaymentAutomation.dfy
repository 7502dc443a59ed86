/** The callbacks that drive invoices from payment monitors (btpay/payment_automation.py).
    Each starts from the stored rows of one invoice. */
module PaymentAutomation {
  import opened Invoicing
  import opened Money
  import opened Numerals
  import opened Wrappers

  // ---- Finding payments -----------------------------------------------------

  /** The first payment of a method with a transaction id. */
  function WithTxid(payments: seq<Payment>, via: Method, txid: string): (k: Option<nat>)
    ensures k.Some? ==> k.value < |payments| && payments[k.value].via == via && payments[k.value].txid == txid
    ensures k.None? ==> forall i :: 0 <= i < |payments| ==> payments[i].via != via || payments[i].txid != txid
  {
    if payments == [] then None
    else
      match WithTxid(payments[..|payments| - 1], via, txid)
      case Some(k) => Some(k)
      case None =>
        var last := payments[|payments| - 1];
        if last.via == via && last.txid == txid then Some(|payments| - 1) else None
  }

  /** The last payment of a method, at an address if one is given. */
  function LastOf(payments: seq<Payment>, via: Method, address: string): (k: Option<nat>)
    ensures k.Some? ==>
      k.value < |payments| && payments[k.value].via == via && (address != "" ==> payments[k.value].address == address)
    ensures k.None? ==>
      forall i :: 0 <= i < |payments| ==> payments[i].via != via || (address != "" && payments[i].address != address)
  {
    if payments == [] then None
    else
      var n := |payments| - 1;
      if payments[n].via == via && (address == "" || payments[n].address == address) then Some(n)
      else LastOf(payments[..n], via, address)
  }

  /** `_find_payment`: by transaction id, else by address, else the latest of the method. */
  function Found(payments: seq<Payment>, via: Method, txid: string, address: string): Option<nat> {
    var byTxid := if txid != "" then WithTxid(payments, via, txid) else None;
    if byTxid.Some? then byTxid
    else
      var byAddress := if address != "" then LastOf(payments, via, address) else None;
      if byAddress.Some? then byAddress else LastOf(payments, via, "")
  }

  ghost predicate HasPayment(payments: seq<Payment>, via: Method) {
    exists k :: 0 <= k < |payments| && payments[k].via == via
  }

  /** Whatever it looks for, it finds a payment exactly if there is one of the method. */
  lemma FoundExactly(payments: seq<Payment>, via: Method, txid: string, address: string)
    ensures Found(payments, via, txid, address).Some? <==> HasPayment(payments, via)
    ensures Found(payments, via, txid, address).Some? ==>
      Found(payments, via, txid, address).value < |payments|
          && payments[Found(payments, via, txid, address).value].via == via
  {
  }

  /** A payment that a search by transaction id, or by address, would take. */
  predicate Matches(p: Payment, via: Method, txid: string, address: string) {
    p.via == via && (txid != "" ==> p.txid == txid) && (address != "" ==> p.address == address)
  }

  ghost predicate SomeMatch(payments: seq<Payment>, via: Method, txid: string, address: string) {
    exists i :: 0 <= i < |payments| && Matches(payments[i], via, txid, address)
  }

  /** Which payment is found: of those with the transaction id the first; if none has it, of
      those at the address the last; if none is there, the last of the method. */
  lemma FoundWhich(payments: seq<Payment>, via: Method, txid: string, address: string, k: nat)
    ensures Found(payments, via, txid, address) == Some(k) <==>
      && k < |payments|
      && if txid != "" && SomeMatch(payments, via, txid, "") then
           Matches(payments[k], via, txid, "") && forall i :: 0 <= i < k ==> !Matches(payments[i], via, txid, "")
         else if address != "" && SomeMatch(payments, via, "", address) then
           Matches(payments[k], via, "", address)
           && forall i :: k < i < |payments| ==> !Matches(payments[i], via, "", address)
         else
           Matches(payments[k], via, "", "") && forall i :: k < i < |payments| ==> !Matches(payments[i], via, "", "")
  {
    LastIsLast(payments, via, "");
    LastIsLast(payments, via, address);
    if txid != "" {
      FirstIsFirst(payments, via, txid);
    }
    hide WithTxid, LastOf;
  }

  lemma {:induction false} FirstIsFirst(payments: seq<Payment>, via: Method, txid: string)
    requires txid != ""
    ensures var k := WithTxid(payments, via, txid);
      && (k.None? <==> !SomeMatch(payments, via, txid, ""))
      && (k.Some? ==>
            Matches(payments[k.value], via, txid, "")
            && forall i :: 0 <= i < k.value ==> !Matches(payments[i], via, txid, ""))
  {
    if payments != [] {
      var front := payments[..|payments| - 1];
      FirstIsFirst(front, via, txid);
      assert forall i :: 0 <= i < |front| ==> front[i] == payments[i];
    }
  }

  lemma {:induction false} LastIsLast(payments: seq<Payment>, via: Method, address: string)
    ensures var k := LastOf(payments, via, address);
      && (k.None? <==> !SomeMatch(payments, via, "", address))
      && (k.Some? ==>
            Matches(payments[k.value], via, "", address)
            && forall i :: k.value < i < |payments| ==> !Matches(payments[i], via, "", address))
  {
    if payments != [] {
      var front := payments[..|payments| - 1];
      LastIsLast(front, via, address);
      assert forall i :: 0 <= i < |front| ==> front[i] == payments[i];
    }
  }

  method FindPayment(payments: seq<Payment>, via: Method, txid: string, address: string) returns (k: Option<nat>)
    ensures k == Found(payments, via, txid, address)
  {
    hide WithTxid, LastOf;
    if txid != "" {
      k := FindTxid(payments, via, txid);
      if k.Some? {
        return;
      }
    }
    if address != "" {
      k := FindLast(payments, via, address);
      if k.Some? {
        return;
      }
    }
    k := FindLast(payments, via, "");
  }

  method FindTxid(payments: seq<Payment>, via: Method, txid: string) returns (k: Option<nat>)
    ensures k == WithTxid(payments, via, txid)
  {
    for i := 0 to |payments|
      invariant WithTxid(payments[..i], via, txid) == None
    {
      assert payments[..i + 1][..i] == payments[..i];
      if payments[i].via == via && payments[i].txid == txid {
        FirstStays(payments, via, txid, i + 1);
        return Some(i);
      }
    }
    assert payments[..|payments|] == payments;
    return None;
  }

  lemma {:induction false} FirstStays(payments: seq<Payment>, via: Method, txid: string, n: nat)
    requires n <= |payments| && WithTxid(payments[..n], via, txid).Some?
    ensures WithTxid(payments, via, txid) == WithTxid(payments[..n], via, txid)
    decreases |payments|
  {
    if n < |payments| {
      var front := payments[..|payments| - 1];
      assert front[..n] == payments[..n];
      FirstStays(front, via, txid, n);
    } else {
      assert payments[..n] == payments;
    }
  }

  method FindLast(payments: seq<Payment>, via: Method, address: string) returns (k: Option<nat>)
    ensures k == LastOf(payments, via, address)
  {
    var n: nat := |payments|;
    assert payments[..n] == payments;
    while n > 0
      invariant n <= |payments| && LastOf(payments, via, address) == LastOf(payments[..n], via, address)
    {
      assert payments[..n][..n - 1] == payments[..n - 1];
      n := n - 1;
      if payments[n].via == via && (address == "" || payments[n].address == address) {
        return Some(n);
      }
    }
    return None;
  }

  // ---- Handlers on the stored state -----------------------------------------

  /** What a payment monitor reports. Callbacks of the address monitor carry the address and
      whether it is still assigned to the invoice. */
  datatype Callback =
    | OnchainSeen(isAssigned: bool, address: string, amountSat: int, txid: string)
    | OnchainConfirmed(isAssigned: bool, address: string, amountSat: int, confirmations: int)
    | BtcPayReport(btcpayId: string, report: Report)
    | LnbitsPaid(paymentHash: string)
    | StablePaid(name: string, received: nat, unit: real, address: string)

  datatype Report = Processing | Settled | Other

  function PrefixedId(prefix: string, id: string): string {
    if id == "" then "" else prefix + id
  }

  /** `confirm_payment` unless the payment is confirmed already. */
  function EnsureConfirmed(l: Ledger, k: nat, confirmations: int): Ledger
    requires k < |l.payments|
  {
    if l.payments[k].confirmed then l else ConfirmedAt(l, k, confirmations)
  }

  /** Find the payment or record it, then see that it is confirmed. */
  function RecordAndConfirm(l: Ledger, gift: real, found: Option<nat>, p: Payment, confirmations: int): Ledger
    requires found.Some? ==> found.value < |l.payments|
  {
    if found.Some? then EnsureConfirmed(l, found.value, confirmations)
    else EnsureConfirmed(Recorded(l, gift, p), |l.payments|, confirmations)
  }

  function AfterSeen(l: Ledger, gift: real, address: string, amountSat: int, txid: string): Ledger {
    if txid != "" && Found(l.payments, Onchain, txid, "").Some? then l
    else Recorded(l, gift, SatPayment(l, amountSat, txid, address, 0, Onchain))
  }

  function AfterConfirmed(l: Ledger, gift: real, address: string, amountSat: int, confirmations: int): Ledger {
    FoundExactly(l.payments, Onchain, "", address);
    RecordAndConfirm(l, gift, Found(l.payments, Onchain, "", address),
        SatPayment(l, amountSat, "", address, 0, Onchain), confirmations)
  }

  function AfterBtcPay(l: Ledger, gift: real, btcpayId: string, report: Report): Ledger {
    var txid := PrefixedId("btcpay:", btcpayId);
    var found := Found(l.payments, BtcPay, txid, "");
    var p := FiatPayment(l, AmountDue(l), txid, "", 0, BtcPay);
    FoundExactly(l.payments, BtcPay, txid, "");
    if report == Processing then (if found.None? then Recorded(l, gift, p) else l)
    else if report == Settled then RecordAndConfirm(l, gift, found, p, 1)
    else l
  }

  function AfterLnbits(l: Ledger, gift: real, paymentHash: string): Ledger {
    var txid := PrefixedId("lnbits:", paymentHash);
    FoundExactly(l.payments, Lnbits, txid, "");
    RecordAndConfirm(l, gift, Found(l.payments, Lnbits, txid, ""), FiatPayment(l, AmountDue(l), txid, "", 0, Lnbits), 1)
  }

  function StableTxid(name: string, received: nat): string {
    "stable_" + name + ":" + NatText(received)
  }

  function AfterStable(l: Ledger, gift: real, name: string, received: nat, unit: real, address: string): Ledger
    requires unit > 0.0
  {
    var txid := StableTxid(name, received);
    if Found(l.payments, Stable(name), txid, address).Some? then l
    else RecordAndConfirm(l, gift, None, FiatPayment(l, received as real / unit, txid, address, 0, Stable(name)), 1)
  }

  /** What a callback does to the invoice it names. */
  function AfterCallback(l: Ledger, gift: real, c: Callback): Ledger
    requires c.StablePaid? ==> c.unit > 0.0
  {
    if !Payable(l.status) then l
    else
      match c
      case OnchainSeen(isAssigned, address, amountSat, txid) =>
        if isAssigned then AfterSeen(l, gift, address, amountSat, txid) else l
      case OnchainConfirmed(isAssigned, address, amountSat, confirmations) =>
        if isAssigned then AfterConfirmed(l, gift, address, amountSat, confirmations) else l
      case BtcPayReport(btcpayId, report) => AfterBtcPay(l, gift, btcpayId, report)
      case LnbitsPaid(paymentHash) => AfterLnbits(l, gift, paymentHash)
      case StablePaid(name, received, unit, address) => AfterStable(l, gift, name, received, unit, address)
  }

  // ---- The handlers ---------------------------------------------------------

  /** `_handle_onchain_seen`; the invoice is the one the address is assigned to. */
  method HandleOnchainSeen(service: InvoiceService, invoice: Invoice, address: string, amountSat: int, txid: string)
    modifies invoice`payments, invoice`status, invoice`amountPaid
    ensures invoice.Row() == AfterCallback(old(invoice.Row()), service.settings.gift,
        OnchainSeen(true, address, amountSat, txid))
  {
    hide Found, Recorded, SatPayment;
    if !Payable(invoice.status) {
      return;
    }
    if txid != "" {
      var found := FindPayment(invoice.payments, Onchain, txid, "");
      if found.Some? {
        return;
      }
    }
    var _ := service.RecordPayment(invoice, amountSat, txid, address, 0, Onchain);
  }

  /** `_handle_onchain_confirmed`. */
  method HandleOnchainConfirmed(service: InvoiceService, invoice: Invoice, address: string, amountSat: int,
        confirmations: int)
    modifies invoice`payments, invoice`status, invoice`amountPaid
    ensures invoice.Row()
         == AfterCallback(old(invoice.Row()), service.settings.gift,
             OnchainConfirmed(true, address, amountSat, confirmations))
  {
    hide Found, SatPayment, ConfirmedAt;
    if !Payable(invoice.status) {
      return;
    }
    FoundExactly(invoice.payments, Onchain, "", address);
    var found := FindPayment(invoice.payments, Onchain, "", address);
    var k: nat;
    if found.None? {
      k := service.RecordPayment(invoice, amountSat, "", address, 0, Onchain);
    } else {
      k := found.value;
    }
    if !invoice.payments[k].confirmed {
      service.ConfirmPayment(invoice, k, confirmations);
    }
  }

  /** `_handle_btcpay_payment`. */
  method HandleBtcPay(service: InvoiceService, invoice: Invoice, btcpayId: string, report: Report)
    modifies invoice`payments, invoice`status, invoice`amountPaid
    ensures invoice.Row() == AfterCallback(old(invoice.Row()), service.settings.gift, BtcPayReport(btcpayId, report))
  {
    hide Found, FiatPayment, ConfirmedAt, AmountDue, PrefixedId;
    if !Payable(invoice.status) {
      return;
    }
    var txid := PrefixedId("btcpay:", btcpayId);
    FoundExactly(invoice.payments, BtcPay, txid, "");
    var found := FindPayment(invoice.payments, BtcPay, txid, "");
    if report == Processing && found.None? {
      var _ := service.RecordFiatPayment(invoice, AmountDue(invoice.Row()), txid, "", 0, BtcPay);
    } else if report == Settled {
      var k: nat;
      if found.None? {
        k := service.RecordFiatPayment(invoice, AmountDue(invoice.Row()), txid, "", 0, BtcPay);
      } else {
        k := found.value;
      }
      if !invoice.payments[k].confirmed {
        service.ConfirmPayment(invoice, k, 1);
      }
    }
  }

  /** `_handle_lnbits_payment`. */
  method HandleLnbits(service: InvoiceService, invoice: Invoice, paymentHash: string)
    modifies invoice`payments, invoice`status, invoice`amountPaid
    ensures invoice.Row() == AfterCallback(old(invoice.Row()), service.settings.gift, LnbitsPaid(paymentHash))
  {
    hide Found, FiatPayment, ConfirmedAt, AmountDue, PrefixedId;
    if !Payable(invoice.status) {
      return;
    }
    var txid := PrefixedId("lnbits:", paymentHash);
    FoundExactly(invoice.payments, Lnbits, txid, "");
    var found := FindPayment(invoice.payments, Lnbits, txid, "");
    var k: nat;
    if found.None? {
      k := service.RecordFiatPayment(invoice, AmountDue(invoice.Row()), txid, "", 0, Lnbits);
    } else {
      k := found.value;
    }
    if !invoice.payments[k].confirmed {
      service.ConfirmPayment(invoice, k, 1);
    }
  }

  /** `_handle_stablecoin_payment`; `unit` is how many base units make one token. */
  method HandleStablecoin(service: InvoiceService, invoice: Invoice, name: string, received: nat, unit: real,
        address: string)
    requires unit > 0.0
    modifies invoice`payments, invoice`status, invoice`amountPaid
    ensures invoice.Row() == AfterCallback(old(invoice.Row()), service.settings.gift,
        StablePaid(name, received, unit, address))
  {
    hide Found, ConfirmedAt, StableTxid, Cents;
    if !Payable(invoice.status) {
      return;
    }
    var txid := StableTxid(name, received);
    var found := FindPayment(invoice.payments, Stable(name), txid, address);
    if found.Some? {
      return;
    }
    var amountFiat := Cents(received as real / unit);
    CentsOfCents(received as real / unit);
    var k := service.RecordFiatPayment(invoice, amountFiat, txid, address, 0, Stable(name));
    if !invoice.payments[k].confirmed {
      service.ConfirmPayment(invoice, k, 1);
    }
  }

  // ---- What every callback keeps --------------------------------------------

  /** How many payments came in by a method. */
  function Count(payments: seq<Payment>, via: Method): nat {
    if payments == [] then 0
    else Count(payments[..|payments| - 1], via) + if payments[|payments| - 1].via == via then 1 else 0
  }

  lemma CountAppend(payments: seq<Payment>, p: Payment, via: Method)
    ensures Count(payments + [p], via) == Count(payments, via) + if p.via == via then 1 else 0
  {
    assert (payments + [p])[..|payments|] == payments;
  }

  lemma {:induction false} CountUpdate(payments: seq<Payment>, k: nat, p: Payment, via: Method)
    requires k < |payments| && p.via == payments[k].via
    ensures Count(payments[k := p], via) == Count(payments, via)
  {
    var n := |payments| - 1;
    if k < n {
      CountUpdate(payments[..n], k, p, via);
      assert payments[k := p][..n] == payments[..n][k := p];
    } else {
      assert payments[k := p][..n] == payments[..n];
    }
  }

  lemma {:induction false} CountZero(payments: seq<Payment>, via: Method)
    ensures Count(payments, via) == 0 <==> !HasPayment(payments, via)
  {
    if payments != [] {
      var n := |payments| - 1;
      CountZero(payments[..n], via);
      if HasPayment(payments[..n], via) {
        var k :| 0 <= k < n && payments[..n][k].via == via;
        assert payments[k].via == via;
      }
      if HasPayment(payments, via) && payments[n].via != via {
        var k :| 0 <= k < |payments| && payments[k].via == via;
        assert payments[..n][k].via == via;
      }
    }
  }

  /** The method a callback reports. */
  function MethodOf(c: Callback): Method {
    match c
    case OnchainSeen(_, _, _, _) => Onchain
    case OnchainConfirmed(_, _, _, _) => Onchain
    case BtcPayReport(_, _) => BtcPay
    case LnbitsPaid(_) => Lnbits
    case StablePaid(name, _, _, _) => Stable(name)
  }

  predicate WellFormed(c: Callback) {
    (c.OnchainSeen? ==> c.amountSat >= 0) && (c.OnchainConfirmed? ==> c.amountSat >= 0)
        && (c.StablePaid? ==> c.unit > 0.0)
  }

  /** What a callback may do to the payments: leave their number, or add one of its method. */
  ghost predicate AddsAtMostOne(before: seq<Payment>, after: seq<Payment>, via: Method) {
    && (forall m :: m != via ==> Count(after, m) == Count(before, m))
    && Count(before, via) <= Count(after, via) <= Count(before, via) + 1
  }

  lemma EnsureConfirmedKeeps(l: Ledger, gift: real, k: nat, confirmations: int)
    requires Balanced(l, gift) && k < |l.payments|
    ensures var after := EnsureConfirmed(l, k, confirmations);
      && Balanced(after, gift) && MayBecome(l.status, after.status)
      && forall m :: Count(after.payments, m) == Count(l.payments, m)
  {
    hide Balanced, Count;
    if !l.payments[k].confirmed {
      ConfirmedBalanced(l, gift, k, confirmations);
      forall m ensures Count(ConfirmedAt(l, k, confirmations).payments, m) == Count(l.payments, m) {
        CountUpdate(l.payments, k, l.payments[k].(confirmed := true, confirmations := confirmations), m);
      }
    }
  }

  lemma RecordedKeeps(l: Ledger, gift: real, p: Payment)
    requires Balanced(l, gift) && Payable(l.status) && p.amountFiat >= 0.0
    ensures var after := Recorded(l, gift, p);
      && Balanced(after, gift) && MayBecome(l.status, after.status) && |after.payments| == |l.payments| + 1
      && (forall m :: Count(after.payments, m) == Count(l.payments, m) + if m == p.via then 1 else 0)
  {
    hide Balanced, Count;
    RecordedBalanced(l, gift, p);
    forall m ensures Count(Recorded(l, gift, p).payments, m) == Count(l.payments, m) + if m == p.via then 1 else 0 {
      CountAppend(l.payments, p, m);
    }
  }

  /** Find or record, then confirm: it records exactly if there was no payment yet. */
  lemma RecordAndConfirmKeeps(l: Ledger, gift: real, found: Option<nat>, p: Payment, confirmations: int)
    requires Balanced(l, gift) && Payable(l.status) && p.amountFiat >= 0.0
    requires found.Some? ==> found.value < |l.payments|
    ensures var after := RecordAndConfirm(l, gift, found, p, confirmations);
      && Balanced(after, gift) && MayBecome(l.status, after.status)
      && (forall m :: Count(after.payments, m) == Count(l.payments, m) + if found.None? && m == p.via then 1 else 0)
  {
    hide Balanced, Count, Recorded, EnsureConfirmed;
    if found.Some? {
      EnsureConfirmedKeeps(l, gift, found.value, confirmations);
    } else {
      RecordedKeeps(l, gift, p);
      EnsureConfirmedKeeps(Recorded(l, gift, p), gift, |l.payments|, confirmations);
    }
  }

  lemma PaymentsNonNegative(l: Ledger, gift: real, amountSat: int, txid: string, address: string, amount: real,
        via: Method)
    requires Balanced(l, gift)
    ensures amountSat >= 0 ==> SatPayment(l, amountSat, txid, address, 0, via).amountFiat >= 0.0
    ensures amount >= 0.0 ==> FiatPayment(l, amount, txid, address, 0, via).amountFiat >= 0.0
  {
    if amountSat >= 0 {
      CreditNonNegative(amountSat, l.rate);
    }
  }

  /** Every callback keeps the ledger balanced and moves the status forward; it adds at most
      one payment, of its own method. Except for a first sighting it adds one only if there
      was none, and a sighting with a transaction id does so too. */
  lemma CallbackKeeps(l: Ledger, gift: real, c: Callback)
    requires Balanced(l, gift) && WellFormed(c)
    ensures var after := AfterCallback(l, gift, c);
      && Balanced(after, gift) && (after == l || MayBecome(l.status, after.status))
      && AddsAtMostOne(l.payments, after.payments, MethodOf(c))
      && (!(c.OnchainSeen? && c.txid == "") && HasPayment(l.payments, MethodOf(c)) ==>
            Count(after.payments, MethodOf(c)) == Count(l.payments, MethodOf(c)))
  {
    hide Balanced, Count, Found, RecordAndConfirm, Recorded, SatPayment, FiatPayment, HasPayment, PrefixedId,
        StableTxid;
    if Payable(l.status) {
      match c
      case OnchainSeen(isAssigned, address, amountSat, txid) =>
        FoundExactly(l.payments, Onchain, txid, "");
        PaymentsNonNegative(l, gift, amountSat, txid, address, 0.0, Onchain);
        PaymentMethods(l, amountSat, txid, address, 0.0, Onchain);
        RecordedKeeps(l, gift, SatPayment(l, amountSat, txid, address, 0, Onchain));
      case OnchainConfirmed(isAssigned, address, amountSat, confirmations) =>
        FoundExactly(l.payments, Onchain, "", address);
        PaymentsNonNegative(l, gift, amountSat, "", address, 0.0, Onchain);
        PaymentMethods(l, amountSat, "", address, 0.0, Onchain);
        RecordAndConfirmKeeps(l, gift, Found(l.payments, Onchain, "", address),
            SatPayment(l, amountSat, "", address, 0, Onchain), confirmations);
      case BtcPayReport(btcpayId, report) =>
        var txid := PrefixedId("btcpay:", btcpayId);
        var p := FiatPayment(l, AmountDue(l), txid, "", 0, BtcPay);
        FoundExactly(l.payments, BtcPay, txid, "");
        PaymentsNonNegative(l, gift, 0, txid, "", AmountDue(l), BtcPay);
        PaymentMethods(l, 0, txid, "", AmountDue(l), BtcPay);
        RecordedKeeps(l, gift, p);
        RecordAndConfirmKeeps(l, gift, Found(l.payments, BtcPay, txid, ""), p, 1);
      case LnbitsPaid(paymentHash) =>
        var txid := PrefixedId("lnbits:", paymentHash);
        FoundExactly(l.payments, Lnbits, txid, "");
        PaymentsNonNegative(l, gift, 0, txid, "", AmountDue(l), Lnbits);
        PaymentMethods(l, 0, txid, "", AmountDue(l), Lnbits);
        RecordAndConfirmKeeps(l, gift, Found(l.payments, Lnbits, txid, ""),
            FiatPayment(l, AmountDue(l), txid, "", 0, Lnbits), 1);
      case StablePaid(name, received, unit, address) =>
        var txid := StableTxid(name, received);
        FoundExactly(l.payments, Stable(name), txid, address);
        PaymentsNonNegative(l, gift, 0, txid, address, received as real / unit, Stable(name));
        PaymentMethods(l, 0, txid, address, received as real / unit, Stable(name));
        RecordAndConfirmKeeps(l, gift, None,
          FiatPayment(l, received as real / unit, txid, address, 0, Stable(name)), 1);
    }
  }

  lemma PaymentMethods(l: Ledger, amountSat: int, txid: string, address: string, amount: real, via: Method)
    ensures SatPayment(l, amountSat, txid, address, 0, via).via == via
    ensures FiatPayment(l, amount, txid, address, 0, via).via == via
  {
  }

  // ---- What a report leaves -------------------------------------------------

  /** A connector's report of a payment, on its way or settled. */
  predicate Reports(c: Callback) {
    c.LnbitsPaid? || (c.BtcPayReport? && c.report != Other)
  }

  /** A connector pays the rest. On a payable invoice that has no payment of the connector's
      method yet, the first report credits exactly what is missing, so that the amount paid
      becomes the total, or stays if it is more already. A report of a payment on its way
      leaves the invoice paid, any other leaves it confirmed. */
  lemma ReportPaysRest(l: Ledger, gift: real, c: Callback)
    requires Payable(l.status) && Reports(c) && !HasPayment(l.payments, MethodOf(c))
    requires Cents(l.total) == l.total && Cents(l.amountPaid) == l.amountPaid
    ensures var after := AfterCallback(l, gift, c);
      && after.amountPaid == (if l.amountPaid < l.total then l.total else l.amountPaid)
      && after.status == (if c.BtcPayReport? && c.report == Processing then Paid else Confirmed)
      && |after.payments| == |l.payments| + 1 && after.payments[..|l.payments|] == l.payments
      && var p := after.payments[|l.payments|];
         && p.via == MethodOf(c) && p.amountFiat == after.amountPaid - l.amountPaid
         && (p.confirmed <==> after.status == Confirmed)
  {
    hide Found, PrefixedId, Cents;
    WholeDifference(l.total, l.amountPaid);
    NoCents();
    match c
    case BtcPayReport(btcpayId, report) => FoundExactly(l.payments, BtcPay, PrefixedId("btcpay:", btcpayId), "");
    case LnbitsPaid(paymentHash) => FoundExactly(l.payments, Lnbits, PrefixedId("lnbits:", paymentHash), "");
  }

  lemma NoCents()
    ensures Cents(0.0) == 0.0
  {
    assert RoundHalfEven(0.0) == 0;
  }

  /** A report for which there is a payment already credits nothing: a settled one confirms
      the payment and with it a paid invoice, unless that has happened before. */
  lemma ReportAgain(l: Ledger, gift: real, c: Callback)
    requires Payable(l.status) && Reports(c) && HasPayment(l.payments, MethodOf(c))
    ensures var after := AfterCallback(l, gift, c);
      && after.amountPaid == l.amountPaid && |after.payments| == |l.payments|
      && (after == l || (after.status == (if l.status == Paid then Confirmed else l.status)
          && !(c.BtcPayReport? && c.report == Processing)))
  {
    hide Found, PrefixedId, FiatPayment;
    match c
    case BtcPayReport(btcpayId, report) => FoundExactly(l.payments, BtcPay, PrefixedId("btcpay:", btcpayId), "");
    case LnbitsPaid(paymentHash) => FoundExactly(l.payments, Lnbits, PrefixedId("lnbits:", paymentHash), "");
  }

  /** The first payment of a token credits what was received, in whole tokens and rounded to
      cents; the invoice is confirmed exactly if that covers it. */
  lemma StableCredits(l: Ledger, gift: real, name: string, received: nat, unit: real, address: string)
    requires Balanced(l, gift) && Payable(l.status) && unit > 0.0 && !HasPayment(l.payments, Stable(name))
    ensures var after := AfterCallback(l, gift, StablePaid(name, received, unit, address));
      && received as real / unit - 0.005 <= after.amountPaid - l.amountPaid <= received as real / unit + 0.005
      && (Cents(received as real / unit) == received as real / unit ==>
            after.amountPaid - l.amountPaid == received as real / unit)
      && (after.status == Confirmed <==>
            after.amountPaid >= l.total || (after.amountPaid > 0.0 && l.total - after.amountPaid <= gift))
  {
    hide Found, StableTxid, Cents, SumFiat;
    FoundExactly(l.payments, Stable(name), StableTxid(name, received), address);
  }

  /** A first on-chain sighting, or a confirmation that comes without one, credits what the
      satoshis are worth at the locked rate, to half a cent. Once there is an on-chain
      payment a confirmation credits nothing more, whatever amount it reports. */
  lemma OnchainCredits(l: Ledger, gift: real, address: string, amountSat: int, txid: string, confirmations: int)
    requires Payable(l.status) && l.rate > 0.0
    ensures var seen := AfterCallback(l, gift, OnchainSeen(true, address, amountSat, txid));
      var worth := amountSat as real * l.rate / 100_000_000.0;
      !HasPayment(l.payments, Onchain) ==> worth - 0.005 <= seen.amountPaid - l.amountPaid <= worth + 0.005
    ensures var confirmed := AfterCallback(l, gift, OnchainConfirmed(true, address, amountSat, confirmations));
      var worth := amountSat as real * l.rate / 100_000_000.0;
      && (!HasPayment(l.payments, Onchain) ==>
            worth - 0.005 <= confirmed.amountPaid - l.amountPaid <= worth + 0.005)
      && (HasPayment(l.payments, Onchain) ==> confirmed.amountPaid == l.amountPaid)
  {
    hide Found, CreditedFor, Satoshi2Coins;
    FoundExactly(l.payments, Onchain, txid, "");
    FoundExactly(l.payments, Onchain, "", address);
    QuotePrice(l.total, l.rate, amountSat);
  }

  /** Each payment a monitor reports has an id of its own. */
  lemma DistinctIds(a: string, b: string, x: nat, y: nat)
    ensures PrefixedId("btcpay:", a) == PrefixedId("btcpay:", b) <==> a == b
    ensures PrefixedId("lnbits:", a) == PrefixedId("lnbits:", b) <==> a == b
    ensures StableTxid(a, x) == StableTxid(a, y) <==> x == y
  {
    if a != "" && b != "" {
      assert PrefixedId("btcpay:", a)[7..] == a && PrefixedId("btcpay:", b)[7..] == b;
      assert PrefixedId("lnbits:", a)[7..] == a && PrefixedId("lnbits:", b)[7..] == b;
    }
    var s := "stable_" + a + ":";
    assert StableTxid(a, x)[|s|..] == NatText(x) && StableTxid(a, y)[|s|..] == NatText(y);
    NatRoundTrip(x);
    NatRoundTrip(y);
  }
}
