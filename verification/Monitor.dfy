/** The address monitor (btpay/bitcoin/monitor.py, btpay/bitcoin/models.py): polling an
    address through Electrum or mempool.space. What the network answers is a parameter. */
module Monitor {
  import opened Wrappers

  datatype AddressStatus = Unused | Reserved | Assigned | Seen | Confirmed | Released

  /** The stored state of a `BitcoinAddress` that polling reads and writes. */
  datatype Address = Address(status: AddressStatus, amountReceivedSat: int)

  /** Which service answered. Electrum needs a script hash, mempool.space a transaction id. */
  datatype Backend = Electrum(hasScriptHash: bool) | Mempool | NoBackend

  /** What a poll learns: the balances, the latest transaction id, and its confirmations, or
      None if asking for them raises. */
  datatype Observation = Observation(confirmed: int, unconfirmed: int, txid: string, confirmations: Option<int>)

  datatype Fired = FiredSeen(amountSat: int, txid: string) | FiredConfirmed(amountSat: int, confirmations: int)

  /** Confirmations asked of amounts below a bound; None is no bound. */
  datatype Threshold = Threshold(below: Option<int>, confirmations: int)

  // ---- Required confirmations -----------------------------------------------

  function Applies(t: Threshold, amountSat: int): bool {
    t.below.None? || amountSat < t.below.value
  }

  /** The first tier that applies decides; six confirmations if none does. */
  function Required(thresholds: seq<Threshold>, amountSat: int): int {
    if thresholds == [] then 6
    else if Applies(thresholds[0], amountSat) then thresholds[0].confirmations
    else Required(thresholds[1..], amountSat)
  }

  method RequiredConfirmations(thresholds: seq<Threshold>, amountSat: int) returns (confs: int)
    ensures confs == Required(thresholds, amountSat)
  {
    for i := 0 to |thresholds|
      invariant Required(thresholds, amountSat) == Required(thresholds[i..], amountSat)
    {
      assert thresholds[i..][0] == thresholds[i] && thresholds[i..][1..] == thresholds[i + 1..];
      if thresholds[i].below.None? {
        return thresholds[i].confirmations;
      }
      if amountSat < thresholds[i].below.value {
        return thresholds[i].confirmations;
      }
    }
    return 6;
  }

  /** Later tiers ask for no fewer confirmations, and none for more than the six that apply
      past the last. */
  ghost predicate Graded(thresholds: seq<Threshold>) {
    (forall i, j :: 0 <= i < j < |thresholds| ==> thresholds[i].confirmations <= thresholds[j].confirmations)
    && forall i :: 0 <= i < |thresholds| ==> thresholds[i].confirmations <= 6
  }

  function DefaultThresholds(): seq<Threshold> {
    [Threshold(Some(1_000_000), 1), Threshold(Some(10_000_000), 3), Threshold(None, 6)]
  }

  lemma DefaultsGraded()
    ensures Graded(DefaultThresholds())
  {
  }

  /** By default amounts below a hundredth of a bitcoin take one confirmation, below a tenth
      three, and others six. */
  lemma DefaultTiers(amountSat: int)
    ensures Required(DefaultThresholds(), amountSat)
         == if amountSat < 1_000_000 then 1 else if amountSat < 10_000_000 then 3 else 6
  {
    var ts := DefaultThresholds();
    assert ts[1..] == [Threshold(Some(10_000_000), 3), Threshold(None, 6)];
    assert ts[1..][1..] == [Threshold(None, 6)];
    assert Required(ts[1..][1..], amountSat) == 6;
    assert Required(ts[1..], amountSat) == if amountSat < 10_000_000 then 3 else 6;
  }

  lemma {:induction false} RequiredAtLeast(thresholds: seq<Threshold>, amountSat: int, n: int)
    requires n <= 6 && forall i :: 0 <= i < |thresholds| ==> n <= thresholds[i].confirmations
    ensures n <= Required(thresholds, amountSat)
  {
    if thresholds != [] {
      RequiredAtLeast(thresholds[1..], amountSat, n);
    }
  }

  /** More money never needs fewer confirmations. */
  lemma {:induction false} RequiredMonotone(thresholds: seq<Threshold>, less: int, more: int)
    requires Graded(thresholds) && less <= more
    ensures Required(thresholds, less) <= Required(thresholds, more)
  {
    if thresholds != [] {
      if Applies(thresholds[0], less) && !Applies(thresholds[0], more) {
        RequiredAtLeast(thresholds[1..], more, thresholds[0].confirmations);
      } else if !Applies(thresholds[0], less) {
        RequiredMonotone(thresholds[1..], less, more);
      }
    }
  }

  // ---- One poll -------------------------------------------------------------

  /** Whether confirmations are asked for at all. */
  predicate Asks(b: Backend, o: Observation) {
    o.confirmed > 0 && (b.Mempool? ==> o.txid != "")
  }

  /** Whether the confirmations suffice for an amount on record. */
  predicate Enough(thresholds: seq<Threshold>, amountSat: int, o: Observation) {
    o.confirmations.Some? && o.confirmations.value >= Required(thresholds, amountSat)
  }

  /** The first poll that finds funds; it may go straight on to the confirmation. */
  function FirstSighting(thresholds: seq<Threshold>, b: Backend, o: Observation): (Address, seq<Fired>) {
    var total := o.confirmed + o.unconfirmed;
    if Asks(b, o) && Enough(thresholds, total, o)
    then (Address(Confirmed, o.confirmed),
        [FiredSeen(total, o.txid), FiredConfirmed(o.confirmed, o.confirmations.value)])
    else (Address(Seen, total), [FiredSeen(total, o.txid)])
  }

  /** A later poll: the tier is that of the amount on record before this poll. */
  function LaterSighting(thresholds: seq<Threshold>, b: Backend, a: Address, o: Observation): (Address, seq<Fired>) {
    var total := o.confirmed + o.unconfirmed;
    if Asks(b, o) && o.confirmations.None? then (a, [])
    else if Asks(b, o) && Enough(thresholds, a.amountReceivedSat, o)
    then (Address(Confirmed, o.confirmed), [FiredConfirmed(o.confirmed, o.confirmations.value)])
    else (a.(amountReceivedSat := total), [])
  }

  /** `_check_address`: the new state and the callbacks fired, in order. */
  function Polled(thresholds: seq<Threshold>, b: Backend, a: Address, o: Observation): (Address, seq<Fired>) {
    if a.status == Confirmed || b.NoBackend? || (b.Electrum? && !b.hasScriptHash) then (a, [])
    else if o.confirmed + o.unconfirmed <= 0 then (a, [])
    else if a.status == Assigned || a.status == Unused then FirstSighting(thresholds, b, o)
    else if a.status == Seen then LaterSighting(thresholds, b, a, o)
    else (a, [])
  }

  class BitcoinAddress {
    const address: string
    var status: AddressStatus
    var amountReceivedSat: int
    var assignedToInvoiceId: int

    function State(): Address
      reads this
    {
      Address(status, amountReceivedSat)
    }

    constructor (address: string)
      ensures State() == Address(Unused, 0) && this.address == address && assignedToInvoiceId == 0
    {
      this.address, status, amountReceivedSat, assignedToInvoiceId := address, Unused, 0, 0;
    }

    method MarkAssigned(invoiceId: int)
      modifies this
      ensures State() == old(State()).(status := Assigned) && assignedToInvoiceId == invoiceId
    {
      status, assignedToInvoiceId := Assigned, invoiceId;
    }

    method MarkSeen(amountSat: int)
      modifies this`status, this`amountReceivedSat
      ensures State() == Address(Seen, amountSat)
    {
      status, amountReceivedSat := Seen, amountSat;
    }

    method MarkConfirmed(amountSat: int)
      modifies this`status, this`amountReceivedSat
      ensures State() == Address(Confirmed, amountSat)
    {
      status, amountReceivedSat := Confirmed, amountSat;
    }
  }

  class PaymentMonitor {
    const thresholds: seq<Threshold>
    var watched: map<string, BitcoinAddress>

    constructor (thresholds: seq<Threshold>)
      ensures this.thresholds == (if thresholds == [] then DefaultThresholds() else thresholds) && watched == map[]
    {
      this.thresholds := if thresholds == [] then DefaultThresholds() else thresholds;
      watched := map[];
    }

    method WatchAddress(a: BitcoinAddress)
      modifies this`watched
      ensures watched == old(watched)[a.address := a]
    {
      watched := watched[a.address := a];
    }

    method UnwatchAddress(a: BitcoinAddress)
      modifies this`watched
      ensures watched == old(watched) - {a.address}
    {
      watched := watched - {a.address};
    }

    /** One address of a round of `_check_loop`: confirmed addresses leave the watch list. */
    method CheckAddress(a: BitcoinAddress, b: Backend, o: Observation) returns (fired: seq<Fired>)
      modifies this`watched, a`status, a`amountReceivedSat
      ensures (a.State(), fired) == Polled(thresholds, b, old(a.State()), o)
      ensures watched == if old(a.status) == Confirmed then old(watched) - {a.address} else old(watched)
    {
      hide Required;
      if a.status == Confirmed {
        UnwatchAddress(a);
        return [];
      }
      match b
      case NoBackend => return [];
      case Electrum(hasScriptHash) =>
        if !hasScriptHash {
          return [];
        }
        fired := CheckFunds(a, b, o);
      case Mempool =>
        fired := CheckFunds(a, b, o);
    }

    /** `_check_via_electrum` and `_check_via_mempool`, which differ in what they ask for. */
    method CheckFunds(a: BitcoinAddress, b: Backend, o: Observation) returns (fired: seq<Fired>)
      requires a.status != Confirmed && !b.NoBackend? && (b.Electrum? ==> b.hasScriptHash)
      modifies a`status, a`amountReceivedSat
      ensures (a.State(), fired) == Polled(thresholds, b, old(a.State()), o)
    {
      hide Required;
      fired := [];
      var total := o.confirmed + o.unconfirmed;
      if total <= 0 {
        return;
      }
      if a.status == Assigned || a.status == Unused {
        a.MarkSeen(total);
        fired := [FiredSeen(total, o.txid)];
        if o.confirmed > 0 && (b.Electrum? || o.txid != "") && o.confirmations.Some? {
          var required := RequiredConfirmations(thresholds, a.amountReceivedSat);
          if o.confirmations.value >= required {
            a.MarkConfirmed(o.confirmed);
            fired := fired + [FiredConfirmed(o.confirmed, o.confirmations.value)];
            assert fired == [FiredSeen(total, o.txid), FiredConfirmed(o.confirmed, o.confirmations.value)];
          }
        }
      } else if a.status == Seen {
        if o.confirmed > 0 && (b.Electrum? || o.txid != "") {
          if o.confirmations.None? {
            return;
          }
          var required := RequiredConfirmations(thresholds, a.amountReceivedSat);
          if o.confirmations.value >= required {
            a.MarkConfirmed(o.confirmed);
            fired := [FiredConfirmed(o.confirmed, o.confirmations.value)];
            return;
          }
        }
        if total != a.amountReceivedSat {
          a.amountReceivedSat := total;
        }
      }
    }
  }

  // ---- Runs of polls --------------------------------------------------------

  /** A poll and what it learned. */
  datatype Poll = Poll(backend: Backend, observation: Observation)

  function AfterPolls(thresholds: seq<Threshold>, a: Address, polls: seq<Poll>): Address
    decreases |polls|
  {
    if polls == [] then a
    else AfterPolls(thresholds, Polled(thresholds, polls[0].backend, a, polls[0].observation).0, polls[1..])
  }

  /** All callbacks fired in a run of polls. */
  function FiredIn(thresholds: seq<Threshold>, a: Address, polls: seq<Poll>): seq<Fired>
    decreases |polls|
  {
    if polls == [] then []
    else
      var (next, fired) := Polled(thresholds, polls[0].backend, a, polls[0].observation);
      fired + FiredIn(thresholds, next, polls[1..])
  }

  function Stage(s: AddressStatus): nat {
    match s case Confirmed => 2 case Seen => 1 case _ => 0
  }

  /** An address moves only from assigned to seen to confirmed, and over any run of polls it
      fires `seen` at most once, when it leaves its first stage, and then `confirmed` at
      most once, when it reaches its last. */
  lemma {:induction false} FiresOnce(thresholds: seq<Threshold>, a: Address, polls: seq<Poll>)
    ensures var (after, fired) := (AfterPolls(thresholds, a, polls), FiredIn(thresholds, a, polls));
      && Stage(a.status) <= Stage(after.status) && (Stage(a.status) == Stage(after.status) ==> after.status == a.status)
      && |fired| == Stage(after.status) - Stage(a.status)
      && (Stage(a.status) == 0 && |fired| > 0 ==> fired[0].FiredSeen?)
      && (Stage(after.status) == 2 && |fired| > 0 ==> fired[|fired| - 1].FiredConfirmed?)
    decreases |polls|
  {
    hide Polled;
    if polls != [] {
      PollFires(thresholds, a, polls[0]);
      var (next, first) := Polled(thresholds, polls[0].backend, a, polls[0].observation);
      FiresOnce(thresholds, next, polls[1..]);
      var rest := FiredIn(thresholds, next, polls[1..]);
      assert FiredIn(thresholds, a, polls) == first + rest;
    }
  }

  /** One poll: what it fires is what its change of stage calls for. */
  lemma PollFires(thresholds: seq<Threshold>, a: Address, poll: Poll)
    ensures var (after, fired) := Polled(thresholds, poll.backend, a, poll.observation);
      && Stage(a.status) <= Stage(after.status) && (Stage(a.status) == Stage(after.status) ==> after.status == a.status)
      && |fired| == Stage(after.status) - Stage(a.status)
      && (Stage(a.status) == 0 && |fired| > 0 ==> fired[0].FiredSeen?)
      && (Stage(after.status) == 2 && |fired| > 0 ==> fired[|fired| - 1].FiredConfirmed?)
      && (Stage(a.status) == 1 && |fired| > 0 ==> fired[0].FiredConfirmed?)
      && forall i :: 0 <= i < |fired| ==> fired[i].amountSat > 0
  {
    hide Required;
  }

  /** A poll that gets to see the funds of an address still waited for. */
  predicate SeesFunds(b: Backend, a: Address, o: Observation) {
    && (a.status == Assigned || a.status == Unused || a.status == Seen)
    && !b.NoBackend? && (b.Electrum? ==> b.hasScriptHash) && o.confirmed + o.unconfirmed > 0
  }

  /** What one poll does. Unless it sees funds, or asking for confirmations raises on an
      address seen before, nothing. Otherwise the address is confirmed exactly if the
      confirmations meet the tier of the amount on record, with the confirmed amount, and
      else seen, with all of it; a first sighting reports all of it and its transaction. */
  lemma PollExactly(thresholds: seq<Threshold>, b: Backend, a: Address, o: Observation)
    ensures var (after, fired) := Polled(thresholds, b, a, o);
      if !SeesFunds(b, a, o) || (a.status == Seen && Asks(b, o) && o.confirmations.None?)
      then after == a && fired == []
      else
        && after.status == (
             if Asks(b, o) && o.confirmations.Some?
                && o.confirmations.value >= Required(thresholds, OnRecord(a, o)) then Confirmed else Seen)
        && after.amountReceivedSat
           == (if after.status == Confirmed then o.confirmed else o.confirmed + o.unconfirmed)
        && fired == (if a.status == Seen then [] else [FiredSeen(o.confirmed + o.unconfirmed, o.txid)])
           + (if after.status == Confirmed then [FiredConfirmed(o.confirmed, o.confirmations.value)] else [])
  {
    hide Required;
  }

  /** The amount whose tier a confirmation must meet: what was on record, or what the same
      poll has just recorded. */
  function OnRecord(a: Address, o: Observation): int {
    if a.status == Seen then a.amountReceivedSat else o.confirmed + o.unconfirmed
  }

  /** `confirmed` fires only with the confirmations that the amount on record takes. */
  lemma ConfirmedMeetsTier(thresholds: seq<Threshold>, a: Address, poll: Poll, k: nat)
    ensures var fired := Polled(thresholds, poll.backend, a, poll.observation).1;
      k < |fired| && fired[k].FiredConfirmed? ==>
        && fired[k].confirmations >= Required(thresholds, OnRecord(a, poll.observation))
        && fired[k].amountSat == poll.observation.confirmed
  {
    hide Required;
  }

  /** Whether a poll gets as far as asking for confirmations. */
  predicate MayConfirm(b: Backend, a: Address, o: Observation) {
    && (a.status == Assigned || a.status == Unused || a.status == Seen)
    && !b.NoBackend? && (b.Electrum? ==> b.hasScriptHash)
    && o.confirmed + o.unconfirmed > 0 && Asks(b, o)
  }

  /** However many confirmations there are, `confirmed` fires only with as many as the
      confirmed amount itself takes. */
  ghost predicate MeetsOwnTier(thresholds: seq<Threshold>, b: Backend, a: Address, o: Observation) {
    forall n, k: nat | k < |Polled(thresholds, b, a, o.(confirmations := Some(n))).1| ::
      var fired := Polled(thresholds, b, a, o.(confirmations := Some(n))).1[k];
      fired.FiredConfirmed? ==> fired.confirmations >= Required(thresholds, fired.amountSat)
  }

  /** It does exactly if the amount on record, whose tier is checked, is in no lower tier
      than the confirmed amount. */
  lemma OwnTierExactly(thresholds: seq<Threshold>, b: Backend, a: Address, o: Observation)
    requires MayConfirm(b, a, o)
    ensures MeetsOwnTier(thresholds, b, a, o) <==>
      Required(thresholds, o.confirmed) <= Required(thresholds, OnRecord(a, o))
  {
    hide Required;
    var n := Required(thresholds, OnRecord(a, o));
    var fired := Polled(thresholds, b, a, o.(confirmations := Some(n))).1;
    assert fired[|fired| - 1] == FiredConfirmed(o.confirmed, n);
  }

  /** In graded tiers that is so whenever no more is confirmed than is on record, as when no
      funds arrive after the first sighting. */
  lemma NoTopUpMeetsTier(thresholds: seq<Threshold>, b: Backend, a: Address, o: Observation)
    requires Graded(thresholds) && MayConfirm(b, a, o) && o.confirmed <= OnRecord(a, o)
    ensures MeetsOwnTier(thresholds, b, a, o)
  {
    RequiredMonotone(thresholds, o.confirmed, OnRecord(a, o));
    OwnTierExactly(thresholds, b, a, o);
  }

  /** It does not hold in general. Funds that arrive after the first sighting are confirmed
      in the tier of the older, smaller amount: half a bitcoin passes with one
      confirmation, where its own tier takes six. */
  lemma TopUpPassesLowTier()
    ensures var a := Address(Seen, 500_000);
      var o := Observation(50_500_000, 0, "t", Some(1));
      && Polled(DefaultThresholds(), Mempool, a, o) == (Address(Confirmed, 50_500_000), [FiredConfirmed(50_500_000, 1)])
      && Required(DefaultThresholds(), 50_500_000) == 6
  {
    var ts := DefaultThresholds();
    assert ts[1..] == [Threshold(Some(10_000_000), 3), Threshold(None, 6)];
    assert ts[1..][1..] == [Threshold(None, 6)];
    assert Required(ts, 500_000) == 1;
    assert Required(ts[1..][1..], 50_500_000) == 6;
    assert Required(ts[1..], 50_500_000) == 6;
  }
}
