/** The campaign as a value: its ledger, its lifecycle phase derived from
    timestamps, and each public operation as a function from the state
    before the call (and the call's caller and time) to either the state
    after it, with the amount it pays out, or the kind of failure. A failed
    call has no state of its own: the campaign stays as it was. */
module Lifecycle {
  import opened Ledger

  /** Donors who schedule a withdrawal may take their frozen share two weeks
      after the campaign was created. */
  const WITHDRAWAL_DELAY: nat := 2 * 7 * 24 * 60 * 60

  /** Closing a campaign moves its closure to four weeks after the call. */
  const CLOSURE_DELAY: nat := 4 * 7 * 24 * 60 * 60

  datatype Phase = Open | ScheduledForClosure | Closed

  datatype Error =
    | Unauthorized        // a privileged call by someone other than the beneficiary
    | CampaignClosed      // a donation or scheduling call at or after closure
    | AlreadyRescheduled  // a second close
    | NotYetClosed        // a redemption before closure
    | AlreadyRedeemed     // a second redemption
    | TooEarly            // a withdrawal before the donor's scheduled time
    | AlreadyWithdrawn    // a withdrawal with no frozen share left to pay

  datatype Campaign = Campaign(
    beneficiary: Address,
    targetAmount: nat,
    creationTimestamp: nat,
    closureTimestamp: nat,
    rescheduledClosure: bool,
    redeemed: bool,
    collectedAmount: nat,                        // the pool the beneficiary may redeem
    frozenAmount: nat,                           // funds waiting for a donor withdrawal
    collectedFunds: map<Address, nat>,           // each donor's unfrozen pledge
    frozenFunds: map<Address, nat>,              // each donor's frozen share
    scheduledWithdrawals: map<Address, nat>)     // each scheduling donor's eligibility time

  datatype Outcome = Success(state: Campaign, payout: nat) | Failure(error: Error)

  /** What a caller of the contract observes: the amount paid or the failure. */
  datatype Receipt = Accepted(paid: nat) | Rejected(reason: Error)

  function ReceiptOf(o: Outcome): Receipt
  {
    match o
    case Success(_, p) => Accepted(p)
    case Failure(e) => Rejected(e)
  }

  /** The campaign after a call with outcome o: a failure changes nothing. */
  function StateAfter(c: Campaign, o: Outcome): Campaign
  {
    if o.Success? then o.state else c
  }

  /** The lifecycle phase, derived from the clock and never stored. */
  function PhaseAt(now: nat, closureTimestamp: nat, rescheduledClosure: bool): Phase
  {
    if closureTimestamp <= now then Closed
    else if rescheduledClosure then ScheduledForClosure
    else Open
  }

  function PhaseOf(c: Campaign, now: nat): Phase
  {
    PhaseAt(now, c.closureTimestamp, c.rescheduledClosure)
  }

  /** The ledger invariant: each aggregate is the sum of its per-donor
      mapping, only donors who scheduled a withdrawal hold a frozen share, and
      every donor who scheduled shares the same eligibility time. */
  ghost predicate Consistent(c: Campaign)
  {
    && c.collectedAmount == Total(c.collectedFunds)
    && c.frozenAmount == Total(c.frozenFunds)
    && c.frozenFunds.Keys <= c.scheduledWithdrawals.Keys
    && forall d :: d in c.scheduledWithdrawals ==>
         c.scheduledWithdrawals[d] == c.creationTimestamp + WITHDRAWAL_DELAY
  }

  /** The funds the contract still holds for someone: the redeemable pool
      until the beneficiary has taken it, and the frozen shares. */
  function Escrow(c: Campaign): nat
  {
    (if c.redeemed then 0 else c.collectedAmount) + c.frozenAmount
  }

  /** The deployment's fixed terms are as they were. */
  predicate SameTerms(c: Campaign, d: Campaign)
  {
    d.beneficiary == c.beneficiary && d.targetAmount == c.targetAmount
    && d.creationTimestamp == c.creationTimestamp
  }

  /** The closure time and both one-shot flags are as they were. */
  predicate SameSchedule(c: Campaign, d: Campaign)
  {
    d.closureTimestamp == c.closureTimestamp && d.rescheduledClosure == c.rescheduledClosure
    && d.redeemed == c.redeemed
  }

  /** The aggregates and every per-donor mapping are as they were. */
  predicate SameLedger(c: Campaign, d: Campaign)
  {
    d.collectedAmount == c.collectedAmount && d.frozenAmount == c.frozenAmount
    && d.collectedFunds == c.collectedFunds && d.frozenFunds == c.frozenFunds
    && d.scheduledWithdrawals == c.scheduledWithdrawals
  }

  /** Every account other than donor keeps its pledge, its frozen share and
      its eligibility time. */
  ghost predicate OthersUntouched(c: Campaign, d: Campaign, donor: Address)
  {
    forall a :: a != donor ==>
      && Get(d.collectedFunds, a) == Get(c.collectedFunds, a)
      && Get(d.frozenFunds, a) == Get(c.frozenFunds, a)
      && (a in d.scheduledWithdrawals <==> a in c.scheduledWithdrawals)
      && (a in c.scheduledWithdrawals ==> d.scheduledWithdrawals[a] == c.scheduledWithdrawals[a])
  }

  /** Deployment by the beneficiary at time now. */
  function Create(beneficiary: Address, targetAmount: nat, duration: nat, now: nat): (c: Campaign)
    ensures Consistent(c) && Escrow(c) == 0
    ensures c.collectedAmount == 0 && !c.rescheduledClosure && !c.redeemed
    ensures c.targetAmount == targetAmount && c.beneficiary == beneficiary
    ensures c.creationTimestamp == now && c.closureTimestamp == now + duration
    ensures PhaseOf(c, now) == Open <==> duration > 0
  {
    Campaign(beneficiary, targetAmount, now, now + duration, false, false, 0, 0, map[], map[], map[])
  }

  /** A pledge of value by donor at time now. */
  function Donate(c: Campaign, donor: Address, value: nat, now: nat): (r: Outcome)
    ensures r.Failure? <==> PhaseOf(c, now) == Closed
    ensures r.Failure? ==> r.error == CampaignClosed
    ensures r.Success? ==> Consistent(c) ==> Consistent(r.state)
    ensures r.Success? ==>
      && r.payout == 0
      && r.state.collectedAmount == c.collectedAmount + value
      && Get(r.state.collectedFunds, donor) == Get(c.collectedFunds, donor) + value
      && OthersUntouched(c, r.state, donor)
      && r.state.frozenAmount == c.frozenAmount
      && r.state.frozenFunds == c.frozenFunds
      && r.state.scheduledWithdrawals == c.scheduledWithdrawals
      && SameTerms(c, r.state) && SameSchedule(c, r.state)
  {
    if PhaseOf(c, now) == Closed then Failure(CampaignClosed)
    else
      var funds := c.collectedFunds[donor := Get(c.collectedFunds, donor) + value];
      TotalUpdate(c.collectedFunds, donor, Get(c.collectedFunds, donor) + value);
      Success(c.(collectedAmount := c.collectedAmount + value, collectedFunds := funds), 0)
  }

  /** A donor's request to take back their pledge: the donor's whole unfrozen
      pledge leaves the redeemable pool and is frozen for them, and their
      eligibility time is fixed relative to the campaign's creation. */
  function ScheduleWithdrawal(c: Campaign, donor: Address, now: nat): (r: Outcome)
    requires Consistent(c)
    ensures r.Failure? <==> PhaseOf(c, now) == Closed
    ensures r.Failure? ==> r.error == CampaignClosed
    ensures r.Success? ==> Consistent(r.state)
    ensures r.Success? ==>
      && r.payout == 0
      && r.state.frozenAmount == c.frozenAmount + Get(c.collectedFunds, donor)
      && r.state.collectedAmount + Get(c.collectedFunds, donor) == c.collectedAmount
      && Get(r.state.collectedFunds, donor) == 0
      && Get(r.state.frozenFunds, donor) == Get(c.frozenFunds, donor) + Get(c.collectedFunds, donor)
      && donor in r.state.scheduledWithdrawals
      && r.state.scheduledWithdrawals[donor] == c.creationTimestamp + WITHDRAWAL_DELAY
      && OthersUntouched(c, r.state, donor)
      && SameTerms(c, r.state) && SameSchedule(c, r.state)
  {
    if PhaseOf(c, now) == Closed then Failure(CampaignClosed)
    else
      var share := Get(c.collectedFunds, donor);
      EntryWithinTotal(c.collectedFunds, donor);
      TotalUpdate(c.collectedFunds, donor, 0);
      TotalUpdate(c.frozenFunds, donor, Get(c.frozenFunds, donor) + share);
      Success(Freeze(c, donor), 0)
  }

  /** An accepted withdrawal request leaves the campaign as Freeze does. */
  lemma ScheduleWithdrawalFreezes(c: Campaign, donor: Address, now: nat)
    requires Consistent(c)
    requires PhaseOf(c, now) != Closed
    ensures Get(c.collectedFunds, donor) <= c.collectedAmount
    ensures ScheduleWithdrawal(c, donor, now) == Success(Freeze(c, donor), 0)
  {
    EntryWithinTotal(c.collectedFunds, donor);
  }

  /** The ledger once donor's whole unfrozen pledge is frozen for them. */
  function Freeze(c: Campaign, donor: Address): Campaign
    requires Get(c.collectedFunds, donor) <= c.collectedAmount
  {
    var share := Get(c.collectedFunds, donor);
    c.(collectedAmount := c.collectedAmount - share,
       frozenAmount := c.frozenAmount + share,
       collectedFunds := c.collectedFunds[donor := 0],
       frozenFunds := c.frozenFunds[donor := Get(c.frozenFunds, donor) + share],
       scheduledWithdrawals := c.scheduledWithdrawals[donor := c.creationTimestamp + WITHDRAWAL_DELAY])
  }

  /** A donor's withdrawal of their frozen share, gated by their scheduled
      time and not by the campaign's phase. */
  function Withdraw(c: Campaign, donor: Address, now: nat): (r: Outcome)
    requires Consistent(c)
    ensures r.Success? <==>
      donor in c.scheduledWithdrawals && c.scheduledWithdrawals[donor] <= now && Get(c.frozenFunds, donor) > 0
    ensures r.Failure? && r.error == TooEarly <==>
      donor !in c.scheduledWithdrawals || now < c.scheduledWithdrawals[donor]
    ensures r.Failure? && r.error == AlreadyWithdrawn <==>
      donor in c.scheduledWithdrawals && c.scheduledWithdrawals[donor] <= now && Get(c.frozenFunds, donor) == 0
    ensures r.Success? ==> Consistent(r.state)
    ensures r.Success? ==>
      && r.payout == Get(c.frozenFunds, donor)
      && r.state.frozenAmount + r.payout == c.frozenAmount
      && Get(r.state.frozenFunds, donor) == 0
      && OthersUntouched(c, r.state, donor)
      && r.state.collectedAmount == c.collectedAmount
      && r.state.collectedFunds == c.collectedFunds
      && r.state.scheduledWithdrawals == c.scheduledWithdrawals
      && SameTerms(c, r.state) && SameSchedule(c, r.state)
  {
    if donor !in c.scheduledWithdrawals || now < c.scheduledWithdrawals[donor] then Failure(TooEarly)
    else if Get(c.frozenFunds, donor) == 0 then Failure(AlreadyWithdrawn)
    else
      var share := Get(c.frozenFunds, donor);
      EntryWithinTotal(c.frozenFunds, donor);
      TotalUpdate(c.frozenFunds, donor, 0);
      Success(c.(frozenAmount := c.frozenAmount - share, frozenFunds := c.frozenFunds[donor := 0]), share)
  }

  /** The beneficiary's one-time reschedule of closure to four weeks after
      the call. */
  function Close(c: Campaign, caller: Address, now: nat): (r: Outcome)
    ensures r.Success? <==>
      caller == c.beneficiary && !c.rescheduledClosure && PhaseOf(c, now) != Closed
    ensures r.Failure? && r.error == Unauthorized <==> caller != c.beneficiary
    ensures r.Failure? && r.error == AlreadyRescheduled <==>
      caller == c.beneficiary && c.rescheduledClosure
    ensures r.Failure? && r.error == CampaignClosed <==>
      caller == c.beneficiary && !c.rescheduledClosure && PhaseOf(c, now) == Closed
    ensures r.Success? ==> Consistent(c) ==> Consistent(r.state)
    ensures r.Success? ==>
      && r.payout == 0
      && r.state.closureTimestamp == now + CLOSURE_DELAY
      && r.state.rescheduledClosure
      && PhaseOf(r.state, now) == ScheduledForClosure
      && r.state.redeemed == c.redeemed
      && SameTerms(c, r.state) && SameLedger(c, r.state)
  {
    if caller != c.beneficiary then Failure(Unauthorized)
    else if c.rescheduledClosure then Failure(AlreadyRescheduled)
    else if PhaseOf(c, now) == Closed then Failure(CampaignClosed)
    else Success(c.(closureTimestamp := now + CLOSURE_DELAY, rescheduledClosure := true), 0)
  }

  /** The beneficiary's one-time payout of the redeemable pool, which
      excludes every frozen share. */
  function RedeemFunds(c: Campaign, caller: Address, now: nat): (r: Outcome)
    ensures r.Success? <==>
      caller == c.beneficiary && !c.redeemed && PhaseOf(c, now) == Closed
    ensures r.Failure? && r.error == Unauthorized <==> caller != c.beneficiary
    ensures r.Failure? && r.error == AlreadyRedeemed <==> caller == c.beneficiary && c.redeemed
    ensures r.Failure? && r.error == NotYetClosed <==>
      caller == c.beneficiary && !c.redeemed && PhaseOf(c, now) != Closed
    ensures r.Success? ==> Consistent(c) ==> Consistent(r.state)
    ensures r.Success? ==>
      && r.payout == c.collectedAmount
      && r.state.redeemed
      && Escrow(r.state) == c.frozenAmount
      && r.state.closureTimestamp == c.closureTimestamp
      && r.state.rescheduledClosure == c.rescheduledClosure
      && SameTerms(c, r.state) && SameLedger(c, r.state)
  {
    if caller != c.beneficiary then Failure(Unauthorized)
    else if c.redeemed then Failure(AlreadyRedeemed)
    else if PhaseOf(c, now) != Closed then Failure(NotYetClosed)
    else Success(c.(redeemed := true), c.collectedAmount)
  }

  /** A public call, for reasoning about sequences of calls. */
  datatype Op =
    | Donation(donor: Address, value: nat)
    | Scheduling(donor: Address)
    | Withdrawal(donor: Address)
    | Closing(caller: Address)
    | Redemption(caller: Address)

  datatype Call = Call(op: Op, now: nat)

  function Step(c: Campaign, call: Call): (r: Outcome)
    requires Consistent(c)
    ensures r.Success? ==> Consistent(r.state)
  {
    match call.op
    case Donation(d, v) => Donate(c, d, v, call.now)
    case Scheduling(d) => ScheduleWithdrawal(c, d, call.now)
    case Withdrawal(d) => Withdraw(c, d, call.now)
    case Closing(a) => Close(c, a, call.now)
    case Redemption(a) => RedeemFunds(c, a, call.now)
  }

  /** The campaign after a sequence of calls, each applied to the state the
      previous ones left; failed calls leave it as it was. */
  function Run(c: Campaign, calls: seq<Call>): (r: Campaign)
    requires Consistent(c)
    ensures Consistent(r)
    ensures r.creationTimestamp == c.creationTimestamp && r.beneficiary == c.beneficiary
    decreases |calls|
  {
    if calls == [] then c
    else Run(StateAfter(c, Step(c, calls[0])), calls[1..])
  }

  /** What a successful call pays in. */
  function Deposit(c: Campaign, call: Call): nat
    requires Consistent(c)
  {
    if Step(c, call).Success? && call.op.Donation? then call.op.value else 0
  }

  /** The sum of the values of the donations that succeeded along a run. */
  function Deposited(c: Campaign, calls: seq<Call>): nat
    requires Consistent(c)
    decreases |calls|
  {
    if calls == [] then 0
    else
      var o := Step(c, calls[0]);
      Deposit(c, calls[0]) + Deposited(StateAfter(c, o), calls[1..])
  }

  /** The sum of the payouts of the calls that succeeded along a run. */
  function PaidOut(c: Campaign, calls: seq<Call>): nat
    requires Consistent(c)
    decreases |calls|
  {
    if calls == [] then 0
    else
      var o := Step(c, calls[0]);
      (if o.Success? then o.payout else 0) + PaidOut(StateAfter(c, o), calls[1..])
  }

  /** How many calls along a run succeeded with an operation that counted selects. */
  function Successes(c: Campaign, calls: seq<Call>, counted: Op -> bool): nat
    requires Consistent(c)
    decreases |calls|
  {
    if calls == [] then 0
    else
      var o := Step(c, calls[0]);
      (if o.Success? && counted(calls[0].op) then 1 else 0) + Successes(StateAfter(c, o), calls[1..], counted)
  }

  /** Calls are made at non-decreasing times, none of them before t. */
  ghost predicate Chronological(calls: seq<Call>, t: nat)
  {
    && (forall i :: 0 <= i < |calls| ==> t <= calls[i].now)
    && (forall i, j :: 0 <= i < j < |calls| ==> calls[i].now <= calls[j].now)
  }
}
