/** Properties of the campaign that relate several calls: conservation of
    funds along any run, the two one-shot transitions, the finality of
    closure and the withdrawal delay. */
module LifecycleProperties {
  import opened Ledger
  import opened Lifecycle

  predicate IsRedemption(op: Op) { op.Redemption? }
  predicate IsClosing(op: Op) { op.Closing? }

  /** One call neither creates nor loses funds: what the contract holds
      afterwards plus what it paid out is what it held before plus what was
      paid in. Once the pool has been redeemed, later calls come at or after
      closure, and they keep it so. */
  lemma StepConservesFunds(c: Campaign, call: Call)
    requires Consistent(c)
    requires c.redeemed ==> c.closureTimestamp <= call.now
    ensures var o := Step(c, call);
      o.Success? ==>
        && Escrow(o.state) + o.payout == Escrow(c) + Deposit(c, call)
        && (o.state.redeemed ==> o.state.closureTimestamp <= call.now)
  {
  }

  /** Conservation along any run of calls made in time order: the funds
      held at the end plus everything paid out equal the funds held at the
      start plus every successful donation. */
  lemma {:induction false} RunConservesFunds(c: Campaign, calls: seq<Call>, t: nat)
    requires Consistent(c)
    requires Chronological(calls, t)
    requires c.redeemed ==> c.closureTimestamp <= t
    ensures Escrow(Run(c, calls)) + PaidOut(c, calls) == Escrow(c) + Deposited(c, calls)
    decreases |calls|
  {
    if calls != [] {
      var o := Step(c, calls[0]);
      StepConservesFunds(c, calls[0]);
      var next := StateAfter(c, o);
      assert Chronological(calls[1..], calls[0].now);
      RunConservesFunds(next, calls[1..], calls[0].now);
    }
  }

  /** For a freshly deployed campaign: whatever calls follow, the funds
      still held plus the funds paid out equal the funds donated. */
  lemma CampaignConservesFunds(beneficiary: Address, targetAmount: nat, duration: nat, start: nat, calls: seq<Call>)
    requires Chronological(calls, start)
    ensures var c := Create(beneficiary, targetAmount, duration, start);
      Escrow(Run(c, calls)) + PaidOut(c, calls) == Deposited(c, calls)
  {
    RunConservesFunds(Create(beneficiary, targetAmount, duration, start), calls, start);
  }

  /** Redemption is one-shot: along any run, the number of successful
      redemptions plus one if the pool was already redeemed is one exactly
      when it is redeemed at the end. In particular at most one redemption
      ever succeeds, and none once the pool has been redeemed. */
  lemma {:induction false} RedemptionIsOneShot(c: Campaign, calls: seq<Call>)
    requires Consistent(c)
    ensures Successes(c, calls, IsRedemption) + (if c.redeemed then 1 else 0) ==
            (if Run(c, calls).redeemed then 1 else 0)
    decreases |calls|
  {
    if calls != [] {
      var o := Step(c, calls[0]);
      assert o.Success? ==> (o.state.redeemed <==> c.redeemed || calls[0].op.Redemption?);
      RedemptionIsOneShot(StateAfter(c, o), calls[1..]);
    }
  }

  /** Rescheduling the closure is one-shot in the same sense. */
  lemma {:induction false} RescheduleIsOneShot(c: Campaign, calls: seq<Call>)
    requires Consistent(c)
    ensures Successes(c, calls, IsClosing) + (if c.rescheduledClosure then 1 else 0) ==
            (if Run(c, calls).rescheduledClosure then 1 else 0)
    decreases |calls|
  {
    if calls != [] {
      var o := Step(c, calls[0]);
      assert o.Success? ==>
        (o.state.rescheduledClosure <==> c.rescheduledClosure || calls[0].op.Closing?);
      RescheduleIsOneShot(StateAfter(c, o), calls[1..]);
    }
  }

  /** A deployed campaign is closed or redeemed at most once whatever is called. */
  lemma AtMostOnce(beneficiary: Address, targetAmount: nat, duration: nat, start: nat, calls: seq<Call>)
    ensures var c := Create(beneficiary, targetAmount, duration, start);
      Successes(c, calls, IsRedemption) <= 1 && Successes(c, calls, IsClosing) <= 1
  {
    var c := Create(beneficiary, targetAmount, duration, start);
    RedemptionIsOneShot(c, calls);
    RescheduleIsOneShot(c, calls);
  }

  /** At or after closure no donation, scheduling or close succeeds, for any
      caller, and no successful call moves the closure or changes the
      recorded pool or any donor's unfrozen pledge; a redemption pays the
      pool out without changing its recorded amount. */
  lemma ClosedIsFinal(c: Campaign, call: Call)
    requires Consistent(c)
    requires PhaseOf(c, call.now) == Closed
    ensures call.op.Donation? || call.op.Scheduling? ==> Step(c, call) == Failure(CampaignClosed)
    ensures call.op.Closing? ==> Step(c, call).Failure?
    ensures var o := Step(c, call);
      o.Success? ==>
        && o.state.closureTimestamp == c.closureTimestamp
        && o.state.collectedAmount == c.collectedAmount
        && o.state.collectedFunds == c.collectedFunds
  {
  }

  /** Closure is permanent: along a run of calls made at or after closure,
      nothing is donated, the closure time stays, and the redeemable pool and
      every donor's unfrozen pledge stay as they were. */
  lemma {:induction false} ClosedRunIsFinal(c: Campaign, calls: seq<Call>)
    requires Consistent(c)
    requires Chronological(calls, c.closureTimestamp)
    ensures Deposited(c, calls) == 0
    ensures Run(c, calls).closureTimestamp == c.closureTimestamp
    ensures Run(c, calls).collectedAmount == c.collectedAmount
    ensures Run(c, calls).collectedFunds == c.collectedFunds
    decreases |calls|
  {
    if calls != [] {
      ClosedIsFinal(c, calls[0]);
      var next := StateAfter(c, Step(c, calls[0]));
      assert Chronological(calls[1..], next.closureTimestamp);
      ClosedRunIsFinal(next, calls[1..]);
    }
  }

  /** The withdrawal delay counts from the campaign's creation: a donor who
      has scheduled, at whatever time, is refused as too early exactly
      before two weeks after creation. */
  lemma WithdrawalDelay(c: Campaign, donor: Address, now: nat)
    requires Consistent(c)
    requires donor in c.scheduledWithdrawals
    ensures var o := Withdraw(c, donor, now);
      o == Failure(TooEarly) <==> now < c.creationTimestamp + WITHDRAWAL_DELAY
  {
  }

  /** A donor who schedules a withdrawal at any time t while the campaign
      accepts it can take back all they pledged, exactly, from two weeks
      after creation on, whatever the phase of the campaign then, and not
      before. */
  lemma ScheduledPledgeComesBack(c: Campaign, donor: Address, t: nat, now: nat)
    requires Consistent(c)
    requires PhaseOf(c, t) != Closed
    requires Get(c.frozenFunds, donor) + Get(c.collectedFunds, donor) > 0
    ensures ScheduleWithdrawal(c, donor, t).Success?
    ensures var o := Withdraw(ScheduleWithdrawal(c, donor, t).state, donor, now);
      && (now < c.creationTimestamp + WITHDRAWAL_DELAY ==> o == Failure(TooEarly))
      && (now >= c.creationTimestamp + WITHDRAWAL_DELAY ==>
            o.Success? && o.payout == Get(c.frozenFunds, donor) + Get(c.collectedFunds, donor))
  {
  }

  /** No frozen share is ever stuck: from two weeks after creation on, a
      donor holding one can withdraw exactly that share, and the beneficiary's
      redemption, before or after, neither takes it nor blocks it. */
  lemma FrozenShareIsReleasable(c: Campaign, donor: Address, now: nat)
    requires Consistent(c)
    requires Get(c.frozenFunds, donor) > 0
    requires now >= c.creationTimestamp + WITHDRAWAL_DELAY
    ensures var o := Withdraw(c, donor, now);
      o.Success? && o.payout == Get(c.frozenFunds, donor)
    ensures var r := RedeemFunds(c, c.beneficiary, now);
      r.Success? ==>
        && r.payout + c.frozenAmount == Escrow(c)
        && Withdraw(r.state, donor, now).Success?
        && Withdraw(r.state, donor, now).payout == Get(c.frozenFunds, donor)
  {
  }

  /** The call is made by donor on their own frozen share. */
  predicate ActsOnShareOf(op: Op, donor: Address)
  {
    (op.Scheduling? || op.Withdrawal?) && op.donor == donor
  }

  /** A donor's escrow cannot be touched by other accounts: along any run in
      which the donor neither schedules nor withdraws, their frozen share and
      their eligibility time stay exactly as they were. */
  lemma {:induction false} FrozenShareOnlyMovesByOwnCalls(c: Campaign, calls: seq<Call>, donor: Address)
    requires Consistent(c)
    requires forall i :: 0 <= i < |calls| ==> !ActsOnShareOf(calls[i].op, donor)
    ensures Get(Run(c, calls).frozenFunds, donor) == Get(c.frozenFunds, donor)
    ensures donor in Run(c, calls).scheduledWithdrawals <==> donor in c.scheduledWithdrawals
    ensures donor in c.scheduledWithdrawals ==>
      Run(c, calls).scheduledWithdrawals[donor] == c.scheduledWithdrawals[donor]
    decreases |calls|
  {
    if calls != [] {
      var next := StateAfter(c, Step(c, calls[0]));
      assert Get(next.frozenFunds, donor) == Get(c.frozenFunds, donor);
      assert donor in next.scheduledWithdrawals <==> donor in c.scheduledWithdrawals;
      assert donor in c.scheduledWithdrawals ==>
        next.scheduledWithdrawals[donor] == c.scheduledWithdrawals[donor];
      FrozenShareOnlyMovesByOwnCalls(next, calls[1..], donor);
    }
  }

  /** The closure never precedes the creation: along any run of calls made
      in time order, none of them before creation, a campaign that closes no
      earlier than it was created keeps doing so. */
  lemma {:induction false} ClosureNeverBeforeCreation(c: Campaign, calls: seq<Call>, t: nat)
    requires Consistent(c)
    requires c.creationTimestamp <= c.closureTimestamp
    requires c.creationTimestamp <= t
    requires Chronological(calls, t)
    ensures Run(c, calls).creationTimestamp <= Run(c, calls).closureTimestamp
    decreases |calls|
  {
    if calls != [] {
      var next := StateAfter(c, Step(c, calls[0]));
      assert next.creationTimestamp <= next.closureTimestamp;
      assert Chronological(calls[1..], calls[0].now);
      ClosureNeverBeforeCreation(next, calls[1..], calls[0].now);
    }
  }

  /** For a deployed campaign the closure never precedes the creation,
      whatever calls follow in time order. */
  lemma DeployedClosureNeverBeforeCreation(beneficiary: Address, targetAmount: nat, duration: nat, start: nat, calls: seq<Call>)
    requires Chronological(calls, start)
    ensures var r := Run(Create(beneficiary, targetAmount, duration, start), calls);
      r.creationTimestamp <= r.closureTimestamp
  {
    ClosureNeverBeforeCreation(Create(beneficiary, targetAmount, duration, start), calls, start);
  }
}
