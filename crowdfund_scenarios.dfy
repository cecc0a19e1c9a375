/** The three campaigns the contract's behaviour is pinned down by, written
    as clients of the Crowdfund class: an open campaign, one scheduled for
    closure, and one past its closure. Each starts at an arbitrary time t0
    and states the values a caller reads back. */
module CrowdfundScenarios {
  import opened Ledger
  import opened Lifecycle
  import opened CrowdfundContract

  const CAMPAIGN_DURATION: nat := 10 * 24 * 60 * 60
  const TARGET_AMOUNT: nat := 1000

  /** A donor's withdrawal request on a campaign where that donor's pledge
      is the whole redeemable pool and nothing is frozen yet: the pledge is
      frozen in full and the pool empties; the donor may withdraw two weeks
      after the campaign's creation. */
  method FreezeAfterScheduleWithdrawal(cf: Crowdfund, donor: Address, now: nat)
    requires cf.Valid()
    requires now < cf.closureTimestamp
    requires cf.frozenAmount == 0 && cf.collectedAmount == Get(cf.collectedFunds, donor)
    modifies cf
    ensures cf.Valid()
    ensures cf.frozenAmount == old(Get(cf.collectedFunds, donor))
    ensures cf.collectedAmount == 0
    ensures donor in cf.scheduledWithdrawals
    ensures cf.scheduledWithdrawals[donor] == cf.creationTimestamp + WITHDRAWAL_DELAY
    ensures cf.closureTimestamp == old(cf.closureTimestamp)
    ensures cf.rescheduledClosure == old(cf.rescheduledClosure) && cf.redeemed == old(cf.redeemed)
  {
    var r := cf.ScheduleWithdrawal(donor, now);
    assert r == Accepted(0);
  }

  /** Deploy, donate 100, freeze it, fail to withdraw early, then close one
      hour after deployment. */
  method OpenCampaign(t0: nat, beneficiary: Address, donor: Address)
    returns (donated: nat, frozen: nat, early: Receipt, closure: nat)
    ensures donated == 100 && frozen == 100
    ensures early == Rejected(TooEarly)
    ensures closure == t0 + 60 * 60 + CLOSURE_DELAY && closure > t0 + CAMPAIGN_DURATION
  {
    var cf := new Crowdfund(beneficiary, TARGET_AMOUNT, CAMPAIGN_DURATION, t0);
    assert cf.collectedAmount == 0 && cf.targetAmount == TARGET_AMOUNT;
    assert !cf.rescheduledClosure && cf.closureTimestamp == t0 + CAMPAIGN_DURATION;

    var r := cf.Donate(donor, 100, t0);
    assert r == Accepted(0) && Get(cf.collectedFunds, donor) == 100;
    donated := cf.collectedAmount;

    FreezeAfterScheduleWithdrawal(cf, donor, t0);
    frozen := cf.frozenAmount;

    early := cf.Withdraw(donor, t0);

    r := cf.Close(beneficiary, t0 + 60 * 60);
    assert r == Accepted(0) && cf.rescheduledClosure;
    closure := cf.closureTimestamp;
  }

  /** Deploy and close at once, donate 42 in the window that opens, freeze
      it, and fail to close a second time. */
  method ScheduledForClosureCampaign(t0: nat, beneficiary: Address, donor: Address)
    returns (donated: nat, frozen: nat, secondClose: Receipt)
    ensures donated == 42 && frozen == 42
    ensures secondClose == Rejected(AlreadyRescheduled)
  {
    var cf := new Crowdfund(beneficiary, TARGET_AMOUNT, CAMPAIGN_DURATION, t0);
    var r := cf.Close(beneficiary, t0);
    assert r == Accepted(0);
    assert PhaseOf(cf.Snapshot(), t0) == ScheduledForClosure;

    r := cf.Donate(donor, 42, t0);
    assert r == Accepted(0) && Get(cf.collectedFunds, donor) == 42;
    donated := cf.collectedAmount;

    FreezeAfterScheduleWithdrawal(cf, donor, t0);
    frozen := cf.frozenAmount;

    secondClose := cf.Close(beneficiary, t0);
  }

  /** Deploy and close at once, then two donors give 42 and 66 in the
      window that opens. */
  method PledgeToClosingCampaign(t0: nat, beneficiary: Address, first: Address, second: Address)
    returns (cf: Crowdfund)
    requires first != second
    ensures fresh(cf) && cf.Valid()
    ensures cf.beneficiary == beneficiary && !cf.redeemed
    ensures cf.closureTimestamp == t0 + CLOSURE_DELAY && cf.rescheduledClosure
    ensures cf.creationTimestamp == t0
    ensures cf.collectedAmount == 108 && cf.frozenAmount == 0
    ensures Get(cf.collectedFunds, second) == 66 && Get(cf.frozenFunds, second) == 0
  {
    cf := new Crowdfund(beneficiary, TARGET_AMOUNT, CAMPAIGN_DURATION, t0);
    var r := cf.Close(beneficiary, t0);
    assert cf.closureTimestamp == t0 + CLOSURE_DELAY && cf.collectedAmount == 0;
    r := cf.Donate(first, 42, t0);
    assert cf.collectedAmount == 42 && Get(cf.collectedFunds, second) == 0;
    r := cf.Donate(second, 66, t0);
  }

  /** The campaign above once the second donor has frozen their pledge: 42
      is left to redeem and 66 is frozen. */
  method FundScheduledCampaign(t0: nat, beneficiary: Address, first: Address, second: Address)
    returns (cf: Crowdfund)
    requires first != second
    ensures fresh(cf) && cf.Valid()
    ensures cf.beneficiary == beneficiary && !cf.redeemed
    ensures cf.closureTimestamp == t0 + CLOSURE_DELAY && cf.rescheduledClosure
    ensures cf.collectedAmount == 42 && cf.frozenAmount == 66
    ensures Get(cf.frozenFunds, second) == 66
    ensures second in cf.scheduledWithdrawals
    ensures cf.scheduledWithdrawals[second] == t0 + WITHDRAWAL_DELAY
  {
    cf := PledgeToClosingCampaign(t0, beneficiary, first, second);
    var r := cf.ScheduleWithdrawal(second, t0);
  }

  /** On the campaign above, ten seconds after closure the beneficiary
      redeems the 42 once, the second donor withdraws the 66, and the
      campaign refuses further donations and withdrawal requests. */
  method ClosedCampaign(t0: nat, beneficiary: Address, first: Address, second: Address)
    returns (redeemed: nat, secondRedeem: Receipt, withdrawn: nat, frozenLeft: nat,
             lateDonation: Receipt, lateScheduling: Receipt)
    requires first != second
    ensures redeemed == 42 && secondRedeem == Rejected(AlreadyRedeemed)
    ensures withdrawn == 66 && frozenLeft == 0
    ensures redeemed + withdrawn == 42 + 66
    ensures lateDonation == Rejected(CampaignClosed) && lateScheduling == Rejected(CampaignClosed)
  {
    var cf := FundScheduledCampaign(t0, beneficiary, first, second);
    var now := cf.closureTimestamp + 10;

    var r := cf.RedeemFunds(beneficiary, now);
    redeemed := r.paid;
    secondRedeem := cf.RedeemFunds(beneficiary, now);

    r := cf.Withdraw(second, now);
    withdrawn := r.paid;
    frozenLeft := cf.frozenAmount;

    lateDonation := cf.Donate(second, 66, now);
    lateScheduling := cf.ScheduleWithdrawal(first, now);
  }
}
