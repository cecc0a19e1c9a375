/** The deployed campaign as an object whose calls update its fields in
    place. Every method is specified by the corresponding function of
    Lifecycle applied to the state before the call, so all the properties
    proved there hold of the object; the current time of each call is an
    explicit parameter. */
module CrowdfundContract {
  import opened Ledger
  import L = Lifecycle

  class Crowdfund {
    const beneficiary: Address
    const targetAmount: nat
    const creationTimestamp: nat
    var closureTimestamp: nat
    var rescheduledClosure: bool
    var redeemed: bool
    var collectedAmount: nat
    var frozenAmount: nat
    var collectedFunds: map<Address, nat>
    var frozenFunds: map<Address, nat>
    var scheduledWithdrawals: map<Address, nat>

    /** The object's fields as a campaign value. */
    function Snapshot(): L.Campaign
      reads this
    {
      L.Campaign(beneficiary, targetAmount, creationTimestamp, closureTimestamp,
                 rescheduledClosure, redeemed, collectedAmount, frozenAmount,
                 collectedFunds, frozenFunds, scheduledWithdrawals)
    }

    ghost predicate Valid()
      reads this
    {
      L.Consistent(Snapshot())
    }

    /** Deployment by the beneficiary at time now, open for duration seconds. */
    constructor (beneficiary: Address, targetAmount: nat, duration: nat, now: nat)
      ensures Valid()
      ensures Snapshot() == L.Create(beneficiary, targetAmount, duration, now)
    {
      this.beneficiary := beneficiary;
      this.targetAmount := targetAmount;
      creationTimestamp := now;
      closureTimestamp := now + duration;
      rescheduledClosure := false;
      redeemed := false;
      collectedAmount := 0;
      frozenAmount := 0;
      collectedFunds := map[];
      frozenFunds := map[];
      scheduledWithdrawals := map[];
    }

    method Donate(donor: Address, value: nat, now: nat) returns (r: L.Receipt)
      requires Valid()
      modifies this
      ensures Valid()
      ensures r == L.ReceiptOf(L.Donate(old(Snapshot()), donor, value, now))
      ensures Snapshot() == L.StateAfter(old(Snapshot()), L.Donate(old(Snapshot()), donor, value, now))
      ensures r.Rejected? ==> unchanged(this)
    {
      ghost var before := Snapshot();
      if L.PhaseAt(now, closureTimestamp, rescheduledClosure) == L.Closed {
        return L.Rejected(L.CampaignClosed);
      }
      collectedFunds := collectedFunds[donor := Get(collectedFunds, donor) + value];
      collectedAmount := collectedAmount + value;
      assert Snapshot() == L.Donate(before, donor, value, now).state;
      r := L.Accepted(0);
    }

    method ScheduleWithdrawal(donor: Address, now: nat) returns (r: L.Receipt)
      requires Valid()
      modifies this
      ensures Valid()
      ensures r == L.ReceiptOf(L.ScheduleWithdrawal(old(Snapshot()), donor, now))
      ensures Snapshot() == L.StateAfter(old(Snapshot()), L.ScheduleWithdrawal(old(Snapshot()), donor, now))
      ensures r.Rejected? ==> unchanged(this)
    {
      if L.PhaseAt(now, closureTimestamp, rescheduledClosure) == L.Closed {
        return L.Rejected(L.CampaignClosed);
      }
      ghost var before := Snapshot();
      var share := Get(collectedFunds, donor);
      EntryWithinTotal(collectedFunds, donor);
      collectedAmount, frozenAmount, collectedFunds, frozenFunds, scheduledWithdrawals :=
        collectedAmount - share, frozenAmount + share, collectedFunds[donor := 0],
        frozenFunds[donor := Get(frozenFunds, donor) + share],
        scheduledWithdrawals[donor := creationTimestamp + L.WITHDRAWAL_DELAY];
      assert Snapshot() == L.Freeze(before, donor);
      L.ScheduleWithdrawalFreezes(before, donor, now);
      r := L.Accepted(0);
    }

    method Withdraw(donor: Address, now: nat) returns (r: L.Receipt)
      requires Valid()
      modifies this
      ensures Valid()
      ensures r == L.ReceiptOf(L.Withdraw(old(Snapshot()), donor, now))
      ensures Snapshot() == L.StateAfter(old(Snapshot()), L.Withdraw(old(Snapshot()), donor, now))
      ensures r.Rejected? ==> unchanged(this)
    {
      ghost var before := Snapshot();
      if donor !in scheduledWithdrawals || now < scheduledWithdrawals[donor] {
        return L.Rejected(L.TooEarly);
      }
      var share := Get(frozenFunds, donor);
      if share == 0 {
        return L.Rejected(L.AlreadyWithdrawn);
      }
      EntryWithinTotal(frozenFunds, donor);
      frozenFunds := frozenFunds[donor := 0];
      frozenAmount := frozenAmount - share;
      assert Snapshot() == L.Withdraw(before, donor, now).state;
      r := L.Accepted(share);
    }

    method Close(caller: Address, now: nat) returns (r: L.Receipt)
      requires Valid()
      modifies this
      ensures Valid()
      ensures r == L.ReceiptOf(L.Close(old(Snapshot()), caller, now))
      ensures Snapshot() == L.StateAfter(old(Snapshot()), L.Close(old(Snapshot()), caller, now))
      ensures r.Rejected? ==> unchanged(this)
    {
      if caller != beneficiary {
        return L.Rejected(L.Unauthorized);
      }
      if rescheduledClosure {
        return L.Rejected(L.AlreadyRescheduled);
      }
      if L.PhaseAt(now, closureTimestamp, rescheduledClosure) == L.Closed {
        return L.Rejected(L.CampaignClosed);
      }
      closureTimestamp := now + L.CLOSURE_DELAY;
      rescheduledClosure := true;
      r := L.Accepted(0);
    }

    method RedeemFunds(caller: Address, now: nat) returns (r: L.Receipt)
      requires Valid()
      modifies this
      ensures Valid()
      ensures r == L.ReceiptOf(L.RedeemFunds(old(Snapshot()), caller, now))
      ensures Snapshot() == L.StateAfter(old(Snapshot()), L.RedeemFunds(old(Snapshot()), caller, now))
      ensures r.Rejected? ==> unchanged(this)
    {
      if caller != beneficiary {
        return L.Rejected(L.Unauthorized);
      }
      if redeemed {
        return L.Rejected(L.AlreadyRedeemed);
      }
      if L.PhaseAt(now, closureTimestamp, rescheduledClosure) != L.Closed {
        return L.Rejected(L.NotYetClosed);
      }
      redeemed := true;
      r := L.Accepted(collectedAmount);
    }
  }
}
