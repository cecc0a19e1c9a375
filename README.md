# Crowdfund campaign ledger and lifecycle

A Dafny model of the `Crowdfund` contract of the crowdfunding dapp: a
time-boxed fundraising campaign for one beneficiary. Donors pledge funds
while the campaign is open. A donor may ask for a pledge back: it is frozen
out of the redeemable pool and paid back once the withdrawal delay has
passed. The beneficiary may reschedule the closure once, to four weeks after
the call. After closure the beneficiary redeems the unfrozen pool once.

The contract's own source is not part of this model. Its behaviour is fixed by
the test suite `test/Crowdfund.test.js`, which drives a `CrowdfundMock`
deployment through three campaigns (open, scheduled for closure, closed). The
model does what those assertions fix. Where the tests leave a behaviour open,
the model makes a choice; each choice is listed under "Assumptions" below.

The constants come from `test/Crowdfund.test.js:3-5`:

- a campaign duration of 10 days (used by the scenarios);
- a withdrawal delay of 2 weeks, counted from the campaign's creation
  (`Lifecycle.WITHDRAWAL_DELAY`);
- a closure delay of 4 weeks, counted from the call to `close`
  (`Lifecycle.CLOSURE_DELAY`).

Layout:

- `ledger.dfy`, module `Ledger`: account identities and per-donor mappings
  that read as zero when unset. `Total` is the sum of a mapping. Lemmas say
  how that sum changes when one entry is overwritten.
- `lifecycle.dfy`, module `Lifecycle`: the campaign as a value (`Campaign`).
  - The phase is derived from the clock (`PhaseAt`, `PhaseOf`) and never stored.
  - The ledger invariant is `Consistent`: each aggregate is the sum of its
    per-donor mapping.
  - Each public operation is a function from the state before the call to a
    `Success(state, payout)` or a `Failure(error)`. A failed call leaves the
    state as it was.
  - `Step`, `Run`, `Deposited`, `PaidOut` and `Successes` follow a sequence
    of timed calls.
- `lifecycle_properties.dfy`, module `LifecycleProperties`: properties that
  relate several calls. These are conservation of funds, one-shot redemption
  and rescheduling, finality of closure, and the withdrawal delay.
- `crowdfund.dfy`, module `CrowdfundContract`: the deployed contract as a
  class `Crowdfund`.
  - Its fields are the contract's state variables.
  - Its methods update them in place.
  - Each method is specified by the matching `Lifecycle` function applied to
    the state before the call, and keeps `Valid()`.
- `crowdfund_scenarios.dfy`, module `CrowdfundScenarios`: the three test
  campaigns and their freeze helper, written as clients of the class. Each
  starts at an arbitrary deployment time `t0`.

The time of every call is an explicit `now` parameter. The test-only
`setTime` override becomes the choice of `now`.

Assumptions, for behaviour the tests do not exercise:

- A call is closed-gated when `now >= closureTimestamp`. The exact boundary
  is not tested.
- `close` and `redeemFunds` by anyone but the beneficiary fail with
  `Unauthorized`.
- `close` once the campaign is closed fails with `CampaignClosed`. This makes
  closure final.
- `redeemFunds` before closure fails with `NotYetClosed`.
- `redeemFunds` leaves `collectedAmount` as it was and sets the redeemed
  flag.
- Zero-value donations are accepted and change nothing but the mapping entry.
- A zero campaign duration is accepted. Such a campaign is closed from deployment (`Lifecycle.Create` states that it opens exactly when the duration is positive).
- The contract must remember each donor's frozen share to pay it back. The
  model keeps it in a mapping `frozenFunds`.
  - Scheduling moves the donor's whole unfrozen pledge (`collectedFunds`,
    then zeroed) into that share.
  - A second scheduling freezes whatever was pledged since.
- `withdraw` without a scheduled time, or before it, fails with `TooEarly`.
  A `withdraw` with no frozen share left fails with `AlreadyWithdrawn`.
- `targetAmount` is only stored and read back. It gates nothing.

## Model

| member | source | states |
|---|---|---|
| `Lifecycle.Create` | test/Crowdfund.test.js:20-39 | a new campaign has nothing collected, is neither rescheduled nor redeemed, stores the target, and closes `duration` after its creation time; the ledger invariant holds and nothing is held in escrow |
| `Lifecycle.Donate` | test/Crowdfund.test.js:41-51 | a donation fails with `CampaignClosed` exactly when the campaign is closed. Otherwise it raises both `collectedAmount` and the donor's `collectedFunds` by exactly the value and keeps the ledger invariant. Every other donor's entries, the frozen total, every frozen share, every eligibility time, the closure, both flags and the deployment's terms stay as they were |
| `Lifecycle.ScheduleWithdrawal` | test/Crowdfund.test.js:231-257 | scheduling fails with `CampaignClosed` exactly when the campaign is closed. Otherwise it moves the donor's whole unfrozen pledge from `collectedAmount` into `frozenAmount` and into the donor's frozen share, and zeroes the pledge. It fixes the donor's eligibility at creation plus two weeks, whatever the call time. Every other account's pledge, frozen share and eligibility, the closure, both flags and the deployment's terms stay as they were; the ledger invariant is kept |
| `Lifecycle.Withdraw` | test/Crowdfund.test.js:192-201 | a withdrawal succeeds exactly when the donor's scheduled time has come and they hold a frozen share. It fails with `TooEarly` exactly when the donor has no scheduled time or it is still ahead, and with `AlreadyWithdrawn` exactly when the time has come but no share is left. On success it pays the whole frozen share and lowers `frozenAmount` by it. The redeemable pool, every pledge, every eligibility time, every other frozen share, the closure, both flags and the deployment's terms stay as they were; the ledger invariant is kept |
| `Lifecycle.Close` | test/Crowdfund.test.js:69-96 | close succeeds exactly for the beneficiary, before any reschedule, while not closed. It fails with `Unauthorized` exactly for another caller. It fails with `AlreadyRescheduled` exactly on a second close by the beneficiary, and with `CampaignClosed` exactly on a first close once closed. On success closure becomes call time plus four weeks, the flag is set, and the campaign is scheduled for closure at that time. The whole ledger, the redeemed flag and the deployment's terms stay as they were |
| `Lifecycle.RedeemFunds` | test/Crowdfund.test.js:174-190 | redemption succeeds exactly for the beneficiary, once, when closed. It fails with `Unauthorized` exactly for another caller, with `AlreadyRedeemed` exactly on a repeat, and with `NotYetClosed` exactly on a first redemption before closure. It pays exactly `collectedAmount`, which excludes every frozen share, after which only the frozen funds remain held. The ledger, the closure, the reschedule flag and the deployment's terms stay as they were |
| `Lifecycle.Run` | test/Crowdfund.test.js:149-172 | applying any sequence of calls keeps the ledger invariant and never changes the creation time or the beneficiary |
| `LifecycleProperties.StepConservesFunds` | test/Crowdfund.test.js:174-201 | each successful call changes the held funds by exactly the deposit minus the payout; once redeemed, closure stays behind the clock |
| `LifecycleProperties.RunConservesFunds` | test/Crowdfund.test.js:143-201 | along any time-ordered run, funds held at the end plus all payouts equal funds held at the start plus all successful donations |
| `LifecycleProperties.CampaignConservesFunds` | test/Crowdfund.test.js:143-201 | from deployment on, funds still held plus funds paid out equal funds donated, whatever calls follow in time order (42 redeemed + 66 withdrawn = 108 donated) |
| `LifecycleProperties.RedemptionIsOneShot` | test/Crowdfund.test.js:183-190 | along any run, successful redemptions plus the initial redeemed flag equal the final redeemed flag: at most one ever succeeds |
| `LifecycleProperties.RescheduleIsOneShot` | test/Crowdfund.test.js:129-140 | along any run, successful closes plus the initial reschedule flag equal the final flag: at most one ever succeeds |
| `LifecycleProperties.AtMostOnce` | test/Crowdfund.test.js:99-190 | for a deployed campaign, redemption and rescheduling each succeed at most once, whatever is called |
| `LifecycleProperties.ClosedIsFinal` | test/Crowdfund.test.js:203-227 | at or after closure every donation and scheduling fails with `CampaignClosed` for any caller, and no close succeeds. No successful call moves the closure or changes `collectedAmount` or any donor's unfrozen pledge. A redemption still pays the pool out, but the pool's recorded amount stays |
| `LifecycleProperties.ClosedRunIsFinal` | test/Crowdfund.test.js:203-227 | along any run of calls made after closure nothing is deposited, closure does not move, and the pool and every donor's unfrozen pledge stay the same |
| `LifecycleProperties.WithdrawalDelay` | test/Crowdfund.test.js:56-67 | for a donor who has scheduled, withdrawal is refused as too early exactly before creation plus two weeks |
| `LifecycleProperties.ScheduledPledgeComesBack` | test/Crowdfund.test.js:53-67 | a donor who schedules at any time before closure cannot withdraw before creation plus two weeks, and from then on gets back exactly all they pledged |
| `LifecycleProperties.FrozenShareIsReleasable` | test/Crowdfund.test.js:174-201 | from creation plus two weeks a frozen share is paid back exactly; the beneficiary's redemption takes only the unfrozen pool and does not block it |
| `CrowdfundContract.Crowdfund.constructor` | test/Crowdfund.test.js:20-27 | the object's fields are those of `Lifecycle.Create` and satisfy the ledger invariant |
| `CrowdfundContract.Crowdfund.Donate` | test/Crowdfund.test.js:112-124 | updates the fields exactly as `Lifecycle.Donate` and reports its receipt; a refused call changes nothing; the ledger invariant is kept |
| `CrowdfundContract.Crowdfund.ScheduleWithdrawal` | test/Crowdfund.test.js:164-168 | updates the fields exactly as `Lifecycle.ScheduleWithdrawal` and reports its receipt; a refused call changes nothing; the ledger invariant is kept |
| `CrowdfundContract.Crowdfund.Withdraw` | test/Crowdfund.test.js:56-67 | updates the fields exactly as `Lifecycle.Withdraw` and reports the amount paid or the refusal; a refused call changes nothing |
| `CrowdfundContract.Crowdfund.Close` | test/Crowdfund.test.js:129-140 | updates the fields exactly as `Lifecycle.Close`; a refused call changes nothing |
| `CrowdfundContract.Crowdfund.RedeemFunds` | test/Crowdfund.test.js:183-190 | updates the fields exactly as `Lifecycle.RedeemFunds` and reports the amount paid or the refusal; a refused call changes nothing |
| `CrowdfundScenarios.FreezeAfterScheduleWithdrawal` | test/Crowdfund.test.js:231-257 | when a donor's pledge is the whole pool and nothing is frozen, their request freezes exactly that pledge, empties the pool and sets eligibility to creation plus two weeks |
| `CrowdfundScenarios.OpenCampaign` | test/Crowdfund.test.js:17-97 | donating 100 reads back 100, freezing reads back 100, an early withdrawal is refused as too early, and closing one hour in sets closure to that time plus four weeks, later than the original ten days |
| `CrowdfundScenarios.ScheduledForClosureCampaign` | test/Crowdfund.test.js:99-141 | after a close, a donation of 42 is still accepted and frozen in full, and a second close is refused as already rescheduled |
| `CrowdfundScenarios.PledgeToClosingCampaign` | test/Crowdfund.test.js:149-165 | after deploying and closing at once, the two donations of 42 and 66 are accepted in the window that opens: 108 is pledged, nothing is frozen, and the closure is four weeks after deployment |
| `CrowdfundScenarios.FundScheduledCampaign` | test/Crowdfund.test.js:149-168 | once the second donor schedules, their 66 is frozen for them with eligibility two weeks after creation, and 42 is left to redeem |
| `CrowdfundScenarios.ClosedCampaign` | test/Crowdfund.test.js:143-228 | past closure the beneficiary redeems 42 once, the second redemption is refused, the donor who froze 66 withdraws it and leaves nothing frozen, and donation and scheduling are refused as closed |
| `LifecycleProperties.FrozenShareOnlyMovesByOwnCalls` | test/Crowdfund.test.js:192-201 | along any run in which a donor neither schedules nor withdraws, that donor's frozen share and eligibility time stay exactly as they were, whatever other accounts call |
| `LifecycleProperties.ClosureNeverBeforeCreation` | test/Crowdfund.test.js:69-96 | along any time-ordered run of calls made no earlier than creation, a closure that is not before creation never moves before it |
| `LifecycleProperties.DeployedClosureNeverBeforeCreation` | test/Crowdfund.test.js:20-39 | for a deployed campaign, the closure time never precedes the creation time, whatever calls follow in time order |

## Left out

- The contract source of `CrowdfundMock` and `Crowdfund` is not part of this model. Behaviour is taken from the assertions of the test suite, and the choices above cover what they leave open.
- Ether transfers and account balances: payouts are returned amounts (`Receipt.Accepted(paid)`), not transfers.
- Event emission (`CrowdfundClosure`, `ScheduledWithdrawal`, `RedeemSuccess`, `WithdrawalSuccess`). The logged values are the new `closureTimestamp`, the donor's `scheduledWithdrawals` entry and the returned payout, all of which the model exposes.
- The settable test clock and its two-second tolerance. The time is an explicit parameter and all timestamps are exact.
- 256-bit unsigned integer width: amounts and timestamps are unbounded naturals, and no overflow is modelled.
- Enforcement of `targetAmount`: the tests only read it back.
- `LifecycleProperties.RunConservesFunds`: conservation is proved for calls made in time order, as the chain's clock gives them. It is not proved for a clock set backwards after redemption.
- `CrowdfundScenarios.OpenCampaign`: the donation, the withdrawal request and the early withdrawal are placed at the deployment time. The tests make them a few seconds later, which changes none of the values read back.
- `CrowdfundScenarios.ScheduledForClosureCampaign`: the close, the donation and the withdrawal request are placed at the deployment time. The tests make them a few seconds later, which changes none of the values read back.
- `CrowdfundScenarios.ClosedCampaign` (through `CrowdfundScenarios.PledgeToClosingCampaign` and `CrowdfundScenarios.FundScheduledCampaign`): the close, both donations and the withdrawal request are placed at the deployment time. The tests make them a few seconds later, which changes none of the values read back.
