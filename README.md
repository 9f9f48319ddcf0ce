# KoloX in Dafny

KoloX is a community-savings platform on the Stacks chain. A *kolo* is a
rotating savings circle:

- A creator opens it with a contribution amount, a round length in blocks, a
  member cap and a start block.
- Members join before the start block, and each stands at one position of the
  payout order.
- Every round, each member contributes the amount. Once the round is settled,
  anyone may trigger the payout. It pays the round's pot to the member whose
  position is the round number.

On top of that sits the emergency machinery:

- A member who has not yet been paid out may leave once a round's deadline
  has passed. That member gets the contribution back less a slash of
  max(20 %, 1,000), loses 50 reputation points, and has a default recorded.
- The slash goes into the kolo's compensation pool. Members with no default
  on record each claim an equal share of it, once. The share is fixed when
  the first slash opens the pool.
- The creator may mark a member who missed an overdue round as defaulted.

This project models:

- that contract: its storage, its public calls, its read-only views and the
  invariant the storage keeps;
- the frontend's integer conversions and error-message table
  (`frontend/lib/stacks.ts`);
- the fungible-token ledger that accompanies the contract.

The modules are:

- `KoloRules` (`kolo_rules.dfy`): the arithmetic.
  - The slash and the net emergency payout.
  - The reputation penalty.
  - The round deadline.
- `KoloState` (`kolo_state.dfy`): what the contract stores about one kolo,
  grouped in a `KoloRecord`.
  - The record's invariant `WellFormed`. It has three parts:
    - `Arranged`: the order, members, payments, defaults and pool fit
      together.
    - `CollectedRecorded`: the kolo's total collected is one amount per
      recorded payment.
    - `PoolRecorded`: the pool's slashed total is one slash per member who
      has left, and its distributed total is one share per claimant; before
      the first exit nobody has left or claimed.
  - The questions the calls ask of a record: is the round settled, what is the
    pot, how many members are eligible for a share, what is the deadline, may
    this member exit.
  - One lemma per kind of update, showing that it keeps the invariant. Each
    combines a lemma for `Arranged` with one for the two running totals.
- `KoloCalls` (`kolo_calls.dfy`): each public call as a function of the
  kolo's record, the caller and the block height.
  - Each returns the error the call answers or a `Step`: the answer and the
    next record.
  - Its contract says exactly when the call succeeds, exactly when it answers
    each of its refusals, and what the update does.
- `Kolo` (`kolo.dfy`): the contract itself, a class holding the last kolo
  id and the map from kolo id to record.
  - Its methods look a kolo up, apply the call's step and store the result.
  - Its functions are the read-only views.
  - `Valid` says that ids 1..last are exactly the stored kolos and that each
    one is well formed.
- `KoloScenarios` (`kolo_scenarios.dfy`): the contract's test walkthroughs.
  - They are stated at the block heights used here and proved step by step on
    concrete records.
  - A few of them are also driven through the class.
- `Stacks` (`stacks.dfy`): the frontend conversions and the error table.
- `Token` (`token.dfy`): the token ledger and its walkthroughs.
- `Wrappers` (`wrappers.dfy`): `Option` and `Result`.

Block heights, the caller (`tx-sender`) and principals are parameters of
each call. Amounts of STX are not moved. Each call instead answers the amount
that would move: `escrowed` for a contribution, the `Payout` of a round, the
net amount of an emergency exit, and a claimed share.

## Model

| member | source | states |
|---|---|---|
| KoloRules.SlashAmount | smartcontract/tests/kolox-kolo.test.ts:541-556 | the slash is at least 1,000 and at least 20 % of the amount (floor-divided), and is one of the two |
| KoloRules.SlashRegimes | smartcontract/tests/kolox-kolo.test.ts:541-556 | below 5,000 the 1,000 minimum governs, from 5,000 on the slash is a fifth; it never exceeds an admissible amount |
| KoloRules.NetWithdrawal | smartcontract/tests/kolox-kolo.test.ts:264-269 | the emergency payout plus the slash is the amount, and the payout is strictly less than the amount |
| KoloRules.NetWithdrawalExamples | smartcontract/tests/kolox-kolo.test.ts:265 | 1,000,000 pays out 800,000 (slash 200,000) and 5,000 pays out 4,000 (slash 1,000) |
| KoloRules.Penalize | smartcontract/tests/kolox-kolo.test.ts:280-283 | one default never raises reputation, lowers any positive reputation, takes exactly 50 off a reputation of at least 50 and leaves 0 below that |
| KoloRules.PenalizeTimes | smartcontract/tests/kolox-kolo.test.ts:280-283 | after n defaults a reputation has lost 50 per default while enough remains, and is 0 once it runs out |
| KoloRules.ReputationAfterDefaults | smartcontract/tests/kolox-kolo.test.ts:283 | from the initial 100, reputation is 50 after one default and 0 after two or more |
| KoloRules.RoundDeadline | smartcontract/tests/kolox-kolo.test.ts:248-258 | a round's deadline is not before the start block and lies past the start of that round's period |
| KoloRules.DeadlineAdvances | smartcontract/tests/kolox-kolo.test.ts:498-521 | each later round's deadline is exactly one period later |
| KoloState.CountUndefaultedPositive | smartcontract/tests/kolox-kolo.test.ts:345-361 | one listed member with no default makes the count of members in good standing positive |
| KoloState.CountUndefaultedAll | smartcontract/tests/kolox-kolo.test.ts:345-361 | every listed member counts exactly when none has a default on record |
| KoloState.CountPaidAll | smartcontract/tests/kolox-kolo.test.ts:201-209 | every listed member counts as paid exactly when all of them paid the round |
| KoloState.OrderHasNoRepeats | smartcontract/tests/kolox-kolo.test.ts:133-157 | in a well-formed kolo no principal stands twice in the payout order |
| KoloState.MembershipIsOrder | smartcontract/tests/kolox-kolo.test.ts:140-146 | a principal is a member exactly when it stands in the payout order |
| KoloState.CompletedKoloPaidEveryone | smartcontract/tests/kolox-kolo.test.ts:201-221 | once a kolo is no longer active, every member has received its payout |
| KoloState.PaidCount | smartcontract/tests/kolox-kolo.test.ts:183-191 | the number of members who paid the round never exceeds the member count |
| KoloState.FullRoundPot | smartcontract/tests/kolox-kolo.test.ts:201-209 | when nobody has withdrawn, a settled round's pot is one contribution per member |
| KoloState.EligibleCount | smartcontract/tests/kolox-kolo.test.ts:345-361 | the members eligible for a share never outnumber the members |
| KoloState.EligibleCountPositive | smartcontract/tests/kolox-kolo.test.ts:345-361 | a member in good standing makes the eligible count positive |
| KoloState.CollectedIsProduct | smartcontract/tests/kolox-kolo.test.ts:178-191 | the sum of n contributions of an amount is the amount times n |
| KoloState.EqualShare | smartcontract/tests/kolox-kolo.test.ts:345-382 | the share is the largest amount that every one of the eligible members can be paid out of the slashed total, and 0 when nobody is eligible |
| KoloState.Deadline | smartcontract/tests/kolox-kolo.test.ts:406-435 | the current round's deadline is not before the start block, falls after the start of the round's period, and lies one period after the previous round's |
| KoloState.ExitEligibleMember | smartcontract/tests/kolox-kolo.test.ts:446-473 | a member who may exit belongs to an active kolo and its turn is the current round or a later one |
| KoloState.CompletedKoloHasNoExit | smartcontract/tests/kolox-kolo.test.ts:292-295 | nobody can exit a completed kolo, at any height |
| KoloState.NewKoloWellFormed | smartcontract/tests/kolox-kolo.test.ts:112-130 | a new kolo with admissible parameters and nothing collected, its creator alone at position 0, is well formed |
| KoloState.JoinKeepsWellFormed | smartcontract/tests/kolox-kolo.test.ts:133-146 | appending a new member to an open kolo keeps the invariant |
| KoloState.JoinKeepsTotals | smartcontract/tests/kolox-kolo.test.ts:133-146 | a new member has not left, so a join leaves the collected total and the pool's record in step |
| KoloState.MemberUpdateKeepsArranged | smartcontract/tests/kolox-kolo.test.ts:272-283 | replacing a member record by one with the same position and payout flag keeps the record arranged |
| KoloState.CollectedAfterPayment | smartcontract/tests/kolox-kolo.test.ts:178-191 | one more recorded payment together with one more amount in total-collected keeps the total equal to the amount per recorded payment |
| KoloState.PaymentKeepsArranged | smartcontract/tests/kolox-kolo.test.ts:173-175 | recording a member's payment of the amount for the current round keeps the record arranged |
| KoloState.ContributeKeepsWellFormed | smartcontract/tests/kolox-kolo.test.ts:173-199 | a member's first payment of the round (payment record, member total, kolo total) keeps the invariant, total-collected staying one amount per recorded payment |
| KoloState.ContributeKeepsTotals | smartcontract/tests/kolox-kolo.test.ts:178-191 | a first payment of the round adds one amount to the collected total and leaves the pool's record in step |
| KoloState.DefaultKeepsArranged | smartcontract/tests/kolox-kolo.test.ts:523-538 | recording a default for the current round keeps the record arranged |
| KoloState.MarkDefaultKeepsWellFormed | smartcontract/tests/kolox-kolo.test.ts:406-422 | mark-default's update keeps the invariant |
| KoloState.MarkDefaultKeepsTotals | smartcontract/tests/kolox-kolo.test.ts:406-422 | a default moves no value and changes no withdrawn flag, so both totals stay in step |
| KoloState.WithdrawKeepsWellFormed | smartcontract/tests/kolox-kolo.test.ts:264-283 | an emergency exit by a member still in (withdrawn, penalty, default, slash into pool) keeps the invariant |
| KoloState.WithdrawKeepsTotals | smartcontract/tests/kolox-kolo.test.ts:264-283 | an exit by a member still in adds exactly one slash to the pool for exactly one more leaver, and collects nothing |
| KoloState.LeaverAdded | smartcontract/tests/kolox-kolo.test.ts:264-283 | marking as withdrawn one listed member who had not left raises the count of leavers by exactly one |
| KoloState.LeaversKept | smartcontract/tests/kolox-kolo.test.ts:264-283 | a member update that keeps the withdrawn flag leaves the count of leavers unchanged |
| KoloState.LeaversAppended | smartcontract/tests/kolox-kolo.test.ts:133-146 | appending a principal to the order adds one leaver exactly when that principal has left |
| KoloState.ClaimKeepsWellFormed | smartcontract/tests/kolox-kolo.test.ts:345-382 | paying the pool's fixed share, when the pool can cover it, to a member who has not claimed keeps the invariant |
| KoloState.ClaimKeepsTotals | smartcontract/tests/kolox-kolo.test.ts:345-382 | a first claim adds exactly one share to the distributed total for one more claimant |
| KoloState.PayoutKeepsWellFormed | smartcontract/tests/kolox-kolo.test.ts:201-221 | paying the round's recipient and advancing the round (ending the kolo after the last) keeps the invariant |
| KoloState.PayoutKeepsTotals | smartcontract/tests/kolox-kolo.test.ts:201-221 | a payout changes no payment, pool or withdrawn flag, so both totals stay in step |
| KoloState.StoreKeepsWellFormed | smartcontract/tests/kolox-kolo.test.ts:541-544 | storing a well-formed kolo under any id keeps every stored kolo well formed |
| KoloCalls.JoinStep | smartcontract/tests/kolox-kolo.test.ts:35-42 | join succeeds exactly for a non-member of an active kolo before its start block and below its cap; it is refused CannotJoin exactly when the kolo is inactive, started or full (so always from the start block on), and AlreadyMember exactly for a member of an open kolo; the next record is the old one with the caller appended to the order and a fresh member record (reputation 100) at the next position, nothing else changed, and it is well formed |
| KoloCalls.ContributeStep | smartcontract/tests/kolox-kolo.test.ts:173-199 | contribute succeeds exactly for a non-withdrawn member of an active, started kolo who has not paid the round, and answers the amount; each refusal (KoloNotActive, NotStarted, NotMember, AlreadyWithdrawn, AlreadyPaid) is answered exactly when its check is the first to fail; the next record differs only in total-collected and the member's total (both up by the amount) and the new payment record, and is well formed |
| KoloCalls.PayoutStep | smartcontract/tests/kolox-kolo.test.ts:201-221 | payout succeeds exactly when the kolo is active and the round settled, and is refused KoloNotActive exactly for an inactive kolo and PayoutNotReady exactly for an unsettled round; it pays the round's pot to the not-yet-paid member at the round's position, and the next record differs only in that member's paid flag, the round (one up) and the active flag (off after the last round) |
| KoloCalls.WithdrawStep | smartcontract/tests/kolox-kolo.test.ts:248-312 | exit succeeds exactly for an eligible member past the deadline; it is refused NotMember exactly for a non-member, AlreadyWithdrawn exactly for a member who left, and EmergencyNotAvailable exactly for any other member who may not exit; on success the net payout plus slash is the amount, and the next record differs only in the member (withdrawn, penalized), its default record and the pool (slash added; a newly opened pool fixes the share at an equal part among the members left without a default) |
| KoloCalls.MarkDefaultStep | smartcontract/tests/kolox-kolo.test.ts:406-443 | succeeds exactly for the creator on an unpaid member past the deadline; it is refused NotAuthorized exactly for a non-creator, and otherwise NotMember exactly for a non-member, AlreadyPaid exactly for a member who paid the round, and EmergencyNotAvailable exactly for an unpaid member at or before the deadline; the next record differs only in that member (one more missed payment, the penalty) and its default record |
| KoloCalls.ClaimStep | smartcontract/tests/kolox-kolo.test.ts:345-395 | succeeds exactly for a member with no default who has not claimed, while the pool exists and still covers its positive fixed share; it is refused NotMember exactly for a non-member, NotAuthorized exactly for a defaulted member, and InsufficientBalance exactly for any other member when the pool is missing, already claimed from by the caller, or cannot cover the share; the answer is the fixed share, and the next record differs only in distributed (up by the share) and the claimed set |
| KoloCalls.ContributeOncePerRound | smartcontract/tests/kolox-kolo.test.ts:194-199 | after a successful contribution, the same member's next contribution in that round is refused AlreadyPaid |
| KoloCalls.WithdrawOnce | smartcontract/tests/kolox-kolo.test.ts:298-312 | after a successful exit, a second exit is refused AlreadyWithdrawn |
| KoloCalls.ClaimOnce | smartcontract/tests/kolox-kolo.test.ts:390-395 | after a successful claim, a second claim is refused InsufficientBalance |
| Kolo.KoloContract.constructor | smartcontract/tests/kolox-kolo.test.ts:112-115 | a deployed contract holds no kolos and its last id is 0 |
| Kolo.KoloContract.GetKolo | smartcontract/tests/kolox-kolo.test.ts:118-130 | get-kolo answers exactly for ids 1..last; the creator stands first, the amount is admissible, and the kolo is active exactly while rounds remain |
| Kolo.KoloContract.GetMemberCount | smartcontract/tests/kolox-kolo.test.ts:140-146 | the member count is between 1 and the cap (at most 50) for a stored kolo, and 0 otherwise |
| Kolo.KoloContract.GetMemberInfo | smartcontract/tests/kolox-kolo.test.ts:212-220 | answers exactly for members; the position is where the member stands, reputation is at most 100, and has-received-payout holds exactly when its round has passed |
| Kolo.KoloContract.GetKoloStats | smartcontract/tests/kolox-kolo.test.ts:183-191 | answers exactly for stored kolos; the round is at most the member count, active holds exactly while rounds remain, and total-collected is the amount times the number of recorded payments |
| Kolo.KoloContract.GetCompensationPool | smartcontract/tests/kolox-kolo.test.ts:333-342 | a pool belongs to a stored kolo and never has more distributed than slashed; its slashed total is the slash times the members who have left, its distributed total the share times the claimants; with no pool, nobody has left or claimed |
| Kolo.KoloContract.GetDefaultInfo | smartcontract/tests/kolox-kolo.test.ts:523-538 | a default record belongs to a member and a round already reached; every withdrawn member has one |
| Kolo.KoloContract.HasPaidCurrentRound | frontend/lib/stacks.ts:50 | the cited line only names the read-only view; a member who has paid the current round is a member of a stored kolo, a further contribution by it is refused at any height, and for an active member still in it answers true exactly when a contribution at a started height is refused AlreadyPaid |
| Kolo.KoloContract.CanEmergencyWithdraw | smartcontract/tests/kolox-kolo.test.ts:446-473 | answers true exactly when an emergency withdrawal by that principal at that height would go through |
| Kolo.KoloContract.CalculateEmergencyWithdrawal | smartcontract/tests/kolox-kolo.test.ts:476-498 | answers for every member, whether eligible or not, and for nobody else; the answer plus the slash is the amount |
| Kolo.KoloContract.CreateKolo | smartcontract/tests/kolox-kolo.test.ts:13-33 | refuses InvalidParams exactly for an amount under 1,000, a cap outside 2..50 or a start block not in the future; otherwise stores a new kolo under the next id with the caller as creator and sole member |
| Kolo.KoloContract.JoinKolo | smartcontract/tests/kolox-kolo.test.ts:133-157 | an unknown kolo answers KoloNotFound; otherwise the call answers and stores what JoinStep gives, and keeps every kolo well formed |
| Kolo.KoloContract.Contribute | smartcontract/tests/kolox-kolo.test.ts:173-199 | an unknown kolo answers KoloNotFound; otherwise answers `(ok true)` and stores what ContributeStep gives, with the escrowed amount |
| Kolo.KoloContract.TriggerPayout | smartcontract/tests/kolox-kolo.test.ts:201-209 | an unknown kolo answers KoloNotFound; otherwise answers `(ok true)` and stores what PayoutStep gives, with the payout made |
| Kolo.KoloContract.EmergencyWithdraw | smartcontract/tests/kolox-kolo.test.ts:248-312 | an unknown kolo answers NotMember; otherwise the call answers and stores what WithdrawStep gives |
| Kolo.KoloContract.MarkDefault | smartcontract/tests/kolox-kolo.test.ts:406-443 | an unknown kolo answers KoloNotFound; otherwise the call answers and stores what MarkDefaultStep gives |
| Kolo.KoloContract.ClaimSlashShare | smartcontract/tests/kolox-kolo.test.ts:345-395 | an unknown kolo answers NotMember; otherwise the call answers and stores what ClaimStep gives |
| KoloScenarios.CreateFirstKolo | smartcontract/tests/kolox-kolo.test.ts:112-131 | the first create-kolo answers id 1, and get-kolo shows the name, creator, amount, cap and active flag given |
| KoloScenarios.JoinBeforeStart | smartcontract/tests/kolox-kolo.test.ts:133-147 | a join before the start block succeeds and the member count becomes 2 |
| KoloScenarios.JoinAfterStart | smartcontract/tests/kolox-kolo.test.ts:149-157 | a join after the start block is refused CannotJoin |
| KoloScenarios.EmergencyQuote | smartcontract/tests/kolox-kolo.test.ts:476-487 | w2, having joined a 1,000,000 kolo, is quoted 800,000 |
| KoloScenarios.StrangerQuote | smartcontract/tests/kolox-kolo.test.ts:489-498 | a principal that never joined is quoted nothing |
| KoloScenarios.GatherThree | smartcontract/tests/kolox-kolo.test.ts:160-171 | the three-member kolo is created and joined by two more |
| KoloScenarios.CreatorPays | smartcontract/tests/kolox-kolo.test.ts:173-199 | the creator's contribution succeeds with the amount, and a repeat is refused AlreadyPaid |
| KoloScenarios.SecondPays | smartcontract/tests/kolox-kolo.test.ts:178-191 | w2's payment succeeds with the amount |
| KoloScenarios.ThirdPays | smartcontract/tests/kolox-kolo.test.ts:178-191 | w3's payment succeeds, and total-collected is then 3,000,000 |
| KoloScenarios.ThreeMemberRecordsReached | smartcontract/tests/kolox-kolo.test.ts:160-199 | every record of the three-member walkthrough follows from create-kolo by the calls, so each is well formed |
| KoloScenarios.PayoutToCreator | smartcontract/tests/kolox-kolo.test.ts:201-221 | the payout goes to the creator for 3,000,000 and marks it paid |
| KoloScenarios.GatherFour | smartcontract/tests/kolox-kolo.test.ts:224-235 | the four-member kolo is created and joined by three more |
| KoloScenarios.RoundZeroFirstHalf | smartcontract/tests/kolox-kolo.test.ts:237-239 | w1 and w2 pay round 0 |
| KoloScenarios.RoundZeroSecondHalf | smartcontract/tests/kolox-kolo.test.ts:240-241 | w3 and w4 pay round 0, for 4,000,000 collected |
| KoloScenarios.RoundZeroPayout | smartcontract/tests/kolox-kolo.test.ts:243-244 | round 0 pays 4,000,000 to w1 |
| KoloScenarios.RoundOneCreatorPays | smartcontract/tests/kolox-kolo.test.ts:249-253 | w1 pays round 1 |
| KoloScenarios.RoundOneWithoutW2 | smartcontract/tests/kolox-kolo.test.ts:252-255 | w3 and w4 pay round 1 while w2 does not |
| KoloScenarios.ContributeTaken | smartcontract/tests/kolox-kolo.test.ts:173-199 | a first payment of the round by a member still in answers the amount and applies the contribution update |
| KoloScenarios.EmergencyExit | smartcontract/tests/kolox-kolo.test.ts:257-283 | w2's exit pays 800,000, marks it withdrawn with reputation 50, records its default and opens the pool at 200,000 with a share of 66,666 |
| KoloScenarios.ExitRefusals | smartcontract/tests/kolox-kolo.test.ts:286-312 | a stranger is refused NotMember, the paid-out w1 EmergencyNotAvailable, and a second exit AlreadyWithdrawn |
| KoloScenarios.ThreeEligible | smartcontract/tests/kolox-kolo.test.ts:345-353 | with only w2 defaulted, three of the four members are eligible, which fixes the share at 200,000 / 3 |
| KoloScenarios.FirstShareClaimed | smartcontract/tests/kolox-kolo.test.ts:345-353 | w1 claims 66,666 |
| KoloScenarios.ClaimTaken | smartcontract/tests/kolox-kolo.test.ts:345-395 | a claim the pool covers answers the fixed share and applies the claim update |
| KoloScenarios.SecondShareClaimed | smartcontract/tests/kolox-kolo.test.ts:355-357 | w3 claims 66,666 |
| KoloScenarios.ThirdShareClaimed | smartcontract/tests/kolox-kolo.test.ts:359-382 | w4 claims 66,666, and the pool ends with 199,998 distributed of 200,000 |
| KoloScenarios.RoundOnePotAfterExit | smartcontract/tests/kolox-kolo.test.ts:248-258 | after w2 leaves unpaid and the other three pay round 1, the round is settled and its pot is three payments, 3,000,000 |
| KoloScenarios.LateDefaultKeepsShare | smartcontract/tests/kolox-kolo.test.ts:345-382 | a default marked after the pool opened leaves the share unchanged: round 1 is paid out (3,000,000 to w2, who has left), w3 is marked in default in round 2, and w4 still claims 66,666 |
| KoloScenarios.ClaimRefusals | smartcontract/tests/kolox-kolo.test.ts:385-395 | the defaulted w2 is refused NotAuthorized, and a second claim by w1 InsufficientBalance |
| KoloScenarios.MarkingDefaults | smartcontract/tests/kolox-kolo.test.ts:398-443 | a non-creator is refused NotAuthorized, an early mark EmergencyNotAvailable, and a paid member AlreadyPaid; marking w2 counts one missed payment and leaves reputation 50 |
| KoloScenarios.LeaverStillMarked | smartcontract/tests/kolox-kolo.test.ts:264-283 | once w2 has left, its payment is refused AlreadyWithdrawn, while two marks of default in the same round both go through, counting two missed payments |
| KoloScenarios.EarlyExitRefused | smartcontract/tests/kolox-kolo.test.ts:248-258 | at height 2414, 200 blocks after round 1 was paid, the round-1 deadline of 3016 is still ahead, so an exit or a default on w2 is refused EmergencyNotAvailable |
| KoloScenarios.ExitEligibility | smartcontract/tests/kolox-kolo.test.ts:446-473 | w2, unpaid past the deadline, may exit; w1, already paid out, may not at any height |
| KoloScenarios.TwoDefaults | smartcontract/tests/kolox-kolo.test.ts:502-538 | w3 exits after w2, for 800,000, with both defaults on record and 400,000 in the pool |
| KoloScenarios.RoundOneStaysPaid | smartcontract/tests/kolox-kolo.test.ts:513-517 | with round 1 not yet paid out, w1 cannot pay it again |
| KoloScenarios.FourMemberRoundZeroReached | smartcontract/tests/kolox-kolo.test.ts:224-244 | every four-member record up to the first payout follows from create-kolo by the calls, so each is well formed |
| KoloScenarios.FourMemberExitsReached | smartcontract/tests/kolox-kolo.test.ts:248-538 | every later four-member record (round 1, the exits, the claims, the default) follows from create-kolo by the calls, so each is well formed |
| KoloScenarios.SmallKoloGathered | smartcontract/tests/kolox-kolo.test.ts:541-544 | the 5,000 kolo is created and joined by w2 |
| KoloScenarios.SmallKoloPaid | smartcontract/tests/kolox-kolo.test.ts:545-548 | both members pay round 0 |
| KoloScenarios.SmallKoloExit | smartcontract/tests/kolox-kolo.test.ts:550-556 | w1 cannot pay round 0 again, and w2's exit pays 4,000 after the 1,000 minimum slash, all of which becomes w1's share |
| KoloScenarios.SmallKoloRecordsReached | smartcontract/tests/kolox-kolo.test.ts:541-556 | every record of the small walkthrough follows from create-kolo by the calls, so each is well formed |
| Stacks.StxToMicroStx | frontend/lib/stacks.ts:10-14 | a microSTX amount converted from whole STX is a multiple of 1,000,000 with the sign of the STX amount |
| Stacks.MicroStxToStx | frontend/lib/stacks.ts:16-18 | for whole-STX amounts, converting back to microSTX gives the input |
| Stacks.StxRoundTrip | frontend/lib/stacks.ts:10-18 | converting STX to microSTX and back is the identity |
| Stacks.BlocksToMinutes | frontend/lib/stacks.ts:21-25 | minutes are a multiple of 10, with the block count as the quotient |
| Stacks.Ceil | frontend/lib/stacks.ts:35-37 | the ceiling is the unique integer n with n - 1 < x <= n |
| Stacks.CeilUnique | frontend/lib/stacks.ts:35-37 | any integer n with n - 1 < x <= n is the ceiling |
| Stacks.CeilMonotone | frontend/lib/stacks.ts:35-37 | the ceiling is monotone |
| Stacks.DaysToBlocks | frontend/lib/stacks.ts:35-37 | the block count is the least integer at or above 144 blocks per day |
| Stacks.DaysToBlocksWhole | frontend/lib/stacks.ts:35-37 | whole days give exactly 144 blocks each |
| Stacks.DaysToBlocksMonotone | frontend/lib/stacks.ts:35-37 | more days never give fewer blocks |
| Stacks.CalendarBlocks | frontend/lib/constants.ts:29-30 | 7 days give the weekly 1,008 blocks and 30 days the monthly 4,320 |
| Stacks.DaysBlocksMinutesRoundTrip | frontend/lib/stacks.ts:23-37 | whole days to blocks to minutes gives 1,440 minutes per day |
| Stacks.Code | frontend/lib/stacks.ts:58-72 | every error kind has a code between 100 and 112 |
| Stacks.FromCode | frontend/lib/stacks.ts:58-72 | decoding a code yields the error whose code it is, and yields one exactly for the codes 100 to 112 |
| Stacks.CodesDistinct | frontend/lib/stacks.ts:58-72 | distinct errors have distinct codes |
| Stacks.CodesCoverRange | frontend/lib/stacks.ts:58-72 | the codes are exactly 100..112 |
| Stacks.ErrorMessage | frontend/lib/stacks.ts:78-95 | every code has a non-empty message, and it is the unknown-error message exactly outside 100..112 |
| Stacks.MessagesDistinct | frontend/lib/stacks.ts:78-95 | distinct errors have distinct messages |
| Stacks.SampleMessages | frontend/lib/stacks.ts:78-95 | codes 105, 112 and 104 give their listed messages, and 99 and 113 the unknown-error message |
| Token.TotalWithout | smartcontract/token.test.ts:40-45 | the sum of balances is any one holder's balance plus the sum of the others |
| Token.BalanceWithinTotal | smartcontract/token.test.ts:40-45 | no balance exceeds the supply |
| Token.TotalAfterSet | smartcontract/token.test.ts:25-30 | setting one balance moves the sum by the difference |
| Token.Credited | smartcontract/token.test.ts:10-14 | minting raises the recipient's balance and the sum by the amount and leaves every other balance alone |
| Token.Debited | smartcontract/token.test.ts:55-63 | burning lowers the holder's balance and the sum by the amount and leaves every other balance alone |
| Token.Moved | smartcontract/token.test.ts:25-30 | a transfer moves the amount from sender to recipient, leaves every other balance alone and keeps the sum |
| Token.BurnUndoesMint | smartcontract/token.test.ts:55-63 | burning what was minted restores every balance and the sum |
| Token.TransferBack | smartcontract/token.test.ts:25-30 | transferring an amount back restores every balance |
| Token.TokenLedger.constructor | smartcontract/token.test.ts:4-8 | a deployed token has no balances and no supply, and the deployer is its owner |
| Token.TokenLedger.GetBalance | smartcontract/token.test.ts:44-45 | always answers `(ok …)`; a balance never exceeds the supply, and an unknown principal holds 0 |
| Token.TokenLedger.Mint | smartcontract/token.test.ts:10-14 | succeeds exactly for the owner with a positive amount, crediting the recipient and raising the supply; otherwise nothing changes |
| Token.TokenLedger.Transfer | smartcontract/token.test.ts:25-30 | succeeds exactly when the sender signs, the amount is positive and covered, and the parties differ; moves the amount and keeps the supply |
| Token.TokenLedger.Burn | smartcontract/token.test.ts:55-60 | succeeds exactly for a positive amount the caller holds; debits the caller and lowers the supply |
| Token.MintToWallet | smartcontract/token.test.ts:4-16 | the deployer minting 1,000 to wallet 1 succeeds |
| Token.TransferBetweenWallets | smartcontract/token.test.ts:18-32 | after a mint of 1,000, wallet 1 transferring 500 to wallet 2 succeeds, leaving 500 each |
| Token.CheckBalance | smartcontract/token.test.ts:34-47 | after a mint of 1,000, wallet 1's balance is 1,000 |
| Token.BurnTokens | smartcontract/token.test.ts:49-65 | after a mint of 1,000, wallet 1 burning 300 succeeds and leaves 700 |

## Left out

- The Clarity source of the kolo contract is not part of this model. Its behaviour is reconstructed from the calls and assertions of `smartcontract/tests/kolox-kolo.test.ts`. Where an assertion does not pin a rule down, the rule chosen is written in the member's doc comment. Those rules are:
  - the round deadline;
  - emergency eligibility regardless of whether the round was paid;
  - the share divisor: the members without a default once the first slash is recorded;
  - the order of the checks;
  - contribute refuses a member who has left with AlreadyWithdrawn, after the membership check (`KoloScenarios.LeaverStillMarked`);
  - mark-default accepts a member who has left, and a second mark in the same round; each mark counts one more missed payment (`KoloScenarios.LeaverStillMarked`).
- KoloRules.RoundDeadline: the deadline is start block + (round + 1) × frequency, which does not fit the tests.
  - The tests at `smartcontract/tests/kolox-kolo.test.ts:406-435` exit and mark defaults about 200 blocks after the round-1 payments, near height 2,413, and expect that to succeed.
  - They expect a mark-default near height 2,213 to be refused as early.
  - So the tests' deadline for round 1 lies between about 2,213 and 2,413. No deadline of the form start + (round + c) × frequency, with start 1,000, frequency 1,008 and a whole c, lies there.
  - Under this model those test heights are refused (`KoloScenarios.EarlyExitRefused`). The scenarios use heights past the deadline instead: exits and defaults at 3017 against a round-1 deadline of 3016.
- KoloState.Deadline: the current round's deadline, so the tests' round-1 window between about 2,213 and 2,413 is missed in the same way: the model gives 3,016 (see `KoloRules.RoundDeadline` above).
- KoloState.CanExit: exit does not require the member to owe the current round, because the test at `smartcontract/tests/kolox-kolo.test.ts:502-521` has w3 exit in a round it has already paid. An exit open only to members who still owe the round is not modelled.
- Kolo.KoloContract.CreateKolo: refuses amounts 1 to 999, not only a zero amount. No test creates a kolo below 1,000. With the 1,000 minimum slash, an exit from such a kolo would pay out a negative amount, so the model requires an amount of at least 1,000 and keeps every net payout a natural number.
- KoloCalls.PayoutStep: the kolo completes when the round reaches the number of members who joined, not the cap `maxMembers`. No test runs a kolo to completion. With fewer members than the cap, completing at the cap would leave rounds with nobody at the recipient's position.
- KoloCalls.PayoutStep: a recipient who has withdrawn is still paid its round, since no test refuses or redirects such a payout. For example, in `KoloScenarios.LateDefaultKeepsShare` round 1 pays w2 3,000,000 after w2 has left.
- KoloState.RoundPot: the pot is the amount times the members who paid the round, not the amount times the member count. The two agree on every fully paid round the tests pay out (`KoloState.FullRoundPot`). Once a member has withdrawn without paying, amount × member count is more than the round escrowed. The pot is what the round collected; it is not checked against what is left in escrow after refunds and claims (see the next line).
- KoloCalls.WithdrawStep: the refunds, shares and payouts that the calls answer are not bounded by what the kolo has collected. The refund is the amount less the slash whether or not the leaver paid the current round, and the slash is counted into the pool on top of the payments already paid out. From create-kolo through `KoloScenarios.RoundZeroPayout`, `KoloScenarios.EmergencyExit`, the first two claims and `KoloScenarios.LateDefaultKeepsShare`, the kolo collects 7,000,000: four payments in round 0 and three in round 1. It answers 4,000,000 + 800,000 + 3 × 66,666 + 3,000,000 = 7,999,998 out. The 800,000 refund to w2 is drawn against round 1, which w2 never paid. The model proves that each running total matches its records (`KoloState.WellFormed`), not that the outflows fit the escrow.
- KoloState.Defaulted: a member has at most one default record, and a later default replaces the earlier one, because get-default-info reads one record per kolo and member. The member's missed-payment count still counts every default.
- KoloScenarios.ThirdShareClaimed: each share is the slashed total floor-divided by the members eligible when the pool opened, and the remainder stays in the pool. After three claims of 66,666, distributed is 199,998. The test asserts 200,000 at `smartcontract/tests/kolox-kolo.test.ts:382`, a total that no equal floor-divided share of 200,000 among three reaches.
- KoloState.SlashedInto: a later slash adds to the pool's total but leaves the share fixed at the first slash, so part of a later slash can never be claimed. After `KoloScenarios.TwoDefaults` the pool holds 400,000, and its two eligible members can claim 133,332 between them.
- Stacks.StxToMicroStx: takes whole STX only. The source multiplies a floating-point number, so fractional STX amounts (1.5 STX is 1,500,000 microSTX) and floating-point rounding are not modelled.
- Stacks.MicroStxToStx: defined only on whole-STX amounts of microSTX, because the source's division yields a floating-point fraction otherwise. `blocksToHours` and `blocksToDays` are left out for the same reason.
- Stacks.DaysToBlocks: computed over exact reals, while the source computes (days × 24 × 60) / 10 in floating point before `Math.ceil`. The two differ where the floating-point product rounds onto a whole number. For 1.6666666666666667, the double nearest 5/3, the exact product is just above 240, so the model answers 241, while the source's arithmetic gives exactly 240.0 and answers 240.
- cancel-kolo and distribute-slash-funds: the first appears only as a function name, and the second is a test helper no test calls. No behaviour is asserted for either.
- No STX moves. The chain's asset map and the balances the tests read from it are not modelled. The calls answer the amounts that would move instead.
- Numeric error codes are not modelled for the kolo contract. The codes in the test comments (102, 103, 104, 105, 1005, 1010, 4001) and the frontend table at `frontend/lib/stacks.ts:58-72` (100..112) disagree, so the contract's errors are the named `KoloError` values. The frontend table is modelled on its own in `Stacks`.
- The name's 64-character ASCII bound is not modelled: the name is any string.
- Concurrency and ordering between transactions in one block are not modelled. Each call is applied to the state the previous call left, and block heights are parameters that the model does not require to increase.
- The token contract's source is not part of this model. The refusals are the usual ones of a Stacks fungible token, and the order of the checks is this model's choice:
  - mint only by the owner;
  - a transfer signed by its sender;
  - positive amounts;
  - no transfer beyond a balance or to oneself.
- The tests only exercise the success paths.
