/**
 * Walkthroughs of the KoloX contract: fixed sequences of calls, with explicit
 * callers and block heights, and what every call answers.  The first three
 * drive the contract object; the longer ones follow one kolo's record
 * through the calls, which the contract's methods apply to the stored kolo.
 */
module KoloScenarios {
  import opened Wrappers
  import opened KoloRules
  import opened KoloState
  import opened KoloCalls
  import opened Kolo

  const W1: Principal := "w1"
  const W2: Principal := "w2"
  const W3: Principal := "w3"
  const W4: Principal := "w4"
  const W5: Principal := "w5"

  /** The first kolo gets id 1, and get-kolo reports it as created, with the caller as creator. */
  method CreateFirstKolo() returns (r: Result<KoloId, KoloError>, view: Option<KoloInfo>)
    ensures r == Ok(1)
    ensures view == Some(KoloInfo(W1, "Savings Circle", 1000000, 1008, 5, 5000, 0, true, 0))
  {
    var c := new KoloContract();
    r := c.CreateKolo("Savings Circle", 1000000, 1008, 5, 5000, W1, 1);
    view := c.GetKolo(1);
  }

  /** The creator counts as a member: one join before the start block makes two. */
  method JoinBeforeStart() returns (r: Result<bool, KoloError>, count: nat)
    ensures r == Ok(true) && count == 2
  {
    var c := new KoloContract();
    var _ := c.CreateKolo("Test Kolo", 1000000, 1008, 5, 5000, W1, 1);
    r := c.JoinKolo(1, W2, 2);
    count := c.GetMemberCount(1);
  }

  /** Joining once the start block has passed is refused. */
  method JoinAfterStart() returns (r: Result<bool, KoloError>)
    ensures r == Err(CannotJoin)
  {
    var c := new KoloContract();
    var _ := c.CreateKolo("Test Kolo", 1000000, 1008, 5, 100, W1, 1);
    r := c.JoinKolo(1, W2, 201);
  }

  /** calculate-emergency-withdrawal quotes 800,000 for w2, once it has joined a 1,000,000 kolo. */
  method EmergencyQuote() returns (quote: Option<nat>)
    ensures quote == Some(800000)
  {
    var c := new KoloContract();
    var _ := c.CreateKolo("Emergency Test", 1000000, 1008, 4, 1000, W1, 1);
    var _ := c.JoinKolo(1, W2, 2);
    NetWithdrawalExamples();
    quote := c.CalculateEmergencyWithdrawal(1, W2);
  }

  /** calculate-emergency-withdrawal quotes nothing for a principal that never joined. */
  method StrangerQuote() returns (quote: Option<nat>)
    ensures quote == None
  {
    var c := new KoloContract();
    var _ := c.CreateKolo("Emergency Test", 1000000, 1008, 4, 1000, W1, 1);
    quote := c.CalculateEmergencyWithdrawal(1, W5);
  }

  /**
   * A member who joined at height `position + 1`, has paid `paid` in total,
   * has or has not been paid out, and has neither missed a payment nor left.
   */
  function Member(position: nat, paid: nat, received: bool): MemberInfo
  {
    MemberInfo(position, position + 1, paid, 0, received, false, INITIAL_REPUTATION)
  }

  // ---------------------------------------------------------------------------
  // A kolo of three: contributions and the first payout

  const AMOUNT: nat := 1000000
  const TEST_INFO := KoloInfo(W1, "Test Kolo", AMOUNT, 1008, 3, 1000, 0, true, 0)

  /** What create-kolo stores when w1 creates the kolo at height 1, to start at block 1000. */
  const TEST_KOLO := NewKolo(TEST_INFO, 1)

  /** The kolo once w2 and w3 have joined, at heights 2 and 3. */
  const T_GATHERED := KoloRecord(TEST_INFO, [W1, W2, W3],
    map[W1 := Member(0, 0, false), W2 := Member(1, 0, false), W3 := Member(2, 0, false)],
    map[], map[], None, {})

  /** After w1's payment at height 1101. */
  const T_PAID1 := KoloRecord(TEST_INFO.(totalCollected := AMOUNT), [W1, W2, W3],
    map[W1 := Member(0, AMOUNT, false), W2 := Member(1, 0, false), W3 := Member(2, 0, false)],
    map[(0, W1) := Contribution(AMOUNT, 1101)], map[], None, {})

  /** After w2's payment at height 1103. */
  const T_PAID2 := KoloRecord(TEST_INFO.(totalCollected := 2 * AMOUNT), [W1, W2, W3],
    map[W1 := Member(0, AMOUNT, false), W2 := Member(1, AMOUNT, false), W3 := Member(2, 0, false)],
    map[(0, W1) := Contribution(AMOUNT, 1101), (0, W2) := Contribution(AMOUNT, 1103)], map[], None, {})

  /** After w3's payment at height 1104: the round is settled. */
  const T_PAID3 := KoloRecord(TEST_INFO.(totalCollected := 3 * AMOUNT), [W1, W2, W3],
    map[W1 := Member(0, AMOUNT, false), W2 := Member(1, AMOUNT, false), W3 := Member(2, AMOUNT, false)],
    map[(0, W1) := Contribution(AMOUNT, 1101), (0, W2) := Contribution(AMOUNT, 1103), (0, W3) := Contribution(AMOUNT, 1104)],
    map[], None, {})

  /** After the payout of round 0. */
  const T_PAID_OUT := T_PAID3.(info := T_PAID3.info.(round := 1),
    members := map[W1 := Member(0, AMOUNT, true), W2 := Member(1, AMOUNT, false), W3 := Member(2, AMOUNT, false)])

  /** w1 creates the kolo at height 1 to start at block 1000; w2 and w3 join before the start. */
  lemma GatherThree()
    ensures WellFormed(TEST_KOLO)
    ensures JoinStep(TEST_KOLO, W2, 2).Ok?
    ensures JoinStep(JoinStep(TEST_KOLO, W2, 2).value.next, W3, 3) == Ok(Step(true, T_GATHERED))
  {
    NewKoloWellFormed(TEST_INFO, 1);
    var k1 := JoinStep(TEST_KOLO, W2, 2).value.next;
    assert k1.order == [W1, W2];
    assert k1.order + [W3] == [W1, W2, W3];
  }

  /** w1 pays the amount at height 1101; paying again in the same round is refused. */
  lemma CreatorPays()
    requires WellFormed(T_GATHERED)
    ensures ContributeStep(T_GATHERED, W1, 1101) == Ok(Step(AMOUNT, T_PAID1))
    ensures ContributeStep(T_PAID1, W1, 1102) == Err(AlreadyPaid)
  {
    assert T_GATHERED.members[W1 := Member(0, AMOUNT, false)] == T_PAID1.members;
  }

  /** w2 pays at height 1103, adding the amount to the kolo's total. */
  lemma SecondPays()
    requires WellFormed(T_PAID1)
    ensures ContributeStep(T_PAID1, W2, 1103) == Ok(Step(AMOUNT, T_PAID2))
  {
    assert T_PAID1.members[W2 := Member(1, AMOUNT, false)] == T_PAID2.members;
  }

  /** w3 pays at height 1104; the kolo has then collected 3,000,000. */
  lemma ThirdPays()
    requires WellFormed(T_PAID2)
    ensures ContributeStep(T_PAID2, W3, 1104) == Ok(Step(AMOUNT, T_PAID3))
    ensures T_PAID3.info.totalCollected == 3000000
  {
    assert T_PAID2.members[W3 := Member(2, AMOUNT, false)] == T_PAID3.members;
  }

  /** Every record of the three-member walkthrough is reached from create-kolo by the calls above. */
  lemma ThreeMemberRecordsReached()
    ensures WellFormed(T_GATHERED) && WellFormed(T_PAID1) && WellFormed(T_PAID2) && WellFormed(T_PAID3)
  {
    GatherThree();
    CreatorPays();
    SecondPays();
    ThirdPays();
  }

  /** Once all three have paid, anyone may trigger the payout, which sends 3,000,000 to the creator. */
  lemma PayoutToCreator()
    requires WellFormed(T_PAID3)
    ensures PayoutStep(T_PAID3) == Ok(Step(Payout(W1, 3000000), T_PAID_OUT))
    ensures T_PAID_OUT.members[W1].hasReceivedPayout
  {
    assert RoundSettled(T_PAID3) by {
      assert T_PAID3.order == [W1, W2, W3];
    }
    FullRoundPot(T_PAID3);
    assert T_PAID3.members[W1 := Member(0, AMOUNT, true)] == T_PAID_OUT.members;
  }

  // ---------------------------------------------------------------------------
  // A kolo of four: emergency exits, the compensation pool and defaults

  const EMERGENCY_INFO := KoloInfo(W1, "Emergency Test", AMOUNT, 1008, 4, 1000, 0, true, 0)

  /** What create-kolo stores when w1 creates the kolo at height 1, to start at block 1000. */
  const EMERGENCY_KOLO := NewKolo(EMERGENCY_INFO, 1)

  const E_JOINED2 := KoloRecord(EMERGENCY_INFO, [W1, W2],
    map[W1 := Member(0, 0, false), W2 := Member(1, 0, false)], map[], map[], None, {})

  /** The kolo once w2, w3 and w4 have joined, at heights 2, 3 and 4. */
  const E_GATHERED := KoloRecord(EMERGENCY_INFO, [W1, W2, W3, W4],
    map[W1 := Member(0, 0, false), W2 := Member(1, 0, false), W3 := Member(2, 0, false), W4 := Member(3, 0, false)],
    map[], map[], None, {})

  /** After w1 and w2 have paid round 0, at heights 1101 and 1102. */
  const E_HALF_PAID := KoloRecord(EMERGENCY_INFO.(totalCollected := 2 * AMOUNT), [W1, W2, W3, W4],
    map[W1 := Member(0, AMOUNT, false), W2 := Member(1, AMOUNT, false), W3 := Member(2, 0, false), W4 := Member(3, 0, false)],
    map[(0, W1) := Contribution(AMOUNT, 1101), (0, W2) := Contribution(AMOUNT, 1102)], map[], None, {})

  /** Every payment of round 0: w1 to w4 at heights 1101 to 1104. */
  const ROUND0_PAYMENTS := map[(0, W1) := Contribution(AMOUNT, 1101), (0, W2) := Contribution(AMOUNT, 1102),
                               (0, W3) := Contribution(AMOUNT, 1103), (0, W4) := Contribution(AMOUNT, 1104)]

  /** After w3 and w4 have paid too, at heights 1103 and 1104. */
  const E_ALL_PAID := KoloRecord(EMERGENCY_INFO.(totalCollected := 4 * AMOUNT), [W1, W2, W3, W4],
    map[W1 := Member(0, AMOUNT, false), W2 := Member(1, AMOUNT, false), W3 := Member(2, AMOUNT, false), W4 := Member(3, AMOUNT, false)],
    ROUND0_PAYMENTS, map[], None, {})

  /** After the payout of round 0 to w1. */
  const E_PAID_OUT := E_ALL_PAID.(info := E_ALL_PAID.info.(round := 1),
    members := map[W1 := Member(0, AMOUNT, true), W2 := Member(1, AMOUNT, false), W3 := Member(2, AMOUNT, false), W4 := Member(3, AMOUNT, false)])

  /** After w1 has paid round 1 at height 2201. */
  const E_LATE1 := KoloRecord(EMERGENCY_INFO.(round := 1, totalCollected := 5 * AMOUNT), [W1, W2, W3, W4],
    map[W1 := Member(0, 2 * AMOUNT, true), W2 := Member(1, AMOUNT, false), W3 := Member(2, AMOUNT, false), W4 := Member(3, AMOUNT, false)],
    ROUND0_PAYMENTS[(1, W1) := Contribution(AMOUNT, 2201)], map[], None, {})

  /** After w3 and w4 have paid round 1 too, at heights 2202 and 2203; w2 has not. */
  const E_LATE := KoloRecord(EMERGENCY_INFO.(round := 1, totalCollected := 7 * AMOUNT), [W1, W2, W3, W4],
    map[W1 := Member(0, 2 * AMOUNT, true), W2 := Member(1, AMOUNT, false), W3 := Member(2, 2 * AMOUNT, false), W4 := Member(3, 2 * AMOUNT, false)],
    ROUND0_PAYMENTS[(1, W1) := Contribution(AMOUNT, 2201)][(1, W3) := Contribution(AMOUNT, 2202)][(1, W4) := Contribution(AMOUNT, 2203)],
    map[], None, {})

  /**
   * After w2's emergency exit at height 3017, past the round-1 deadline of
   * block 3016: the 200,000 slash opens the pool with a share of 200,000 / 3
   * for w1, w3 and w4.
   */
  const E_EXITED := E_LATE.(
    members := E_LATE.members[W2 := MemberInfo(1, 2, AMOUNT, 0, false, true, 50)],
    defaults := map[W2 := DefaultRecord(1, 3017)],
    pool := Some(Pool(200000, 0, 66666)))

  /** After w1, then w3, then w4 have claimed their share of the pool. */
  const E_CLAIMED1 := E_EXITED.(pool := Some(Pool(200000, 66666, 66666)), claimed := {W1})
  const E_CLAIMED2 := E_EXITED.(pool := Some(Pool(200000, 133332, 66666)), claimed := {W1, W3})
  const E_CLAIMED3 := E_EXITED.(pool := Some(Pool(200000, 199998, 66666)), claimed := {W1, W3, W4})

  /** w1 creates the kolo at height 1; w2, w3 and w4 join before the start. */
  lemma GatherFour()
    ensures WellFormed(EMERGENCY_KOLO)
    ensures JoinStep(EMERGENCY_KOLO, W2, 2) == Ok(Step(true, E_JOINED2))
    ensures JoinStep(E_JOINED2, W3, 3).Ok?
    ensures JoinStep(JoinStep(E_JOINED2, W3, 3).value.next, W4, 4) == Ok(Step(true, E_GATHERED))
  {
    NewKoloWellFormed(EMERGENCY_INFO, 1);
    assert [W1] + [W2] == [W1, W2];
    var k := JoinStep(E_JOINED2, W3, 3).value.next;
    assert k.order == [W1, W2, W3];
    assert k.order + [W4] == [W1, W2, W3, W4];
  }

  /** w1 and w2 pay round 0. */
  lemma RoundZeroFirstHalf()
    requires WellFormed(E_GATHERED)
    ensures ContributeStep(E_GATHERED, W1, 1101).Ok?
    ensures ContributeStep(ContributeStep(E_GATHERED, W1, 1101).value.next, W2, 1102) == Ok(Step(AMOUNT, E_HALF_PAID))
  {
    ContributeTaken(E_GATHERED, W1, 1101);
    ContributeKeepsWellFormed(E_GATHERED, W1, 1101);
    ContributeTaken(Contributed(E_GATHERED, W1, 1101), W2, 1102);
    FirstHalfRecord();
  }

  /** What the first two payments of round 0 leave behind. */
  lemma FirstHalfRecord()
    ensures W1 in E_GATHERED.members && W2 in Contributed(E_GATHERED, W1, 1101).members
    ensures Contributed(Contributed(E_GATHERED, W1, 1101), W2, 1102) == E_HALF_PAID
  {
    var k := Contributed(E_GATHERED, W1, 1101);
    assert k.members[W2 := Member(1, AMOUNT, false)] == E_HALF_PAID.members;
  }

  /** w3 and w4 pay round 0. */
  lemma RoundZeroSecondHalf()
    requires WellFormed(E_HALF_PAID)
    ensures ContributeStep(E_HALF_PAID, W3, 1103).Ok?
    ensures ContributeStep(ContributeStep(E_HALF_PAID, W3, 1103).value.next, W4, 1104) == Ok(Step(AMOUNT, E_ALL_PAID))
  {
    ContributeTaken(E_HALF_PAID, W3, 1103);
    ContributeKeepsWellFormed(E_HALF_PAID, W3, 1103);
    ContributeTaken(Contributed(E_HALF_PAID, W3, 1103), W4, 1104);
    SecondHalfRecord();
  }

  /** What the last two payments of round 0 leave behind. */
  lemma SecondHalfRecord()
    ensures W3 in E_HALF_PAID.members && W4 in Contributed(E_HALF_PAID, W3, 1103).members
    ensures Contributed(Contributed(E_HALF_PAID, W3, 1103), W4, 1104) == E_ALL_PAID
  {
    var k := Contributed(E_HALF_PAID, W3, 1103);
    assert k.members[W4 := Member(3, AMOUNT, false)] == E_ALL_PAID.members;
    assert k.contributions[(0, W4) := Contribution(AMOUNT, 1104)] == ROUND0_PAYMENTS;
  }

  /** The payout of round 0 sends the four payments to w1. */
  lemma RoundZeroPayout()
    requires WellFormed(E_ALL_PAID)
    ensures PayoutStep(E_ALL_PAID) == Ok(Step(Payout(W1, 4 * AMOUNT), E_PAID_OUT))
  {
    assert RoundSettled(E_ALL_PAID) by {
      assert E_ALL_PAID.order == [W1, W2, W3, W4];
    }
    FullRoundPot(E_ALL_PAID);
    assert E_ALL_PAID.members[W1 := Member(0, AMOUNT, true)] == E_PAID_OUT.members;
  }

  /** In round 1, w1 pays at 2201. */
  lemma RoundOneCreatorPays()
    requires WellFormed(E_PAID_OUT)
    ensures ContributeStep(E_PAID_OUT, W1, 2201) == Ok(Step(AMOUNT, E_LATE1))
  {
    ContributeTaken(E_PAID_OUT, W1, 2201);
    RoundOneCreatorRecord();
  }

  /** What w1's round-1 payment leaves behind. */
  lemma RoundOneCreatorRecord()
    ensures W1 in E_PAID_OUT.members && Contributed(E_PAID_OUT, W1, 2201) == E_LATE1
  {
    assert E_PAID_OUT.members[W1 := Member(0, 2 * AMOUNT, true)] == E_LATE1.members;
  }

  /** Then w3 and w4 pay round 1; w2 does not. */
  lemma RoundOneWithoutW2()
    requires WellFormed(E_LATE1)
    ensures ContributeStep(E_LATE1, W3, 2202).Ok?
    ensures ContributeStep(ContributeStep(E_LATE1, W3, 2202).value.next, W4, 2203) == Ok(Step(AMOUNT, E_LATE))
  {
    RoundOneRecord();
    ContributeTaken(E_LATE1, W3, 2202);
    ContributeKeepsWellFormed(E_LATE1, W3, 2202);
    var k := Contributed(E_LATE1, W3, 2202);
    assert k.info.round == 1 && (1, W4) !in k.contributions;
    ContributeTaken(k, W4, 2203);
  }

  /** What the round-1 payments of w3 and w4 leave behind. */
  lemma RoundOneRecord()
    ensures W3 in E_LATE1.members && W4 in Contributed(E_LATE1, W3, 2202).members
    ensures Contributed(Contributed(E_LATE1, W3, 2202), W4, 2203) == E_LATE
  {
    var k := Contributed(E_LATE1, W3, 2202);
    assert k.members[W4 := Member(3, 2 * AMOUNT, false)] == E_LATE.members;
  }

  /** A first payment of the round by a member still in answers the amount and applies the `Contributed` update. */
  lemma ContributeTaken(r: KoloRecord, p: Principal, height: nat)
    requires WellFormed(r) && r.info.active && height >= r.info.startBlock
    requires p in r.members && !r.members[p].withdrawn && (r.info.round, p) !in r.contributions
    ensures ContributeStep(r, p, height) == Ok(Step(r.info.amount, Contributed(r, p, height)))
  {
  }

  /** An eligible exit answers the net amount and applies the `Withdrawn` update. */
  lemma ExitTaken(r: KoloRecord, p: Principal, height: nat)
    requires WellFormed(r) && CanExit(r, p, height)
    ensures WithdrawStep(r, p, height) == Ok(Step(NetWithdrawal(r.info.amount), Withdrawn(r, p, height)))
  {
  }

  /**
   * Past the round-1 deadline, w2, who missed the round, leaves: it gets
   * 800,000 back, is marked withdrawn with reputation 50, a default is
   * recorded, and the 200,000 slash opens the compensation pool.
   */
  lemma EmergencyExit()
    requires WellFormed(E_LATE)
    ensures WithdrawStep(E_LATE, W2, 3017) == Ok(Step(800000, E_EXITED))
    ensures E_EXITED.members[W2].withdrawn && E_EXITED.members[W2].reputation == 50
    ensures W2 in E_EXITED.defaults && E_EXITED.pool == Some(Pool(200000, 0, 66666))
  {
    ExitEligibility(0);
    ExitTaken(E_LATE, W2, 3017);
    NetWithdrawalExamples();
    FirstExitRecord();
  }

  /** What w2's exit leaves behind. */
  lemma FirstExitRecord()
    ensures W2 in E_LATE.members && Withdrawn(E_LATE, W2, 3017) == E_EXITED
  {
    var next := Withdrawn(E_LATE, W2, 3017);
    assert next.members == E_EXITED.members;
    assert next.defaults == E_EXITED.defaults;
    ThreeEligible(E_EXITED);
    assert next.pool == E_EXITED.pool;
  }

  /**
   * A principal that never joined cannot exit; w1, who has received its
   * payout, cannot exit; and w2 cannot exit twice.
   */
  lemma ExitRefusals()
    requires WellFormed(E_PAID_OUT) && WellFormed(E_LATE) && WellFormed(E_EXITED)
    ensures WithdrawStep(E_LATE, W5, 3017) == Err(NotMember)
    ensures WithdrawStep(E_PAID_OUT, W1, 3017) == Err(EmergencyNotAvailable)
    ensures WithdrawStep(E_EXITED, W2, 3018) == Err(AlreadyWithdrawn)
  {
    assert W5 !in E_LATE.members;
  }

  /** With w2's default on record, w1, w3 and w4 are the members eligible for a share. */
  lemma ThreeEligible(r: KoloRecord)
    requires r.order == [W1, W2, W3, W4] && r.defaults.Keys == {W2}
    ensures EligibleCount(r) == 3
  {
    var d := r.defaults.Keys;
    assert [W1][..0] == [];
    assert CountUndefaulted([W1], d) == 1;
    assert [W1, W2][..1] == [W1];
    assert CountUndefaulted([W1, W2], d) == 1;
    assert [W1, W2, W3][..2] == [W1, W2];
    assert CountUndefaulted([W1, W2, W3], d) == 2;
    assert r.order[..3] == [W1, W2, W3];
  }

  /** w1 claims the share of 200,000 / 3 = 66,666 fixed when the pool opened. */
  lemma FirstShareClaimed()
    requires WellFormed(E_EXITED)
    ensures ClaimStep(E_EXITED, W1) == Ok(Step(66666, E_CLAIMED1))
  {
    ClaimTaken(E_EXITED, W1);
    FirstClaimRecord();
  }

  /** A claim the pool covers answers the share and applies the `Claimed` update. */
  lemma ClaimTaken(r: KoloRecord, p: Principal)
    requires WellFormed(r) && p in r.members && p !in r.defaults && p !in r.claimed && r.pool.Some?
    requires 0 < r.pool.value.share && r.pool.value.distributed + r.pool.value.share <= r.pool.value.totalSlashed
    ensures ClaimStep(r, p) == Ok(Step(r.pool.value.share, Claimed(r, p)))
  {
  }

  /** What w1's claim leaves behind. */
  lemma FirstClaimRecord()
    ensures E_EXITED.pool.Some? && Claimed(E_EXITED, W1) == E_CLAIMED1
  {
    assert E_EXITED.claimed + {W1} == {W1};
  }

  /** w3 claims the same 66,666. */
  lemma SecondShareClaimed()
    requires WellFormed(E_CLAIMED1)
    ensures ClaimStep(E_CLAIMED1, W3) == Ok(Step(66666, E_CLAIMED2))
  {
    assert {W1} + {W3} == {W1, W3};
  }

  /** w4 claims the same 66,666; 199,998 of the pool has then been paid out. */
  lemma ThirdShareClaimed()
    requires WellFormed(E_CLAIMED2)
    ensures ClaimStep(E_CLAIMED2, W4) == Ok(Step(66666, E_CLAIMED3))
    ensures E_CLAIMED3.pool == Some(Pool(200000, 199998, 66666))
  {
    assert {W1, W3} + {W4} == {W1, W3, W4};
  }

  /** Round 1 is settled once w1, w3 and w4 have paid and w2 has left; its pot is their three payments. */
  lemma RoundOnePotAfterExit()
    ensures RoundSettled(E_CLAIMED2) && RoundPot(E_CLAIMED2) == 3 * AMOUNT
  {
    var paid := E_CLAIMED2.contributions.Keys;
    assert E_CLAIMED2.order == [W1, W2, W3, W4];
    assert (1, W1) in paid && (1, W2) !in paid && (1, W3) in paid && (1, W4) in paid;
    assert [W1, W2, W3, W4][..3] == [W1, W2, W3];
    assert [W1, W2, W3][..2] == [W1, W2];
    assert [W1, W2][..1] == [W1];
    assert [W1][..0] == [];
    assert CountPaid([W1], 1, paid) == 1;
    assert CountPaid([W1, W2], 1, paid) == 1;
    assert CountPaid([W1, W2, W3], 1, paid) == 2;
    assert CountPaid([W1, W2, W3, W4], 1, paid) == 3;
  }

  /**
   * A default marked after the pool opened does not shrink the share left
   * to the others: once w1 and w3 have claimed, round 1 is paid out (to w2,
   * who has left), w3 is marked in default in round 2, and w4 still takes
   * its 66,666.
   */
  lemma LateDefaultKeepsShare()
    requires WellFormed(E_CLAIMED2)
    ensures PayoutStep(E_CLAIMED2).Ok?
    ensures PayoutStep(E_CLAIMED2).value.answer == Payout(W2, 3 * AMOUNT)
    ensures var r1 := PayoutStep(E_CLAIMED2).value.next;
      && MarkDefaultStep(r1, W3, W1, 4025).Ok?
      && ClaimStep(MarkDefaultStep(r1, W3, W1, 4025).value.next, W4).Ok?
      && ClaimStep(MarkDefaultStep(r1, W3, W1, 4025).value.next, W4).value.answer == 66666
  {
    RoundOnePotAfterExit();
  }

  /** The member who left cannot claim, and no member can claim twice. */
  lemma ClaimRefusals()
    requires WellFormed(E_EXITED) && WellFormed(E_CLAIMED1)
    ensures ClaimStep(E_EXITED, W2) == Err(NotAuthorized)
    ensures ClaimStep(E_CLAIMED1, W1) == Err(InsufficientBalance)
  {
  }

  /** After the creator marks w2 in default at height 3017. */
  const E_DEFAULTED := E_LATE.(
    members := E_LATE.members[W2 := MemberInfo(1, 2, AMOUNT, 1, false, false, 50)],
    defaults := map[W2 := DefaultRecord(1, 3017)])

  /**
   * Only the creator may mark a default, only past the round's deadline, and
   * only for a member who has not paid the round; a default marked on w2
   * counts one missed payment and halves its reputation to 50.
   */
  lemma MarkingDefaults()
    requires WellFormed(E_LATE)
    ensures MarkDefaultStep(E_LATE, W2, W3, 3017) == Err(NotAuthorized)
    ensures MarkDefaultStep(E_LATE, W2, W1, 2204) == Err(EmergencyNotAvailable)
    ensures MarkDefaultStep(E_LATE, W1, W1, 3017) == Err(AlreadyPaid)
    ensures MarkDefaultStep(E_LATE, W2, W1, 3017) == Ok(Step(true, E_DEFAULTED))
    ensures E_DEFAULTED.members[W2].missedPayments == 1 && E_DEFAULTED.members[W2].reputation == 50
  {
  }

  /**
   * Once w2 has left, its payment for round 1 is refused, yet the creator can
   * still mark it in default, and again in the same round one block later:
   * each mark counts one more missed payment and moves the default's height.
   */
  lemma LeaverStillMarked()
    requires WellFormed(E_EXITED)
    ensures ContributeStep(E_EXITED, W2, 3017) == Err(AlreadyWithdrawn)
    ensures var s1 := MarkDefaultStep(E_EXITED, W2, W1, 3017);
      && s1.Ok? && s1.value.next.members[W2].missedPayments == 1 && s1.value.next.members[W2].reputation == 0
      && MarkDefaultStep(s1.value.next, W2, W1, 3018).Ok?
      && MarkDefaultStep(s1.value.next, W2, W1, 3018).value.next.members[W2].missedPayments == 2
      && MarkDefaultStep(s1.value.next, W2, W1, 3018).value.next.defaults[W2] == DefaultRecord(1, 3018)
  {
  }

  /**
   * 200 blocks after w3 and w4 paid round 1, at height 2414, the round-1
   * deadline of block 3016 is still ahead: neither w2's exit nor a default
   * marked on w2 is open yet.
   */
  lemma EarlyExitRefused()
    requires WellFormed(E_LATE)
    ensures Deadline(E_LATE) == 3016
    ensures WithdrawStep(E_LATE, W2, 2414) == Err(EmergencyNotAvailable)
    ensures MarkDefaultStep(E_LATE, W2, W1, 2414) == Err(EmergencyNotAvailable)
  {
  }

  /** Past the deadline w2, who missed the round, may exit; w1, already paid out, may not at any height. */
  lemma ExitEligibility(height: nat)
    ensures CanExit(E_LATE, W2, 3017)
    ensures !CanExit(E_PAID_OUT, W1, height)
  {
  }

  /** After w3 too has left, at height 4317. */
  const E_TWO_EXITS := E_EXITED.(
    members := E_EXITED.members[W3 := MemberInfo(2, 3, 2 * AMOUNT, 0, false, true, 50)],
    defaults := E_EXITED.defaults[W3 := DefaultRecord(1, 4317)],
    pool := Some(Pool(400000, 0, 66666)))

  /**
   * With no payout triggered, round 1 goes on: the members who paid it cannot
   * pay again, and w3 can still leave; both exits are then on record and the
   * pool holds both slashes.
   */
  lemma TwoDefaults()
    requires WellFormed(E_EXITED)
    ensures WithdrawStep(E_EXITED, W3, 4317) == Ok(Step(800000, E_TWO_EXITS))
    ensures W2 in E_TWO_EXITS.defaults && W3 in E_TWO_EXITS.defaults
  {
    assert CanExit(E_EXITED, W3, 4317);
    ExitTaken(E_EXITED, W3, 4317);
    NetWithdrawalExamples();
    SecondExitRecord();
  }

  /** What w3's exit leaves behind. */
  lemma SecondExitRecord()
    ensures W3 in E_EXITED.members && Withdrawn(E_EXITED, W3, 4317) == E_TWO_EXITS
  {
    var next := Withdrawn(E_EXITED, W3, 4317);
    assert next.members == E_TWO_EXITS.members;
    assert next.defaults == E_TWO_EXITS.defaults;
  }

  /** Later in the unpaid-out round 1, w1 still cannot pay it again. */
  lemma RoundOneStaysPaid()
    requires WellFormed(E_EXITED)
    ensures ContributeStep(E_EXITED, W1, 4117) == Err(AlreadyPaid)
  {
  }

  /** Every record of the four-member walkthrough up to the first payout is reached from create-kolo by the calls above. */
  lemma FourMemberRoundZeroReached()
    ensures WellFormed(E_GATHERED) && WellFormed(E_HALF_PAID) && WellFormed(E_ALL_PAID) && WellFormed(E_PAID_OUT)
  {
    GatherFour();
    RoundZeroFirstHalf();
    RoundZeroSecondHalf();
    RoundZeroPayout();
  }

  /** So is every later record: round 1, the exits, the claims and the default. */
  lemma FourMemberExitsReached()
    ensures WellFormed(E_LATE1) && WellFormed(E_LATE) && WellFormed(E_EXITED) && WellFormed(E_DEFAULTED)
    ensures WellFormed(E_CLAIMED1) && WellFormed(E_CLAIMED2) && WellFormed(E_CLAIMED3) && WellFormed(E_TWO_EXITS)
  {
    FourMemberRoundZeroReached();
    RoundOneCreatorPays();
    RoundOneWithoutW2();
    EmergencyExit();
    MarkingDefaults();
    FirstShareClaimed();
    SecondShareClaimed();
    ThirdShareClaimed();
    TwoDefaults();
  }

  // ---------------------------------------------------------------------------
  // A kolo of 5,000: the minimum slash

  const SMALL_INFO := KoloInfo(W1, "Small Kolo", 5000, 1008, 3, 5000, 0, true, 0)

  /** What create-kolo stores when w1 creates the kolo at height 1, to start at block 5000. */
  const SMALL_KOLO := NewKolo(SMALL_INFO, 1)

  const S_JOINED := KoloRecord(SMALL_INFO, [W1, W2],
    map[W1 := Member(0, 0, false), W2 := Member(1, 0, false)], map[], map[], None, {})

  /** After both members have paid round 0, at heights 5101 and 5102. */
  const S_PAID := KoloRecord(SMALL_INFO.(totalCollected := 10000), [W1, W2],
    map[W1 := Member(0, 5000, false), W2 := Member(1, 5000, false)],
    map[(0, W1) := Contribution(5000, 5101), (0, W2) := Contribution(5000, 5102)], map[], None, {})

  /**
   * After w2's exit at height 6401, past the round-0 deadline of block 6008:
   * the 1,000 slash opens the pool, all of it the share of w1, the one
   * member left without a default.
   */
  const S_EXITED := S_PAID.(
    members := S_PAID.members[W2 := MemberInfo(1, 2, 5000, 0, false, true, 50)],
    defaults := map[W2 := DefaultRecord(0, 6401)],
    pool := Some(Pool(1000, 0, 1000)))

  /** w2 joins at height 2. */
  lemma SmallKoloGathered()
    ensures WellFormed(SMALL_KOLO)
    ensures JoinStep(SMALL_KOLO, W2, 2) == Ok(Step(true, S_JOINED))
  {
    NewKoloWellFormed(SMALL_INFO, 1);
    assert [W1] + [W2] == [W1, W2];
  }

  /** Both members pay round 0. */
  lemma SmallKoloPaid()
    requires WellFormed(S_JOINED)
    ensures ContributeStep(S_JOINED, W1, 5101).Ok?
    ensures ContributeStep(ContributeStep(S_JOINED, W1, 5101).value.next, W2, 5102) == Ok(Step(5000, S_PAID))
  {
    var k := ContributeStep(S_JOINED, W1, 5101).value.next;
    assert k.members[W2 := Member(1, 5000, false)] == S_PAID.members;
  }

  /**
   * With no payout, w1 cannot pay round 0 again; w2 leaves past the deadline
   * and gets 4,000: 20% of 5,000 is exactly the 1,000 minimum slash.
   */
  lemma SmallKoloExit()
    requires WellFormed(S_PAID)
    ensures ContributeStep(S_PAID, W1, 6201) == Err(AlreadyPaid)
    ensures WithdrawStep(S_PAID, W2, 6401) == Ok(Step(4000, S_EXITED))
  {
    assert [W1, W2][..1] == [W1];
    assert CountUndefaulted([W1, W2], {W2}) == 1;
    assert S_PAID.defaults[W2 := DefaultRecord(0, 6401)].Keys == {W2};
  }

  /** Every record of the small walkthrough is reached from create-kolo by the calls above. */
  lemma SmallKoloRecordsReached()
    ensures WellFormed(S_JOINED) && WellFormed(S_PAID) && WellFormed(S_EXITED)
  {
    SmallKoloGathered();
    SmallKoloPaid();
    SmallKoloExit();
  }
}
