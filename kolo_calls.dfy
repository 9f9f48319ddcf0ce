/**
 * What each public call of the KoloX contract does to one kolo: the checks it
 * makes, in the order it makes them, the error each failed check answers, and
 * on success the answer and the kolo's next record.
 *
 * Each call is a function of the kolo's record, the caller and the block
 * height.  Its contract says when it succeeds, exactly when it answers each
 * of its refusals, what the update does and that the update keeps the record
 * well formed.  The contract class in module Kolo applies these to its stored
 * kolos.
 */
module KoloCalls {
  import opened Wrappers
  import opened KoloRules
  import opened KoloState

  /** Why a public call was refused. */
  datatype KoloError =
    | NotAuthorized
    | KoloNotFound
    | CannotJoin
    | AlreadyMember
    | NotMember
    | AlreadyPaid
    | NotStarted
    | PayoutNotReady
    | KoloNotActive
    | InvalidParams
    | EmergencyNotAvailable
    | AlreadyWithdrawn
    | InsufficientBalance

  /** The transfer a successful payout makes from the kolo's escrow. */
  datatype Payout = Payout(recipient: Principal, amount: nat)

  /** A successful call: what it answers, and the kolo's record afterwards. */
  datatype Step<T> = Step(answer: T, next: KoloRecord)

  /** The slashed total of a pool, zero before the pool exists. */
  function PoolTotal(pool: Option<Pool>): nat
  {
    if pool.Some? then pool.value.totalSlashed else 0
  }

  /**
   * join-kolo: while the kolo is open (active, before its start block, not
   * full), appends the caller to the payout order at the next position.
   */
  function JoinStep(r: KoloRecord, caller: Principal, height: nat): (s: Result<Step<bool>, KoloError>)
    requires WellFormed(r)
    ensures s.Ok? <==>
      r.info.active && height < r.info.startBlock && |r.order| < r.info.maxMembers && caller !in r.order
    ensures s == Err(CannotJoin) <==>
      !r.info.active || height >= r.info.startBlock || |r.order| >= r.info.maxMembers
    ensures height >= r.info.startBlock ==> s == Err(CannotJoin)
    ensures s == Err(AlreadyMember) <==>
      r.info.active && height < r.info.startBlock && |r.order| < r.info.maxMembers && caller in r.order
    ensures s.Ok? ==>
      var next := s.value.next;
      && next == r.(order := r.order + [caller], members := r.members[caller := NewMember(|r.order|, height)])
      && WellFormed(next)
      && next.members[caller].reputation == INITIAL_REPUTATION
      && |next.order| <= next.info.maxMembers
  {
    MembershipIsOrder(r, caller);
    if !r.info.active || height >= r.info.startBlock || |r.order| >= r.info.maxMembers then Err(CannotJoin)
    else if caller in r.members then Err(AlreadyMember)
    else
      JoinKeepsWellFormed(r, caller, height);
      Ok(Step(true, Joined(r, caller, height)))
  }

  /**
   * contribute: records the caller's payment of the kolo amount for the
   * current round, once; answers the amount moved into the kolo's escrow.
   * A member who has left by emergency withdrawal is refused with
   * AlreadyWithdrawn, checked after membership and before AlreadyPaid; no
   * test pays after an exit, so this refusal is the model's rule.
   */
  function ContributeStep(r: KoloRecord, caller: Principal, height: nat): (s: Result<Step<nat>, KoloError>)
    requires WellFormed(r)
    ensures s.Ok? <==>
      && r.info.active && height >= r.info.startBlock
      && caller in r.members && !r.members[caller].withdrawn
      && (r.info.round, caller) !in r.contributions
    ensures s == Err(KoloNotActive) <==> !r.info.active
    ensures s == Err(NotStarted) <==> r.info.active && height < r.info.startBlock
    ensures s == Err(NotMember) <==> r.info.active && height >= r.info.startBlock && caller !in r.order
    ensures s == Err(AlreadyWithdrawn) <==>
      r.info.active && height >= r.info.startBlock && caller in r.members && r.members[caller].withdrawn
    ensures s == Err(AlreadyPaid) <==>
      && r.info.active && height >= r.info.startBlock && caller in r.members && !r.members[caller].withdrawn
      && (r.info.round, caller) in r.contributions
    ensures s.Ok? ==>
      var k, m, next := r.info, r.members[caller], s.value.next;
      && s.value.answer == k.amount
      && next == r.(info := k.(totalCollected := k.totalCollected + k.amount),
                    contributions := r.contributions[(k.round, caller) := Contribution(k.amount, height)],
                    members := r.members[caller := m.(totalContributions := m.totalContributions + k.amount)])
      && WellFormed(next)
  {
    MembershipIsOrder(r, caller);
    if !r.info.active then Err(KoloNotActive)
    else if height < r.info.startBlock then Err(NotStarted)
    else if caller !in r.members then Err(NotMember)
    else if r.members[caller].withdrawn then Err(AlreadyWithdrawn)
    else if (r.info.round, caller) in r.contributions then Err(AlreadyPaid)
    else
      ContributeKeepsWellFormed(r, caller, height);
      Ok(Step(r.info.amount, Contributed(r, caller, height)))
  }

  /**
   * trigger-payout: anyone may call it once every remaining member has paid
   * the round; pays the round's contributions to the member whose position
   * is the round number, and moves to the next round (the last round
   * completes the kolo).
   */
  function PayoutStep(r: KoloRecord): (s: Result<Step<Payout>, KoloError>)
    requires WellFormed(r)
    ensures s.Ok? <==> r.info.active && RoundSettled(r)
    ensures s == Err(KoloNotActive) <==> !r.info.active
    ensures s == Err(PayoutNotReady) <==> r.info.active && !RoundSettled(r)
    ensures s.Ok? ==>
      var p, next := s.value.answer.recipient, s.value.next;
      && r.info.round < |r.order| && p == r.order[r.info.round]
      && p in r.members && r.members[p].position == r.info.round && !r.members[p].hasReceivedPayout
      && s.value.answer.amount == RoundPot(r)
      && next == r.(info := r.info.(round := r.info.round + 1, active := r.info.round + 1 < |r.order|),
                    members := r.members[p := r.members[p].(hasReceivedPayout := true)])
      && WellFormed(next)
  {
    if !r.info.active then Err(KoloNotActive)
    else if !RoundSettled(r) then Err(PayoutNotReady)
    else
      PayoutKeepsWellFormed(r);
      Ok(Step(Payout(Recipient(r), RoundPot(r)), PaidOut(r)))
  }

  /**
   * emergency-withdraw: an eligible member leaves the kolo, receiving the
   * contribution less the slash; the slash goes to the compensation pool,
   * the member is marked withdrawn, loses reputation, and a default is
   * recorded.  The first slash opens the pool and fixes each claimable share
   * at an equal part of it among the members then without a default.
   */
  function WithdrawStep(r: KoloRecord, caller: Principal, height: nat): (s: Result<Step<nat>, KoloError>)
    requires WellFormed(r)
    ensures s.Ok? <==> CanExit(r, caller, height)
    ensures s == Err(NotMember) <==> caller !in r.order
    ensures s == Err(AlreadyWithdrawn) <==> caller in r.members && r.members[caller].withdrawn
    ensures s == Err(EmergencyNotAvailable) <==>
      caller in r.members && !r.members[caller].withdrawn && !CanExit(r, caller, height)
    ensures s.Ok? ==>
      var m, slash, next := r.members[caller], SlashAmount(r.info.amount), s.value.next;
      && s.value.answer + slash == r.info.amount
      && s.value.answer < r.info.amount
      && next == r.(members := r.members[caller := m.(withdrawn := true, reputation := Penalize(m.reputation))],
                    defaults := r.defaults[caller := DefaultRecord(r.info.round, height)],
                    pool := Some(if r.pool.Some? then r.pool.value.(totalSlashed := r.pool.value.totalSlashed + slash)
                                 else Pool(slash, 0, EqualShare(slash, EligibleCount(next)))))
      && WellFormed(next)
      && next.pool.value.totalSlashed == PoolTotal(r.pool) + slash
      && (r.pool.None? ==> next.pool.value.share * EligibleCount(next) <= next.pool.value.totalSlashed)
  {
    MembershipIsOrder(r, caller);
    if caller !in r.members then Err(NotMember)
    else if r.members[caller].withdrawn then Err(AlreadyWithdrawn)
    else if !CanExit(r, caller, height) then Err(EmergencyNotAvailable)
    else
      WithdrawKeepsWellFormed(r, caller, height);
      Ok(Step(NetWithdrawal(r.info.amount), Withdrawn(r, caller, height)))
  }

  /**
   * mark-default: the creator records that `member` missed the current
   * round, once its deadline has passed; the member's missed payments go up
   * by one and its reputation down by the penalty.  No value moves.  The
   * model does not refuse a member who has left, nor a second mark in the
   * same round: each mark counts one more missed payment and records the
   * later height (see `KoloScenarios.LeaverStillMarked`).
   */
  function MarkDefaultStep(r: KoloRecord, member: Principal, caller: Principal, height: nat)
    : (s: Result<Step<bool>, KoloError>)
    requires WellFormed(r)
    ensures s.Ok? <==>
      && caller == r.info.creator && member in r.members
      && (r.info.round, member) !in r.contributions && height > Deadline(r)
    ensures s == Err(NotAuthorized) <==> caller != r.info.creator
    ensures s == Err(NotMember) <==> caller == r.info.creator && member !in r.members
    ensures s == Err(AlreadyPaid) <==>
      caller == r.info.creator && member in r.members && (r.info.round, member) in r.contributions
    ensures s == Err(EmergencyNotAvailable) <==>
      && caller == r.info.creator && member in r.members
      && (r.info.round, member) !in r.contributions && height <= Deadline(r)
    ensures s.Ok? ==>
      var m, next := r.members[member], s.value.next;
      && next == r.(members := r.members[member := m.(missedPayments := m.missedPayments + 1,
                                                       reputation := Penalize(m.reputation))],
                    defaults := r.defaults[member := DefaultRecord(r.info.round, height)])
      && WellFormed(next)
  {
    if caller != r.info.creator then Err(NotAuthorized)
    else if member !in r.members then Err(NotMember)
    else if (r.info.round, member) in r.contributions then Err(AlreadyPaid)
    else if height <= Deadline(r) then Err(EmergencyNotAvailable)
    else
      MarkDefaultKeepsWellFormed(r, member, height);
      Ok(Step(true, Defaulted(r, member, height)))
  }

  /**
   * claim-slash-share: a member with no default on record takes, once, the
   * share fixed when the compensation pool was opened, as long as the pool
   * still holds it.
   */
  function ClaimStep(r: KoloRecord, caller: Principal): (s: Result<Step<nat>, KoloError>)
    requires WellFormed(r)
    ensures s.Ok? <==>
      && caller in r.members && caller !in r.defaults && r.pool.Some? && caller !in r.claimed
      && 0 < r.pool.value.share && r.pool.value.distributed + r.pool.value.share <= r.pool.value.totalSlashed
    ensures s == Err(NotMember) <==> caller !in r.order
    ensures s == Err(NotAuthorized) <==> caller in r.members && caller in r.defaults
    ensures s == Err(InsufficientBalance) <==>
      && caller in r.members && caller !in r.defaults
      && (|| r.pool.None? || caller in r.claimed || r.pool.value.share == 0
          || r.pool.value.distributed + r.pool.value.share > r.pool.value.totalSlashed)
    ensures s.Ok? ==>
      var pool, next := r.pool.value, s.value.next;
      && s.value.answer == pool.share
      && next == r.(pool := Some(pool.(distributed := pool.distributed + pool.share)), claimed := r.claimed + {caller})
      && WellFormed(next)
  {
    MembershipIsOrder(r, caller);
    if caller !in r.members then Err(NotMember)
    else if caller in r.defaults then Err(NotAuthorized)
    else if r.pool.None? || caller in r.claimed then Err(InsufficientBalance)
    else
      var pool := r.pool.value;
      if pool.share == 0 || pool.distributed + pool.share > pool.totalSlashed then Err(InsufficientBalance)
      else
        ClaimKeepsWellFormed(r, caller);
        Ok(Step(pool.share, Claimed(r, caller)))
  }

  // ---------------------------------------------------------------------------
  // Calls that cannot be repeated

  /** A member who has paid the round cannot pay it again later in that round. */
  lemma ContributeOncePerRound(r: KoloRecord, caller: Principal, height: nat, later: nat)
    requires WellFormed(r) && ContributeStep(r, caller, height).Ok? && later >= height
    ensures ContributeStep(ContributeStep(r, caller, height).value.next, caller, later) == Err(AlreadyPaid)
  {
  }

  /** A member who has left cannot leave again. */
  lemma WithdrawOnce(r: KoloRecord, caller: Principal, height: nat, later: nat)
    requires WellFormed(r) && WithdrawStep(r, caller, height).Ok?
    ensures WithdrawStep(WithdrawStep(r, caller, height).value.next, caller, later) == Err(AlreadyWithdrawn)
  {
  }

  /** A member who has claimed its share cannot claim again. */
  lemma ClaimOnce(r: KoloRecord, caller: Principal)
    requires WellFormed(r) && ClaimStep(r, caller).Ok?
    ensures ClaimStep(ClaimStep(r, caller).value.next, caller) == Err(InsufficientBalance)
  {
  }
}
