/**
 * The records of the KoloX contract's storage and the invariant they keep.
 *
 * The contract keeps, for every kolo, its record, its payout order, its
 * member records, the paid contributions by (round, member), the latest
 * default of each member, its compensation pool and the set of members who
 * have claimed a compensation share.  Here these are grouped per kolo in a
 * `KoloRecord`; the contract's maps keyed by (kolo, member) and by
 * (kolo, round, member) are the union of these per-kolo maps.
 *
 * `WellFormed` is the invariant of one kolo's record, split into one
 * predicate per map; every kind of update the contract performs has a lemma
 * here showing that it keeps `WellFormed`.
 */
module KoloState {
  import opened Wrappers
  import opened KoloRules

  /** A Stacks account. */
  type Principal = string

  type KoloId = nat

  /** The kolo record (get-kolo). */
  datatype KoloInfo = KoloInfo(
    creator: Principal,
    name: string,
    amount: nat,
    frequency: nat,
    maxMembers: nat,
    startBlock: nat,
    round: nat,
    active: bool,
    totalCollected: nat)

  /** The member record (get-member-info). */
  datatype MemberInfo = MemberInfo(
    position: nat,
    joinedAt: nat,
    totalContributions: nat,
    missedPayments: nat,
    hasReceivedPayout: bool,
    withdrawn: bool,
    reputation: nat)

  /** A paid round contribution; an absent entry means "not paid". */
  datatype Contribution = Contribution(amount: nat, paidAt: nat)

  /** The latest recorded default of a member (get-default-info). */
  datatype DefaultRecord = DefaultRecord(round: nat, recordedAt: nat)

  /**
   * The compensation pool of a kolo (get-compensation-pool).  `share` is what
   * each eligible member may claim; it is fixed when the first slash opens
   * the pool.
   */
  datatype Pool = Pool(totalSlashed: nat, distributed: nat, share: nat)

  /**
   * Everything stored about one kolo.  The member at index i of `order` is
   * paid in round i; `claimed` holds the members who have taken their
   * compensation share.
   */
  datatype KoloRecord = KoloRecord(
    info: KoloInfo,
    order: seq<Principal>,
    members: map<Principal, MemberInfo>,
    contributions: map<(nat, Principal), Contribution>,
    defaults: map<Principal, DefaultRecord>,
    pool: Option<Pool>,
    claimed: set<Principal>)

  /** The record of a member who has just joined at `position`. */
  function NewMember(position: nat, height: nat): MemberInfo
  {
    MemberInfo(position, height, 0, 0, false, false, INITIAL_REPUTATION)
  }

  /** A freshly created kolo: its creator is its only member, at position 0. */
  function NewKolo(info: KoloInfo, height: nat): KoloRecord
  {
    KoloRecord(info, [info.creator], map[info.creator := NewMember(0, height)], map[], map[], None, {})
  }

  // ---------------------------------------------------------------------------
  // The invariant of one kolo

  /**
   * Parameters in range, a payout order that starts with the creator and
   * never exceeds the cap, and a round that ends the kolo when it reaches the
   * member count.
   */
  predicate KoloShape(k: KoloInfo, order: seq<Principal>)
  {
    && k.amount >= MIN_SLASH_AMOUNT
    && MIN_MEMBERS <= k.maxMembers <= MAX_MEMBERS
    && 1 <= |order| <= k.maxMembers
    && order[0] == k.creator
    && k.round <= |order|
    && (k.active <==> k.round < |order|)
  }

  /**
   * The record of member `p`: its position is where `p` stands in the payout
   * order, it has been paid exactly when its round has passed, and its
   * reputation lies between 0 and the initial 100.
   */
  predicate MemberShape(m: MemberInfo, k: KoloInfo, order: seq<Principal>, p: Principal)
  {
    && m.position < |order|
    && order[m.position] == p
    && (m.hasReceivedPayout <==> m.position < k.round)
    && m.reputation <= INITIAL_REPUTATION
  }

  /** Every position of the payout order holds a member whose record names that position. */
  ghost predicate OrderFilled(order: seq<Principal>, members: map<Principal, MemberInfo>)
  {
    forall i :: 0 <= i < |order| ==> order[i] in members && members[order[i]].position == i
  }

  /** Every member record has its shape; a withdrawn member has a default on record. */
  ghost predicate MembersPlaced(members: map<Principal, MemberInfo>, k: KoloInfo, order: seq<Principal>,
                               defaulted: set<Principal>)
  {
    forall p :: p in members ==> MemberShape(members[p], k, order, p) && (members[p].withdrawn ==> p in defaulted)
  }

  /** Paid contributions are by members, for rounds up to the current one, of exactly the kolo amount. */
  ghost predicate ContributionsRecorded(contributions: map<(nat, Principal), Contribution>,
                                        memberKeys: set<Principal>, k: KoloInfo)
  {
    forall round, p :: (round, p) in contributions ==>
      p in memberKeys && round <= k.round && contributions[(round, p)].amount == k.amount
  }

  /** Defaults are recorded against members, for rounds up to the current one. */
  ghost predicate DefaultsRecorded(defaults: map<Principal, DefaultRecord>, memberKeys: set<Principal>, k: KoloInfo)
  {
    forall p :: p in defaults ==> p in memberKeys && defaults[p].round <= k.round
  }

  /** What `payments` contributions of `amount` each add up to. */
  function Collected(amount: nat, payments: nat): nat
  {
    if payments == 0 then 0 else Collected(amount, payments - 1) + amount
  }

  /** The sum of `payments` contributions is the amount times their number. */
  lemma {:induction false} CollectedIsProduct(amount: nat, payments: nat)
    ensures Collected(amount, payments) == amount * payments
  {
    if payments > 0 {
      CollectedIsProduct(amount, payments - 1);
    }
  }

  /** The kolo has collected one contribution amount per recorded payment. */
  predicate CollectedRecorded(k: KoloInfo, contributions: map<(nat, Principal), Contribution>)
  {
    k.totalCollected == Collected(k.amount, |contributions|)
  }

  /** The pool has not paid out more than was slashed into it. */
  predicate PoolBounded(pool: Option<Pool>)
  {
    pool.Some? ==> pool.value.distributed <= pool.value.totalSlashed
  }

  /** How the parts of one kolo's record fit together, apart from its running total. */
  ghost predicate Arranged(r: KoloRecord)
  {
    && KoloShape(r.info, r.order)
    && OrderFilled(r.order, r.members)
    && MembersPlaced(r.members, r.info, r.order, r.defaults.Keys)
    && ContributionsRecorded(r.contributions, r.members.Keys, r.info)
    && DefaultsRecorded(r.defaults, r.members.Keys, r.info)
    && PoolBounded(r.pool)
    && r.claimed <= r.members.Keys
  }

  /**
   * The pool holds one slash per member who has left and has paid out one
   * share per claim; before the first exit there is no pool, and nobody has
   * left or claimed.
   */
  predicate PoolRecorded(r: KoloRecord)
  {
    if r.pool.None? then CountLeavers(r.order, r.members) == 0 && r.claimed == {}
    else
      && r.pool.value.totalSlashed == Collected(SlashAmount(r.info.amount), CountLeavers(r.order, r.members))
      && r.pool.value.distributed == Collected(r.pool.value.share, |r.claimed|)
  }

  ghost predicate WellFormed(r: KoloRecord)
  {
    Arranged(r) && CollectedRecorded(r.info, r.contributions) && PoolRecorded(r)
  }

  // ---------------------------------------------------------------------------
  // Counting members

  /** The number of members listed in `order` with no default on record. */
  function CountUndefaulted(order: seq<Principal>, defaulted: set<Principal>): (n: nat)
    ensures n <= |order|
  {
    if order == [] then 0
    else CountUndefaulted(order[..|order| - 1], defaulted) + (if order[|order| - 1] in defaulted then 0 else 1)
  }

  /** One member in good standing makes the count positive. */
  lemma {:induction false} CountUndefaultedPositive(order: seq<Principal>, defaulted: set<Principal>, p: Principal)
    requires p in order && p !in defaulted
    ensures CountUndefaulted(order, defaulted) >= 1
  {
    if order[|order| - 1] != p {
      assert p in order[..|order| - 1];
      CountUndefaultedPositive(order[..|order| - 1], defaulted, p);
    }
  }

  /** Every listed member counts exactly when none of them has a default on record. */
  lemma {:induction false} CountUndefaultedAll(order: seq<Principal>, defaulted: set<Principal>)
    ensures CountUndefaulted(order, defaulted) == |order| <==> forall p :: p in order ==> p !in defaulted
  {
    if order != [] {
      var init := order[..|order| - 1];
      CountUndefaultedAll(init, defaulted);
      assert order == init + [order[|order| - 1]];
    }
  }

  /** The number of members listed in `order` who have paid round `round`. */
  function CountPaid(order: seq<Principal>, round: nat, paid: set<(nat, Principal)>): (n: nat)
    ensures n <= |order|
  {
    if order == [] then 0
    else CountPaid(order[..|order| - 1], round, paid) + (if (round, order[|order| - 1]) in paid then 1 else 0)
  }

  /** Every listed member counts exactly when all of them have paid the round. */
  lemma {:induction false} CountPaidAll(order: seq<Principal>, round: nat, paid: set<(nat, Principal)>)
    ensures CountPaid(order, round, paid) == |order| <==> forall p :: p in order ==> (round, p) in paid
  {
    if order != [] {
      var init := order[..|order| - 1];
      CountPaidAll(init, round, paid);
      assert order == init + [order[|order| - 1]];
    }
  }

  /** The number of members listed in `order` who have left the kolo by emergency withdrawal. */
  function CountLeavers(order: seq<Principal>, members: map<Principal, MemberInfo>): (n: nat)
    ensures n <= |order|
  {
    if order == [] then 0
    else
      var last := order[|order| - 1];
      CountLeavers(order[..|order| - 1], members) + (if last in members && members[last].withdrawn then 1 else 0)
  }

  /** Replacing a member record by one with the same withdrawn flag leaves the count of leavers as it was. */
  lemma {:induction false} LeaversKept(order: seq<Principal>, members: map<Principal, MemberInfo>,
                                       p: Principal, m: MemberInfo)
    requires p in order ==> (m.withdrawn <==> p in members && members[p].withdrawn)
    ensures CountLeavers(order, members[p := m]) == CountLeavers(order, members)
  {
    if order != [] {
      var init := order[..|order| - 1];
      assert p in init ==> p in order;
      LeaversKept(init, members, p, m);
    }
  }

  /** A member appended to the order counts exactly when it has left. */
  lemma LeaversAppended(order: seq<Principal>, members: map<Principal, MemberInfo>, p: Principal)
    ensures CountLeavers(order + [p], members)
         == CountLeavers(order, members) + (if p in members && members[p].withdrawn then 1 else 0)
  {
  }

  /**
   * Marking withdrawn a listed member who had not left adds exactly one
   * leaver; the positions recorded for the order keep it from being counted
   * twice.
   */
  lemma {:induction false} LeaverAdded(order: seq<Principal>, members: map<Principal, MemberInfo>,
                                       p: Principal, m: MemberInfo)
    requires OrderFilled(order, members) && p in order && !members[p].withdrawn && m.withdrawn
    ensures CountLeavers(order, members[p := m]) == CountLeavers(order, members) + 1
  {
    var init, last := order[..|order| - 1], order[|order| - 1];
    assert OrderFilled(init, members);
    if last == p {
      assert p !in init by {
        forall i | 0 <= i < |init|
          ensures init[i] != p
        {
          assert members[order[i]].position == i;
        }
      }
      LeaversKept(init, members, p, m);
    } else {
      assert p in init by {
        var i :| 0 <= i < |order| && order[i] == p;
        assert i < |init| && init[i] == p;
      }
      LeaverAdded(init, members, p, m);
    }
  }

  // ---------------------------------------------------------------------------
  // Consequences of the invariant

  /** The payout order holds each member once: equal members stand at equal positions. */
  lemma OrderHasNoRepeats(r: KoloRecord, i: nat, j: nat)
    requires WellFormed(r)
    requires i < |r.order| && j < |r.order| && r.order[i] == r.order[j]
    ensures i == j
  {
    assert r.members[r.order[i]].position == i;
    assert r.members[r.order[j]].position == j;
  }

  /** A principal is a member exactly when it stands in the payout order. */
  lemma MembershipIsOrder(r: KoloRecord, p: Principal)
    requires WellFormed(r)
    ensures p in r.members <==> p in r.order
  {
    if p in r.order {
      var i :| 0 <= i < |r.order| && r.order[i] == p;
      assert r.order[i] in r.members;
    }
    if p in r.members {
      assert MemberShape(r.members[p], r.info, r.order, p);
    }
  }

  /** Once the kolo has completed, every member has received its payout. */
  lemma CompletedKoloPaidEveryone(r: KoloRecord, p: Principal)
    requires WellFormed(r) && !r.info.active && p in r.members
    ensures r.members[p].hasReceivedPayout
  {
    assert MemberShape(r.members[p], r.info, r.order, p);
  }

  // ---------------------------------------------------------------------------
  // Questions the public calls ask about one kolo

  /** Every member of the payout order has paid the current round or has withdrawn. */
  predicate RoundSettled(r: KoloRecord)
  {
    forall i :: 0 <= i < |r.order| ==>
      r.order[i] in r.members && (r.members[r.order[i]].withdrawn || (r.info.round, r.order[i]) in r.contributions)
  }

  /** The number of members who have paid the current round. */
  function PaidCount(r: KoloRecord): (n: nat)
    ensures n <= |r.order|
  {
    CountPaid(r.order, r.info.round, r.contributions.Keys)
  }

  /** What the current round pays out: one contribution per member who paid it. */
  function RoundPot(r: KoloRecord): nat
  {
    r.info.amount * PaidCount(r)
  }

  /** When nobody has withdrawn, a settled round pays out one contribution per member. */
  lemma FullRoundPot(r: KoloRecord)
    requires WellFormed(r) && RoundSettled(r)
    requires forall p :: p in r.members ==> !r.members[p].withdrawn
    ensures RoundPot(r) == r.info.amount * |r.order|
  {
    forall p | p in r.order
      ensures (r.info.round, p) in r.contributions.Keys
    {
      var i :| 0 <= i < |r.order| && r.order[i] == p;
      assert r.order[i] in r.members;
    }
    CountPaidAll(r.order, r.info.round, r.contributions.Keys);
  }

  /** Members with no default on record: those who may claim a compensation share. */
  function EligibleCount(r: KoloRecord): (n: nat)
    ensures n <= |r.order|
  {
    CountUndefaulted(r.order, r.defaults.Keys)
  }

  /** A member of the kolo in good standing makes the eligible count positive. */
  lemma EligibleCountPositive(r: KoloRecord, p: Principal)
    requires WellFormed(r) && p in r.members && p !in r.defaults
    ensures EligibleCount(r) >= 1
  {
    MembershipIsOrder(r, p);
    CountUndefaultedPositive(r.order, r.defaults.Keys, p);
  }

  /**
   * The equal share of `total` among `eligible` members: the largest amount
   * that every one of them can be paid out of it, the remainder staying in
   * the pool.
   */
  function EqualShare(total: nat, eligible: nat): (share: nat)
    ensures share * eligible <= total
    ensures eligible > 0 ==> total < (share + 1) * eligible
    ensures eligible == 0 ==> share == 0
  {
    if eligible == 0 then 0 else total / eligible
  }

  /**
   * The height after which the kolo's current round is overdue: past the
   * start of the round's period, one period after the previous round's.
   */
  function Deadline(r: KoloRecord): (deadline: nat)
    ensures deadline >= r.info.startBlock
    ensures r.info.frequency > 0 ==> deadline > r.info.startBlock + r.info.round * r.info.frequency
    ensures r.info.round > 0 ==>
      deadline == RoundDeadline(r.info.startBlock, r.info.frequency, r.info.round - 1) + r.info.frequency
  {
    RoundDeadline(r.info.startBlock, r.info.frequency, r.info.round)
  }

  /**
   * Emergency exit is open to a member who has not withdrawn and has not
   * yet received the payout, once the current round's deadline has passed.
   * Whether the member paid the current round does not matter.
   */
  predicate CanExit(r: KoloRecord, p: Principal, height: nat)
  {
    && p in r.members
    && !r.members[p].withdrawn
    && !r.members[p].hasReceivedPayout
    && height > Deadline(r)
  }

  /**
   * A member who may exit is still waiting for its payout: the kolo is
   * active and the member's turn is the current round or a later one.
   */
  lemma ExitEligibleMember(r: KoloRecord, p: Principal, height: nat)
    requires WellFormed(r) && CanExit(r, p, height)
    ensures r.info.active && p in r.order
    ensures r.info.round <= r.members[p].position < |r.order|
  {
    assert MemberShape(r.members[p], r.info, r.order, p);
  }

  /** Once the kolo has paid every member, nobody can exit it early. */
  lemma CompletedKoloHasNoExit(r: KoloRecord, p: Principal, height: nat)
    requires WellFormed(r) && !r.info.active
    ensures !CanExit(r, p, height)
  {
    if p in r.members {
      CompletedKoloPaidEveryone(r, p);
    }
  }

  // ---------------------------------------------------------------------------
  // The updates the public calls make to one kolo

  /** join-kolo: `p` is appended to the payout order, at the next position. */
  function Joined(r: KoloRecord, p: Principal, height: nat): KoloRecord
  {
    r.(order := r.order + [p], members := r.members[p := NewMember(|r.order|, height)])
  }

  /** contribute: `p` pays the kolo amount for the current round. */
  function Contributed(r: KoloRecord, p: Principal, height: nat): KoloRecord
    requires p in r.members
  {
    var k, m := r.info, r.members[p];
    var paid := r.(info := k.(totalCollected := k.totalCollected + k.amount),
                   contributions := r.contributions[(k.round, p) := Contribution(k.amount, height)]);
    paid.(members := r.members[p := m.(totalContributions := m.totalContributions + k.amount)])
  }

  /** The member whose turn it is to be paid. */
  function Recipient(r: KoloRecord): Principal
    requires r.info.round < |r.order|
  {
    r.order[r.info.round]
  }

  /** trigger-payout: the recipient is marked paid and the kolo moves to its next round. */
  function PaidOut(r: KoloRecord): KoloRecord
    requires r.info.round < |r.order| && Recipient(r) in r.members
  {
    var k, p := r.info, Recipient(r);
    r.(info := k.(round := k.round + 1, active := k.round + 1 < |r.order|),
       members := r.members[p := r.members[p].(hasReceivedPayout := true)])
  }

  /**
   * The pool after `slash` more has been paid into it.  The first slash
   * opens it and fixes the share at an equal part of that slash among the
   * `eligible` members; later slashes leave the share as it is.
   */
  function SlashedInto(pool: Option<Pool>, slash: nat, eligible: nat): Pool
  {
    if pool.Some? then pool.value.(totalSlashed := pool.value.totalSlashed + slash)
    else Pool(slash, 0, EqualShare(slash, eligible))
  }

  /**
   * emergency-withdraw: `p` is marked withdrawn and penalised, a default is
   * recorded for the current round, and the slash goes into the pool.
   */
  function Withdrawn(r: KoloRecord, p: Principal, height: nat): KoloRecord
    requires p in r.members
  {
    var m, defaults := r.members[p], r.defaults[p := DefaultRecord(r.info.round, height)];
    r.(members := r.members[p := m.(withdrawn := true, reputation := Penalize(m.reputation))],
       defaults := defaults,
       pool := Some(SlashedInto(r.pool, SlashAmount(r.info.amount), CountUndefaulted(r.order, defaults.Keys))))
  }

  /** mark-default: `p` gets one more missed payment, a penalty and a default record. */
  function Defaulted(r: KoloRecord, p: Principal, height: nat): KoloRecord
    requires p in r.members
  {
    var m := r.members[p];
    r.(members := r.members[p := m.(missedPayments := m.missedPayments + 1, reputation := Penalize(m.reputation))],
       defaults := r.defaults[p := DefaultRecord(r.info.round, height)])
  }

  /** claim-slash-share: the pool's share is paid out to `p`, who is marked as having claimed. */
  function Claimed(r: KoloRecord, p: Principal): KoloRecord
    requires r.pool.Some?
  {
    var pool := r.pool.value;
    r.(pool := Some(pool.(distributed := pool.distributed + pool.share)), claimed := r.claimed + {p})
  }

  // ---------------------------------------------------------------------------
  // Updates that keep the invariant

  lemma NewKoloWellFormed(info: KoloInfo, height: nat)
    requires KoloShape(info, [info.creator]) && info.round == 0 && info.totalCollected == 0
    ensures WellFormed(NewKolo(info, height))
  {
    assert [info.creator][..0] == [];
  }

  /** Appending a new member to the payout order of an open kolo keeps the invariant. */
  lemma JoinKeepsWellFormed(r: KoloRecord, p: Principal, height: nat)
    requires WellFormed(r)
    requires r.info.active && |r.order| < r.info.maxMembers && p !in r.members
    ensures WellFormed(Joined(r, p, height))
  {
    JoinKeepsArranged(r, p, height);
    JoinKeepsTotals(r, p, height);
  }

  /** A new member has not left, so a join leaves both totals in step. */
  lemma JoinKeepsTotals(r: KoloRecord, p: Principal, height: nat)
    requires CollectedRecorded(r.info, r.contributions) && PoolRecorded(r) && p !in r.members
    ensures CollectedRecorded(Joined(r, p, height).info, Joined(r, p, height).contributions)
    ensures PoolRecorded(Joined(r, p, height))
  {
    LeaversKept(r.order, r.members, p, NewMember(|r.order|, height));
    LeaversAppended(r.order, r.members[p := NewMember(|r.order|, height)], p);
  }

  lemma JoinKeepsArranged(r: KoloRecord, p: Principal, height: nat)
    requires Arranged(r)
    requires r.info.active && |r.order| < r.info.maxMembers && p !in r.members
    ensures Arranged(Joined(r, p, height))
  {
  }

  /**
   * Replacing a member record by one at the same position, with the same
   * payout flag, no higher reputation, and a default on record if withdrawn,
   * keeps the record arranged.
   */
  lemma MemberUpdateKeepsArranged(r: KoloRecord, p: Principal, m: MemberInfo)
    requires Arranged(r) && p in r.members
    requires m.position == r.members[p].position && m.hasReceivedPayout == r.members[p].hasReceivedPayout
    requires m.reputation <= r.members[p].reputation && (m.withdrawn ==> p in r.defaults)
    ensures Arranged(r.(members := r.members[p := m]))
  {
  }

  /** One more recorded payment and one more amount collected keep the total in step. */
  lemma CollectedAfterPayment(k: KoloInfo, contributions: map<(nat, Principal), Contribution>,
                              key: (nat, Principal), c: Contribution)
    requires CollectedRecorded(k, contributions) && key !in contributions
    ensures CollectedRecorded(k.(totalCollected := k.totalCollected + k.amount), contributions[key := c])
  {
    assert |contributions[key := c]| == |contributions| + 1;
  }

  /** Recording a member's payment of the current round, and its amount in the total, keeps the record arranged. */
  lemma PaymentKeepsArranged(r: KoloRecord, p: Principal, height: nat)
    requires Arranged(r) && p in r.members
    ensures Arranged(r.(info := r.info.(totalCollected := r.info.totalCollected + r.info.amount),
                        contributions := r.contributions[(r.info.round, p) := Contribution(r.info.amount, height)]))
  {
    var k' := r.info.(totalCollected := r.info.totalCollected + r.info.amount);
    assert MembersPlaced(r.members, k', r.order, r.defaults.Keys) by {
      forall q | q in r.members
        ensures MemberShape(r.members[q], k', r.order, q)
      {
        assert MemberShape(r.members[q], r.info, r.order, q);
      }
    }
  }

  /** A member's first contribution of the round keeps the invariant, the collected total included. */
  lemma ContributeKeepsWellFormed(r: KoloRecord, p: Principal, height: nat)
    requires WellFormed(r) && p in r.members && (r.info.round, p) !in r.contributions
    ensures WellFormed(Contributed(r, p, height))
  {
    ContributeKeepsArranged(r, p, height);
    ContributeKeepsTotals(r, p, height);
  }

  /** A first payment of the round adds one amount to the collected total and leaves the pool's record alone. */
  lemma ContributeKeepsTotals(r: KoloRecord, p: Principal, height: nat)
    requires CollectedRecorded(r.info, r.contributions) && PoolRecorded(r)
    requires p in r.members && (r.info.round, p) !in r.contributions
    ensures CollectedRecorded(Contributed(r, p, height).info, Contributed(r, p, height).contributions)
    ensures PoolRecorded(Contributed(r, p, height))
  {
    var m := r.members[p];
    LeaversKept(r.order, r.members, p, m.(totalContributions := m.totalContributions + r.info.amount));
    CollectedAfterPayment(r.info, r.contributions, (r.info.round, p), Contribution(r.info.amount, height));
  }

  /** The part of `ContributeKeepsWellFormed` that does not concern the collected total. */
  lemma ContributeKeepsArranged(r: KoloRecord, p: Principal, height: nat)
    requires Arranged(r) && p in r.members
    ensures Arranged(Contributed(r, p, height))
  {
    var k, m := r.info, r.members[p];
    PaymentKeepsArranged(r, p, height);
    var r1 := r.(info := k.(totalCollected := k.totalCollected + k.amount),
                 contributions := r.contributions[(k.round, p) := Contribution(k.amount, height)]);
    MemberUpdateKeepsArranged(r1, p, m.(totalContributions := m.totalContributions + k.amount));
  }

  /** Recording a default together with a member update that lowers no guarantee keeps the record arranged. */
  lemma DefaultKeepsArranged(r: KoloRecord, p: Principal, m: MemberInfo, height: nat)
    requires Arranged(r) && p in r.members
    requires m.position == r.members[p].position && m.hasReceivedPayout == r.members[p].hasReceivedPayout
    requires m.reputation <= r.members[p].reputation
    ensures Arranged(r.(members := r.members[p := m], defaults := r.defaults[p := DefaultRecord(r.info.round, height)]))
  {
    var r1 := r.(defaults := r.defaults[p := DefaultRecord(r.info.round, height)]);
    assert Arranged(r1);
    MemberUpdateKeepsArranged(r1, p, m);
  }

  /** Marking a default keeps the invariant. */
  lemma MarkDefaultKeepsWellFormed(r: KoloRecord, p: Principal, height: nat)
    requires WellFormed(r) && p in r.members
    ensures WellFormed(Defaulted(r, p, height))
  {
    MarkDefaultKeepsArranged(r, p, height);
    MarkDefaultKeepsTotals(r, p, height);
  }

  /** A default moves no value and leaves the withdrawn flags alone, so both totals stay in step. */
  lemma MarkDefaultKeepsTotals(r: KoloRecord, p: Principal, height: nat)
    requires CollectedRecorded(r.info, r.contributions) && PoolRecorded(r) && p in r.members
    ensures CollectedRecorded(Defaulted(r, p, height).info, Defaulted(r, p, height).contributions)
    ensures PoolRecorded(Defaulted(r, p, height))
  {
    var m := r.members[p];
    LeaversKept(r.order, r.members, p, m.(missedPayments := m.missedPayments + 1, reputation := Penalize(m.reputation)));
  }

  /** The part of `MarkDefaultKeepsWellFormed` that does not concern the totals. */
  lemma MarkDefaultKeepsArranged(r: KoloRecord, p: Principal, height: nat)
    requires Arranged(r) && p in r.members
    ensures Arranged(Defaulted(r, p, height))
  {
    var m := r.members[p];
    assert MemberShape(m, r.info, r.order, p);
    DefaultKeepsArranged(r, p, m.(missedPayments := m.missedPayments + 1, reputation := Penalize(m.reputation)), height);
  }

  /** An emergency withdrawal keeps the invariant, the pool bound and the pool's record included. */
  lemma WithdrawKeepsWellFormed(r: KoloRecord, p: Principal, height: nat)
    requires WellFormed(r) && p in r.members && !r.members[p].withdrawn
    ensures WellFormed(Withdrawn(r, p, height))
  {
    WithdrawKeepsArranged(r, p, height);
    MembershipIsOrder(r, p);
    WithdrawKeepsTotals(r, p, height);
  }

  /** The part of `WithdrawKeepsWellFormed` that does not concern the totals. */
  lemma WithdrawKeepsArranged(r: KoloRecord, p: Principal, height: nat)
    requires Arranged(r) && p in r.members
    ensures Arranged(Withdrawn(r, p, height))
  {
    var m := r.members[p];
    assert MemberShape(m, r.info, r.order, p);
    var m' := m.(withdrawn := true, reputation := Penalize(m.reputation));
    DefaultKeepsArranged(r, p, m', height);
    var r1 := r.(members := r.members[p := m'], defaults := r.defaults[p := DefaultRecord(r.info.round, height)]);
    assert Withdrawn(r, p, height)
      == r1.(pool := Some(SlashedInto(r.pool, SlashAmount(r.info.amount), CountUndefaulted(r.order, r1.defaults.Keys))));
  }

  /** An exit adds one slash to the pool for the one more member who has left, and collects nothing. */
  lemma WithdrawKeepsTotals(r: KoloRecord, p: Principal, height: nat)
    requires CollectedRecorded(r.info, r.contributions) && PoolRecorded(r) && OrderFilled(r.order, r.members)
    requires p in r.order && p in r.members && !r.members[p].withdrawn
    ensures CollectedRecorded(Withdrawn(r, p, height).info, Withdrawn(r, p, height).contributions)
    ensures PoolRecorded(Withdrawn(r, p, height))
  {
    var m := r.members[p];
    LeaverAdded(r.order, r.members, p, m.(withdrawn := true, reputation := Penalize(m.reputation)));
  }

  /** Paying the pool's share, while the pool still covers it, to a member keeps the invariant. */
  lemma ClaimKeepsWellFormed(r: KoloRecord, p: Principal)
    requires WellFormed(r) && p in r.members && p !in r.claimed && r.pool.Some?
    requires r.pool.value.distributed + r.pool.value.share <= r.pool.value.totalSlashed
    ensures WellFormed(Claimed(r, p))
  {
    ClaimKeepsArranged(r, p);
    ClaimKeepsTotals(r, p);
  }

  /** The part of `ClaimKeepsWellFormed` that does not concern the totals. */
  lemma ClaimKeepsArranged(r: KoloRecord, p: Principal)
    requires Arranged(r) && p in r.members && r.pool.Some?
    requires r.pool.value.distributed + r.pool.value.share <= r.pool.value.totalSlashed
    ensures Arranged(Claimed(r, p))
  {
  }

  /** A first claim pays out one more share, in step with one more claimant. */
  lemma ClaimKeepsTotals(r: KoloRecord, p: Principal)
    requires CollectedRecorded(r.info, r.contributions) && PoolRecorded(r) && p !in r.claimed && r.pool.Some?
    ensures CollectedRecorded(Claimed(r, p).info, Claimed(r, p).contributions)
    ensures PoolRecorded(Claimed(r, p))
  {
    assert |r.claimed + {p}| == |r.claimed| + 1;
  }

  /**
   * The member at position `round` of an active kolo has not been paid yet;
   * marking it paid while the round moves on keeps the invariant, and the
   * kolo stays active while a member is left to be paid.
   */
  lemma PayoutKeepsWellFormed(r: KoloRecord)
    requires WellFormed(r) && r.info.active
    ensures r.info.round < |r.order| && Recipient(r) in r.members
    ensures r.members[Recipient(r)].position == r.info.round && !r.members[Recipient(r)].hasReceivedPayout
    ensures WellFormed(PaidOut(r))
  {
    PayoutKeepsArranged(r);
    PayoutKeepsTotals(r);
  }

  /** A payout leaves the payments, the pool and the withdrawn flags alone, so both totals stay in step. */
  lemma PayoutKeepsTotals(r: KoloRecord)
    requires CollectedRecorded(r.info, r.contributions) && PoolRecorded(r)
    requires r.info.round < |r.order| && Recipient(r) in r.members
    ensures CollectedRecorded(PaidOut(r).info, PaidOut(r).contributions) && PoolRecorded(PaidOut(r))
  {
    var p := Recipient(r);
    LeaversKept(r.order, r.members, p, r.members[p].(hasReceivedPayout := true));
  }

  /** The part of `PayoutKeepsWellFormed` that does not concern the collected total. */
  lemma PayoutKeepsArranged(r: KoloRecord)
    requires Arranged(r) && r.info.active
    ensures r.info.round < |r.order| && Recipient(r) in r.members
    ensures r.members[Recipient(r)].position == r.info.round && !r.members[Recipient(r)].hasReceivedPayout
    ensures Arranged(PaidOut(r))
  {
    var k := r.info;
    var recipient := r.order[k.round];
    assert recipient in r.members;
    var m := r.members[recipient];
    assert MemberShape(m, k, r.order, recipient);
    var k' := k.(round := k.round + 1, active := k.round + 1 < |r.order|);
    var members' := r.members[recipient := m.(hasReceivedPayout := true)];
    assert OrderFilled(r.order, members') by {
      forall i | 0 <= i < |r.order|
        ensures r.order[i] in members' && members'[r.order[i]].position == i
      {
        assert r.order[i] in r.members;
      }
    }
    assert MembersPlaced(members', k', r.order, r.defaults.Keys) by {
      forall q | q in members'
        ensures MemberShape(members'[q], k', r.order, q)
      {
        assert MemberShape(r.members[q], k, r.order, q);
      }
    }
  }

  // ---------------------------------------------------------------------------
  // The store of all kolos

  /** Every stored kolo is well formed. */
  ghost predicate AllWellFormed(kolos: map<KoloId, KoloRecord>)
  {
    forall id :: id in kolos ==> WellFormed(kolos[id])
  }

  /** Storing a well-formed record keeps every stored kolo well formed. */
  lemma StoreKeepsWellFormed(kolos: map<KoloId, KoloRecord>, id: KoloId, r: KoloRecord)
    requires AllWellFormed(kolos) && WellFormed(r)
    ensures AllWellFormed(kolos[id := r])
  {
  }
}
