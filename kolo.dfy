/**
 * The KoloX contract: a ledger of rotating-savings circles ("kolos").
 *
 * Every kolo has a fixed contribution amount; its members join before the
 * start block, each member contributes that amount once per round, and the
 * whole round is paid to the member whose position equals the round number.
 * A member may leave early by an emergency withdrawal, which returns the
 * contribution less a slash; slashed value collects in the kolo's
 * compensation pool, from which members in good standing claim a share.
 *
 * Every public call takes the caller and the current block height
 * explicitly and either updates the storage and answers `Ok`, or answers
 * `Err` and changes nothing.
 */
module Kolo {
  import opened Wrappers
  import opened KoloRules
  import opened KoloState
  import opened KoloCalls

  /** The kolo's running totals (get-kolo-stats). */
  datatype KoloStats = KoloStats(totalCollected: nat, round: nat, memberCount: nat, active: bool)

  class KoloContract {
    /** The id handed to the most recently created kolo (0 before the first). */
    var lastKoloId: nat
    var kolos: map<KoloId, KoloRecord>

    ghost predicate Valid()
      reads this
    {
      && (forall id :: id in kolos <==> 1 <= id <= lastKoloId)
      && AllWellFormed(kolos)
    }

    constructor ()
      ensures Valid()
      ensures lastKoloId == 0 && kolos == map[]
    {
      lastKoloId := 0;
      kolos := map[];
    }

    // -------------------------------------------------------------------------
    // Read-only views

    function GetKolo(id: KoloId): (r: Option<KoloInfo>)
      reads this
      requires Valid()
      ensures r.Some? <==> 1 <= id <= lastKoloId
      ensures r.Some? ==> r.value.creator == kolos[id].order[0] && r.value.amount >= MIN_SLASH_AMOUNT
      ensures r.Some? ==> r.value.round <= |kolos[id].order| && (r.value.active <==> r.value.round < |kolos[id].order|)
    {
      if id in kolos then Some(kolos[id].info) else None
    }

    function GetMemberCount(id: KoloId): (n: nat)
      reads this
      requires Valid()
      ensures id in kolos ==> 1 <= n <= kolos[id].info.maxMembers <= MAX_MEMBERS
      ensures id in kolos ==> kolos[id].info.round <= n
      ensures id !in kolos ==> n == 0
    {
      if id in kolos then |kolos[id].order| else 0
    }

    function GetMemberInfo(id: KoloId, p: Principal): (r: Option<MemberInfo>)
      reads this
      requires Valid()
      ensures r.Some? <==> id in kolos && p in kolos[id].order
      ensures r.Some? ==> r.value.position < GetMemberCount(id) && kolos[id].order[r.value.position] == p
      ensures r.Some? ==> r.value.reputation <= INITIAL_REPUTATION
      ensures r.Some? ==> (r.value.hasReceivedPayout <==> r.value.position < kolos[id].info.round)
    {
      if id in kolos && p in kolos[id].members then
        MembershipIsOrder(kolos[id], p);
        assert MemberShape(kolos[id].members[p], kolos[id].info, kolos[id].order, p);
        Some(kolos[id].members[p])
      else if id in kolos then
        MembershipIsOrder(kolos[id], p);
        None
      else None
    }

    function GetKoloStats(id: KoloId): (r: Option<KoloStats>)
      reads this
      requires Valid()
      ensures r.Some? <==> id in kolos
      ensures r.Some? ==> r.value.round <= r.value.memberCount <= kolos[id].info.maxMembers
      ensures r.Some? ==> (r.value.active <==> r.value.round < r.value.memberCount)
      ensures r.Some? ==> r.value.totalCollected == kolos[id].info.amount * |kolos[id].contributions|
    {
      if id in kolos then
        var k := kolos[id].info;
        CollectedIsProduct(k.amount, |kolos[id].contributions|);
        Some(KoloStats(k.totalCollected, k.round, |kolos[id].order|, k.active))
      else None
    }

    function GetCompensationPool(id: KoloId): (r: Option<Pool>)
      reads this
      requires Valid()
      ensures r.Some? ==> id in kolos && r.value.distributed <= r.value.totalSlashed
      ensures r.Some? ==>
        && r.value.totalSlashed == SlashAmount(kolos[id].info.amount) * CountLeavers(kolos[id].order, kolos[id].members)
        && r.value.distributed == r.value.share * |kolos[id].claimed|
      ensures id in kolos && r.None? ==> CountLeavers(kolos[id].order, kolos[id].members) == 0 && kolos[id].claimed == {}
    {
      if id in kolos then
        var k := kolos[id];
        if k.pool.Some? then
          CollectedIsProduct(SlashAmount(k.info.amount), CountLeavers(k.order, k.members));
          CollectedIsProduct(k.pool.value.share, |k.claimed|);
          k.pool
        else k.pool
      else None
    }

    function GetDefaultInfo(id: KoloId, p: Principal): (r: Option<DefaultRecord>)
      reads this
      requires Valid()
      ensures r.Some? ==> id in kolos && p in kolos[id].members && r.value.round <= kolos[id].info.round
      ensures id in kolos && p in kolos[id].members && kolos[id].members[p].withdrawn ==> r.Some?
    {
      if id in kolos && p in kolos[id].defaults then Some(kolos[id].defaults[p]) else None
    }

    /**
     * has-paid-current-round: whether `p` has paid the kolo's current round;
     * only a member can have, and it cannot pay the round again.  For an
     * active member that has not left, it answers true exactly when a
     * contribution at any started height is refused with AlreadyPaid.
     */
    function HasPaidCurrentRound(id: KoloId, p: Principal): (paid: bool)
      reads this
      requires Valid()
      ensures paid ==> id in kolos && p in kolos[id].order
      ensures paid ==> forall height :: ContributeStep(kolos[id], p, height).Err?
      ensures id in kolos && kolos[id].info.active && p in kolos[id].members && !kolos[id].members[p].withdrawn ==>
        forall height :: height >= kolos[id].info.startBlock ==>
          (paid <==> ContributeStep(kolos[id], p, height) == Err(AlreadyPaid))
    {
      if id in kolos && (kolos[id].info.round, p) in kolos[id].contributions then
        MembershipIsOrder(kolos[id], p);
        true
      else false
    }

    /** can-emergency-withdraw: whether `p` may leave kolo `id` at `height`, exactly when the withdrawal would go through. */
    function CanEmergencyWithdraw(id: KoloId, p: Principal, height: nat): (open: bool)
      reads this
      requires Valid()
      ensures open <==> id in kolos && WithdrawStep(kolos[id], p, height).Ok?
    {
      id in kolos && CanExit(kolos[id], p, height)
    }

    /** What an emergency exit would return to `p`, whether or not it is open now. */
    function CalculateEmergencyWithdrawal(id: KoloId, p: Principal): (r: Option<nat>)
      reads this
      requires Valid()
      ensures r.Some? <==> id in kolos && p in kolos[id].members
      ensures r.Some? ==> r.value + SlashAmount(kolos[id].info.amount) == kolos[id].info.amount
    {
      if id in kolos && p in kolos[id].members then Some(NetWithdrawal(kolos[id].info.amount)) else None
    }

    // -------------------------------------------------------------------------
    // Public calls

    /**
     * create-kolo: registers a new kolo under the next id, with the caller as
     * creator and as the member at position 0.
     */
    method CreateKolo(name: string, amount: nat, frequency: nat, maxMembers: nat, startBlock: nat,
                      caller: Principal, height: nat)
      returns (r: Result<KoloId, KoloError>)
      requires Valid()
      modifies this
      ensures Valid()
      ensures r.Err? <==> !(amount >= MIN_SLASH_AMOUNT && MIN_MEMBERS <= maxMembers <= MAX_MEMBERS && startBlock > height)
      ensures r.Err? ==> r.error == InvalidParams && unchanged(this)
      ensures r.Ok? ==>
        && r.value == old(lastKoloId) + 1 == lastKoloId
        && r.value !in old(kolos)
        && kolos == old(kolos)[r.value := NewKolo(KoloInfo(caller, name, amount, frequency, maxMembers,
                                                           startBlock, 0, true, 0), height)]
    {
      if !(amount >= MIN_SLASH_AMOUNT && MIN_MEMBERS <= maxMembers <= MAX_MEMBERS && startBlock > height) {
        return Err(InvalidParams);
      }
      var id := lastKoloId + 1;
      var info := KoloInfo(caller, name, amount, frequency, maxMembers, startBlock, 0, true, 0);
      NewKoloWellFormed(info, height);
      StoreKeepsWellFormed(kolos, id, NewKolo(info, height));
      lastKoloId := id;
      kolos := kolos[id := NewKolo(info, height)];
      r := Ok(id);
    }

    /** join-kolo on the stored kolo `id`: looks the kolo up and applies `JoinStep`. */
    method JoinKolo(id: KoloId, caller: Principal, height: nat) returns (r: Result<bool, KoloError>)
      requires Valid()
      modifies this
      ensures Valid()
      ensures id !in old(kolos) ==> r == Err(KoloNotFound) && unchanged(this)
      ensures id in old(kolos) ==>
        match JoinStep(old(kolos)[id], caller, height)
        case Err(e) => r == Err(e) && unchanged(this)
        case Ok(s) => r == Ok(s.answer) && lastKoloId == old(lastKoloId) && kolos == old(kolos)[id := s.next]
    {
      if id !in kolos {
        return Err(KoloNotFound);
      }
      var outcome := JoinStep(kolos[id], caller, height);
      match outcome {
        case Err(e) =>
          r := Err(e);
        case Ok(s) =>
          StoreKeepsWellFormed(kolos, id, s.next);
          kolos := kolos[id := s.next];
          r := Ok(s.answer);
      }
    }

    /**
     * contribute on the stored kolo `id`: looks the kolo up and applies
     * `ContributeStep`; answers `(ok true)`, and `escrowed` is the amount the
     * caller moves into the kolo's escrow (none when refused).
     */
    method Contribute(id: KoloId, caller: Principal, height: nat) returns (r: Result<bool, KoloError>, escrowed: nat)
      requires Valid()
      modifies this
      ensures Valid()
      ensures id !in old(kolos) ==> r == Err(KoloNotFound) && escrowed == 0 && unchanged(this)
      ensures id in old(kolos) ==>
        match ContributeStep(old(kolos)[id], caller, height)
        case Err(e) => r == Err(e) && escrowed == 0 && unchanged(this)
        case Ok(s) =>
          && r == Ok(true) && escrowed == s.answer
          && lastKoloId == old(lastKoloId) && kolos == old(kolos)[id := s.next]
    {
      escrowed := 0;
      if id !in kolos {
        return Err(KoloNotFound), 0;
      }
      var outcome := ContributeStep(kolos[id], caller, height);
      match outcome {
        case Err(e) =>
          r := Err(e);
        case Ok(s) =>
          StoreKeepsWellFormed(kolos, id, s.next);
          kolos := kolos[id := s.next];
          r, escrowed := Ok(true), s.answer;
      }
    }

    /**
     * trigger-payout on the stored kolo `id`, by any caller: looks the kolo up
     * and applies `PayoutStep`; answers `(ok true)`, and `payout` is the
     * transfer made from the escrow (none when refused).
     */
    method TriggerPayout(id: KoloId, caller: Principal) returns (r: Result<bool, KoloError>, payout: Option<Payout>)
      requires Valid()
      modifies this
      ensures Valid()
      ensures id !in old(kolos) ==> r == Err(KoloNotFound) && payout == None && unchanged(this)
      ensures id in old(kolos) ==>
        match PayoutStep(old(kolos)[id])
        case Err(e) => r == Err(e) && payout == None && unchanged(this)
        case Ok(s) =>
          && r == Ok(true) && payout == Some(s.answer)
          && lastKoloId == old(lastKoloId) && kolos == old(kolos)[id := s.next]
    {
      payout := None;
      if id !in kolos {
        return Err(KoloNotFound), None;
      }
      var outcome := PayoutStep(kolos[id]);
      match outcome {
        case Err(e) =>
          r := Err(e);
        case Ok(s) =>
          StoreKeepsWellFormed(kolos, id, s.next);
          kolos := kolos[id := s.next];
          r, payout := Ok(true), Some(s.answer);
      }
    }

    /** emergency-withdraw on the stored kolo `id`: an unknown kolo answers NotMember; otherwise applies `WithdrawStep`. */
    method EmergencyWithdraw(id: KoloId, caller: Principal, height: nat) returns (r: Result<nat, KoloError>)
      requires Valid()
      modifies this
      ensures Valid()
      ensures id !in old(kolos) ==> r == Err(NotMember) && unchanged(this)
      ensures id in old(kolos) ==>
        match WithdrawStep(old(kolos)[id], caller, height)
        case Err(e) => r == Err(e) && unchanged(this)
        case Ok(s) => r == Ok(s.answer) && lastKoloId == old(lastKoloId) && kolos == old(kolos)[id := s.next]
    {
      if id !in kolos {
        return Err(NotMember);
      }
      var outcome := WithdrawStep(kolos[id], caller, height);
      match outcome {
        case Err(e) =>
          r := Err(e);
        case Ok(s) =>
          StoreKeepsWellFormed(kolos, id, s.next);
          kolos := kolos[id := s.next];
          r := Ok(s.answer);
      }
    }

    /** mark-default on the stored kolo `id`: looks the kolo up and applies `MarkDefaultStep`. */
    method MarkDefault(id: KoloId, member: Principal, caller: Principal, height: nat)
      returns (r: Result<bool, KoloError>)
      requires Valid()
      modifies this
      ensures Valid()
      ensures id !in old(kolos) ==> r == Err(KoloNotFound) && unchanged(this)
      ensures id in old(kolos) ==>
        match MarkDefaultStep(old(kolos)[id], member, caller, height)
        case Err(e) => r == Err(e) && unchanged(this)
        case Ok(s) => r == Ok(s.answer) && lastKoloId == old(lastKoloId) && kolos == old(kolos)[id := s.next]
    {
      if id !in kolos {
        return Err(KoloNotFound);
      }
      var outcome := MarkDefaultStep(kolos[id], member, caller, height);
      match outcome {
        case Err(e) =>
          r := Err(e);
        case Ok(s) =>
          StoreKeepsWellFormed(kolos, id, s.next);
          kolos := kolos[id := s.next];
          r := Ok(s.answer);
      }
    }

    /** claim-slash-share on the stored kolo `id`: an unknown kolo answers NotMember; otherwise applies `ClaimStep`. */
    method ClaimSlashShare(id: KoloId, caller: Principal) returns (r: Result<nat, KoloError>)
      requires Valid()
      modifies this
      ensures Valid()
      ensures id !in old(kolos) ==> r == Err(NotMember) && unchanged(this)
      ensures id in old(kolos) ==>
        match ClaimStep(old(kolos)[id], caller)
        case Err(e) => r == Err(e) && unchanged(this)
        case Ok(s) => r == Ok(s.answer) && lastKoloId == old(lastKoloId) && kolos == old(kolos)[id := s.next]
    {
      if id !in kolos {
        return Err(NotMember);
      }
      var outcome := ClaimStep(kolos[id], caller);
      match outcome {
        case Err(e) =>
          r := Err(e);
        case Ok(s) =>
          StoreKeepsWellFormed(kolos, id, s.next);
          kolos := kolos[id := s.next];
          r := Ok(s.answer);
      }
    }
  }
}
