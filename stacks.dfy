/**
 * Unit conversions and the error-message table of the KoloX front end
 * (frontend/lib/stacks.ts), together with the block constants of
 * frontend/lib/constants.ts that they must agree with.
 */
module Stacks {
  import opened Wrappers

  /** Micro-STX per STX. */
  const STX_DECIMALS: int := 1_000_000

  /** Average Stacks block time, in minutes. */
  const STACKS_BLOCK_TIME_MINUTES: int := 10

  /** Blocks in a week and in a 30-day month, as the front end's constants state them. */
  const WEEKLY_BLOCKS: int := 1008
  const MONTHLY_BLOCKS: int := 4320

  // ---------------------------------------------------------------------------
  // STX and micro-STX

  /** Whole STX to micro-STX. */
  function StxToMicroStx(stx: int): (micro: int)
    ensures micro % STX_DECIMALS == 0
    ensures (stx < 0 <==> micro < 0) && (stx == 0 <==> micro == 0)
  {
    stx * STX_DECIMALS
  }

  /** Micro-STX back to STX, for amounts that are a whole number of STX. */
  function MicroStxToStx(micro: int): (stx: int)
    requires micro % STX_DECIMALS == 0
    ensures StxToMicroStx(stx) == micro
  {
    micro / STX_DECIMALS
  }

  lemma StxRoundTrip(stx: int)
    ensures MicroStxToStx(StxToMicroStx(stx)) == stx
  {
  }

  // ---------------------------------------------------------------------------
  // Blocks and time

  function BlocksToMinutes(blocks: int): (minutes: int)
    ensures minutes % STACKS_BLOCK_TIME_MINUTES == 0
    ensures minutes / STACKS_BLOCK_TIME_MINUTES == blocks
  {
    blocks * STACKS_BLOCK_TIME_MINUTES
  }

  /** The least integer not below `x`. */
  function Ceil(x: real): (c: int)
    ensures (c - 1) as real < x <= c as real
  {
    -((-x).Floor)
  }

  /** `Ceil` is the only integer in the half-open interval [x, x + 1). */
  lemma CeilUnique(x: real, n: int)
    requires (n - 1) as real < x <= n as real
    ensures Ceil(x) == n
  {
  }

  lemma CeilMonotone(x: real, y: real)
    requires x <= y
    ensures Ceil(x) <= Ceil(y)
  {
  }

  /** Days (possibly fractional) to the number of blocks that covers them, rounding up. */
  function DaysToBlocks(days: real): (blocks: int)
    ensures (blocks - 1) as real < days * 144.0 <= blocks as real
  {
    Ceil((days * 24.0 * 60.0) / STACKS_BLOCK_TIME_MINUTES as real)
  }

  /** For a whole number of days no rounding happens: a day is exactly 144 blocks. */
  lemma DaysToBlocksWhole(days: int)
    ensures DaysToBlocks(days as real) == 144 * days
  {
    CeilUnique(days as real * 144.0, 144 * days);
  }

  lemma DaysToBlocksMonotone(d1: real, d2: real)
    requires d1 <= d2
    ensures DaysToBlocks(d1) <= DaysToBlocks(d2)
  {
    CeilMonotone((d1 * 24.0 * 60.0) / 10.0, (d2 * 24.0 * 60.0) / 10.0);
  }

  /** A week and a month of days give the block counts the front end hard-codes. */
  lemma CalendarBlocks()
    ensures DaysToBlocks(7.0) == WEEKLY_BLOCKS
    ensures DaysToBlocks(30.0) == MONTHLY_BLOCKS
  {
    DaysToBlocksWhole(7);
    DaysToBlocksWhole(30);
  }

  /** Converting whole days to blocks and the blocks to minutes gives the days' minutes. */
  lemma DaysBlocksMinutesRoundTrip(days: int)
    ensures BlocksToMinutes(DaysToBlocks(days as real)) == 24 * 60 * days
  {
    DaysToBlocksWhole(days);
  }

  // ---------------------------------------------------------------------------
  // Contract error codes

  /** The error kinds the front end knows, in the order of its code table. */
  datatype ContractError =
    | NotAuthorized | KoloNotFound | KoloFull | AlreadyMember | NotMember
    | AlreadyPaid | WrongAmount | NotStarted | PayoutNotReady | NotYourTurn
    | KoloNotActive | InvalidParams | CannotJoin

  /** The numeric code the front end expects for each error kind: one of 100 to 112. */
  function Code(e: ContractError): (code: int)
    ensures 100 <= code <= 112
  {
    match e
    case NotAuthorized => 100
    case KoloNotFound => 101
    case KoloFull => 102
    case AlreadyMember => 103
    case NotMember => 104
    case AlreadyPaid => 105
    case WrongAmount => 106
    case NotStarted => 107
    case PayoutNotReady => 108
    case NotYourTurn => 109
    case KoloNotActive => 110
    case InvalidParams => 111
    case CannotJoin => 112
  }

  /** Reads a code back as an error kind; the reference inverse of `Code`. */
  function FromCode(code: int): (e: Option<ContractError>)
    ensures e.Some? ==> Code(e.value) == code
    ensures e.Some? <==> 100 <= code <= 112
  {
    if code == 100 then Some(NotAuthorized)
    else if code == 101 then Some(KoloNotFound)
    else if code == 102 then Some(KoloFull)
    else if code == 103 then Some(AlreadyMember)
    else if code == 104 then Some(NotMember)
    else if code == 105 then Some(AlreadyPaid)
    else if code == 106 then Some(WrongAmount)
    else if code == 107 then Some(NotStarted)
    else if code == 108 then Some(PayoutNotReady)
    else if code == 109 then Some(NotYourTurn)
    else if code == 110 then Some(KoloNotActive)
    else if code == 111 then Some(InvalidParams)
    else if code == 112 then Some(CannotJoin)
    else None
  }

  /** No two error kinds share a code. */
  lemma CodesDistinct(e1: ContractError, e2: ContractError)
    ensures Code(e1) == Code(e2) ==> e1 == e2
  {
    assert FromCode(Code(e1)) == Some(e1);
  }

  /** The codes in use are exactly 100 to 112. */
  lemma CodesCoverRange(code: int)
    ensures (exists e :: Code(e) == code) <==> 100 <= code <= 112
  {
    if 100 <= code <= 112 {
      assert Code(FromCode(code).value) == code;
    }
  }

  const UNKNOWN_ERROR_MESSAGE: string := "An unknown error occurred"

  /** The message table keyed by numeric code. */
  const MESSAGES: map<int, string> := map[
    100 := "You are not authorized to perform this action",
    101 := "Kolo not found",
    102 := "This Kolo is full",
    103 := "You are already a member",
    104 := "You are not a member of this Kolo",
    105 := "You have already paid for this round",
    106 := "Incorrect payment amount",
    107 := "This Kolo has not started yet",
    108 := "Payout is not ready yet",
    109 := "It is not your turn to receive payout",
    110 := "This Kolo is not active",
    111 := "Invalid parameters",
    112 := "You cannot join this Kolo"
  ]

  /**
   * The message shown for a code: the table's entry, or the generic message
   * when the entry is missing or empty (the lookup falls back on any falsy entry).
   */
  function ErrorMessage(code: int): (msg: string)
    ensures msg != ""
    ensures msg == UNKNOWN_ERROR_MESSAGE <==> !(100 <= code <= 112)
  {
    if code in MESSAGES && MESSAGES[code] != "" then MESSAGES[code] else UNKNOWN_ERROR_MESSAGE
  }

  /** Each known code has its own message: the table tells every error kind apart. */
  lemma MessagesDistinct(e1: ContractError, e2: ContractError)
    ensures ErrorMessage(Code(e1)) == ErrorMessage(Code(e2)) ==> e1 == e2
  {
    CodesDistinct(e1, e2);
  }

  /** The messages of the codes the ledger most often returns. */
  lemma SampleMessages()
    ensures ErrorMessage(Code(AlreadyPaid)) == "You have already paid for this round"
    ensures ErrorMessage(Code(CannotJoin)) == "You cannot join this Kolo"
    ensures ErrorMessage(Code(NotMember)) == "You are not a member of this Kolo"
    ensures ErrorMessage(99) == UNKNOWN_ERROR_MESSAGE && ErrorMessage(113) == UNKNOWN_ERROR_MESSAGE
  {
  }
}
