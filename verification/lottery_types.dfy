/** The storage and record types of the ink! lottery contract. */
module LotteryTypes {
  import opened BoundedInts

  /** An ink! account identifier: 32 opaque bytes. */
  type AccountId = s: seq<bv8> | |s| == 32 witness seq(32, _ => 0)

  /** The chain's native balance type (`u128` in the default ink! environment). */
  type Balance = uint128

  /** The four errors a message can report. */
  datatype LotteryError = AlreadyStarted | StartingBlockPassed | BadOrigin | TooManyDraws

  /** The configuration record. Only `starting_block`, `maximum_draws` and
      `is_started` are read by any guard; the other fields are stored and
      returned but never consulted. */
  datatype LotterySetup = LotterySetup(
    starting_block: uint32,
    daily_total_blocks: uint16,
    last_draw_number: uint32,
    maximum_draws: uint8,
    maximum_bets: uint16,
    is_started: bool)

  datatype Bet = Bet(bettor: AccountId, bet_number: uint16)

  datatype Winner = Winner(bettor: AccountId, winning_amount: Balance)

  /** One draw of the registry. */
  datatype Draw = Draw(
    draw_number: uint32,
    block_interval: uint16,
    jackpot: Balance,
    bets: seq<Bet>,
    winning_number: uint16,
    winners: seq<Winner>,
    is_open: bool)

  /** The contract's whole storage. */
  datatype Lottery = Lottery(operator: AccountId, lottery_setup: LotterySetup, draws: seq<Draw>)

  /** `Result<(), LotteryError>`, the reply of every state-changing message. */
  datatype Outcome = Ok | Err(error: LotteryError)

  /** A message's reply together with the storage it leaves behind. */
  datatype Transition = Transition(outcome: Outcome, next: Lottery)

  /** A draw as it is created: nothing has been bet, won or opened yet. */
  predicate Pristine(d: Draw) {
    && d.jackpot == 0
    && d.bets == []
    && d.winning_number == 0
    && d.winners == []
    && !d.is_open
  }

  /** `a` and `b` agree on every configuration field except `is_started`. */
  predicate SameExceptStarted(a: LotterySetup, b: LotterySetup) {
    && a.starting_block == b.starting_block
    && a.daily_total_blocks == b.daily_total_blocks
    && a.last_draw_number == b.last_draw_number
    && a.maximum_draws == b.maximum_draws
    && a.maximum_bets == b.maximum_bets
  }
}
