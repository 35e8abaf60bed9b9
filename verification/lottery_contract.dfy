/** The messages of the lottery contract. Each one is a pure transition: the
    caller (and, for `Start`, the current block height) that ink! reads from
    its environment is an explicit parameter, and the reply comes back with the
    storage the call leaves behind. Every guard returns before any field is
    written, so a failing call leaves the storage exactly as it was. */
module LotteryContract {
  import opened BoundedInts
  import opened LotteryTypes

  /** Constructor `new`: the caller becomes the operator, the registry is
      empty and every argument is stored as given. */
  function New(caller: AccountId, starting_block: uint32, daily_total_blocks: uint16,
               last_draw_number: uint32, maximum_draws: uint8, maximum_bets: uint16,
               init_start: bool): (l: Lottery)
    ensures l.operator == caller
    ensures l.draws == []
    ensures l.lottery_setup.starting_block == starting_block
    ensures l.lottery_setup.daily_total_blocks == daily_total_blocks
    ensures l.lottery_setup.last_draw_number == last_draw_number
    ensures l.lottery_setup.maximum_draws == maximum_draws
    ensures l.lottery_setup.maximum_bets == maximum_bets
    ensures l.lottery_setup.is_started == init_start
  {
    Lottery(caller,
            LotterySetup(starting_block, daily_total_blocks, last_draw_number,
                         maximum_draws, maximum_bets, init_start),
            [])
  }

  /** Constructor `default`: `new` with the contract's built-in configuration. */
  function Default(caller: AccountId): (l: Lottery)
    ensures l.operator == caller
    ensures l.draws == []
    ensures l.lottery_setup == LotterySetup(0, 14_400, 0, 2, 1_000, false)
  {
    New(caller, 0, 14_400, 0, 2, 1_000, false)
  }

  /** Query `get_lottery_setup`: a copy of the configuration record. */
  function GetLotterySetup(l: Lottery): (s: LotterySetup)
    ensures s == l.lottery_setup
  {
    l.lottery_setup
  }

  /** Message `setup`: operator only; overwrites four configuration fields. */
  function Setup(l: Lottery, caller: AccountId, starting_block: uint32,
                 daily_total_blocks: uint16, maximum_draws: uint8,
                 maximum_bets: uint16): (t: Transition)
    ensures t.outcome == Err(BadOrigin) <==> caller != l.operator
    ensures t.outcome == Ok <==> caller == l.operator
    ensures t.outcome.Err? ==> t.next == l
    ensures t.outcome == Ok ==>
              && t.next.operator == l.operator
              && t.next.draws == l.draws
              && t.next.lottery_setup.starting_block == starting_block
              && t.next.lottery_setup.daily_total_blocks == daily_total_blocks
              && t.next.lottery_setup.maximum_draws == maximum_draws
              && t.next.lottery_setup.maximum_bets == maximum_bets
              && t.next.lottery_setup.last_draw_number == l.lottery_setup.last_draw_number
              && t.next.lottery_setup.is_started == l.lottery_setup.is_started
  {
    if caller != l.operator then
      Transition(Err(BadOrigin), l)
    else
      var s := l.lottery_setup.(starting_block := starting_block,
                                daily_total_blocks := daily_total_blocks,
                                maximum_draws := maximum_draws,
                                maximum_bets := maximum_bets);
      Transition(Ok, l.(lottery_setup := s))
  }

  /** The largest draw number in the registry, or 0 when it is empty
      (`iter().map(|d| d.draw_number).max().unwrap_or(0)`). */
  function MaxDrawNumber(draws: seq<Draw>): (m: uint32)
    ensures forall i :: 0 <= i < |draws| ==> draws[i].draw_number <= m
    ensures |draws| == 0 ==> m == 0
    ensures |draws| > 0 ==> exists i :: 0 <= i < |draws| && draws[i].draw_number == m
  {
    if |draws| == 0 then 0
    else
      var rest := MaxDrawNumber(draws[..|draws| - 1]);
      var last := draws[|draws| - 1].draw_number;
      if rest <= last then last else rest
  }

  /** The number `add_draw` gives a new draw: one past the largest existing
      number, saturating at `u32::MAX`. It is 1 for an empty registry, above
      every existing number unless it saturated, and otherwise one past some
      existing number or equal to one that already holds the maximum. */
  function NextDrawNumber(draws: seq<Draw>): (n: uint32)
    ensures 1 <= n
    ensures |draws| == 0 ==> n == 1
    ensures n == UINT32_MAX || forall i :: 0 <= i < |draws| ==> draws[i].draw_number < n
    ensures |draws| > 0 ==>
              exists i :: 0 <= i < |draws| &&
                (draws[i].draw_number == n - 1 || draws[i].draw_number == n)
    ensures (exists i :: 0 <= i < |draws| && draws[i].draw_number == UINT32_MAX) ==>
              n == UINT32_MAX
  {
    SaturatingAdd32(MaxDrawNumber(draws), 1)
  }

  /** The draw `add_draw` appends. */
  function NewDraw(draw_number: uint32, block_interval: uint16): (d: Draw)
    ensures Pristine(d)
    ensures d.draw_number == draw_number && d.block_interval == block_interval
  {
    Draw(draw_number, block_interval, 0, [], 0, [], false)
  }

  /** Message `add_draw`: operator only, then capacity-checked; appends one
      pristine draw numbered by `NextDrawNumber`. */
  function AddDraw(l: Lottery, caller: AccountId, block_interval: uint16): (t: Transition)
    ensures t.outcome == Err(BadOrigin) <==> caller != l.operator
    ensures t.outcome == Err(TooManyDraws) <==>
              caller == l.operator && |l.draws| >= l.lottery_setup.maximum_draws
    ensures t.outcome == Ok <==>
              caller == l.operator && |l.draws| < l.lottery_setup.maximum_draws
    ensures t.outcome.Err? ==> t.next == l
    ensures t.outcome == Ok ==>
              && t.next.operator == l.operator
              && t.next.lottery_setup == l.lottery_setup
              && |t.next.draws| == |l.draws| + 1 <= l.lottery_setup.maximum_draws
              && t.next.draws[..|l.draws|] == l.draws
              && Pristine(t.next.draws[|l.draws|])
              && t.next.draws[|l.draws|].block_interval == block_interval
              && t.next.draws[|l.draws|].draw_number == NextDrawNumber(l.draws)
  {
    if caller != l.operator then
      Transition(Err(BadOrigin), l)
    else if |l.draws| >= l.lottery_setup.maximum_draws then
      Transition(Err(TooManyDraws), l)
    else
      var d := NewDraw(NextDrawNumber(l.draws), block_interval);
      Transition(Ok, l.(draws := l.draws + [d]))
  }

  /** Message `start`: checks the caller, then whether the lottery is already
      started, then whether the starting block has passed; on success only
      `is_started` changes. */
  function Start(l: Lottery, caller: AccountId, current_block: uint32): (t: Transition)
    ensures caller != l.operator ==> t.outcome == Err(BadOrigin)
    ensures caller == l.operator && l.lottery_setup.is_started ==>
              t.outcome == Err(AlreadyStarted)
    ensures caller == l.operator && !l.lottery_setup.is_started &&
            current_block > l.lottery_setup.starting_block ==>
              t.outcome == Err(StartingBlockPassed)
    ensures t.outcome == Ok <==>
              && caller == l.operator
              && !l.lottery_setup.is_started
              && current_block <= l.lottery_setup.starting_block
    ensures t.outcome.Err? ==> t.next == l
    ensures t.outcome == Ok ==>
              && t.next.operator == l.operator
              && t.next.draws == l.draws
              && SameExceptStarted(t.next.lottery_setup, l.lottery_setup)
              && t.next.lottery_setup.is_started
  {
    if caller != l.operator then
      Transition(Err(BadOrigin), l)
    else if l.lottery_setup.is_started then
      Transition(Err(AlreadyStarted), l)
    else if current_block > l.lottery_setup.starting_block then
      Transition(Err(StartingBlockPassed), l)
    else
      Transition(Ok, l.(lottery_setup := l.lottery_setup.(is_started := true)))
  }

  /** Message `stop`: operator only; always clears `is_started` and nothing else. */
  function Stop(l: Lottery, caller: AccountId): (t: Transition)
    ensures t.outcome == Err(BadOrigin) <==> caller != l.operator
    ensures t.outcome == Ok <==> caller == l.operator
    ensures t.outcome.Err? ==> t.next == l
    ensures t.outcome == Ok ==>
              && t.next.operator == l.operator
              && t.next.draws == l.draws
              && SameExceptStarted(t.next.lottery_setup, l.lottery_setup)
              && !t.next.lottery_setup.is_started
  {
    if caller != l.operator then
      Transition(Err(BadOrigin), l)
    else
      Transition(Ok, l.(lottery_setup := l.lottery_setup.(is_started := false)))
  }
}
