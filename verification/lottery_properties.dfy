/** Properties of the lottery contract across calls: a message dispatcher, runs
    of calls, the invariant every constructed contract keeps, and the unit
    tests of the source stated for all callers. */
module LotteryProperties {
  import opened BoundedInts
  import opened LotteryTypes
  import opened LotteryContract

  /** The state-changing messages of the contract with their arguments. */
  datatype Message =
    | SetupMsg(starting_block: uint32, daily_total_blocks: uint16,
               maximum_draws: uint8, maximum_bets: uint16)
    | AddDrawMsg(block_interval: uint16)
    | StartMsg
    | StopMsg

  /** One call: who sends it, the block it lands in, and what it asks. */
  datatype Call = Call(caller: AccountId, block: uint32, message: Message)

  function Apply(l: Lottery, c: Call): Transition {
    match c.message
    case SetupMsg(sb, dtb, md, mb) => Setup(l, c.caller, sb, dtb, md, mb)
    case AddDrawMsg(bi) => AddDraw(l, c.caller, bi)
    case StartMsg => Start(l, c.caller, c.block)
    case StopMsg => Stop(l, c.caller)
  }

  /** The storage after executing `calls` in order, one at a time. */
  function Run(l: Lottery, calls: seq<Call>): Lottery
    decreases |calls|
  {
    if |calls| == 0 then l else Run(Apply(l, calls[0]).next, calls[1..])
  }

  predicate StrictlyIncreasing(draws: seq<Draw>) {
    forall i, j :: 0 <= i < j < |draws| ==> draws[i].draw_number < draws[j].draw_number
  }

  /** The shape of the registry in every state a constructed contract can
      reach: at most 255 draws, numbered 1, 2, 3, ... in order, none of them
      touched since it was added. */
  predicate Wellformed(l: Lottery) {
    && |l.draws| <= UINT8_MAX
    && forall i :: 0 <= i < |l.draws| ==>
         l.draws[i].draw_number == i + 1 && Pristine(l.draws[i])
  }

  // ---------------------------------------------------------------------------
  // Guards and failure

  /** Every message from anyone but the operator is rejected with `BadOrigin`
      and changes nothing; the caller check always comes first. */
  lemma NonOperatorRejected(l: Lottery, c: Call)
    requires c.caller != l.operator
    ensures Apply(l, c) == Transition(Err(BadOrigin), l)
  {
  }

  /** A call that fails leaves the whole storage unchanged, whatever message
      it carried. */
  lemma FailureLeavesStateUnchanged(l: Lottery, c: Call)
    requires Apply(l, c).outcome.Err?
    ensures Apply(l, c).next == l
  {
  }

  /** No message changes the operator, and none but `add_draw` touches the
      registry, which it only extends at the end. */
  lemma ApplyKeepsOperatorAndPrefix(l: Lottery, c: Call)
    ensures Apply(l, c).next.operator == l.operator
    ensures l.draws <= Apply(l, c).next.draws
    ensures !c.message.AddDrawMsg? ==> Apply(l, c).next.draws == l.draws
  {
  }

  /** Over any run, the operator stays fixed and the registry is append-only:
      every draw present before the run is still present, unchanged, at the
      same position afterwards. */
  lemma {:induction false} RunKeepsOperatorAndPrefix(l: Lottery, calls: seq<Call>)
    ensures Run(l, calls).operator == l.operator
    ensures l.draws <= Run(l, calls).draws
    decreases |calls|
  {
    if |calls| > 0 {
      var l' := Apply(l, calls[0]).next;
      ApplyKeepsOperatorAndPrefix(l, calls[0]);
      RunKeepsOperatorAndPrefix(l', calls[1..]);
    }
  }

  // ---------------------------------------------------------------------------
  // Draw numbering

  /** Below saturation, `add_draw` keeps the registry's numbers strictly
      increasing, hence pairwise distinct. */
  lemma AddDrawKeepsIncreasing(l: Lottery, caller: AccountId, block_interval: uint16)
    requires StrictlyIncreasing(l.draws)
    requires forall i :: 0 <= i < |l.draws| ==> l.draws[i].draw_number < UINT32_MAX
    ensures StrictlyIncreasing(AddDraw(l, caller, block_interval).next.draws)
  {
  }

  /** At saturation the increase stops: once some draw carries `u32::MAX`,
      the next `add_draw` repeats that number. */
  lemma SaturatedAddDrawRepeatsNumber(l: Lottery, caller: AccountId, block_interval: uint16, k: nat)
    requires k < |l.draws| && l.draws[k].draw_number == UINT32_MAX
    requires AddDraw(l, caller, block_interval).outcome == Ok
    ensures AddDraw(l, caller, block_interval).next.draws[|l.draws|].draw_number
            == AddDraw(l, caller, block_interval).next.draws[k].draw_number
  {
  }

  /** In a well-formed registry the next number is exactly one more than the
      number of draws, so it never saturates. */
  lemma WellformedNextNumber(l: Lottery)
    requires Wellformed(l)
    ensures NextDrawNumber(l.draws) == |l.draws| + 1
  {
  }

  /** Every message preserves `Wellformed`. */
  lemma ApplyPreservesWellformed(l: Lottery, c: Call)
    requires Wellformed(l)
    ensures Wellformed(Apply(l, c).next)
  {
  }

  lemma {:induction false} RunPreservesWellformed(l: Lottery, calls: seq<Call>)
    requires Wellformed(l)
    ensures Wellformed(Run(l, calls))
    decreases |calls|
  {
    if |calls| > 0 {
      ApplyPreservesWellformed(l, calls[0]);
      RunPreservesWellformed(Apply(l, calls[0]).next, calls[1..]);
    }
  }

  /** Whatever calls follow construction, the registry holds at most 255
      draws numbered 1..n in order, so draw numbers are distinct, strictly
      increasing, and the saturating add never fires. */
  lemma ReachableWellformed(caller: AccountId, starting_block: uint32, daily_total_blocks: uint16,
                            last_draw_number: uint32, maximum_draws: uint8, maximum_bets: uint16,
                            init_start: bool, calls: seq<Call>)
    ensures Wellformed(Run(New(caller, starting_block, daily_total_blocks, last_draw_number,
                                   maximum_draws, maximum_bets, init_start), calls))
    ensures StrictlyIncreasing(Run(New(caller, starting_block, daily_total_blocks,
                                       last_draw_number, maximum_draws, maximum_bets,
                                       init_start), calls).draws)
  {
    var l := New(caller, starting_block, daily_total_blocks, last_draw_number,
                 maximum_draws, maximum_bets, init_start);
    RunPreservesWellformed(l, calls);
  }

  // ---------------------------------------------------------------------------
  // The source's unit tests, stated for every caller and every state they fit

  /** `default_works`: the default configuration as returned by
      `get_lottery_setup`. */
  lemma DefaultWorks(alice: AccountId)
    ensures GetLotterySetup(Default(alice)) ==
            LotterySetup(starting_block := 0, daily_total_blocks := 14_400,
                         last_draw_number := 0, maximum_draws := 2,
                         maximum_bets := 1_000, is_started := false)
  {
  }

  /** `start_lottery_works`, generalised: after a successful `start`, a second
      `start` from the operator at any block fails with `AlreadyStarted` and
      the lottery stays started. */
  lemma StartTwiceAlreadyStarted(l: Lottery, caller: AccountId, b1: uint32, b2: uint32)
    requires Start(l, caller, b1).outcome == Ok
    ensures Start(Start(l, caller, b1).next, caller, b2).outcome == Err(AlreadyStarted)
    ensures Start(Start(l, caller, b1).next, caller, b2).next.lottery_setup.is_started
  {
  }

  /** The scenario of `start_lottery_works` itself, from `new` at block 0. */
  lemma StartLotteryWorks(alice: AccountId)
    ensures
      var l0 := New(alice, 0, 14_400, 0, 2, 1_000, false);
      && Start(l0, alice, 0).outcome == Ok
      && Start(Start(l0, alice, 0).next, alice, 0).outcome == Err(AlreadyStarted)
  {
  }

  /** `setup_lottery_works`, generalised: `setup` after `start` installs the
      four new values and keeps `is_started` and `last_draw_number`. */
  lemma SetupAfterStart(l: Lottery, caller: AccountId, block: uint32, starting_block: uint32,
                        daily_total_blocks: uint16, maximum_draws: uint8, maximum_bets: uint16)
    requires Start(l, caller, block).outcome == Ok
    ensures GetLotterySetup(Setup(Start(l, caller, block).next, caller, starting_block,
                                  daily_total_blocks, maximum_draws, maximum_bets).next)
            == LotterySetup(starting_block, daily_total_blocks,
                            l.lottery_setup.last_draw_number, maximum_draws,
                            maximum_bets, true)
  {
  }

  /** The scenario of `setup_lottery_works` itself, from `new` at block 0. */
  lemma SetupLotteryWorks(alice: AccountId)
    ensures
      var l0 := New(alice, 0, 14_400, 0, 2, 1_000, false);
      var l1 := Start(l0, alice, 0).next;
      GetLotterySetup(Setup(l1, alice, 1_000_000, 14_400, 2, 1_000).next) ==
        LotterySetup(1_000_000, 14_400, 0, 2, 1_000, true)
  {
  }

  /** `adding_draw_works`, generalised: the first draw added to an empty
      registry with room for one is draw 1, pristine, and alone. */
  lemma FirstAddDraw(l: Lottery, block_interval: uint16)
    requires l.draws == [] && l.lottery_setup.maximum_draws >= 1
    ensures AddDraw(l, l.operator, block_interval).outcome == Ok
    ensures AddDraw(l, l.operator, block_interval).next.draws ==
            [Draw(draw_number := 1, block_interval := block_interval, jackpot := 0, bets := [],
                  winning_number := 0, winners := [], is_open := false)]
  {
  }

  // ---------------------------------------------------------------------------
  // Further relations between messages

  /** `stop` undoes `start` and touches nothing else: a successful `start`
      followed by `stop` returns the storage to what it was. */
  lemma StopUndoesStart(l: Lottery, caller: AccountId, block: uint32)
    requires Start(l, caller, block).outcome == Ok
    ensures Stop(Start(l, caller, block).next, caller) == Transition(Ok, l)
  {
  }

  /** `setup` with the same arguments twice is the same as once. */
  lemma SetupIdempotent(l: Lottery, caller: AccountId, starting_block: uint32,
                        daily_total_blocks: uint16, maximum_draws: uint8, maximum_bets: uint16)
    ensures
      var t := Setup(l, caller, starting_block, daily_total_blocks, maximum_draws, maximum_bets);
      Setup(t.next, caller, starting_block, daily_total_blocks, maximum_draws, maximum_bets) == t
  {
  }

  /** The `add_draw` that fills the registry makes the next `add_draw` from
      the operator fail with `TooManyDraws`. */
  lemma AddDrawFillsCapacity(l: Lottery, block_interval: uint16)
    requires AddDraw(l, l.operator, block_interval).outcome == Ok
    requires |l.draws| + 1 == l.lottery_setup.maximum_draws
    ensures AddDraw(AddDraw(l, l.operator, block_interval).next, l.operator, block_interval)
            == Transition(Err(TooManyDraws), AddDraw(l, l.operator, block_interval).next)
  {
  }

  /** Once the registry is full, it stays exactly as it is over any run of
      calls that contains no `setup`: no message other than `setup` changes
      `maximum_draws`, so every `add_draw` keeps failing. */
  lemma {:induction false} FullRegistryStaysFull(l: Lottery, calls: seq<Call>)
    requires |l.draws| >= l.lottery_setup.maximum_draws
    requires forall i :: 0 <= i < |calls| ==> !calls[i].message.SetupMsg?
    ensures Run(l, calls).draws == l.draws
    ensures Run(l, calls).lottery_setup.maximum_draws == l.lottery_setup.maximum_draws
    decreases |calls|
  {
    if |calls| > 0 {
      var l' := Apply(l, calls[0]).next;
      assert l'.draws == l.draws && l'.lottery_setup.maximum_draws == l.lottery_setup.maximum_draws;
      FullRegistryStaysFull(l', calls[1..]);
    }
  }
}
