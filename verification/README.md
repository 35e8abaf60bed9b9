# Lottery contract: draw registry and configuration state machine

A Dafny model of the ink! lottery contract's storage and messages. The storage holds three things:

- an `operator` account;
- a `LotterySetup` configuration record;
- a registry of `Draw`s.

The constructors `new` and `default` make the caller the operator. Four guarded messages act on the storage:

- `setup` rewrites four configuration fields;
- `add_draw` appends a new draw, up to a capacity;
- `start` sets the started flag;
- `stop` clears it.

Each message is a pure function from the storage, the caller and (for `start`) the current block height to a `Transition`. A `Transition` holds the reply (`Ok` or `Err(LotteryError)`) and the storage the call leaves behind.

Files:

- `bounded_ints.dfy` (`BoundedInts`): the Rust integer widths `u8`, `u16`, `u32` and `u128` as subset types, plus `u32::saturating_add`.
- `lottery_types.dfy` (`LotteryTypes`): `LotteryError`, `LotterySetup`, `Bet`, `Winner`, `Draw`, the storage `Lottery`, and the reply types.
- `lottery_contract.dfy` (`LotteryContract`): the constructors, the messages and `get_lottery_setup`.
- `lottery_properties.dfy` (`LotteryProperties`): a dispatcher over messages, runs of calls, the invariant every constructed contract keeps, and the unit tests in `lib.rs` stated for all callers.

The two copies of the `lottery` module, in `src/lib.rs` and in `lib.rs`, differ only in field visibility, so one model serves both. Rows cite `src/lib.rs` for the logic and `lib.rs` for its unit tests.

`src/tests.rs` and `src/errors.rs` belong to a different revision of the contract. `src/tests.rs` builds a `LotterySetup` with `dev`, `asset_id` and `next_starting_block` fields. It calls a 6-argument `setup`, a 4-argument `add_draw` and a `remove_draw` message, and it compares draws carrying a `DrawStatus`. `src/errors.rs` adds error names such as `InvalidBlock`, `NoRecords`, `DrawNotFound`, `DrawOpen`, `DrawClosed` and `InvalidBlocksHierarchy`. `src/lib.rs` defines none of these, so none of them is part of this model. The model follows `src/lib.rs`:

- `start` reports a block past `starting_block` as `StartingBlockPassed`;
- `stop` has no guard besides the caller check;
- `add_draw` takes a single `block_interval` argument.

## Model

| member | source | states |
|---|---|---|
| LotteryContract.New | src/lib.rs:77-97 | the caller becomes operator, the registry starts empty, and every argument lands in its own configuration field |
| LotteryContract.Default | src/lib.rs:101-108 | the default contract is operated by the caller, has no draws and is configured as (0, 14 400, 0, 2, 1 000, not started) |
| LotteryContract.Setup | src/lib.rs:112-128 | fails with `BadOrigin` exactly for a non-operator and then changes nothing; on success installs the four arguments and keeps operator, draws, `last_draw_number` and `is_started` |
| LotteryContract.GetLotterySetup | src/lib.rs:201-204 | the query returns the stored configuration record unchanged, and has no effect on the storage |
| LotteryContract.NewDraw | src/lib.rs:150-158 | the draw `add_draw` builds carries the given number and interval, zero jackpot and winning number, no bets or winners, and is closed |
| LotteryContract.MaxDrawNumber | src/lib.rs:143-147 | the result bounds every draw number and is one of them; it is 0 for an empty registry |
| LotteryContract.NextDrawNumber | src/lib.rs:143-148 | the new number is 1 for an empty registry and exceeds every existing number unless it saturated at `u32::MAX`; it is one past an existing number or equal to one; any draw at `u32::MAX` forces `u32::MAX` |
| BoundedInts.SaturatingAdd32 | src/lib.rs:148 | the sum when it fits in 32 bits, `u32::MAX` otherwise, and never below either operand |
| LotteryContract.AddDraw | src/lib.rs:132-163 | `BadOrigin` iff the caller is not the operator; `TooManyDraws` iff an operator call meets a full registry; both leave the storage unchanged; success appends exactly one pristine draw with the given interval and the next number, keeps earlier draws and configuration, and never exceeds `maximum_draws` |
| LotteryContract.Start | src/lib.rs:168-186 | guards are checked in this order: `BadOrigin`, then `AlreadyStarted`, then `StartingBlockPassed` when the block is past `starting_block`; success iff none applies; failures change nothing; success sets only `is_started` |
| LotteryContract.Stop | src/lib.rs:190-198 | `BadOrigin` iff the caller is not the operator, with no change; otherwise succeeds and only clears `is_started` |
| LotteryProperties.NonOperatorRejected | src/lib.rs:118-193 | every message from a non-operator is answered `BadOrigin` and leaves the storage unchanged |
| LotteryProperties.FailureLeavesStateUnchanged | src/lib.rs:118-181 | a call of any message that fails leaves the whole storage as it was |
| LotteryProperties.ApplyKeepsOperatorAndPrefix | src/lib.rs:112-198 | no message changes the operator; only `add_draw` changes the registry, and only by extending it at the end |
| LotteryProperties.RunKeepsOperatorAndPrefix | src/lib.rs:150-160 | over any sequence of calls the operator is fixed and the registry is append-only |
| LotteryProperties.AddDrawKeepsIncreasing | src/lib.rs:143-160 | below saturation, `add_draw` keeps draw numbers strictly increasing, so they stay distinct |
| LotteryProperties.SaturatedAddDrawRepeatsNumber | src/lib.rs:143-148 | once a draw carries `u32::MAX`, the next draw gets that same number |
| LotteryProperties.WellformedNextNumber | src/lib.rs:143-148 | in a registry numbered 1..n the next number is n + 1 |
| LotteryProperties.ApplyPreservesWellformed | src/lib.rs:132-163 | every message keeps the registry at most 255 draws, numbered 1..n in order, all untouched since creation |
| LotteryProperties.RunPreservesWellformed | src/lib.rs:132-163 | the same holds for any sequence of calls |
| LotteryProperties.ReachableWellformed | src/lib.rs:77-163 | every contract built by `new` and driven by any calls has distinct, strictly increasing draw numbers 1..n with n at most 255, so numbering never saturates |
| LotteryProperties.DefaultWorks | lib.rs:209-221 | `get_lottery_setup` on the default contract returns (0, 14 400, 0, 2, 1 000, false) |
| LotteryProperties.StartTwiceAlreadyStarted | lib.rs:223-234 | after a successful `start`, a second `start` at any block yields `AlreadyStarted` and the lottery stays started |
| LotteryProperties.SetupAfterStart | lib.rs:236-256 | `setup` after a successful `start` installs the four values and keeps `is_started = true` and `last_draw_number` |
| LotteryProperties.SetupLotteryWorks | lib.rs:237-256 | the test's own scenario yields (1 000 000, 14 400, 0, 2, 1 000, true) |
| LotteryProperties.FirstAddDraw | lib.rs:258-280 | on an empty registry with room, `add_draw` succeeds and the registry becomes exactly draw 1 with the given interval, zero jackpot and winning number, no bets or winners, closed |
| LotteryProperties.StopUndoesStart | src/lib.rs:168-197 | a successful `start` followed by `stop` restores the storage exactly |
| LotteryProperties.SetupIdempotent | src/lib.rs:112-128 | repeating `setup` with the same arguments has the same reply and result as doing it once |
| LotteryProperties.AddDrawFillsCapacity | src/lib.rs:139-141 | the `add_draw` that fills the registry makes the next one fail with `TooManyDraws` and leave the storage unchanged |
| LotteryProperties.FullRegistryStaysFull | src/lib.rs:139-141 | once the registry is full, any run of calls without `setup` leaves the draws exactly as they were |
| LotteryProperties.StartLotteryWorks | lib.rs:224-233 | the test's own scenario: from `new(0, 14 400, 0, 2, 1 000, false)` the first `start` at block 0 succeeds and the second returns `AlreadyStarted` |

## Left out

- The ink! host environment. `env().caller()` and `env().block_number()` are explicit parameters. Storage persistence is not modelled.
- Host rollback of state on an `Err` reply is not modelled. Every guard returns before any write, so the storage is unchanged either way.
- The SCALE `Encode`/`Decode` and `TypeInfo` derives. They only serialise the records.
- The end-to-end tests in `lib.rs` (lines 286-351) are left out. They call `get`, `flip` and `LotteryRef::new(false)`, which this contract does not define.
- `src/assets.rs` is left out. It only encodes a foreign runtime call to the Assets pallet.
- `src/errors.rs` is left out. It is the error enum of a different revision; its host-error conversion is environment interop.
- `src/tests.rs` is left out. It calls `remove_draw`, a 4-argument `add_draw` and a 6-argument `setup`, and uses `DrawStatus`, `dev`, `asset_id` and `next_starting_block`; `src/lib.rs` defines none of these.
- Changes to a draw after it is added are left out. `src/lib.rs` has no message that opens a draw, records a bet, draws a winning number or pays a jackpot, so `jackpot`, `bets`, `winning_number`, `winners` and `is_open` keep the values `add_draw` gives them.
- `maximum_bets`, `last_draw_number`, `block_interval`, and the `Bet` and `Winner` records are stored but never read by any logic. They are kept as opaque fields.
