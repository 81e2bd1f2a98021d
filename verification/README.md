# Verified model of dingo-cli

This project models the two parts of the repository whose behaviour is hard to see from reading any
single function, and the codecs and tables that join them.

**The cyclic logic engine** (`fwmodel/model/dingosim.py`). Every 2 ms a device delivers the received CAN
frames and then runs its function blocks one after another, in a fixed order of categories and in slot
order within a category, all of them in place on one list of variables. A block therefore sees this
cycle's value of a variable written before its turn and last cycle's value of one written after it.

* `Blocks` gives each function block as a function of its private memory, its own variables and the
  values it reads. `Configs` gives the configuration, the validation of references, and the plan a
  configuration compiles to: all slots in evaluation order, with the variables each of them writes;
  `Validation` has the loops that check the references.
  `Engine` runs a plan: a cycle, a run of any length from power-on, and what can be observed.
* `Sim` is the simulator object itself, with its lists and latch objects, one method per block and one
  loop per category. Its `Step` is proved to be one cycle of `Engine`, its `Observe` to be the engine's
  observation, its constructor to give the power-on state. `CanFrames` assembles and sends the frames,
  `CanRuns` follows them over the cycles of a run. `TraceRun` runs the object over a whole trace: its log
  and the frames it sends are those of the engine (`TraceSpec`), and two objects with the two engine
  configurations give the same log.
* `Dataflow` states what a cycle computes as equations, one per slot, and proves that the state after a
  cycle is their only solution. Everything else about the engine is proved from the equations:
  `Transplant` (two plans related by a correspondence between slots show the same in every run),
  `Equivalence` (non-interference, renumbering), `ConfigEquivalence` (the same of accepted configurations),
  `OrderMatters` and `Chains` (which renumberings of a board are invisible: exactly those that move CAN inputs
  only), `EngineRewrite` (the reference rewrite of the engine configuration), `EngineInterlock` (starter and run
  outputs) and `RxOrder`.
* What each block does over whole runs is given from the history of its inputs alone, in plain arithmetic and
  logic: `CounterRuns` and `CounterLaws` (what counters count to, what their resets mean), `CanInputs` and
  `Conditions` (comparisons, latches, timeouts), `Gates` (virtual inputs), `Latches`, `Debounce` (digital inputs),
  `Timing` (flashers) and `Signals` (outputs, samples, disabled slots).

**The parameter protocol** (`internal/dingo/protocol.go`, with the device of `internal/dingo/fake_test.go`).
`Device` is the device, `Link` two queues that may lose frames in either direction but never change,
duplicate or reorder them, with a clock, and `Client` the client: waiting, retrying, the staged bulk
write and the bulk read; `Policy` has its timing. `WriteStates`, `WriteRuns`, `ReadRuns` and `ReadTrack` hold the
invariants over everything that can happen on the line, `ReadTurns` the read turn by turn with its clock, of
which the client's loop is proved to be a run, and `Traces` the log of requests and responses. The checksum
covers values only. That a successful write means the device holds exactly the list that was sent
rests on another argument: what is staged is always a subsequence of what was sent, and a subsequence of full
length is the whole list. A read may have asked more than once; what it has collected is what losses have left
of the dumps that the device has produced (`Subsequences.Rounds`). If that was one dump and its end has come, it
is the device's list, however often the client has asked. `ReadLimits` says exactly which lists a read can
return within the client's schedule, and for which lists of the device only the right one; `SilentLoss` says
exactly which single values can be lost without changing the checksum. The line also counts its losses and the transport its faults (a command
refused at once, or nothing delivered while something was under way), so that the contracts say when a write
or a read must succeed.

**Codecs and tables.** `Dbc` (signals in CAN payloads, both byte orders), `FrameLengths` (how long an assembled
frame is, against what its members need), `LittleEndian`, `Crc` (CRC-32 of IEEE 802.3, section 3.2.9, bit by bit),
`CrcRemainder` (the checksum as the remainder of a division of polynomials over GF(2), and nothing else) and
`CrcCheck` (its check value), `Messages` (frame bytes), `Slcan` (the serial line format and its stream splitter),
`Labels`, `VarMap` and `VarIndex` (the two independently written variable maps), `LayoutNames` (the simulator's
layout by these names), `Documents` and `DocumentFacts` (what a configuration document supplies for which key),
`Registry`, `BoardKeys`, `RegistryFacts`, `Encoding` and `Projection` (from values by key to a list of parameters),
`WireValues` (what the encoded values mean, and that a value read from a device is taken back), `BoardDocuments`
(the whole way, with one board's own tables of parameters and of variable names).

Where code and documentation of the repository disagree the model follows the code. In particular it
follows the Python simulator and not the firmware, from which it differs in the four ways listed in
`fwhost/README.md:196-284`.

Six statements that one might expect turn out false of the code and are given with the exact condition
under which they hold, and with inputs for which they do not:

* Renumbering slots is not invisible in general. For one configuration it is invisible when slots that read
  each other keep their order, and CAN outputs with the same place on the bus keep theirs
  (`ConfigEquivalence.RenumberedShowsTheSame`). For all configurations of a board with an output it is invisible
  if and only if it moves nothing but CAN inputs (`OrderMatters.InvisibleExactly`); `OrderMatters.ReversalShows`
  gives the configuration and the stimulus for every other permutation.
* "Every firmware default encodes" holds exactly for boards with at most 30 wiper delays, because the
  default of delay i is i seconds and the range ends at 30 seconds (`RegistryFacts.DefaultsGood`).
* "What a read returns is the device's list" holds exactly if the device's list cannot be mistaken: if losses
  can leave no other list with its checksum of as many dumps as were requested, or, if the end of a dump is
  insisted on, no other list with its checksum and count (`ReadLimits.ReadIsRightExactly`; for the whole read with
  its 25 requests `ReadLimits.WholeReadExactly`; `Client.Client.ReadAll` for the loop). If the device has produced
  one dump, a read that ends with its end is right for every list of fewer than 65536 parameters
  (`Client.Client.ReadAll`, `ReadRuns.OneDumpIsSafe`). Two dumps are too many for every list in which two
  different parameters have one value (`ReadLimits.TwoRequestsCanFool`). Without the end of the dump even one is
  too many: one lost entry goes unnoticed if and only if its value is the one silent value of what stands before
  it (`ReadLimits.OneLostEntry`), for instance a zero behind 0xFFFFFFFF (`ReadLimits.LostZero`).
* "A document that carries more slots than the board has is refused" (`internal/pdmcfg/pdmcfg.go:306-308`) holds if
  no array of objects is longer than the room between its first index and the next block's
  (`BoardDocuments.ExtraObjectRefused`, `AcceptedExactly`). Without that a document is refused exactly if some key
  that it supplies is none of the board's (`BoardDocuments.KnownExactly`), and 33 buttons on the first of two
  keypads are accepted by every such board: the last one is written to the second keypad
  (`BoardDocuments.ExtraButtonAccepted`). In the same way a fifth colour of a button replaces its fault colour
  (`DocumentFacts.EntryLost`).
* "An assembled frame is long enough for its members" holds if they are all little-endian, and then it is the
  shortest such frame (`FrameLengths.AssembledLength`). The length asked for by a Motorola slot holds its field if
  and only if its start bit is in the upper half of a byte or the field ends early enough in its last byte
  (`FrameLengths.MotorolaLength`); sixteen bits from bit 0 need three bytes and get two (`FrameLengths.MotorolaCut`).
* "A value read from a device can be written back" holds of every parameter that is no float
  (`BoardDocuments.BoardReadBack`), and of a float if and only if the number its bits stand for is still in the
  parameter's range and has the same bits.

Numbers: variables are `real`, since CAN factors and offsets scale them; integers are unbounded and every
width, mask and truncation of the code is written out; a byte is an integer below 256.

## Model

| member | source | states |
|---|---|---|
| `Dataflow.StepSatisfies` | fwmodel/model/dingosim.py:489-554 | the in-place cycle satisfies one equation per slot: it computes from this cycle's value of what is written before it and last cycle's value of the rest |
| `Dataflow.StepIsTheSolution` | fwmodel/model/dingosim.py:489-554 | a state solves the dataflow equations if and only if it is the state after the cycle |
| `Dataflow.SolutionsAgree` | fwmodel/model/dingosim.py:489-554 | any two solutions agree on every slot and variable, by the order of evaluation |
| `Signals.SeenAs` | fwmodel/model/dingosim.py:489-554 | which value a slot sees: the new one if the writer comes earlier, the old one if it comes later and is no CAN input |
| `Transplant.RunRelated` | fwmodel/model/equiv.py:8-21 | two plans whose slots correspond, reading corresponding variables on the same side, stay related in every run |
| `Transplant.ObservationallyEqual` | fwmodel/model/equiv.py:8-21 | such plans, if the correspondence covers what is observed, show the same in every run |
| `Equivalence.NonInterference` | fwmodel/model/equiv.py:19-21 | if two plans agree on a set of slots closed under what they read and holding everything observed, every run looks the same whatever the other slots hold |
| `ConfigEquivalence.ConfigNonInterference` | fwmodel/model/equiv.py:19-21 | the same of two accepted configurations of one board |
| `Equivalence.RenumberingIsInvisible` | fwmodel/model/equiv.py:19-21 | permuting slots within their categories, with every reference rewritten, shows in no run if slots that read each other keep their order and CAN outputs with one place on the bus keep theirs |
| `ConfigEquivalence.RenumberedAccepted` | fwmodel/model/dingosim.py:416-461 | a configuration with its slots permuted within their categories and every reference rewritten passes validation whenever the original does |
| `ConfigEquivalence.RenumberedShowsTheSame` | fwmodel/model/equiv.py:19-21 | such a configuration is accepted and shows the same in every run if slots that read each other keep their order and CAN outputs with one place on the bus keep theirs |
| `Chains.ChainShows` | fwmodel/model/dingosim.py:533-554 | for any two logic slots or CAN outputs of one category there is an accepted configuration that shows, after a fixed number of cycles, which of them runs first |
| `OrderMatters.ReversalShows` | fwmodel/model/dingosim.py:489-554 | on every board with an output, every permutation that reverses two such slots, whatever else it does, shows on some accepted configuration after some stimulus |
| `OrderMatters.InvisibleExactly` | fwmodel/model/equiv.py:19-21 | on every board with an output, a permutation of the slots within their categories is invisible on all accepted configurations and in all runs if and only if it moves CAN inputs only |
| `EngineDocs.DeployedAccepted` | fwmodel/corpus/engine-repin.json:15-56 | the engine configuration passes reference validation |
| `EngineDocs.RewriteAccepted` | fwmodel/tools/mkreference.py:147-213 | the reference configuration, and the renumbering without the rewritten reset, pass reference validation |
| `EngineRewrite.RenumberingSame` | fwmodel/tools/mkreference.py:13-15 | renumbering all virtual inputs of the engine configuration, with an unread one put in front, shows in no run |
| `EngineRewrite.HeatersKeepStep` | fwmodel/tools/mkreference.py:16-25 | the heater counter reset by Falling on ENGINE_RUN and the one reset by Rising on NOT_ENGINE_RUN stay in step, given that the heater press implies ENGINE_RUN |
| `EngineRewrite.AlwaysInStep` | fwmodel/tools/mkreference.py:16-25 | over every run the two configurations that differ only in that reset agree on everything but the counter's memory of its reset input |
| `EngineRewrite.ReferenceIsEquivalent` | fwmodel/tools/mkreference.py:2-25 | for every stimulus of any length the engine configuration and the reference show the same on every cycle |
| `EngineInterlock.AlwaysSafe` | fwmodel/corpus/engine-repin.json:37-54 | the interlock invariant holds after every run |
| `EngineInterlock.LatchesExclude` | fwmodel/corpus/engine-repin.json:37-54 | at the end of every cycle a set crank latch implies CHORD and a set run latch implies not CHORD |
| `EngineInterlock.StarterAndRunExclude` | fwmodel/corpus/engine-repin.json:16-20 | outputs 1 (starter) and 5 (ENGINE_RUN) are observed in every run and never on in the same cycle |
| `EngineInterlock.ReferenceExcludes` | fwmodel/tools/mkreference.py:159-165 | the same of the reference configuration |
| `CounterLaws.CounterEquation` | fwmodel/model/dingosim.py:716-764 | an enabled counter resets exactly when its reset edge fires against the remembered reset input, where it leaves its memory alone, and otherwise counts |
| `CounterLaws.NeverRemembers` | fwmodel/model/dingosim.py:726-735 | over every run a counter with a Rising or Both reset never remembers a high reset input |
| `CounterLaws.RisingOrBothIsLevel` | fwmodel/model/dingosim.py:726-735 | so such a counter is reset in exactly the cycles in which the input is high |
| `CounterLaws.FallingRemembers` | fwmodel/model/dingosim.py:726-735 | without hold-to-reset, a Falling counter remembers high exactly when its input has once been high |
| `CounterLaws.FallingIsLevelOnceHigh` | fwmodel/model/dingosim.py:726-735 | a Falling counter is never reset before its input has first been high, and from then on exactly while it is low |
| `CounterLaws.RisingEqualsBoth` | fwmodel/model/dingosim.py:706-714 | replacing Rising by Both on a counter's reset changes no state of any run |
| `CounterRuns.CountsUp` | fwmodel/model/dingosim.py:745-749 | over every run, from a count of zero and over cycles with no reset and no decrement edge, both defined from the levels of the inputs: n increment edges count to n modulo maxCount+1 with wrap-around and to the smaller of n and maxCount without; a negative maxCount is covered too |
| `CounterRuns.WrapsModulo` | fwmodel/model/dingosim.py:745-760 | over every run, a counter with wrap-around holds its start value plus the increment edges minus the decrement edges modulo maxCount+1, in whatever order and mixture they come |
| `CounterRuns.CountStep` | fwmodel/model/dingosim.py:716-764 | in every cycle of every run: a reset, hold-to-reset included, clears the count, no edge leaves it, an increment edge adds one up to maxCount, a decrement edge takes one off and takes 0 to maxCount with wrap-around or to minCount without |
| `Timing.OnPhase` | fwmodel/model/dingosim.py:687-702 | a driven flasher that has just come on stays on for floor(onTime/2)+1 cycles and is off in the next |
| `Timing.OffPhase` | fwmodel/model/dingosim.py:687-702 | one that has just gone off stays off for floor(offTime/2)+1 cycles and is on in the next |
| `Timing.DarkUntilDue` | fwmodel/model/dingosim.py:687-702 | in every run an undriven flasher is off, and a driven one that is off comes on exactly when more than offTime has passed since its last timeout, or since power-on |
| `Debounce.DebounceIsExact` | fwmodel/model/dingosim.py:579-595 | in every run and every mode an enabled digital input shows its latch applied to the debounced level: the pin once it has held one level for more than the debounce time, the previous level until then |
| `Debounce.MomentaryIsLevel` | fwmodel/model/dingosim.py:579-595 | a momentary input is the debounced level xor invert after every cycle |
| `Debounce.ChangesExactlyWhenSteady` | fwmodel/model/dingosim.py:579-595 | both halves at once: in the first cycle and whenever the pin has held one level for more than the debounce time a momentary input equals pin xor invert; in every other cycle it does not change |
| `Debounce.LatchingCountsPresses` | fwmodel/model/dingosim.py:579-595 | in every run a latching digital input is on exactly when its debounced level, inverted if asked, has come on an odd number of times |
| `Latches.LatchShows` | fwmodel/model/dingosim.py:243-251 | a latch shown any sequence of levels: momentary it shows the last one, latching whether there has been an odd number of presses, in any other mode nothing |
| `Gates.VirtShows` | fwmodel/model/dingosim.py:647-685 | after every cycle of every run an enabled virtual input is 1 or 0 by its terms and AND, OR or NAND written out: momentary, of the last cycle; latching, by how often the logic has come true |
| `Conditions.ConditionMeans` | fwmodel/model/dingosim.py:597-645 | an enabled condition is 1 after a cycle if and only if the value it sees is =, !=, >, <, >= or <= its argument, by its operator, and 0 otherwise; an operator that does not exist never holds |
| `Conditions.ConditionBits` | fwmodel/model/dingosim.py:636-641 | the bitwise operators of a condition, bit by bit: the low sixteen common bits of the two truncated numbers as a number, and the 32-bit complement of that, which is never zero |
| `CanInputs.CanInputShows` | fwmodel/model/dingosim.py:496-531 | after every run both variables of an enabled CAN input follow from the frames it has heard: zero if there are none or none for longer than the timeout, else the last one's value, and its comparison through the latch |
| `CanInputs.MomentaryCompares` | fwmodel/model/dingosim.py:597-627 | for each of the eight operators, a momentary CAN input that has heard a frame in time is 1 if and only if the frame's value is =, !=, >, <, >=, <= its operand, or shares a bit with it, or does not |
| `Signals.OutputShows` | fwmodel/model/dingosim.py:557-577 | after a cycle an enabled output is 1 if the input it sees is not zero and 0 if it is; its three measured variables are 0 |
| `Signals.CanOutSamples` | fwmodel/model/dingosim.py:791-793 | an enabled CAN output has sampled the value it sees, a disabled one keeps its sample |
| `Signals.DisabledShows` | fwmodel/model/dingosim.py:557-724 | every variable of a disabled slot is 0 after a cycle, except that a disabled CAN input's stay as they were |
| `RxOrder.PermutedReceive` | fwmodel/model/dingosim.py:496-513 | a CAN input makes the same of any order of frames with distinct ids |
| `RxOrder.FramesCommute` | fwmodel/model/dingosim.py:496-513 | any order of frames with distinct ids gives the same state after a cycle |
| `RxOrder.RunsCommute` | fwhost/src/main.cpp:190-197 | delivery in insertion order and delivery in id order give the same state after every run |
| `Blocks.ErasedFire` | fwmodel/model/dingosim.py:489-554 | what a block computes does not depend on the fields it does not look at |
| `Configs.LayoutOwner` | fwmodel/model/dingosim.py:489-554 | a variable in the range a slot writes has that slot, and no other, as its writer |
| `Configs.CompileValid` | fwmodel/model/dingosim.py:416-461 | an accepted configuration compiles to a plan whose references are in range and whose slots write disjoint variables |
| `Validation.PinnedVars` | fwmodel/model/dingosim.py:437-446 | the loops collect exactly the variables pinned at zero |
| `Validation.ValidateRefs` | fwmodel/model/dingosim.py:416-461 | the loops over the groups accept a configuration if and only if every enabled reference of every slot is in range and none is pinned |
| `Sim.Load` | fwmodel/model/dingosim.py:379-461 | construction succeeds exactly on accepted configurations, decided by the validation loops, and gives the power-on state |
| `Sim.Sim.constructor` | fwmodel/model/dingosim.py:379-413 | the object's lists hold the engine's power-on state of the compiled plan |
| `Sim.Sim.Step` | fwmodel/model/dingosim.py:489-554 | the object's state after step is the engine's state after a cycle; the frames sent carry the variables as they stand after the CAN outputs' turn; it fails exactly when a due frame has a field that runs off its payload |
| `Sim.Sim.Observe` | fwmodel/model/dingosim.py:807-824 | observation of the object is observation of the engine state: outputs by pin, CAN outputs by place on the bus |
| `TraceRun.RunTrace` | fwmodel/model/trace.py:92-104 | the object run over a whole trace logs what the engine shows after each cycle and sends what the frame schedule says; it gets through exactly when every frame fits its payload |
| `TraceRun.CompareEngines` | fwmodel/model/trace.py:92-104 | two simulator objects, one with the engine configuration and one with the reference, log the same on every trace |
| `Sim.Sim.Receive` | fwmodel/model/dingosim.py:499-513 | one CAN input takes one frame as the block does, and nothing else changes; what it then shows is `CanInputs.CanInputShows` |
| `Sim.Sim.Offer` | fwmodel/model/dingosim.py:497-513 | one frame is offered to every CAN input in turn |
| `Sim.Sim.DrainRx` | fwmodel/model/dingosim.py:496-513 | the received frames are drained one after another |
| `RxLoop.DrainedIsDelivery` | fwmodel/model/dingosim.py:496-513 | draining frame by frame comes to the same as every CAN input taking the whole list |
| `Sim.Sim.Profet` | fwmodel/model/dingosim.py:557-577 | an output's turn in place is the block's rule, and no other output's state changes |
| `Sim.Sim.Digin` | fwmodel/model/dingosim.py:579-595 | a digital input's turn in place is the block's rule, and no other input's memory changes |
| `Sim.Sim.Timeout` | fwmodel/model/dingosim.py:525-531 | a CAN input's timeout in place is the block's rule |
| `Sim.Sim.Sample` | fwmodel/model/dingosim.py:791-793 | an enabled CAN output samples its source, and no other sample changes |
| `Sim.Sim.Virtin` | fwmodel/model/dingosim.py:647-685 | a virtual input's turn in place is the block's rule |
| `Sim.Sim.Flasher` | fwmodel/model/dingosim.py:687-702 | a flasher's turn in place is the block's rule, and no other flasher's memory changes |
| `Sim.Sim.Counter` | fwmodel/model/dingosim.py:716-764 | a counter's turn in place is the block's rule, early returns included, and no other counter's memory changes; what that counts to is `CounterRuns.CountStep` |
| `Sim.Sim.Condition` | fwmodel/model/dingosim.py:629-645 | a condition's turn in place is the block's rule; what its operators mean is `Conditions.ConditionMeans` |
| `Sim.Sim.Outputs` | fwmodel/model/dingosim.py:515-517 | the loop over the outputs takes their turns in slot order |
| `Sim.Sim.Inputs` | fwmodel/model/dingosim.py:519-521 | the loop over the digital inputs takes their turns in slot order, each with its pin |
| `Sim.Sim.VirtualInputs` | fwmodel/model/dingosim.py:536-538 | the loop over the virtual inputs takes their turns in slot order |
| `Sim.Sim.Counters` | fwmodel/model/dingosim.py:546-548 | the loop over the counters takes their turns in slot order |
| `Sim.Sim.CanOutputStage` | fwmodel/model/dingosim.py:784-804 | all samples are taken, then every due frame is filled and sent, or the stage fails where a due frame does not fit |
| `SimStages.CycleAlong` | fwmodel/model/dingosim.py:489-554 | a cycle is delivery, then every position's turn, then the clock, with every state in between named |
| `SimLists.InputLatch.Check` | fwmodel/model/dingosim.py:243-251 | the latch object computes momentary and latching modes as the blocks' latch function does |
| `CanFrames.InitFrames` | fwmodel/model/dingosim.py:464-486 | every enabled slot of 1 to 64 bits is in exactly the frame with its (ide, id), frames have distinct identifiers, the length is the maximum and the interval the minimum over the members, 0 counting as 100 |
| `CanFrames.AssemblyIsByIdentifier` | fwmodel/model/dingosim.py:464-486 | two packable slots share a frame if and only if they share ide and id |
| `CanFrames.IntervalsPositive` | fwmodel/model/dingosim.py:470-474 | every assembled frame has a positive interval |
| `FrameLengths.AssembledLength` | fwmodel/model/dingosim.py:475-480 | a frame whose members are all little-endian has n bytes or fewer if and only if n bytes hold every bit of every member |
| `FrameLengths.AssembledInterval` | fwmodel/model/dingosim.py:467-481 | exactly the enabled slots of 1 to 64 bits are in a frame, and its interval is the smallest its members ask for, 0 asking for 100 |
| `FrameLengths.MotorolaLength` | fwmodel/model/dingosim.py:475 | the length computed for a Motorola slot holds its whole field if and only if its start bit is at least bit 4 of its byte or (length + start bit - 1) mod 8 is at most twice the start bit, the start bit counted within its byte |
| `FrameLengths.MotorolaCut` | fwmodel/model/dingosim.py:475 | sixteen bits from bit 0 downwards get two bytes and do not fit in them |
| `CanFrames.Transmitter.Send` | fwmodel/model/dingosim.py:797-804 | one due frame is rescheduled, filled from the variables slot by slot and sent; it fails exactly when a member runs off the payload |
| `CanFrames.Transmitter.Transmit` | fwmodel/model/dingosim.py:794-804 | exactly the due frames are filled and sent, in order; it fails exactly when one of them does not fit |
| `CanRuns.DueAsScheduled` | fwmodel/model/dingosim.py:794-797 | in a run of cycles, whatever the variables are, each frame is due exactly when the schedule says so |
| `CanRuns.BusCarriesDue` | fwmodel/model/dingosim.py:794-804 | in each cycle of a run the frames on the bus are exactly the due ones, with the payloads the cycle leaves in them |
| `CanRuns.Cadence` | fwmodel/model/dingosim.py:795-797 | in every run, two cycles in which a frame is due and none in between are at least one interval and less than interval + 2 ms apart, and the frame is due in the first cycle |
| `CanRuns.MemberReadable` | fwmodel/model/dingosim.py:798-803 | after a frame is filled, a member whose field no later member overlaps decodes to its own raw value |
| `Dbc.DecodeInt` | fwmodel/model/dingosim.py:172-196 | the decoding loops read exactly the bits of the field, in both byte orders, and interpret them as a 32-bit integer |
| `Dbc.DecodeFloat` | fwmodel/model/dingosim.py:199-200 | decoding a signal is the integer so read, scaled |
| `Dbc.EncodeFloat` | fwmodel/model/dingosim.py:203-228 | the encoding loops write exactly the bits of the field in place; they fail exactly for a Motorola field that runs off the buffer; which raw value that is says `Dbc.WritesTowardsZero` |
| `Dbc.EncodedBit` | fwmodel/model/dingosim.py:203-228 | what encoding does to each of the 64 bits |
| `Dbc.WritesTowardsZero` | fwmodel/model/dingosim.py:203-210 | the field written, read back, is the exact quotient of value minus offset and factor with its fraction dropped towards zero, modulo the field's width; with factor 0 it is zero |
| `PyInt.TruncTowardsZero` | fwmodel/model/dingosim.py:207 | of any number exactly one integer is no further from zero and less than one away from it, and it is what truncation gives |
| `Dbc.FieldWalk` | fwmodel/model/dingosim.py:172-196 | where a field lies: upwards from its start bit, or, Motorola, from its start bit as the highest one downwards, with bit 7 of the next byte after bit 0 |
| `Dbc.EncodeFrame` | fwmodel/model/dingosim.py:203-228 | every bit outside the field is unchanged, so a disjoint field in either byte order decodes to the same value |
| `Dbc.RawRoundTrip` | fwmodel/model/dingosim.py:172-228 | the field read back is the raw value modulo its width |
| `Dbc.RoundTrip` | fwmodel/model/dingosim.py:172-228 | with factor 1 and offset 0 a representable value decodes to itself, in both byte orders, signed and unsigned |
| `Dbc.ScaledRoundTrip` | fwmodel/model/dingosim.py:199-228 | with any nonzero factor the decoded value is less than one step from the original when the truncated raw value fits |
| `LittleEndian.RoundTrip32` | internal/dingo/protocol.go:93-113 | four little-endian bytes give back the 32-bit value |
| `LittleEndian.RoundTrip16` | internal/dingo/protocol.go:93-113 | two little-endian bytes give back the 16-bit value |
| `Messages.DecodeFrame` | internal/dingo/protocol.go:93-113 | decoding undoes encoding of every message |
| `Messages.EncodeDecoded` | internal/dingo/protocol.go:93-113 | encoding undoes decoding of every eight bytes |
| `Messages.FrameLayout` | internal/dingo/protocol.go:93-100 | the eight bytes of a message: command, index low and high, subindex, value lowest byte first |
| `Crc.ComputeChecksum` | internal/dingo/protocol.go:331-337 | the bitwise loop computes the checksum that is specified as feeding a register; by `CrcRemainder.CrcIsRemainder` it is the remainder of the division by the standard polynomial |
| `Crc.ShiftInjective` | internal/dingo/protocol.go:329-337 | each bit step of the checksum is invertible |
| `Crc.FeedWord` | internal/dingo/protocol.go:329-337 | feeding the four bytes of a value is adding the value to the register and shifting 32 times |
| `Crc.OneWrongValue` | internal/dingo/protocol.go:329-337 | two lists that differ in exactly one value have different checksums |
| `Crc.EmptyCrc` | internal/dingo/protocol.go:329-337 | the checksum of no values is 0 |
| `CrcRemainder.CrcIsRemainder` | internal/dingo/protocol.go:329-337 | 32 coefficients are the remainder of the complemented message times x^32 divided by x^32+x^26+x^23+x^22+x^16+x^12+x^11+x^10+x^8+x^7+x^5+x^4+x^2+x+1 over GF(2) if and only if they are the complemented bits of the checksum, lowest bit first |
| `CrcRemainder.RemainderUnique` | internal/dingo/protocol.go:329-337 | a message has one quotient and one remainder |
| `CrcCheck.CheckValue` | internal/dingo/protocol.go:336 | the checksum of the nine bytes 123456789 is 0xCBF43926 |
| `Messages.ComputeCrc` | internal/dingo/protocol.go:331-337 | the buffer filled by the loop has the checksum of the parameters' values |
| `Messages.OneWrongParam` | internal/dingo/protocol.go:329-337 | two parameter lists with exactly one differing value have different checksums |
| `Device.FakeDevice.Send` | internal/dingo/fake_test.go:59-113 | the device's whole new state and its replies, command by command |
| `Device.FakeDevice.Commit` | internal/dingo/fake_test.go:52-57 | a commit makes the staged list the live list and writes it to the store in order |
| `Device.AppliedAt` | internal/dingo/fake_test.go:52-57 | after a commit each key holds the last value staged for it, other keys what they held |
| `Device.CommitTwice` | internal/dingo/fake_test.go:52-57 | committing the same list again changes nothing |
| `Link.Port.Recv` | internal/dingo/fake_test.go:115-123 | receiving takes the next reply, or other traffic, or times out and only then advances the clock by the timeout; whatever happens on the line meanwhile is delivery or loss in order, and every loss is accounted for |
| `Link.HiddenAccounted` | internal/dingo/fake_test.go:59-113 | nothing that happens on the line makes a command disappear: it is still under way, answered, or counted as lost |
| `Client.Client.RecvResp` | internal/dingo/protocol.go:117-129 | the next response is the head of the reply queue, other traffic is skipped, and nothing is returned only once the deadline has passed |
| `Client.Client.RequestBytes` | internal/dingo/protocol.go:134-151 | at most six sends of one command and nothing else; a result is a reply with the wanted command, taken from the head of the queue; there is a result unless the transport made a fault or six frames were lost |
| `Client.Client.StartWrite` | internal/dingo/protocol.go:241-243 | if it succeeds, whatever was staged before, from then on only what is sent now is staged, despite resent start commands |
| `Client.Client.SendVals` | internal/dingo/protocol.go:244-251 | every parameter is put on the line once, in order |
| `Client.Client.CommitWrite` | internal/dingo/protocol.go:252-262 | it succeeds if and only if the reported count and checksum are those of the list; then the device has committed exactly that list, despite resent commit commands; if no value was lost or refused an answered commit succeeds exactly for lists of fewer than 65536 parameters |
| `Client.Client.WriteAll` | internal/dingo/protocol.go:240-263 | over lossy queues, with no start or commit in flight and anything staged, success means the device's committed list is exactly the sent list, in order, and its store agrees; it fails on the report of any commit with exactly one wrong value; if no value is lost or refused it fails only if the transport made a fault or six frames were lost |
| `WriteRuns.WritingKept` | internal/dingo/fake_test.go:66-82 | nothing that can happen on the line breaks the write invariant: what is staged or under way is a subsequence of what was sent |
| `WriteRuns.ValsStaged` | internal/dingo/protocol.go:244-251 | sending the values one after another extends what may be staged by exactly those values |
| `WriteRuns.CommittedAll` | internal/dingo/protocol.go:252-262 | a commit that reports the full count has committed the whole list, since a subsequence of full length is the list |
| `WriteRuns.HoldsKept` | internal/dingo/fake_test.go:52-82 | what the device then holds survives whatever of the exchange is still under way |
| `WriteRuns.WholeAlong` | internal/dingo/fake_test.go:66-82 | along everything that can happen on the line, a willing device has staged or under way, or counts as lost, every value sent |
| `WriteRuns.WholeAccepted` | internal/dingo/protocol.go:252-262 | if no value has been lost the answer to a commit passes the client's check |
| `WriteRuns.OneWrongValueRefused` | internal/dingo/protocol.go:256-261 | the check the client makes of a commit's report never passes the report of a list with exactly one wrong value |
| `Client.Client.Poll` | internal/dingo/protocol.go:198-220 | one receive window of the read: a reply comes before the window closes or nothing until then; a dump entry extends what is collected, an end-of-dump marker carries the checksum of the device's list and what has been collected is then what losses have left of the dumps the device has produced, and nothing comes only if something was lost or the transport made a fault |
| `Client.Client.RequestDump` | internal/dingo/protocol.go:192-197 | a request goes out exactly if no dump frame has been seen and the resend interval has passed, unless the transport refuses it |
| `Client.Client.TakeTurn` | internal/dingo/protocol.go:191-221 | one round of the loop is a turn of the clocked read: it goes on, sees the end of a dump, or stops because the line has been quiet |
| `Client.Client.Gather` | internal/dingo/protocol.go:191-221 | the loop terminates and is a run of turns; it sends at most 25 requests and none once a dump frame has been seen, and what it collects is what losses have left of the dumps the device has produced |
| `Client.Client.ReadAll` | internal/dingo/protocol.go:185-236 | a successful read returns what losses have left of the dumps the device has produced, with the checksum of the device's list; if that was at most one dump and its end has come, it is the device's list (of fewer than 65536 parameters), however often the client has asked; after any number of dumps it is the list whenever no other such list has its checksum (with the end of a dump: its checksum and count); if no request was under way before, there were no more dumps than requests; what is returned is among what `ReadLimits` says can be; if nothing is lost and the transport makes no fault the read succeeds with the list; at most 25 requests, none once a dump frame has been seen |
| `ReadTrack.Trust` | internal/dingo/protocol.go:212-235 | what a passed check is worth: by the dumps the device has produced, and, if none was under way before, by the requests sent |
| `ReadTurns.SaneRun` | internal/dingo/protocol.go:191-221 | in every run of the clocked read what is collected and under way is what losses have left of the dumps, no more dumps are owed than were asked for, and the requests keep their distance |
| `ReadRuns.DumpPicked` | internal/dingo/fake_test.go:92-101 | the entries of a dump are the device's list |
| `ReadRuns.ReadingKept` | internal/dingo/fake_test.go:92-103 | nothing that can happen on the line breaks the read invariant |
| `ReadRuns.CollectedRounds` | internal/dingo/protocol.go:198-220 | what has been collected while the device has produced at most n dumps is what losses leave of n dumps, one after another |
| `ReadRuns.OneDumpIsSafe` | internal/dingo/protocol.go:212-219 | no list of fewer than 65536 parameters can be mistaken, by count and checksum, for what losses leave of one dump of it |
| `ReadRuns.ExactTake` | internal/dingo/protocol.go:198-220 | while nothing is lost, what is collected and what is under way are together the device's list, and the end marker comes only when all of it has been collected |
| `ReadLimits.MarkedExactly` | internal/dingo/protocol.go:185-219 | from every quiet line with no request under way, of any list, over everything that can happen on the line and within the client's own schedule: after at most n requests, for each n up to 25, the end of a dump can confirm a list if and only if it is what losses leave of n dumps and has the announced count and checksum |
| `ReadLimits.CheckedExactly` | internal/dingo/protocol.go:222-235 | without the end of a dump the reported checksum can confirm a list if and only if it is what losses leave of n dumps and has that checksum |
| `ReadLimits.ReadIsRightExactly` | internal/dingo/protocol.go:181-236 | every list the client's read can return after at most n requests is the device's if and only if losses can leave no other list with its checksum of n dumps; with the end of a dump, if and only if no other one with its checksum and count |
| `ReadLimits.WholeReadExactly` | internal/dingo/protocol.go:181-236 | every list the whole read can return is the device's if and only if losses can leave no other list with its checksum of 25 dumps |
| `ReadLimits.AskAll` | internal/dingo/protocol.go:191-197 | the client's schedule lets it ask 25 times, and the device answer each time, before anything is received |
| `ReadLimits.TwoOfAValue` | internal/dingo/protocol.go:181-184 | a list with two different parameters of one value, wherever they stand, can be mistaken after two requests, also by count and checksum |
| `ReadLimits.TwoRequestsCanFool` | internal/dingo/protocol.go:181-184 | from every quiet line whose device holds such a list, among any others, a client that asks twice can accept a list that is not the device's |
| `ReadLimits.OneLostEntry` | internal/dingo/protocol.go:222-235 | after one request, if the end of the dump is lost, one more lost entry goes unnoticed if and only if its value is the silent value of those before it |
| `ReadLimits.LostZero` | internal/dingo/protocol.go:222-235 | for instance an entry of value zero behind one of value 0xFFFFFFFF |
| `SilentLoss.SilentLossExactly` | internal/dingo/protocol.go:329-337 | leaving a value out of a list keeps the checksum if and only if it is the one silent value of the values before it, whatever stands behind it |
| `SilentLoss.NeutralExactly` | internal/dingo/protocol.go:329-337 | for every register exactly one value leaves it as it was, found by running the register backwards |
| `Slcan.HexN` | internal/slcan/slcan.go:220-237 | a run of hexadecimal digits of either case, of any length, gives its number modulo 2^32, anything else is refused |
| `Slcan.Send` | internal/slcan/slcan.go:112-123 | the line printed for a frame; exactly frames of more than eight bytes are refused |
| `Slcan.ParseFrame` | internal/slcan/slcan.go:197-218 | the loop accepts exactly the well-formed lines and gives their frame |
| `Slcan.LineRoundTrip` | internal/slcan/slcan.go:112-123 | a printed line parses to the frame with its id modulo 0x800, so to the frame itself if and only if the id is at most 0x7FF |
| `Slcan.LineInCharacters` | internal/slcan/slcan.go:116-120 | the printed line character by character: t, three digits of the low eleven bits of the id, one of the length, two of each byte, upper case, ended by a carriage return |
| `Slcan.ParsesExactly` | internal/slcan/slcan.go:197-218 | a line stands for a frame if and only if it begins with t, three digits of the id, one of the length, at most eight, and two of each byte, in either case; whatever follows is ignored |
| `Slcan.ReadLoop` | internal/slcan/slcan.go:159-195 | the frames read depend on the bytes of the stream only, not on how they are cut into reads |
| `Slcan.TextsRead` | internal/slcan/slcan.go:159-195 | printed frames mixed with other lines are read back as exactly those frames, in order |
| `Slcan.ThroughTheStack` | internal/dingo/protocol.go:93-113 | messages encoded, printed, mixed with other lines and read back in arbitrary pieces are the same messages in the same order |
| `Labels.TextInjective` | internal/params/varmap.go:52-132 | different variables have different names |
| `Labels.LowerText` | internal/params/varmap.go:134-137 | lowering the case of a name is lowering the case of its words |
| `VarMap.VarTable.BuildVarMap` | internal/params/varmap.go:52-138 | the loops append exactly the board's names in order and index them by lower-case name, the last one winning |
| `VarMap.PostInit` | fwmodel/model/varmap.py:51-121 | the joined blocks are the board's names, each block starts at its closed-form base, and the size is the closed-form size |
| `VarMap.SameLayouts` | internal/params/varmap.go:52-132 | for boards with no wiper or a full one the two layouts give the same list if and only if there are at least three system variables |
| `VarIndex.LabelsRun` | fwmodel/model/varmap.py:51-133 | every name stands at its closed-form index |
| `LayoutNames.OutputNames` | fwmodel/model/dingosim.py:807-824 | the four variables that output i of a configuration writes are the ones named Out, i+1 and Active, Current, Overcurrent, Fault |
| `LayoutNames.CanInputNames` | fwmodel/model/dingosim.py:499-513 | the two variables of CAN input i are named CanIn, i+1 and Out, Val |
| `LayoutNames.InputNames` | fwmodel/model/dingosim.py:579-583 | the variable of digital input i is named DigIn and i+1 |
| `LayoutNames.VirtualInputNames` | fwmodel/model/dingosim.py:647-649 | the variable of virtual input i is named VirtIn and i+1 |
| `LayoutNames.FlasherNames` | fwmodel/model/dingosim.py:687-689 | the variable of flasher i is named Flasher and i+1 |
| `LayoutNames.CounterNames` | fwmodel/model/dingosim.py:716-718 | the variable of counter i is named Counter and i+1 |
| `LayoutNames.ConditionNames` | fwmodel/model/dingosim.py:629-631 | the variable of condition i is named Cond and i+1 |
| `LayoutNames.PinnedByName` | fwmodel/model/dingosim.py:437-446 | a variable is pinned if and only if it is named as an output's current, overcurrent or fault, as an analogue input's, or, on a board with five system variables, as the temperature or the voltage |
| `VarIndex.NamesDiffer` | internal/params/varmap.go:134-137 | no two variables of a board share a name, even ignoring case |
| `VarMap.VarTable.VarIndex` | internal/params/varmap.go:29-33 | a name is looked up without the white space around it and in lower case, for any text |
| `VarMap.VarTable.VarName` | internal/params/varmap.go:21-27 | the name at an index, none beyond the last |
| `Labels.TrimPadded` | internal/params/varmap.go:29-33 | exactly the space around a name is cut off |
| `VarIndex.LookupsAreInverse` | internal/params/varmap.go:21-33 | on a board of at most 65536 variables any text is found as variable i if and only if, in any case and with any white space around it, it is the name of variable i; the name of index i is found as i, and beyond the last index nothing is |
| `Registry.Table.constructor` | internal/params/registry.go:102-112 | the table built block by block lists the board's parameters in order and indexes them by key |
| `Registry.Table.LookupKey` | internal/params/registry.go:121-124 | a key is found if and only if a parameter has it, and then with a parameter that has it |
| `Registry.KeyMapMeans` | internal/params/registry.go:105-109 | the key index holds exactly the keys of the parameters registered so far |
| `RegistryFacts.KeysUnique` | internal/params/registry.go:194-432 | on a board whose counts fit the block spacing no two parameters have the same (index, sub) |
| `BoardKeys.KeysExactly` | internal/params/registry.go:194-432 | such a board has a parameter for exactly the indices and subindices of its blocks, given in closed form |
| `RegistryFacts.GoodDefaultEncodes` | internal/params/encode.go:20-118 | a default encodes if and only if it lies within its type's width and its own range |
| `WireValues.EncodesUnsigned` | internal/params/encode.go:32-44 | a value is encoded as raw if and only if it stands for the number raw, within 8, 16 or 32 bits and the range |
| `WireValues.EncodesSigned` | internal/params/encode.go:46-57 | a signed one if and only if it stands for the 32-bit two's-complement number raw, within -128 to 127 and the range |
| `WireValues.EncodesBool` | internal/params/encode.go:22-30 | a boolean is 1 or 0 |
| `WireValues.EncodesFloat` | internal/params/encode.go:59-67 | a float is the bits of the number it stands for, if that is in range |
| `WireValues.EncodesEnum` | internal/params/encode.go:69-91 | an enumerator's name is its number, a number is itself within 8 bits, both within the range |
| `WireValues.EncodesVariable` | internal/params/encode.go:93-107 | a variable's name is its index, a number is itself if it is an index |
| `WireValues.ReadBack` | internal/params/encode.go:125-147 | a value that was encoded and is decoded again encodes as the same, of every kind but floats; of a float exactly if the number decoded is in range and has the same bits |
| `BoardDocuments.BoardReadBack` | internal/params/encode.go:125-147 | the same with a board's own variables and their names |
| `BoardDocuments.SaidIsWritten` | internal/pdmcfg/pdmcfg.go:316-334 | every parameter written for a document with room for its arrays carries the encoding of what the document says under its key, or of the default where it says nothing; an array or object where a value belongs is never written |
| `BoardDocuments.UnpairedOutputs` | internal/params/registry.go:225-229 | in every full list every primary output that is not supplied, -1 by default, is written as 0xFFFFFFFF |
| `RegistryFacts.DefaultsGood` | internal/params/registry.go:194-432 | every default of a board lies within its range if and only if there are at most 30 wiper delays |
| `RegistryFacts.LateDelay` | internal/params/registry.go:194-432 | the default of the thirty-first wiper delay is refused |
| `BoardDocuments.EmptyDocument` | internal/pdmcfg/pdmcfg.go:304-343 | on any board the empty document names no unknown parameter, and its full list encodes if and only if a wiper, if there is one, has at most 30 delays |
| `BoardDocuments.References` | internal/params/encode.go:92-108 | a parameter that refers to a variable takes as text exactly the names of the board's variables, in any case and with any space around them, and as numbers exactly their indices; a variable's name and its index encode the same |
| `Documents.Collector.Collect` | internal/pdmcfg/pdmcfg.go:203-304 | the loops collect exactly what the document supplies, later values replacing earlier ones under the same key, and fail exactly for a document with an array or object where none is expected, or none where one is |
| `DocumentFacts.SuppliedIsSaid` | internal/pdmcfg/pdmcfg.go:203-304 | if no array of objects is longer than the room for it, collecting in order gives for every key what a direct look-up of the document by index and subindex gives, and nothing else |
| `DocumentFacts.FieldKept` | internal/pdmcfg/pdmcfg.go:213-226 | then every field of every object of a group is collected under its own key, none replaced by another |
| `DocumentFacts.ButtonKept` | internal/pdmcfg/pdmcfg.go:277-292 | the same of every field and array element of every button whose arrays have at most four elements |
| `DocumentFacts.WiperKept` | internal/pdmcfg/pdmcfg.go:228-243 | the same of a wiper with at most 8 speeds and 236 delays |
| `DocumentFacts.StarterKept` | internal/pdmcfg/pdmcfg.go:245-258 | the same of a starter with at most 254 outputs |
| `DocumentFacts.GroupsApart` | internal/pdmcfg/pdmcfg.go:48-83 | the blocks of the document's groups do not overlap and lie clear of everything else |
| `DocumentFacts.GroupsTight` | internal/pdmcfg/pdmcfg.go:48-83 | in each group's table every field has a subindex of its own |
| `DocumentFacts.SinglesTight` | internal/pdmcfg/pdmcfg.go:85-89 | the same of the device, and of wiper and starter with room for 8 speeds, 236 delays and 254 outputs |
| `DocumentFacts.ButtonsTight` | internal/pdmcfg/pdmcfg.go:91-103 | the same of keypads, dials, and buttons with room for four elements in each array |
| `DocumentFacts.EntryLost` | internal/pdmcfg/pdmcfg.go:363-380 | a field whose subindex a later array of the same object reaches is replaced by the array's element |
| `DocumentFacts.LateButtonLands` | internal/pdmcfg/pdmcfg.go:260-304 | the 33rd button of a keypad is collected as the first button of the next keypad |
| `BoardDocuments.KnownExactly` | internal/pdmcfg/pdmcfg.go:306-314 | values by key are accepted if and only if every key is one of the board's |
| `BoardDocuments.AcceptedExactly` | internal/pdmcfg/pdmcfg.go:306-314 | a document with room for its arrays is accepted if and only if it says nothing for an index and subindex that the board does not have |
| `BoardDocuments.ExtraObjectRefused` | internal/pdmcfg/pdmcfg.go:306-314 | such a document is refused if it says anything in more objects of a group than the board has |
| `BoardDocuments.ExtraButtonAccepted` | internal/pdmcfg/pdmcfg.go:306-314 | on every board with two keypads a document with 33 buttons on the first one is accepted |
| `BoardDocuments.ProjectValues` | internal/pdmcfg/pdmcfg.go:306-343 | on a board whose counts fit, with its own tables of parameters and variable names: which values by key are refused, and otherwise one parameter for each key of the table (each key supplied in partial mode), strictly increasing, with the supplied value if present and else the default; in full mode every primary output not supplied is written as 0xFFFFFFFF |
| `BoardDocuments.ProjectDocument` | internal/pdmcfg/pdmcfg.go:199-343 | the same of a document, with what it supplies; a document of the wrong shape is refused, and no other |
| `Projection.Project` | internal/pdmcfg/pdmcfg.go:306-343 | a document naming an unknown key is refused, one with a value that does not encode fails, any other gives exactly the emitted parameters, with the values that the rows of `WireValues` give |
| `Projection.Emit` | internal/pdmcfg/pdmcfg.go:316-334 | the loop over the table emits exactly the parameters to be written with their encoded values, or fails on one that does not encode |
| `Projection.KeysWritten` | internal/pdmcfg/pdmcfg.go:306-334 | a full projection writes every key of the table, a partial one exactly the document's keys |

## Left out

- JSON parsing, board names and aliases: documents are trees of fields, arrays and scalars.
- Value policies other than the firmware defaults (`DEFAULT_POLICIES`), and the expansion of short slot lists: configurations start with full-length lists of explicit slots.
- IEEE-754 rounding: values, factors and offsets are reals, so a CAN signal whose scaled value is rounded by a double is not represented.
- Blocks the simulator itself refuses or pins at zero: analogue inputs, output current and faults, PWM, wipers, starter disable, keypads; their variables exist and are never written.
- What is not in the model of the device's faults: a wrong checksum or a wrong count reported on purpose (`corruptCRC`, `miscount`); swallowed commands are lost frames of the queue.
- Single-parameter calls (`SetParam`, `ReadParam`), `Burn`, `Version`, `Bootloader`: replies are matched by command only, so with replies in flight nothing strong holds of them; the device's side of these commands is modelled.
- Serial ports, goroutines and real time: the clock advances when a receive waits and when the client sleeps, as the test clock does.
- Reading text as a number or a boolean, enumerator names, and the bit pattern of a float are parameters of the model (`BoardDocuments.Readers`, `WireValues.Names`).
- WireValues.ReadBack: takes the enumerators' names as belonging together with their numbers; the enumerator tables are not part of this model.
- FrameLengths.MotorolaLength: speaks of the length a frame announces; the simulator sends all eight bytes of the payload beside it.
- Display names of parameters and lookup by name in the registry: a parameter is identified by its key.
- Projection.Insert: stands for the library sort; inserting one by one leaves the same list because the keys differ.
- RegistryFacts.DefaultsGood: speaks of the table's defaults on every board; the boards that exist have at most six wiper delays.
- Link.Port.Recv: carries decoded messages in its queues; that a message survives its bytes and its line of text is `Messages.DecodeFrame` and `Slcan.ThroughTheStack`.
- Client.Client.WriteAll: a write that reports an error may still have been committed; the contract says when it must succeed, not what the device holds after an error.
- OrderMatters.InvisibleExactly: speaks of all configurations of a board at once; on one configuration a renumbering that breaks the read order may still happen not to show.
- VarMap.VarTable.VarIndex: letters outside ASCII whose lower case lies outside ASCII too stay as they are; no variable's name has one, so no look-up depends on it.
- BoardDocuments.ProjectDocument: takes the board as given; choosing the device by its base id and the board by `pdmType` or by its outputs is not modelled.
- ReadLimits.CheckedExactly: the questions for the checksum at the end are neither counted nor timed; one is enough to reach every such list.
- TraceRun.RunTrace: the log carries what is observed, not the labels of the trace, and every cycle is logged.
- Sim.Sim.Step: after an IndexError (a due Motorola frame that runs off its payload) the object's state is not described.
- The transmit part of the simulator is an object of its own (`CanFrames.Transmitter`) that the simulator holds, and the firmware, the host shim and the trace files are not part of this model.
