# Verification of a processing-in-memory simulator

This Dafny project models a cycle-accurate simulator for processing-in-memory and proves properties of
the model. Everything is driven by clock ticks:

* a six-stage CPU pipeline with operand forwarding, multi-cycle memory access, jump flushing, an external
  pause/resume handshake and a priority scoreboard that lets one control signal win each tick;
* a two-stage processing element (PE) that executes instructions queued by the host;
* an engine that lets one of these processors and the host share a DRAM;
* the boot controller that loads descriptor table and program through that DRAM;
* lazily typed local memory, and the simulator on top that broadcasts commands to all engines.

The DRAM itself is an environment. It may refuse any request, complete any outstanding request in any
order at any time, and never answer at all; the only thing it may not do is complete what it has not
accepted.

## How the project is organised

Each component is a function from state to state, close to the code it models, and a class whose methods
update fields in place, with the loops of the original, proved equal to that function. The theorems are
about the functions and about runs: sequences of events (ticks, requests, responses, pauses, refusals) of
any length, in any order. A run is a `Trace` whose neighbouring states are `Linked` by one event.

| component | functions | class | theorems |
|---|---|---|---|
| CPU | `CpuTypes`, `CpuStages`, `Scoreboard`, `CpuPipeline` | `CpuMachine`, `SigResolvers` | `CpuRefinement`, `CpuRuns`, `CpuForwarding`, `CpuPause`, `CpuResponses`, `CpuProgress`, `HeldFetch`, `FetchHang`, `CpuExitStep`, `CpuExit`, `CpuFinish`, `CpuEnding`, `CpuHalt`, `CpuExamples`, `CpuBounds`, `CpuEffects`, `WordBits`, `ScoreboardSound` |
| sequential machine | `Isa`, `FetchMachine` | | |
| PE | `PeTypes`, `PePipeline` | `PeMachine` | `PeRefinement`, `PeResponses`, `PeEffects` |
| memory, AGU, portal, DRAM wrapper | `FlatMemory`, `AguUnits`, `DramPortals`, `DramWrappers` | in the same modules | `TypedMemory`, `HostFormats`, `HostData`, `DramWrappers` |
| boot | `BootFsm` | `BootMachine` | `BootImage`, `BootRuns`, `BootVerdict`, `BootHandover` |
| engine | `EngineSpec` | `EngineMachine` | `EngineExclusive`, `EngineConservation`, `EngineNumbers`, `EngineRuns`, `EngineFairness`, `EngineLiveness`, `EngineWaiting`, `EngineHandshake`, `EngineHandover`, `EngineCpu`, `EngineCommands`, `EngineBoot`, `EngineTurns` |
| simulator | `RequestRouter`, `PeCommands`, `SimSpec` | `SimMachine` | `SimRuns`, `SimQueries`, `SimDelivery`, `SimBroadcast`, `SimRouting` |

The CPU proof drains the pipeline: `CpuDrain.Drain` finishes the instructions in the latches, oldest
first, on registers and memory. What it yields is the state of a sequential machine at the next fetch
point, and `CpuRefinement.TickRefines` shows that a tick either leaves that state alone or advances it by
one instruction. The invariant behind it (`CpuRefinement.Inv`) says which signals can be live and what
each one says about the latches.

There are two sequential machines. `Isa.Step` is the instruction set. `FetchMachine.FetchStep` is the
instruction set as the pipeline fetches for it: the second fetch after an `EqualExit` that is not taken does
not advance the program counter. The pipeline refines the fetching machine in every run in which no fetched
instruction faults, exit tests included, until EX takes an exit or the CPU panics (`CpuRuns.RunFetches`); both
events are characterised exactly (`CpuFinish.TakenExitEnds`, `CpuRuns.PanicsExactly`). As long as no exit test is
fetched the two machines are one, and the pipeline refines the instruction set (`CpuRuns.RunRefines`); for
programs with exit tests `HeldFetch.FollowsExactly` says exactly when they agree, as long as the sequential
machine does not fault.

The theorems about runs of the CPU speak of `CpuRuns.Regular` runs: up to the event in question no tick has
taken an exit or panicked, and no instruction fetched so far faults on the fetching machine (an address the AGU
rejects, an entry of another type, a pointer register never written). What would come later in the program does
not matter, and neither do memory latency, the schedule of pauses and resumes, or the delays. The PE, boot and
simulator theorems and those about requests in the engine have no such restriction. `CpuBounds` holds for every
program, faults included.

What a step computes is said a second time, in numbers, by predicates that use none of the model's own functions:
lane values as residues and products of bits (`CpuEffects.LaneIs`, `PeEffects.LaneIs`), addresses as base plus
offset (`CpuEffects.Reaches`), pointers, words and lanes as the host packs them (`HostFormats`), commands as what an
engine receives and answers (`EngineCommands.AnswerIs`, `SimBroadcast.Receives`). The theorems that join the two
speak of whole runs: what a register holds in the end (`CpuEffects.RunLeaves`, `PeEffects.RunLeavesV`), that stored
data is loaded (`HostData`), that a start command starts the CPU (`EngineBoot.StartStarts`), that a query tells the
truth about every CPU (`SimBroadcast.QueryTells`), and that what has completed is delivered
(`SimDelivery.TakenAfterTick`).

## What the proofs found

* **An untaken exit repeats an instruction.** An `EqualExit` that does not exit asks IF to hold the program
  counter while the instruction is latched anyway, so the second instruction after it is fetched and executed
  twice, unless it is a jump. As long as the sequential machine does not fault, the state stays the sequential
  machine's over any number of fetches if and only if every instruction that is fetched twice is harmless where
  it stands (`HeldFetch.FollowsExactly`): it does not overwrite what it reads, or what it writes gives the same
  result again (`HeldFetch.Harmless`, shown exact by `HeldFetch.TwiceExactly`). If one is not, there is a run of
  the pipeline with another state, or one that is about to fault in the repetition (`HeldFetch.RunBreaks`). A
  repeated load or store makes its DRAM request twice all the same (`HeldFetch.HeldTwice`).
  `CpuExamples.AddRunsTwice` is a program, run from a booted CPU, that adds twice; `CpuExamples.OnlyRepeatFaults`
  is one that only the repetition makes fault.
* **An untaken exit behind two others hangs the CPU.** Each copy of the last test holds the fetch of a further
  copy, so the pipeline fetches it for ever, never finishes, and stands for the same state all the time
  (`FetchHang.HungRun`, `FetchHang.HangIsReached`). Three fetches in a row bring no new instruction if and only if
  the machine hangs (`FetchHang.HangsExactly`). It hangs if and only if the program has led it to one of two
  patterns: three untaken tests in a row, or an untaken test, another instruction and two untaken tests
  (`FetchHang.HangsAtTests`). `CpuExamples.TestsHang` runs a program of either kind from a booted CPU. Without a
  hang each new instruction costs at most sixty ticks that do not wait for DRAM (`FetchHang.RunExecutes`).
* **An untaken exit next to a jump panics.** Two stages write the program counter. A tick of a running CPU
  panics if and only if EX has decided an exit test that is not taken, ID holds a jump, and neither a memory
  access nor a pause holds them back (`CpuRuns.PanicsExactly`). No run gets past a jump right behind an
  untaken exit (`HeldFetch.ClashBlocks`), and with a DRAM that answers there is a run that panics
  (`HeldFetch.ClashPanics`, `CpuExamples.JumpPanics`).
* **A taken exit can lose a store.** Exits have priority over memory blocks. In the tick that takes the exit
  the older instructions survive if and only if AGU is not waiting for a load in MEM
  (`CpuExit.TakenExitKeepsOlder`). With a load, a store of the loaded register and an exit in a row the store
  disappears, from a freshly booted CPU (`CpuExamples.StoreIsLost`). Otherwise, and if no pause is asserted,
  the CPU finishes with the registers and the memory of the sequential machine (`CpuEnding.ProgramEnds`,
  and `CpuEnding.HarmlessEnds` for programs with exit tests that are not taken).
* **An exit skips and delays DRAM requests.** A load or store in MEM commits at once when the exit wins,
  without its DRAM transaction; its memory block stays live. When the exit's signal has left, one such block
  makes its request, for an instruction that has retired, and the CPU finishes with nobody left to take the
  answer. This happens if and only if a load or store was in MEM or left AGU when the exit was taken, whose
  line and direction no live block has (`CpuFinish.TakenExitEnds`); at most one request is made this way, so of
  two accesses one never makes any. `CpuExamples.StoreIsLost` shows this too: its load is requested late.
* **With a pause asserted an exit finishes unacknowledged, or not at all.** If there is such a late request the
  CPU finishes without acknowledging the pause; if there is none it stays frozen, with the exit's bubble in WB,
  acknowledges, and does not finish until it is resumed (`CpuFinish.TakenExitEnds`, `CpuHalt.HaltTick`).
* **A CPU that finishes unacknowledged starves the host.** A finished CPU ignores the pause handshake. An engine
  that waits for a finished CPU is stuck for ever if and only if the CPU finished before it acknowledged
  (`EngineHandover.StuckExactly`, `EngineLiveness.HostStarves`). Whatever a waiting engine's CPU has in flight,
  the host is served after a bounded number of ticks in which the DRAM answers, unless the CPU before that takes
  an exit that leaves a request late (`EngineHandover.ServedExactly`, `EngineCpu.HostGetsDram`); then it is never
  served (`EngineHandover.LostForEver`).
* **An allocation can swallow a request.** A memory request to an address without an engine is lost if
  and only if an allocation takes the address over before the DRAM answers
  (`SimRuns.AllocOk`, `SimRuns.AllocationLosesARequest`).
* **A permission to fetch is used up by an empty queue** (`PeRefinement.FetchIsGated`).
* The RAW signal asks WB to stall, but its target set leaves WB out; the model follows the code.
* `src/cpu/ISA-doc:17` gives the operands of `FatPtrSt` in the opposite order of the decoder and the stages.

## Modelling decisions

* 32-bit and 16-bit lane arithmetic wraps, as in a build without overflow checks; so do the AGU's address
  sums. Request numbers, clock values and delay counters are natural numbers without wrap-around.
* `FatPtrST frd, frs` stores pointer register `frs` at the address in `frd`, as `src/cpu/ID.rs:207` and the
  later stages do; the instruction-set document says the opposite.
* Register numbers of the CPU are three bits wide, those of the PE are 16 and 8 values; the register
  files panic on others.
* A panic is a predicate (`CpuPipeline.Panics`, `PePipeline.Panics`) or the absence of a result (`None`),
  and is proved not to happen, or exactly when; a fatal exit of the boot controller is the state `Aborted`.
* `BTreeMap` and `HashMap` are maps; the order in which a hash map is visited is arbitrary.
* What the foreign DRAM library computes -- global addresses, the bank of an address -- is a function
  parameter of the theorems.
* The signal resolver's menu of state machines is fixed to the six that the CPU registers.
* Engines hold values for processor, portal and DRAM in `EngineMachine.EngineUnit`; these have classes of
  their own.

## Model

| member | source | states |
|---|---|---|
| `CpuRefinement.TickRefines` | src/cpu/pipeline.rs:255-481 | One tick of a running pipeline stands for one step of the fetching machine if IF latches an instruction and for none otherwise, for every memory latency and pause state; it makes at most one DRAM request; every instruction in a latch moves on, retires or stays. Left out are only the tick in which EX takes an exit, the tick that panics, and a tick that fetches an instruction that faults. |
| `CpuRuns.RunRefines` | src/cpu/pipeline.rs:255-481 | Refinement over whole runs in terms of the instruction set: as long as no instruction fetched so far tests for an exit or faults, after any ticks, pauses, resumes and delay changes the drained pipeline is the sequential machine after as many steps as instructions were fetched; fetched = retired + in a latch; the DRAM requests so far are the first accesses of the sequential machine, in order; no tick panics. |
| `CpuRuns.RunFetches` | src/cpu/pipeline.rs:255-481 | The same with exit tests, in terms of the fetching machine, as long as no instruction fetched so far faults, up to the tick in which an exit is taken or the CPU panics. |
| `CpuRuns.CoveredRun` | src/cpu/pipeline.rs:255-481 | As long as no instruction fetched so far faults, ends the program or is a jump right behind an untaken exit, no tick takes an exit or panics and the refinement goes on. |
| `CpuRuns.TraceAccounting` | src/cpu/MEM.rs:283-354 | Every load and store makes exactly one DRAM request: what is missing from the sequential access sequence is one access for each memory instruction in flight that has not submitted. |
| `CpuRuns.EmptyIsArchitectural` | src/cpu/pipeline_util.rs:6-53 | Once nothing is in flight, register file, program counter and memory are those of the sequential machine. |
| `CpuRuns.BootedIsGood` | src/cpu/pipeline.rs:58-98 | A freshly booted CPU meets the invariant and stands for the reset state of the sequential machine, for every program and memory. |
| `CpuRuns.NoPanic` | src/cpu/pipeline_util.rs:10-23 | No tick of a good pipeline without a jump right behind an untaken exit test panics. |
| `CpuRuns.PanicsExactly` | src/cpu/pipeline_util.rs:10-23 | A tick of a running CPU panics if and only if EX has decided an exit test that is not taken, ID holds a jump, no pause is asserted and no memory access holds them back. Pointer registers are always initialised, pointers fit their fields, and no other destination is committed twice. |
| `CpuRuns.OneDestination` | src/cpu/pipeline_util.rs:6-23 | Whatever the scoreboard decides, the collected actions name one architectural destination twice if and only if EX holds and ID writes the program counter, both unmasked and both running. |
| `CpuRuns.PauseKeeps` | src/cpu/pipeline.rs:137-143 | A pause request changes neither the invariant nor the sequential state. |
| `CpuRuns.ResumeKeeps` | src/cpu/pipeline.rs:145-160 | Nor does a resume, with or without a resume delay. |
| `CpuForwarding.AguVRegExact` | src/cpu/pipeline_util.rs:101-136 | The vector operand AGU receives is what the sequential machine reads after all older instructions, or AGU waits because the producer is a load still in MEM. |
| `CpuForwarding.AguFRegExact` | src/cpu/pipeline_util.rs:63-99 | The same for pointer operands, including the forwarding latch and the fall-back to the register file. |
| `CpuForwarding.ExVRegExact` | src/cpu/pipeline_util.rs:150-196 | The operand EX receives is the value of the youngest older producer in EX/AGU, AGU/MEM, MEM/WB or the forwarding latch, else the register file: the sequential value. |
| `CpuForwarding.AguDmaExact` | src/cpu/pipeline_util.rs:138-148 | Store data refreshed in AGU is the sequential value of the stored register. |
| `CpuForwarding.AguExact` | src/cpu/AGU.rs:64-277 | What AGU hands on drains to the same state as the instruction it was given; it asks to wait only for a load in MEM, and never faults on the covered fragment. |
| `CpuForwarding.ExExact` | src/cpu/EX.rs:55-286 | What EX hands on drains to the same state as the instruction it was given; it touches the program counter only for an exit test. |
| `CpuForwarding.TestExact` | src/cpu/EX.rs:224-241 | EX takes an exit if and only if the sequential values of its two registers are equal. |
| `CpuForwarding.DecodeExact` | src/cpu/ID.rs:58-310 | Decoding then finishing the decoded instruction is executing the instruction, although the decoded operand values are stale. |
| `CpuSteps.HoldStep` | src/cpu/MEM.rs:291-297 | While a memory block submits or waits, no latch moves except that WB empties, and the drained state does not change; a submitted request moves from the pending accesses to the log. |
| `CpuSteps.WriteBackStep` | src/cpu/MEM.rs:298-302 | Publishing a completed access commits it once: the drained state is unchanged and MEM is empty of it. |
| `CpuSteps.ReleaseStep` | src/cpu/MEM.rs:303-314 | Releasing lets AGU advance behind the completed access without losing, repeating or committing anything. |
| `CpuSteps.RawStep` | src/cpu/EX.rs:366-399 | A RAW bubble delays the front of the pipeline and keeps the drained state. |
| `CpuSteps.PauseStep` | src/cpu/signal_scoreboard.rs:301-309 | A winning pause changes no register, latch, memory entry or program counter. |
| `CpuSteps.FlowStep` | src/cpu/pipeline.rs:359-472 | In a tick without stall every latch moves on: the state drained up to EX afterwards is the fully drained state before; a jump in ID replaces the fetch, and an untaken exit test keeps the program counter. |
| `CpuSteps.CommitShape` | src/cpu/pipeline.rs:334-357 | Of the collected actions only those of WB, MEM and the program counter can do something on the covered fragment. |
| `CpuArbitration.SubmitAllAdds` | src/cpu/pipeline.rs:262-283 | Submitting the six requests keeps every live signal and adds exactly the signals the latches call for, each with its expected state machine. |
| `CpuDecision.WinnerBlock` | src/cpu/signal_scoreboard.rs:132-142 | On the covered fragment a memory block wins every decision it takes part in. |
| `CpuDecision.WinnerPause` | src/cpu/signal_scoreboard.rs:195-229 | Without a memory block a requested pause wins. |
| `CpuDecision.WinnerRaw` | src/cpu/signal_scoreboard.rs:195-229 | Without block and pause a RAW hazard of EX wins over a jump. |
| `CpuDecision.WinnerJump` | src/cpu/ID.rs:313-360 | Otherwise only a jump is left, and without one no stage is held. |
| `CpuDecision.Survivors` | src/cpu/signal_scoreboard.rs:231-253 | A decision keeps every loser but RAW signals unchanged under its key, and advances or drops the winner. |
| `CpuPause.PauseIsSafe` | src/cpu/pipeline.rs:168-170 | From the moment the CPU reports ready and until it is resumed, in every run without a taken exit, panic or fault: registers, program counter, memory and all latches stay the same, no DRAM request is made and none is outstanding. |
| `CpuPause.AckTiming` | src/cpu/pipeline.rs:200-216 | From a frozen pipeline whose handshake has not started, as PauseIsAcknowledged shows it to be reached: counting the first tick the pause wins as tick 0, readiness comes exactly with tick pause_cycles. |
| `CpuPause.PauseIsAcknowledged` | src/cpu/pipeline.rs:185-220 | From signal_pause to readiness: as long as the CPU is not ready, at most pause_cycles + 8 ticks have passed that did not wait for DRAM; once ready it stays ready, and it is ready only when frozen. |
| `CpuPause.ResumeTiming` | src/cpu/pipeline.rs:145-160 | A resume holds a frozen pipeline for exactly resume_cycles ticks; the tick after them runs without the pause. |
| `CpuPause.PauseIsBounded` | src/cpu/MEM.rs:303-314 | After signal_pause at most two accesses complete and at most two requests are made; apart from waiting for DRAM at most eight ticks pass before the pipeline is frozen. |
| `CpuPause.PausedTick` | src/cpu/pipeline.rs:232-253 | Each tick of a paused pipeline that still has accesses either waits for a missing response or strictly lowers an explicit rank. |
| `CpuPause.FrozenTick` | src/cpu/pipeline.rs:137-143 | A frozen pipeline does nothing at all in a tick except count the handshake. |
| `CpuPause.PauseMasks` | src/cpu/pipeline.rs:232-253 | A requested pause turns the requests of the four younger stages into pauses that do nothing but hold the program counter; an exception and the end of the program still get through. |
| `CpuPause.ResumeClears` | src/cpu/pipeline.rs:145-160 | A resume, at once or when its delay is spent, leaves no signal of the pause and no memory of its having won. |
| `CpuPause.PauseOkAlways` | src/cpu/pipeline.rs:185-220 | In every state of such a run readiness is reported only by a frozen pipeline, which takes no exit. |
| `CpuResponses.OwnResponses` | src/memory/mem_portal.rs:167-182 | Response identity: although responses match on address, direction and origin only, in every run without a taken exit, panic or fault, whatever the DRAM, pauses and host turns do, at most one processor request is in flight, and a response that is taken is the answer to the request of the block that takes it. |
| `CpuResponses.TickFlight` | src/cpu/MEM.rs:319-354 | One tick keeps the request in flight paired with the waiting block. |
| `CpuProgress.ProgressTick` | src/cpu/pipeline.rs:255-481 | A tick of a pipeline that is not paused waits for a response that has not come, or fetches, or strictly lowers an explicit bound on the next fetch. |
| `CpuProgress.RunMoves` | src/cpu/pipeline.rs:255-481 | In every run without a taken exit, panic or fault each fetch, repeated ones included, costs at most twenty ticks that do not wait for DRAM. |
| `CpuProgress.RunExists` | src/cpu/pipeline.rs:255-481 | With a DRAM that answers the pipeline fetches any number of instructions of a program that does not fault, unless before that a tick would take an exit or panic. |
| `HeldFetch.TwiceExactly` | src/cpu/EX.rs:242-260 | Executing an instruction a second time changes nothing but the DRAM requests made if and only if it is harmless, an explicit condition on its operands. |
| `HeldFetch.HeldTwice` | src/cpu/EX.rs:242-260 | After an untaken exit the second instruction behind it, if it is no jump, is fetched at the same place and executed again; the repetition shows if and only if it is not harmless, and repeats its DRAM access in any case. |
| `HeldFetch.FollowsExactly` | src/cpu/EX.rs:242-260 | As long as the sequential machine does not fault, over any number of fetches the fetching machine has its states if and only if every instruction that is fetched twice is harmless where it is. |
| `HeldFetch.RunFollows` | src/cpu/EX.rs:242-260 | Then every run of the pipeline itself, up to a taken exit or a panic, stands for the sequential machine, untaken exits included. |
| `HeldFetch.RunBreaks` | src/cpu/EX.rs:242-260 | Otherwise there is a run of the pipeline that stands for a state the sequential machine does not have at that instruction, or that is about to fetch, a second time, an instruction that faults and on the sequential machine does not. |
| `HeldFetch.ClashBlocks` | src/cpu/pipeline_util.rs:15-20 | No run gets past a jump right behind an exit that is not taken. |
| `HeldFetch.ClashPanics` | src/cpu/pipeline_util.rs:15-20 | With a DRAM that answers there is a run of such a program that panics. |
| `FetchHang.HungForEver` | src/cpu/EX.rs:242-260 | An untaken exit test fetched behind two others is fetched for ever: the fetching machine never changes again, while the sequential machine moves on behind the test. |
| `FetchHang.HangsExactly` | src/cpu/EX.rs:242-260 | Three fetches in succession bring no new instruction if and only if the machine hangs so. |
| `FetchHang.FetchesAreFew` | src/cpu/EX.rs:242-260 | Without a hang at least every third fetch is a new instruction. |
| `FetchHang.HangsAtTests` | src/cpu/EX.rs:242-260 | In terms of the program text: unless a jump sits right behind an untaken test, the machine hangs if and only if it came, with nothing left of earlier tests, to three untaken tests in a row, or to an untaken test, another instruction and two untaken tests. |
| `FetchHang.HungRun` | src/cpu/EX.rs:242-260 | Every run of the pipeline of such a program, whatever the memory latencies and pauses: no tick panics, the CPU never finishes, and what it stands for stops changing. |
| `FetchHang.HangIsReached` | src/cpu/EX.rs:242-260 | With a DRAM that answers it gets there and goes on fetching the test any number of times. |
| `FetchHang.RunExecutes` | src/cpu/pipeline.rs:255-481 | Without a hang each new instruction costs at most sixty ticks that do not wait for DRAM. |
| `CpuExit.TakenExitKeepsOlder` | src/cpu/signal_scoreboard.rs:132-142 | The tick that takes an exit, whatever other signals are live: no request is made, the younger instructions are squashed, no older instruction is lost if and only if AGU is not waiting for a load in MEM, and what is kept drains to the sequential state. |
| `CpuExit.TakenExitDrains` | src/cpu/EX.rs:301-336 | Three ticks after the exit was taken registers and memory are what was kept, only the bubble of the exit is left, and the memory blocks of the accesses in MEM and AGU are still live. |
| `CpuFinish.TakenExitEnds` | src/cpu/pipeline.rs:474-480 | Without a pause the CPU has finished after the fourth or fifth tick; one DRAM request comes late if and only if a load or store was in MEM or left AGU when the exit was taken, with a line and direction no live block has; with a pause asserted the CPU finishes only then, without acknowledging a pause whose countdown had not begun. |
| `CpuEnding.PromptAlways` | src/cpu/EX.rs:224-286 | In every run an exit is taken the moment its operands are there: no memory block is then live but one whose access has completed. |
| `CpuEnding.RunEnds` | src/cpu/pipeline.rs:474-480 | In any run, five ticks after EX takes an exit the CPU has finished with the registers and memory of the fetching machine at that exit, if AGU was not waiting for a load. |
| `CpuEnding.EndingRun` | src/cpu/pipeline.rs:255-481 | A program that ends with its first exit test runs to that exit without a panic, and at most two instructions behind it are fetched. |
| `CpuEnding.ProgramEnds` | src/cpu/pipeline.rs:474-480 | From start to end in terms of the instruction set: in any run of a program that ends with its first exit test the CPU finishes with the registers and memory of the sequential machine, if AGU was not waiting for a load in MEM. |
| `CpuEnding.HarmlessEnds` | src/cpu/pipeline.rs:474-480 | The same from any run that comes to a taken exit, through exit tests that are not taken, if every instruction fetched twice is harmless. |
| `CpuEnding.EndIsReached` | src/cpu/pipeline.rs:255-481 | With a DRAM that answers such a program does reach its end. |
| `CpuExamples.AddRunsTwice` | src/cpu/EX.rs:242-260 | From a booted CPU: load, untaken exit, NOP, add -- the addition is executed twice and the result differs from that of the sequential machine. |
| `CpuExamples.OnlyRepeatFaults` | src/cpu/EX.rs:242-260 | From a booted CPU: load, untaken exit, NOP, pointer addition -- the sequential machine runs on, the pipeline is about to fault because the addition is repeated. |
| `CpuExamples.TestsHang` | src/cpu/EX.rs:242-260 | From a booted CPU: load and three untaken exits, or load, untaken exit, NOP and two untaken exits -- the sequential machine goes on behind the last test, in no run does the pipeline, nor does it finish. |
| `CpuExamples.HangIsFetched` | src/cpu/EX.rs:242-260 | With a DRAM that answers those programs fetch their last test any number of times. |
| `CpuExamples.JumpPanics` | src/cpu/pipeline_util.rs:15-20 | From a booted CPU: load, untaken exit, jump -- the CPU panics. |
| `CpuExamples.StoreIsLost` | src/cpu/signal_scoreboard.rs:132-142 | From a booted CPU: load, store of the loaded register, exit -- the CPU finishes without the store, whose place keeps its old contents, and makes the request of the load after it has retired. |
| `CpuHalt.HaltTick` | src/cpu/pipeline.rs:185-220 | A CPU that is asked to pause while an exit drains finishes only if a request is late, and then unacknowledged; otherwise each tick brings the acknowledgement closer. |
| `CpuBounds.TranslationInBank` | src/memory/AGU_unit.rs:129-145 | With a table that passed the boot checks every accepted pointer translates, without wrap-around, below PSEUDO_BANK_ENTRIES. |
| `CpuBounds.CpuStaysInBank` | src/memory/dramsim3_wrapper.rs:104-130 | For every program, exits and faults included, every request a tick of the CPU makes lies below PSEUDO_BANK_CACHELINES; the tick touches nothing of the host in the portal. |
| `ScoreboardSound.DecisionIsSound` | src/cpu/signal_scoreboard.rs:195-260 | A decision applies only the operations of the maximal key, merges and loses no signal, and brings the winner strictly closer to leaving unless it is a pause or waits for a response. |
| `ScoreboardSound.WinCounts` | src/cpu/signal_scoreboard.rs:86-97 | Every state machine except the pause finishes after a bounded number of wins. |
| `ScoreboardSound.WinnerOutranks` | src/cpu/signal_scoreboard.rs:99-142 | The winner of a decision outranks every other live signal: a jump gives way to a RAW hazard, that to a pause, that to a memory access, and all to an exception or an exit; on one rung the stage further back wins. |
| `ScoreboardSound.WinnerSteers` | src/cpu/signal_scoreboard.rs:195-229 | What each kind of winner makes each of the six stages do. |
| `Scoreboard.KeyOrderTransitive` | src/cpu/signal_scoreboard.rs:107-111 | The order of the active map is transitive, so the maximum exists and is unique (`Scoreboard.MaxExists`, `Scoreboard.MaxUnique`). |
| `SigResolvers.KeyForLife` | src/cpu/signal_scoreboard.rs:231-253 | A signal keeps its key until it finishes, so computing all keys anew merges nothing. |
| `SigResolvers.SigResolver.SubmitSignal` | src/cpu/signal_scoreboard.rs:163-193 | The map afterwards is the specified one: a new signal under its key unless one is there. |
| `SigResolvers.SigResolver.LastKey` | src/cpu/signal_scoreboard.rs:205 | The loop finds the key that is last in the order. |
| `SigResolvers.SigResolver.HandleBlocked` | src/cpu/signal_scoreboard.rs:221-225 | Every signal but the winner is told that it lost. |
| `SigResolvers.SigResolver.UpdateActive` | src/cpu/signal_scoreboard.rs:231-253 | Rebuilding the map with fresh keys equals dropping the finished signals. |
| `SigResolvers.SigResolver.GetDecision` | src/cpu/signal_scoreboard.rs:195-260 | Operations, new signals, winner and portal are those of the specified decision. |
| `SigResolvers.SigResolver.ClearActiveSignal` | src/cpu/signal_scoreboard.rs:272-279 | Removes exactly the signals of one kind and forgets such a winner. |
| `CpuMachine.CpuUnit.Tick` | src/cpu/pipeline.rs:255-481 | The imperative tick is the function the refinement is about, for every state in which it does not panic. |
| `CpuMachine.CpuUnit.RunTick` | src/cpu/pipeline.rs:262-481 | The same for the part behind the finished check: evaluation, decision, handshake, commit, latches. |
| `CpuMachine.CpuUnit.ArchUpdate` | src/cpu/pipeline_util.rs:6-53 | The two loops of the commit never hit the duplicate panic and leave the state that applying the actions in order gives. |
| `CpuMachine.CollectedCommit` | src/cpu/pipeline.rs:334-357 | Applying the collected list in order is the specified commit. |
| `CpuMachine.FilteredApply` | src/cpu/pipeline_util.rs:10-23 | Filtering the actions without destination changes nothing. |
| `CpuMachine.MemoryIgnored` | src/cpu/pipeline.rs:265-273 | Claiming a type in MEM is invisible to AGU and EX of the same tick. |
| `CpuMachine.CpuUnit.EvalMem` | src/cpu/MEM.rs:53-247 | MEM as a method that may claim the type of the entry it reads. |
| `CpuMachine.CpuUnit.EvalEx` | src/cpu/EX.rs:55-286 | EX as a method with the lane loops. |
| `CpuMachine.ComputeLanes` | src/cpu/EX.rs:176-180 | The lane loop computes the lane-wise operation, whose lanes `CpuEffects.LaneExact` gives in numbers. |
| `CpuEffects.LaneExact` | src/cpu/EX.rs:104-223 | Every lane of a vector instruction is below 2^32 and congruent to the sum, difference or product of its operands modulo 2^32; for AND each of its 32 bits is the product of the operands' bits. |
| `CpuEffects.LaneUnique` | src/cpu/EX.rs:104-223 | These conditions determine the lane. |
| `CpuEffects.EffectExact` | src/cpu/ISA-doc:4-20 | What every instruction does to registers, memory, access sequence and status, with lanes as numbers, pointers as tag and offset, addresses as base plus offset, and every other register unchanged. |
| `CpuEffects.RunComputes` | src/cpu/pipeline.rs:255-481 | After any run up to a taken exit, panic or fault, once nothing is in flight: registers, memory and requests are the outcome of the effects of the fetched instructions, one after the other. |
| `CpuEffects.RunLeaves` | src/cpu/EX.rs:55-286 | The value a run leaves in a vector register: if no later instruction writes it, each lane is the sum, difference, product or bitwise product of the operands at that point of the sequential execution. |
| `WordBits.AndBit` | src/cpu/EX.rs:178-180 | Bit k of a bitwise and is the product of the operands' bits k, for every k. |
| `CpuMachine.LanesEqual` | src/cpu/EX.rs:236-240 | The comparison loop decides equality of the vectors. |
| `CpuMachine.CpuUnit.SignalResume` | src/cpu/pipeline.rs:145-160 | State after a resume, including the cleared signals. |
| `CpuMachine.RegisterFile.WriteVregs` | src/cpu/RF.rs:30-40 | Writes one vector register; register 0 stays zero. |
| `CpuMachine.RegisterFile.WriteFregs` | src/cpu/RF.rs:56-64 | Writes one pointer register. |
| `PeRefinement.PeRefines` | src/PE/pe_top.rs:116-164 | Refinement for every queue, permission timing, memory latency and host store: registers and memory are those of executing the first retired jobs one after the other, with the host stores where they happened, although ISSUE reads registers before EX commits; completions come in order; requests are the accesses in order. No tick panics. |
| `PeRefinement.QuietPeIsSequential` | src/PE/pe_top.rs:116-164 | With EX empty the state equals the sequential one exactly, claimed types included. |
| `PeRefinement.FetchIsGated` | src/PE/pe_top.rs:91-104 | At most one instruction is fetched for each allow_next; a permission given to an empty queue is lost. |
| `PeRefinement.ExIsExec` | src/PE/EX.rs:56-145 | Committing what EX computes from forwarded operands is the sequential instruction, for mistyped loads and stores too. |
| `PeEffects.EffectExact` | src/PE/EX.rs:56-145 | What every PE instruction does to registers and memory, in numbers: lanes in the range of 16 bits and congruent to sum, difference or product modulo 2^16, ReLU neither negative nor below the lane and one of the two, multiply-accumulate congruent modulo 2^32 to the accumulator plus eight products written out. |
| `PeEffects.LaneExact` | src/PE/ALU.rs:23-37 | Each lane of ADD, SUB and MUL lies in the range of 16 bits and is congruent to a + b, a - b and a * b modulo 2^16. |
| `PeEffects.ReluExact` | src/PE/ALU.rs:46-48 | ReLU is at least 0, at least the lane, and one of the two. |
| `PeEffects.MacExactly` | src/PE/ALU.rs:14-45 | The multiply-accumulate result lies in the range of 32 bits and is congruent modulo 2^32 to acc + a0 * b0 + ... + a7 * b7. |
| `PeEffects.RunLeavesV` | src/PE/ALU.rs:21-51 | The value a run leaves in a vector register is what the last instruction that wrote it computes, in numbers, from the registers of the sequential execution at that point. |
| `PeEffects.RunLeavesS` | src/PE/ALU.rs:38-45 | The same for the scalar registers. |
| `PeEffects.ZeroRegisters` | src/PE/RF.rs:33-58 | Register 0 of either file holds zero in every run. |
| `PeEffects.FinishedTells` | src/PE/pe_top.rs:77-81 | The flag the scheduler asks for tells whether an instruction has retired since it was last read. |
| `PeRefinement.ExForwards` | src/PE/PE_utils.rs:5-39 | What EX forwards afterwards repairs every operand ISSUE read too early. |
| `PeRefinement.WaitTick` | src/PE/EX.rs:243-311 | A memory access waits in EX and submits exactly its own request once. |
| `PeRefinement.RetireTick` | src/PE/pe_top.rs:128-146 | An instruction retires once, when its response has come or at once if it needs none. |
| `PeRefinement.MirrorCommutes` | src/memory/flat_memory.rs:29-38 | A host store commutes with the type claim of a load that is waiting, or makes the claim happen later. |
| `PeTypes.MacIsExact` | src/PE/ALU.rs:14-19 | Multiply-accumulate, wrapped after every addition, is the exact sum truncated once to 32 bits. |
| `PeResponses.OwnResponses` | src/PE/EX.rs:243-311 | Response identity for the PE: in every run at most one of its requests is in flight, and a response that is taken answers the request the memory stop waits for. |
| `PeMachine.PeUnit.Tick` | src/PE/pe_top.rs:116-164 | The imperative tick is the function the refinement is about. |
| `PeMachine.PeUnit.EvalEx` | src/PE/EX.rs:56-145 | EX as a method that may claim the type of the entry it reads. |
| `PeMachine.PeUnit.StopStep` | src/PE/EX.rs:243-311 | The memory stop machine with its portal. |
| `PeMachine.PeUnit.ArchUpdate` | src/PE/pe_top.rs:166-198 | The commit loops; no destination is named twice. |
| `PeMachine.PeUnit.ConsumeFetch` | src/PE/pe_top.rs:99-104 | Uses up the permission, and an instruction if there is one. |
| `PeMachine.PeUnit.TakeCompleted` | src/PE/pe_top.rs:61-63 | Completions leave in order. |
| `PeMachine.PeRegisters.WriteVRF` | src/PE/RF.rs:40-44 | Writes one vector register; register 0 stays zero. |
| `PeMachine.PeRegisters.WriteSRF` | src/PE/RF.rs:53-57 | Writes one scalar register; register 0 stays zero. |
| `TypedMemory.LazyIsEager` | src/memory/flat_memory.rs:29-62 | Over any history of host stores and typed accesses a typed read returns the later of the last accepted typed write and the decoding of the last stored bytes, and is refused exactly when the entry was claimed for another type. |
| `HostFormats.PointerArrives` | src/memory/flat_memory.rs:48-51 | A pointer header the host stores, 2^28 * tag + offset in the low word of an entry, is read by the CPU as exactly that pointer, unless the entry was claimed for another type. |
| `HostFormats.WordsArrive` | src/memory/flat_memory.rs:41-46 | Four words packed into an entry are read by the CPU as those words, unless the entry was claimed for another type. |
| `HostFormats.LanesArrive` | src/memory/flat_memory.rs:53-58 | Eight signed 16-bit lanes packed little-endian are read by the PE as those lanes, unless the entry was claimed for another type. |
| `HostFormats.ScalarArrives` | src/memory/flat_memory.rs:60-62 | A signed 32-bit word likewise. |
| `HostData.PointerIsLoaded` | src/cpu/MEM.rs:319-354 | Over whole runs of the CPU: a pointer header the host has stored before the start is in the register of the pointer load that first touches its entry, once nothing is in flight and no later instruction has written the register. |
| `HostData.LanesAreLoaded` | src/PE/EX.rs:56-145 | Over whole runs of the PE: lanes the host stores at any moment are in the register of a later vector load of the entry, if nothing disturbs it in between. |
| `HostData.ScalarIsLoaded` | src/PE/EX.rs:56-145 | The same for a scalar. |
| `TypedMemory.WriteAccepted` | src/memory/flat_memory.rs:189-200 | A typed write is accepted if and only if the entry is unclaimed or claimed for that type. |
| `TypedMemory.TagIsForLife` | src/memory/flat_memory.rs:165-345 | The type of an entry is fixed by its first typed access for the rest of any history. |
| `TypedMemory.ReadsOnlyClaim` | src/memory/flat_memory.rs:174-187 | A read changes no value any later read of an admitted type returns. |
| `FlatMemory.FlatMem.MirrorHostWrite` | src/memory/flat_memory.rs:135-159 | The loop over the four entries of a cache line. |
| `FlatMemory.FlatMem.MemReadData` | src/memory/flat_memory.rs:174-187 | Typed read that claims an untyped entry; the other seven accessors likewise. |
| `FlatMemory.FlatMem.MemWriteData` | src/memory/flat_memory.rs:189-200 | Typed write that is refused on a type mismatch. |
| `FlatMemory.FlatMem.MemReadFptr` | src/memory/flat_memory.rs:211-226 | Reading a pointer from an entry never stored fails. |
| `FlatMemory.FlatMem.MemReadV` | src/memory/flat_memory.rs:278-291 | The PE vector view. |
| `FlatMemory.FlatMem.MemReadS` | src/memory/flat_memory.rs:314-327 | The PE scalar view. |
| `AguUnits.AguUnit.Insert` | src/memory/AGU_unit.rs:40-59 | The table afterwards; the width checks are preconditions. |
| `DramPortals.TakesOldestAnswer` | src/memory/mem_portal.rs:167-182 | What is taken has the request's address, direction and side, is the oldest response that has, and leaves the others in order; nothing is taken only if no response has. |
| `DramPortals.HostTakesNewest` | src/memory/mem_portal.rs:167-191 | The host takes the newest response first. |
| `DramPortals.FirstMatch` | src/memory/mem_portal.rs:167-182 | The first response in the list that matches. |
| `DramPortals.DramPortal.TakeCompleted` | src/memory/mem_portal.rs:184-186 | Takes the oldest matching response, if any, and leaves the others in order. |
| `DramPortals.DramPortal.GetOneReq` | src/memory/mem_portal.rs:151-157 | Pops the stack of the current mode. |
| `DramPortals.DramPortal.Submit` | src/memory/mem_portal.rs:143-149 | Pushes to the stack of the request's side. |
| `DramPortals.DramPortal.Complete` | src/memory/mem_portal.rs:159-165 | Appends to the response list of the request's side. |
| `DramPortals.DramPortal.TakeHostCompleted` | src/memory/mem_portal.rs:188-190 | Takes the newest host response. |
| `DramPortals.DramPortal.ReqDrainedForMode` | src/memory/mem_portal.rs:136-141 | Whether the stack of a side is empty. |
| `DramWrappers.PopsOldest` | src/memory/dramsim3_wrapper.rs:192-241 | A completion takes the oldest outstanding request of its direction whose address in the whole memory it names, and is a panic exactly if there is none. |
| `DramWrappers.PanicsExactly` | src/memory/dramsim3_wrapper.rs:192-241 | The wrapper panics on a batch of completions if and only if it names a transaction that is not outstanding; otherwise done and left together are what was pending. |
| `DramWrappers.QueueFront` | src/memory/dramsim3_wrapper.rs:184-217 | The front of the queue of an address is the oldest outstanding request to it in that direction. |
| `DramWrappers.DramWrapper.AddTransactionReq` | src/memory/dramsim3_wrapper.rs:326-345 | The two maps of queues keep representing the outstanding requests in order; bound, number and time are demanded. |
| `DramWrappers.DramWrapper.PopOne` | src/memory/dramsim3_wrapper.rs:192-217 | Removes the oldest match and never leaves an empty queue behind. |
| `DramWrappers.DramWrapper.ClockTick` | src/memory/dramsim3_wrapper.rs:219-241 | All completions of a tick, in order. |
| `DramWrappers.DramWrapper.IsDrained` | src/memory/dramsim3_wrapper.rs:311-315 | Both maps are empty exactly when nothing is outstanding. |
| `BootRuns.NeverLoadsEarly` | src/cpu/boot_fsm.rs:76-121 | Under any order of responses and refusals the table and the pointer registers change only when all eight table reads have been issued in order and answered, the instruction memory only when every chunk of the program has; then nothing is left in DRAM or response list. |
| `BootRuns.IssueOrder` | src/cpu/boot_fsm.rs:123-148 | The requests of a phase reach the DRAM in ascending chunk order, however often it refuses: the j-th request reads line (first + j) / 4. |
| `BootRuns.TakeAllBalances` | src/cpu/boot_fsm.rs:150-165 | The swap_remove loop removes, for every address, as many pending requests as it consumes responses, and leaves none that a response could answer. |
| `BootRuns.PhaseEnds` | src/cpu/boot_fsm.rs:150-165 | A phase is complete only if all its requests were issued and answered. |
| `BootRuns.PhaseFinishes` | src/cpu/boot_fsm.rs:150-165 | And a phase whose reads have all been issued and answered does complete. |
| `BootRuns.BootStaysInBank` | src/cpu/boot_fsm.rs:195-217 | Every read of the boot controller lies in the pseudo bank. |
| `BootRuns.InstalledBounded` | src/cpu/boot_fsm.rs:195-217 | Every installed descriptor ends inside the pseudo bank. |
| `BootRuns.BootRoundTrip` | src/cpu/boot_fsm.rs:76-121 | Whatever program the host packed and whatever the DRAM does: boot never aborts, and once finished the instruction memory is the program followed by NOPs, the table holds the host's descriptors, every pointer register is initialised and the portal is empty. |
| `BootRuns.HostPrepares` | src/cpu/ABI.md:24-98 | Storing descriptor table and image through the host mirror into fresh memory gives the memory boot expects. |
| `BootImage.InstRoundTrip` | src/cpu/boot_fsm.rs:253-319 | Decoding inverts encoding for every instruction whose operands fit their fields. |
| `BootImage.DecodesExactly` | src/cpu/boot_fsm.rs:253-319 | A half word is no instruction if and only if its opcode is 13, 14 or 15. |
| `BootImage.ImageStored` | src/memory/flat_memory.rs:135-159 | Storing an image line by line puts every chunk in its entry and touches no other. |
| `BootImage.LowWord` | src/memory/flat_memory.rs:41-46 | Little-endian bytes of a double word decode to its two words. |
| `BootImage.HalvesAre` | src/cpu/boot_fsm.rs:235-247 | Unpacking the chunks yields the half words of the image in order. |
| `BootImage.ImageLoads` | src/cpu/boot_fsm.rs:220-251 | Loading an image gives the program padded with NOPs. |
| `BootVerdict.TableVerdict` | src/cpu/boot_fsm.rs:180-218 | The table is accepted if and only if each of the sixteen buffers ends at or below entry 0x40_0000; otherwise nothing is installed, and if it is, the pointer registers point at the starts of the first eight buffers. |
| `BootVerdict.Verdict` | src/cpu/boot_fsm.rs:76-121 | For every table the host may store and every run: boot goes past the table only if all buffers fit, to the program only if it has at most 512 chunks, and then fails only on the program; with a table that does not fit table, pointers and program stay as they were. |
| `BootVerdict.BuffersReached` | src/memory/AGU_unit.rs:72-145 | With the host's table installed a pointer is accepted if and only if its offset is below the bound of its buffer and then translates to base plus offset without wrap-around; an addition is refused from the bound on, a subtraction below entry 1. |
| `BootVerdict.ProgramFetched` | src/cpu/IF.rs:36-49 | The program as it is fetched: the host's instructions, and NOPs behind them. |
| `BootHandover.BootHandsOver` | src/sim_engine/engine.rs:773-795 | A finished boot hands over a CPU that meets the invariants of the CPU theorems and stands for the reset state of the sequential machine with the host's program, stays in its bank, and finds no stray response. |
| `BootMachine.BootController.Tick` | src/cpu/boot_fsm.rs:76-121 | The imperative controller is the function the boot theorems are about. |
| `BootMachine.BootController.SubmitChunkReads` | src/cpu/boot_fsm.rs:123-148 | Reverse submission fills the stack so that it empties in ascending order; overflow is fatal. |
| `BootMachine.BootController.PhaseComplete` | src/cpu/boot_fsm.rs:150-165 | The loop terminates and computes the specified remainder. |
| `BootMachine.BootController.LoadAguTable` | src/cpu/boot_fsm.rs:180-218 | All descriptors are checked before any is installed. |
| `BootMachine.BootController.CheckTable` | src/cpu/boot_fsm.rs:195-210 | The loop accepts a table if and only if every descriptor is in bounds. |
| `BootMachine.BootController.LoadProgram` | src/cpu/boot_fsm.rs:220-251 | Reads and decodes all chunks; a mistyped chunk or unknown opcode is fatal. |
| `BootMachine.BootController.DecodeWords` | src/cpu/boot_fsm.rs:235-248 | The nested loop decodes every half word or fails. |
| `BootMachine.BootController.SetOn` | src/cpu/boot_fsm.rs:63-70 | Only an idle controller can be armed. |
| `EngineExclusive.TickIsExclusive` | src/sim_engine/engine.rs:303-378 | Mutual exclusion over every tick and every choice of the DRAM: all requests inside the DRAM are of the side it serves, portal and DRAM agree on that side, and it changes only when the DRAM is empty. |
| `EngineExclusive.ScheduleKeeps` | src/sim_engine/engine.rs:393-431 | Every scheduling mode changes sides only when DRAM and the stack of the side it leaves are empty. |
| `EngineExclusive.HostIsExclusive` | src/sim_engine/engine.rs:212-251 | Configuring and the host's calls preserve exclusivity. |
| `EngineProcessors.ProcTick` | src/sim_engine/engine.rs:773-795 | CPU, boot controller and PE only add requests of their own, all in the pseudo bank, and only take responses to processor requests. |
| `EngineConservation.TickConserves` | src/sim_engine/engine.rs:837-868 | A tick neither loses nor duplicates a host request, whatever the DRAM accepts, refuses and completes; the count covers pool, portal, DRAM, responses, commands, PE and completion queue. |
| `EngineConservation.ScheduleMoves` | src/sim_engine/engine.rs:393-598 | Scheduling moves a prefix of the host pool to the portal, and nothing else. |
| `EngineConservation.PeTickCounts` | src/PE/pe_top.rs:116-164 | A PE tick keeps every host request it holds: queued, in EX or completed. |
| `EngineNumbers.TickNumbers` | src/sim_engine/engine.rs:797-812 | Requests are numbered once, when accepted; numbers inside the DRAM are distinct and rise in order of acceptance. |
| `EngineNumbers.OfferIsSound` | src/sim_engine/engine.rs:797-812 | What the wrapper is offered in a tick, the requests the processor makes in that tick included: nothing is numbered yet, and processor requests lie in the pseudo bank. |
| `EngineRuns.EngineIsSound` | src/sim_engine/engine.rs:797-868 | Over whole runs: one side at a time; enqueued = in the engine + delivered for every request; numbers given once. |
| `EngineRuns.WrapperNeverPanics` | src/memory/dramsim3_wrapper.rs:104-241 | Against a DRAM that completes only what it accepted no completion panics; of the requests it is offered in a tick, those the processor makes in that tick included, none is numbered twice and none of the processor is out of bounds. |
| `EngineRuns.AllDelivered` | src/sim_engine/engine.rs:833-835 | A request that is no longer in the engine was delivered as often as it was enqueued. |
| `EngineFairness.ShareIsFair` | src/sim_engine/engine.rs:497-598 | PE and host: at most one request is served at a time; host requests are issued in the order sent; while one side waits at most one request of the other completes before it is served. |
| `EngineFairness.ScheduleFair` | src/sim_engine/engine.rs:527-598 | One scheduling step pays the debt of the side that waited. |
| `EngineFairness.PeFlight` | src/PE/pe_top.rs:116-164 | A permitted instruction is fetched, waits or finishes, and the PE takes no second one meanwhile. |
| `EngineLiveness.HostStarves` | src/cpu/pipeline.rs:258-260 | Once an engine waits for a CPU that has finished it waits for ever, and none of the waiting host requests is issued. |
| `EngineLiveness.BecomesStuck` | src/sim_engine/engine.rs:437-459 | A host request to an engine whose CPU has finished makes it stuck. |
| `EngineWaiting.ServesExactly` | src/sim_engine/engine.rs:303-322 | A waiting engine serves the host next if and only if its CPU has acknowledged, portal and DRAM hold no processor request and the DRAM is idle; otherwise it keeps waiting. |
| `EngineHandshake.HandshakeStarts` | src/sim_engine/engine.rs:436-459 | The tick in which an engine decides for the host, unless its CPU takes an exit, panics or fetches a faulting instruction in it, starts a handshake that takes at most 19 + 2 * pause_cycles ticks in which the DRAM obliges. |
| `EngineHandshake.HandshakeEnds` | src/sim_engine/engine.rs:436-459 | If the CPU takes an exit in that tick, or has taken one that still drains: the engine is stuck if and only if the CPU finishes in that tick, otherwise the CPU is asked to pause while the exit drains, with a request late if and only if the exit left one. |
| `EngineHandshake.ExitedTick` | src/cpu/signal_scoreboard.rs:132-142 | A CPU that takes an exit while its engine waits leaves a request late if and only if a load or store was in MEM or left AGU whose line and direction no live block has. |
| `EngineHandshake.HaltedTick` | src/cpu/pipeline.rs:185-220 | While the exit drains each tick brings the acknowledgement closer, or, if a request is late, the finish without acknowledgement. |
| `EngineHandover.HostIsServed` | src/sim_engine/engine.rs:303-378 | Over whole runs: an engine that waits for a CPU that stands for a running machine, or whose exit has left no request late, or that acknowledged before it finished, serves the host after no more obliging ticks than its rank allows, whatever the host sends meanwhile. |
| `EngineHandover.HandoverDecided` | src/sim_engine/engine.rs:303-378 | The same whatever the CPU has in flight: as long as the host is not served, the CPU has taken an exit that leaves a request late and the host is lost, or the wait is within its bound. |
| `EngineHandover.ServedExactly` | src/sim_engine/engine.rs:303-378 | If the DRAM obliges often enough, the host is served if and only if the CPU does not, before that, take an exit that leaves a request late. |
| `EngineHandover.LostForEver` | src/cpu/pipeline.rs:255-260 | After such an exit the host is never served, none of its waiting requests is issued, and within a bounded number of ticks the engine is stuck. |
| `EngineHandover.StuckExactly` | src/cpu/pipeline.rs:255-260 | An engine that waits for a finished CPU is stuck for ever if and only if the CPU finished before it acknowledged; otherwise it serves the host. |
| `EngineCpu.EngineRefines` | src/sim_engine/engine.rs:773-868 | The CPU theorems hold inside an engine: in every run that shares the DRAM between CPU and host, through any number of changes of side, up to a taken exit, a panic or a fetched fault, the CPU stands for the fetching machine after as many steps as it fetched and at most one of its requests is in flight. |
| `EngineCpu.HostGetsDram` | src/sim_engine/engine.rs:436-495 | From the CPU running to the host being served: after the tick that decides for the host at most 19 + 2 * pause_cycles obliging ticks pass, three more if the CPU takes an exit, or the exit leaves a request late and the host is lost. |
| `EngineLiveness.FinishedIgnoresPause` | src/cpu/pipeline.rs:255-260 | A finished CPU never answers a pause. |
| `EngineCommands.TickAnswers` | src/sim_engine/engine.rs:739-831 | One tick answers all queued commands in order: a start comes back as it was sent, a query with 1 in its first word if and only if the CPU has finished and otherwise unchanged; no command is left, and nothing that has completed is held back from the host. |
| `EngineCommands.TickArms` | src/sim_engine/engine.rs:747-760 | A start to an idle engine arms the boot controller in that tick unless the engine is reserved for the host; nothing else does. |
| `EngineCommands.BootStandsStill` | src/sim_engine/engine.rs:783-795 | While the host is served or the sides change, a CPU that has not started and its boot controller stand still, but for being armed. |
| `EngineCommands.ConfiguredOnce` | src/sim_engine/engine.rs:212-251 | A scheduling mode is accepted once and exactly if it fits the processor; a refusal changes nothing. |
| `EngineCommands.HandsInOrder` | src/sim_engine/engine.rs:814-831 | Commands and PE instructions reach the host in order, then memory responses, newest first. |
| `EngineCommands.DeliveredInOrder` | src/sim_engine/engine.rs:833-835 | Over whole runs what the engine has handed out and holds ready only grows at the end. |
| `EngineCommands.CommandReturns` | src/sim_engine/engine.rs:739-835 | A command of the host comes back: the first tick after it answers it truthfully, and as many deliveries as there are completions hand the answer out. |
| `EngineBoot.RunBoots` | src/sim_engine/engine.rs:773-795 | The boot theorems hold inside an engine: until its CPU has started every run of the engine, whatever the host sends and however the DRAM is shared, is a run of the boot controller. |
| `EngineBoot.RankTick` | src/sim_engine/engine.rs:773-795 | Every tick of an engine whose controller is armed brings the start closer if the DRAM serves it, and never moves it away. |
| `EngineBoot.StartStarts` | src/sim_engine/engine.rs:739-795 | A start command starts the CPU: once the DRAM has served the processor in 13 ticks and one for every chunk of the program, the CPU has started at its reset state with the host's program, buffers and data, meeting the invariants of the CPU theorems, with nothing of the controller left in flight. |
| `EngineBoot.UnstartedIsReady` | src/sim_engine/engine.rs:303-315 | A CPU that has not started never keeps the host waiting: it is ready to be paused. |
| `EngineBoot.OnlyStartsStart` | src/sim_engine/engine.rs:747-753 | Nothing but a start command starts a CPU, and in an engine reserved for the host none does. |
| `EngineBoot.LoadsKeepData` | src/cpu/boot_fsm.rs:180-251 | Boot leaves every entry outside table and program as the host stored it. |
| `EngineTurns.ChangeTakes` | src/sim_engine/engine.rs:303-378 | How long a change of sides takes, over whole runs: nobody is served for exactly pause_cycles or resume_cycles ticks of a PE, none of a CPU; after them the other side is served in the first tick that finds the served side done, and in no earlier one. |
| `EngineTurns.DelaysAreLast` | src/sim_engine/engine.rs:269-276 | The delays in force are the ones set last. |
| `EngineTurns.ClockTells` | src/sim_engine/engine.rs:865-868 | The engine's clock tells the ticks. |
| `EngineTurns.TurnsTaken` | src/sim_engine/engine.rs:436-495 | Over whole runs of CPU and host: the CPU's turn ends in a tick if and only if a host request waits and, once the host has had a turn, the CPU's turn has lasted a tick; the host's turn is one tick in which its oldest request goes to the portal. |
| `EngineMachine.EngineUnit.DoTick` | src/sim_engine/engine.rs:837-868 | The imperative tick is the function the engine theorems are about. |
| `EngineMachine.EngineUnit.Switch` | src/sim_engine/engine.rs:328-378 | The automaton PIM, delay, HOST, delay. |
| `EngineMachine.EngineUnit.TakeBatch` | src/sim_engine/engine.rs:467-475 | The batch loop takes a prefix of the pool, up to one request beyond the watermark. |
| `EngineMachine.EngineUnit.SubmitReversed` | src/sim_engine/engine.rs:476-478 | Submitting a batch in reverse to a stack. |
| `EngineMachine.EngineUnit.ScheduleHostCgoShare` | src/sim_engine/engine.rs:436-495 | Batch scheduling of CPU and host. |
| `EngineMachine.EngineUnit.ScheduleHostFgoShare` | src/sim_engine/engine.rs:567-598 | Request scheduling of PE and host. |
| `EngineMachine.EngineUnit.DrainCurrentPortToDram` | src/sim_engine/engine.rs:797-812 | The drain loop stops at the first refusal and puts that request back. |
| `EngineMachine.EngineUnit.DrainHostCompletions` | src/sim_engine/engine.rs:814-831 | Commands, then PE jobs, then responses reach the completion queue. |
| `EngineMachine.EngineUnit.ProcessCgoCmds` | src/sim_engine/engine.rs:739-771 | Every queued command is answered in order. |
| `EngineMachine.EngineUnit.SetSchedulingMode` | src/sim_engine/engine.rs:212-251 | The mode is accepted once and only if it fits the processor. |
| `SimRuns.SimIsSound` | src/sim_engine/sim.rs:414-528 | Over whole runs and any order of visiting engines: the counter of every broadcast command is the number of engine copies not yet collected, and every request sent is on its way back, taken, or lost to an allocation, exactly as often as it was sent. |
| `SimRuns.CounterIsExact` | src/sim_engine/sim.rs:454-459 | A command is pending exactly while copies of it are out, and its counter is their number. |
| `SimRuns.CompletesOnce` | src/sim_engine/sim.rs:632-646 | No request completes more often than it was sent; one that is no longer on its way was taken if and only if no allocation took its address. |
| `SimRuns.SimNeverPanics` | src/sim_engine/sim.rs:502-523 | Every completed copy finds its pending command with copies outstanding. |
| `SimRuns.AllocOk` | src/sim_engine/sim.rs:387-412 | An allocation costs exactly the outstanding requests of the plain DRAM whose address it takes over. |
| `SimRuns.AllocationLosesARequest` | src/sim_engine/sim.rs:661-667 | A concrete request that is lost this way. |
| `SimRuns.CommandOk` | src/sim_engine/sim.rs:414-460 | Broadcasting a command creates exactly one copy for each compatible engine and one pending entry. |
| `SimRuns.MemoryOk` | src/sim_engine/sim.rs:586-612 | A memory request is answered by the owner of its address or by the plain DRAM, never by both. |
| `SimRuns.TickOk` | src/sim_engine/sim.rs:648-671 | A tick panics nowhere, keeps every counter exact and loses no request. |
| `SimQueries.QueryIsConjunction` | src/sim_engine/sim.rs:509-513 | An answered query has one answer of every engine it went to and says yes if and only if all of them did. |
| `SimTotals.TotalGain` | src/sim_engine/sim.rs:427-443 | Sending one copy to each engine of a set adds the size of the set to the copies that are out. |
| `SimDelivery.TakesInOrder` | src/sim_engine/sim.rs:632-646 | Between two ticks every take hands out the next of what is ready: newest at-once completion first, then the plain DRAM's, then the engines'. |
| `SimDelivery.TickDelivers` | src/sim_engine/sim.rs:648-671 | A tick leaves nothing that has completed where the host could not take it: what completed at once is ready, and no engine keeps a completion. |
| `SimDelivery.TakenAfterTick` | src/sim_engine/sim.rs:614-646 | Delivery over whole runs: a request that completes at once is taken after the next tick and as many takes as requests are ready, numbered, stamped and otherwise as sent, but for the number of engines an allocation reports. |
| `SimDelivery.ClockAndNumbers` | src/sim_engine/sim.rs:586-618 | In every run the clock tells the ticks and the next number the requests sent. |
| `SimBroadcast.CommandReaches` | src/sim_engine/sim.rs:414-460 | A well-formed command reaches exactly the engines it is for: a start or query the command queue of every CPU's engine, an instruction the queue of every PE; the simulator waits for as many answers. |
| `SimBroadcast.StartReachesAll` | src/sim_engine/sim.rs:414-460 | Over whole runs the first tick after a start command arms the boot controller of every idle CPU. |
| `SimBroadcast.QueryTells` | src/sim_engine/sim.rs:472-526 | Over whole runs the first tick behind a query completes it, and its answer is yes if and only if the CPU of every engine it went to has finished. |
| `SimRouting.RequestIs` | src/sim_engine/sim.rs:349-356 | The request made of a host access: its address and payload, a read unless it writes, the host's, without number and time. |
| `SimRouting.MemoryGoes` | src/sim_engine/sim.rs:586-612 | A memory request goes to the plain DRAM, numbered, and to the engine that owns its address, behind those that wait there; nowhere if and only if that engine serves its processor only. |
| `SimRouting.AllocationCreates` | src/sim_engine/sim.rs:387-412 | An allocation creates the granted engines that do not exist, idle and of the kind asked for, and changes no other. |
| `RequestRouter.KindsAre` | src/sim_engine/request_router.rs:19-72 | The addresses of the commands: ten slots of 64 bytes for PE instructions from 0xfffe_f000, then start, query and the two allocations. |
| `PeCommands.CommandRoundTrip` | src/sim_engine/request_router.rs:58-128 | Every PE instruction the host packs into slot and operand word decodes to itself. |
| `PeCommands.DecodesExactly` | src/sim_engine/request_router.rs:58-128 | A PE command does not decode to an instruction of the register files if and only if it names a scalar register above 7. |
| `SimMachine.SimUnit.EnqueueWithData` | src/sim_engine/sim.rs:349-385 | The imperative routing is the specified one. |
| `SimMachine.SimUnit.EnqueuePimCmd` | src/sim_engine/sim.rs:414-460 | The fan-out loop copies to every compatible engine and counts the copies. |
| `SimMachine.SimUnit.EnqueueSimControlCmd` | src/sim_engine/sim.rs:387-412 | Creates the granted engines that do not exist. |
| `SimMachine.SimUnit.EnqueueRegularMemory` | src/sim_engine/sim.rs:586-612 | Routes to the owner and always to the plain DRAM. |
| `SimMachine.SimUnit.CollectCompletion` | src/sim_engine/sim.rs:472-526 | Merges one completed copy into its command. |
| `SimMachine.SimUnit.CollectEngine` | src/sim_engine/sim.rs:472-526 | The loop empties the completion queue of one engine. |
| `SimMachine.SimUnit.DoTick` | src/sim_engine/sim.rs:648-671 | The imperative tick is the function the theorems are about. |
| `SimMachine.SimUnit.TakeComplete` | src/sim_engine/sim.rs:632-646 | The order in which completions are handed out. |

## Left out

- DRAM timing and the foreign library bridge: replaced by the environment described above.
- The C interface, error texts, statistics, prints, validation probes and the timing harness: observation only.
- The thread pool of the simulator: a tick ticks every engine once; engines share no state.
- Programs that fault, and the drain machine behind AGU and WB exceptions: the code does not follow the sequential meaning there.
- Acknowledging a pause after the CPU has finished: it does not happen (`EngineLiveness`).
- Issue order of a batch in HostOnly mode when the DRAM refuses part of it: new requests are pushed above the leftovers, so no order is claimed there.
- The engine's forwarding of host stores to flat memory and the flag that turns it off: host stores are events of the PE and memory models and the content of the boot image, not part of `EngineSpec`.
- The enumeration of banks by the allocator: a table lookup that would only add easy members; what is granted is a parameter.
- The decoding of PE commands inside the simulator's runs: there it is a function of address and payload that the theorems leave open; `PeCommands` is that function.
- Host mode of the simulator: no code path selects it after construction.
- Validation of the PIM region and of the physical address mapping: depends on the foreign library.
- Wrap-around of 64-bit request numbers and clocks.
- RunTick: excludes the panics named by `CpuPipeline.Panics`; that good pipelines never meet them is `CpuRuns.NoPanic`.
- EngineUnit: aliasing between engine, processor and portal objects is not modelled; the fields hold values.
