# The Micral N emulator, verified

This project models the emulator of the Micral N, a computer built around the Intel 8008, and proves
what its parts do together.

**The processor.** `Microcode` is the instruction and decoding tables, `CpuCore` the registers and the
work of each T-state, `AddressStack` the circular stack of program counters. `Machine` puts the processor
on its bus, one T-state a step. `Isa` is written independently of all that: one equation an
instruction, after the Intel MCS-8 user's manual. `Cycles`, `Effects`, `Instructions`, `Completion` and
`Refinement` prove that each instruction, from one boundary to the next, does its equation in the number
of states of the manual. `Runs` makes it a statement about every run, with any READY pattern, any
interrupts and any jammed opcodes; `Interrupts` follows a service routine to its return, and `InputFlags`
the flags to the data pins in an input. `Cpu8008` is the processor object itself, its arrays and its
methods, against those functions.

**Time.** `CpuTiming` is the event queue of the processor. `Timed` runs it with the two-phase clock, the
processor card and the address register in the order of their activation times, and shows that each
4000 ns make one step of `Machine`. `ProcessorCards` holds the objects around the processor, and
`Emulation` joins both ends: a run in time is a run of instructions. `Scheduler` is the scheduler, which
keeps only a prefix of its pool sorted; what `Timed` takes from it is that the earliest activation comes
first.

**The bus and the cards.** `Wires` is ownership of a wire. `MdBus` and `MdArbitration` are the data bus
shared by any number of cards and the console, `Addressing` the selection of the cards, `MemoryCards` a
memory card with its masked first page, `InterruptControl` and `Handshake` the interrupt controller and
its protocol, `DiskChannel` the transfer from the disk controller to the stack channel card.
`VirtualDisks` is the disk image. `Disassembly` is the disassembler's sweep, and `ProgramAdvance` compares
its sizes with what the processor does.

**Together.** `Coherence` runs `Timed` with a memory card that masks its first page, and `Boot` follows the
program from the masked ROM into the RAM behind it. `ServedInterrupts` and `InterruptedRuns` run `Timed`
with the interrupt controller, from the request to the restart.

A failed assertion of the source is a flag that stays set and stops the machine; an exception is a
missing result or a `thrown` result. Program counters are compared modulo 2^14, since the slots of the
stack keep bits 14 and 15 of a jump target. Flags are zero or not zero: the sign is stored as 0x80.

Where the code and what it says differ, the model follows the code. `execute_t5` compares a register
number with decimal 111 and not with binary 111 (src/devices/src/CPU8008.cpp:704 and 717); the model
refuses index 7 there, where the array has no element, and no defined opcode reaches it. HLT reaches the
STOPPED state after three states, so its equation counts four. An input sends the four flags out in T4 with
zero, parity and carry shifted to the pins 1 to 3 and the sign not shifted (src/devices/src/CPU8008.cpp:651),
although the sign is kept as 0x80: it comes out on pin 7. InputFlags.InputShowsFlags says when that matters.

## Model

| member | source | states |
|---|---|---|
| Microcode.DecodeInstruction | src/i8008/src/Instructions8008.cpp:7-46 | the loop over the decoding table gives the name of the first row whose masks match, with the operand digits, or UNKNOWN |
| Microcode.FirstMatchAt | src/i8008/src/Instructions8008.cpp:190-230 | a row that matches decides when no earlier one does: the order of the table matters |
| Decoding.DecodeMeaning | src/i8008/src/Instructions8008.cpp:190-230 | for all 256 opcodes the table decodes what the opcode map of the instruction set says, with the digits of the opcode as operands |
| Decoding.UndefinedOpcodes | src/i8008/src/Instructions8008.cpp:54-230 | the undefined opcodes are exactly 0x22, 0x2A, 0x32, 0x3A, 0x38 and 0x39 |
| Refinement.InstructionRefines | src/devices/src/CPU8008.cpp:292-395 | started at any instruction boundary, a defined instruction takes the number of states of the processor manual, stays inside the instruction until the last one, and leaves the registers, flags, program counters, memory and I/O of one step of the instruction set |
| Refinement.UndefinedFaults | src/devices/src/CPU8008.cpp:553-569 | an undefined opcode fails the assertion of its first T3 |
| Completion.TransferCompletes | src/devices/src/CPU8008.cpp:620-643 | a jump or call whose condition holds reads its two operand bytes and takes eleven states |
| Completion.NoTransferCompletes | src/devices/src/CPU8008.cpp:601-618 | one whose condition does not hold ends in T3 of the third cycle, past both operand bytes, after nine states |
| Completion.ReturnCompletes | src/devices/src/CPU8008.cpp:644-646 | a return whose condition holds goes back one program counter in five states |
| Completion.NoReturnCompletes | src/devices/src/CPU8008.cpp:601-618 | one whose condition does not hold ends in T3 after three states |
| Completion.StoreProgramCompletes | src/i8008/src/Instructions8008.cpp:54-181 | a store of an immediate byte: a fetch, a read at the program counter, a write at HL, nine states |
| Completion.InputCompletes | src/devices/src/CPU8008.cpp:647-656 | an input shows the accumulator and the opcode as address, and A takes the answer of the device |
| Effects.AluEffect | src/devices/src/CPU8008.cpp:720-802 | the eight arithmetic and logic operations give the accumulator and the four flags of the instruction set |
| Effects.RotateEffect | src/devices/src/CPU8008.cpp:804-843 | the four rotations give the accumulator and the carry of the instruction set; the other flags stay |
| Bytes.BitsOfOperators | src/devices/src/CPU8008.cpp:773-796 | each bit of and, or and exclusive or, with the bits of the operands taken by division |
| Bytes.OnesAreBits | src/devices/src/CPU8008.cpp:869-876 | the ones counted in a byte are its eight bits, each taken by division |
| Effects.FlagsOfResult | src/devices/src/CPU8008.cpp:863-877 | the flags of the instruction set for any result, bit by bit: zero, the sign bit, and parity set when the eight bits add up to an even number |
| Effects.FlagsKept | src/devices/src/CPU8008.cpp:863-877 | the bytes the processor keeps for them: the same bits, 1 or 0 but 0x80 for the sign, and the carry as it was |
| Effects.DrivenInT2 | src/i8008/src/Constants8008.h:11-14 | the byte driven in T2 has the low six bits of the latch and, above them, 0, 1, 2 or 3 for PCI, PCR, PCC and PCW |
| InputFlags.InputShowsFlags | src/devices/src/CPU8008.cpp:649-654 | in every run the byte driven in T4 of an input has zero, parity and carry with the weights 2, 4 and 8, and the sign with the weight 128; it has the sign with the weight 1, as the shifts want it, if and only if the sign is clear |
| InputFlags.ShapedAlways | src/devices/src/CPU8008.cpp:684-877 | in every run carry, zero and parity are kept as 0 or 1, and the sign as 0 or 0x80 |
| Cycles.DrivenFields | src/devices/src/CPU8008.cpp:100-113 | the cycle control and the address multiplexed over T1 and T2 are taken apart and put together again |
| Cycles.FetchCycle | src/devices/src/CPU8008.cpp:493-551 | T1 or T1I, T2 and T3 of a first cycle, from any boundary: the address is the program counter, which passes it except in T1I |
| Cycles.FollowingCycle | src/devices/src/CPU8008.cpp:472-551 | T1, T2 and T3 of a second or third cycle, with the address and the kind of cycle of the microcode |
| Runs.EveryRunIsARun | src/devices/src/CPU8008.cpp:292-395 | for every sequence of READY levels, interrupts and jammed opcodes, from any boundary, the instructions that end form a run of the instruction set, each with the states of the manual, and at each boundary the machine holds the state of that run |
| Runs.FaultsExactlyOnUndefined | src/devices/src/CPU8008.cpp:553-882 | in any run an assertion fails if and only if an undefined opcode has been fetched |
| Runs.Progress | src/devices/src/CPU8008.cpp:292-395 | unless it waits for READY in T2 or WAIT, or is halted, each step goes one state further, and no instruction takes more than eleven |
| Runs.WritesOnce | src/devices/src/ProcessorCard.cpp:118-131 | in every run T3 of a writing cycle stores its byte once, at the address latched in T1 and T2 and kept while waiting, if there is memory to write; no other state of any cycle changes the memory |
| Runs.CyclesStayBounded | src/devices/src/CPU8008.cpp:460-470 | in every run, until an assertion fails, no instruction has more than three memory cycles, and the third one is the last |
| Runs.WaitsInvisible | src/devices/src/CPU8008.cpp:302-325 | two machines in the same architectural state, with the same interrupts at the same instruction boundaries, pass through the same states whatever their READY patterns |
| Runs.InterruptKept | src/devices/src/CPU8008.cpp:425-437 | an interrupt waits for the end of the instruction, is taken there, and is not lost before |
| Runs.InterruptAtBoundary | src/devices/src/CPU8008.cpp:493-507 | T1I is entered only at a boundary and with cycle control PCI, so the other branch of T1I is never taken, and the program counters stay as they are |
| Interrupts.ServiceReturns | src/devices/src/CPU8008.cpp:340-391 | in any run, an interrupt that jams RST n enters at 8n with registers and flags intact, and the return that matches it, after a handler of nested calls, resumes at the interrupted program counter with the return addresses the chip can still hold |
| Interrupts.NestedKeeps | src/devices/src/AddressStack.cpp:36-48 | instructions that nest their calls at most limit levels deep leave the other 7 - limit return addresses in place |
| Cpu8008.CPU8008.Step | src/devices/src/CPU8008.cpp:45-151 | the object handles one event of its queue: registers, queue, activation time and pins are left as CpuTiming.Step has them, the function Timed runs; it throws exactly when the ownership of the pins forbids what the event does to them, and then only the event is gone |
| Cpu8008.CPU8008.EnterNewState | src/devices/src/CPU8008.cpp:73-120 | entering a state leaves the object with the registers of CpuCore.EnterState, the function Refinement is about |
| Cpu8008.CPU8008.ScheduleChangeCpuState | src/devices/src/CPU8008.cpp:292-395 | the pending interrupt, the cycle control and the queued change of state are left as CpuCore.ChangeState decides, the function Runs is about |
| Cpu8008.CPU8008.SignalPhase1 | src/devices/src/CPU8008.cpp:231-257 | a rise of phase 1 queues an edge of SYNC, and in the first half of the cycle the change of state, as in the runs of Timed |
| Cpu8008.CPU8008.SignalPhase2 | src/devices/src/CPU8008.cpp:259-290 | an edge of phase 2 queues the reading, driving and releasing of the pins, and a fall changes the half of the cycle, as in the runs of Timed |
| Cpu8008.CPU8008.OnInterrupt | src/devices/src/CPU8008.cpp:425-437 | a high interrupt line is remembered, a low one does not forget it, and nothing else changes |
| Cpu8008.CPU8008.ExecuteT1 | src/devices/src/CPU8008.cpp:509-524 | the arrays of the object are left with the registers whose bus cycle Cycles.FetchCycle and Cycles.FollowingCycle state |
| Cpu8008.CPU8008.ExecuteT1I | src/devices/src/CPU8008.cpp:493-507 | the same for an interrupt, where Cycles.FetchCycle finds the program counter not advanced |
| Cpu8008.CPU8008.ExecuteT2 | src/devices/src/CPU8008.cpp:526-551 | the arrays are left with the registers whose upper address bits and cycle control Cycles takes apart |
| Cpu8008.CPU8008.ExecuteT3 | src/devices/src/CPU8008.cpp:553-599 | fetch, decoding or transfer done in place leaves the registers of the function the Completion theorems are about |
| Cpu8008.CPU8008.ExecuteT4 | src/devices/src/CPU8008.cpp:620-658 | the fourth state done in place, the stack pushed and popped in its array, leaves the registers of the function Effects and Completion are about |
| Cpu8008.CPU8008.ExecuteT5 | src/devices/src/CPU8008.cpp:684-861 | the fifth state done in place, arithmetic, rotations and flags, leaves the registers of the function Effects and Completion are about |
| Cpu8008.CPU8008.ChecksCycleEnd | src/devices/src/CPU8008.cpp:660-682 | in place, the cycle ends and the next kind is chosen as in the function the Completion theorems are about |
| Cpu8008.CPU8008.ChecksConditionalCycleEnd | src/devices/src/CPU8008.cpp:601-618 | in place, the cycle ends early exactly as in the function of Completion.NoTransferCompletes and NoReturnCompletes |
| Cpu8008.CPU8008.UpdateFlags | src/devices/src/CPU8008.cpp:863-877 | zero, sign and the parity found by counting eight bits; the carry is left alone |
| AddressStacks.AddressStack.GetLowPcAndInc | src/devices/src/AddressStack.cpp:18-26 | emits the current counter and advances it modulo 2^14 |
| AddressStacks.AddressStack.SetHighPc | src/devices/src/AddressStack.cpp:56-60 | replaces the high byte of the current slot, bits 14 and 15 included |
| AddressStacks.ViewCall | src/devices/src/AddressStack.cpp:36-60 | push then both halves of a target: the program counters move one level deeper, modulo 2^14, and the oldest is lost |
| AddressStacks.ViewPop | src/devices/src/AddressStack.cpp:38-48 | pop rotates the program counters by one level |
| AddressStacks.TracksUnbounded | src/devices/src/AddressStack.cpp:16-60 | for any sequence of fetches, jumps, calls and returns the slots hold the most recent frames of an unbounded call stack, min(v+1, 8) of them after a call and v-1 after a return |
| AddressStacks.WindowOfEight | src/devices/src/AddressStack.cpp:36-36 | as long as nothing returns, those are the min(depth, 8) most recent frames |
| ProcessorCards.DoubleClock.Step | src/devices/src/DoubleClock.cpp:16-41 | one edge of the clock: levels, time of the next edge, phase |
| ProcessorCards.ClockCycle | src/devices/src/DoubleClock.cpp:16-41 | four edges make a period, in order and without overlap |
| ProcessorCards.ClockTicks | src/devices/src/DoubleClock.cpp:16-41 | the clock of the timed run is that object: each of its turns makes the same next edge, phase and rise of phase 1 |
| ProcessorCards.GeneralAddressRegister.OnSync | src/devices/src/GeneralAddressRegister.cpp:16-48 | what the register latches on the fall of SYNC |
| ProcessorCards.RegisterLatches | src/devices/src/GeneralAddressRegister.cpp:16-48 | the address register of the timed run is that object |
| ProcessorCards.ProcessorCard.OnPhase2 | src/devices/src/ProcessorCard.cpp:196-237 | the byte returned or jammed in T3 and who may drive the pins; the interrupt cycle noted in T1I and T1 |
| ProcessorCards.CardReturns | src/devices/src/ProcessorCard.cpp:196-237 | the card of the timed run is that object |
| Timed.TimedRuns | src/devices/src/CPU8008.cpp:45-290 | driven by the clock at 500 kHz, for every scheduler run, the queue, the pins, the registers around the processor and the memory are at each turn those of one stage of a T-state, and each 4000 ns are one step of the machine of states |
| Timed.TimedSafety | src/devices/src/CPU8008.cpp:153-290 | in every run no two activations tie, the queue is empty before each edge, STATE events fall 25 ns and DATA_IN events 1550 ns after the first edge of a T-state, no pin is requested or set while another owns it, and every request of the processor is released before the next T-state |
| Timed.AtRestIsMachine | src/devices/src/ProcessorCard.cpp:118-194 | between two T-states registers, latched address, cycle control, I/O and memory are those of the machine of states; a write still waits for the fall of T'3 |
| Timed.TimeGoesOn | src/devices/src/DoubleClock.cpp:16-41 | each turn is a stage further, so T-states go by until an assertion fails |
| Timed.SteppedIs | src/devices/src/CPU8008.cpp:67-147 | entering a state, reading the pins and latching at SYNC add up to one step of the machine of states |
| Timed.DrivesPins | src/devices/src/CPU8008.cpp:165-229 | in every timed run, when SYNC falls the processor owns the data pins in T1, T1I and T2, in T3 of a writing cycle and in T4 of an I/O cycle, and they are free in every other state |
| Emulation.TimedRunsAreRuns | src/devices/src/CPU8008.cpp:45-395 | from power on, the timed, event-driven machine runs the instruction set: whenever it is at rest after an instruction its registers, flags, program counters, memory, I/O and halt are those of the run, the byte that still waits for the fall of T'3 included |
| Emulation.RestRunsAreRuns | src/devices/src/CPU8008.cpp:45-395 | the same from any rest between two instructions |
| Emulation.TurnIsFront | src/emulation_core/src/Scheduler.cpp:43-57 | in every timed run each turn is that of the device which the scheduler has at the front of its pool |
| Emulation.EdgesAgree | src/devices/src/DoubleClock.cpp:16-41 | the edges of the state, of SYNC and of phase 2 at which the cards use the data bus are those of every timed run |
| Emulation.PowerOnStarts | src/devices/src/CPU8008.h:32-36 | the state at power on is a boundary, at rest |
| Wires.OwnedValue.Request | src/emulation_core/src/OwnedValue.h:40-47 | who may request, and when it throws |
| Wires.OwnedValue.Release | src/emulation_core/src/OwnedValue.h:49-56 | who may release, and when it throws |
| Wires.OwnedValue.Change | src/emulation_core/src/OwnedValue.h:58-66 | only the owner sets the value |
| Schedulers.Scheduler.Add | src/emulation_core/src/Scheduler.cpp:15-41 | a schedulable and those that come with it join the pool once each, and the pool is settled |
| Schedulers.Scheduler.BeginStep | src/emulation_core/src/Scheduler.cpp:43-60 | the front is a global minimum of the activation times, the counter takes its time and never goes back |
| Schedulers.Scheduler.EndStep | src/emulation_core/src/Scheduler.cpp:62-71 | the stepped entry takes its new time, nothing else changes, and the pool is sorted again |
| Schedulers.Scheduler.ChangeSchedule | src/emulation_core/src/Scheduler.cpp:73-105 | only the notified schedulable changes its time, going back in time throws, and the front stays where it is |
| Schedulers.Scheduler.SortEverything | src/emulation_core/src/Scheduler.cpp:107-125 | any sorted permutation of the prefix, and the new length of it |
| Schedulers.SortSettles | src/emulation_core/src/Scheduler.cpp:107-125 | sorting the prefix sorts the whole pool: nothing scheduled is outside, nothing is lost or duplicated |
| Schedulers.ChangeKeeps | src/emulation_core/src/Scheduler.cpp:86-103 | after a notification everything scheduled is in the prefix, which fits the pool if and only if it was not full or the entry was not newly scheduled |
| Schedulers.OverflowExample | src/emulation_core/src/Scheduler.cpp:92-103 | scheduled, unscheduled and scheduled again between two sorts, an entry takes the count past the pool |
| Schedulers.RoomUntilUnscheduled | src/emulation_core/src/Scheduler.cpp:92-103 | as long as nothing was unscheduled since the last sort the count cannot pass the pool |
| Schedulers.FrontIsMinimum | src/emulation_core/src/Scheduler.cpp:43-57 | the front of a settled pool is due before all the others |
| Schedulers.VoidStep | src/emulation_core/src/Scheduler.cpp:43-55 | a step goes to the end of time if and only if nothing is scheduled |
| Schedulers.Progress | src/emulation_core/src/Scheduler.cpp:43-71 | an entry due at T steps within 1 plus the sum over the others of max(0, T + 1 - t) turns |
| MdBus.DataOnMDBusHolder.Place | src/devices/src/DataOnMDBusHolder.cpp:22-30 | the data are latched, and the bus taken unless SUB is high |
| MdBus.DataOnMDBusHolder.TakeBus | src/devices/src/DataOnMDBusHolder.cpp:32-39 | the bus is requested and the action scheduled, or it throws |
| MdBus.DataOnMDBusHolder.PlaceData | src/devices/src/DataOnMDBusHolder.cpp:41-50 | the data and READY are driven if the bus is still owned |
| MdBus.DataOnMDBusHolder.OnT3 | src/devices/src/DataOnMDBusHolder.cpp:60-70 | on the fall of T3 the bus is released and the data forgotten |
| MdBus.DataOnMDBusHolder.OnSub | src/devices/src/DataOnMDBusHolder.cpp:72-85 | the bus is left when SUB rises and taken back when it falls |
| MdArbitration.ConsoleCard.PressSubstitution | src/devices/src/ConsoleCard.cpp:94-102 | the switch, and the release it asks for |
| MdArbitration.ConsoleCard.OnSync | src/devices/src/ConsoleCard.cpp:113-141 | on the fall of SYNC the console releases or sets the bus before SUB changes |
| MdArbitration.ConsoleCard.OnSub | src/devices/src/ConsoleCard.cpp:212-228 | the switches are put on the bus 20 ns after the rise of SUB |
| MdArbitration.NeverThrows | src/devices/src/DataOnMDBusHolder.cpp:22-85 | for any number of holders and the console, when no address selects two cards, in every run of addresses, cycles and substitutions: no ownership exception and no second scheduling of an action; the invariant holds |
| MdArbitration.ReadsAddressed | src/devices/src/DataOnMDBusHolder.cpp:22-85 | between the end of T2 and the end of T3 of a read cycle, waiting included, at every fall of phase 2 with SUB low the bus holds the byte of the card that the address selects, and READY is high |
| MdArbitration.SimulatorNeverThrows | src/emulator/src/Simulator.cpp:82-206 | the same for the cards of the simulator, in both of its configurations, from the start |
| MdArbitration.T2Falls | src/devices/src/MemoryCard.cpp:98-112 | at the end of T2 exactly the card that the address and the kind of cycle select has data pending, and nothing throws |
| MdArbitration.Ownership | src/devices/src/DataOnMDBusHolder.cpp:22-85 | a holder owns the bus if and only if it has data pending and SUB is low, the console only while SUB is high, and a holder that has driven the bus finds its byte there |
| MdArbitration.SubFalls | src/devices/src/ConsoleCard.cpp:121-139 | when substitution ends the card whose data wait takes the bus |
| MdArbitration.StartsSafe | src/devices/src/DataOnMDBusHolder.cpp:9-20 | with no data placed and no substitution any number of cards, no two of them selected by an address, starts safe |
| Addressing.MemoryRange | src/devices/src/MemoryCard.cpp:148-187 | a card is selected exactly by the addresses of its range |
| Addressing.OneMemoryCard | src/emulator/src/Simulator.cpp:166-191 | in the Micral N configuration every address selects exactly one memory card |
| Addressing.AtMostOneMemoryCard | src/emulator/src/Simulator.cpp:192-206 | with a single ROM at most one, and none exactly in 0x0800 to 0x0FFF |
| Addressing.AtMostOneIoCard | src/emulator/src/Simulator.cpp:82-164 | no I/O address selects two cards of the simulator |
| Addressing.OutputRanges | src/devices/src/IOCard.cpp:76-94 | the output addresses that select an I/O card, a disk controller or a stack channel of any selection, as ranges |
| Addressing.InputRanges | src/devices/src/StackChannelCard.cpp:107-113 | the input addresses that select them, as ranges and places |
| Addressing.OutputsOnly | src/devices/src/IOCard.cpp:103-107 | a card of outputs only is selected by a range of 0x1000 addresses, if the low six bits of its selection are clear |
| Addressing.InputsOnly | src/devices/src/IOCard.cpp:96-101 | a card of inputs only is selected by a group of 0x200 addresses modulo 0x1000 and by one place in 32 of its groups of eight |
| Addressing.MicralAnswers | src/emulator/src/Simulator.cpp:82-191 | for every address and kind of cycle, exactly which memory or I/O card of the Micral N answers at the end of T2 |
| Addressing.SimulatorExclusive | src/devices/src/IOCommunicator.cpp:34-55 | whatever the address and the kind of cycle, at most one card of the simulator, memory or I/O, answers at the end of T2 |
| MemoryCards.MemoryCard.Read | src/devices/src/MemoryCard.cpp:161-165 | the byte behind the page reader of an address |
| MemoryCards.MemoryCard.Write | src/devices/src/MemoryCard.cpp:167-171 | the byte behind the page writer; a ROM keeps its own |
| MemoryCards.MemoryCard.LoadData | src/devices/src/MemoryCard.cpp:70-82 | data are cut to the memory they are loaded in, the masked ROM when there is one |
| MemoryCards.MemoryCard.OnPhase2 | src/devices/src/MemoryCard.cpp:127-146 | the first page is unmasked for good by the signal that OpensOnRestart finds to be the fetch of a restart of level 0 |
| MemoryCards.UnmasksIsRestart | src/devices/src/MemoryCard.cpp:127-146 | what unmasks a page is exactly T3 of a fetch of the restart of level 0 in the instruction set, the opcode 5 |
| MemoryCards.OpensOnRestart | src/devices/src/MemoryCard.cpp:127-146 | after any run of signals the page is open if and only if it was before or that restart has been fetched |
| MemoryCards.AnswersReads | src/devices/src/MemoryCard.cpp:98-112 | the card gives a byte exactly in the reading cycles of its addresses, and it is the one it reads there |
| MemoryCards.HoldsLastWritten | src/devices/src/MemoryCard.cpp:114-125 | after any run of cycles the buffer holds what the last write cycle wrote at an address, the masked page included, or what was loaded |
| MemoryCards.ReadsLastWritten | src/devices/src/MemoryCard.cpp:98-171 | after any run of cycles an address reads what the last write cycle at it wrote, even behind the ROM; the first 256 addresses read the ROM until a restart of level 0 has been fetched; a ROM reads what was loaded |
| Coherence.AlwaysShows | src/devices/src/MemoryCard.cpp:35-66 | in every timed run with a card that masks its first page, the memory of the run under the addresses of the card is what the card shows, the ROM before the turn that opens the page and the RAM from that turn on |
| Coherence.OtherShows | src/devices/src/MemoryCard.cpp:98-125 | each turn keeps the same of the other cards, also the turn that opens the page |
| Coherence.ReadsWhatWasWritten | src/devices/src/MemoryCard.cpp:98-146 | in every such run, what is latched at the end of T2 of a read cycle is the answer of the addressed card: in its first 256 addresses the masked ROM until a restart of level 0 has been fetched, else the last byte written there, even behind the ROM, or what was loaded |
| Boot.MaskedPhase | src/devices/src/MemoryCard.cpp:35-66 | until the page is opened the run is the timed run on the memory that shows the ROM |
| Boot.OpenPhase | src/devices/src/MemoryCard.cpp:127-146 | once it is open the run is the timed run on the memory that shows the RAM, and it stays open |
| Boot.OpenedWorld | src/devices/src/MemoryCard.cpp:127-146 | from the turn that opens the page until a card is read or written, nothing but the memory differs from the run in which the page stays masked |
| Boot.RestartIdle | src/devices/src/MemoryCard.cpp:127-146 | a restart sends no card a signal to read or write from the turn that can open the page to its end, which is a boundary |
| Boot.SignalsAtStage | src/devices/src/MemoryCard.cpp:98-146 | in every timed run the cards are sent the end of T2 and of T3, with the address and the kind of the cycle, at the change of state, and the byte on the bus at the second rise of phase 2 in T3 |
| Boot.FetchOpens | src/devices/src/MemoryCard.cpp:127-146 | a fetch that finds the opcode 5 on the bus opens the page at that rise |
| Boot.BootRuns | src/devices/src/MemoryCard.cpp:35-146 | from power on with a masked page the instructions are a run of the instruction set on the ROM, then, with nothing changed but the memory, a run on the RAM behind it, in whose state the machine is whenever it is at rest |
| InterruptControl.InterruptController.OnPhase1 | src/devices/src/InterruptController.cpp:53-80 | requests are latched unless protected, and the lowest pending one may be dispatched |
| InterruptControl.InterruptController.CpuStateChanged | src/devices/src/InterruptController.cpp:167-203 | the acknowledge lines, the interrupt line and the protection over T1I |
| InterruptControl.InterruptController.GetMaskedRequested | src/devices/src/InterruptController.cpp:125-137 | which levels are pending; level 0 cannot be masked |
| InterruptControl.InterruptController.LowestLevelInterrupt | src/devices/src/InterruptController.cpp:145-151 | the first pending level |
| InterruptControl.InterruptController.OnT3Prime | src/devices/src/InterruptController.cpp:82-108 | the fetched instructions that enable, disable, or announce a mask |
| InterruptControl.InterruptController.OnSync | src/devices/src/InterruptController.cpp:110-123 | the announced mask |
| InterruptControl.InterruptController.Inject | src/devices/src/ProcessorCard.cpp:206-214 | the restart offered, and the request it clears |
| InterruptControl.BitsAre | src/devices/src/InterruptController.cpp:125-137 | the bit of a level in the mask is the one of weight 2 to the level |
| Handshake.AcksOnlyInT1I | src/devices/src/InterruptController.cpp:167-203 | in every run, interrupts raised by other cards included, at most one acknowledge line is high, and only during T1I |
| Handshake.DispatchesLowest | src/devices/src/InterruptController.cpp:53-80 | a level is dispatched if and only if none is applied, requests are not protected, and the lowest pending one is 0 or interrupts are enabled; it is that one, enabled and unmasked |
| Handshake.EnabledIs | src/devices/src/InterruptController.cpp:82-108 | in every run interrupts are enabled if and only if the last of 0xD2, 0xF6 and 0x1F to be fetched was not 0xD2, or as they were when there was none; other bytes and kinds of cycle change nothing |
| Handshake.DisabledDispatchesZero | src/devices/src/InterruptController.cpp:53-80 | while the last of them is 0xD2 nothing but level 0 is dispatched |
| Handshake.MaskMoves | src/devices/src/InterruptController.cpp:110-123 | the announced byte sets the mask, and its lowest bit clear turns the watchdog on |
| Handshake.MaskIs | src/devices/src/InterruptController.cpp:82-123 | in every run the mask is the byte on the data bus at the first fall of SYNC outside T2 and T3 after the last fetch of 0x7F |
| Handshake.ProtectionIs | src/devices/src/InterruptController.cpp:167-203 | in every run requests are protected from a T1I to the T1 that follows |
| Handshake.RequestNext | src/devices/src/InterruptController.cpp:53-80 | a request of a level appears exactly when its line is high at an unprotected rise of phase 1, and goes exactly when its restart is the one injected |
| Handshake.InjectedOnce | src/devices/src/InterruptController.cpp:125-215 | when no other unmasked request is latched and the mask is not changed between dispatch and injection, and an interrupt that is not the controller's finds nothing pending, each acknowledged level is injected exactly once, in the T3 that follows, its request is cleared there, and nothing else is injected |
| Handshake.StartsIdle | src/devices/src/InterruptController.h:37-43 | with nothing requested or applied and the processor stopped, whether or not an interrupt has been raised, both invariants hold |
| Handshake.DecisionFollows | src/devices/src/CPU8008.cpp:292-395 | the processor of the handshake goes from state to state as the decisions of the processor say |
| Handshake.InjectsFirst | src/devices/src/InterruptController.cpp:153-165 | the restart of a level is injected if and only if it is the lowest pending one at that moment |
| Handshake.InjectsTwice | src/devices/src/ProcessorCard.cpp:196-237 | T3 has two falls of phase 2: the second injects nothing if and only if a single level was pending |
| Handshake.LowerLevelSteals | src/devices/src/InterruptController.cpp:53-80 | without that hypothesis level 3 can be acknowledged and the restart of level 1 injected |
| ServedInterrupts.ServedOne | src/devices/src/CPU8008.cpp:340-391 | each state of a run acknowledges an interrupt, takes its opcode, or leaves both as they are, and an opcode is taken exactly once for each acknowledge |
| ServedInterrupts.RecordsStay | src/devices/src/InterruptController.cpp:53-80 | each event keeps the dispatched levels those that are acknowledged, in their order, and the one that is still applied |
| ServedInterrupts.ServedEnters | src/devices/src/InterruptController.cpp:153-165 | the restart of level k enters at 8k with the interrupted program counter pushed, and changes nothing else |
| InterruptedRuns.EachDispatchServed | src/devices/src/InterruptController.cpp:53-215 | from power on, in every timed run whose interrupts are those of the controller, as long as nothing disturbs the requests, the instructions are a run of the instruction set that executes exactly one restart for each dispatched level, in their order, but for a level still to be acknowledged, whose interrupt is then waiting; once a restart is taken its request is cleared |
| DiskChannel.StackChannelCard.OnDataTransfer | src/devices/src/StackChannelCard.cpp:168-205 | a byte is stored, the counter goes down, the request is withdrawn, and the end line is high if and only if the counter has come to zero |
| DiskChannel.StackChannelCard.OnT3 | src/devices/src/StackChannelCard.cpp:73-82 | a byte is requested while some are expected |
| DiskChannel.StackChannelCard.OnApplyCounter | src/devices/src/StackChannelCard.cpp:153-166 | a channel expects one byte more than its counter says |
| DiskChannel.StackChannelCard.OnApplyPointerAddress | src/devices/src/StackChannelCard.cpp:143-151 | any new pointer is taken, inside the memory or not, and stops the transfer; the memory stays as it is |
| DiskChannel.StackChannelCard.PushDataFromBus | src/devices/src/StackChannelCard.cpp:115-131 | an output pushes its low address byte |
| DiskChannel.StackChannelCard.PopDataToBus | src/devices/src/StackChannelCard.cpp:84-105 | an input pops |
| DiskChannel.PopAfterPush | src/devices/src/StackChannelCard.cpp:84-120 | what is pushed is popped first and the pointer comes back, around the memory |
| DiskChannel.DiskReader.StepTrack | src/devices/src/DiskReader.cpp:5-15 | the next and the previous track, around the disk |
| DiskChannel.DiskReader.SeekSector | src/devices/src/DiskReader.cpp:17-24 | the index starts again only when the sector changes |
| DiskChannel.DiskReader.ReadData | src/devices/src/DiskReader.cpp:26-31 | the byte at the index, which advances |
| DiskChannel.RunConserves | src/devices/src/StackChannelCard.cpp:115-205 | in every run stored bytes and remaining counter add up to what was asked, the disk is one byte ahead exactly while a byte is in flight, the bytes are in place, once a byte is stored the end line is high if and only if the counter is zero, the disk sends until then, and no pulse is launched over another |
| DiskChannel.ChannelTransfer | src/devices/src/StackChannelCard.cpp:153-205 | a counter n loaded in a channel stores exactly the next n + 1 bytes of the sector at consecutive addresses modulo the size, and nothing else; the end line is high, and the disk has stopped sending if the line rose |
| DiskChannel.EachT3Stores | src/devices/src/DiskControllerCard.cpp:141-155 | the fall of T3 takes a byte from the disk and raises a pulse of 100 ns which stores it: pointer, counter, request, end line, index and memory are given one by one |
| DiskChannel.PlaceIsModulo | src/devices/src/StackChannelCard.cpp:168-205 | the places of the stored bytes are consecutive modulo the size of the memory |
| DiskChannel.EndHeard | src/devices/src/DiskControllerCard.cpp:157-165 | the last byte clears the status of the disk if and only if the end line was low before |
| VirtualDisks.VirtualDisk.Get | src/emulator/src/VirtualDisk.cpp:18-29 | header, payload and checksum of a sector, by index |
| VirtualDisks.VirtualDisk.InitializeChecksums | src/emulator/src/VirtualDisk.cpp:45-57 | each sector has the checksum of its payload |
| VirtualDisks.VirtualDisk.ComputeSectorChecksum | src/emulator/src/VirtualDisk.cpp:59-76 | the fold of the step over the payload, which ChecksumIsTotal finds to be its signed total |
| VirtualDisks.StepIsSignedSum | src/emulator/src/VirtualDisk.cpp:66-73 | the step adds one exactly when the sum of the signed bytes overflows |
| VirtualDisks.ChecksumIsTotal | src/emulator/src/VirtualDisk.cpp:59-76 | the checksum of any bytes is, modulo 256, the total of the signed bytes and the number of places at which their running sum overflows |
| VirtualDisks.ZeroChecksum | src/emulator/src/VirtualDisk.cpp:59-76 | the checksum of any number of zero bytes is zero |
| VirtualDisks.PayloadsAreImage | src/emulator/src/VirtualDisk.cpp:6-43 | the payloads of all the sectors, in the order of tracks and sectors, are the image cut or padded with zeroes to the capacity |
| Disassembly.GetExtended | src/i8008/src/Disassemble8008.cpp:23-107 | the size and the operand of an instruction, never read past the end of the memory |
| Disassembly.WordIsTarget | src/i8008/src/Disassemble8008.cpp:65-66 | the operand of two bytes is, in fourteen bits, where the processor goes with the same bytes |
| Disassembly.DisassembleFile | src/disassembler/src/main.cpp:29-50 | the sweep ends, its lines tile the ROM, and each has the size of its instruction or one byte when the operand is cut off |
| Disassembly.EachByteOnce | src/disassembler/src/main.cpp:29-50 | every byte is in exactly one line |
| ProgramAdvance.SizeIsProgramAdvance | src/i8008/src/Disassemble8008.cpp:23-107 | for every defined opcode, jumps and returns included, taken or not, the processor increments the program counter as often as the instruction has bytes: the increments come in the first 3 * size states, take the counter past the instruction, and none follows; during an interrupt the jammed opcode is no byte of the program |
| ProgramAdvance.SizeIsStepAdvance | src/i8008/src/Disassemble8008.cpp:23-107 | in the instruction set the size leads to the next instruction, or to the return address |

## Left out

- Graphics, command line, terminal, files and logs, recorders and averagers: input and output only.
- Serial card, automatic start, real-time clock and interrupt circuits: they are the interrupt line, the
  request lines and the answers of the devices, any of them at any time.
- Subscriber lists are replaced by direct calls in the order of subscription, and `shared_ptr` by the
  objects.
- Power: `vdd` is high throughout, and the boot-up time is not modelled.
- What a machine does after a failed assertion; what the six undefined opcodes do beyond it.
- In `BusMachine` memory is flat with a set of writable addresses and a write takes effect in T3; `Timed`
  makes it at the fall of T'3. `Coherence` has a card whose first page changes once, with a board for each
  of the two phases.
- Boot.BootRuns: concerns an opening fetch after which no card is read or written until its instruction
  ends, as RestartIdle shows of a restart. A restart byte that a fetch reads while an interrupt jams another
  opcode opens the page as well; the timed lemmas of `Coherence` cover it.
- The ownership of the interrupt pin, which the automatic start and the interrupt controller share.
- In `Timed` the byte of the addressed card is latched at the end of T2 and found on the bus of the cards
  in T3; MdArbitration.ReadsAddressed shows that it is there. Substitution by the console is shown in
  `MdArbitration` only.
- `Timed.Next` breaks ties in favour of the processor; TimedSafety shows that there are none.
- Schedulers.Scheduler.SortEverything: its contract is any sorted permutation of the prefix; the insertion
  sort of its body stands for the one of the standard library.
- Schedulers.Scheduler.ChangeSchedule: requires that the count does not pass the pool, as ChangeKeeps
  characterises it; the source goes on past the end.
- Handshake.InjectedOnce: has the hypothesis of a single undisturbed request, which LowerLevelSteals and
  InjectsTwice show to be needed. InterruptedRuns.EachDispatchServed has it too.
- DiskChannel.StackChannelCard: what a push, a pop or a stored byte does when a new pointer is outside the
  memory, where the source accesses its buffer past the end.
- DiskChannel.RunConserves: concerns a transfer without bus accesses to the card and without new commands
  during it; the direction is high.
- The watchdog, the reading side of the stack channel, acknowledge pulses of the I/O card, step and trap
  modes of the console.
- The text of disassembled instructions.
- Debugging data: the instruction register and the last emitted program counter.
