# STM32F411 I2S loopback: a verified model

The firmware brings up two serial audio engines of an STM32F411. SPI2 is
the I2S master transmitter. SPI5 is the slave receiver, which follows the
master's word-select (frame) line. This project models the three pieces of
sequential logic inside the register plumbing and proves properties of them:

- **Sawtooth table** (`sawtooth.dfy`). `main` fills a 480-entry `i32` array
  with `i32::MIN / 2 + i * (u32::MAX / 480 / 2)`. Every value of the fill has
  the subset type `i32`, so the loop proves that neither the product nor the
  sum overflows. Lemmas state the closed form, the start value, the constant
  step 4473924, strict monotonicity and the last value 1069267772.
- **Startup and transmit loop** (`handlers.dfy`, `device.dfy`). The EXTI
  line 0 setup. Both engines get one frame shape (long sync, Philips, clock
  idle high, 16-bit data, 32-bit channel) and differ only in role: master
  transmit on SPI2, slave receive on SPI5. The slave is enabled before the
  master. Once TXE is set, the loop writes `0xFF00` on channel side 0 and
  `0xFF06` on channel side 1.
- **Resynchronisation** (`handlers.dfy`, `resync.dfy`, `device.dfy`). The
  SPI5 handler reacts to a frame error: it turns the slave off, unmasks EXTI
  line 0 and triggers that line in software. After that, line 0 becomes
  pending on each rising edge of PB0, the slave's bit clock. The EXTI0
  handler always clears the pending bit. If the word-select pin PB1 reads
  high, it also masks the line and turns the slave back on. All other error
  flags, and the SPI2 handler as a whole, only report.

Structure:

- `registers.dfy` (module `Registers`) has the register fields as values.
  `Regs` is a snapshot of every modelled bit.
- `handlers.dfy` (module `Handlers`) gives each block's effect on a snapshot
  as a function, plus the reports each handler emits.
- `device.dfy` (module `Device`) is the imperative model. Class `Board`
  holds the registers as fields. Each block of `main` and each interrupt
  handler is a method with a field-level `modifies` clause. Its `ensures`
  equate the new snapshot with the matching function of `Handlers`.
  `ResyncScenario` is a client that walks through startup, one frame error
  and the recovery, using only the methods' contracts.
- `resync.dfy` (module `Resync`) runs the handlers, the transmit poll and
  hardware input changes as a sequence of atomic events. It proves
  properties over every such sequence.

Inputs from the hardware are fields the program only reads: status flags,
received data, the word-select level (PB1) and the bit-clock level (PB0).
They change only through `HardwareNext` / `Board.HardwareUpdate`, which stand
for the hardware and not for code of the program. A rising edge of PB0 sets
the line 0 pending bit when the rising trigger is selected. A word-select
edge does not, because line 0 is not routed to PB1. The constructor of
`Board` gives the device's reset values for the configuration, prescaler and
status registers: every configuration bit zero, I2SDIV 2 and TXE set.
Configuration overwrites every modelled field of them. The EXTI pending bit
and the two pin levels have no fixed reset value, and the model takes them as
false.

The run-time event model of `resync.dfy` starts once startup has finished.
Startup itself is the composition of `Handlers.ConfigureEdgeWatch` and
`Handlers.ConfigureLinks`, with no handler running between its blocks.

## What the code does

- The ramp covers `[i32::MIN / 2, i32::MAX / 2)`, the middle half of the
  `i32` range.
- The slave is re-enabled whenever the EXTI0 handler runs while word-select
  reads high. That includes the run the SPI5 handler triggers in software.
  `ReenabledOnlyOnWordSelectHigh` states exactly this condition.
- The EXTI setup in `main` sets bit MR0 of EXTI_IMR. A set MR0 bit unmasks
  line 0, although the comment beside that write says "mask". The edge watch
  is therefore live from startup (`StartupLocks`, `Handlers.ConfigureEdgeWatch`).
- `main` writes 0b0001 to the EXTI0 field of SYSCFG_EXTICR1, which selects
  port B for line 0. An EXTI line takes the pin of its own number, so line 0
  follows PB0, the slave's bit clock. The comments beside that setup name
  PB1, and "pb0 to pb3", but only PB0 reaches line 0. The EXTI0 handler
  therefore runs on a bit-clock rising edge and then samples word-select
  (`HardwareNext`, `RisingEdgeRetriggers`).

## Model

| member | source | states |
|---|---|---|
| Sawtooth.SampleAt | src/main.rs:40 | every table entry lies in `[i32::MIN / 2, i32::MAX / 2)`; the entry equals `i32::MIN / 2` exactly at index 0 |
| Sawtooth.BuildSawtooth | src/main.rs:37-41 | the fill loop, with each product and sum checked to fit `i32`, leaves entry i equal to the closed form for every i < 480; before iteration i, entries below i already hold their final value |
| Sawtooth.ConstantStep | src/main.rs:40 | neighbouring entries differ by exactly the step |
| Sawtooth.Distance | src/main.rs:40 | the step is 4473924 and entries i ≤ j differ by (j − i) steps |
| Sawtooth.StrictlyIncreasing | src/main.rs:40 | the table is strictly increasing |
| Sawtooth.LastSample | src/main.rs:40 | the last entry is 1069267772 and one more step would still fit in `i32` |
| Handlers.ConfigureEdgeWatch | src/main.rs:104-108 | line 0 ends up unmasked with the rising-edge trigger selected; no other bit changes |
| Handlers.ConfigureLinks | src/main.rs:129-179 | master and slave get one frame shape (long sync, Philips, idle high, 16-bit data, 32-bit channel) in I2S mode, with roles master transmit and slave receive; prescaler 62/odd/no master clock; both engines enabled; nothing else changes |
| Handlers.TxWord | src/main.rs:185-189 | the transmitted word is 0xFF00 or 0xFF06; its high byte is all ones; its low byte is zero exactly on channel side 0 |
| Handlers.TransmitPoll | src/main.rs:181-191 | only the master's data register changes; nothing is written while TXE is clear; once TXE is set, the word is 0xFF00 iff channel side is clear and 0xFF06 iff it is set |
| Handlers.ErrorReports | src/main.rs:198-206 | a handler reports frame error, overrun and underrun each exactly when its flag is set, in that order, and reports nothing else |
| Handlers.Spi5Next | src/main.rs:215-234 | with FRE set: slave disabled, line 0 unmasked and pending; without FRE: no register changes; only those three bits can change |
| Handlers.Exti0Next | src/main.rs:241-254 | the pending bit is always cleared; word-select high masks line 0 and enables the slave; word-select low leaves mask and enable unchanged; nothing else changes |
| Handlers.Exti0Reports | src/main.rs:246-253 | the handler always reports the edge interrupt first, and reports a resync exactly when word-select reads high |
| Handlers.HardwareNext | src/main.rs:103-108 | a hardware change of inputs sets line 0 pending exactly on a rising edge of PB0, the pin line 0 is routed to, with the rising trigger selected; a word-select change alone never does; no bit the firmware controls changes |
| Resync.StartupLocks | src/main.rs:100-179 | after the edge-watch setup and the link setup, the slave runs and the rising trigger is selected |
| Resync.SyncTransitions | src/main.rs:194-256 | in one step, only a slave frame error leaves Locked, and it goes to AwaitingEdge with line 0 pending; only the EXTI0 handler with word-select high takes AwaitingEdge to Locked; Unsynced is never re-entered; the trigger selection is kept |
| Resync.RisingEdgeRetriggers | src/main.rs:241-254 | when word-select reads low, the EXTI0 handler leaves the link awaiting an edge with line 0 armed, and the next rising edge of the bit clock PB0 makes it pending again, whatever word-select then reads |
| Resync.NeverUnsynced | src/main.rs:210-256 | over any sequence of handler runs, transmit polls and hardware changes, the slave is always either running or restartable by the edge handler |
| Resync.ConfigurationFixed | src/main.rs:194-256 | no run-time event changes the formats, the prescaler, the master's enable bit or the trigger selection |
| Resync.ReenabledOnlyOnWordSelectHigh | src/main.rs:248-253 | if the slave is off at the start of a run and on at its end, some step of the run was the EXTI0 handler, taken with the slave off and word-select high, and that step turned it on |
| Resync.DisabledOnlyByFrameError | src/main.rs:215-217 | if the slave is on at the start of a run and off at its end, some step was the SPI5 handler, taken with the slave on and FRE set, and that step turned it off |
| Device.Board.constructor | src/main.rs:33 | the device as `main` takes it over: every modelled register at its reset value (both engines off, line 0 masked, no trigger); pending bit and pin levels taken as false; an empty enable log |
| Device.Board.ConfigureEdgeWatch | src/main.rs:104-108 | sets MR0 (unmasking line 0) and TR0, as `Handlers.ConfigureEdgeWatch` |
| Device.Board.ConfigureLinks | src/main.rs:129-179 | writes prescaler and both configurations as `Handlers.ConfigureLinks`; same frame shape, roles master transmit and slave receive; the enable log grows by the slave and then the master |
| Device.Board.TransmitWord | src/main.rs:181-191 | requires TXE set instead of spinning; writes 0xFF00 iff channel side is clear and 0xFF06 iff it is set; only the data register changes |
| Device.Board.Spi2Interrupt | src/main.rs:194-208 | the master's handler returns exactly the master's error reports and modifies nothing |
| Device.Board.Spi5Interrupt | src/main.rs:210-236 | the new register state is `Handlers.Spi5Next` of the old; on FRE the slave is off and line 0 is unmasked and pending; returns the slave's error reports |
| Device.Board.Exti0Interrupt | src/main.rs:238-256 | the new register state is `Handlers.Exti0Next` of the old: pending bit cleared, and mask and slave enable set only when word-select is high; returns the edge reports |
| Device.Board.HardwareUpdate | src/main.rs:103-108 | the hardware input step: the new snapshot is `Handlers.HardwareNext` of the old; only status flags, received word, the two pin levels and the pending bit change, the pending bit on a PB0 rise |
| Device.Board.Enable | src/main.rs:176-178 | sets one engine's enable bit and nothing else, and appends that engine to the enable log, so the log follows the writes |

## Left out

- Clock tree setup (`freeze`), the peripheral clock-enable bits and the PLLI2S constants: writes to hardware whose behaviour the program does not show.
- The busy-waits on PLLI2S lock and on TXE: hardware liveness with no bound in the code. `Board.TransmitWord` requires TXE set instead, and `Handlers.TransmitPoll` takes one pass of the poll.
- GPIO alternate-function muxing, NVIC unmasking and the CR2 interrupt-enable bits: pin and interrupt plumbing. For the same reason a handler may run at any step, whether or not its flag is set and its interrupt enabled.
- Preemption and interleaving inside a handler: each handler and each startup block is one atomic step.
- The hardware effect of the software trigger (that it raises the EXTI0 interrupt): modelled only as making line 0 pending.
- The debug transport (`rprintln!`), RTT initialisation and the panic handler: output and fault plumbing. The reports are modelled as the value a handler returns.
- Read-to-clear behaviour of the status register and data register (reading SR or DR may clear FRE, OVR or RXNE), and the write-back of other lines' pending bits by the read-modify-write of EXTI_PR: hardware side effects the program does not rely on. Status flags change only through the hardware step.
- The frame counter, a clear sequence for overrun or underrun, a check that rejects mismatched formats, and a timeout on the clock-lock wait: the code has none of them.
- The sawtooth table is never used after it is built. It is modelled as the standalone computation it is, not as the transmitted signal or as a cyclic sample source.
