# LIS2DH accelerometer driver, modelled in Dafny

This project models the driver for the ST LIS2DH three-axis accelerometer in
`src/drv_lis2dh.c` and `src/drv_lis2dh.h`, and proves properties of the model.
It covers four parts of the driver:

- **Register map.** The addresses and field codes of the register map, and the
  layout of the configuration structs.
- **Transport primitives.** These are the 2-byte register write (the static
  function that the C file misleadingly calls `drv_lis2dh_read_reg_range`) and
  the address-then-data range read `read_reg_range`.
- **Configuration sequencer `drv_lis2dh_cfg`.** It runs these steps in order:
  1. null check;
  2. WHO_AM_I identity check;
  3. reboot request;
  4. six control registers;
  5. two interrupt channels of three fields each;
  6. FIFO, sleep threshold and sleep duration;
  7. the gain `LIS2DH_G`;
  8. two latch-clearing reads of the interrupt sources.
- **Readers and default configuration.** These are the sample reader
  `drv_lis2dh_get_acc`, the interrupt-source reader `drv_lis2dh_int_src`, and
  the constant default configuration `drv_lis2dh_default_cfg`.

The bus is not simulated. Every transfer is logged as an event in a trace:

- a `Send` of bytes, with or without a stop condition;
- a `Receive` of a number of bytes;
- a `Delay` of some milliseconds.

An `Oracle` decides, by the position a transfer takes in the trace, whether it
succeeds and which bytes a read delivers.

The modules are these:

- `Registers` (registers.dfy): constants of the header, and the datatypes
  `IntCfg` and `Config` (`lis2dh_int_cfg_t`, `lis2dh_cfg_t`).
  - The subset type `Cfg` fixes the C arrays at 6 control bytes and 2
    interrupt channels. The field order follows the struct, with
    `sleepDuration` before `sleepThreshold`.
  - `Vec3` holds the three `int16_t` axes as their 16 storage bits.
- `Protocol` (protocol.dfy): the two primitives and `drv_lis2dh_int_src` as
  functions of the oracle and the trace position. `RegisterWrites` lists the
  register writes of a trace, as a recording bus mock would.
- `Sequencer` (sequencer.dfy): the whole effect of `drv_lis2dh_cfg` as one
  function, `ConfigOutcome`. It gives the return code, the full trace and
  `LIS2DH_G`, and is written declaratively from these tables:
  - the fifteen checked writes in issue order (`WRITE_ORDER`, `WriteValues`);
  - the code each write's failure returns (`ERROR_CODES`);
  - the least failing write (`FirstFailure`);
  - the gain table.

  The lemmas state what the sequencer does on each path.
- `Telemetry` (telemetry.dfy): the little-endian byte layout of a sample, the
  arithmetic shift by 8, and the caller's array after `drv_lis2dh_get_acc` in
  closed form.
- `Driver` (driver.dfy): class `Lis2dh`, with the bus, the trace so far and
  the global `LIS2DH_G` as fields. Its methods follow the C functions statement
  by statement, loops included. Each is proved to produce exactly what the
  functions above define.

## Model

| member | source | states |
|---|---|---|
| Registers.ControlRegister | src/drv_lis2dh.h:53-106 | Address `0x20 + i` for i in 0..5 is exactly REG1..REG6, in order. |
| Registers.IntCfg.Bytes | src/drv_lis2dh.h:154-158 | The interrupt struct seen through a `uint8_t*` is three bytes. IntCfgLayout gives their contents. |
| Registers.IntCfgLayout | src/drv_lis2dh.h:154-158 | Byte i of `lis2dh_int_cfg_t` is its i-th field: reg, threshold, duration. |
| Registers.InterruptStride | src/drv_lis2dh.h:122-130 | Each INT2 register address is the INT1 address plus 4, which justifies the stride `int_i * 4`. |
| Registers.ScaleFieldExhaustive | src/drv_lis2dh.h:92-96 | The mask 0x30 is the union of the four scale codes, and `x & 0x30` is always one of them. |
| Registers.OutputBlock | src/drv_lis2dh.h:147-149 | The six bytes from OUT_X_L are the low and high bytes of X (0x28), Y (0x2A) and Z (0x2C). |
| Protocol.Received | src/drv_lis2dh.c:23 | A successful read of len bytes delivers len bytes, byte j being the device's j-th. |
| Protocol.WriteReg | src/drv_lis2dh.c:9-14 | Exactly one stop-terminated transfer `{reg, value}` to address 0x30. The result is 0 or 1, and nonzero iff that transfer fails. |
| Protocol.ReadRegRange | src/drv_lis2dh.c:16-26 | Always two transfers: the start address OR 0x80 with no stop, then len bytes with a stop. The buffer takes the received bytes iff the data transfer succeeds and is otherwise unchanged. The result is 0 iff both succeed. |
| Protocol.AutoIncrementAddress | src/drv_lis2dh.c:20 | OR-ing 0x80 into a 7-bit register number keeps the number and sets the auto-increment bit. |
| Protocol.IntSrc | src/drv_lis2dh.c:165-173 | One 1-byte read of `regs[i]` (0x31 or 0x35). It returns the received byte, or 0 when the data transfer fails. |
| Protocol.IntSrcDistinct | src/drv_lis2dh.c:167 | The two channels address different source registers. |
| Sequencer.InterruptRegister | src/drv_lis2dh.c:98-101 | `reg_addrs[f] + ch * 4`, in byte arithmetic, is the address of checked write 6 + 3ch + f. |
| Sequencer.InterruptValue | src/drv_lis2dh.c:102 | The value of checked write 6 + 3ch + f is byte f of `cfg->ints[ch]`. |
| Sequencer.ControlWrite | src/drv_lis2dh.c:73-79 | Checked write i < 6 writes `ctrl_regs[i]` to `ctrl_reg_start + i`. |
| Sequencer.TailWrites | src/drv_lis2dh.c:114-121 | Checked writes 12, 13 and 14 are FIFO control, sleep threshold and sleep duration, with their config bytes. |
| Sequencer.ConfigOutcome | src/drv_lis2dh.c:54-144 | The definition of `drv_lis2dh_cfg`'s effect: return code, whole trace and `LIS2DH_G` for a configuration, bus and prior state. It has no contract of its own: Driver.Lis2dh.Configure is proved equal to it, and the path lemmas below describe it. |
| Sequencer.AfterReboot | src/drv_lis2dh.c:72-143 | The part of ConfigOutcome after the reboot: the first failing checked write ends the run with its code, otherwise the gain is set and both sources are polled. It has no contract of its own; FailureOutcome and SuccessOutcome state its two cases. |
| Sequencer.FirstFailure | src/drv_lis2dh.c:79-121 | The failing write it returns fails, and every write before it succeeds. None means all remaining writes succeed. |
| Sequencer.CheckedWriteStep | src/drv_lis2dh.c:79-83 | One checked write after k successful ones either ends the run at write k, or extends the successful prefix and the planned trace by write k. |
| Sequencer.ControlErrorCode | src/drv_lis2dh.c:81 | A failure of control register i returns `-(i + 1)`. |
| Sequencer.InterruptErrorCode | src/drv_lis2dh.c:106 | A failure of field f of channel ch returns `-(f + 4 * ch)`. |
| Sequencer.GainCase | src/drv_lis2dh.c:123-137 | For each scale code, the gain g is the truncated reciprocal of its sensitivity in g: `g * s <= 1 g < (g + 1) * s`. There is no case for any other pattern. |
| Sequencer.UpdatedGain | src/drv_lis2dh.c:124-137 | The switch on `ctrl_regs[3] & 0x30` always hits a case, so the previous gain is always replaced. |
| Sequencer.GainTable | src/drv_lis2dh.c:124-137 | The scale codes 0x00, 0x10, 0x20 and 0x30 give gains 62, 31, 16 and 5. |
| Sequencer.Who | src/drv_lis2dh.c:63-64 | The identity byte compared is what the read leaves in `who`: the received byte, or 0. |
| Sequencer.PlannedWrites | src/drv_lis2dh.c:75-121 | The register writes of the first n successful checked writes are exactly those n (register, value) pairs, in order. |
| Sequencer.NullConfig | src/drv_lis2dh.c:58-61 | A null configuration returns -1 with no transfer and the gain unchanged. |
| Sequencer.IdentityMismatch | src/drv_lis2dh.c:63-66 | When WHO_AM_I is not 0x33, including a failed read that leaves 0, the result is -40 after one register read and no write. |
| Sequencer.IdentityEvents | src/drv_lis2dh.c:64 | The identity read issues the same two transfers whether or not it succeeds. |
| Sequencer.PollEvents | src/drv_lis2dh.c:139-141 | The two latch-clearing reads address 0x31 then 0x35, whatever they read. |
| Sequencer.FailureOutcome | src/drv_lis2dh.c:75-121 | If checked write k is the first to fail, the run stops right after it with `ERROR_CODES[k]` and the gain untouched. |
| Sequencer.FailureAttribution | src/drv_lis2dh.c:69-121 | When write k fails first: the code is `ERROR_CODES[k]`, the gain is unchanged, and the writes are the reboot request, then checked writes 0..k, then nothing. |
| Sequencer.ControlRegisterFailure | src/drv_lis2dh.c:69-84 | When control register i fails first: the result is `-(i + 1)`, and the writes are the reboot, then `(0x20 + j, ctrl_regs[j])` for j <= i, with no higher index. |
| Sequencer.InterruptFailure | src/drv_lis2dh.c:88-108 | When field f of channel ch fails first: the result is `-(f + 4 * ch)`, the gain is unchanged, and the last write is that field to `reg_addrs[f] + 4 * ch`. |
| Sequencer.TailFailure | src/drv_lis2dh.c:114-121 | Failures of the FIFO, sleep-threshold and sleep-duration writes return -10, -20 and -30. Each failure is the last write, and the gain is unchanged. |
| Sequencer.SuccessOutcome | src/drv_lis2dh.c:54-144 | When every write succeeds: return 0, then the two polls, with the gain taken from REG4's scale field. |
| Sequencer.Applied | src/drv_lis2dh.c:54-144 | When every write succeeds, the bus sees the identity read, the reboot, the fifteen writes in order and the polls. The writes are the reboot followed by all fifteen checked writes. |
| Sequencer.GainOnlyOnSuccess | src/drv_lis2dh.c:123-137 | `LIS2DH_G` is unchanged unless all fifteen writes succeeded, and then it is the gain of the scale field. |
| Sequencer.GainDependsOnScaleOnly | src/drv_lis2dh.c:124 | The gain depends on `ctrl_regs[3]` only through `& 0x30`. |
| Sequencer.FirstInterruptFailureLooksLikeSuccess | src/drv_lis2dh.c:98-106 | When channel 0's configuration write fails, the result is 0, the success code. The gain is untouched and no poll is made. |
| Sequencer.AmbiguousErrorCodes | src/drv_lis2dh.c:58-121 | A null config, a REG1 failure and channel 0's threshold all return -1. Channel 0's duration repeats REG2's -2, and channel 1's fields repeat the codes of REG4, REG5 and REG6 (checked writes 3..5). -10, -20, -30 and -40 are unique. |
| Sequencer.SourceRegistersNotWritten | src/drv_lis2dh.h:122-128 | 0x31 and 0x35 are distinct, and neither is among the registers the sequencer writes. |
| Sequencer.ReapplyIsIdempotent | src/drv_lis2dh.c:54-144 | On a perfect bus, applying a configuration twice returns 0 both times, repeats the same events and leaves the same gain. |
| Sequencer.DefaultConfig | src/drv_lis2dh.c:28-52 | Default: 10 Hz on X, Y and Z; BDU at +/-8 g; FIFO bypass; AND of X-low and Z-low on channel 0; channel 1 all zero. |
| Sequencer.DefaultValues | src/drv_lis2dh.c:28-52 | The fifteen bytes the default writes: 0x27 0x00 0x40 0xA0 0x00 0x00 0x91 0x03 0x01 0x00 0x00 0x00 0x00 0x01 0x1E. |
| Sequencer.DefaultValuesApplied | src/drv_lis2dh.c:28-52 | Any configuration with those values, on a perfect bus with a device that identifies itself, returns 0, sets the gain to 16 and writes exactly the sixteen pairs of `DEFAULT_WRITES`. |
| Sequencer.DefaultConfigApplied | src/drv_lis2dh.c:28-52 | The same for `drv_lis2dh_default_cfg()` itself. |
| Telemetry.WordValue | src/drv_lis2dh.c:150-151 | A little-endian word is worth its signed high byte times 256 plus its low byte. |
| Telemetry.WordRoundTrip | src/drv_lis2dh.c:151 | Storing a 16-bit word and reassembling its two bytes gives the word. |
| Telemetry.BytesRoundTrip | src/drv_lis2dh.c:151 | Every byte pair is the storage of exactly the word it encodes. |
| Telemetry.Decode | src/drv_lis2dh.c:151 | The `(uint8_t*)v[i].v` view read back: six bytes as three little-endian words x, y, z. No contract of its own; DecodeEncode and EncodeDecode make it the inverse of Encode. |
| Telemetry.Encode | src/drv_lis2dh.c:151 | The six storage bytes of a sample, the buffer the read writes into. Its contract gives the length; the round-trip lemmas give the contents. |
| Telemetry.DecodeEncode | src/drv_lis2dh.c:151 | Reading a sample's own six storage bytes back gives the sample. |
| Telemetry.EncodeDecode | src/drv_lis2dh.c:151 | Every six bytes are the storage of exactly one sample. |
| Telemetry.Asr8 | src/drv_lis2dh.c:152-154 | `>>= 8` on one `int16_t`: an arithmetic shift that copies the sign bit. No contract of its own; ShiftGivesHighByte and ShiftRoundsDown state its meaning. |
| Telemetry.Shr8 | src/drv_lis2dh.c:152-154 | `x >>= 8; y >>= 8; z >>= 8` on one sample. No contract of its own; SampleShift states its meaning. |
| Telemetry.ShiftGivesHighByte | src/drv_lis2dh.c:152-154 | `>>= 8` on an `int16_t` leaves the signed value of its high byte. |
| Telemetry.ShiftRoundsDown | src/drv_lis2dh.c:152-154 | `>>= 8` divides by 256, rounding toward minus infinity. |
| Telemetry.SampleShift | src/drv_lis2dh.c:152-154 | Each axis of a shifted sample is its value divided by 256, rounded down. |
| Telemetry.SignWord | src/drv_lis2dh.c:152-154 | The all-sign-bits word is -1 for a negative value and 0 otherwise. |
| Telemetry.SignFill | src/drv_lis2dh.c:152-154 | Two shifts by 8 leave only the sign word, and further shifts keep it. |
| Telemetry.ShiftedToSign | src/drv_lis2dh.c:148-154 | A sample shifted two or more times holds -1 or 0 on each axis, according to its sign. |
| Telemetry.ShiftKeepsHighByte | src/drv_lis2dh.c:151-154 | One shift of a freshly read sample leaves each axis equal to the signed high byte the device sent. |
| Telemetry.AccAfter | src/drv_lis2dh.c:146-163 | The array after `get_acc(v, n)` as written: slots 1..n-1 hold their sample, slot 0 holds sample 0 shifted n times, and slots from n on are untouched. |
| Telemetry.AccStep | src/drv_lis2dh.c:148-154 | One iteration as written (read into `v[i]`, shift `v[0]`) moves `AccAfter` from i to i + 1. |
| Telemetry.AccEvents | src/drv_lis2dh.c:148-151 | n sample reads issue n 6-byte range reads from 0x28, in order. |
| Telemetry.IntendedSamples | src/drv_lis2dh.c:146-163 | The intended array: each of the first n samples shifted once. Every axis whose read succeeded holds the signed high byte sent. |
| Telemetry.IntendedStep | src/drv_lis2dh.c:148-154 | One intended iteration (read into `v[i]`, shift `v[i]`) moves `IntendedSamples` from i to i + 1. |
| Telemetry.GetAccShiftsOnlyFirstSample | src/drv_lis2dh.c:152-154 | On two samples of bytes 0x01, the code as written gives [0,0,0] and [257,257,257], where [1,1,1] twice is intended. |
| Driver.Lis2dh.constructor | src/drv_lis2dh.c:7 | A fresh driver has an empty trace and `LIS2DH_G` = 0, the C global's initial value. |
| Driver.Lis2dh.WriteRegister | src/drv_lis2dh.c:9-14 | Appends the write's transfer to the trace, and reports failure iff the transfer fails. |
| Driver.Lis2dh.ReadRegisters | src/drv_lis2dh.c:16-26 | Appends both transfers, and returns exactly ReadRegRange's status and buffer. |
| Driver.Lis2dh.IntSrc | src/drv_lis2dh.c:165-173 | Appends the poll's transfers, and returns Protocol.IntSrc's value. |
| Driver.Lis2dh.Configure | src/drv_lis2dh.c:54-144 | The return code, the new trace and the new `LIS2DH_G` are exactly ConfigOutcome's for the old trace and gain. |
| Driver.Lis2dh.WriteControlRegisters | src/drv_lis2dh.c:72-84 | The loop writes REG1..REG6 with 1 ms after each. It stops at the first failure with `-(i + 1)`, or ends with all six done. |
| Driver.Lis2dh.WriteInterrupts | src/drv_lis2dh.c:87-112 | The nested loops write channel 0 then channel 1, fields cfg, threshold, duration. They stop at the first failure with its code. |
| Driver.Lis2dh.WriteTail | src/drv_lis2dh.c:114-121 | The FIFO, sleep-threshold and sleep-duration writes, stopping with -10, -20 or -30. |
| Driver.Lis2dh.Finish | src/drv_lis2dh.c:123-143 | Sets the gain from the scale field, polls both sources and returns 0. |
| Driver.Lis2dh.GetAcc | src/drv_lis2dh.c:146-163 | The loop as written: returns 0, issues `AccEvents(samples)`, and leaves the array equal to `AccAfter` of its old contents. |
| Driver.Lis2dh.GetAccCorrected | src/drv_lis2dh.c:146-163 | The loop with `v[i]` shifted: returns 0, the same events, and the array equal to `IntendedSamples`. |

The header's struct layout of `lis2dh_cfg_t` (src/drv_lis2dh.h:160-166) is the
type `Registers.Cfg` rather than a lemma: six control bytes, one FIFO byte,
`sleep_duration` before `sleep_threshold`, and exactly two interrupt channels.

## Left out

- `twi_master_transfer` and the `TWI_*` flags are not part of this model. Each
  transfer is a trace event, and its success and received bytes come from the
  oracle. The read direction is the `Receive` constructor rather than
  `LIS2DH_ADDR | TWI_READ_BIT`.
- `nrf_delay_ms` is recorded as a `Delay(ms)` event, and no time passes.
- `printf` and `app_trace` output are left out. They do not affect control flow.
- Floating-point arithmetic is left out. The gains 1/0.016, 1/0.032, 1/0.062 and
  1/0.186 and the default thresholds `LIS2DH_CO_8G * 0.1` and `0.2 * LIS2DH_CO_8G`
  are taken as their truncations: 62, 31, 16, 5, 1 and 3.
- Only the 16-bit build (`VEC_16`) of `drv_lis2dh_get_acc` is modelled; the
  `int8_t` branch is left out. The union `vec3_t` is a 3-element sequence of
  16-bit words, so aliasing between `x, y, z` and `v[3]` is not modelled.
- Driver.Lis2dh.GetAcc: `samples` is a natural number no larger than the array.
  The C loop compares a signed `int i` with an `unsigned int`, and an array
  shorter than `samples` would be written out of bounds.
- The unused `int_pins` array and the NRF51 pin numbers are left out.
- `drv_lis2dh_write_reg` (src/drv_lis2dh.h:187) is declared but never defined.
  The C file's 2-byte writer has its signature, but is a static function named
  `drv_lis2dh_read_reg_range` (src/drv_lis2dh.c:9). That name clashes with the
  extern declaration of a range read at src/drv_lis2dh.h:199. The model follows
  the definitions in the C file.
- Two behaviours depend on the compiler and the chip, and the model fixes them
  to what the target does. `>>= 8` on a negative `int16_t` is
  implementation-defined in C; Telemetry.Asr8 takes it as the arithmetic shift
  GCC performs. The `(uint8_t*)v[i].v` view gives little-endian words only on a
  little-endian host; Telemetry.Decode and Telemetry.Encode assume one, as the
  nRF51 is.
- The call at src/drv_lis2dh.c:104 names `drv_lis2dh_drv_lis2dh_read_reg_range`,
  which is defined nowhere. It is modelled as the same 2-byte write primitive as
  the other checked writes.
- Driver.Lis2dh.Configure: the three groups of checked writes and the final gain
  and poll step are separate methods. Each failure code is returned at once, as
  in the C function's early returns.
- Protocol.ReadRegRange, Telemetry.AccAfter: a read whose data transfer fails is
  taken to leave the destination buffer untouched. The buffer is handed to the
  bus driver, which is not part of this model, so a partial fill by a failed
  transfer is not modelled. For the 1-byte reads (`who`, `drv_lis2dh_int_src`)
  this gives the initial 0. For the 6-byte sample read it means a failed slot of
  `get_acc` keeps its old sample (Telemetry.Fetched). If the bus driver filled
  part of the buffer, that partial sample would stay in the array instead,
  because `get_acc` ignores the status.
- The error codes do not single out the failing step, although one might expect
  each failure to have its own code. The model keeps the codes the C code
  returns; Sequencer.AmbiguousErrorCodes and
  Sequencer.FirstInterruptFailureLooksLikeSuccess state the collisions.

## Findings

| source | as written | input that shows it | evidently intended | confidence | as-written member | corrected member |
|---|---|---|---|---|---|---|
| src/drv_lis2dh.c:152-154 | `v->x >>= 8` (and y, z) shifts `v[0]` in every iteration, so sample 0 is shifted `samples` times and the other samples never are | two samples whose six bytes all read 0x01: as written the array becomes [0,0,0], [257,257,257] | `v[i].x >>= 8` (and y, z): each sample shifted once, holding its signed high bytes, [1,1,1] twice | not executed | Telemetry.GetAccShiftsOnlyFirstSample | Driver.Lis2dh.GetAccCorrected |
