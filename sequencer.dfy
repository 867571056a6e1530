/**
 * What drv_lis2dh_cfg (src/drv_lis2dh.c) does to the bus and to LIS2DH_G, as
 * a function of the configuration, the bus oracle and the trace so far.
 * The specification is declarative: a table of the fifteen checked writes in
 * issue order, a table of the code each one's failure returns, the least
 * failing write, and the gain table. The imperative sequencer in module
 * Driver is proved to produce exactly this outcome.
 */
module Sequencer {
  import opened Wrappers
  import opened Registers
  import opened Protocol

  /** Return code for a null configuration pointer. */
  const NULL_CFG: int := -1
  /** Return code when WHO_AM_I does not read back as 0x33. */
  const ID_MISMATCH: int := -40

  /** reg_addrs: the channel-0 addresses of the three interrupt fields, in struct order. */
  const INT_FIELD_REGS: seq<bv8> := [INT1_CFG_REG, INT1_THRESHOLD_REG, INT1_DURATION_REG]

  /** The addresses of the fifteen checked writes, in the order they are issued. */
  const WRITE_ORDER: seq<bv8> := [
    REG1, REG2, REG3, REG4, REG5, REG6,
    INT1_CFG_REG, INT1_THRESHOLD_REG, INT1_DURATION_REG,
    INT2_CFG_REG, INT2_THRESHOLD_REG, INT2_DURATION_REG,
    FIFO_CTRL_REG, SLEEP_THRESHOLD_REG, SLEEP_DURATION_REG]

  /** The code returned when the checked write of the same index fails. */
  const ERROR_CODES: seq<int> := [-1, -2, -3, -4, -5, -6, 0, -1, -2, -4, -5, -6, -10, -20, -30]

  /** The reboot request and the 5 ms settle time; the write's own result is ignored. */
  const REBOOT_EVENTS: seq<Event> := [Send(LIS2DH_ADDR, [REG5, REG5_REBOOT], true), Delay(5)]

  /** Address of field f of interrupt channel ch: reg_addrs[f] + ch * 4, in uint8_t arithmetic. */
  function InterruptRegister(ch: nat, f: nat): (a: bv8)
    requires ch < 2 && f < 3
    ensures a == WRITE_ORDER[6 + 3 * ch + f]
  {
    INT_FIELD_REGS[f] + (ch * 4) as bv8
  }

  /** The values of the fifteen checked writes, in issue order (sleep threshold before sleep duration). */
  function WriteValues(c: Cfg): (vs: seq<bv8>)
    ensures |vs| == 15
  {
    c.ctrlRegs + c.ints[0].Bytes() + c.ints[1].Bytes() + [c.fifoReg, c.sleepThreshold, c.sleepDuration]
  }

  lemma InterruptValue(c: Cfg, ch: nat, f: nat)
    requires ch < 2 && f < 3
    ensures WriteValues(c)[6 + 3 * ch + f] == c.ints[ch].Bytes()[f]
  {
    if ch == 0 {
      assert WriteValues(c)[6 + f] == (c.ctrlRegs + c.ints[0].Bytes())[6 + f];
    } else {
      assert WriteValues(c)[9 + f] == (c.ctrlRegs + c.ints[0].Bytes() + c.ints[1].Bytes())[9 + f];
    }
  }

  /** Checked write i < 6 writes ctrl_regs[i] to ctrl_reg_start + i. */
  lemma ControlWrite(c: Cfg, i: nat)
    requires i < 6
    ensures WRITE_ORDER[i] == REG1 + i as bv8
    ensures WriteValues(c)[i] == c.ctrlRegs[i]
  {
    assert ControlRegister(i) == WRITE_ORDER[i];
  }

  /** The last three checked writes: FIFO control, sleep threshold, sleep duration. */
  lemma TailWrites(c: Cfg)
    ensures WRITE_ORDER[12] == FIFO_CTRL_REG && WriteValues(c)[12] == c.fifoReg
    ensures WRITE_ORDER[13] == SLEEP_THRESHOLD_REG && WriteValues(c)[13] == c.sleepThreshold
    ensures WRITE_ORDER[14] == SLEEP_DURATION_REG && WriteValues(c)[14] == c.sleepDuration
  {
  }

  /** The first n checked writes as (register, value) pairs. */
  function CheckedWrites(c: Cfg, n: nat): (ws: seq<(bv8, bv8)>)
    requires n <= 15
    ensures |ws| == n
  {
    seq(n, (j: nat) requires j < n => (WRITE_ORDER[j], WriteValues(c)[j]))
  }

  /** The events of checked write k when it succeeds: the write, then 1 ms for a control register. */
  function WriteEvents(c: Cfg, k: nat): (es: seq<Event>)
    requires k < 15
  {
    [Send(LIS2DH_ADDR, [WRITE_ORDER[k], WriteValues(c)[k]], true)] + (if k < 6 then [Delay(1)] else [])
  }

  /** Where checked write k starts, counted from the first control-register write. */
  function Offset(k: nat): nat
  {
    if k <= 6 then 2 * k else k + 6
  }

  /** The events of the first n checked writes when all of them succeed. */
  function Planned(c: Cfg, n: nat): (es: seq<Event>)
    requires n <= 15
    ensures |es| == Offset(n)
  {
    if n == 0 then [] else Planned(c, n - 1) + WriteEvents(c, n - 1)
  }

  /**
   * The least k >= from whose checked write fails, when the writes start at
   * trace position base; None when all of them from `from` on succeed.
   */
  function FirstFailure(o: Oracle, base: nat, from: nat): (r: Option<nat>)
    requires from <= 15
    ensures r.Some? ==> from <= r.value < 15 && !o.ok(base + Offset(r.value))
    ensures forall j :: from <= j < 15 && (r.None? || j < r.value) ==> o.ok(base + Offset(j))
    decreases 15 - from
  {
    if from == 15 then None
    else if !o.ok(base + Offset(from)) then Some(from)
    else FirstFailure(o, base, from + 1)
  }

  /** Checked writes 0..n-1, issued from trace position base on, all succeed. */
  ghost predicate SucceededUpTo(o: Oracle, base: nat, n: nat)
  {
    forall j :: 0 <= j < n ==> o.ok(base + Offset(j))
  }

  /**
   * The trace tr ends with checked write k failing, after pre and the
   * successful writes 0..k-1.
   */
  ghost predicate FailedAt(o: Oracle, pre: seq<Event>, c: Cfg, k: nat, tr: seq<Event>)
  {
    && k < 15
    && SucceededUpTo(o, |pre|, k)
    && !o.ok(|pre| + Offset(k))
    && tr == pre + Planned(c, k) + WriteEvents(c, k)[..1]
  }

  /**
   * One checked write k issued after pre and writes 0..k-1: a failure ends
   * the run at FailedAt; a success extends the plan by write k.
   */
  lemma CheckedWriteStep(o: Oracle, pre: seq<Event>, c: Cfg, k: nat, tr: seq<Event>)
    requires k < 15
    requires tr == pre + Planned(c, k) && SucceededUpTo(o, |pre|, k)
    ensures var w := WriteReg(o, |tr|, WRITE_ORDER[k], WriteValues(c)[k]);
      && (w.status != 0 ==> FailedAt(o, pre, c, k, tr + w.events))
      && (w.status == 0 ==> SucceededUpTo(o, |pre|, k + 1))
      && tr + w.events + (if k < 6 then [Delay(1)] else []) == pre + Planned(c, k + 1)
  {
    var w := WriteReg(o, |tr|, WRITE_ORDER[k], WriteValues(c)[k]);
    CheckedWriteEvents(o, |tr|, c, k);
    PlannedStep(pre, c, k, tr);
    if w.status == 0 {
      SucceededStep(o, |pre|, k);
    } else {
      assert tr + w.events == pre + Planned(c, k) + WriteEvents(c, k)[..1];
    }
  }

  lemma PlannedStep(pre: seq<Event>, c: Cfg, k: nat, tr: seq<Event>)
    requires k < 15 && tr == pre + Planned(c, k)
    ensures tr + WriteEvents(c, k)[..1] + (if k < 6 then [Delay(1)] else []) == pre + Planned(c, k + 1)
  {
    assert WriteEvents(c, k) == WriteEvents(c, k)[..1] + (if k < 6 then [Delay(1)] else []);
  }

  lemma SucceededStep(o: Oracle, base: nat, k: nat)
    requires SucceededUpTo(o, base, k) && o.ok(base + Offset(k))
    ensures SucceededUpTo(o, base, k + 1)
  {
  }

  /** The codes of the control-register writes: -(i + 1) for register i. */
  lemma ControlErrorCode(i: nat)
    requires i < 6
    ensures ERROR_CODES[i] == -(i + 1)
  {
  }

  /** The codes of the interrupt writes: -(f + 4 * ch) for field f of channel ch. */
  lemma InterruptErrorCode(ch: nat, f: nat)
    requires ch < 2 && f < 3
    ensures ERROR_CODES[6 + 3 * ch + f] == -(f + 4 * ch)
  {
  }

  /** Full-scale sensitivity in micro-g per digit (0.016, 0.032, 0.062 and 0.186 g); None for any other pattern. */
  function Sensitivity(code: bv8): Option<nat>
  {
    if code == REG4_SCL_2G then Some(16000)
    else if code == REG4_SCL_4G then Some(32000)
    else if code == REG4_SCL_8G then Some(62000)
    else if code == REG4_SCL_16G then Some(186000)
    else None
  }

  /**
   * The switch on the scale field: for each of the four scale codes the
   * truncated reciprocal of its sensitivity in g (digits per 1 g); no case
   * for any other pattern.
   */
  function GainCase(code: bv8): (g: Option<int>)
    ensures g.Some? <==> Sensitivity(code).Some?
    ensures g.Some? ==> g.value * Sensitivity(code).value <= 1000000 < (g.value + 1) * Sensitivity(code).value
  {
    if code == REG4_SCL_2G then Some(62)
    else if code == REG4_SCL_4G then Some(31)
    else if code == REG4_SCL_8G then Some(16)
    else if code == REG4_SCL_16G then Some(5)
    else None
  }

  /** LIS2DH_G after the switch on ctrl_regs[3] & 0x30: the switch never falls through, so prev is always replaced. */
  function UpdatedGain(ctrl4: bv8, prev: int): (g: int)
    ensures GainCase(ctrl4 & REG4_SCL_MSK) == Some(g)
  {
    ScaleFieldExhaustive(ctrl4);
    match GainCase(ctrl4 & REG4_SCL_MSK)
    case Some(v) => v
    case None => prev
  }

  /** The four gain values for the four scale codes, whatever the previous gain. */
  lemma GainTable(prev: int)
    ensures UpdatedGain(REG4_SCL_2G, prev) == 62
    ensures UpdatedGain(REG4_SCL_4G, prev) == 31
    ensures UpdatedGain(REG4_SCL_8G, prev) == 16
    ensures UpdatedGain(REG4_SCL_16G, prev) == 5
  {
  }

  /** The identity byte the sequencer compares: the received byte, or 0 when the data transfer fails. */
  function Who(o: Oracle, at: nat): (who: bv8)
    ensures who == ReadRegRange(o, at, WHO_AM_I, [0], 1).data[0]
  {
    if o.ok(at + 1) then o.rx(at + 1, 0) else 0
  }

  /** The return code, the whole bus trace and LIS2DH_G after one call of the sequencer. */
  datatype Outcome = Outcome(rc: int, trace: seq<Event>, gain: int)

  /**
   * The outcome of drv_lis2dh_cfg(cfg) on bus o with trace t and gain g
   * beforehand (None stands for a null pointer). The identity read is
   * IDENTITY_EVENTS whatever the bus answers (IdentityEvents).
   */
  function ConfigOutcome(o: Oracle, t: seq<Event>, g: int, cfg: Option<Cfg>): Outcome
  {
    if cfg.None? then Outcome(NULL_CFG, t, g)
    else if Who(o, |t|) != LIS2DH_ID then Outcome(ID_MISMATCH, t + IDENTITY_EVENTS, g)
    else AfterReboot(o, t + IDENTITY_EVENTS + REBOOT_EVENTS, g, cfg.value)
  }

  /**
   * The rest of a run once the device is identified and rebooted, pre being
   * the trace so far: the first failing checked write ends it with its code;
   * otherwise the gain is set and both interrupt sources are polled
   * (PollEvents).
   */
  function AfterReboot(o: Oracle, pre: seq<Event>, g: int, c: Cfg): Outcome
  {
    match FirstFailure(o, |pre|, 0)
    case Some(k) => Outcome(ERROR_CODES[k], pre + Planned(c, k) + WriteEvents(c, k)[..1], g)
    case None => Outcome(0, pre + Planned(c, 15) + POLL_EVENTS, UpdatedGain(c.ctrlRegs[3], g))
  }

  /** The identity read of WHO_AM_I: its address with the read bit, then one byte. */
  const IDENTITY_EVENTS: seq<Event> := [Send(LIS2DH_ADDR, [0x8F], false), Receive(LIS2DH_ADDR, 1, true)]

  /** The two latch-clearing polls of INT1_SRC (0x31) and INT2_SRC (0x35). */
  const POLL_EVENTS: seq<Event> := [
    Send(LIS2DH_ADDR, [0xB1], false), Receive(LIS2DH_ADDR, 1, true),
    Send(LIS2DH_ADDR, [0xB5], false), Receive(LIS2DH_ADDR, 1, true)]

  /** Everything a fully successful configuration puts on the bus. */
  function SuccessEvents(c: Cfg): seq<Event>
  {
    IDENTITY_EVENTS + REBOOT_EVENTS + Planned(c, 15) + POLL_EVENTS
  }

  lemma SingleWrite(e: Event)
    ensures RegisterWrites([e]) == WriteOf(e)
  {
    assert WritesUpTo([e], 1) == WritesUpTo([e], 0) + WriteOf(e);
  }

  lemma WriteEventsWrites(c: Cfg, k: nat)
    requires k < 15
    ensures RegisterWrites(WriteEvents(c, k)) == [(WRITE_ORDER[k], WriteValues(c)[k])]
    ensures RegisterWrites(WriteEvents(c, k)[..1]) == [(WRITE_ORDER[k], WriteValues(c)[k])]
  {
    var e := WriteEvents(c, k);
    SingleWrite(e[0]);
    assert e[..1] == [e[0]];
    if k < 6 {
      SingleWrite(e[1]);
      assert e == [e[0]] + [e[1]];
      RegisterWritesAppend([e[0]], [e[1]]);
    } else {
      assert e == [e[0]];
    }
  }

  /** Checked write k as the register write primitive issues it; from k = 6 on no delay follows. */
  lemma CheckedWriteEvents(o: Oracle, at: nat, c: Cfg, k: nat)
    requires k < 15
    ensures WriteReg(o, at, WRITE_ORDER[k], WriteValues(c)[k]).events == WriteEvents(c, k)[..1]
    ensures WriteEvents(c, k) == WriteEvents(c, k)[..1] + (if k < 6 then [Delay(1)] else [])
  {
  }

  lemma CheckedWritesStep(c: Cfg, n: nat)
    requires 0 < n <= 15
    ensures CheckedWrites(c, n) == CheckedWrites(c, n - 1) + [(WRITE_ORDER[n - 1], WriteValues(c)[n - 1])]
  {
  }

  /** The register writes of the planned events are exactly the first n checked writes. */
  lemma {:induction false} PlannedWrites(c: Cfg, n: nat)
    requires n <= 15
    ensures RegisterWrites(Planned(c, n)) == CheckedWrites(c, n)
  {
    if n > 0 {
      PlannedWrites(c, n - 1);
      assert Planned(c, n) == Planned(c, n - 1) + WriteEvents(c, n - 1);
      RegisterWritesAppend(Planned(c, n - 1), WriteEvents(c, n - 1));
      WriteEventsWrites(c, n - 1);
      CheckedWritesStep(c, n);
    }
  }

  lemma ReadsWriteNothing()
    ensures RegisterWrites(IDENTITY_EVENTS) == []
    ensures RegisterWrites(POLL_EVENTS) == []
    ensures RegisterWrites(REBOOT_EVENTS) == [(REG5, REG5_REBOOT)]
  {
    var id, p, r := IDENTITY_EVENTS, POLL_EVENTS, REBOOT_EVENTS;
    SingleWrite(id[0]); SingleWrite(id[1]);
    assert id == [id[0]] + [id[1]];
    RegisterWritesAppend([id[0]], [id[1]]);
    SingleWrite(r[0]); SingleWrite(r[1]);
    assert r == [r[0]] + [r[1]];
    RegisterWritesAppend([r[0]], [r[1]]);
    SingleWrite(p[0]); SingleWrite(p[1]); SingleWrite(p[2]); SingleWrite(p[3]);
    assert p == [p[0]] + [p[1]] + [p[2]] + [p[3]];
    RegisterWritesAppend([p[0]], [p[1]]);
    RegisterWritesAppend([p[0]] + [p[1]], [p[2]]);
    RegisterWritesAppend([p[0]] + [p[1]] + [p[2]], [p[3]]);
  }

  /** A null configuration returns -1 and touches neither the bus nor the gain. */
  lemma NullConfig(o: Oracle, t: seq<Event>, g: int)
    ensures ConfigOutcome(o, t, g, None) == Outcome(-1, t, g)
  {
  }

  /**
   * A WHO_AM_I byte other than 0x33 (which includes a failed data transfer,
   * since the byte then stays 0) returns -40 after the one register read and
   * no write.
   */
  lemma IdentityMismatch(o: Oracle, t: seq<Event>, g: int, c: Cfg)
    requires !o.ok(|t| + 1) || o.rx(|t| + 1, 0) != 0x33
    ensures ConfigOutcome(o, t, g, Some(c)) == Outcome(-40, t + IDENTITY_EVENTS, g)
    ensures RegisterWrites(ConfigOutcome(o, t, g, Some(c)).trace) == RegisterWrites(t)
  {
    ReadsWriteNothing();
    RegisterWritesAppend(t, IDENTITY_EVENTS);
  }

  /** The identity read issues IDENTITY_EVENTS, whether or not it succeeds. */
  lemma IdentityEvents(o: Oracle, at: nat)
    ensures ReadRegRange(o, at, WHO_AM_I, [0], 1).events == IDENTITY_EVENTS
  {
  }

  /** The two polls issue POLL_EVENTS, whatever they read. */
  lemma PollEvents(o: Oracle, at: nat)
    ensures IntSrc(o, at, 0).events + IntSrc(o, at + 2, 1).events == POLL_EVENTS
  {
  }

  lemma WritesOfFive(t: seq<Event>, a: seq<Event>, b: seq<Event>, p: seq<Event>, l: seq<Event>)
    ensures RegisterWrites(t + a + b + p + l)
         == RegisterWrites(t) + RegisterWrites(a) + RegisterWrites(b) + RegisterWrites(p) + RegisterWrites(l)
  {
    RegisterWritesAppend(t + a + b + p, l);
    RegisterWritesAppend(t + a + b, p);
    RegisterWritesAppend(t + a, b);
    RegisterWritesAppend(t, a);
  }

  /** The register writes of a run that gets past the identity check: t's, the reboot, then p's and l's. */
  lemma WritesAfterIdentity(t: seq<Event>, p: seq<Event>, l: seq<Event>)
    ensures RegisterWrites(t + IDENTITY_EVENTS + REBOOT_EVENTS + p + l)
         == RegisterWrites(t) + [(REG5, REG5_REBOOT)] + (RegisterWrites(p) + RegisterWrites(l))
  {
    WritesOfFive(t, IDENTITY_EVENTS, REBOOT_EVENTS, p, l);
    ReadsWriteNothing();
  }

  /** The outcome when write k is the first to fail, as a whole. */
  lemma FailureOutcome(o: Oracle, t: seq<Event>, g: int, c: Cfg, k: nat)
    requires Who(o, |t|) == LIS2DH_ID
    requires k < 15
    requires SucceededUpTo(o, |t| + 4, k)
    requires !o.ok(|t| + 4 + Offset(k))
    ensures ConfigOutcome(o, t, g, Some(c))
         == Outcome(ERROR_CODES[k], t + IDENTITY_EVENTS + REBOOT_EVENTS + Planned(c, k) + WriteEvents(c, k)[..1], g)
  {
    assert |t + IDENTITY_EVENTS + REBOOT_EVENTS| == |t| + 4;
    var ff := FirstFailure(o, |t| + 4, 0);
    assert ff == Some(k) by {
      if ff.None? || ff.value < k || ff.value > k { assert false; }
    }
  }

  /** A run whose trace ends at a failed checked write returns that write's code. */
  lemma FailedRun(o: Oracle, t: seq<Event>, g: int, c: Cfg, k: nat, tr: seq<Event>)
    requires Who(o, |t|) == LIS2DH_ID
    requires FailedAt(o, t + IDENTITY_EVENTS + REBOOT_EVENTS, c, k, tr)
    ensures ConfigOutcome(o, t, g, Some(c)) == Outcome(ERROR_CODES[k], tr, g)
  {
    FailureOutcome(o, t, g, c, k);
  }

  /** A run whose fifteen checked writes all succeed goes on to the two polls and returns 0. */
  lemma CompletedRun(o: Oracle, t: seq<Event>, g: int, c: Cfg, tr: seq<Event>)
    requires Who(o, |t|) == LIS2DH_ID
    requires tr == t + IDENTITY_EVENTS + REBOOT_EVENTS + Planned(c, 15)
    requires SucceededUpTo(o, |t| + 4, 15)
    ensures ConfigOutcome(o, t, g, Some(c)) == Outcome(0, tr + POLL_EVENTS, UpdatedGain(c.ctrlRegs[3], g))
  {
    SuccessOutcome(o, t, g, c);
  }

  /**
   * With the identity confirmed and checked write k the first to fail, the
   * sequencer returns ERROR_CODES[k], leaves the gain alone, and the register
   * writes on the bus are the reboot request followed by checked writes 0..k
   * and nothing after.
   */
  lemma FailureAttribution(o: Oracle, t: seq<Event>, g: int, c: Cfg, k: nat)
    requires Who(o, |t|) == LIS2DH_ID
    requires k < 15
    requires SucceededUpTo(o, |t| + 4, k)
    requires !o.ok(|t| + 4 + Offset(k))
    ensures var out := ConfigOutcome(o, t, g, Some(c));
      && out.rc == ERROR_CODES[k]
      && out.gain == g
      && RegisterWrites(out.trace) == RegisterWrites(t) + [(REG5, REG5_REBOOT)] + CheckedWrites(c, k + 1)
  {
    FailureOutcome(o, t, g, c, k);
    WritesAfterIdentity(t, Planned(c, k), WriteEvents(c, k)[..1]);
    assert RegisterWrites(Planned(c, k)) + RegisterWrites(WriteEvents(c, k)[..1]) == CheckedWrites(c, k + 1) by {
      PlannedWrites(c, k);
      WriteEventsWrites(c, k);
      CheckedWritesStep(c, k + 1);
    }
  }

  /** The write of write k is the last of the first k + 1 writes. */
  lemma LastWrite(t: seq<Event>, c: Cfg, k: nat, ws: seq<(bv8, bv8)>)
    requires k < 15
    requires ws == RegisterWrites(t) + [(REG5, REG5_REBOOT)] + CheckedWrites(c, k + 1)
    ensures |ws| == |RegisterWrites(t)| + 1 + k + 1
    ensures ws[|ws| - 1] == (WRITE_ORDER[k], WriteValues(c)[k])
  {
    assert ws[|ws| - 1] == CheckedWrites(c, k + 1)[k];
  }

  /**
   * Control register i failing first (the writes before it, at every second
   * trace position, having succeeded) returns -(i+1); the writes are the
   * reboot and control registers 0x20..0x20+i in order, none higher.
   */
  lemma ControlRegisterFailure(o: Oracle, t: seq<Event>, g: int, c: Cfg, i: nat)
    requires Who(o, |t|) == LIS2DH_ID
    requires i < 6
    requires SucceededUpTo(o, |t| + 4, i)
    requires !o.ok(|t| + 4 + 2 * i)
    ensures var out := ConfigOutcome(o, t, g, Some(c));
      && out.rc == -(i + 1)
      && RegisterWrites(out.trace)
         == RegisterWrites(t) + [(REG5, REG5_REBOOT)]
            + seq(i + 1, (j: nat) requires j <= i => (ControlRegister(j), c.ctrlRegs[j]))
  {
    FailureAttribution(o, t, g, c, i);
    ControlErrorCode(i);
    assert CheckedWrites(c, i + 1) == seq(i + 1, (j: nat) requires j <= i => (ControlRegister(j), c.ctrlRegs[j])) by {
      forall j | 0 <= j <= i ensures CheckedWrites(c, i + 1)[j] == (ControlRegister(j), c.ctrlRegs[j]) {
        ControlWrite(c, j);
      }
    }
  }

  /**
   * Field f of interrupt channel ch failing first returns -(f + 4 * ch), and
   * the last register written is that field's, at reg_addrs[f] + 4 * ch.
   */
  lemma InterruptFailure(o: Oracle, t: seq<Event>, g: int, c: Cfg, ch: nat, f: nat)
    requires Who(o, |t|) == LIS2DH_ID
    requires ch < 2 && f < 3
    requires SucceededUpTo(o, |t| + 4, 6 + 3 * ch + f)
    requires !o.ok(|t| + 4 + Offset(6 + 3 * ch + f))
    ensures var out := ConfigOutcome(o, t, g, Some(c));
      var ws := RegisterWrites(out.trace);
      && out.rc == -(f + 4 * ch)
      && out.gain == g
      && |ws| == |RegisterWrites(t)| + 1 + 6 + 3 * ch + f + 1
      && ws[|ws| - 1] == (INT_FIELD_REGS[f] + (ch * 4) as bv8, c.ints[ch].Bytes()[f])
  {
    var k := 6 + 3 * ch + f;
    FailureAttribution(o, t, g, c, k);
    InterruptErrorCode(ch, f);
    InterruptValue(c, ch, f);
    assert InterruptRegister(ch, f) == WRITE_ORDER[k];
    LastWrite(t, c, k, RegisterWrites(ConfigOutcome(o, t, g, Some(c)).trace));
  }

  /** The FIFO, sleep-threshold and sleep-duration writes (m = 0, 1, 2) fail with -10, -20, -30. */
  lemma TailFailure(o: Oracle, t: seq<Event>, g: int, c: Cfg, m: nat)
    requires Who(o, |t|) == LIS2DH_ID
    requires m < 3
    requires SucceededUpTo(o, |t| + 4, 12 + m)
    requires !o.ok(|t| + 4 + Offset(12 + m))
    ensures var out := ConfigOutcome(o, t, g, Some(c));
      var ws := RegisterWrites(out.trace);
      && out.rc == [-10, -20, -30][m]
      && out.gain == g
      && |ws| == |RegisterWrites(t)| + 1 + 12 + m + 1
      && ws[|ws| - 1] == ([FIFO_CTRL_REG, SLEEP_THRESHOLD_REG, SLEEP_DURATION_REG][m],
                          [c.fifoReg, c.sleepThreshold, c.sleepDuration][m])
  {
    FailureAttribution(o, t, g, c, 12 + m);
    TailWrites(c);
    LastWrite(t, c, 12 + m, RegisterWrites(ConfigOutcome(o, t, g, Some(c)).trace));
  }

  /** The outcome when every checked write succeeds, as a whole. */
  lemma SuccessOutcome(o: Oracle, t: seq<Event>, g: int, c: Cfg)
    requires Who(o, |t|) == LIS2DH_ID
    requires SucceededUpTo(o, |t| + 4, 15)
    ensures ConfigOutcome(o, t, g, Some(c))
         == Outcome(0, t + IDENTITY_EVENTS + REBOOT_EVENTS + Planned(c, 15) + POLL_EVENTS, UpdatedGain(c.ctrlRegs[3], g))
  {
    assert |t + IDENTITY_EVENTS + REBOOT_EVENTS| == |t| + 4;
    assert FirstFailure(o, |t| + 4, 0).None? by {
      if FirstFailure(o, |t| + 4, 0).Some? { assert false; }
    }
  }

  /**
   * With the identity confirmed and every checked write succeeding, the
   * sequencer returns 0, sets the gain from the scale field of REG4, and the
   * bus sees exactly SuccessEvents: the identity read, the reboot, the fifteen
   * writes, then the polls of 0x31 and 0x35.
   */
  lemma Applied(o: Oracle, t: seq<Event>, g: int, c: Cfg)
    requires Who(o, |t|) == LIS2DH_ID
    requires SucceededUpTo(o, |t| + 4, 15)
    ensures ConfigOutcome(o, t, g, Some(c)) == Outcome(0, t + SuccessEvents(c), UpdatedGain(c.ctrlRegs[3], g))
    ensures RegisterWrites(ConfigOutcome(o, t, g, Some(c)).trace)
         == RegisterWrites(t) + [(REG5, REG5_REBOOT)] + CheckedWrites(c, 15)
  {
    SuccessOutcome(o, t, g, c);
    assert t + IDENTITY_EVENTS + REBOOT_EVENTS + Planned(c, 15) + POLL_EVENTS == t + SuccessEvents(c);
    WritesAfterIdentity(t, Planned(c, 15), POLL_EVENTS);
    assert RegisterWrites(Planned(c, 15)) + RegisterWrites(POLL_EVENTS) == CheckedWrites(c, 15) by {
      PlannedWrites(c, 15);
      ReadsWriteNothing();
    }
  }

  /** LIS2DH_G changes only on a fully successful run, and then only to the gain of REG4's scale field. */
  lemma GainOnlyOnSuccess(o: Oracle, t: seq<Event>, g: int, cfg: Option<Cfg>)
    ensures var out := ConfigOutcome(o, t, g, cfg);
      out.gain == g
      || (&& cfg.Some? && Who(o, |t|) == LIS2DH_ID
          && SucceededUpTo(o, |t| + 4, 15)
          && out.gain == UpdatedGain(cfg.value.ctrlRegs[3], g))
  {
    if cfg.Some? && Who(o, |t|) == LIS2DH_ID {
      var ff := FirstFailure(o, |t| + 4, 0);
      if ff.Some? {
        FailureAttribution(o, t, g, cfg.value, ff.value);
      } else {
        Applied(o, t, g, cfg.value);
      }
    }
  }

  /** The gain depends on REG4 only through its scale field. */
  lemma GainDependsOnScaleOnly(x: bv8, y: bv8, p: int, q: int)
    requires x & REG4_SCL_MSK == y & REG4_SCL_MSK
    ensures UpdatedGain(x, p) == UpdatedGain(y, q)
  {
  }

  /**
   * The first interrupt field's failure returns -(0 + 0) = 0, the success code,
   * although the gain is left alone and the interrupt sources are not polled.
   */
  lemma FirstInterruptFailureLooksLikeSuccess(o: Oracle, t: seq<Event>, g: int, c: Cfg)
    requires Who(o, |t|) == LIS2DH_ID
    requires SucceededUpTo(o, |t| + 4, 6)
    requires !o.ok(|t| + 16)
    ensures var out := ConfigOutcome(o, t, g, Some(c));
      && out.rc == 0
      && out.gain == g
      && out.trace == t + IDENTITY_EVENTS + REBOOT_EVENTS + Planned(c, 6) + WriteEvents(c, 6)
  {
    FailureOutcome(o, t, g, c, 6);
    CheckedWriteEvents(o, 0, c, 6);
  }

  /**
   * Error codes do not identify the failing step: a null configuration, a
   * failure of REG1 and of channel 0's threshold all give -1; channel 0's
   * duration gives REG2's -2; channel 1's fields give the codes of REG4,
   * REG5 and REG6 (checked writes 3..5).
   */
  lemma AmbiguousErrorCodes()
    ensures NULL_CFG == ERROR_CODES[0] == ERROR_CODES[7]
    ensures ERROR_CODES[1] == ERROR_CODES[8]
    ensures ERROR_CODES[3..6] == ERROR_CODES[9..12]
    ensures forall j :: 0 <= j < 12 ==> ERROR_CODES[j] !in {-10, -20, -30, ID_MISMATCH}
  {
  }

  /** The interrupt-source registers the sequencer polls are distinct and never among the registers it writes. */
  lemma SourceRegistersNotWritten()
    ensures INT1_SRC_REG != INT2_SRC_REG
    ensures INT1_SRC_REG !in WRITE_ORDER && INT2_SRC_REG !in WRITE_ORDER
    ensures REG5 != INT1_SRC_REG && REG5 != INT2_SRC_REG
  {
  }

  /**
   * Applying the same configuration twice on a bus that never fails and a
   * device that always identifies itself emits the same events twice and ends
   * with the same gain.
   */
  lemma ReapplyIsIdempotent(o: Oracle, t: seq<Event>, g: int, c: Cfg)
    requires forall k :: o.ok(k)
    requires forall k :: o.rx(k, 0) == LIS2DH_ID
    ensures var once := ConfigOutcome(o, t, g, Some(c));
      var twice := ConfigOutcome(o, once.trace, once.gain, Some(c));
      && once.rc == 0 && twice.rc == 0
      && twice.trace == once.trace + once.trace[|t|..]
      && twice.gain == once.gain
  {
    Applied(o, t, g, c);
    var once := ConfigOutcome(o, t, g, Some(c));
    Applied(o, once.trace, once.gain, c);
    assert once.trace[|t|..] == SuccessEvents(c);
  }

  /**
   * drv_lis2dh_default_cfg: 10 Hz on all three axes, AOI1 on INT1,
   * block-data-update on read at +/-8 g, FIFO bypass, sleep duration 30, and
   * an AND-combined X-low/Z-low event on channel 0; channel 1 is all zero. The
   * floating-point products of the source are taken as their truncations:
   * 0.1 / 0.062 gives sleep threshold 1 and 0.2 / 0.062 gives threshold 3.
   */
  function DefaultConfig(): (c: Cfg)
    ensures c.ctrlRegs[0] & 0xF0 == REG1_10HZ && c.ctrlRegs[0] & REG1_ALL_AXES == REG1_ALL_AXES
    ensures c.ctrlRegs[3] & REG4_SCL_MSK == REG4_SCL_8G && c.ctrlRegs[3] & REG4_BDU_READ != 0
    ensures c.fifoReg == FIFO_BYPASS
    ensures c.ints[0].reg & INT_AND_EVTS != 0 && c.ints[0].reg & 0x3F == INT_Z_LO | INT_X_LO
    ensures c.ints[1] == IntCfg(0, 0, 0)
  {
    Config(
      [REG1_10HZ | REG1_X_AXIS | REG1_Y_AXIS | REG1_Z_AXIS, 0, REG3_AOI1_INT1, REG4_BDU_READ | REG4_SCL_8G, 0, 0],
      FIFO_BYPASS,
      30,
      (100 / 62) as bv8,
      [IntCfg(INT_AND_EVTS | INT_Z_LO | INT_X_LO, (200 / 62) as bv8, 1), IntCfg(0, 0, 0)])
  }

  /** The register writes the default configuration produces, reboot request first. */
  const DEFAULT_WRITES: seq<(bv8, bv8)> := [
    (0x24, 0x80),
    (0x20, 0x27), (0x21, 0x00), (0x22, 0x40), (0x23, 0xA0), (0x24, 0x00), (0x25, 0x00),
    (0x30, 0x91), (0x32, 0x03), (0x33, 0x01), (0x34, 0x00), (0x36, 0x00), (0x37, 0x00),
    (0x2E, 0x00), (0x3E, 0x01), (0x3F, 0x1E)]

  /** The fifteen values the default configuration writes. */
  lemma DefaultValues()
    ensures WriteValues(DefaultConfig())
         == [0x27, 0x00, 0x40, 0xA0, 0x00, 0x00, 0x91, 0x03, 0x01, 0x00, 0x00, 0x00, 0x00, 0x01, 0x1E]
  {
    var c := DefaultConfig();
    assert c.ctrlRegs == [0x27, 0x00, 0x40, 0xA0, 0x00, 0x00];
    assert c.ints[0].Bytes() == [0x91, 0x03, 0x01];
  }

  lemma DefaultWrites(c: Cfg)
    requires WriteValues(c) == [0x27, 0x00, 0x40, 0xA0, 0x00, 0x00, 0x91, 0x03, 0x01, 0x00, 0x00, 0x00, 0x00, 0x01, 0x1E]
    ensures [(REG5, REG5_REBOOT)] + CheckedWrites(c, 15) == DEFAULT_WRITES
  {
    var ws := CheckedWrites(c, 15);
    assert forall j :: 0 <= j < 15 ==> ws[j] == (WRITE_ORDER[j], WriteValues(c)[j]);
  }

  /**
   * Any configuration with the default's fifteen register values, on a bus
   * that never fails and a device that identifies itself: return 0, gain 16,
   * and the sixteen register writes of DEFAULT_WRITES in that order.
   */
  lemma DefaultValuesApplied(o: Oracle, t: seq<Event>, g: int, c: Cfg)
    requires WriteValues(c) == [0x27, 0x00, 0x40, 0xA0, 0x00, 0x00, 0x91, 0x03, 0x01, 0x00, 0x00, 0x00, 0x00, 0x01, 0x1E]
    requires forall k :: o.ok(k)
    requires o.rx(|t| + 1, 0) == LIS2DH_ID
    ensures var out := ConfigOutcome(o, t, g, Some(c));
      && out.rc == 0
      && out.gain == 16
      && RegisterWrites(out.trace) == RegisterWrites(t) + DEFAULT_WRITES
  {
    DefaultWrites(c);
    assert c.ctrlRegs[3] == WriteValues(c)[3] == 0xA0;
    assert UpdatedGain(c.ctrlRegs[3], g) == 16 by {
      GainDependsOnScaleOnly(0xA0, REG4_SCL_8G, g, g);
      GainTable(g);
    }
    Applied(o, t, g, c);
    var ws := CheckedWrites(c, 15);
    assert RegisterWrites(t) + [(REG5, REG5_REBOOT)] + ws == RegisterWrites(t) + ([(REG5, REG5_REBOOT)] + ws);
  }

  /** drv_lis2dh_default_cfg applied on a bus that never fails, to a device that identifies itself. */
  lemma DefaultConfigApplied(o: Oracle, t: seq<Event>, g: int)
    requires forall k :: o.ok(k)
    requires o.rx(|t| + 1, 0) == LIS2DH_ID
    ensures var out := ConfigOutcome(o, t, g, Some(DefaultConfig()));
      && out.rc == 0
      && out.gain == 16
      && RegisterWrites(out.trace) == RegisterWrites(t) + DEFAULT_WRITES
  {
    DefaultValues();
    DefaultValuesApplied(o, t, g, DefaultConfig());
  }
}
