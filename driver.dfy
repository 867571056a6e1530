/**
 * The driver of src/drv_lis2dh.c as an object: the bus it talks to, the log
 * of every transfer it has made on that bus, and the global LIS2DH_G. Each
 * method follows its C function step by step and is proved to produce the
 * outcome that modules Protocol, Sequencer and Telemetry define.
 */
module Driver {
  import opened Wrappers
  import opened Registers
  import opened Protocol
  import opened Sequencer
  import opened Telemetry

  class Lis2dh {
    /** The two-wire bus: which transfers succeed and what the device answers. */
    const bus: Oracle
    /** Every transfer and busy wait issued so far, in order. */
    var trace: seq<Event>
    /** LIS2DH_G: the reading that corresponds to 1 g at the configured scale. */
    var gain: int

    constructor (bus: Oracle)
      ensures this.bus == bus && trace == [] && gain == 0
    {
      this.bus := bus;
      trace := [];
      gain := 0;
    }

    /** drv_lis2dh_read_reg_range: writes value to register reg; true when the transfer fails. */
    method WriteRegister(reg: bv8, value: bv8) returns (failed: bool)
      modifies this
      ensures trace == old(trace) + WriteReg(bus, |old(trace)|, reg, value).events
      ensures failed <==> WriteReg(bus, |old(trace)|, reg, value).status != 0
      ensures gain == old(gain)
    {
      var w := WriteReg(bus, |trace|, reg, value);
      trace := trace + w.events;
      failed := w.status != 0;
    }

    /** read_reg_range: reads len registers from start into a buffer that held buf. */
    method ReadRegisters(start: bv8, buf: seq<bv8>, len: nat) returns (status: int, data: seq<bv8>)
      requires |buf| == len
      modifies this
      ensures var r := ReadRegRange(bus, |old(trace)|, start, buf, len);
        && trace == old(trace) + r.events
        && status == r.status
        && data == r.data
      ensures gain == old(gain)
    {
      var addr := start | 0x80;
      var at := |trace|;
      trace := trace + [Send(LIS2DH_ADDR, [addr], false)];
      var good := bus.ok(at);
      trace := trace + [Receive(LIS2DH_ADDR, len, true)];
      data := buf;
      if bus.ok(at + 1) {
        data := Received(bus, at + 1, len);
      }
      good := good && bus.ok(at + 1);
      status := if good then 0 else 1;
    }

    /** drv_lis2dh_int_src: the latched source byte of interrupt channel i, 0 when the read fails. */
    method IntSrc(i: nat) returns (val: bv8)
      requires i < 2
      modifies this
      ensures var p := Protocol.IntSrc(bus, |old(trace)|, i);
        trace == old(trace) + p.events && val == p.value
      ensures gain == old(gain)
    {
      var regs := [INT1_SRC_REG, INT2_SRC_REG];
      var status, b := ReadRegisters(regs[i], [0], 1);
      val := b[0];
    }

    /**
     * drv_lis2dh_cfg: None stands for a null pointer. The return code, the
     * bus trace and LIS2DH_G afterwards are exactly ConfigOutcome's. The
     * three groups of checked writes are the methods below; each hands back
     * the code of the write that failed, which is returned at once as the C
     * code's early returns do.
     */
    method Configure(cfg: Option<Cfg>) returns (rc: int)
      modifies this
      ensures Outcome(rc, trace, gain) == ConfigOutcome(bus, old(trace), old(gain), cfg)
    {
      if cfg.None? {
        return NULL_CFG;
      }
      var c := cfg.value;
      ghost var t := trace;

      var status, who := ReadRegisters(WHO_AM_I, [0], 1);
      IdentityEvents(bus, |t|);
      if who[0] != LIS2DH_ID {
        return ID_MISMATCH;
      }

      var ignored := WriteRegister(REG5, REG5_REBOOT);
      trace := trace + [Delay(5)];
      ghost var pre := trace;
      assert pre == t + IDENTITY_EVENTS + REBOOT_EVENTS && |pre| == |t| + 4;

      var failure, k := WriteControlRegisters(c, pre);
      if failure.Some? {
        FailedRun(bus, t, gain, c, k, trace);
        return failure.value;
      }
      failure, k := WriteInterrupts(c, pre);
      if failure.Some? {
        FailedRun(bus, t, gain, c, k, trace);
        return failure.value;
      }
      failure, k := WriteTail(c, pre);
      if failure.Some? {
        FailedRun(bus, t, gain, c, k, trace);
        return failure.value;
      }
      CompletedRun(bus, t, gain, c, trace);
      rc := Finish(c);
    }

    /** The end of a run whose writes all succeeded: LIS2DH_G from the scale field, then both latches cleared. */
    method Finish(c: Cfg) returns (rc: int)
      modifies this
      ensures rc == 0 && gain == UpdatedGain(c.ctrlRegs[3], old(gain))
      ensures trace == old(trace) + POLL_EVENTS
    {
      match GainCase(c.ctrlRegs[3] & REG4_SCL_MSK) {
        case Some(g) => gain := g;
        case None =>
      }

      PollEvents(bus, |trace|);
      var cleared := IntSrc(0);
      cleared := IntSrc(1);
      return 0;
    }

    /** Writes the six control registers REG1..REG6, with 1 ms after each. */
    method WriteControlRegisters(c: Cfg, ghost pre: seq<Event>) returns (failure: Option<int>, ghost k: nat)
      requires trace == pre
      modifies this
      ensures gain == old(gain)
      ensures failure.None? ==> trace == pre + Planned(c, 6) && SucceededUpTo(bus, |pre|, 6)
      ensures failure.Some? ==> k < 6 && FailedAt(bus, pre, c, k, trace) && failure.value == ERROR_CODES[k]
    {
      for i := 0 to 6
        invariant trace == pre + Planned(c, i)
        invariant gain == old(gain)
        invariant SucceededUpTo(bus, |pre|, i)
      {
        ControlWrite(c, i);
        CheckedWriteStep(bus, pre, c, i, trace);
        var failed := WriteRegister(REG1 + i as bv8, c.ctrlRegs[i]);
        if failed {
          ControlErrorCode(i);
          return Some(-(i + 1)), i;
        }
        trace := trace + [Delay(1)];
      }
      return None, 0;
    }

    /** Writes the configuration, threshold and duration registers of interrupt channels 0 and 1. */
    method WriteInterrupts(c: Cfg, ghost pre: seq<Event>) returns (failure: Option<int>, ghost k: nat)
      requires trace == pre + Planned(c, 6) && SucceededUpTo(bus, |pre|, 6)
      modifies this
      ensures gain == old(gain)
      ensures failure.None? ==> trace == pre + Planned(c, 12) && SucceededUpTo(bus, |pre|, 12)
      ensures failure.Some? ==> 6 <= k < 12 && FailedAt(bus, pre, c, k, trace) && failure.value == ERROR_CODES[k]
    {
      k := 6;
      for ch := 0 to 2
        invariant k == 6 + 3 * ch
        invariant trace == pre + Planned(c, k)
        invariant gain == old(gain)
        invariant SucceededUpTo(bus, |pre|, k)
      {
        var base := ch * 4;
        for f := 0 to 3
          invariant k == 6 + 3 * ch + f
          invariant trace == pre + Planned(c, k)
          invariant gain == old(gain)
          invariant SucceededUpTo(bus, |pre|, k)
        {
          var reg := InterruptRegister(ch, f);
          var val := c.ints[ch].Bytes()[f];
          InterruptValue(c, ch, f);
          CheckedWriteStep(bus, pre, c, k, trace);
          var failed := WriteRegister(reg, val);
          if failed {
            InterruptErrorCode(ch, f);
            return Some(-(f + base)), k;
          }
          k := k + 1;
        }
      }
      return None, k;
    }

    /** Writes the FIFO control, sleep threshold and sleep duration registers. */
    method WriteTail(c: Cfg, ghost pre: seq<Event>) returns (failure: Option<int>, ghost k: nat)
      requires trace == pre + Planned(c, 12) && SucceededUpTo(bus, |pre|, 12)
      modifies this
      ensures gain == old(gain)
      ensures failure.None? ==> trace == pre + Planned(c, 15) && SucceededUpTo(bus, |pre|, 15)
      ensures failure.Some? ==> 12 <= k < 15 && FailedAt(bus, pre, c, k, trace) && failure.value == ERROR_CODES[k]
    {
      TailWrites(c);
      CheckedWriteStep(bus, pre, c, 12, trace);
      var failed := WriteRegister(FIFO_CTRL_REG, c.fifoReg);
      if failed {
        return Some(-10), 12;
      }
      CheckedWriteStep(bus, pre, c, 13, trace);
      failed := WriteRegister(SLEEP_THRESHOLD_REG, c.sleepThreshold);
      if failed {
        return Some(-20), 13;
      }
      CheckedWriteStep(bus, pre, c, 14, trace);
      failed := WriteRegister(SLEEP_DURATION_REG, c.sleepDuration);
      if failed {
        return Some(-30), 14;
      }
      return None, 15;
    }

    /**
     * drv_lis2dh_get_acc, 16-bit build: reads samples samples into v[0..samples)
     * and, as written, shifts v[0] after each read. Always returns 0.
     */
    method GetAcc(v: array<Vec3>, samples: nat) returns (rc: int)
      requires samples <= v.Length
      modifies this, v
      ensures rc == 0 && gain == old(gain)
      ensures trace == old(trace) + AccEvents(samples)
      ensures v[..] == AccAfter(bus, |old(trace)|, old(v[..]), samples)
    {
      ghost var at := |trace|;
      ghost var prior := v[..];
      for i := 0 to samples
        invariant trace == old(trace) + AccEvents(i)
        invariant gain == old(gain)
        invariant v[..] == AccAfter(bus, at, prior, i)
      {
        ghost var cur := v[..];
        ghost var before := trace;
        var status, data := ReadRegisters(OUT_X_L, Encode(v[i]), 6);
        assert trace == before + [Send(LIS2DH_ADDR, [OUT_X_L | 0x80], false), Receive(LIS2DH_ADDR, 6, true)];
        assert |before| + 1 == SamplePos(at, i);
        AccStep(bus, at, prior, i, cur, data);
        ghost var next: seq<Vec3> := cur[i := Decode(data)];
        v[i] := Decode(data);
        assert v[..] == next;
        v[0] := Shr8(v[0]);
        assert v[..] == next[0 := Shr8(next[0])];
      }
      return 0;
    }
 
    /**
     * The reader as evidently intended: each sample is shifted in its own
     * slot, so every sample read holds its signed high bytes.
     */
    method GetAccCorrected(v: array<Vec3>, samples: nat) returns (rc: int)
      requires samples <= v.Length
      modifies this, v
      ensures rc == 0 && gain == old(gain)
      ensures trace == old(trace) + AccEvents(samples)
      ensures v[..] == IntendedSamples(bus, |old(trace)|, old(v[..]), samples)
    {
      ghost var at := |trace|;
      ghost var prior := v[..];
      for i := 0 to samples
        invariant trace == old(trace) + AccEvents(i)
        invariant gain == old(gain)
        invariant v[..] == IntendedSamples(bus, at, prior, i)
      {
        ghost var cur := v[..];
        ghost var before := trace;
        var status, data := ReadRegisters(OUT_X_L, Encode(v[i]), 6);
        assert trace == before + [Send(LIS2DH_ADDR, [OUT_X_L | 0x80], false), Receive(LIS2DH_ADDR, 6, true)];
        assert |before| + 1 == SamplePos(at, i);
        IntendedStep(bus, at, prior, i, cur, data);
        v[i] := Shr8(Decode(data));
        assert v[..] == cur[i := Shr8(Decode(data))];
      }
      return 0;
    }
  }
}
