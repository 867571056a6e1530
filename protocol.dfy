/**
 * The register protocol primitives of src/drv_lis2dh.c built on the two-wire
 * bus. The bus itself (twi_master_transfer) is not modelled: every transfer is
 * logged as an Event in a trace, and an Oracle decides, by the position the
 * transfer takes in that trace, whether it succeeds and which bytes a read
 * delivers. Each primitive is a function of the oracle and of that position,
 * returning its C result together with the events it adds to the trace.
 */
module Protocol {
  import opened Registers

  /** One bus operation: a write of bytes, a read of len bytes, or a busy wait. */
  datatype Event =
    | Send(dev: bv8, bytes: seq<bv8>, stop: bool)
    | Receive(dev: bv8, len: nat, stop: bool)
    | Delay(ms: nat)

  /**
   * ok(k): whether the transfer logged at trace position k succeeds.
   * rx(k, j): byte j delivered by a successful read logged at position k.
   */
  datatype Oracle = Oracle(ok: nat -> bool, rx: (nat, nat) -> bv8)

  /** The bytes a successful read of len bytes at position at delivers. */
  function Received(o: Oracle, at: nat, len: nat): (b: seq<bv8>)
    ensures |b| == len
    ensures forall j :: 0 <= j < len ==> b[j] == o.rx(at, j)
  {
    seq(len, (j: nat) => o.rx(at, j))
  }

  /** The outcome of a register write: the C return value and the logged events. */
  datatype Written = Written(status: int, events: seq<Event>)

  /** The outcome of a register read: the C return value, the destination buffer afterwards, the logged events. */
  datatype ReadBack = ReadBack(status: int, data: seq<bv8>, events: seq<Event>)

  /** The outcome of an interrupt-source poll: the returned byte and the logged events. */
  datatype Polled = Polled(value: bv8, events: seq<Event>)

  /**
   * Writes value to register reg (the static drv_lis2dh_read_reg_range of the
   * C file, which despite its name writes): one 2-byte transfer {reg, value}
   * ended by a stop condition; the result is nonzero exactly when it fails.
   */
  function WriteReg(o: Oracle, at: nat, reg: bv8, value: bv8): (w: Written)
    ensures |w.events| == 1
    ensures w.events[0].Send? && w.events[0].dev == LIS2DH_ADDR && w.events[0].stop
    ensures w.events[0].bytes == [reg, value]
    ensures w.status == 0 || w.status == 1
    ensures w.status != 0 <==> !o.ok(at)
  {
    Written(if o.ok(at) then 0 else 1, [Send(LIS2DH_ADDR, [reg, value], true)])
  }

  /**
   * Reads len registers starting at start: the address with its top
   * (auto-increment) bit set is sent without a stop, then len bytes are read
   * and the bus released. Both transfers are always issued (the C code combines
   * their results with a non-short-circuit &=). The destination buffer takes the
   * received bytes exactly when the data transfer succeeds and is otherwise left
   * as it was; the result is nonzero when either transfer fails.
   */
  function ReadRegRange(o: Oracle, at: nat, start: bv8, buf: seq<bv8>, len: nat): (r: ReadBack)
    requires |buf| == len
    ensures |r.events| == 2
    ensures r.events[0] == Send(LIS2DH_ADDR, [start | 0x80], false)
    ensures r.events[1] == Receive(LIS2DH_ADDR, len, true)
    ensures r.status == 0 || r.status == 1
    ensures r.status == 0 <==> o.ok(at) && o.ok(at + 1)
    ensures |r.data| == len
    ensures o.ok(at + 1) ==> r.data == Received(o, at + 1, len)
    ensures !o.ok(at + 1) ==> r.data == buf
  {
    var addr := start | 0x80;
    var good := o.ok(at) && o.ok(at + 1);
    ReadBack(
      if good then 0 else 1,
      if o.ok(at + 1) then Received(o, at + 1, len) else buf,
      [Send(LIS2DH_ADDR, [addr], false), Receive(LIS2DH_ADDR, len, true)])
  }

  /** The address byte of a range read keeps the register number and sets the read/auto-increment bit. */
  lemma AutoIncrementAddress(start: bv8)
    requires start < 0x80
    ensures (start | 0x80) & 0x7F == start
    ensures (start | 0x80) & 0x80 == 0x80
  {
  }

  /** The latched interrupt-source registers of channel 0 and channel 1. */
  const INT_SRC_REGS: seq<bv8> := [INT1_SRC_REG, INT2_SRC_REG]

  /**
   * drv_lis2dh_int_src: one single-byte read of channel i's source register
   * into a byte initialised to 0, which is returned. A failed data transfer
   * therefore reads as 0 ("nothing latched"); a failed address transfer is
   * ignored.
   */
  function IntSrc(o: Oracle, at: nat, i: nat): (p: Polled)
    requires i < 2
    ensures p.events == [Send(LIS2DH_ADDR, [[0xB1, 0xB5][i]], false), Receive(LIS2DH_ADDR, 1, true)]
    ensures !o.ok(at + 1) ==> p.value == 0
    ensures o.ok(at + 1) ==> p.value == o.rx(at + 1, 0)
  {
    var r := ReadRegRange(o, at, INT_SRC_REGS[i], [0], 1);
    Polled(r.data[0], r.events)
  }

  /** The two channels poll two different registers. */
  lemma IntSrcDistinct(o: Oracle, at: nat, at': nat)
    ensures IntSrc(o, at, 0).events[0] != IntSrc(o, at', 1).events[0]
  {
  }

  /** The (register, value) pair a two-byte, stop-terminated send writes, if the event is one. */
  function WriteOf(e: Event): seq<(bv8, bv8)>
  {
    if e.Send? && e.stop && |e.bytes| == 2 then [(e.bytes[0], e.bytes[1])] else []
  }

  /** The register writes among the first n events of es, in order. */
  function WritesUpTo(es: seq<Event>, n: nat): seq<(bv8, bv8)>
    requires n <= |es|
  {
    if n == 0 then [] else WritesUpTo(es, n - 1) + WriteOf(es[n - 1])
  }

  /** The register writes of a trace, in order: what a recording bus mock would list. */
  function RegisterWrites(es: seq<Event>): seq<(bv8, bv8)>
  {
    WritesUpTo(es, |es|)
  }

  lemma {:induction false} WritesUpToPrefix(a: seq<Event>, b: seq<Event>, n: nat)
    requires n <= |a|
    ensures WritesUpTo(a + b, n) == WritesUpTo(a, n)
  {
    if n > 0 {
      WritesUpToPrefix(a, b, n - 1);
    }
  }

  lemma {:induction false} WritesUpToSuffix(a: seq<Event>, b: seq<Event>, m: nat)
    requires m <= |b|
    ensures WritesUpTo(a + b, |a| + m) == WritesUpTo(a, |a|) + WritesUpTo(b, m)
  {
    if m == 0 {
      WritesUpToPrefix(a, b, |a|);
    } else {
      WritesUpToSuffix(a, b, m - 1);
      var head, rest := WritesUpTo(a, |a|), WritesUpTo(b, m - 1);
      var last := WriteOf(b[m - 1]);
      assert (a + b)[|a| + m - 1] == b[m - 1];
      assert WritesUpTo(a + b, |a| + m) == (head + rest) + last;
      assert WritesUpTo(b, m) == rest + last;
      assert (head + rest) + last == head + (rest + last);
    }
  }

  /** The writes of a concatenation are the writes of its parts, in order. */
  lemma RegisterWritesAppend(a: seq<Event>, b: seq<Event>)
    ensures RegisterWrites(a + b) == RegisterWrites(a) + RegisterWrites(b)
  {
    WritesUpToSuffix(a, b, |b|);
  }
}
