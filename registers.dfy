/**
 * Register map and configuration layout of the ST LIS2DH accelerometer
 * (src/drv_lis2dh.h). Addresses and field codes are bytes (uint8_t), so they
 * are bv8 here; the C structs become datatypes whose fixed array lengths are
 * kept by the subset type Cfg.
 */
module Registers {

  // Bus address byte of the device, direction bit (bit 0) clear; a read ORs in the read bit
  const LIS2DH_ADDR: bv8 := 0x30

  // Identity register and the value the sequencer expects in it
  const WHO_AM_I: bv8 := 0x0F
  const LIS2DH_ID: bv8 := 0x33

  // The six control registers
  const REG1: bv8 := 0x20
  const REG2: bv8 := 0x21
  const REG3: bv8 := 0x22
  const REG4: bv8 := 0x23
  const REG5: bv8 := 0x24
  const REG6: bv8 := 0x25

  // Field codes used by the default configuration
  const REG1_10HZ: bv8 := 0x20
  const REG1_Z_AXIS: bv8 := 0x04
  const REG1_Y_AXIS: bv8 := 0x02
  const REG1_X_AXIS: bv8 := 0x01
  const REG1_ALL_AXES: bv8 := 0x07
  const REG3_AOI1_INT1: bv8 := 0x40
  const REG4_BDU_READ: bv8 := 0x80

  // Full-scale selection: a 2-bit field of REG4
  const REG4_SCL_2G: bv8 := 0x00
  const REG4_SCL_4G: bv8 := 0x10
  const REG4_SCL_8G: bv8 := 0x20
  const REG4_SCL_16G: bv8 := 0x30
  const REG4_SCL_MSK: bv8 := 0x30

  const REG5_REBOOT: bv8 := 0x80

  const FIFO_CTRL_REG: bv8 := 0x2E
  const FIFO_BYPASS: bv8 := 0x00

  // Interrupt channel 1 and channel 2 register blocks
  const INT1_CFG_REG: bv8 := 0x30
  const INT1_SRC_REG: bv8 := 0x31
  const INT1_THRESHOLD_REG: bv8 := 0x32
  const INT1_DURATION_REG: bv8 := 0x33
  const INT2_CFG_REG: bv8 := 0x34
  const INT2_SRC_REG: bv8 := 0x35
  const INT2_THRESHOLD_REG: bv8 := 0x36
  const INT2_DURATION_REG: bv8 := 0x37

  const SLEEP_THRESHOLD_REG: bv8 := 0x3E
  const SLEEP_DURATION_REG: bv8 := 0x3F

  // Event-mask codes of the interrupt configuration registers
  const INT_AND_EVTS: bv8 := 0x80
  const INT_Z_LO: bv8 := 0x10
  const INT_X_LO: bv8 := 0x01

  // Low bytes of the three output axes; each high byte follows its low byte
  const OUT_X_L: bv8 := 0x28
  const OUT_Y_L: bv8 := 0x2A
  const OUT_Z_L: bv8 := 0x2C

  /** lis2dh_int_cfg_t: one interrupt channel's event mask, threshold and duration. */
  datatype IntCfg = IntCfg(reg: bv8, threshold: bv8, duration: bv8)
  {
    /** The struct seen as its three bytes, in declaration order (the cast to uint8_t*). */
    function Bytes(): (b: seq<bv8>)
      ensures |b| == 3
    {
      [reg, threshold, duration]
    }
  }

  /** lis2dh_cfg_t, field by field in declaration order. */
  datatype Config = Config(
    ctrlRegs: seq<bv8>,
    fifoReg: bv8,
    sleepDuration: bv8,
    sleepThreshold: bv8,
    ints: seq<IntCfg>)

  /** The C struct's arrays have fixed lengths: six control bytes, two interrupt channels. */
  type Cfg = c: Config | |c.ctrlRegs| == 6 && |c.ints| == 2
    witness Config([0, 0, 0, 0, 0, 0], 0, 0, 0, [IntCfg(0, 0, 0), IntCfg(0, 0, 0)])

  /**
   * vec3_t with VEC_16 defined: the three int16_t axes x, y, z at indices
   * 0, 1, 2, each held as the 16 bits of its two's-complement storage
   * (Telemetry.Signed gives the number).
   */
  type Vec3 = s: seq<bv16> | |s| == 3 witness [0, 0, 0]

  /** The address of control register i (0-based): the block REG1..REG6 is contiguous. */
  function ControlRegister(i: nat): (a: bv8)
    requires i < 6
    ensures a == [REG1, REG2, REG3, REG4, REG5, REG6][i]
  {
    REG1 + i as bv8
  }

  /** Each register of channel 2 sits 4 above its channel-1 counterpart. */
  lemma InterruptStride()
    ensures INT2_CFG_REG == INT1_CFG_REG + 4
    ensures INT2_SRC_REG == INT1_SRC_REG + 4
    ensures INT2_THRESHOLD_REG == INT1_THRESHOLD_REG + 4
    ensures INT2_DURATION_REG == INT1_DURATION_REG + 4
  {
  }

  /** The scale mask is the union of the four scale codes, and masking any byte yields one of them. */
  lemma ScaleFieldExhaustive(x: bv8)
    ensures REG4_SCL_MSK == REG4_SCL_2G | REG4_SCL_4G | REG4_SCL_8G | REG4_SCL_16G
    ensures x & REG4_SCL_MSK in {REG4_SCL_2G, REG4_SCL_4G, REG4_SCL_8G, REG4_SCL_16G}
  {
  }

  /** Byte i of lis2dh_int_cfg_t is its i-th field. */
  lemma IntCfgLayout(ic: IntCfg)
    ensures ic.Bytes()[0] == ic.reg
    ensures ic.Bytes()[1] == ic.threshold
    ensures ic.Bytes()[2] == ic.duration
  {
  }

  /** Six bytes read from OUT_X_L cover the low and high byte of all three axes. */
  lemma OutputBlock()
    ensures OUT_Y_L == OUT_X_L + 2 && OUT_Z_L == OUT_X_L + 4
    ensures {OUT_X_L, OUT_X_L + 1, OUT_X_L + 2, OUT_X_L + 3, OUT_X_L + 4, OUT_X_L + 5}
         == {OUT_X_L, OUT_X_L + 1, OUT_Y_L, OUT_Y_L + 1, OUT_Z_L, OUT_Z_L + 1}
  {
  }
}
