/** The sensor settings of the PMW3610 driver: range checks, the conversion
    of each setting to its register code, and the register writes that set
    it, as plans for the transport's abort-on-first-error engine. */
module Attributes {
  import opened Base
  import opened Transport

  // Registers
  const REG_MOTION: byte := 0x02
  const REG_DELTA_XY_H: byte := 0x05
  const REG_PERFORMANCE: byte := 0x11
  const REG_RUN_DOWNSHIFT: byte := 0x1B
  const REG_REST1_PERIOD: byte := 0x1C
  const REG_REST1_DOWNSHIFT: byte := 0x1D
  const REG_REST2_PERIOD: byte := 0x1E
  const REG_REST2_DOWNSHIFT: byte := 0x1F
  const REG_REST3_PERIOD: byte := 0x20
  const REG_OBSERVATION: byte := 0x2D
  const REG_POWER_UP_RESET: byte := 0x3A
  const REG_SPI_PAGE0: byte := 0x7F
  /** The resolution register as the driver names it: page 1 register 5
      with the page written into bit 7. */
  const REG_RES_STEP: byte := 0x85
  /** The resolution register's number on page 1. */
  const RES_STEP_ON_PAGE1: byte := 0x05
  const SPI_PAGE1_SELECT: byte := 0xFF
  const SPI_PAGE0_SELECT: byte := 0x00
  const POWERUP_CMD_RESET: byte := 0x5A
  /** Performance register value: normal run mode, 4 ms rates. */
  const PERFORMANCE_VALUE: byte := 0x0D

  const MIN_CPI: int := 200
  const MAX_CPI: int := 3200
  const MIN_SAMPLE_TIME: int := 10
  const MAX_SAMPLE_TIME: int := 2550
  /** Unit of the run-mode downshift time: 8 times the fixed 4 ms rate. */
  const RUN_DOWNSHIFT_UNIT: int := 32

  /** The resolution code for a CPI value: one step per 200 CPI. */
  function CpiCode(cpi: uint32): (r: Option<byte>)
    ensures r.Some? <==> MIN_CPI <= cpi <= MAX_CPI
    ensures r.Some? ==> 1 <= r.value <= 16 && r.value * 200 <= cpi < r.value * 200 + 200
  {
    if cpi > MAX_CPI || cpi < MIN_CPI then None else Some(cpi / 200)
  }

  /** The sample-period code for a time in ms: one step per 10 ms. */
  function SampleCode(time: uint32): (r: Option<byte>)
    ensures r.Some? <==> MIN_SAMPLE_TIME <= time <= MAX_SAMPLE_TIME
    ensures r.Some? ==> 1 <= r.value <= 255 && r.value * 10 <= time < r.value * 10 + 10
  {
    if time > MAX_SAMPLE_TIME || time < MIN_SAMPLE_TIME then None else Some(time / MIN_SAMPLE_TIME)
  }

  /** The configured rest-mode sample times the downshift units depend on. */
  datatype RestTimes = RestTimes(rest1: int, rest2: int)

  /** The build-time constraint of `set_downshift_time`: each unit is positive
      and 255 units do not overflow a C `int`. */
  predicate RestTimesOk(rt: RestTimes)
  {
    1 <= rt.rest1 && 255 * 16 * rt.rest1 < 0x8000_0000
    && 1 <= rt.rest2 && 255 * 128 * rt.rest2 < 0x8000_0000
  }

  /** The time one step of a downshift register stands for, or None for a
      register that is not a downshift register. */
  function DownshiftUnit(reg: byte, rt: RestTimes): (u: Option<int>)
    requires RestTimesOk(rt)
    ensures u.Some? <==> reg in {REG_RUN_DOWNSHIFT, REG_REST1_DOWNSHIFT, REG_REST2_DOWNSHIFT}
    ensures u.Some? ==> u.value >= 1 && 255 * u.value < 0x8000_0000
    ensures reg == REG_RUN_DOWNSHIFT ==> u == Some(32)
    ensures reg == REG_REST1_DOWNSHIFT ==> u == Some(16 * rt.rest1)
    ensures reg == REG_REST2_DOWNSHIFT ==> u == Some(128 * rt.rest2)
  {
    if reg == REG_RUN_DOWNSHIFT then Some(RUN_DOWNSHIFT_UNIT)
    else if reg == REG_REST1_DOWNSHIFT then Some(16 * rt.rest1)
    else if reg == REG_REST2_DOWNSHIFT then Some(128 * rt.rest2)
    else None
  }

  /** The downshift code for a time: the number of whole units, which must
      be between 1 and 255. */
  function DownshiftCode(unit: int, time: uint32): (r: Option<byte>)
    requires unit >= 1 && 255 * unit < 0x8000_0000
    ensures r.Some? <==> unit <= time <= 255 * unit
    ensures r.Some? ==> 1 <= r.value <= 255 && r.value * unit <= time < r.value * unit + unit
  {
    if time > 255 * unit || time < unit then None
    else
      var q := time / unit;
      DivBounds(time, unit);
      Some(q)
  }

  /** Bounds of the quotient of a time in [unit, 255 * unit]. */
  lemma DivBounds(time: int, unit: int)
    requires unit >= 1 && unit <= time <= 255 * unit
    ensures 1 <= time / unit <= 255
    ensures (time / unit) * unit <= time < (time / unit) * unit + unit
  {
    var q, r := time / unit, time % unit;
    assert time == q * unit + r && 0 <= r < unit;
  }

  // ---------------------------------------------------------------------
  // Plans

  /** The register writes of `set_cpi` with the resolution register named by
      its page-1 number, which `_reg_write` accepts. */
  function CpiAddrs(): seq<byte>
  {
    [REG_SPI_PAGE0, RES_STEP_ON_PAGE1, REG_SPI_PAGE0]
  }

  /** The register writes of `set_cpi` as the driver lists them. */
  function CpiAddrsAsWritten(): seq<byte>
  {
    [REG_SPI_PAGE0, REG_RES_STEP, REG_SPI_PAGE0]
  }

  /** Select page 1, write the code, select page 0 again. */
  function CpiValues(code: byte): seq<byte>
  {
    [SPI_PAGE1_SELECT, code, SPI_PAGE0_SELECT]
  }

  /** `set_cpi`: reject an out-of-range value, else one gated burst write. */
  function CpiPlan(cpi: uint32): seq<Step>
  {
    match CpiCode(cpi)
    case None => [Reject(-EINVAL)]
    case Some(code) => Gated(CpiAddrs(), CpiValues(code))
  }

  /** `set_sample_time` on register `reg`. */
  function SamplePlan(reg: byte, time: uint32): seq<Step>
  {
    match SampleCode(time)
    case None => [Reject(-EINVAL)]
    case Some(code) => Gated([reg], [code])
  }

  /** `set_downshift_time` on register `reg`: an unknown register is refused
      before the range is checked. */
  function DownshiftPlan(reg: byte, time: uint32, rt: RestTimes): seq<Step>
    requires RestTimesOk(rt)
  {
    match DownshiftUnit(reg, rt)
    case None => [Reject(-ENOTSUP)]
    case Some(unit) =>
      match DownshiftCode(unit, time)
      case None => [Reject(-EINVAL)]
      case Some(code) => Gated([reg], [code])
  }

  /** A rejection returns its error and touches nothing. */
  lemma RunReject(o: Oracle, k: nat, e: Errno)
    ensures Run(o, k, [Reject(e)]) == Outcome([], e)
  {
    assert [Reject(e)][0] == Reject(e);
  }

  /** `set_cpi` refuses a value outside [200, 3200] with -EINVAL before any
      bus access, and otherwise sends exactly: clock on, page 1, the code,
      page 0, clock off. */
  lemma CpiPlanEffect(o: Oracle, k: nat, cpi: uint32)
    ensures cpi < MIN_CPI || cpi > MAX_CPI ==> Run(o, k, CpiPlan(cpi)) == Outcome([], -EINVAL)
    ensures MIN_CPI <= cpi <= MAX_CPI ==>
              (Payloads(CpiPlan(cpi))
               == [[0xC1, 0xBA], [0xFF, 0xFF], [0x85, cpi / 200], [0xFF, 0x00], [0xC1, 0xB5]])
  {
    if cpi < MIN_CPI || cpi > MAX_CPI {
      RunReject(o, k, -EINVAL);
    } else {
      var code := cpi / 200;
      GatedPayloads(CpiAddrs(), CpiValues(code));
      var mid := seq(3, i requires 0 <= i < 3 => [WireAddress(CpiAddrs()[i]), CpiValues(code)[i]]);
      assert mid == [[0xFF, 0xFF], [0x85, code], [0xFF, 0x00]];
    }
  }

  /** The driver's list trips the address check of `_reg_write` for every
      accepted CPI value, yet puts on the wire exactly the bytes the page-1
      register number does. */
  lemma CpiAddrsAsWrittenFailsCheck(code: byte)
    ensures !AddressOk(CpiAddrsAsWritten()[1])
    ensures forall i :: 0 <= i < 3 ==> AddressOk(CpiAddrs()[i])
    ensures Payloads(Gated(CpiAddrsAsWritten(), CpiValues(code)))
         == Payloads(Gated(CpiAddrs(), CpiValues(code)))
  {
    GatedPayloads(CpiAddrsAsWritten(), CpiValues(code));
    GatedPayloads(CpiAddrs(), CpiValues(code));
    assert forall i :: 0 <= i < 3 ==> WireAddress(CpiAddrsAsWritten()[i]) == WireAddress(CpiAddrs()[i]);
    var w := seq(3, i requires 0 <= i < 3 => [WireAddress(CpiAddrsAsWritten()[i]), CpiValues(code)[i]]);
    var c := seq(3, i requires 0 <= i < 3 => [WireAddress(CpiAddrs()[i]), CpiValues(code)[i]]);
    assert w == c;
  }

  /** A valid sample time is one gated write of t / 10 to the register; an
      invalid one is -EINVAL with no bus access. */
  lemma SamplePlanEffect(o: Oracle, k: nat, reg: byte, time: uint32)
    ensures time < MIN_SAMPLE_TIME || time > MAX_SAMPLE_TIME ==>
              Run(o, k, SamplePlan(reg, time)) == Outcome([], -EINVAL)
    ensures MIN_SAMPLE_TIME <= time <= MAX_SAMPLE_TIME ==>
              (Payloads(SamplePlan(reg, time)) == [[0xC1, 0xBA], [WireAddress(reg), time / 10], [0xC1, 0xB5]])
  {
    if time < MIN_SAMPLE_TIME || time > MAX_SAMPLE_TIME {
      RunReject(o, k, -EINVAL);
    } else {
      GatedPayloads([reg], [time / 10]);
      assert seq(1, i requires 0 <= i < 1 => [WireAddress([reg][i]), [time / 10 as byte][i]])
          == [[WireAddress(reg), time / 10]];
    }
  }

  /** An unknown register gives -ENOTSUP whatever the time; a known one
      gives -EINVAL for a time outside [unit, 255 * unit]; both without
      bus access. */
  lemma DownshiftPlanRejects(o: Oracle, k: nat, reg: byte, time: uint32, rt: RestTimes)
    requires RestTimesOk(rt)
    ensures reg !in {REG_RUN_DOWNSHIFT, REG_REST1_DOWNSHIFT, REG_REST2_DOWNSHIFT} ==>
              Run(o, k, DownshiftPlan(reg, time, rt)) == Outcome([], -ENOTSUP)
    ensures reg == REG_RUN_DOWNSHIFT && (time < 32 || time > 32 * 255) ==>
              Run(o, k, DownshiftPlan(reg, time, rt)) == Outcome([], -EINVAL)
    ensures reg == REG_REST1_DOWNSHIFT && (time < 16 * rt.rest1 || time > 255 * 16 * rt.rest1) ==>
              Run(o, k, DownshiftPlan(reg, time, rt)) == Outcome([], -EINVAL)
    ensures reg == REG_REST2_DOWNSHIFT && (time < 128 * rt.rest2 || time > 255 * 128 * rt.rest2) ==>
              Run(o, k, DownshiftPlan(reg, time, rt)) == Outcome([], -EINVAL)
  {
    RunReject(o, k, -ENOTSUP);
    RunReject(o, k, -EINVAL);
  }

  /** A time in [unit, 255 * unit] for a downshift register is one gated
      write of the number of whole units to that register, the unit being
      32 for run, 16 rest1 periods for rest1 and 128 rest2 periods for
      rest2. */
  lemma DownshiftPlanEffect(reg: byte, time: uint32, rt: RestTimes)
    requires RestTimesOk(rt)
    ensures var u := if reg == REG_RUN_DOWNSHIFT then 32
                     else if reg == REG_REST1_DOWNSHIFT then 16 * rt.rest1
                     else 128 * rt.rest2;
            reg in {REG_RUN_DOWNSHIFT, REG_REST1_DOWNSHIFT, REG_REST2_DOWNSHIFT} && u <= time <= 255 * u ==>
              Payloads(DownshiftPlan(reg, time, rt)) == [[0xC1, 0xBA], [WireAddress(reg), time / u], [0xC1, 0xB5]]
  {
    match DownshiftUnit(reg, rt)
    case None =>
    case Some(unit) =>
      match DownshiftCode(unit, time)
      case None =>
      case Some(code) =>
        GatedPayloads([reg], [code]);
        assert seq(1, i requires 0 <= i < 1 => [WireAddress([reg][i]), [code][i]])
            == [[WireAddress(reg), code]];
  }

  // ---------------------------------------------------------------------
  // Attribute dispatch

  /** Sensor channels the driver distinguishes. */
  datatype Channel = ChanAll | ChanPosDx | ChanPosDy | OtherChannel(id: int)

  /** Driver attributes; any other attribute is unknown. */
  datatype Attr =
    | AttrCpi
    | AttrRunDownshift
    | AttrRest1Downshift
    | AttrRest2Downshift
    | AttrRest1Sample
    | AttrRest2Sample
    | AttrRest3Sample
    | OtherAttr(id: int)

  /** `pmw3610_attr_set` for a ready or not-ready device: the channel is
      checked first, then readiness, then the attribute; the value is the
      integer part of the sensor value cast to `uint32_t`. */
  function AttrPlan(chan: Channel, ready: bool, attr: Attr, val1: int32, rt: RestTimes): seq<Step>
    requires RestTimesOk(rt)
  {
    if chan != ChanAll then [Reject(-ENOTSUP)]
    else if !ready then [Reject(-EBUSY)]
    else
      var v := ToU32(val1);
      match attr
      case AttrCpi => CpiPlan(v)
      case AttrRunDownshift => DownshiftPlan(REG_RUN_DOWNSHIFT, v, rt)
      case AttrRest1Downshift => DownshiftPlan(REG_REST1_DOWNSHIFT, v, rt)
      case AttrRest2Downshift => DownshiftPlan(REG_REST2_DOWNSHIFT, v, rt)
      case AttrRest1Sample => SamplePlan(REG_REST1_PERIOD, v)
      case AttrRest2Sample => SamplePlan(REG_REST2_PERIOD, v)
      case AttrRest3Sample => SamplePlan(REG_REST3_PERIOD, v)
      case OtherAttr(_) => [Reject(-ENOTSUP)]
  }

  /** The gates of `pmw3610_attr_set`: a channel other than "all" gives
      -ENOTSUP even before readiness is looked at, a device not ready gives
      -EBUSY, an unknown attribute -ENOTSUP, all without bus access; and a
      negative value, cast to a huge unsigned one, is out of every range. */
  lemma AttrGates(o: Oracle, k: nat, chan: Channel, ready: bool, attr: Attr, val1: int32, rt: RestTimes)
    requires RestTimesOk(rt)
    ensures chan != ChanAll ==> Run(o, k, AttrPlan(chan, ready, attr, val1, rt)) == Outcome([], -ENOTSUP)
    ensures chan == ChanAll && !ready ==> Run(o, k, AttrPlan(chan, ready, attr, val1, rt)) == Outcome([], -EBUSY)
    ensures chan == ChanAll && ready && attr.OtherAttr? ==>
              Run(o, k, AttrPlan(chan, ready, attr, val1, rt)) == Outcome([], -ENOTSUP)
    ensures chan == ChanAll && ready && val1 < 0 && !attr.OtherAttr? ==>
              Run(o, k, AttrPlan(chan, ready, attr, val1, rt)) == Outcome([], -EINVAL)
  {
    RunReject(o, k, -ENOTSUP);
    RunReject(o, k, -EBUSY);
    RunReject(o, k, -EINVAL);
  }

  // ---------------------------------------------------------------------
  // Initialisation steps

  /** Every register write and read a plan issues uses an address with bit 7
      clear, as `reg_read` and `_reg_write` assert. */
  predicate AddressesOk(addrs: seq<byte>)
  {
    forall i :: 0 <= i < |addrs| ==> AddressOk(addrs[i])
  }

  /** `pmw3610_async_init_power_up` after its two chip-select toggles, whose
      results are ignored. */
  function PowerUpPlan(): seq<Step>
  {
    Gated([REG_POWER_UP_RESET], [POWERUP_CMD_RESET])
  }

  /** `pmw3610_async_init_clear_ob1`. */
  function ClearOb1Plan(): seq<Step>
  {
    Gated([REG_OBSERVATION], [0x00])
  }

  /** The self test passed when the low nibble of OBSERVATION is all ones. */
  predicate SelfTestPassed(value: byte)
  {
    value % 0x10 == 0x0F
  }

  /** One `reg_read` per register, in order. */
  function ReadFrames(regs: seq<byte>): seq<Step>
    decreases |regs|
  {
    if regs == [] then [] else ReadFrames(regs[..|regs| - 1]) + ReadFrame(regs[|regs| - 1])
  }

  /** The motion registers configure reads to clear them. */
  function MotionRegs(): seq<byte>
  {
    [0x02, 0x03, 0x04, 0x05]
  }

  /** The settings `pmw3610_async_init_configure` applies, in order. */
  datatype Settings = Settings(
    cpi: uint32,
    rest1Sample: uint32, rest2Sample: uint32, rest3Sample: uint32,
    runDownshift: uint32, rest1Downshift: uint32, rest2Downshift: uint32)

  /** The sub-operations of `pmw3610_async_init_configure`: clear the motion
      registers by reading them, then the CPI, the performance register, the
      three sample periods and the three downshift times. */
  function ConfigureParts(s: Settings, rt: RestTimes): seq<seq<Step>>
    requires RestTimesOk(rt)
  {
    [ ReadFrames(MotionRegs()),
      CpiPlan(s.cpi),
      Gated([REG_PERFORMANCE], [PERFORMANCE_VALUE]),
      SamplePlan(REG_REST1_PERIOD, s.rest1Sample),
      SamplePlan(REG_REST2_PERIOD, s.rest2Sample),
      SamplePlan(REG_REST3_PERIOD, s.rest3Sample),
      DownshiftPlan(REG_RUN_DOWNSHIFT, s.runDownshift, rt),
      DownshiftPlan(REG_REST1_DOWNSHIFT, s.rest1Downshift, rt),
      DownshiftPlan(REG_REST2_DOWNSHIFT, s.rest2Downshift, rt) ]
  }

  /** `pmw3610_async_init_configure`: its sub-operations one after the
      other, each run only while no error has occurred. */
  function ConfigurePlan(s: Settings, rt: RestTimes): seq<Step>
    requires RestTimesOk(rt)
  {
    Join(ConfigureParts(s, rt))
  }

  /** A configuration with an out-of-range CPI fails configure with -EINVAL
      right after the four motion-register reads, whatever else it holds. */
  lemma ConfigureStopsAtBadCpi(o: Oracle, k: nat, s: Settings, rt: RestTimes)
    requires RestTimesOk(rt)
    requires s.cpi < MIN_CPI || s.cpi > MAX_CPI
    ensures Run(o, k, ReadFrames(MotionRegs())).err != 0 ==>
              Run(o, k, ConfigurePlan(s, rt)) == Run(o, k, ReadFrames(MotionRegs()))
    ensures Run(o, k, ReadFrames(MotionRegs())).err == 0 ==>
              Run(o, k, ConfigurePlan(s, rt)) == Outcome(Run(o, k, ReadFrames(MotionRegs())).events, -EINVAL)
  {
    var parts := ConfigureParts(s, rt);
    var rf := ReadFrames(MotionRegs());
    assert parts[..2][..1] == [rf] && parts[..2][1] == [Reject(-EINVAL)];
    assert Join(parts[..1]) == rf by {
      assert parts[..1] == [rf] && [rf][..0] == [];
      assert [] + rf == rf;
    }
    JoinNext(o, k, parts, 1);
    var rd := Run(o, k, rf);
    if rd.err == 0 {
      RunReject(o, k + |rd.events|, -EINVAL);
      assert rd.events + [] == rd.events;
    }
    JoinStopsAtFailure(o, k, parts, 2);
  }
}
