/** The PMW3610 sensor driver: the four-step asynchronous initialisation,
    the sensor API (fetch, channel get, attribute set, trigger set) behind
    the ready gate, and the interrupt and trigger-work handlers. */
module Pmw3610 {
  import opened Base
  import opened Transport
  import opened MotionDecode
  import opened Attributes

  /** The build-time configuration of one sensor instance. */
  datatype Config = Config(
    settings: Settings,          // the values configure applies
    divisor: int,                // CONFIG_PMW3610_CPI_DIVIDOR
    orientation: Orientation,    // the one enabled CONFIG_PMW3610_ORIENTATION_* preset
    smartAlgorithm: bool)        // CONFIG_PMW3610_SMART_ALGORITHM

  /** The rest-mode sample times double as the downshift units. */
  function RestOf(cfg: Config): RestTimes
  {
    RestTimes(cfg.settings.rest1Sample, cfg.settings.rest2Sample)
  }

  /** A configuration the driver builds with: a positive divisor and
      downshift units that pass the assertion in `set_downshift_time`. */
  predicate ValidConfig(cfg: Config)
  {
    cfg.divisor >= 1 && RestTimesOk(RestOf(cfg))
  }

  // ---------------------------------------------------------------------
  // The asynchronous initialisation

  /** `async_init_step`; `Complete` is ASYNC_INIT_STEP_COUNT. */
  datatype InitStep = PowerUp | ClearOb1 | CheckOb1 | Configure | Complete

  function StepIndex(s: InitStep): (i: nat)
    ensures i <= 4 && (i == 4 <==> s == Complete)
  {
    match s
    case PowerUp => 0
    case ClearOb1 => 1
    case CheckOb1 => 2
    case Configure => 3
    case Complete => 4
  }

  /** `async_init_step++`. */
  function Next(s: InitStep): (n: InitStep)
    requires s != Complete
    ensures StepIndex(n) == StepIndex(s) + 1
  {
    match s
    case PowerUp => ClearOb1
    case ClearOb1 => CheckOb1
    case CheckOb1 => Configure
    case Configure => Complete
  }

  /** `async_init_delay`: the wait in ms before a step runs. */
  function InitDelay(s: InitStep): nat
    requires s != Complete
  {
    match s
    case PowerUp => 10
    case ClearOb1 => 200
    case CheckOb1 => 50
    case Configure => 0
  }

  /** `pmw3610_async_init_power_up`: toggle chip select, ignoring both
      results, then issue the power-up reset. */
  function PowerUpOutcome(o: Oracle, k: nat): Outcome
  {
    var off, on := Perform(o, k, SetCs(false)), Perform(o, k + 1, SetCs(true));
    var r := Run(o, k + 2, PowerUpPlan());
    Outcome([off, on] + r.events, r.err)
  }

  /** `pmw3610_async_init_check_ob1`: read OBSERVATION and fail with
      -EINVAL unless the self test passed. */
  function CheckOb1Outcome(o: Oracle, k: nat): Outcome
  {
    var r := Run(o, k, ReadFrame(REG_OBSERVATION));
    if r.err != 0 then r
    else Outcome(r.events, if SelfTestPassed(o.data(k + 2, 0)) then 0 else -EINVAL)
  }

  /** What a step does on the bus and returns, given the hardware. */
  function StepOutcome(o: Oracle, k: nat, s: InitStep, cfg: Config): Outcome
    requires s != Complete && ValidConfig(cfg)
  {
    match s
    case PowerUp => PowerUpOutcome(o, k)
    case ClearOb1 => Run(o, k, ClearOb1Plan())
    case CheckOb1 => CheckOb1Outcome(o, k)
    case Configure => Run(o, k, ConfigurePlan(cfg.settings, RestOf(cfg)))
  }

  /** The initialisation state of the driver data. */
  datatype InitView = InitView(step: InitStep, ready: bool, err: int, scheduled: Option<nat>)

  /** The driver's data as it is before `pmw3610_init`: all zero. */
  function Boot(): InitView
  {
    InitView(PowerUp, false, 0, None)
  }

  /** The initialisation invariant: ready exactly at the end, and the work is
      only ever scheduled for a real step, with that step's delay. */
  predicate InitViewOk(v: InitView)
  {
    && (v.ready <==> v.step == Complete)
    && (v.scheduled.Some? ==> v.step != Complete && v.scheduled.value == InitDelay(v.step))
  }

  /** `pmw3610_async_init` after the current step returned `result`: record
      it; on success advance, then either become ready or schedule the next
      step with its delay; on failure stop. */
  function AfterStep(v: InitView, result: int): (w: InitView)
    requires v.step != Complete
    ensures w.err == result
    ensures result != 0 ==> w.step == v.step && w.ready == v.ready && w.scheduled.None?
    ensures result == 0 ==> StepIndex(w.step) == StepIndex(v.step) + 1
    ensures InitViewOk(v) ==> InitViewOk(w)
  {
    if result != 0 then v.(err := result, scheduled := None)
    else
      var s := Next(v.step);
      if s == Complete then InitView(s, true, result, None)
      else InitView(s, v.ready, result, Some(InitDelay(s)))
  }

  /** The init work firing while it is scheduled, once per result. */
  function RunInit(v: InitView, results: seq<int>): InitView
    decreases |results|
  {
    if results == [] || v.scheduled.None? || v.step == Complete then v
    else RunInit(AfterStep(v, results[0]), results[1..])
  }

  /** The view after a successful `pmw3610_init`. */
  function Started(): InitView
  {
    InitView(PowerUp, false, 0, Some(InitDelay(PowerUp)))
  }

  /** With every step succeeding the driver becomes ready after four runs of
      the work, waiting 10, 200, 50 and 0 ms before them. */
  lemma BootSequence()
    ensures RunInit(Started(), [0]) == InitView(ClearOb1, false, 0, Some(200))
    ensures RunInit(Started(), [0, 0]) == InitView(CheckOb1, false, 0, Some(50))
    ensures RunInit(Started(), [0, 0, 0]) == InitView(Configure, false, 0, Some(0))
    ensures RunInit(Started(), [0, 0, 0, 0]) == InitView(Complete, true, 0, None)
  {
    assert [0, 0, 0, 0][1..] == [0, 0, 0];
    assert [0, 0, 0][1..] == [0, 0];
    assert [0, 0][1..] == [0];
    assert [0][1..] == [];
  }

  /** Steps only move forward. */
  lemma {:induction false} InitMovesForward(v: InitView, results: seq<int>)
    ensures StepIndex(RunInit(v, results).step) >= StepIndex(v.step)
    decreases |results|
  {
    if results != [] && v.scheduled.Some? && v.step != Complete {
      InitMovesForward(AfterStep(v, results[0]), results[1..]);
    }
  }

  /** The driver becomes ready only if each of the steps still to run
      succeeded, in order; the first failure leaves it not ready for good. */
  lemma {:induction false} ReadyNeedsEverySuccess(v: InitView, results: seq<int>)
    requires InitViewOk(v)
    ensures var n := 4 - StepIndex(v.step);
            RunInit(v, results).ready ==>
              v.ready || (v.scheduled.Some? && |results| >= n && forall i :: 0 <= i < n ==> results[i] == 0)
    decreases |results|
  {
    var n := 4 - StepIndex(v.step);
    if results != [] && v.scheduled.Some? && v.step != Complete {
      var w := AfterStep(v, results[0]);
      ReadyNeedsEverySuccess(w, results[1..]);
      if RunInit(v, results).ready && results[0] == 0 && !w.ready {
        forall i | 0 <= i < n ensures results[i] == 0 {
          if i > 0 {
            assert results[i] == results[1..][i - 1];
          }
        }
      }
    }
  }

  /** A failed step is final: nothing is scheduled, so the work never runs
      again and the recorded error stays. */
  lemma FailedInitIsFinal(v: InitView, e: int, results: seq<int>)
    requires v.step != Complete && e != 0
    ensures RunInit(AfterStep(v, e), results) == AfterStep(v, e)
    ensures !RunInit(AfterStep(v, e), results).ready <== !v.ready
  {
  }

  // ---------------------------------------------------------------------
  // The device

  /** The identity of an application callback. */
  type Handler = nat

  datatype TriggerType = DataReady | OtherTrigger(id: int)

  /** A `struct sensor_trigger`. */
  datatype Trigger = Trigger(kind: TriggerType, chan: Channel)

  /** One call of the application's handler. */
  datatype Invocation = Invocation(handler: Handler, trigger: Trigger)

  /** A `trigger_set` call the application makes from inside its handler. */
  datatype TriggerRequest = TriggerRequest(trig: Trigger, handler: Option<Handler>)

  /** A `struct sensor_value`. */
  datatype SensorValue = SensorValue(val1: int, val2: int)

  /** What the platform answers to the readiness checks and pin set-up calls
      of `pmw3610_init` and `pmw3610_init_irq`. */
  datatype Platform = Platform(
    spiReady: bool, csPortReady: bool, csConfigure: int,
    irqPortReady: bool, irqConfigure: int, addCallback: int)

  /** The result of `pmw3610_init`: the first failing check or call. */
  function InitResult(p: Platform): (r: int)
    ensures r == 0 <==> p.spiReady && p.csPortReady && p.csConfigure == 0
                        && p.irqPortReady && p.irqConfigure == 0 && p.addCallback == 0
    ensures !p.spiReady || !p.csPortReady ==> r == -ENODEV
    ensures p.spiReady && p.csPortReady && p.csConfigure != 0 ==> r == p.csConfigure
    ensures p.spiReady && p.csPortReady && p.csConfigure == 0 && !p.irqPortReady ==> r == -ENODEV
    ensures p.spiReady && p.csPortReady && p.csConfigure == 0 && p.irqPortReady && p.irqConfigure != 0 ==>
              r == p.irqConfigure
  {
    if !p.spiReady then -ENODEV
    else if !p.csPortReady then -ENODEV
    else if p.csConfigure != 0 then p.csConfigure
    else if !p.irqPortReady then -ENODEV
    else if p.irqConfigure != 0 then p.irqConfigure
    else p.addCallback
  }

  /** The driver data of one sensor, with its configuration and bus. */
  class Device {
    const bus: Bus
    const cfg: Config
    var ready: bool
    var step: InitStep
    var err: int
    /** The init work is scheduled to run after this many ms. */
    var scheduled: Option<nat>
    var x: int16
    var y: int16
    var smartFlag: bool
    var handler: Option<Handler>
    var trigger: Option<Trigger>
    /** The interrupt mode of the motion pin. */
    var irq: IrqMode
    /** The trigger-handler work is submitted and has not finished. */
    var workPending: bool
    /** `k_panic` was called. */
    var halted: bool
    /** Every call of the application's handler, in order. */
    var invocations: seq<Invocation>

    function View(): InitView
      reads this
    {
      InitView(step, ready, err, scheduled)
    }

    /** The invariant of the driver data: the initialisation invariant; a
        stored handler comes with its trigger; with no handler the motion
        interrupt is off; and with a handler it is off only while the
        trigger work has yet to re-enable it. */
    predicate Valid()
      reads this
    {
      && ValidConfig(cfg)
      && InitViewOk(View())
      && (handler.Some? ==> trigger.Some?)
      && (handler.None? ==> irq == IrqDisabled)
      && (handler.Some? && irq == IrqDisabled ==> workPending || halted)
    }

    /** The static driver data: zero-initialised. */
    constructor (bus: Bus, cfg: Config)
      requires ValidConfig(cfg)
      ensures this.bus == bus && this.cfg == cfg
      ensures View() == Boot()
      ensures x == 0 && y == 0 && !smartFlag
      ensures handler.None? && trigger.None? && irq == IrqDisabled
      ensures !workPending && !halted && invocations == []
      ensures Valid()
    {
      this.bus := bus;
      this.cfg := cfg;
      ready := false;
      step := PowerUp;
      err := 0;
      scheduled := None;
      x := 0;
      y := 0;
      smartFlag := false;
      handler := None;
      trigger := None;
      irq := IrqDisabled;
      workPending := false;
      halted := false;
      invocations := [];
    }

    /** `pmw3610_init`: clear the smart flag, check the platform, and on
        success schedule the first init step after its delay. */
    method Init(p: Platform) returns (rv: int)
      requires Valid() && View() == Boot()
      modifies this`smartFlag, this`scheduled
      ensures Valid()
      ensures rv == InitResult(p) && !smartFlag
      ensures View() == if rv == 0 then Started() else Boot()
    {
      smartFlag := false;
      rv := InitResult(p);
      if rv != 0 {
        return;
      }
      scheduled := Some(InitDelay(step));
    }

    /** `pmw3610_async_init_power_up`. */
    method PowerUpStep() returns (rv: int)
      modifies bus
      ensures var out := PowerUpOutcome(bus.oracle, old(|bus.trace|));
              bus.trace == old(bus.trace) + out.events && rv == out.err
    {
      ghost var o, t0 := bus.oracle, bus.trace;
      var ignored := bus.SetChipSelect(false);
      ghost var off := bus.trace[|t0|];
      ignored := bus.SetChipSelect(true);
      ghost var on := bus.trace[|t0| + 1];
      rv := bus.WriteRegister(REG_POWER_UP_RESET, POWERUP_CMD_RESET);
      AppendTwoThenRun(t0, off, on, Run(o, |t0| + 2, PowerUpPlan()).events, bus.trace);
    }

    /** `pmw3610_async_init_clear_ob1`. */
    method ClearOb1Step() returns (rv: int)
      modifies bus
      ensures var r := Run(bus.oracle, old(|bus.trace|), ClearOb1Plan());
              bus.trace == old(bus.trace) + r.events && rv == r.err
    {
      rv := bus.WriteRegister(REG_OBSERVATION, 0x00);
    }

    /** `pmw3610_async_init_check_ob1`: read OBSERVATION and fail with
        -EINVAL unless its low nibble is all ones. */
    method CheckOb1Step() returns (rv: int)
      modifies bus
      ensures var out := CheckOb1Outcome(bus.oracle, old(|bus.trace|));
              bus.trace == old(bus.trace) + out.events && rv == out.err
    {
      var value;
      rv, value := bus.ReadRegister(REG_OBSERVATION);
      if rv != 0 {
        return;
      }
      if value % 0x10 != 0x0F {
        rv := -EINVAL;
      }
    }

    /** `set_cpi`. */
    method SetCpi(cpi: uint32) returns (rv: int)
      modifies bus
      ensures var r := Run(bus.oracle, old(|bus.trace|), CpiPlan(cpi));
              bus.trace == old(bus.trace) + r.events && rv == r.err
    {
      RunReject(bus.oracle, |bus.trace|, -EINVAL);
      match CpiCode(cpi)
      case None =>
        rv := -EINVAL;
      case Some(code) =>
        rv := bus.BurstWrite(CpiAddrs(), CpiValues(code));
    }

    /** `set_sample_time`. */
    method SetSampleTime(reg: byte, time: uint32) returns (rv: int)
      requires SampleCode(time).Some? ==> AddressOk(reg)
      modifies bus
      ensures var r := Run(bus.oracle, old(|bus.trace|), SamplePlan(reg, time));
              bus.trace == old(bus.trace) + r.events && rv == r.err
    {
      RunReject(bus.oracle, |bus.trace|, -EINVAL);
      match SampleCode(time)
      case None =>
        rv := -EINVAL;
      case Some(code) =>
        rv := bus.WriteRegister(reg, code);
    }

    /** `set_downshift_time`. */
    method SetDownshiftTime(reg: byte, time: uint32) returns (rv: int)
      requires ValidConfig(cfg)
      modifies bus
      ensures var r := Run(bus.oracle, old(|bus.trace|), DownshiftPlan(reg, time, RestOf(cfg)));
              bus.trace == old(bus.trace) + r.events && rv == r.err
    {
      RunReject(bus.oracle, |bus.trace|, -EINVAL);
      RunReject(bus.oracle, |bus.trace|, -ENOTSUP);
      match DownshiftUnit(reg, RestOf(cfg))
      case None =>
        rv := -ENOTSUP;
      case Some(unit) =>
        match DownshiftCode(unit, time)
        case None =>
          rv := -EINVAL;
        case Some(code) =>
          rv := bus.WriteRegister(reg, code);
    }

    /** `pmw3610_async_init_configure`: read the motion registers 0x02 to
        0x05 while no error occurs, then apply each setting while no error
        occurs, and return the first error. */
    method ConfigureStep() returns (rv: int)
      requires ValidConfig(cfg)
      modifies bus
      ensures var r := Run(bus.oracle, old(|bus.trace|), ConfigurePlan(cfg.settings, RestOf(cfg)));
              bus.trace == old(bus.trace) + r.events && rv == r.err
    {
      ghost var o, k, t0 := bus.oracle, |bus.trace|, bus.trace;
      var st := cfg.settings;
      ghost var rt := RestOf(cfg);
      var regs := MotionRegs();
      ghost var frames := seq(4, j requires 0 <= j < 4 => ReadFrame(regs[j]));
      assert frames[..0] == [];
      rv := 0;
      var i := 0;
      while i < 4 && rv == 0
        invariant 0 <= i <= 4
        invariant bus.trace == t0 + Run(o, k, Join(frames[..i])).events
        invariant rv == Run(o, k, Join(frames[..i])).err
      {
        JoinNext(o, k, frames, i);
        ContinueTrace(o, k, t0, Run(o, k, Join(frames[..i])), frames[i]);
        var value;
        rv, value := bus.ReadRegister(regs[i]);
        i := i + 1;
      }
      if rv != 0 {
        JoinStopsAtFailure(o, k, frames, i);
      } else {
        assert frames[..i] == frames;
      }
      ReadFramesAreJoined(regs, frames);
      ghost var r := Run(o, k, ReadFrames(regs));
      if rv == 0 {
        ContinueTrace(o, k, t0, r, CpiPlan(st.cpi));
        rv := SetCpi(st.cpi);
      }
      r := Continue(o, k, r, CpiPlan(st.cpi));
      if rv == 0 {
        ContinueTrace(o, k, t0, r, Gated([REG_PERFORMANCE], [PERFORMANCE_VALUE]));
        rv := bus.WriteRegister(REG_PERFORMANCE, PERFORMANCE_VALUE);
      }
      r := Continue(o, k, r, Gated([REG_PERFORMANCE], [PERFORMANCE_VALUE]));
      if rv == 0 {
        ContinueTrace(o, k, t0, r, SamplePlan(REG_REST1_PERIOD, st.rest1Sample));
        rv := SetSampleTime(REG_REST1_PERIOD, st.rest1Sample);
      }
      r := Continue(o, k, r, SamplePlan(REG_REST1_PERIOD, st.rest1Sample));
      if rv == 0 {
        ContinueTrace(o, k, t0, r, SamplePlan(REG_REST2_PERIOD, st.rest2Sample));
        rv := SetSampleTime(REG_REST2_PERIOD, st.rest2Sample);
      }
      r := Continue(o, k, r, SamplePlan(REG_REST2_PERIOD, st.rest2Sample));
      if rv == 0 {
        ContinueTrace(o, k, t0, r, SamplePlan(REG_REST3_PERIOD, st.rest3Sample));
        rv := SetSampleTime(REG_REST3_PERIOD, st.rest3Sample);
      }
      r := Continue(o, k, r, SamplePlan(REG_REST3_PERIOD, st.rest3Sample));
      if rv == 0 {
        ContinueTrace(o, k, t0, r, DownshiftPlan(REG_RUN_DOWNSHIFT, st.runDownshift, rt));
        rv := SetDownshiftTime(REG_RUN_DOWNSHIFT, st.runDownshift);
      }
      r := Continue(o, k, r, DownshiftPlan(REG_RUN_DOWNSHIFT, st.runDownshift, rt));
      if rv == 0 {
        ContinueTrace(o, k, t0, r, DownshiftPlan(REG_REST1_DOWNSHIFT, st.rest1Downshift, rt));
        rv := SetDownshiftTime(REG_REST1_DOWNSHIFT, st.rest1Downshift);
      }
      r := Continue(o, k, r, DownshiftPlan(REG_REST1_DOWNSHIFT, st.rest1Downshift, rt));
      if rv == 0 {
        ContinueTrace(o, k, t0, r, DownshiftPlan(REG_REST2_DOWNSHIFT, st.rest2Downshift, rt));
        rv := SetDownshiftTime(REG_REST2_DOWNSHIFT, st.rest2Downshift);
      }
      r := Continue(o, k, r, DownshiftPlan(REG_REST2_DOWNSHIFT, st.rest2Downshift, rt));
      ConfigureUnfold(o, k, st, rt);
    }

    /** The step table `async_init_fn`: run the given step. */
    method RunStep(s: InitStep) returns (rv: int)
      requires ValidConfig(cfg) && s != Complete
      modifies bus
      ensures var out := StepOutcome(bus.oracle, old(|bus.trace|), s, cfg);
              bus.trace == old(bus.trace) + out.events && rv == out.err
    {
      match s {
        case PowerUp => rv := PowerUpStep();
        case ClearOb1 => rv := ClearOb1Step();
        case CheckOb1 => rv := CheckOb1Step();
        case Configure => rv := ConfigureStep();
      }
    }

    /** `pmw3610_async_init`: run the current step through the step table,
        then record its result. */
    method AsyncInit()
      requires Valid() && scheduled.Some?
      modifies this`step, this`ready, this`err, this`scheduled, bus
      ensures Valid()
      ensures var out := StepOutcome(bus.oracle, old(|bus.trace|), old(step), cfg);
              bus.trace == old(bus.trace) + out.events && View() == AfterStep(old(View()), out.err)
    {
      var rv := RunStep(step);
      Record(rv);
    }

    /** The rest of `pmw3610_async_init`: keep the result; on success move to
        the next step, then either become ready or schedule that step after
        its delay; on failure schedule nothing. */
    method Record(rv: int)
      requires Valid() && step != Complete
      modifies this`step, this`ready, this`err, this`scheduled
      ensures Valid() && View() == AfterStep(old(View()), rv)
    {
      err := rv;
      scheduled := None;
      if rv == 0 {
        step := Next(step);
        if step == Complete {
          ready := true;
        } else {
          scheduled := Some(InitDelay(step));
        }
      }
    }

    /** `pmw3610_attr_set`. */
    method AttrSet(chan: Channel, attr: Attr, val1: int32) returns (rv: int)
      requires ValidConfig(cfg)
      modifies bus
      ensures var r := Run(bus.oracle, old(|bus.trace|), AttrPlan(chan, ready, attr, val1, RestOf(cfg)));
              bus.trace == old(bus.trace) + r.events && rv == r.err
    {
      RunReject(bus.oracle, |bus.trace|, -ENOTSUP);
      RunReject(bus.oracle, |bus.trace|, -EBUSY);
      if chan != ChanAll {
        return -ENOTSUP;
      }
      if !ready {
        return -EBUSY;
      }
      var v := ToU32(val1);
      match attr
      case AttrCpi => rv := SetCpi(v);
      case AttrRunDownshift => rv := SetDownshiftTime(REG_RUN_DOWNSHIFT, v);
      case AttrRest1Downshift => rv := SetDownshiftTime(REG_REST1_DOWNSHIFT, v);
      case AttrRest2Downshift => rv := SetDownshiftTime(REG_REST2_DOWNSHIFT, v);
      case AttrRest1Sample => rv := SetSampleTime(REG_REST1_PERIOD, v);
      case AttrRest2Sample => rv := SetSampleTime(REG_REST2_PERIOD, v);
      case AttrRest3Sample => rv := SetSampleTime(REG_REST3_PERIOD, v);
      case OtherAttr(_) => rv := -ENOTSUP;
    }

    /** `pmw3610_sample_fetch`: check the channel, then readiness, then read
        a motion burst; on success store the oriented deltas and run the
        smart-algorithm hysteresis, whose register write may fail unnoticed. */
    method Fetch(chan: Channel) returns (rv: int)
      requires Valid()
      modifies this`x, this`y, this`smartFlag, bus
      ensures Valid()
      ensures chan != ChanAll ==> rv == -ENOTSUP
      ensures chan == ChanAll && !ready ==> rv == -EBUSY
      ensures chan != ChanAll || !ready ==>
                bus.trace == old(bus.trace) && x == old(x) && y == old(y) && smartFlag == old(smartFlag)
      ensures chan == ChanAll && ready ==>
                var k := old(|bus.trace|);
                var r := Run(bus.oracle, k, BurstReadFrame(BURST_SIZE));
                && rv == r.err
                && (r.err != 0 ==> bus.trace == old(bus.trace) + r.events
                                   && x == old(x) && y == old(y) && smartFlag == old(smartFlag))
                && (r.err == 0 ==>
                      var buf := Received(bus.oracle, k + 2, BURST_SIZE);
                      var sm := if cfg.smartAlgorithm then SmartStep(old(smartFlag), Shutter(buf))
                                else SmartResult(old(smartFlag), None);
                      && (x, y) == Motion(buf, cfg.divisor, cfg.orientation)
                      && smartFlag == sm.flag
                      && bus.trace == old(bus.trace) + r.events
                           + (if sm.write.Some?
                              then Run(bus.oracle, k + |r.events|, Gated([REG_SMART], [sm.write.value])).events
                              else []))
    {
      if chan != ChanAll {
        return -ENOTSUP;
      }
      if !ready {
        return -EBUSY;
      }
      var buf;
      rv, buf := bus.BurstRead(BURST_SIZE);
      if rv != 0 {
        return;
      }
      var m := Motion(buf, cfg.divisor, cfg.orientation);
      x, y := m.0, m.1;
      if cfg.smartAlgorithm {
        SmartAlgorithm(Shutter(buf));
      }
    }

    /** The smart-algorithm block of `pmw3610_sample_fetch`: switch the
        sensor's smart mode off below the shutter threshold and on above it,
        writing register 0x32 only when the flag changes and ignoring the
        result of that write. */
    method SmartAlgorithm(shutter: int)
      modifies this`smartFlag, bus
      ensures var sm := SmartStep(old(smartFlag), shutter);
              && smartFlag == sm.flag
              && bus.trace == old(bus.trace)
                   + (if sm.write.Some?
                      then Run(bus.oracle, old(|bus.trace|), Gated([REG_SMART], [sm.write.value])).events
                      else [])
    {
      var ignored;
      if smartFlag && shutter < SHUTTER_THRESHOLD {
        ignored := bus.WriteRegister(REG_SMART, SMART_OFF);
        smartFlag := false;
      }
      if !smartFlag && shutter > SHUTTER_THRESHOLD {
        ignored := bus.WriteRegister(REG_SMART, SMART_ON);
        smartFlag := true;
      }
    }

    /** `pmw3610_channel_get`: readiness is checked before the channel; the
        X and Y channels report the stored deltas. */
    method ChannelGet(chan: Channel) returns (rv: int, val: Option<SensorValue>)
      ensures !ready ==> rv == -EBUSY && val.None?
      ensures ready && chan == ChanPosDx ==> rv == 0 && val == Some(SensorValue(x, 0))
      ensures ready && chan == ChanPosDy ==> rv == 0 && val == Some(SensorValue(y, 0))
      ensures ready && chan != ChanPosDx && chan != ChanPosDy ==> rv == -ENOTSUP && val.None?
    {
      if !ready {
        return -EBUSY, None;
      }
      match chan
      case ChanPosDx => rv, val := 0, Some(SensorValue(x, 0));
      case ChanPosDy => rv, val := 0, Some(SensorValue(y, 0));
      case _ => rv, val := -ENOTSUP, None;
    }

    /** `pmw3610_trigger_set`: check the trigger type and channel, then
        readiness; switch the motion interrupt on for a handler and off for
        none; keep the handler only if that succeeded, the trigger always. */
    method TriggerSet(trig: Trigger, h: Option<Handler>) returns (rv: int)
      requires Valid()
      modifies this`handler, this`trigger, this`irq, bus
      ensures Valid()
      ensures trig.kind != DataReady || trig.chan != ChanAll ==> rv == -ENOTSUP
      ensures trig.kind == DataReady && trig.chan == ChanAll && !ready ==> rv == -EBUSY
      ensures trig.kind != DataReady || trig.chan != ChanAll || !ready ==>
                bus.trace == old(bus.trace) && handler == old(handler) && trigger == old(trigger) && irq == old(irq)
      ensures trig.kind == DataReady && trig.chan == ChanAll && ready ==>
                var mode := if h.Some? then IrqLevelActive else IrqDisabled;
                var e := Perform(bus.oracle, old(|bus.trace|), IrqConfigure(mode));
                && bus.trace == old(bus.trace) + [e] && rv == e.err
                && trigger == Some(trig)
                && (rv == 0 ==> handler == h && irq == mode)
                && (rv != 0 ==> handler == old(handler) && irq == old(irq))
    {
      if trig.kind != DataReady {
        return -ENOTSUP;
      }
      if trig.chan != ChanAll {
        return -ENOTSUP;
      }
      if !ready {
        return -EBUSY;
      }
      var mode := if h.Some? then IrqLevelActive else IrqDisabled;
      var e := bus.Transfer(IrqConfigure(mode));
      rv := e.err;
      if rv == 0 {
        handler := h;
        irq := mode;
      }
      trigger := Some(trig);
    }

    /** `irq_handler`: switch the motion interrupt off, halting if that
        fails, and submit the trigger work. */
    method IrqHandler()
      requires Valid() && irq == IrqLevelActive && !halted
      modifies this`irq, this`workPending, this`halted, bus
      ensures Valid()
      ensures var e := Perform(bus.oracle, old(|bus.trace|), IrqConfigure(IrqDisabled));
              && bus.trace == old(bus.trace) + [e]
              && (e.err == 0 ==> irq == IrqDisabled && workPending && !halted)
              && (e.err != 0 ==> halted && irq == old(irq) && workPending == old(workPending))
    {
      var e := bus.Transfer(IrqConfigure(IrqDisabled));
      if e.err != 0 {
        halted := true;
        return;
      }
      irq := IrqDisabled;
      workPending := true;
    }

    /** `trigger_handler`: with no handler, do nothing and leave the motion
        interrupt off; otherwise call the handler once with the stored
        trigger (which may itself call `trigger_set`), then switch the
        interrupt back on if a handler is still set, halting if that fails. */
    method TriggerHandler(reentry: Option<TriggerRequest>)
      requires Valid() && workPending && !halted
      modifies this`handler, this`trigger, this`irq, this`workPending, this`halted, this`invocations, bus
      ensures Valid()
      ensures old(handler).None? ==>
                && bus.trace == old(bus.trace) && invocations == old(invocations)
                && handler == old(handler) && trigger == old(trigger) && irq == old(irq)
                && !workPending && !halted
      ensures old(handler).Some? ==>
                invocations == old(invocations) + [Invocation(old(handler).value, old(trigger).value)]
      ensures old(handler).Some? && reentry.None? ==>
                var e := Perform(bus.oracle, old(|bus.trace|), IrqConfigure(IrqLevelActive));
                && bus.trace == old(bus.trace) + [e]
                && handler == old(handler) && trigger == old(trigger)
                && (e.err == 0 ==> irq == IrqLevelActive && !workPending && !halted)
                && (e.err != 0 ==> halted)
      ensures old(handler).Some? && reentry.Some? ==>
                var rq := reentry.value;
                var accepted := rq.trig.kind == DataReady && rq.trig.chan == ChanAll && ready;
                var mode := if rq.handler.Some? then IrqLevelActive else IrqDisabled;
                var nested := if accepted then [Perform(bus.oracle, old(|bus.trace|), IrqConfigure(mode))] else [];
                var kept := if accepted && nested[0].err == 0 then rq.handler else old(handler);
                var e := Perform(bus.oracle, old(|bus.trace|) + |nested|, IrqConfigure(IrqLevelActive));
                && handler == kept
                && trigger == (if accepted then Some(rq.trig) else old(trigger))
                && bus.trace == old(bus.trace) + nested + (if kept.Some? then [e] else [])
                && (kept.None? ==> irq == IrqDisabled && !workPending && !halted)
                && (kept.Some? && e.err == 0 ==> irq == IrqLevelActive && !workPending && !halted)
                && (kept.Some? && e.err != 0 ==> halted)
      ensures old(handler).Some? && handler.Some? ==>
                |bus.trace| > 0 && bus.trace[|bus.trace| - 1].call == IrqConfigure(IrqLevelActive)
      ensures !halted ==> !workPending && (handler.Some? <==> irq == IrqLevelActive)
    {
      var h := handler;
      if h.None? {
        workPending := false;
        return;
      }
      invocations := invocations + [Invocation(h.value, trigger.value)];
      if reentry.Some? {
        var ignored := TriggerSet(reentry.value.trig, reentry.value.handler);
      }
      ResumeIrq();
    }

    /** The second half of `trigger_handler`: switch the motion interrupt
        back on if a handler is set, halting if that fails, and finish the
        work. */
    method ResumeIrq()
      requires Valid() && workPending && !halted
      modifies this`irq, this`workPending, this`halted, bus
      ensures Valid()
      ensures handler.None? ==>
                bus.trace == old(bus.trace) && irq == old(irq) && !workPending && !halted
      ensures handler.Some? ==>
                var e := Perform(bus.oracle, old(|bus.trace|), IrqConfigure(IrqLevelActive));
                && bus.trace == old(bus.trace) + [e]
                && (e.err == 0 ==> irq == IrqLevelActive && !workPending && !halted)
                && (e.err != 0 ==> halted)
    {
      if handler.Some? {
        var e := bus.Transfer(IrqConfigure(IrqLevelActive));
        if e.err != 0 {
          halted := true;
          return;
        }
        irq := IrqLevelActive;
      }
      workPending := false;
    }
  }

  /** The reads of the motion registers are the register reads joined. */
  lemma ReadFramesAreJoined(regs: seq<byte>, frames: seq<seq<Step>>)
    requires |frames| == |regs| && forall j :: 0 <= j < |regs| ==> frames[j] == ReadFrame(regs[j])
    ensures ReadFrames(regs) == Join(frames)
    decreases |regs|
  {
    if regs != [] {
      var n := |regs| - 1;
      ReadFramesAreJoined(regs[..n], frames[..n]);
    }
  }

  /** The first sub-operation alone. */
  lemma FirstPart(o: Oracle, k: nat, parts: seq<seq<Step>>)
    requires |parts| > 0
    ensures Run(o, k, Join(parts[..1])) == Run(o, k, parts[0])
  {
    assert parts[..1][..0] == [];
    assert Join(parts[..1]) == [] + parts[0];
    assert [] + parts[0] == parts[0];
  }

  /** Two events, then a run of events, appended to a trace. */
  lemma AppendTwoThenRun(t0: seq<Event>, a: Event, b: Event, rest: seq<Event>, t: seq<Event>)
    requires t == t0 + [a] + [b] + rest
    ensures t == t0 + ([a, b] + rest) && |t0 + [a] + [b]| == |t0| + 2
  {
    assert t0 + [a] + [b] + rest == t0 + ([a, b] + rest);
  }

  /** Nine sub-operations joined: each runs after the previous ones only if
      they succeeded. */
  lemma JoinNine(o: Oracle, k: nat, p: seq<seq<Step>>)
    requires |p| == 9
    ensures Run(o, k, Join(p)) ==
            Continue(o, k, Continue(o, k, Continue(o, k, Continue(o, k, Continue(o, k,
              Continue(o, k, Continue(o, k, Continue(o, k, Run(o, k, p[0]),
              p[1]), p[2]), p[3]), p[4]), p[5]), p[6]), p[7]), p[8])
  {
    FirstPart(o, k, p);
    var a1 := Run(o, k, Join(p[..1]));
    JoinNext(o, k, p, 1);
    var a2 := Run(o, k, Join(p[..2]));
    JoinNext(o, k, p, 2);
    var a3 := Run(o, k, Join(p[..3]));
    JoinNext(o, k, p, 3);
    var a4 := Run(o, k, Join(p[..4]));
    JoinNext(o, k, p, 4);
    var a5 := Run(o, k, Join(p[..5]));
    JoinNext(o, k, p, 5);
    var a6 := Run(o, k, Join(p[..6]));
    JoinNext(o, k, p, 6);
    var a7 := Run(o, k, Join(p[..7]));
    JoinNext(o, k, p, 7);
    var a8 := Run(o, k, Join(p[..8]));
    JoinNext(o, k, p, 8);
    assert p[..9] == p;
  }

  /** `pmw3610_async_init_configure` as its sub-operations, each run after
      the previous ones only if they succeeded. */
  lemma ConfigureUnfold(o: Oracle, k: nat, s: Settings, rt: RestTimes)
    requires RestTimesOk(rt)
    ensures var r0 := Run(o, k, ReadFrames(MotionRegs()));
            var r1 := Continue(o, k, r0, CpiPlan(s.cpi));
            var r2 := Continue(o, k, r1, Gated([REG_PERFORMANCE], [PERFORMANCE_VALUE]));
            var r3 := Continue(o, k, r2, SamplePlan(REG_REST1_PERIOD, s.rest1Sample));
            var r4 := Continue(o, k, r3, SamplePlan(REG_REST2_PERIOD, s.rest2Sample));
            var r5 := Continue(o, k, r4, SamplePlan(REG_REST3_PERIOD, s.rest3Sample));
            var r6 := Continue(o, k, r5, DownshiftPlan(REG_RUN_DOWNSHIFT, s.runDownshift, rt));
            var r7 := Continue(o, k, r6, DownshiftPlan(REG_REST1_DOWNSHIFT, s.rest1Downshift, rt));
            var r8 := Continue(o, k, r7, DownshiftPlan(REG_REST2_DOWNSHIFT, s.rest2Downshift, rt));
            Run(o, k, ConfigurePlan(s, rt)) == r8
  {
    JoinNine(o, k, ConfigureParts(s, rt));
  }

}
