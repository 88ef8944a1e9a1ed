/** Register transport of the PMW3610 driver: chip-select handling, single
    register reads and writes, the clock-gated write bracket, motion-burst
    reads and burst writes.

    Every call the driver makes into the SPI and GPIO drivers is one `Call`;
    doing it appends one `Event` to the bus trace.  Whether a call fails, and
    which bytes a read returns, is decided by an `Oracle` indexed by the
    position of the call in the trace, so every property below holds for every
    possible behaviour of the hardware.  The busy-wait delays between calls
    carry no logic and are not part of the trace. */
module Transport {
  import opened Base

  /** Mode of the data-ready interrupt line. */
  datatype IrqMode = IrqDisabled | IrqLevelActive

  /** One call into the SPI or GPIO drivers. */
  datatype Call =
    | SetCs(active: bool)            // gpio_pin_set_dt on the chip-select line
    | SpiWrite(tx: seq<byte>)        // spi_write_dt
    | SpiRead(count: nat)            // spi_read_dt
    | IrqConfigure(mode: IrqMode)    // gpio_pin_interrupt_configure_dt

  /** A call as it happened: its return code and the bytes it read. */
  datatype Event = Event(call: Call, err: int, rx: seq<byte>)

  /** The hardware: the return code of the k-th call and byte i read by it. */
  datatype Oracle = Oracle(status: nat -> int, data: (nat, nat) -> byte)

  /** The `count` bytes the k-th call reads when it is a successful read. */
  function Received(o: Oracle, k: nat, count: nat): seq<byte>
  {
    seq<byte>(count, i requires 0 <= i < count => o.data(k, i))
  }

  /** Performing call `c` as the k-th call of the trace. */
  function Perform(o: Oracle, k: nat, c: Call): Event
  {
    Event(c, o.status(k), if c.SpiRead? && o.status(k) == 0 then Received(o, k, c.count) else [])
  }

  /** A step of a driver operation: a bus call, or a validation failure that
      returns an error before any bus access. */
  datatype Step = Do(call: Call) | Reject(err: Errno)

  /** The events an operation appended and the code it returned. */
  datatype Outcome = Outcome(events: seq<Event>, err: int)

  /** The first step of a plan on its own: a rejection returns its error
      without touching the bus; a call is performed and returns its result. */
  function Head(o: Oracle, k: nat, s: Step): Outcome
  {
    match s
    case Reject(e) => Outcome([], e)
    case Do(c) => var e := Perform(o, k, c); Outcome([e], e.err)
  }

  /** Runs a plan the way the driver does: in order, returning on the first
      failing call (which is still in the trace) or the first rejection. */
  function Run(o: Oracle, k: nat, plan: seq<Step>): Outcome
    decreases |plan|
  {
    if plan == [] then Outcome([], 0)
    else
      var h := Head(o, k, plan[0]);
      if h.err != 0 then h
      else
        var rest := Run(o, k + 1, plan[1..]);
        Outcome(h.events + rest.events, rest.err)
  }

  /** The events of a run are the first calls of the plan, performed at
      consecutive positions of the trace. */
  lemma {:induction false} RunPerformsPrefix(o: Oracle, k: nat, plan: seq<Step>)
    ensures var r := Run(o, k, plan);
      && |r.events| <= |plan|
      && forall i :: 0 <= i < |r.events| ==>
           plan[i].Do? && r.events[i] == Perform(o, k + i, plan[i].call)
    decreases |plan|
  {
    if plan != [] && plan[0].Do? && o.status(k) == 0 {
      RunPerformsPrefix(o, k + 1, plan[1..]);
      var rest := Run(o, k + 1, plan[1..]);
      var r := Run(o, k, plan);
      assert r.events == [Perform(o, k, plan[0].call)] + rest.events;
      forall i | 0 < i < |r.events|
        ensures plan[i].Do? && r.events[i] == Perform(o, k + i, plan[i].call)
      {
        assert r.events[i] == rest.events[i - 1];
        assert plan[i] == plan[1..][i - 1];
      }
    }
  }

  /** A run returns on the first error: every call before the last one
      succeeded, and a zero result means the whole plan ran and succeeded. */
  lemma {:induction false} RunStopsAtFirstError(o: Oracle, k: nat, plan: seq<Step>)
    ensures var r := Run(o, k, plan);
      && (forall i :: 0 <= i < |r.events| - 1 ==> r.events[i].err == 0)
      && (r.err == 0 ==>
            |r.events| == |plan| && forall i :: 0 <= i < |r.events| ==> r.events[i].err == 0)
    decreases |plan|
  {
    if plan != [] && plan[0].Do? && o.status(k) == 0 {
      RunStopsAtFirstError(o, k + 1, plan[1..]);
      var rest := Run(o, k + 1, plan[1..]);
      var r := Run(o, k, plan);
      assert r.events == [Perform(o, k, plan[0].call)] + rest.events;
      forall i | 0 < i < |r.events| - 1 || (r.err == 0 && 0 < i < |r.events|)
        ensures r.events[i].err == 0
      {
        assert r.events[i] == rest.events[i - 1];
      }
    }
  }

  /** A non-zero result is the error of the failing last call, or the error
      of the rejection that comes right after the performed calls. */
  lemma {:induction false} RunErrorSource(o: Oracle, k: nat, plan: seq<Step>)
    ensures var r := Run(o, k, plan);
      r.err != 0 ==>
        if |r.events| > 0 && r.events[|r.events| - 1].err != 0
        then r.err == r.events[|r.events| - 1].err
        else |r.events| < |plan| && plan[|r.events|] == Reject(r.err)
    decreases |plan|
  {
    if plan != [] && plan[0].Do? && o.status(k) == 0 {
      RunErrorSource(o, k + 1, plan[1..]);
      var rest := Run(o, k + 1, plan[1..]);
      var r := Run(o, k, plan);
      assert r.events == [Perform(o, k, plan[0].call)] + rest.events;
      if r.err != 0 && |rest.events| > 0 {
        assert r.events[|r.events| - 1] == rest.events[|rest.events| - 1];
      }
      if r.err != 0 && |rest.events| < |plan| - 1 {
        assert plan[|r.events|] == plan[1..][|rest.events|];
      }
    }
  }

  /** `Run` on a three-call plan, unfolded. */
  lemma RunThree(o: Oracle, k: nat, a: Call, b: Call, c: Call)
    ensures Run(o, k, [Do(a), Do(b), Do(c)])
         == if o.status(k) != 0 then Outcome([Perform(o, k, a)], o.status(k))
            else if o.status(k + 1) != 0 then Outcome([Perform(o, k, a), Perform(o, k + 1, b)], o.status(k + 1))
            else Outcome([Perform(o, k, a), Perform(o, k + 1, b), Perform(o, k + 2, c)], o.status(k + 2))
  {
    var ea, eb, ec := Perform(o, k, a), Perform(o, k + 1, b), Perform(o, k + 2, c);
    assert [Do(c)][1..] == [];
    var rc := Run(o, k + 2, [Do(c)]);
    assert Run(o, k + 3, []) == Outcome([], 0);
    assert [ec] + [] == [ec];
    assert rc == Outcome([ec], ec.err);
    assert [Do(b), Do(c)][1..] == [Do(c)];
    var rb := Run(o, k + 1, [Do(b), Do(c)]);
    assert rb == if eb.err != 0 then Outcome([eb], eb.err) else Outcome([eb] + rc.events, rc.err);
    assert [Do(a), Do(b), Do(c)][1..] == [Do(b), Do(c)];
    assert Run(o, k, [Do(a), Do(b), Do(c)])
        == if ea.err != 0 then Outcome([ea], ea.err) else Outcome([ea] + rb.events, rb.err);
  }

  /** `Run` on a four-call plan, unfolded. */
  lemma RunFour(o: Oracle, k: nat, a: Call, b: Call, c: Call, d: Call)
    ensures Run(o, k, [Do(a), Do(b), Do(c), Do(d)])
         == if o.status(k) != 0 then Outcome([Perform(o, k, a)], o.status(k))
            else if o.status(k + 1) != 0 then Outcome([Perform(o, k, a), Perform(o, k + 1, b)], o.status(k + 1))
            else if o.status(k + 2) != 0
            then Outcome([Perform(o, k, a), Perform(o, k + 1, b), Perform(o, k + 2, c)], o.status(k + 2))
            else Outcome([Perform(o, k, a), Perform(o, k + 1, b), Perform(o, k + 2, c), Perform(o, k + 3, d)],
                         o.status(k + 3))
  {
    assert [Do(a), Do(b), Do(c), Do(d)][1..] == [Do(b), Do(c), Do(d)];
    RunThree(o, k + 1, b, c, d);
    var rb := Run(o, k + 1, [Do(b), Do(c), Do(d)]);
    var ea := Perform(o, k, a);
    assert Run(o, k, [Do(a), Do(b), Do(c), Do(d)])
        == if ea.err != 0 then Outcome([ea], ea.err) else Outcome([ea] + rb.events, rb.err);
  }

  /** What running `next` after an outcome `r` gives: nothing more when `r`
      failed, otherwise the events of `next` appended, with its result. */
  function Continue(o: Oracle, k: nat, r: Outcome, next: seq<Step>): Outcome
  {
    if r.err != 0 then r
    else
      var s := Run(o, k + |r.events|, next);
      Outcome(r.events + s.events, s.err)
  }

  /** Running two plans back to back is running the second after the first:
      sub-operations compose by returning on the first error. */
  lemma {:induction false} RunAppend(o: Oracle, k: nat, a: seq<Step>, b: seq<Step>)
    ensures Run(o, k, a + b) == Continue(o, k, Run(o, k, a), b)
    decreases |a|
  {
    if a == [] {
      assert a + b == b;
      var s := Run(o, k, b);
      assert [] + s.events == s.events;
    } else {
      assert (a + b)[0] == a[0];
      assert (a + b)[1..] == a[1..] + b;
      var h := Head(o, k, a[0]);
      if h.err != 0 {
        assert Run(o, k, a) == h;
        assert Run(o, k, a + b) == h;
      } else {
        RunAppend(o, k + 1, a[1..], b);
        var r1 := Run(o, k + 1, a[1..]);
        var r := Run(o, k, a);
        assert r == Outcome(h.events + r1.events, r1.err);
        assert Run(o, k, a + b) == Outcome(h.events + Run(o, k + 1, a[1..] + b).events, Run(o, k + 1, a[1..] + b).err);
        if r1.err == 0 {
          assert |h.events| == 1;
          var s := Run(o, k + 1 + |r1.events|, b);
          assert Continue(o, k, r, b) == Outcome(r.events + s.events, s.err);
          assert h.events + r1.events + s.events == h.events + (r1.events + s.events);
        }
      }
    }
  }

  /** Sub-operations run one after the other. */
  function Join(parts: seq<seq<Step>>): seq<Step>
    decreases |parts|
  {
    if parts == [] then [] else Join(parts[..|parts| - 1]) + parts[|parts| - 1]
  }

  /** Running the first i + 1 sub-operations is running sub-operation i
      after the first i. */
  lemma JoinNext(o: Oracle, k: nat, parts: seq<seq<Step>>, i: nat)
    requires i < |parts|
    ensures Run(o, k, Join(parts[..i + 1])) == Continue(o, k, Run(o, k, Join(parts[..i])), parts[i])
  {
    assert parts[..i + 1][..i] == parts[..i];
    RunAppend(o, k, Join(parts[..i]), parts[i]);
  }

  /** Once a sub-operation fails, the later ones are never run. */
  lemma {:induction false} JoinStopsAtFailure(o: Oracle, k: nat, parts: seq<seq<Step>>, i: nat)
    requires i <= |parts|
    requires Run(o, k, Join(parts[..i])).err != 0
    ensures Run(o, k, Join(parts)) == Run(o, k, Join(parts[..i]))
    decreases |parts| - i
  {
    if i == |parts| {
      assert parts[..i] == parts;
    } else {
      JoinNext(o, k, parts, i);
      JoinStopsAtFailure(o, k, parts, i + 1);
    }
  }

  /** Three plans back to back. */
  lemma RunThreeParts(o: Oracle, k: nat, a: seq<Step>, b: seq<Step>, c: seq<Step>)
    ensures Run(o, k, a + b + c) == Continue(o, k, Continue(o, k, Run(o, k, a), b), c)
  {
    RunAppend(o, k, a + b, c);
    RunAppend(o, k, a, b);
  }

  /** When a trace holds the events of a successful outcome `r`, running
      `next` at its end gives the events of `Continue(r, next)`. */
  lemma ContinueTrace(o: Oracle, k: nat, t0: seq<Event>, r: Outcome, next: seq<Step>)
    requires |t0| == k && r.err == 0
    ensures var s := Run(o, |t0 + r.events|, next);
            var c := Continue(o, k, r, next);
            t0 + r.events + s.events == t0 + c.events && s.err == c.err
  {
    var s := Run(o, |t0 + r.events|, next);
    assert t0 + r.events + s.events == t0 + (r.events + s.events);
  }

  // ---------------------------------------------------------------------
  // Register addresses and command bytes of the transport

  /** SPI_WRITE_BIT: bit 7 of the address byte marks a write. */
  const SPI_WRITE_BIT: byte := 0x80
  const REG_MOTION_BURST: byte := 0x12
  const REG_SPI_CLK_ON_REQ: byte := 0x41
  const SPI_CLOCK_CMD_ENABLE: byte := 0xBA
  const SPI_CLOCK_CMD_DISABLE: byte := 0xB5
  const MAX_BURST_SIZE: nat := 10
  const BURST_SIZE: nat := 7

  /** `(reg & SPI_WRITE_BIT) == 0`, which `reg_read` and `_reg_write` assert. */
  predicate AddressOk(reg: byte)
  {
    reg < SPI_WRITE_BIT
  }

  /** `SPI_WRITE_BIT | reg`. */
  function WireAddress(reg: byte): (w: byte)
    ensures w >= SPI_WRITE_BIT && w % 0x80 == reg % 0x80
  {
    if reg < SPI_WRITE_BIT then reg + SPI_WRITE_BIT else reg
  }

  /** `_reg_write`: select, send [address | write bit, value], deselect. */
  function WriteFrame(reg: byte, val: byte): seq<Step>
  {
    [Do(SetCs(true)), Do(SpiWrite([WireAddress(reg), val])), Do(SetCs(false))]
  }

  /** `reg_read`: select, send the address, read one byte, deselect. */
  function ReadFrame(reg: byte): seq<Step>
  {
    [Do(SetCs(true)), Do(SpiWrite([reg])), Do(SpiRead(1)), Do(SetCs(false))]
  }

  /** `motion_burst_read`: select, send the burst address, stream `n` bytes, deselect. */
  function BurstReadFrame(n: nat): seq<Step>
  {
    [Do(SetCs(true)), Do(SpiWrite([REG_MOTION_BURST])), Do(SpiRead(n)), Do(SetCs(false))]
  }

  /** One `_reg_write` per (address, value) pair, in index order. */
  function WriteFrames(addrs: seq<byte>, vals: seq<byte>): seq<Step>
    requires |addrs| == |vals|
    decreases |addrs|
  {
    if addrs == [] then []
    else WriteFrame(addrs[0], vals[0]) + WriteFrames(addrs[1..], vals[1..])
  }

  /** `reg_write` and `burst_write`: the payload writes bracketed by enabling
      and then disabling the sensor's SPI clock. */
  function Gated(addrs: seq<byte>, vals: seq<byte>): seq<Step>
    requires |addrs| == |vals|
  {
    WriteFrame(REG_SPI_CLK_ON_REQ, SPI_CLOCK_CMD_ENABLE)
      + WriteFrames(addrs, vals)
      + WriteFrame(REG_SPI_CLK_ON_REQ, SPI_CLOCK_CMD_DISABLE)
  }

  lemma {:induction false} WriteFramesAppend(a1: seq<byte>, v1: seq<byte>, a2: seq<byte>, v2: seq<byte>)
    requires |a1| == |v1| && |a2| == |v2|
    ensures WriteFrames(a1 + a2, v1 + v2) == WriteFrames(a1, v1) + WriteFrames(a2, v2)
    decreases |a1|
  {
    if a1 == [] {
      assert a1 + a2 == a2 && v1 + v2 == v2;
    } else {
      assert (a1 + a2)[1..] == a1[1..] + a2 && (v1 + v2)[1..] == v1[1..] + v2;
      WriteFramesAppend(a1[1..], v1[1..], a2, v2);
    }
  }

  /** The frames of a burst write split at any index. */
  lemma WriteFramesSplit(addrs: seq<byte>, vals: seq<byte>, i: nat)
    requires |addrs| == |vals| && i <= |addrs|
    ensures WriteFrames(addrs, vals) == WriteFrames(addrs[..i], vals[..i]) + WriteFrames(addrs[i..], vals[i..])
  {
    assert addrs == addrs[..i] + addrs[i..] && vals == vals[..i] + vals[i..];
    WriteFramesAppend(addrs[..i], vals[..i], addrs[i..], vals[i..]);
  }

  /** A gated burst write split after its first i pairs. */
  lemma GatedSplit(addrs: seq<byte>, vals: seq<byte>, i: nat)
    requires |addrs| == |vals| && i <= |addrs|
    ensures Gated(addrs, vals)
         == (WriteFrame(REG_SPI_CLK_ON_REQ, SPI_CLOCK_CMD_ENABLE) + WriteFrames(addrs[..i], vals[..i]))
          + (WriteFrames(addrs[i..], vals[i..]) + WriteFrame(REG_SPI_CLK_ON_REQ, SPI_CLOCK_CMD_DISABLE))
  {
    WriteFramesSplit(addrs, vals, i);
  }

  /** The frames of the first i + 1 pairs are those of the first i, then the frame of pair i. */
  lemma WriteFramesSnoc(addrs: seq<byte>, vals: seq<byte>, i: nat)
    requires |addrs| == |vals| && i < |addrs|
    ensures WriteFrames(addrs[..i + 1], vals[..i + 1])
         == WriteFrames(addrs[..i], vals[..i]) + WriteFrame(addrs[i], vals[i])
  {
    assert addrs[..i + 1] == addrs[..i] + [addrs[i]] && vals[..i + 1] == vals[..i] + [vals[i]];
    WriteFramesAppend(addrs[..i], vals[..i], [addrs[i]], [vals[i]]);
    assert [addrs[i]][1..] == [] && [vals[i]][1..] == [];
    assert WriteFrames([addrs[i]], [vals[i]]) == WriteFrame(addrs[i], vals[i]) + [];
  }

  /** The bytes sent by the SPI writes of a plan, in order. */
  function Payloads(plan: seq<Step>): seq<seq<byte>>
    decreases |plan|
  {
    if plan == [] then []
    else (if plan[0].Do? && plan[0].call.SpiWrite? then [plan[0].call.tx] else [])
         + Payloads(plan[1..])
  }

  lemma {:induction false} PayloadsAppend(a: seq<Step>, b: seq<Step>)
    ensures Payloads(a + b) == Payloads(a) + Payloads(b)
    decreases |a|
  {
    if a == [] {
      assert a + b == b;
    } else {
      assert (a + b)[0] == a[0] && (a + b)[1..] == a[1..] + b;
      PayloadsAppend(a[1..], b);
    }
  }

  /** `_reg_write` sends the two bytes [address | write bit, value]. */
  lemma FramePayload(reg: byte, val: byte)
    ensures Payloads(WriteFrame(reg, val)) == [[WireAddress(reg), val]]
  {
    var f := WriteFrame(reg, val);
    assert f[1..][1..][1..] == [];
    assert Payloads(f[1..][1..]) == [];
    assert Payloads(f[1..]) == [[WireAddress(reg), val]];
  }

  /** The SPI payloads of a burst write are exactly [address | write bit,
      value] for each pair, in index order. */
  lemma {:induction false} WriteFramesPayloads(addrs: seq<byte>, vals: seq<byte>)
    requires |addrs| == |vals|
    ensures Payloads(WriteFrames(addrs, vals))
         == seq(|addrs|, i requires 0 <= i < |addrs| => [WireAddress(addrs[i]), vals[i]])
    decreases |addrs|
  {
    if addrs != [] {
      var f := WriteFrame(addrs[0], vals[0]);
      PayloadsAppend(f, WriteFrames(addrs[1..], vals[1..]));
      WriteFramesPayloads(addrs[1..], vals[1..]);
      FramePayload(addrs[0], vals[0]);
    }
  }

  /** A gated write sends the clock-enable command, the payload writes in
      index order, then the clock-disable command. */
  lemma GatedPayloads(addrs: seq<byte>, vals: seq<byte>)
    requires |addrs| == |vals|
    ensures Payloads(Gated(addrs, vals))
         == [[0xC1, SPI_CLOCK_CMD_ENABLE]]
          + seq(|addrs|, i requires 0 <= i < |addrs| => [WireAddress(addrs[i]), vals[i]])
          + [[0xC1, SPI_CLOCK_CMD_DISABLE]]
  {
    var en := WriteFrame(REG_SPI_CLK_ON_REQ, SPI_CLOCK_CMD_ENABLE);
    var dis := WriteFrame(REG_SPI_CLK_ON_REQ, SPI_CLOCK_CMD_DISABLE);
    PayloadsAppend(en + WriteFrames(addrs, vals), dis);
    PayloadsAppend(en, WriteFrames(addrs, vals));
    WriteFramesPayloads(addrs, vals);
    FramePayload(REG_SPI_CLK_ON_REQ, SPI_CLOCK_CMD_ENABLE);
    FramePayload(REG_SPI_CLK_ON_REQ, SPI_CLOCK_CMD_DISABLE);
  }

  /** A single-register `reg_write` is the three frames in a row. */
  lemma GatedSingle(reg: byte, val: byte)
    ensures Gated([reg], [val])
         == WriteFrame(REG_SPI_CLK_ON_REQ, SPI_CLOCK_CMD_ENABLE) + WriteFrame(reg, val)
          + WriteFrame(REG_SPI_CLK_ON_REQ, SPI_CLOCK_CMD_DISABLE)
  {
    assert [reg][1..] == [] && [val][1..] == [];
    assert WriteFrames([reg], [val]) == WriteFrame(reg, val) + [];
  }

  /** Level of the chip-select line after a trace, starting from `level`; a
      failed `SetCs` leaves the line as it was. */
  function CsLevel(events: seq<Event>, level: bool): bool
    decreases |events|
  {
    if events == [] then level
    else CsLevel(events[1..],
                 if events[0].call.SetCs? && events[0].err == 0 then events[0].call.active else level)
  }

  /** A frame that selects the chip, then makes calls that do not touch the
      chip select, then deselects it. */
  predicate Framed(plan: seq<Step>)
  {
    && |plan| >= 2
    && plan[0] == Do(SetCs(true))
    && plan[|plan| - 1] == Do(SetCs(false))
    && forall i :: 0 < i < |plan| - 1 ==> plan[i].Do? && !plan[i].call.SetCs?
  }

  lemma FramesAreFramed(reg: byte, val: byte, n: nat)
    ensures Framed(WriteFrame(reg, val)) && Framed(ReadFrame(reg)) && Framed(BurstReadFrame(n))
  {
  }

  /** When only the last call of a trace may touch the chip select, the
      line ends where that call leaves it. */
  lemma {:induction false} CsLevelUntilLast(ev: seq<Event>, level: bool)
    requires |ev| > 0
    requires forall i :: 0 <= i < |ev| - 1 ==> !ev[i].call.SetCs?
    ensures var last := ev[|ev| - 1];
            CsLevel(ev, level) == if last.call.SetCs? && last.err == 0 then last.call.active else level
    decreases |ev|
  {
    if |ev| > 1 {
      forall i | 0 <= i < |ev[1..]| - 1 ensures !ev[1..][i].call.SetCs? {
        assert ev[1..][i] == ev[i + 1];
      }
      CsLevelUntilLast(ev[1..], level);
    }
  }

  /** A single-register transaction releases the chip select exactly when it
      succeeds: on an error after selecting, the driver returns without
      deselecting, and the line stays asserted. */
  lemma ChipSelectReleasedIffSuccess(o: Oracle, k: nat, plan: seq<Step>)
    requires Framed(plan)
    requires o.status(k) == 0
    ensures CsLevel(Run(o, k, plan).events, false) <==> Run(o, k, plan).err != 0
  {
    RunPerformsPrefix(o, k, plan);
    RunStopsAtFirstError(o, k, plan);
    RunErrorSource(o, k, plan);
    var r := Run(o, k, plan);
    var n := |r.events|;
    assert n >= 2 by {
      assert plan[1].Do?;
    }
    assert CsLevel(r.events, false) == CsLevel(r.events[1..], true);
    forall i | 0 <= i < |r.events[1..]| - 1 ensures !r.events[1..][i].call.SetCs? {
      assert r.events[1..][i] == r.events[i + 1];
    }
    CsLevelUntilLast(r.events[1..], true);
    assert r.events[1..][n - 2] == r.events[n - 1];
    assert plan[n - 1].Do?;
  }

  /** When selecting the chip fails, the transaction fails at once and the
      line stays released. */
  lemma ChipSelectUntouchedOnFailedSelect(o: Oracle, k: nat, plan: seq<Step>)
    requires Framed(plan)
    requires o.status(k) != 0
    ensures Run(o, k, plan).err != 0 && !CsLevel(Run(o, k, plan).events, false)
  {
  }

  // ---------------------------------------------------------------------
  // The bus and the transport operations

  /** The SPI bus together with the chip-select and interrupt GPIO lines: the
      trace of every call the driver made on them. */
  class Bus {
    const oracle: Oracle
    var trace: seq<Event>

    constructor (oracle: Oracle)
      ensures this.oracle == oracle && trace == []
    {
      this.oracle := oracle;
      trace := [];
    }

    /** One call into the SPI or GPIO driver. */
    method Transfer(c: Call) returns (e: Event)
      modifies this
      ensures e == Perform(oracle, old(|trace|), c)
      ensures trace == old(trace) + [e]
    {
      e := Perform(oracle, |trace|, c);
      trace := trace + [e];
    }

    /** `spi_cs_ctrl`: set the chip-select line and return the GPIO result. */
    method SetChipSelect(active: bool) returns (err: int)
      modifies this
      ensures trace == old(trace) + [Perform(oracle, old(|trace|), SetCs(active))]
      ensures err == oracle.status(old(|trace|))
    {
      var e := Transfer(SetCs(active));
      err := e.err;
    }

    /** `reg_read`. */
    method ReadRegister(reg: byte) returns (err: int, value: byte)
      requires AddressOk(reg)
      modifies this
      ensures var r := Run(oracle, old(|trace|), ReadFrame(reg));
              trace == old(trace) + r.events && err == r.err
      ensures err == 0 ==> value == oracle.data(old(|trace|) + 2, 0)
    {
      RunFour(oracle, |trace|, SetCs(true), SpiWrite([reg]), SpiRead(1), SetCs(false));
      value := 0;
      err := SetChipSelect(true);
      if err != 0 { return; }
      var e := Transfer(SpiWrite([reg]));
      if e.err != 0 { err := e.err; return; }
      e := Transfer(SpiRead(1));
      if e.err != 0 { err := e.err; return; }
      value := e.rx[0];
      err := SetChipSelect(false);
    }

    /** `_reg_write`: one register write without the clock-gate bracket. */
    method WriteRaw(reg: byte, val: byte) returns (err: int)
      requires AddressOk(reg)
      modifies this
      ensures var r := Run(oracle, old(|trace|), WriteFrame(reg, val));
              trace == old(trace) + r.events && err == r.err
    {
      RunThree(oracle, |trace|, SetCs(true), SpiWrite([WireAddress(reg), val]), SetCs(false));
      err := SetChipSelect(true);
      if err != 0 { return; }
      var e := Transfer(SpiWrite([WireAddress(reg), val]));
      if e.err != 0 { err := e.err; return; }
      err := SetChipSelect(false);
    }

    /** `reg_write`: enable the SPI clock, write the register, disable the
        clock, returning on the first error. */
    method WriteRegister(reg: byte, val: byte) returns (err: int)
      requires AddressOk(reg)
      modifies this
      ensures var r := Run(oracle, old(|trace|), Gated([reg], [val]));
              trace == old(trace) + r.events && err == r.err
    {
      ghost var k, t0 := |trace|, trace;
      ghost var en := WriteFrame(REG_SPI_CLK_ON_REQ, SPI_CLOCK_CMD_ENABLE);
      ghost var mid := WriteFrame(reg, val);
      ghost var dis := WriteFrame(REG_SPI_CLK_ON_REQ, SPI_CLOCK_CMD_DISABLE);
      GatedSingle(reg, val);
      RunThreeParts(oracle, k, en, mid, dis);

      ghost var r0 := Run(oracle, k, en);
      err := WriteRaw(REG_SPI_CLK_ON_REQ, SPI_CLOCK_CMD_ENABLE);
      if err != 0 { return; }
      ghost var r1 := Continue(oracle, k, r0, mid);
      ContinueTrace(oracle, k, t0, r0, mid);
      err := WriteRaw(reg, val);
      assert trace == t0 + r1.events && err == r1.err;
      if err != 0 { return; }
      ContinueTrace(oracle, k, t0, r1, dis);
      err := WriteRaw(REG_SPI_CLK_ON_REQ, SPI_CLOCK_CMD_DISABLE);
    }

    /** `motion_burst_read`: read `n` motion registers in one transaction. */
    method BurstRead(n: nat) returns (err: int, buf: seq<byte>)
      requires n <= MAX_BURST_SIZE
      modifies this
      ensures var r := Run(oracle, old(|trace|), BurstReadFrame(n));
              trace == old(trace) + r.events && err == r.err
      ensures err == 0 ==> buf == Received(oracle, old(|trace|) + 2, n)
    {
      RunFour(oracle, |trace|, SetCs(true), SpiWrite([REG_MOTION_BURST]), SpiRead(n), SetCs(false));
      buf := [];
      err := SetChipSelect(true);
      if err != 0 { return; }
      var e := Transfer(SpiWrite([REG_MOTION_BURST]));
      if e.err != 0 { err := e.err; return; }
      e := Transfer(SpiRead(n));
      if e.err != 0 { err := e.err; return; }
      buf := e.rx;
      err := SetChipSelect(false);
    }

    /** `burst_write`: enable the SPI clock, write `vals[i]` to `addrs[i]` for
        each i in order, disable the clock; the first error aborts. */
    method BurstWrite(addrs: seq<byte>, vals: seq<byte>) returns (err: int)
      requires |addrs| == |vals|
      requires forall i :: 0 <= i < |addrs| ==> AddressOk(addrs[i])
      modifies this
      ensures var r := Run(oracle, old(|trace|), Gated(addrs, vals));
              trace == old(trace) + r.events && err == r.err
    {
      ghost var k, t0 := |trace|, trace;
      ghost var en := WriteFrame(REG_SPI_CLK_ON_REQ, SPI_CLOCK_CMD_ENABLE);
      ghost var body := WriteFrames(addrs, vals);
      ghost var dis := WriteFrame(REG_SPI_CLK_ON_REQ, SPI_CLOCK_CMD_DISABLE);

      err := WriteRaw(REG_SPI_CLK_ON_REQ, SPI_CLOCK_CMD_ENABLE);
      GatedSplit(addrs, vals, 0);
      assert addrs[..0] == [] && vals[..0] == [] && en + [] == en;
      if err != 0 {
        RunAppend(oracle, k, en, WriteFrames(addrs, vals) + dis);
        return;
      }
      var i := 0;
      while i < |addrs|
        invariant 0 <= i <= |addrs|
        invariant Run(oracle, k, en + WriteFrames(addrs[..i], vals[..i])).err == 0
        invariant trace == t0 + Run(oracle, k, en + WriteFrames(addrs[..i], vals[..i])).events
      {
        ghost var done := en + WriteFrames(addrs[..i], vals[..i]);
        ghost var f := WriteFrame(addrs[i], vals[i]);
        RunAppend(oracle, k, done, f);
        ContinueTrace(oracle, k, t0, Run(oracle, k, done), f);
        WriteFramesSnoc(addrs, vals, i);
        assert en + WriteFrames(addrs[..i + 1], vals[..i + 1]) == done + f;
        err := WriteRaw(addrs[i], vals[i]);
        if err != 0 {
          GatedSplit(addrs, vals, i + 1);
          RunAppend(oracle, k, done + f, WriteFrames(addrs[i + 1..], vals[i + 1..]) + dis);
          return;
        }
        i := i + 1;
      }
      assert addrs[..i] == addrs && vals[..i] == vals;
      RunAppend(oracle, k, en + body, dis);
      ContinueTrace(oracle, k, t0, Run(oracle, k, en + body), dis);
      err := WriteRaw(REG_SPI_CLK_ON_REQ, SPI_CLOCK_CMD_DISABLE);
    }
  }
}
