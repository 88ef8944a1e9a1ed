# PMW3610 sensor driver and battery icon, modelled in Dafny

This project models two parts of a ZMK keyboard firmware tree.

The first is the PixArt PMW3610 optical-sensor driver. Every SPI and GPIO call the driver makes is an `Event` appended to a bus trace. An `Oracle` stands for the hardware and decides each call's return code and the bytes read. The model covers these parts of the driver:

- The register transport. Reads put the address with bit 7 clear on the bus. Writes send `reg | 0x80`. Every `reg_write` and every burst write is wrapped once in the SPI clock enable (0x41, 0xBA) and disable (0x41, 0xB5). The first failing call aborts the transaction. Once chip select has been asserted, a failing call leaves it asserted; when asserting it fails, the line stays released.
- Motion-burst decoding: the 12-bit sign extension, division by the CPI divisor rounding toward zero, the four orientation presets, and the 9-bit shutter with its smart-mode hysteresis.
- Attribute conversion: the range checks and the register codes for CPI, sample times and downshift times.
- The four-step asynchronous initialisation, with its step table and its delays of 10, 200, 50 and 0 ms.
- The ready gate of fetch, channel get, attribute set and trigger set.
- The interrupt and trigger-work bookkeeping.

The second is the Corne-ish Zen battery widget. The charge level is put in one of six buckets. The icon is replaced only when the bucket or the USB power state differs from the cached pair.

Files and modules:

- `base.dfy` (`Base`): C integer widths, `Option`, errno values.
- `transport.dfy` (`Transport`): the trace engine `Run`, the frames, and class `Bus` with the transport operations.
- `motion.dfy` (`MotionDecode`): decoding, orientation and the hysteresis.
- `attributes.dfy` (`Attributes`): the code conversions and the plans of `set_cpi`, `set_sample_time`, `set_downshift_time`, `pmw3610_attr_set` and the init steps.
- `pmw3610.dfy` (`Pmw3610`): the init state machine and class `Device`.
- `battery_status.dfy` (`BatteryStatus`): the widget.

A plan is a sequence of steps, each `Do(call)` or `Reject(errno)`. `Run` executes a plan against the oracle and stops at the first failing call. A `Reject` step is a range check that fails without bus traffic. Each transport method is proved to append exactly `Run(...)` of its plan to the trace and to return its error. The plans' own properties are proved as lemmas.

## Model

| member | source | states |
|---|---|---|
| Base.ToU32 | app/drivers/sensor/pixart/pmw3610/pmw3610.c:111-112 | the cast of `val1` to `uint32_t` keeps non-negative values and adds 2^32 to negative ones |
| Transport.RunPerformsPrefix | app/drivers/sensor/pixart/pmw3610/pmw3610.c:178-233 | a transaction issues a prefix of its planned calls, in order, each at its own trace position |
| Transport.RunStopsAtFirstError | app/drivers/sensor/pixart/pmw3610/pmw3610.c:236-278 | every call but the last one issued succeeded; on success every planned call was issued and succeeded |
| Transport.RunErrorSource | app/drivers/sensor/pixart/pmw3610/pmw3610.c:280-302 | the error returned is the last issued call's error, or else the range check at which the plan stopped |
| Transport.RunAppend | app/drivers/sensor/pixart/pmw3610/pmw3610.c:280-302 | two transactions in sequence: the second runs at the end of the first only if the first succeeded |
| Transport.JoinStopsAtFailure | app/drivers/sensor/pixart/pmw3610/pmw3610.c:646-698 | once a sub-operation has failed, no later one runs and its error is the result |
| Transport.WireAddress | app/drivers/sensor/pixart/pmw3610/pmw3610.c:249-252 | the address byte of a write has bit 7 set and keeps the register's low seven bits |
| Transport.WriteFramesAppend | app/drivers/sensor/pixart/pmw3610/pmw3610.c:377-384 | writing two lists of registers is writing the first list and then the second |
| Transport.WriteFramesPayloads | app/drivers/sensor/pixart/pmw3610/pmw3610.c:377-384 | the i-th SPI write of a burst is `[addr[i] \| 0x80, buf[i]]`, in index order |
| Transport.GatedPayloads | app/drivers/sensor/pixart/pmw3610/pmw3610.c:366-393 | a gated burst sends clock enable `[0xC1, 0xBA]`, the register writes in order, then clock disable `[0xC1, 0xB5]` |
| Transport.FramesAreFramed | app/drivers/sensor/pixart/pmw3610/pmw3610.c:178-363 | every read, write and burst-read transaction asserts chip select first and releases it last |
| Transport.ChipSelectReleasedIffSuccess | app/drivers/sensor/pixart/pmw3610/pmw3610.c:186-228 | once chip select is asserted, it is left asserted exactly when the transaction fails |
| Transport.ChipSelectUntouchedOnFailedSelect | app/drivers/sensor/pixart/pmw3610/pmw3610.c:186-189 | when asserting chip select fails, the transaction fails at once and the line stays released |
| Transport.Bus.Transfer | app/drivers/sensor/pixart/pmw3610/pmw3610.c:164 | one GPIO or SPI call appends its event to the trace |
| Transport.Bus.SetChipSelect | app/drivers/sensor/pixart/pmw3610/pmw3610.c:155-174 | sets chip select and returns the GPIO call's result |
| Transport.Bus.ReadRegister | app/drivers/sensor/pixart/pmw3610/pmw3610.c:178-233 | appends the `reg_read` transaction, returns its first error, and on success returns the byte read |
| Transport.Bus.WriteRaw | app/drivers/sensor/pixart/pmw3610/pmw3610.c:236-278 | appends the `_reg_write` transaction (CS on, `[reg \| 0x80, val]`, CS off) and returns its first error |
| Transport.Bus.WriteRegister | app/drivers/sensor/pixart/pmw3610/pmw3610.c:280-302 | appends clock enable, the write and clock disable, stopping at the first error |
| Transport.Bus.BurstRead | app/drivers/sensor/pixart/pmw3610/pmw3610.c:304-363 | appends the motion-burst transaction and on success returns the `n` bytes read |
| Transport.Bus.BurstWrite | app/drivers/sensor/pixart/pmw3610/pmw3610.c:366-393 | appends clock enable, the writes `addr[i] := buf[i]` in index order and clock disable, stopping at the first error |
| MotionDecode.RawX | app/drivers/sensor/pixart/pmw3610/pmw3610.c:895 | the raw X value has `buf[1]` as its low byte and the high nibble of `buf[3]` as its top bits |
| MotionDecode.RawY | app/drivers/sensor/pixart/pmw3610/pmw3610.c:896 | the raw Y value has `buf[2]` as its low byte and the low nibble of `buf[3]` as its top bits |
| MotionDecode.Sext12 | app/drivers/sensor/pixart/pmw3610/pmw3610.c:11 | the 12-bit sign extension lies in [-2048, 2047], agrees with the raw value modulo 4096, and is negative iff bit 11 is set |
| MotionDecode.Sext12Pack12 | app/drivers/sensor/pixart/pmw3610/pmw3610.c:11 | sign extension undoes 12-bit packing |
| MotionDecode.Pack12Sext12 | app/drivers/sensor/pixart/pmw3610/pmw3610.c:11 | 12-bit packing undoes sign extension |
| MotionDecode.DecodePackDeltas | app/drivers/sensor/pixart/pmw3610/pmw3610.c:895-896 | decoding the registers that encode (x, y) gives back (x, y) |
| MotionDecode.PackDecodedDeltas | app/drivers/sensor/pixart/pmw3610/pmw3610.c:895-896 | encoding the decoded deltas gives back the three delta bytes |
| MotionDecode.TruncDivRounding | app/drivers/sensor/pixart/pmw3610/pmw3610.c:895-896 | the C division by the divisor rounds toward zero |
| MotionDecode.TruncDivOdd | app/drivers/sensor/pixart/pmw3610/pmw3610.c:895-896 | dividing a negated delta gives the negated quotient |
| MotionDecode.TruncDivShrinks | app/drivers/sensor/pixart/pmw3610/pmw3610.c:895-896 | the quotient keeps the sign of the delta and is no larger in magnitude |
| MotionDecode.DeltaX | app/drivers/sensor/pixart/pmw3610/pmw3610.c:895 | x is the sign-extended raw X divided toward zero, within [-2048, 2047] |
| MotionDecode.DeltaY | app/drivers/sensor/pixart/pmw3610/pmw3610.c:896 | y is the sign-extended raw Y divided toward zero, within [-2048, 2047] |
| MotionDecode.Orient | app/drivers/sensor/pixart/pmw3610/pmw3610.c:898-910 | preset 0 gives (-x, y), 90 gives (y, -x), 180 gives (x, -y), 270 gives (-y, x) |
| MotionDecode.OrientPermutesAxes | app/drivers/sensor/pixart/pmw3610/pmw3610.c:898-910 | each output component is plus or minus one input component: the same axes for 0 and 180, swapped for 90 and 270 |
| MotionDecode.OrientFitsInt16 | app/drivers/sensor/pixart/pmw3610/pmw3610.c:898-910 | negating a decoded delta never overflows `int16_t` |
| MotionDecode.ReflectionsAreInvolutions | app/drivers/sensor/pixart/pmw3610/pmw3610.c:898-910 | applying preset 0, or preset 180, twice is the identity |
| MotionDecode.RotationsAreInverse | app/drivers/sensor/pixart/pmw3610/pmw3610.c:898-910 | presets 90 and 270 undo each other |
| MotionDecode.NinetyTwiceIsNotOneEighty | app/drivers/sensor/pixart/pmw3610/pmw3610.c:898-910 | preset 90 applied twice gives (-x, -y) for every (x, y), which differs from what preset 180 reports whenever x is not 0 |
| MotionDecode.Motion | app/drivers/sensor/pixart/pmw3610/pmw3610.c:895-910 | the stored (x, y) are the oriented decoded deltas |
| MotionDecode.Shutter | app/drivers/sensor/pixart/pmw3610/pmw3610.c:913-914 | the shutter lies in [0, 511], with `buf[6]` as low byte and bit 0 of `buf[5]` as bit 8 |
| MotionDecode.SmartStep | app/drivers/sensor/pixart/pmw3610/pmw3610.c:915-925 | the flag becomes false below 45 and true above 45 and stays at 45; 0x32 is written only when the flag changes, with 0x80 for on and 0x00 for off |
| MotionDecode.FlagFollowsLastDecisive | app/drivers/sensor/pixart/pmw3610/pmw3610.c:913-925 | after any series of fetches the flag is decided by the last shutter other than 45, or is still the initial flag |
| MotionDecode.WritesAlternate | app/drivers/sensor/pixart/pmw3610/pmw3610.c:915-925 | the writes to 0x32 strictly alternate between 0x80 and 0x00, and their parity gives the final flag |
| MotionDecode.CrossingAlwaysWrites | app/drivers/sensor/pixart/pmw3610/pmw3610.c:913-925 | starting from a clear flag, shutters 50, 40, 50 write 0x80, 0x00, 0x80 |
| Attributes.CpiCode | app/drivers/sensor/pixart/pmw3610/pmw3610.c:421-427 | a code exists iff 200 <= cpi <= 3200, and it is cpi / 200, in [1, 16] |
| Attributes.SampleCode | app/drivers/sensor/pixart/pmw3610/pmw3610.c:445-452 | a code exists iff 10 <= t <= 2550, and it is t / 10, in [1, 255] |
| Attributes.DownshiftUnit | app/drivers/sensor/pixart/pmw3610/pmw3610.c:472-503 | only the run, rest1 and rest2 downshift registers have a unit (32, 16 x rest1, 128 x rest2); it is positive and 255 units fit in 32 bits |
| Attributes.DownshiftCode | app/drivers/sensor/pixart/pmw3610/pmw3610.c:505-513 | a code exists iff unit <= t <= 255 x unit, and it is t / unit, in [1, 255] |
| Attributes.CpiPlanEffect | app/drivers/sensor/pixart/pmw3610/pmw3610.c:412-440 | an out-of-range CPI gives -EINVAL with no bus traffic; otherwise the writes are clock enable, (0x7F, 0xFF), (0x85, cpi / 200), (0x7F, 0x00), clock disable |
| Attributes.CpiAddrsAsWrittenFailsCheck | app/drivers/sensor/pixart/pmw3610/pmw3610.c:431-433 | the address 0x85 as written fails the bit-7 assertion of `_reg_write` (line 242); the corrected addresses pass it and put the same bytes on the wire |
| Attributes.SamplePlanEffect | app/drivers/sensor/pixart/pmw3610/pmw3610.c:443-462 | an out-of-range time gives -EINVAL with no bus traffic; otherwise one gated write of t / 10 |
| Attributes.DownshiftPlanEffect | app/drivers/sensor/pixart/pmw3610/pmw3610.c:505-523 | for a downshift register and a time in [unit, 255 x unit], with unit 32 for run, 16 x rest1 and 128 x rest2, the plan is one gated write of time / unit to that register |
| Attributes.DownshiftPlanRejects | app/drivers/sensor/pixart/pmw3610/pmw3610.c:467-523 | an unknown register gives -ENOTSUP before any range check; a time outside each register's range gives -EINVAL, both with no bus traffic |
| Attributes.AttrGates | app/drivers/sensor/pixart/pmw3610/pmw3610.c:525-588 | a channel other than "all" gives -ENOTSUP before readiness is checked, a device not ready gives -EBUSY, an unknown attribute -ENOTSUP, and a negative value, which the `uint32_t` cast turns into 2^31 or more, -EINVAL, all with no bus traffic |
| Attributes.ConfigureStopsAtBadCpi | app/drivers/sensor/pixart/pmw3610/pmw3610.c:640-649 | with an out-of-range configured CPI, configure fails with -EINVAL right after the motion-register reads, or with their error |
| Pmw3610.StepIndex | app/drivers/sensor/pixart/pmw3610/pmw3610.c:117-124 | the steps are numbered 0 to 3 and `Complete` is 4 |
| Pmw3610.Next | app/drivers/sensor/pixart/pmw3610/pmw3610.c:715 | the next step has the following number |
| Pmw3610.AfterStep | app/drivers/sensor/pixart/pmw3610/pmw3610.c:711-724 | the result is recorded; a failure keeps the step and schedules nothing; a success advances the step; ready exactly at the end and scheduling with the new step's delay are preserved |
| Pmw3610.BootSequence | app/drivers/sensor/pixart/pmw3610/pmw3610.c:129-138 | with every step succeeding the next step is scheduled after 200, 50 and 0 ms, and the fourth success makes the device ready with nothing scheduled |
| Pmw3610.InitMovesForward | app/drivers/sensor/pixart/pmw3610/pmw3610.c:715 | steps never go back |
| Pmw3610.ReadyNeedsEverySuccess | app/drivers/sensor/pixart/pmw3610/pmw3610.c:711-720 | the device becomes ready only if every remaining step succeeded, in order |
| Pmw3610.FailedInitIsFinal | app/drivers/sensor/pixart/pmw3610/pmw3610.c:712-713 | after a failed step nothing runs again, the error stays and the device stays not ready |
| Pmw3610.InitResult | app/drivers/sensor/pixart/pmw3610/pmw3610.c:789-876 | `pmw3610_init` succeeds iff every readiness check and pin set-up call does; an unready SPI bus, CS port or IRQ port gives -ENODEV; a failing CS or IRQ pin configure returns its error, checked in that order |
| Pmw3610.Device.constructor | app/drivers/sensor/pixart/pmw3610/pmw3610.c:1014-1044 | the driver data starts zeroed: step 0, not ready, no handler, interrupt off |
| Pmw3610.Device.Init | app/drivers/sensor/pixart/pmw3610/pmw3610.c:824-876 | clears the smart flag; on success schedules the first step after 10 ms, on failure schedules nothing |
| Pmw3610.Device.PowerUpStep | app/drivers/sensor/pixart/pmw3610/pmw3610.c:590-600 | toggles chip select, ignoring both results, then writes 0x5A to 0x3A and returns that write's error |
| Pmw3610.Device.ClearOb1Step | app/drivers/sensor/pixart/pmw3610/pmw3610.c:602-607 | writes 0x00 to OBSERVATION and returns the write's error |
| Pmw3610.Device.CheckOb1Step | app/drivers/sensor/pixart/pmw3610/pmw3610.c:609-632 | reads OBSERVATION, returns the read's error, else -EINVAL unless the low nibble is 0xF |
| Pmw3610.Device.SetCpi | app/drivers/sensor/pixart/pmw3610/pmw3610.c:412-440 | appends exactly the CPI plan's events and returns its error |
| Pmw3610.Device.SetSampleTime | app/drivers/sensor/pixart/pmw3610/pmw3610.c:443-462 | appends exactly the sample-time plan's events and returns its error |
| Pmw3610.Device.SetDownshiftTime | app/drivers/sensor/pixart/pmw3610/pmw3610.c:467-523 | appends exactly the downshift plan's events and returns its error |
| Pmw3610.Device.ConfigureStep | app/drivers/sensor/pixart/pmw3610/pmw3610.c:634-700 | reads registers 0x02 to 0x05, then applies CPI, performance, the three sample times and the three downshift times, each only while no error occurred, and returns the first error |
| Pmw3610.Device.RunStep | app/drivers/sensor/pixart/pmw3610/pmw3610.c:145-150 | the step table runs the current step's function |
| Pmw3610.Device.AsyncInit | app/drivers/sensor/pixart/pmw3610/pmw3610.c:703-725 | runs the current step and moves the init state as `AfterStep` says, keeping the driver invariant |
| Pmw3610.Device.Record | app/drivers/sensor/pixart/pmw3610/pmw3610.c:711-724 | records the step's result into the driver data as `AfterStep` says |
| Pmw3610.Device.AttrSet | app/drivers/sensor/pixart/pmw3610/pmw3610.c:525-588 | appends exactly the attribute plan's events and returns its error |
| Pmw3610.Device.Fetch | app/drivers/sensor/pixart/pmw3610/pmw3610.c:878-930 | -ENOTSUP for a channel other than "all", then -EBUSY when not ready, both with no bus access; a failed burst changes no data; otherwise stores the oriented deltas and runs the hysteresis |
| Pmw3610.Device.SmartAlgorithm | app/drivers/sensor/pixart/pmw3610/pmw3610.c:912-926 | the flag becomes `SmartStep`'s flag, and 0x32 is written exactly when the flag changes, whatever the write returns |
| Pmw3610.Device.ChannelGet | app/drivers/sensor/pixart/pmw3610/pmw3610.c:932-958 | -EBUSY when not ready, before the channel is looked at; DX and DY report (x, 0) and (y, 0); other channels -ENOTSUP |
| Pmw3610.Device.TriggerSet | app/drivers/sensor/pixart/pmw3610/pmw3610.c:966-1012 | -ENOTSUP for a wrong type or channel, then -EBUSY, all with no GPIO access; otherwise configures the interrupt on or off, keeps the handler only if that succeeded, and always keeps the trigger |
| Pmw3610.Device.IrqHandler | app/drivers/sensor/pixart/pmw3610/pmw3610.c:728-747 | switches the interrupt off and submits the work; a failure halts |
| Pmw3610.Device.TriggerHandler | app/drivers/sensor/pixart/pmw3610/pmw3610.c:749-787 | with no handler nothing happens and the interrupt stays off; otherwise the handler is called once; a `trigger_set` it makes takes effect (one IRQ configure, the new trigger, the new handler if that succeeded); then the interrupt is re-enabled exactly when a handler is still set, halting if that fails |
| Pmw3610.Device.ResumeIrq | app/drivers/sensor/pixart/pmw3610/pmw3610.c:776-786 | with a handler set, one IRQ configure to level-active, which on success re-enables the interrupt and ends the work and on failure halts; with none, no GPIO call |
| Pmw3610.ConfigureUnfold | app/drivers/sensor/pixart/pmw3610/pmw3610.c:640-698 | configure is its nine sub-operations, each run only after the previous ones succeeded |
| BatteryStatus.Bucket | app/boards/arm/corne-ish_zen/widgets/battery_status.c:75-87 | the state is in [0, 5]; it is at least 5, 4, 3, 2, 1 exactly when the level is above 87, 62, 37, 12, 5 |
| BatteryStatus.BucketMonotone | app/boards/arm/corne-ish_zen/widgets/battery_status.c:75-87 | a higher level never gives a lower state |
| BatteryStatus.IconFor | app/boards/arm/corne-ish_zen/widgets/battery_status.c:91-110 | the charging variant is chosen iff USB powers the board; the empty image is shown exactly for state 0 and states above 5 |
| BatteryStatus.IconsAreDistinct | app/boards/arm/corne-ish_zen/widgets/battery_status.c:91-110 | distinct (state, usb) pairs show distinct icons |
| BatteryStatus.IconIsNearest | app/boards/arm/corne-ish_zen/widgets/battery_status.c:75-110 | for levels up to 100 the image depicts a charge within 12 points of the level |
| BatteryStatus.Refresh | app/boards/arm/corne-ish_zen/widgets/battery_status.c:67-116 | an icon is set iff the state or USB flag differs from the cached pair, and it is that pair's icon; the cache always ends as (state, usb) |
| BatteryStatus.RefreshIdempotent | app/boards/arm/corne-ish_zen/widgets/battery_status.c:90-112 | a second call with the same level and USB state sets no icon and changes nothing |
| BatteryStatus.FirstRefreshMaySetNothing | app/boards/arm/corne-ish_zen/widgets/battery_status.c:90 | from the zeroed cache of lines 60-65, a level of at most 5 without USB sets no icon at all |
| BatteryStatus.RefreshKeepsInSync | app/boards/arm/corne-ish_zen/widgets/battery_status.c:90-113 | a widget showing its cache's icon keeps doing so, and afterwards shows the current icon unless it was blank and nothing changed |
| BatteryStatus.Widget.constructor | app/boards/arm/corne-ish_zen/widgets/battery_status.c:121 | a new image object shows nothing |
| BatteryStatus.Status.constructor | app/boards/arm/corne-ish_zen/widgets/battery_status.c:60-65 | the static state, and the style flag of line 38, start zeroed |
| BatteryStatus.Status.SetBatterySymbol | app/boards/arm/corne-ish_zen/widgets/battery_status.c:67-116 | updates the icon and the cache as `Refresh` says; only the level and USB state are read |
| BatteryStatus.Status.Listener | app/boards/arm/corne-ish_zen/widgets/battery_status.c:144-155 | stores the battery level and the USB state and nothing else |
| BatteryStatus.Status.Init | app/boards/arm/corne-ish_zen/widgets/battery_status.c:40-56 | the style is set up on the first call only |

The model follows the code in these places, where a reader might expect something else:

- Presets 0 and 180 are reflections. Preset 90 applied twice is not preset 180.
- The smart flag starts false. A series of shutters 50, 40, 50 therefore writes register 0x32 three times.
- The driver keeps only one direction of the interrupt invariant: with no handler the interrupt is off. A handler can be set while the interrupt is off, as long as the trigger work has yet to re-enable it.
- `trigger_set` with no handler clears the stored handler only when switching the interrupt off succeeded.
- The self-test failure returns -EINVAL.
- The cached pair of the battery widget is shared by all widgets. After one widget has been refreshed, a second one refreshed with the same level sets no icon (`RefreshIdempotent`).

## Left out

- Timing: the `k_busy_wait` delays carry no logic and are not modelled. The init delays are modelled only as the value the work is scheduled with.
- Foreign calls: SPI and GPIO calls are the oracle's answers. The readiness checks and pin set-up calls of `pmw3610_init` and `pmw3610_init_irq` are the `Platform` parameter. `gpio_init_callback` and `k_work_init` have no result and are not modelled.
- When configuring the interrupt fails, the line is assumed to keep its previous mode. The GPIO driver is not part of this model.
- When setting the chip-select line fails, the line is assumed to keep its previous level (`CsLevel`). The GPIO driver is not part of this model.
- Configuration values are limited to those `ValidConfig` admits: a CPI divisor of at least 1, rest1 and rest2 sample times of at least 1 ms, and 255 downshift units that fit in 32 bits. A divisor of 0 would be a division by zero in C. A rest sample time below 1 ms, or one so large that 255 units overflow, lies outside [10, 2550] ms, so `set_sample_time` rejects it during configure and the device never becomes ready. No such device is modelled.
- `k_panic` is modelled as a `halted` flag. Only the interrupt handler and the trigger work require it to be clear; the other entry points are not restricted by it, although on the device nothing runs after a panic.
- Concurrency: the spinlock, interrupt preemption and the work queues are not modelled. Each handler is one atomic method, and a submitted work item is the `workPending` flag.
- The application's data-ready handler is foreign code. It is modelled as one recorded invocation plus an optional `trigger_set` call made from inside it (`TriggerRequest`).
- The orientation presets are Kconfig switches. The model assumes exactly one is enabled. With none enabled, the code would leave x and y unchanged.
- `CONFIG_PMW3610_SMART_ALGORITHM` is the `smartAlgorithm` flag of the configuration.
- Devicetree instantiation and logging are not modelled.
- `check_product_id` is not modelled: it is referenced only from commented-out code.
- `app/src/battery.c` is not part of this model.
- LVGL in the battery widget is not modelled: styles, fonts, image creation, the widget list traversal, the mutex and the display work queue. `lv_img_set_src` becomes assigning an `Icon` to `Widget.src`. The style setup is counted in `styleSetups`.
- The bitmap asset files are not part of this model.

## Findings

| source | as written | input that shows it | evidently intended | confidence | as-written member | corrected member |
|---|---|---|---|---|---|---|
| app/drivers/sensor/pixart/pmw3610/pmw3610.c:431-433 | `set_cpi` passes `PMW3610_REG_RES_STEP` (0x85) to `burst_write`, whose `_reg_write` asserts that bit 7 of the register is clear (line 242) | any in-range CPI, e.g. 800: the second write has register 0x85, so `(0x85 & 0x80) != 0` and the assertion fails in a build with assertions | the page-1 register number 0x05, which puts the same byte 0x85 on the wire | not executed | Attributes.CpiAddrsAsWrittenFailsCheck | Attributes.CpiPlanEffect |
