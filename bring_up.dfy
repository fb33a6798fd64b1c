/**
 * Board bring-up of the SCX1701 board (board/SCX1701/mico_board.c):
 * `mico_board_init`, `platform_init_peripheral_irq_priorities`, the LED
 * helpers and the boot-mode decisions.
 *
 * The hardware the layer drives is a `Board` object: the RTC backup
 * register DR0 and the RTC time (both kept across warm reboots), the mode
 * and output level last requested for each logical GPIO, the NVIC
 * priorities, and a trace with one event per call into the MCU layer.
 * The logical GPIOs behind BOOT_SEL, MFG_SEL, MICO_RF_LED and MICO_SYS_LED,
 * and the marker value USE_RTC_BKP, come from the board header and are
 * given as a `BoardConfig`.
 */
module Scx1701BringUp {
  import opened Scx1701Irq

  /** A logical GPIO (`mico_gpio_t`), or MICO_GPIO_NONE for a signal the board does not wire. */
  datatype GpioId = MicoGpio(n: nat) | MicoGpioNone

  datatype GpioMode = OutputPushPull | OutputOpenDrainNoPull | InputPullUp

  datatype Level = Low | High

  /** Whether BOOTLOADER is defined: a bootloader build skips the RTC step. */
  datatype Build = ApplicationBuild | BootloaderBuild

  /** The board header's pin aliases. */
  datatype Aliases = Aliases(bootSel: GpioId, mfgSel: GpioId, rfLed: GpioId, sysLed: GpioId)

  /** Build-time choices of one board variant. */
  datatype BoardConfig = BoardConfig(build: Build, pins: Aliases, rtcMarker: bv32)

  /** One call into the MCU layer. */
  datatype Event =
    | HostPlatformInit                  // Wi-Fi chip held in reset
    | PwrClockEnable
    | BackupAccessEnable
    | BackupReadDr0
    | RtcInit
    | RtcSetTime(time: int)
    | BackupWriteDr0(value: bv32)
    | GpioInitialize(gpio: GpioId, mode: GpioMode)
    | GpioOutput(gpio: GpioId, level: Level)
    | SetIrqPriority(irq: Irq, priority: nat)

  /** The boot classification a caller derives from the two decisions. */
  datatype BootMode = Normal | Bootloader | Manufacturing

  // ---------------------------------------------------------------------------
  // Pure decisions

  /** `MicoShouldEnterMFGMode`: this board never senses manufacturing mode. */
  function ShouldEnterMfgMode(): bool { false }

  /** `MicoShouldEnterBootloader`, given what BOOT_SEL reads (true = high). */
  function ShouldEnterBootloader(bootSelHigh: bool): bool { !bootSelHigh }

  /** Manufacturing first, then bootloader, otherwise normal boot. */
  function ClassifyBoot(bootSelHigh: bool): (m: BootMode)
    ensures m == Bootloader <==> !bootSelHigh
    ensures m == Normal <==> bootSelHigh
    ensures m != Manufacturing
  {
    if ShouldEnterMfgMode() then Manufacturing
    else if ShouldEnterBootloader(bootSelHigh) then Bootloader
    else Normal
  }

  /** The level `MicoSysLed` drives: the system LED is active high. */
  function SysLedLevel(on: bool): Level { if on then High else Low }

  /** The level `MicoRfLed` drives: the RF LED is active low. */
  function RfLedLevel(on: bool): Level { if on then Low else High }

  // ---------------------------------------------------------------------------
  // Specification of the bring-up sequence

  /** The RTC step: marker read, and initialisation only when the marker is missing. */
  function RtcCheckEvents(c: BoardConfig, dr0: bv32): seq<Event> {
    match c.build
    case BootloaderBuild => []
    case ApplicationBuild =>
      [PwrClockEnable, BackupAccessEnable, BackupReadDr0] +
      (if dr0 != c.rtcMarker then [RtcInit, RtcSetTime(0), BackupWriteDr0(c.rtcMarker)] else [])
  }

  /** The LED step: SYS_LED push-pull driven low, RF_LED open-drain driven high. */
  function IndicatorEvents(a: Aliases): seq<Event> {
    [ GpioInitialize(a.sysLed, OutputPushPull), GpioOutput(a.sysLed, Low),
      GpioInitialize(a.rfLed, OutputOpenDrainNoPull), GpioOutput(a.rfLed, High) ]
  }

  /** The sense step: BOOT_SEL and MFG_SEL become pulled-up inputs. */
  function SenseEvents(a: Aliases): seq<Event> {
    [GpioInitialize(a.bootSel, InputPullUp), GpioInitialize(a.mfgSel, InputPullUp)]
  }

  /** Every call `mico_board_init` makes, in order, given DR0 on entry. */
  function BringUpEvents(c: BoardConfig, dr0: bv32): seq<Event> {
    [HostPlatformInit] + RtcCheckEvents(c, dr0) + IndicatorEvents(c.pins) + SenseEvents(c.pins)
  }

  /** DR0 after bring-up. */
  function Dr0After(c: BoardConfig, dr0: bv32): (r: bv32)
    ensures c.build == ApplicationBuild ==> r == c.rtcMarker
    ensures c.build == BootloaderBuild ==> r == dr0
  {
    if c.build == ApplicationBuild && dr0 != c.rtcMarker then c.rtcMarker else dr0
  }

  /** The RTC time after bring-up: reset to 0 only when the marker was missing. */
  function RtcTimeAfter(c: BoardConfig, dr0: bv32, time: int): int {
    if c.build == ApplicationBuild && dr0 != c.rtcMarker then 0 else time
  }

  function ModesAfter(modes: map<GpioId, GpioMode>, a: Aliases): map<GpioId, GpioMode> {
    modes[a.sysLed := OutputPushPull][a.rfLed := OutputOpenDrainNoPull]
         [a.bootSel := InputPullUp][a.mfgSel := InputPullUp]
  }

  function LevelsAfter(levels: map<GpioId, Level>, a: Aliases): map<GpioId, Level> {
    levels[a.sysLed := Low][a.rfLed := High]
  }

  /** The priority events of the plan, in programming order. */
  function PriorityEvents(order: seq<Irq>): seq<Event> {
    seq(|order|, k requires 0 <= k < |order| => SetIrqPriority(order[k], PriorityOf(order[k])))
  }

  /** The plan's calls, written out: the levels programmed are the ones PriorityOf assigns. */
  lemma PriorityEventsOfPlan()
    ensures PriorityEvents(PlanOrder) == [
      SetIrqPriority(RtcWkupIrq, 1),
      SetIrqPriority(SdioIrq, 2),
      SetIrqPriority(Dma2Stream2Irq, 3),
      SetIrqPriority(Usart3Irq, 6),
      SetIrqPriority(Usart6Irq, 6),
      SetIrqPriority(Dma1Stream4Irq, 7),
      SetIrqPriority(Dma1Stream1Irq, 7),
      SetIrqPriority(Dma2Stream7Irq, 7),
      SetIrqPriority(Dma2Stream1Irq, 7),
      SetIrqPriority(Exti0Irq, 14),
      SetIrqPriority(Exti1Irq, 14),
      SetIrqPriority(Exti2Irq, 14),
      SetIrqPriority(Exti3Irq, 14),
      SetIrqPriority(Exti4Irq, 14),
      SetIrqPriority(Exti9_5Irq, 14),
      SetIrqPriority(Exti15_10Irq, 14)
    ]
  {
  }

  // ---------------------------------------------------------------------------
  // Properties of the bring-up sequence

  /** Calls that touch the backup domain or the RTC. */
  predicate IsRtcEvent(e: Event) {
    e.PwrClockEnable? || e.BackupAccessEnable? || e.BackupReadDr0? ||
    e.RtcInit? || e.RtcSetTime? || e.BackupWriteDr0?
  }

  /** Calls that configure or drive a GPIO. */
  predicate IsGpioEvent(e: Event) {
    e.GpioInitialize? || e.GpioOutput?
  }

  /**
   * The order of `mico_board_init`: the Wi-Fi reset comes first and only
   * once, all RTC work precedes all GPIO work, the LED defaults are followed
   * by the sense pins, which are the last to be configured, and a
   * bootloader build never touches the RTC.
   */
  lemma BringUpInOrder(c: BoardConfig, dr0: bv32)
    ensures var s := BringUpEvents(c, dr0);
      |s| >= 7 && s[0] == HostPlatformInit && HostPlatformInit !in s[1..]
    ensures var s := BringUpEvents(c, dr0);
      forall i, j :: 0 <= i < j < |s| && IsGpioEvent(s[i]) ==> !IsRtcEvent(s[j])
    ensures var s := BringUpEvents(c, dr0);
      |s| >= 6 && s[|s| - 6..] == IndicatorEvents(c.pins) + SenseEvents(c.pins)
    ensures c.build == BootloaderBuild ==>
      forall e :: e in BringUpEvents(c, dr0) ==> !IsRtcEvent(e)
  {
    var rtc := RtcCheckEvents(c, dr0);
    var gpio := IndicatorEvents(c.pins) + SenseEvents(c.pins);
    assert forall e :: e in gpio ==> IsGpioEvent(e);
    assert forall e :: e in rtc ==> IsRtcEvent(e);
    assert BringUpEvents(c, dr0) == [HostPlatformInit] + rtc + gpio;
    RtcPhaseBeforeGpioPhase(rtc, gpio);
  }

  /** A reset, then RTC calls only, then GPIO calls only: no RTC call follows a GPIO call. */
  lemma RtcPhaseBeforeGpioPhase(rtc: seq<Event>, gpio: seq<Event>)
    requires forall e :: e in rtc ==> IsRtcEvent(e)
    requires forall e :: e in gpio ==> IsGpioEvent(e)
    ensures var s := [HostPlatformInit] + rtc + gpio;
      forall i, j :: 0 <= i < j < |s| && IsGpioEvent(s[i]) ==> !IsRtcEvent(s[j])
    ensures var s := [HostPlatformInit] + rtc + gpio;
      s[0] == HostPlatformInit && HostPlatformInit !in s[1..] && s[|s| - |gpio|..] == gpio
  {
    var s := [HostPlatformInit] + rtc + gpio;
    var n := 1 + |rtc|;
    assert s[1..] == rtc + gpio;
    assert s[n..] == gpio;
    forall k | 0 <= k < n
      ensures !IsGpioEvent(s[k])
    {
      if k > 0 {
        assert s[k] == rtc[k - 1] && rtc[k - 1] in rtc;
      }
    }
    forall k | n <= k < |s|
      ensures !IsRtcEvent(s[k])
    {
      assert s[k] == gpio[k - n] && gpio[k - n] in gpio;
    }
  }

  /**
   * The RTC is initialised and its time reset exactly when DR0 does not hold
   * the marker (in an application build); a second bring-up, which finds the
   * marker written by the first, leaves the RTC and its time alone.
   */
  lemma RtcInitOnlyOnColdBoot(c: BoardConfig, dr0: bv32, time: int)
    ensures multiset(BringUpEvents(c, dr0))[RtcInit] ==
      (if c.build == ApplicationBuild && dr0 != c.rtcMarker then 1 else 0)
    ensures multiset(BringUpEvents(c, Dr0After(c, dr0)))[RtcInit] == 0
    ensures Dr0After(c, Dr0After(c, dr0)) == Dr0After(c, dr0)
    ensures RtcTimeAfter(c, Dr0After(c, dr0), time) == time
  {
    RtcInitsOfBringUp(c, dr0);
    RtcInitsOfBringUp(c, Dr0After(c, dr0));
  }

  /** RtcInit appears in the bring-up only through the RTC step. */
  lemma RtcInitsOfBringUp(c: BoardConfig, dr0: bv32)
    ensures multiset(BringUpEvents(c, dr0))[RtcInit] ==
      (if c.build == ApplicationBuild && dr0 != c.rtcMarker then 1 else 0)
  {
    var rtc := RtcCheckEvents(c, dr0);
    var gpio := IndicatorEvents(c.pins) + SenseEvents(c.pins);
    assert BringUpEvents(c, dr0) == [HostPlatformInit] + rtc + gpio;
    RtcInitsOfRtcCheck(c, dr0);
    NoRtcInitInGpioSteps(c.pins);
  }

  lemma RtcInitsOfRtcCheck(c: BoardConfig, dr0: bv32)
    ensures multiset(RtcCheckEvents(c, dr0))[RtcInit] ==
      (if c.build == ApplicationBuild && dr0 != c.rtcMarker then 1 else 0)
  {
    var rtc := RtcCheckEvents(c, dr0);
    if c.build == ApplicationBuild && dr0 != c.rtcMarker {
      var head := [PwrClockEnable, BackupAccessEnable, BackupReadDr0];
      var tail := [RtcSetTime(0), BackupWriteDr0(c.rtcMarker)];
      assert rtc == head + [RtcInit] + tail;
      assert RtcInit !in head && RtcInit !in tail;
    } else {
      assert RtcInit !in rtc;
    }
  }

  lemma NoRtcInitInGpioSteps(a: Aliases)
    ensures multiset(IndicatorEvents(a) + SenseEvents(a))[RtcInit] == 0
  {
    assert RtcInit !in IndicatorEvents(a) + SenseEvents(a);
  }

  /**
   * After bring-up both LEDs are off, provided they are different pins:
   * SYS_LED is left at its "off" level and RF_LED at its own.
   */
  lemma IndicatorIdleLevelsAreOff(levels: map<GpioId, Level>, a: Aliases)
    requires a.sysLed != a.rfLed
    ensures LevelsAfter(levels, a)[a.sysLed] == SysLedLevel(false)
    ensures LevelsAfter(levels, a)[a.rfLed] == RfLedLevel(false)
  {
  }

  /** The LEDs have opposite polarity: SYS_LED lights high, RF_LED lights low. */
  lemma LedPolarity(on: bool)
    ensures SysLedLevel(on) == High <==> on
    ensures RfLedLevel(on) == Low <==> on
    ensures SysLedLevel(on) != RfLedLevel(on)
  {
  }

  /**
   * The pin modes after bring-up: the sense pins always end as pulled-up
   * inputs; SYS_LED ends as a push-pull output exactly when it shares its
   * pin with neither sense pin nor RF_LED; any other pin keeps its mode.
   */
  lemma ModesAfterBringUp(modes: map<GpioId, GpioMode>, a: Aliases, g: GpioId)
    ensures ModesAfter(modes, a)[a.bootSel] == InputPullUp
    ensures ModesAfter(modes, a)[a.mfgSel] == InputPullUp
    ensures ModesAfter(modes, a)[a.sysLed] == OutputPushPull <==>
      a.sysLed != a.bootSel && a.sysLed != a.mfgSel && a.sysLed != a.rfLed
    ensures g != a.sysLed && g != a.rfLed && g != a.bootSel && g != a.mfgSel ==>
      (g in ModesAfter(modes, a) <==> g in modes) &&
      (g in modes ==> ModesAfter(modes, a)[g] == modes[g])
  {
  }

  // ---------------------------------------------------------------------------
  // The hardware the layer drives

  class Board {
    var dr0: bv32
    var rtcTime: int
    var modes: map<GpioId, GpioMode>
    var levels: map<GpioId, Level>
    var priorities: map<Irq, nat>
    var trace: seq<Event>

    /** Power-on: the backup domain still holds DR0 and the RTC time; nothing else is configured. */
    constructor (dr0: bv32, rtcTime: int)
      ensures this.dr0 == dr0 && this.rtcTime == rtcTime
      ensures modes == map[] && levels == map[] && priorities == map[] && trace == []
    {
      this.dr0 := dr0;
      this.rtcTime := rtcTime;
      modes, levels, priorities, trace := map[], map[], map[], [];
    }

    /** `MicoGpioInitialize`. */
    method GpioInit(g: GpioId, m: GpioMode)
      modifies this`modes, this`trace
      ensures modes == old(modes)[g := m] && trace == old(trace) + [GpioInitialize(g, m)]
    {
      modes := modes[g := m];
      trace := trace + [GpioInitialize(g, m)];
    }

    /** `MicoGpioOutputHigh` and `MicoGpioOutputLow`. */
    method GpioSet(g: GpioId, l: Level)
      modifies this`levels, this`trace
      ensures levels == old(levels)[g := l] && trace == old(trace) + [GpioOutput(g, l)]
    {
      levels := levels[g := l];
      trace := trace + [GpioOutput(g, l)];
    }

    /** `mico_board_init`. */
    method BoardInit(c: BoardConfig)
      modifies this`dr0, this`rtcTime, this`modes, this`levels, this`trace
      ensures trace == old(trace) + BringUpEvents(c, old(dr0))
      ensures dr0 == Dr0After(c, old(dr0))
      ensures rtcTime == RtcTimeAfter(c, old(dr0), old(rtcTime))
      ensures modes == ModesAfter(old(modes), c.pins)
      ensures levels == LevelsAfter(old(levels), c.pins)
    {
      trace := trace + [HostPlatformInit];
      RtcCheck(c);
      IndicatorDefaults(c.pins);
      SenseInputsConfigure(c.pins);
    }

    /** The backup-domain check of `mico_board_init`, compiled only when BOOTLOADER is undefined. */
    method RtcCheck(c: BoardConfig)
      modifies this`dr0, this`rtcTime, this`trace
      ensures trace == old(trace) + RtcCheckEvents(c, old(dr0))
      ensures dr0 == Dr0After(c, old(dr0))
      ensures rtcTime == RtcTimeAfter(c, old(dr0), old(rtcTime))
    {
      if c.build == ApplicationBuild {
        trace := trace + [PwrClockEnable, BackupAccessEnable, BackupReadDr0];
        if dr0 != c.rtcMarker {
          trace := trace + [RtcInit];
          rtcTime := 0;
          trace := trace + [RtcSetTime(0)];
          dr0 := c.rtcMarker;
          trace := trace + [BackupWriteDr0(c.rtcMarker)];
        }
      }
    }

    /** The LED defaults of `mico_board_init`. */
    method IndicatorDefaults(a: Aliases)
      modifies this`modes, this`levels, this`trace
      ensures trace == old(trace) + IndicatorEvents(a)
      ensures modes == old(modes)[a.sysLed := OutputPushPull][a.rfLed := OutputOpenDrainNoPull]
      ensures levels == LevelsAfter(old(levels), a)
    {
      GpioInit(a.sysLed, OutputPushPull);
      GpioSet(a.sysLed, Low);
      GpioInit(a.rfLed, OutputOpenDrainNoPull);
      GpioSet(a.rfLed, High);
    }

    /** The sense-pin configuration that ends `mico_board_init`. */
    method SenseInputsConfigure(a: Aliases)
      modifies this`modes, this`trace
      ensures trace == old(trace) + SenseEvents(a)
      ensures modes == old(modes)[a.bootSel := InputPullUp][a.mfgSel := InputPullUp]
    {
      GpioInit(a.bootSel, InputPullUp);
      GpioInit(a.mfgSel, InputPullUp);
    }

    /**
     * `platform_init_peripheral_irq_priorities`: one `NVIC_SetPriority` call
     * per source, in the order of PlanOrder. The sixteen calls are recorded
     * as one in-order append to the trace.
     */
    method InitIrqPriorities()
      modifies this`priorities, this`trace
      ensures trace == old(trace) + PriorityEvents(PlanOrder)
      ensures forall irq :: irq in priorities && priorities[irq] == PriorityOf(irq)
    {
      PriorityEventsOfPlan();
      var p := priorities
        [RtcWkupIrq := 1]
        [SdioIrq := 2]
        [Dma2Stream2Irq := 3]
        [Usart3Irq := 6]
        [Usart6Irq := 6]
        [Dma1Stream4Irq := 7]
        [Dma1Stream1Irq := 7]
        [Dma2Stream7Irq := 7]
        [Dma2Stream1Irq := 7]
        [Exti0Irq := 14]
        [Exti1Irq := 14]
        [Exti2Irq := 14]
        [Exti3Irq := 14]
        [Exti4Irq := 14]
        [Exti9_5Irq := 14]
        [Exti15_10Irq := 14];
      forall irq ensures irq in p && p[irq] == PriorityOf(irq) {
        match irq {
          case RtcWkupIrq =>
          case SdioIrq =>
          case Dma2Stream2Irq =>
          case Usart3Irq =>
          case Usart6Irq =>
          case Dma1Stream4Irq =>
          case Dma1Stream1Irq =>
          case Dma2Stream7Irq =>
          case Dma2Stream1Irq =>
          case Exti0Irq =>
          case Exti1Irq =>
          case Exti2Irq =>
          case Exti3Irq =>
          case Exti4Irq =>
          case Exti9_5Irq =>
          case Exti15_10Irq =>
        }
      }
      priorities := p;
      trace := trace + [
        SetIrqPriority(RtcWkupIrq, 1),
        SetIrqPriority(SdioIrq, 2),
        SetIrqPriority(Dma2Stream2Irq, 3),
        SetIrqPriority(Usart3Irq, 6),
        SetIrqPriority(Usart6Irq, 6),
        SetIrqPriority(Dma1Stream4Irq, 7),
        SetIrqPriority(Dma1Stream1Irq, 7),
        SetIrqPriority(Dma2Stream7Irq, 7),
        SetIrqPriority(Dma2Stream1Irq, 7),
        SetIrqPriority(Exti0Irq, 14),
        SetIrqPriority(Exti1Irq, 14),
        SetIrqPriority(Exti2Irq, 14),
        SetIrqPriority(Exti3Irq, 14),
        SetIrqPriority(Exti4Irq, 14),
        SetIrqPriority(Exti9_5Irq, 14),
        SetIrqPriority(Exti15_10Irq, 14)
      ];
    }

    /** `MicoSysLed`. */
    method SysLed(a: Aliases, on: bool)
      modifies this`levels, this`trace
      ensures levels == old(levels)[a.sysLed := SysLedLevel(on)]
      ensures trace == old(trace) + [GpioOutput(a.sysLed, SysLedLevel(on))]
    {
      if on {
        GpioSet(a.sysLed, High);
      } else {
        GpioSet(a.sysLed, Low);
      }
    }

    /** `MicoRfLed`. */
    method RfLed(a: Aliases, on: bool)
      modifies this`levels, this`trace
      ensures levels == old(levels)[a.rfLed := RfLedLevel(on)]
      ensures trace == old(trace) + [GpioOutput(a.rfLed, RfLedLevel(on))]
    {
      if on {
        GpioSet(a.rfLed, Low);
      } else {
        GpioSet(a.rfLed, High);
      }
    }
  }
}
