/**
 * The MK3080 board header (board/aos/mk3080/mico_board.h): the logical
 * partition identifiers with their sentinels, and the pin aliases the
 * bring-up code reads.
 */
module Mk3080Board {
  import opened Results
  import B = Scx1701BringUp

  /** The logical partitions, in declaration order. */
  datatype PartitionId =
    | Bootloader | Application | Ate | OtaTemp | RfFirmware
    | Parameter1 | Parameter2 | Parameter3 | Parameter4
    | LinkKey | BtFirmware | Spiffs

  /** MICO_PARTITION_ERROR: the value before the first partition. */
  const PARTITION_ERROR: int := -1
  /** MICO_PARTITION_MAX: the number of real partitions. */
  const PARTITION_MAX: int := 12
  /** MICO_PARTITION_NONE: the value after MAX. */
  const PARTITION_NONE: int := 13

  /** The integer value of an enumerator. */
  function Ordinal(p: PartitionId): (n: int)
    ensures 0 <= n < PARTITION_MAX
  {
    match p
    case Bootloader => 0
    case Application => 1
    case Ate => 2
    case OtaTemp => 3
    case RfFirmware => 4
    case Parameter1 => 5
    case Parameter2 => 6
    case Parameter3 => 7
    case Parameter4 => 8
    case LinkKey => 9
    case BtFirmware => 10
    case Spiffs => 11
  }

  /** The partition an integer value names, if any: the sentinels name none. */
  function FromOrdinal(n: int): (r: Option<PartitionId>)
    ensures r.Some? <==> 0 <= n < PARTITION_MAX
    ensures r.Some? ==> Ordinal(r.value) == n
  {
    if n == 0 then Some(Bootloader)
    else if n == 1 then Some(Application)
    else if n == 2 then Some(Ate)
    else if n == 3 then Some(OtaTemp)
    else if n == 4 then Some(RfFirmware)
    else if n == 5 then Some(Parameter1)
    else if n == 6 then Some(Parameter2)
    else if n == 7 then Some(Parameter3)
    else if n == 8 then Some(Parameter4)
    else if n == 9 then Some(LinkKey)
    else if n == 10 then Some(BtFirmware)
    else if n == 11 then Some(Spiffs)
    else None
  }

  /** Decoding an enumerator's value gives the enumerator back, so distinct partitions have distinct values. */
  lemma OrdinalRoundTrip(p: PartitionId, q: PartitionId)
    ensures FromOrdinal(Ordinal(p)) == Some(p)
    ensures Ordinal(p) == Ordinal(q) ==> p == q
  {
  }

  /** ERROR, MAX and NONE name no partition; ERROR lies below every partition and NONE above MAX. */
  lemma SentinelsAreNotPartitions(p: PartitionId)
    ensures FromOrdinal(PARTITION_ERROR) == None
    ensures FromOrdinal(PARTITION_MAX) == None
    ensures FromOrdinal(PARTITION_NONE) == None
    ensures PARTITION_ERROR < Ordinal(p) < PARTITION_MAX < PARTITION_NONE
  {
  }

  // ---------------------------------------------------------------------------
  // Pin aliases

  const BOOT_SEL: B.GpioId := B.MicoGpio(19)
  const MFG_SEL: B.GpioId := B.MicoGpioNone
  const MICO_RF_LED: B.GpioId := B.MicoGpioNone
  const MICO_SYS_LED: B.GpioId := B.MicoGpio(19)
  const EASYLINK_BUTTON: B.GpioId := B.MicoGpio(23)

  /** The aliases as the bring-up code sees them. */
  const Pins: B.Aliases := B.Aliases(BOOT_SEL, MFG_SEL, MICO_RF_LED, MICO_SYS_LED)

  /**
   * The aliases share pins: BOOT_SEL and MICO_SYS_LED are the same GPIO,
   * MFG_SEL and MICO_RF_LED are not wired, and the EasyLink button has a
   * GPIO of its own.
   */
  lemma AliasesSharePins()
    ensures BOOT_SEL == MICO_SYS_LED
    ensures MFG_SEL == B.MicoGpioNone && MICO_RF_LED == B.MicoGpioNone
    ensures EASYLINK_BUTTON != BOOT_SEL && EASYLINK_BUTTON != B.MicoGpioNone
  {
  }

  /**
   * SCX1701's `mico_board_init` run with these aliases (this board's own
   * bring-up code is not part of this model): it leaves the system LED's pin
   * a pulled-up input (the BOOT_SEL configuration comes last and wins), does
   * not touch the EasyLink button's mode or level, and MicoShouldEnterBootloader
   * reads the same pin MicoSysLed drives.
   */
  lemma BringUpWithMk3080Pins(modes: map<B.GpioId, B.GpioMode>, levels: map<B.GpioId, B.Level>)
    ensures B.ModesAfter(modes, Pins)[MICO_SYS_LED] == B.InputPullUp
    ensures B.ModesAfter(modes, Pins)[B.MicoGpioNone] == B.InputPullUp
    ensures EASYLINK_BUTTON in B.ModesAfter(modes, Pins) <==> EASYLINK_BUTTON in modes
    ensures EASYLINK_BUTTON in modes ==> B.ModesAfter(modes, Pins)[EASYLINK_BUTTON] == modes[EASYLINK_BUTTON]
    ensures EASYLINK_BUTTON in B.LevelsAfter(levels, Pins) <==> EASYLINK_BUTTON in levels
    ensures EASYLINK_BUTTON in levels ==> B.LevelsAfter(levels, Pins)[EASYLINK_BUTTON] == levels[EASYLINK_BUTTON]
    ensures Pins.bootSel == Pins.sysLed
  {
    B.ModesAfterBringUp(modes, Pins, EASYLINK_BUTTON);
  }
}
