# SCX1701 board descriptor layer in Dafny

This project models the board layer of the SCX1701 board
(`board/SCX1701/mico_board.c`) and the partition enumeration and pin aliases
of the MK3080 board header (`board/aos/mk3080/mico_board.h`). The board layer
is mostly constant tables plus a short bring-up routine:

- **Flash devices and logical partitions** (`flash_layout.dfy`, module
  `Scx1701Flash`). The two flash devices and the eight partition entries are
  kept in declaration order. Lookup by partition id reports an unknown id, or
  an entry with no owning flash (ATE), as an error. A layout checker states
  the layout rules:
  - each owned partition lies inside its device's window;
  - no two entries share an id;
  - no two partitions on the same device overlap.

  Lemmas show that the SCX1701 table satisfies these rules.
- **Pin tables** (`pin_tables.dfy`, module `Scx1701Pins`). This covers the
  GPIO, UART and SPI peripheral tables, the SPI device descriptors, and the
  Wi-Fi control, SDIO and gSPI pin tables. The SDIO table's one-bit and
  four-bit builds are one function of the bus width. The lemmas state:
  - which roles are wired;
  - that pins are not shared within a table;
  - that gSPI reuses the SDIO lines;
  - that the SDIO bus is kept apart from the non-Wi-Fi peripherals, the
    Wi-Fi chip select MICO_WIFI_CS being the one GPIO on an SDIO line.
- **Interrupt priorities** (`irq_plan.dfy`, module `Scx1701Irq`). This is the
  priority level given to each of the sixteen interrupt sources, and the
  order in which they are programmed. The levels form disjoint bands by what
  each source serves.
- **Bring-up** (`bring_up.dfy`, module `Scx1701BringUp`). The hardware is a
  `Board` object. It holds:
  - the RTC backup register DR0 and the RTC time;
  - the mode and output level requested for each logical GPIO;
  - the NVIC priorities;
  - a trace with one event per call into the MCU layer.

  `BoardInit`, `InitIrqPriorities`, `SysLed` and `RfLed` update it in place.
  Each is proved against a specification function over the old state. The
  boot-mode decisions are pure functions.
- **MK3080 header** (`mk3080.dfy`, module `Mk3080Board`). This covers the
  partition enumeration with its ERROR, MAX and NONE sentinels, and the pin
  aliases. The aliases are applied to the bring-up sequence.

`results.dfy` holds the `Option`, `Result` and `Outcome` types shared by the
lookups.

Three build-time choices are parameters:

- Whether `BOOTLOADER` is defined is a `Build` value.
- Whether the SDIO bus is one bit wide is a `SdioWidth` value.
- Whether `USE_MICO_SPI_FLASH` is defined is the `useMicoSpiFlash` flag of `SpiFlashDevice`.

The SCX1701 board's own header is not part of this model. So its pin aliases
and its RTC marker value `USE_RTC_BKP` are a `BoardConfig` parameter of
bring-up, and the SCX1701 partition ids are a datatype without integer
values.

## Model

| member | source | states |
|---|---|---|
| Scx1701Flash.FindDevice | board/SCX1701/mico_board.c:123-137 | a found device is in the table with the requested id; none is found exactly when no entry has that id |
| Scx1701Flash.FindPartition | board/SCX1701/mico_board.c:140-202 | a found entry is the first entry with the requested id; none is found exactly when no entry has that id |
| Scx1701Flash.Resolve | board/SCX1701/mico_board.c:140-202 | an unknown id gives UnknownPartition, and a first entry for the id without an owning flash (MICO_FLASH_NONE) gives PartitionUnavailable, each exactly in that case; a success is the first entry for the id, and it is owned |
| Scx1701Flash.AddressOf | board/SCX1701/mico_board.c:140-202 | fails exactly when the lookup fails, with the same error; otherwise returns the start address of the first entry with that id, which is owned |
| Scx1701Flash.ClashesWithAny | board/SCX1701/mico_board.c:140-202 | true exactly when some later entry shares the id or overlaps on the same device |
| Scx1701Flash.CheckLayout | board/SCX1701/mico_board.c:140-202 | passes exactly when every owned partition fits its device's window and no two entries clash (same id, or non-empty ranges sharing a byte on one device); otherwise reports LayoutViolation |
| Scx1701Flash.DevicesAreValid | board/SCX1701/mico_board.c:123-137 | the two devices have distinct ids and disjoint windows inside the 32-bit space: embedded 1 MiB at 0x08000000, SPI 2 MiB at 0 |
| Scx1701Flash.PartitionsAreValid | board/SCX1701/mico_board.c:140-202 | the SCX1701 partition table passes the layout check |
| Scx1701Flash.EntriesDoNotClash | board/SCX1701/mico_board.c:140-202 | no two entries of the table share an id or overlap on one device |
| Scx1701Flash.OneByteOverlapRejected | board/SCX1701/mico_board.c:178-192 | moving PARAMETER1's end one byte into PARAMETER2 makes the layout check fail |
| Scx1701Flash.ResolvedPartitionInWindow | board/SCX1701/mico_board.c:140-202 | in a valid layout, every partition a lookup returns lies inside its owning device's window |
| Scx1701Flash.OwnedRangesDisjoint | board/SCX1701/mico_board.c:123-202 | in a valid layout over valid devices, any two owned partitions occupy disjoint byte ranges |
| Scx1701Flash.AteIsUnavailable | board/SCX1701/mico_board.c:158-161 | ATE resolves, and has an address, only as PartitionUnavailable |
| Scx1701Flash.TableIndex | board/SCX1701/mico_board.c:140-202 | every partition id has an entry in the table |
| Scx1701Flash.FindPartitionAt | board/SCX1701/mico_board.c:140-202 | the search returns the first entry with an id |
| Scx1701Flash.ResolvesExactlyOwnedIds | board/SCX1701/mico_board.c:140-202 | every id except ATE resolves to its own table entry; ATE is unavailable |
| Scx1701Flash.ApplicationAddress | board/SCX1701/mico_board.c:142-157 | the application starts at 0x08008000, where the bootloader ends, and ends at 0x08088000 inside the embedded flash |
| Scx1701Flash.OptionBits | board/SCX1701/mico_board.c:140-202 | every owned partition is readable; exactly OTA, PARAMETER1, PARAMETER2 and FILESYS are writable |
| Scx1701Pins.DeclaredIdsResolve | board/SCX1701/mico_board.c:73-254 | every logical GPIO, UART, SPI port, Wi-Fi control and gSPI role resolves; an SDIO role resolves exactly when the chosen bus width declares it, and otherwise gives UnknownResource |
| Scx1701Pins.GpioTableValid | board/SCX1701/mico_board.c:73-80 | every logical GPIO has a connected pin, and no two share one |
| Scx1701Pins.UartRolesValid | board/SCX1701/mico_board.c:87-103 | each UART has connected TX and RX on distinct pins with no flow control; two UARTs share no data pin |
| Scx1701Pins.SpiRolesValid | board/SCX1701/mico_board.c:105-119 | each SPI port has three distinct connected pins, and the two ports share none |
| Scx1701Pins.ChipSelectsResolve | board/SCX1701/mico_board.c:205-263 | the SPI flash and Wi-Fi SPI devices name a chip select in the GPIO table and a port in the SPI table, and the chip select is not a bus line of that port |
| Scx1701Pins.WifiControlPinValues | board/SCX1701/mico_board.c:226-231 | the Wi-Fi control pins are exactly PD_15, PA_8 and PE_2 |
| Scx1701Pins.WifiSdioPinValues | board/SCX1701/mico_board.c:235-248 | the SDIO pins of each bus width, as a set |
| Scx1701Pins.SdioTableValid | board/SCX1701/mico_board.c:235-248 | in either bus width, no two SDIO roles share a pin and none is unconnected |
| Scx1701Pins.SdioVariantsExclusive | board/SCX1701/mico_board.c:235-248 | the SDIO IRQ role exists only in the one-bit build, on SDIO_D1; the out-of-band IRQ and D1 to D3 roles exist only in the four-bit build |
| Scx1701Pins.WifiChipSelectIsSdioCmd | board/SCX1701/mico_board.c:73-80 | MICO_WIFI_CS is the SDIO command pin in either bus width, and no other logical GPIO is on an SDIO line |
| Scx1701Pins.GspiBusPins | board/SCX1701/mico_board.c:251-263 | the gSPI bus uses five distinct connected pins |
| Scx1701Pins.GspiReusesSdioPins | board/SCX1701/mico_board.c:235-263 | every gSPI bus pin is a four-bit SDIO pin, and the one-bit SDIO pins are a subset of the four-bit ones |
| Scx1701Pins.WifiBusPinsExclusive | board/SCX1701/mico_board.c:73-248 | the SDIO pins are disjoint from the Wi-Fi control pins, the switch and flash-CS GPIOs, the SPI flash bus and the UART data pins |
| Scx1701Irq.PriorityOf | board/SCX1701/mico_board.c:269-288 | every source gets a level that fits the 4-bit NVIC priority field |
| Scx1701Irq.TiersAreDisjointBands | board/SCX1701/mico_board.c:269-288 | two sources share a level exactly when they serve the same tier, and one is more urgent exactly when its tier ranks first |
| Scx1701Irq.TierLevels | board/SCX1701/mico_board.c:269-288 | the levels: RTC 1, SDIO 2, Wi-Fi DMA 3, UARTs 6, UART DMA 7, GPIO lines 14 |
| Scx1701Irq.PlanOrderIsTotal | board/SCX1701/mico_board.c:269-288 | every source is programmed, and none twice |
| Scx1701BringUp.ShouldEnterMfgMode | board/SCX1701/mico_board.c:339-342 | always false: this board never enters manufacturing mode |
| Scx1701BringUp.ShouldEnterBootloader | board/SCX1701/mico_board.c:344-350 | true exactly when BOOT_SEL reads low |
| Scx1701BringUp.ClassifyBoot | board/SCX1701/mico_board.c:339-350 | bootloader exactly when BOOT_SEL reads low, normal exactly when it reads high, never manufacturing |
| Scx1701BringUp.Dr0After | board/SCX1701/mico_board.c:296-309 | an application build leaves the marker in DR0; a bootloader build leaves DR0 as found |
| Scx1701BringUp.PriorityEventsOfPlan | board/SCX1701/mico_board.c:269-288 | the sixteen calls of the plan, in order, each with the level PriorityOf assigns |
| Scx1701BringUp.BringUpInOrder | board/SCX1701/mico_board.c:290-319 | the Wi-Fi reset comes first and only once; all RTC work precedes all GPIO work; the LED defaults come next and the sense pins last; a bootloader build makes no RTC call |
| Scx1701BringUp.RtcPhaseBeforeGpioPhase | board/SCX1701/mico_board.c:290-319 | in a reset followed by RTC calls and then GPIO calls, the reset occurs once and first, no RTC call follows a GPIO call, and the GPIO calls form the end of the trace |
| Scx1701BringUp.RtcInitOnlyOnColdBoot | board/SCX1701/mico_board.c:296-309 | the RTC is initialised, once, exactly when DR0 lacks the marker; a second bring-up does not initialise it, leaves DR0 as the first one did and keeps the RTC time |
| Scx1701BringUp.RtcInitsOfBringUp | board/SCX1701/mico_board.c:290-319 | the number of RTC initialisations in a bring-up |
| Scx1701BringUp.RtcInitsOfRtcCheck | board/SCX1701/mico_board.c:296-309 | the number of RTC initialisations in the backup-domain check |
| Scx1701BringUp.NoRtcInitInGpioSteps | board/SCX1701/mico_board.c:312-318 | the GPIO steps never initialise the RTC |
| Scx1701BringUp.IndicatorIdleLevelsAreOff | board/SCX1701/mico_board.c:312-315 | when the LEDs are different pins, both are left at their off level |
| Scx1701BringUp.LedPolarity | board/SCX1701/mico_board.c:321-337 | SYS_LED lights on high, RF_LED on low, so one command drives the two pins to opposite levels |
| Scx1701BringUp.ModesAfterBringUp | board/SCX1701/mico_board.c:312-318 | both sense pins end as pulled-up inputs; SYS_LED ends as a push-pull output exactly when no sense pin or RF_LED shares its pin; other pins keep their mode |
| Scx1701BringUp.Board.constructor | board/SCX1701/mico_board.c:290-319 | power-on state: DR0 and the RTC time as kept by the backup domain, nothing else configured |
| Scx1701BringUp.Board.GpioInit | board/SCX1701/mico_board.c:312-318 | records the requested mode of one GPIO and the call |
| Scx1701BringUp.Board.GpioSet | board/SCX1701/mico_board.c:313-335 | records the requested level of one GPIO and the call |
| Scx1701BringUp.Board.BoardInit | board/SCX1701/mico_board.c:290-319 | the calls made are BringUpEvents of the DR0 found; DR0, the RTC time, the pin modes and levels end as the specification functions give |
| Scx1701BringUp.Board.RtcCheck | board/SCX1701/mico_board.c:296-309 | the backup-domain check: the marker is read, and the RTC is initialised and the marker written only when it is missing |
| Scx1701BringUp.Board.IndicatorDefaults | board/SCX1701/mico_board.c:312-315 | SYS_LED becomes a push-pull output driven low, then RF_LED an open-drain output driven high |
| Scx1701BringUp.Board.SenseInputsConfigure | board/SCX1701/mico_board.c:317-318 | BOOT_SEL, then MFG_SEL, become pulled-up inputs |
| Scx1701BringUp.Board.InitIrqPriorities | board/SCX1701/mico_board.c:269-288 | the calls are the plan's, in order, and afterwards every source holds the level PriorityOf assigns |
| Scx1701BringUp.Board.SysLed | board/SCX1701/mico_board.c:321-328 | drives SYS_LED to the level that lights it (high) or turns it off (low) |
| Scx1701BringUp.Board.RfLed | board/SCX1701/mico_board.c:330-337 | drives RF_LED to the level that lights it (low) or turns it off (high) |
| Mk3080Board.Ordinal | board/aos/mk3080/mico_board.h:53-69 | every partition's value lies in [0, MICO_PARTITION_MAX) |
| Mk3080Board.FromOrdinal | board/aos/mk3080/mico_board.h:53-69 | an integer names a partition exactly when it lies in [0, MAX), and then the partition with that value |
| Mk3080Board.OrdinalRoundTrip | board/aos/mk3080/mico_board.h:53-69 | decoding a partition's value gives the partition back, and distinct partitions have distinct values |
| Mk3080Board.SentinelsAreNotPartitions | board/aos/mk3080/mico_board.h:53-69 | ERROR (-1), MAX (12) and NONE (13) name no partition; ERROR < every partition < MAX < NONE |
| Mk3080Board.AliasesSharePins | board/aos/mk3080/mico_board.h:72-76 | BOOT_SEL and MICO_SYS_LED are GPIO 19; MFG_SEL and MICO_RF_LED are not wired; the EasyLink button is GPIO 23 |
| Mk3080Board.BringUpWithMk3080Pins | board/aos/mk3080/mico_board.h:72-76 | SCX1701's bring-up run with these aliases (the MK3080 board's own bring-up code is not part of this model) leaves the system LED's pin a pulled-up input, because BOOT_SEL is configured after it, and keeps the EasyLink pin's mode and level as they were |

## Left out

- Partition addresses are absolute (the application starts at 0x08008000 on a device based at 0x08000000), as the table in `mico_board.c` stores them. They are not offsets from the device base.
- The lookups model their failures as `Result` values; the C lookups themselves are outside the board file.
- The collaborator calls (`host_platform_init`, `__PWR_CLK_ENABLE`, the HAL backup-register and RTC calls, `MicoGpio*`, `NVIC_SetPriority`) are trace events. Their effects are modelled only on DR0, the RTC time, and the per-GPIO mode, level and priority maps.
- The return codes of those calls are ignored by the source, so there is no failure path in bring-up.
- `Scx1701BringUp.ShouldEnterBootloader` takes what BOOT_SEL reads as a parameter. The `MicoGpioInputGet` call is not modelled.
- `Scx1701BringUp.Board.InitIrqPriorities` records its sixteen `NVIC_SetPriority` calls as one in-order append to the trace.
- The SPI devices' speed, clock mode and word size, and the `mbed` pin encodings behind pin names, are not modelled. Pins are symbolic names, and STDIO_UART_TX/RX count as pins of their own.
- The commented-out ADC table, the NULL PWM and I2C tables and the `extern` declarations carry no behaviour and are not modelled.
- Partition descriptions are kept as labels only.
- The SCX1701 board header is not part of this model. Its integer values for partitions and GPIOs, its pin aliases and `USE_RTC_BKP` are parameters or symbolic.
- The GPIO driver's handling of MICO_GPIO_NONE is not part of this model. The bring-up state records requests keyed by logical id, with MICO_GPIO_NONE as one more key.
- The logical GPIOs of the pin tables (`Scx1701Pins.Gpio`) and those bring-up drives (`Scx1701BringUp.GpioId`) are deliberately unconnected: the SCX1701 header that would number them is not part of this model.
- Concurrency is not modelled: bring-up runs single-threaded before the scheduler starts.
