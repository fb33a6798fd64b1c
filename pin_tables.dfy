/**
 * The logical-to-physical resource tables of the SCX1701 board
 * (board/SCX1701/mico_board.c): logical GPIOs, UARTs, SPI buses, the SPI
 * devices that name a bus and a chip select, and the Wi-Fi control, SDIO
 * and gSPI pin tables. Physical pins are opaque names; `NC` marks a role
 * that is not connected.
 */
module Scx1701Pins {
  import opened Results

  /** Physical pins named by the tables, with the "not connected" sentinel. */
  datatype Pin =
    | PA_4 | PA_5 | PA_8 | PB_4 | PB_5 | PD_5 | PD_6 | PD_15 | PE_2 | PE_10 | PE_11
    | STDIO_UART_TX | STDIO_UART_RX
    | SDIO_OOB_IRQ | SDIO_CLK | SDIO_CMD | SDIO_D0 | SDIO_D1 | SDIO_D2 | SDIO_D3
    | NC

  /** Logical GPIOs with an entry in `platform_gpio_pins`. */
  datatype Gpio = MicoSw2 | MicoSw3 | MicoFlashCs | MicoWifiCs

  datatype Uart = MicoUart1 | MicoUart2
  datatype UartPins = UartPins(tx: Pin, rx: Pin, rts: Pin, cts: Pin)

  datatype Spi = MicoSpiFlash | MicoSpiWifi
  datatype SpiPins = SpiPins(sclk: Pin, mosi: Pin, miso: Pin)

  /** An SPI device: its bus and the logical GPIO used as chip select (speed and mode are left out). */
  datatype SpiDevice = SpiDevice(port: Spi, chipSelect: Gpio)

  datatype WifiControl = WifiPinReset | WifiPin32kClk | WifiPinPower

  datatype WifiSdio =
    | WifiPinSdioOobIrq | WifiPinSdioIrq
    | WifiPinSdioClk | WifiPinSdioCmd | WifiPinSdioD0 | WifiPinSdioD1 | WifiPinSdioD2 | WifiPinSdioD3

  datatype WifiSpi = WifiPinSpiIrq

  /** The SDIO bus width chosen at build time: SDIO_1_BIT undefined or defined. */
  datatype SdioWidth = FourBit | OneBit

  const GpioPins: map<Gpio, Pin> :=
    map[MicoSw2 := PE_11, MicoSw3 := PE_10, MicoFlashCs := PA_4, MicoWifiCs := SDIO_CMD]

  const UartTable: map<Uart, UartPins> := map[
    MicoUart1 := UartPins(STDIO_UART_TX, STDIO_UART_RX, NC, NC),
    MicoUart2 := UartPins(PD_5, PD_6, NC, NC)
  ]

  const SpiTable: map<Spi, SpiPins> := map[
    MicoSpiFlash := SpiPins(PA_5, PB_5, PB_4),
    MicoSpiWifi := SpiPins(SDIO_D2, SDIO_CLK, SDIO_D3)
  ]

  /** `mico_spi_flash`, declared only when USE_MICO_SPI_FLASH is defined. */
  function SpiFlashDevice(useMicoSpiFlash: bool): Option<SpiDevice> {
    if useMicoSpiFlash then Some(SpiDevice(MicoSpiFlash, MicoFlashCs)) else None
  }

  /** `wifi_spi_device`. */
  const WifiSpiDevice := SpiDevice(MicoSpiWifi, MicoWifiCs)

  const WifiControlPins: map<WifiControl, Pin> :=
    map[WifiPinReset := PD_15, WifiPin32kClk := PA_8, WifiPinPower := PE_2]

  /** `wifi_sdio_pins` for each bus width: one-bit mode has an in-band IRQ on D1 and no D1..D3 data lines. */
  function WifiSdioPins(w: SdioWidth): map<WifiSdio, Pin> {
    var common := map[WifiPinSdioClk := SDIO_CLK, WifiPinSdioCmd := SDIO_CMD, WifiPinSdioD0 := SDIO_D0];
    match w
    case OneBit => common[WifiPinSdioIrq := SDIO_D1]
    case FourBit =>
      common[WifiPinSdioOobIrq := SDIO_OOB_IRQ][WifiPinSdioD1 := SDIO_D1]
            [WifiPinSdioD2 := SDIO_D2][WifiPinSdioD3 := SDIO_D3]
  }

  const WifiSpiPins: map<WifiSpi, Pin> := map[WifiPinSpiIrq := SDIO_D1]

  /** Table lookup: UnknownResource when the id has no entry in this table. */
  function Lookup<K, V>(table: map<K, V>, k: K): (r: Result<V>)
    ensures r.Ok? <==> k in table
    ensures r.Ok? ==> r.value == table[k]
    ensures r.Err? ==> r.error == UnknownResource
  {
    if k in table then Ok(table[k]) else Err(UnknownResource)
  }

  /** No two keys of the table are bound to the same value. */
  ghost predicate Injective<K, V>(table: map<K, V>) {
    forall a, b :: a in table && b in table && a != b ==> table[a] != table[b]
  }

  // ---------------------------------------------------------------------------
  // Properties of this board's tables

  /**
   * Every id declared for this board resolves in its table; in the SDIO
   * table exactly the roles of the chosen bus width resolve, and every other
   * role is reported as UnknownResource.
   */
  lemma DeclaredIdsResolve(w: SdioWidth)
    ensures forall g: Gpio :: Lookup(GpioPins, g).Ok?
    ensures forall u: Uart :: Lookup(UartTable, u).Ok?
    ensures forall s: Spi :: Lookup(SpiTable, s).Ok?
    ensures forall c: WifiControl :: Lookup(WifiControlPins, c).Ok?
    ensures forall r: WifiSpi :: Lookup(WifiSpiPins, r).Ok?
    ensures forall r: WifiSdio :: Lookup(WifiSdioPins(w), r).Ok? <==>
      (r in {WifiPinSdioClk, WifiPinSdioCmd, WifiPinSdioD0} ||
       (w == OneBit && r == WifiPinSdioIrq) ||
       (w == FourBit && r in {WifiPinSdioOobIrq, WifiPinSdioD1, WifiPinSdioD2, WifiPinSdioD3}))
    ensures forall r: WifiSdio :: Lookup(WifiSdioPins(w), r).Err? ==> Lookup(WifiSdioPins(w), r).error == UnknownResource
  {
    forall g: Gpio ensures g in GpioPins {
      match g {
        case MicoSw2 =>
        case MicoSw3 =>
        case MicoFlashCs =>
        case MicoWifiCs =>
      }
    }
    forall u: Uart ensures u in UartTable {
      match u {
        case MicoUart1 =>
        case MicoUart2 =>
      }
    }
    forall s: Spi ensures s in SpiTable {
      match s {
        case MicoSpiFlash =>
        case MicoSpiWifi =>
      }
    }
    forall c: WifiControl ensures c in WifiControlPins {
      match c {
        case WifiPinReset =>
        case WifiPin32kClk =>
        case WifiPinPower =>
      }
    }
    forall r: WifiSpi ensures r in WifiSpiPins {
      match r {
        case WifiPinSpiIrq =>
      }
    }
  }

  /** Every logical GPIO has an entry, backed by a connected pin that backs no other logical GPIO. */
  lemma GpioTableValid(g: Gpio)
    ensures Lookup(GpioPins, g).Ok? && Lookup(GpioPins, g).value != NC
    ensures forall h :: h != g ==> Lookup(GpioPins, h) != Lookup(GpioPins, g)
  {
  }

  /** Both UARTs connect TX and RX on distinct pins and wire no flow control; no pin serves both UARTs. */
  lemma UartRolesValid(u: Uart, v: Uart)
    ensures var p := UartTable[u];
      p.tx != NC && p.rx != NC && p.tx != p.rx && p.rts == NC && p.cts == NC
    ensures u != v ==> {UartTable[u].tx, UartTable[u].rx} !! {UartTable[v].tx, UartTable[v].rx}
  {
  }

  /** Both SPI buses connect clock, MOSI and MISO on three distinct pins, and the buses share no pin. */
  lemma SpiRolesValid(s: Spi)
    ensures var p := SpiTable[s];
      NC !in {p.sclk, p.mosi, p.miso} && p.sclk != p.mosi && p.sclk != p.miso && p.mosi != p.miso
    ensures var p, q := SpiTable[MicoSpiFlash], SpiTable[MicoSpiWifi];
      {p.sclk, p.mosi, p.miso} !! {q.sclk, q.mosi, q.miso}
  {
  }

  /** Each SPI device's chip select resolves through the GPIO table to a pin its bus does not use for data or clock. */
  lemma ChipSelectsResolve(d: SpiDevice, useMicoSpiFlash: bool)
    requires d == WifiSpiDevice || SpiFlashDevice(useMicoSpiFlash) == Some(d)
    ensures Lookup(GpioPins, d.chipSelect).Ok?
    ensures var cs, p := GpioPins[d.chipSelect], SpiTable[d.port];
      cs != NC && cs !in {p.sclk, p.mosi, p.miso}
  {
  }

  /** The values of a map grow by exactly the new value when a fresh key is added. */
  lemma ValuesOfUpdate<K, V>(m: map<K, V>, k: K, v: V)
    requires k !in m
    ensures m[k := v].Values == m.Values + {v}
  {
    var n := m[k := v];
    forall x | x in n.Values ensures x in m.Values + {v} {
      var j :| j in n && n[j] == x;
      if j != k { assert m[j] == x; }
    }
    forall x | x in m.Values + {v} ensures x in n.Values {
      if x == v {
        assert n[k] == x;
      } else {
        var j :| j in m && m[j] == x;
        assert n[j] == x;
      }
    }
  }

  /** The pins the Wi-Fi control table binds. */
  lemma WifiControlPinValues()
    ensures WifiControlPins.Values == {PD_15, PA_8, PE_2}
  {
    var e: map<WifiControl, Pin> := map[];
    ValuesOfUpdate(e, WifiPinReset, PD_15);
    ValuesOfUpdate(e[WifiPinReset := PD_15], WifiPin32kClk, PA_8);
    ValuesOfUpdate(e[WifiPinReset := PD_15][WifiPin32kClk := PA_8], WifiPinPower, PE_2);
    assert WifiControlPins == e[WifiPinReset := PD_15][WifiPin32kClk := PA_8][WifiPinPower := PE_2];
  }

  /** The pins the SDIO table binds in each bus width. */
  lemma WifiSdioPinValues(w: SdioWidth)
    ensures WifiSdioPins(w).Values == match w
      case OneBit => {SDIO_CLK, SDIO_CMD, SDIO_D0, SDIO_D1}
      case FourBit => {SDIO_CLK, SDIO_CMD, SDIO_D0, SDIO_OOB_IRQ, SDIO_D1, SDIO_D2, SDIO_D3}
  {
    var e: map<WifiSdio, Pin> := map[];
    var c1 := e[WifiPinSdioClk := SDIO_CLK];
    var c2 := c1[WifiPinSdioCmd := SDIO_CMD];
    var common := c2[WifiPinSdioD0 := SDIO_D0];
    ValuesOfUpdate(e, WifiPinSdioClk, SDIO_CLK);
    ValuesOfUpdate(c1, WifiPinSdioCmd, SDIO_CMD);
    ValuesOfUpdate(c2, WifiPinSdioD0, SDIO_D0);
    match w {
      case OneBit =>
        ValuesOfUpdate(common, WifiPinSdioIrq, SDIO_D1);
        assert WifiSdioPins(w) == common[WifiPinSdioIrq := SDIO_D1];
      case FourBit =>
        var f1 := common[WifiPinSdioOobIrq := SDIO_OOB_IRQ];
        var f2 := f1[WifiPinSdioD1 := SDIO_D1];
        var f3 := f2[WifiPinSdioD2 := SDIO_D2];
        ValuesOfUpdate(common, WifiPinSdioOobIrq, SDIO_OOB_IRQ);
        ValuesOfUpdate(f1, WifiPinSdioD1, SDIO_D1);
        ValuesOfUpdate(f2, WifiPinSdioD2, SDIO_D2);
        ValuesOfUpdate(f3, WifiPinSdioD3, SDIO_D3);
        assert WifiSdioPins(w) == f3[WifiPinSdioD3 := SDIO_D3];
    }
  }

  /** In either SDIO width, every role is connected and no two roles share a pin. */
  lemma SdioTableValid(w: SdioWidth)
    ensures Injective(WifiSdioPins(w))
    ensures NC !in WifiSdioPins(w).Values
  {
    WifiSdioPinValues(w);
  }

  /** The in-band SDIO IRQ exists only in one-bit mode, the out-of-band IRQ and D1..D3 only in four-bit mode. */
  lemma SdioVariantsExclusive()
    ensures Lookup(WifiSdioPins(FourBit), WifiPinSdioIrq) == Err(UnknownResource)
    ensures Lookup(WifiSdioPins(OneBit), WifiPinSdioIrq) == Ok(SDIO_D1)
    ensures forall r :: r in {WifiPinSdioOobIrq, WifiPinSdioD1, WifiPinSdioD2, WifiPinSdioD3} ==>
      Lookup(WifiSdioPins(OneBit), r) == Err(UnknownResource) && Lookup(WifiSdioPins(FourBit), r).Ok?
  {
  }

  /** The pins the gSPI variant of the Wi-Fi bus occupies: its IRQ, its SPI bus and its chip select. */
  function GspiBusPins(): (s: set<Pin>)
    ensures |s| == 5 && NC !in s
  {
    var p := SpiTable[WifiSpiDevice.port];
    {WifiSpiPins[WifiPinSpiIrq], p.sclk, p.mosi, p.miso, GpioPins[WifiSpiDevice.chipSelect]}
  }

  /** The one GPIO the SDIO bus shares: MICO_WIFI_CS is the SDIO command line in either bus width. */
  lemma WifiChipSelectIsSdioCmd(w: SdioWidth)
    ensures GpioPins[MicoWifiCs] == SDIO_CMD == WifiSdioPins(w)[WifiPinSdioCmd]
    ensures forall g :: g in GpioPins && g != MicoWifiCs ==> GpioPins[g] !in WifiSdioPins(w).Values
  {
    WifiSdioPinValues(w);
  }

  /**
   * gSPI reuses SDIO pins: every gSPI pin is a four-bit SDIO pin, so the two
   * bus variants cannot be used at once; the one-bit pins are a subset too.
   */
  lemma GspiReusesSdioPins()
    ensures GspiBusPins() <= WifiSdioPins(FourBit).Values
    ensures WifiSdioPins(OneBit).Values <= WifiSdioPins(FourBit).Values
  {
    WifiSdioPinValues(FourBit);
    WifiSdioPinValues(OneBit);
  }

  /**
   * Apart from the Wi-Fi bus itself, no table entry lands on a Wi-Fi bus pin
   * of either variant: the control pins, the buttons, the flash chip select,
   * the flash SPI bus and both UARTs are elsewhere.
   */
  lemma WifiBusPinsExclusive(u: Uart)
    ensures WifiControlPins.Values !! WifiSdioPins(FourBit).Values
    ensures {GpioPins[MicoSw2], GpioPins[MicoSw3], GpioPins[MicoFlashCs]} !! WifiSdioPins(FourBit).Values
    ensures var f := SpiTable[MicoSpiFlash]; {f.sclk, f.mosi, f.miso} !! WifiSdioPins(FourBit).Values
    ensures {UartTable[u].tx, UartTable[u].rx} !! WifiSdioPins(FourBit).Values
  {
    WifiSdioPinValues(FourBit);
    OffSdioBus(WifiControlPins.Values);
    OffSdioBus({GpioPins[MicoSw2], GpioPins[MicoSw3], GpioPins[MicoFlashCs]});
    var f := SpiTable[MicoSpiFlash];
    OffSdioBus({f.sclk, f.mosi, f.miso});
    OffSdioBus({UartTable[u].tx, UartTable[u].rx});
  }

  /** A pin set made of non-SDIO pins is disjoint from the four-bit SDIO bus. */
  lemma OffSdioBus(pins: set<Pin>)
    requires forall p :: p in pins ==> p in {PA_4, PA_5, PA_8, PB_4, PB_5, PD_5, PD_6, PD_15, PE_2, PE_10, PE_11, STDIO_UART_TX, STDIO_UART_RX}
    ensures pins !! WifiSdioPins(FourBit).Values
  {
    WifiSdioPinValues(FourBit);
  }
}
