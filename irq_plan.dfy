/**
 * The interrupt priority plan of the SCX1701 board
 * (`platform_init_peripheral_irq_priorities` in board/SCX1701/mico_board.c):
 * a total assignment of NVIC priority levels to the board's interrupt
 * sources, where a lower level is more urgent.
 */
module Scx1701Irq {

  /** The interrupt sources the plan covers. */
  datatype Irq =
    | RtcWkupIrq
    | SdioIrq
    | Dma2Stream2Irq
    | Usart3Irq | Usart6Irq
    | Dma1Stream4Irq | Dma1Stream1Irq | Dma2Stream7Irq | Dma2Stream1Irq
    | Exti0Irq | Exti1Irq | Exti2Irq | Exti3Irq | Exti4Irq | Exti9_5Irq | Exti15_10Irq

  /** What each source serves, from most to least urgent. */
  datatype Tier =
    | RtcEvent     // RTC wake-up
    | WlanSdio     // Wi-Fi SDIO bus
    | WlanDma      // Wi-Fi SPI DMA
    | UartData     // MICO_UART_1 and MICO_UART_2
    | UartDma      // their TX and RX DMA streams
    | GpioEdge     // external GPIO lines

  function TierOf(irq: Irq): Tier {
    match irq
    case RtcWkupIrq => RtcEvent
    case SdioIrq => WlanSdio
    case Dma2Stream2Irq => WlanDma
    case Usart3Irq | Usart6Irq => UartData
    case Dma1Stream4Irq | Dma1Stream1Irq | Dma2Stream7Irq | Dma2Stream1Irq => UartDma
    case Exti0Irq | Exti1Irq | Exti2Irq | Exti3Irq | Exti4Irq | Exti9_5Irq | Exti15_10Irq => GpioEdge
  }

  /** Position of a tier in the urgency order. */
  function TierRank(t: Tier): nat {
    match t
    case RtcEvent => 0
    case WlanSdio => 1
    case WlanDma => 2
    case UartData => 3
    case UartDma => 4
    case GpioEdge => 5
  }

  /** The NVIC priority each source is given. */
  function PriorityOf(irq: Irq): (level: nat)
    ensures level < 16
  {
    match irq
    case RtcWkupIrq => 1
    case SdioIrq => 2
    case Dma2Stream2Irq => 3
    case Usart3Irq | Usart6Irq => 6
    case Dma1Stream4Irq | Dma1Stream1Irq | Dma2Stream7Irq | Dma2Stream1Irq => 7
    case Exti0Irq | Exti1Irq | Exti2Irq | Exti3Irq | Exti4Irq | Exti9_5Irq | Exti15_10Irq => 14
  }

  /** The order in which the sources are programmed. */
  const PlanOrder: seq<Irq> := [
    RtcWkupIrq, SdioIrq, Dma2Stream2Irq, Usart3Irq, Usart6Irq,
    Dma1Stream4Irq, Dma1Stream1Irq, Dma2Stream7Irq, Dma2Stream1Irq,
    Exti0Irq, Exti1Irq, Exti2Irq, Exti3Irq, Exti4Irq, Exti9_5Irq, Exti15_10Irq
  ]

  /**
   * The tiers occupy disjoint, ascending priority bands: two sources share a
   * level exactly when they share a tier, and one is more urgent than the
   * other exactly when its tier comes first.
   */
  lemma TiersAreDisjointBands(a: Irq, b: Irq)
    ensures PriorityOf(a) == PriorityOf(b) <==> TierOf(a) == TierOf(b)
    ensures PriorityOf(a) < PriorityOf(b) <==> TierRank(TierOf(a)) < TierRank(TierOf(b))
  {
  }

  /** RTC 1 < SDIO 2 < Wi-Fi DMA 3 < UART 6 < UART DMA 7 < GPIO 14. */
  lemma TierLevels()
    ensures PriorityOf(RtcWkupIrq) == 1 && PriorityOf(SdioIrq) == 2 && PriorityOf(Dma2Stream2Irq) == 3
    ensures forall irq :: TierOf(irq) == UartData ==> PriorityOf(irq) == 6
    ensures forall irq :: TierOf(irq) == UartDma ==> PriorityOf(irq) == 7
    ensures forall irq :: TierOf(irq) == GpioEdge ==> PriorityOf(irq) == 14
  {
  }

  /** Every source is programmed exactly once. */
  lemma PlanOrderIsTotal(irq: Irq)
    ensures irq in PlanOrder
    ensures forall i, j :: 0 <= i < j < |PlanOrder| ==> PlanOrder[i] != PlanOrder[j]
  {
  }
}
