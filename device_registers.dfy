/**
 * The second, shorter register map (device_registers.h) that the GPIO driver
 * header also pulls in. It spells its bus bases differently (APB1PERPH_BASE,
 * M4PERPH_BASE), adds per-register offset macros for a GPIO block, and declares
 * GPIO_RegDef_t. The lemmas show it describes the same hardware as the main
 * register map, SYSCFG and EXTI headers.
 */
module DeviceRegisters {
  import opened Layout
  import Stm = Stm32f446reRegisters
  import Syscfg = SyscfgRegisters
  import Exti = ExtiRegisters

  const APB1PERPH_BASE: nat := 0x4000_0000
  const APB2PERPH_BASE: nat := 0x4001_0000
  const AHB1PERPH_BASE: nat := 0x4002_0000
  const AHB2PERPH_BASE: nat := 0x5000_0000
  const AHB3PERPH_BASE: nat := 0x6000_0000
  const M4PERPH_BASE: nat := 0xE000_0000

  const SYSTICK_BASE: nat := M4PERPH_BASE + 0xE010
  const NVIC_BASE: nat := M4PERPH_BASE + 0xE100
  const RCC_BASE: nat := AHB1PERPH_BASE + 0x3800
  const EXTI_BASE: nat := APB2PERPH_BASE + 0x3C00
  const SYSCFG_BASE: nat := APB2PERPH_BASE + 0x3800

  const GPIOA_BASE: nat := AHB1PERPH_BASE + 0x0000
  const GPIOB_BASE: nat := AHB1PERPH_BASE + 0x0400
  const GPIOC_BASE: nat := AHB1PERPH_BASE + 0x0800
  const GPIOD_BASE: nat := AHB1PERPH_BASE + 0x0C00
  const GPIOE_BASE: nat := AHB1PERPH_BASE + 0x1000
  const GPIOF_BASE: nat := AHB1PERPH_BASE + 0x1400
  const GPIOG_BASE: nat := AHB1PERPH_BASE + 0x1800
  const GPIOH_BASE: nat := AHB1PERPH_BASE + 0x1C00

  const MODER_OFFSET: nat := 0x00
  const OTYPER_OFFSET: nat := 0x04
  const OSPEEDR_OFFSET: nat := 0x08
  const PUPDR_OFFSET: nat := 0x0C
  const IDR_OFFSET: nat := 0x10
  const ODR_OFFSET: nat := 0x14
  const BSRR_OFFSET: nat := 0x18
  const LCKR_OFFSET: nat := 0x1C
  const AFRL_OFFSET: nat := 0x20
  const AFRH_OFFSET: nat := 0x24

  const TIM2_BASE: nat := APB1PERPH_BASE + 0x0000
  const TIM3_BASE: nat := APB1PERPH_BASE + 0x0400
  const TIM4_BASE: nat := APB1PERPH_BASE + 0x0800
  const TIM5_BASE: nat := APB1PERPH_BASE + 0x0C00

  /** The GPIOx base macros, in port order A..H. */
  const GpioBases: seq<nat> := [
    GPIOA_BASE, GPIOB_BASE, GPIOC_BASE, GPIOD_BASE,
    GPIOE_BASE, GPIOF_BASE, GPIOG_BASE, GPIOH_BASE]

  /** The TIMx base macros, in order TIM2..TIM5. */
  const TimerBases: seq<nat> := [TIM2_BASE, TIM3_BASE, TIM4_BASE, TIM5_BASE]

  /** The register offset macros, in member order. */
  const OffsetMacros: seq<nat> := [
    MODER_OFFSET, OTYPER_OFFSET, OSPEEDR_OFFSET, PUPDR_OFFSET, IDR_OFFSET,
    ODR_OFFSET, BSRR_OFFSET, LCKR_OFFSET, AFRL_OFFSET, AFRH_OFFSET]

  /** GPIO_RegDef_t as declared. */
  const GpioRegDefLayout: seq<Field> := Words([
    "MODER", "OTYPER", "OSPEEDR", "PUPDR", "IDR", "ODR", "BSRR", "LCKR", "AFRL", "AFRH"])

  /** The bus and core bases agree with the main register map, under their other names. */
  lemma BusBasesAgree()
    ensures APB1PERPH_BASE == Stm.APB1PERIPH_BASE && APB2PERPH_BASE == Stm.APB2PERIPH_BASE
    ensures AHB1PERPH_BASE == Stm.AHB1PERIPH_BASE && AHB2PERPH_BASE == Stm.AHB2PERIPH_BASE
    ensures AHB3PERPH_BASE == Stm.AHB3PERIPH_BASE && M4PERPH_BASE == Stm.CORTEX_M4_PERIPH_BASE
  {
  }

  /** SysTick, NVIC, RCC, EXTI and SYSCFG sit at the same addresses as in the other headers. */
  lemma BlockBasesAgree()
    ensures SYSTICK_BASE == Stm.SYSTICK_BASE && NVIC_BASE == Stm.NVIC_BASE
    ensures RCC_BASE == Stm.RCC_BASE
    ensures EXTI_BASE == Exti.EXTI_BASE && SYSCFG_BASE == Syscfg.SYSCFG_BASE
  {
  }

  /** GPIOx_BASE is slot x of AHB1, the same address the main register map gives port x. */
  lemma GpioBasesAgree()
    ensures |GpioBases| == 8
    ensures forall p :: GpioBases[Stm.PortNumber(p)] == Stm.GpioBase(p)
    ensures forall i :: 0 <= i < |GpioBases| ==> GpioBases[i] == AHB1PERPH_BASE + Stm.SLOT * i
  {
  }

  /** No two GPIO base macros name the same address. */
  lemma GpioBasesDistinct()
    ensures forall i, j :: 0 <= i < j < |GpioBases| ==> GpioBases[i] != GpioBases[j]
  {
    GpioBasesAgree();
  }

  /** TIMx_BASE is slot x - 2 of APB1, the same address the main register map gives TIMx. */
  lemma TimerBasesAgree()
    ensures |TimerBases| == 4
    ensures forall t :: TimerBases[Stm.TimerNumber(t)] == Stm.TimerBase(t)
    ensures forall i :: 0 <= i < |TimerBases| ==> TimerBases[i] == APB1PERPH_BASE + Stm.SLOT * i
  {
  }

  lemma TimerBasesDistinct()
    ensures forall i, j :: 0 <= i < j < |TimerBases| ==> TimerBases[i] != TimerBases[j]
  {
    TimerBasesAgree();
  }

  /** Each offset macro is the byte offset of its member in GPIO_RegDef_t. */
  lemma OffsetMacrosMatchRegDef()
    ensures |OffsetMacros| == |GpioRegDefLayout|
    ensures forall i :: 0 <= i < |OffsetMacros| ==> OffsetMacros[i] == Offset(GpioRegDefLayout, i)
  {
    forall i | 0 <= i < |OffsetMacros|
      ensures OffsetMacros[i] == Offset(GpioRegDefLayout, i)
    {
      WordStructOffsets(GpioRegDefLayout, i);
    }
  }

  /** GPIO_RegDef_t and GPIO_TypeDef have the same members in the same order, hence the same layout. */
  lemma RegDefIsTypeDef()
    ensures GpioRegDefLayout == Stm.GpioLayout
  {
  }
}
