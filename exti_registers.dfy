/**
 * The EXTI block on APB2: its base address, the member layout of
 * EXTI_TypeDef checked against its member comments, and its placement
 * one 0x400-byte slot above SYSCFG.
 */
module ExtiRegisters {
  import opened Layout
  import opened Stm32f446reRegisters
  import opened SyscfgRegisters

  const EXTI_BASE: nat := APB2PERIPH_BASE + 0x3C00

  /** EXTI_TypeDef as declared. */
  const ExtiLayout: seq<Field> := Words(["IMR", "EMR", "RTSR", "FTSR", "SWIER", "PR"])

  /** The offsets the member comments of EXTI_TypeDef state. */
  const ExtiComments: seq<Annotation> := [
    Annotation("IMR", 0x00), Annotation("EMR", 0x04), Annotation("RTSR", 0x08),
    Annotation("FTSR", 0x0C), Annotation("SWIER", 0x10), Annotation("PR", 0x14)]

  lemma ExtiBase()
    ensures EXTI_BASE == 0x4001_3C00
    ensures EXTI_BASE - SYSCFG_BASE == SLOT
  {
  }

  /** Every member sits at the offset its comment states. */
  lemma ExtiCommentsAgree()
    ensures forall k :: 0 <= k < |ExtiComments| ==> Agrees(ExtiLayout, ExtiComments[k])
  {
    forall k | 0 <= k < |ExtiComments|
      ensures Agrees(ExtiLayout, ExtiComments[k])
    {
      IndexFromFinds(ExtiLayout, ExtiComments[k].name, 0, k);
      WordStructOffsets(ExtiLayout, k);
    }
  }

  /** The block needs no padding, is 0x18 bytes and stays inside its 0x400-byte slot. */
  lemma ExtiFitsSlot()
    ensures NaturallyAligned(ExtiLayout)
    ensures SizeOf(ExtiLayout) == 0x18
    ensures EXTI_BASE + SizeOf(ExtiLayout) <= EXTI_BASE + SLOT
  {
    WordStructAligned(ExtiLayout);
  }

  /** SYSCFG, as declared and as corrected, ends below the start of EXTI. */
  lemma SyscfgBelowExti()
    ensures SYSCFG_BASE + SizeOf(SyscfgLayout) <= EXTI_BASE
    ensures SYSCFG_BASE + SizeOf(SyscfgLayoutPadded) <= EXTI_BASE
  {
    SyscfgSizes();
  }
}
