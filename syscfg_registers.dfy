/**
 * The SYSCFG block on APB2: its base address and the member layout of
 * SYSCFG_TypeDef, checked against the offsets its member comments state.
 *
 * The struct declares CMPCR and CFGR right after EXTICR4, so they land at
 * 0x18 and 0x1C, while the comments place them at 0x20 and 0x24.
 * `SyscfgLayout` is the struct as declared; `SyscfgLayoutPadded` is the
 * corrected struct, with two reserved words after EXTICR4, whose offsets are
 * exactly the commented ones.
 */
module SyscfgRegisters {
  import opened Options
  import opened Layout
  import opened Stm32f446reRegisters

  const SYSCFG_BASE: nat := APB2PERIPH_BASE + 0x3800

  /** SYSCFG_TypeDef as declared. */
  const SyscfgLayout: seq<Field> := Words([
    "MEMRMP", "PMC", "EXTICR1", "EXTICR2", "EXTICR3", "EXTICR4", "CMPCR", "CFGR"])

  /** The offsets the member comments of SYSCFG_TypeDef state. */
  const SyscfgComments: seq<Annotation> := [
    Annotation("MEMRMP", 0x00), Annotation("PMC", 0x04),
    Annotation("EXTICR1", 0x08), Annotation("EXTICR2", 0x0C),
    Annotation("EXTICR3", 0x10), Annotation("EXTICR4", 0x14),
    Annotation("CMPCR", 0x20), Annotation("CFGR", 0x24)]

  /** SYSCFG_TypeDef with the two reserved words its comments imply after EXTICR4. */
  const SyscfgLayoutPadded: seq<Field> := Words([
    "MEMRMP", "PMC", "EXTICR1", "EXTICR2", "EXTICR3", "EXTICR4",
    "RESERVED0", "RESERVED1", "CMPCR", "CFGR"])

  lemma SyscfgBase()
    ensures SYSCFG_BASE == 0x4001_3800
  {
  }

  /** MEMRMP, PMC and EXTICR1 to EXTICR4 sit where their comments say. */
  lemma LeadingMembersAgree()
    ensures forall k :: 0 <= k < 6 ==> Agrees(SyscfgLayout, SyscfgComments[k])
  {
    forall k | 0 <= k < 6
      ensures Agrees(SyscfgLayout, SyscfgComments[k])
    {
      IndexFromFinds(SyscfgLayout, SyscfgComments[k].name, 0, k);
      WordStructOffsets(SyscfgLayout, k);
    }
  }

  /** As declared, CMPCR sits at 0x18 and CFGR at 0x1C, not at the commented 0x20 and 0x24. */
  lemma TrailingMembersMisplaced()
    ensures OffsetOf(SyscfgLayout, "CMPCR") == Some(0x18)
    ensures OffsetOf(SyscfgLayout, "CFGR") == Some(0x1C)
    ensures !Agrees(SyscfgLayout, SyscfgComments[6]) && !Agrees(SyscfgLayout, SyscfgComments[7])
  {
    IndexFromFinds(SyscfgLayout, "CMPCR", 0, 6);
    WordStructOffsets(SyscfgLayout, 6);
    IndexFromFinds(SyscfgLayout, "CFGR", 0, 7);
    WordStructOffsets(SyscfgLayout, 7);
  }

  /** With two reserved words after EXTICR4, every member sits where its comment says. */
  lemma PaddedLayoutAgrees()
    ensures forall k :: 0 <= k < |SyscfgComments| ==> Agrees(SyscfgLayoutPadded, SyscfgComments[k])
  {
    PaddedLeadingAgree();
    PaddedTrailingAgree();
  }

  lemma PaddedLeadingAgree()
    ensures forall k :: 0 <= k < 6 ==> Agrees(SyscfgLayoutPadded, SyscfgComments[k])
  {
    forall k | 0 <= k < 6
      ensures Agrees(SyscfgLayoutPadded, SyscfgComments[k])
    {
      IndexFromFinds(SyscfgLayoutPadded, SyscfgComments[k].name, 0, k);
      WordStructOffsets(SyscfgLayoutPadded, k);
    }
  }

  lemma PaddedTrailingAgree()
    ensures Agrees(SyscfgLayoutPadded, SyscfgComments[6])
    ensures Agrees(SyscfgLayoutPadded, SyscfgComments[7])
  {
    IndexFromFinds(SyscfgLayoutPadded, "CMPCR", 0, 8);
    WordStructOffsets(SyscfgLayoutPadded, 8);
    IndexFromFinds(SyscfgLayoutPadded, "CFGR", 0, 9);
    WordStructOffsets(SyscfgLayoutPadded, 9);
  }

  /** Neither struct needs padding; the block as declared is 0x20 bytes, the corrected one 0x28. */
  lemma SyscfgSizes()
    ensures NaturallyAligned(SyscfgLayout) && NaturallyAligned(SyscfgLayoutPadded)
    ensures SizeOf(SyscfgLayout) == 0x20
    ensures SizeOf(SyscfgLayoutPadded) == 0x28
  {
    WordStructAligned(SyscfgLayout);
    WordStructAligned(SyscfgLayoutPadded);
  }
}
