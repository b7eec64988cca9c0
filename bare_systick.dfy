/**
 * The SysTick driver: program the reload value, zero the current value, and
 * start the counter by setting CSR bits 2 (processor clock), 1 (interrupt)
 * and 0 (enable), in that order.
 */
module BareSysTick {
  import opened Bits
  import opened RegisterBlocks

  /** CSR after SysTick_Init's three `|=` steps: bits 0, 1 and 2 set. */
  function Started(csr: bv32): (r: bv32)
    ensures Bit(r, 0) && Bit(r, 1) && Bit(r, 2)
  {
    SetBit(SetBit(SetBit(csr, 2), 1), 0)
  }

  /** Starting keeps CSR bits 3 to 31. */
  lemma StartedFrame(csr: bv32)
    ensures forall i :: 3 <= i < 32 ==> Bit(Started(csr), i) == Bit(csr, i)
  {
    forall i | 3 <= i < 32
      ensures Bit(Started(csr), i) == Bit(csr, i)
    {
      StartedIsOr7(csr);
    }
  }

  /** The three steps together OR 0x7 into CSR. */
  lemma StartedIsOr7(csr: bv32)
    ensures Started(csr) == csr | 7
  {
  }

  lemma StartedIdempotent(csr: bv32)
    ensures Started(Started(csr)) == Started(csr)
  {
    StartedIsOr7(csr);
    StartedIsOr7(Started(csr));
  }

  /** SysTick_Set_TIMER: RVR := reload, then CVR := 0; CSR is not touched. */
  method SetTimer(st: SysTickRegs, reload: bv32)
    modifies st`RVR, st`CVR, st`writes
    ensures st.RVR == reload && st.CVR == 0
    ensures st.writes == old(st.writes) + [ToRVR(reload), ToCVR(0)]
    ensures st.CSR == old(st.CSR)
  {
    st.RVR := reload;
    st.writes := st.writes + [ToRVR(reload)];
    st.CVR := 0;
    st.writes := st.writes + [ToCVR(0)];
  }

  /**
   * SysTick_Init: program the timer, then set CSR bits 2, 1 and 0. The
   * clock, interrupt, calibration-skew and calibration-value arguments are
   * accepted and ignored: the new state depends on `reload` alone.
   */
  method Init(st: SysTickRegs, reload: bv32, clk: bv32, interrupt: bv32, impl: bv32, calib: bv32)
    modifies st`RVR, st`CVR, st`CSR, st`writes
    ensures st.RVR == reload && st.CVR == 0
    ensures st.CSR == Started(old(st.CSR))
    ensures st.writes == old(st.writes) + InitWrites(reload)
  {
    SetTimer(st, reload);
    OrIntoCsr(st, 1 << 2);
    OrIntoCsr(st, 1 << 1);
    OrIntoCsr(st, 1 << 0);
    AppendInOrder(old(st.writes), ToRVR(reload), ToCVR(0), OrCSR(1 << 2), OrCSR(1 << 1), OrCSR(1 << 0));
  }

  /** One `SYSTICK->CSR |= mask` store. */
  method OrIntoCsr(st: SysTickRegs, mask: bv32)
    modifies st`CSR, st`writes
    ensures st.CSR == old(st.CSR) | mask
    ensures st.writes == old(st.writes) + [OrCSR(mask)]
  {
    st.CSR := st.CSR | mask;
    st.writes := st.writes + [OrCSR(mask)];
  }

  /** The stores SysTick_Init makes, oldest first. */
  function InitWrites(reload: bv32): seq<SysTickWrite> {
    [ToRVR(reload), ToCVR(0), OrCSR(1 << 2), OrCSR(1 << 1), OrCSR(1 << 0)]
  }

  /** The bits a sequence of stores ORs into CSR. */
  function CsrMask(ws: seq<SysTickWrite>): bv32
    decreases |ws|
  {
    if ws == [] then 0
    else (if ws[0].OrCSR? then ws[0].mask else 0) | CsrMask(ws[1..])
  }

  /** The reload value and the zeroed current value are stored before any CSR bit is set. */
  lemma InitWriteOrder(reload: bv32)
    ensures |InitWrites(reload)| == 5
    ensures InitWrites(reload)[..2] == [ToRVR(reload), ToCVR(0)]
    ensures forall k :: 2 <= k < 5 ==> InitWrites(reload)[k].OrCSR?
  {
  }

  /** The stores of SysTick_Init OR exactly 0x7 into CSR, which leaves it started. */
  lemma InitWritesStart(csr: bv32, reload: bv32)
    ensures CsrMask(InitWrites(reload)) == 7
    ensures csr | CsrMask(InitWrites(reload)) == Started(csr)
  {
    var ws := InitWrites(reload);
    assert ws[1..][1..] == ws[2..] && ws[2..][1..] == ws[3..];
    assert ws[3..][1..] == ws[4..] && ws[4..][1..] == [];
    assert CsrMask(ws[4..]) == 1;
    assert CsrMask(ws[3..]) == 3;
    assert CsrMask(ws[2..]) == 7;
    StartedIsOr7(csr);
  }

  /** Appending five stores one or two at a time is appending them all at once. */
  lemma AppendInOrder<T>(s: seq<T>, a: T, b: T, c: T, d: T, e: T)
    ensures s + [a, b] + [c] + [d] + [e] == s + [a, b, c, d, e]
  {
  }
}
