/**
 * The GPIO driver: enabling a port's clock, configuring one pin, writing a
 * level through BSRR, reading IDR and toggling ODR. Every update is a
 * read-modify-write of one field of one register; the contracts give the new
 * register value as a field update of the old one, and the lemmas below state
 * what that means for the pin concerned and for every other pin.
 */
module BareGpio {
  import opened Options
  import opened Bits
  import opened Stm32f446reRegisters
  import opened BareGpioDefs
  import opened RegisterBlocks

  /**
   * The AHB1ENR bit the clock helper sets for the block at `base`: port
   * GPIOA to GPIOH gets bit 0 to 7; any other address gets none.
   */
  function ClockEnableBit(base: nat): (r: Option<bv32>)
    ensures r.Some? ==> r.value < 8 && base == AHB1PERIPH_BASE + SLOT * (r.value as nat)
  {
    if base == GPIOA_BASE then Some(0)
    else if base == GPIOB_BASE then Some(1)
    else if base == GPIOC_BASE then Some(2)
    else if base == GPIOD_BASE then Some(3)
    else if base == GPIOE_BASE then Some(4)
    else if base == GPIOF_BASE then Some(5)
    else if base == GPIOG_BASE then Some(6)
    else if base == GPIOH_BASE then Some(7)
    else None
  }

  /** Port x's clock bit is its position in A..H, not its GPIO_PORTx index. */
  lemma ClockEnableBitOfPort(p: GpioPort)
    ensures ClockEnableBit(GpioBase(p)) == Some(PortNumber(p) as bv32)
    ensures (PortIndex(p) == PortNumber(p)) <==> (p.PortA? || p.PortB? || p.PortC?)
  {
    PortIndices(p, p);
  }

  /** An address that is not one of GPIOA to GPIOH has no clock bit. */
  lemma ClockEnableBitUnrecognised(base: nat)
    requires forall p :: base != GpioBase(p)
    ensures ClockEnableBit(base) == None
  {
    assert base != GpioBase(PortA) && base != GpioBase(PortB);
    assert base != GpioBase(PortC) && base != GpioBase(PortD);
    assert base != GpioBase(PortE) && base != GpioBase(PortF);
    assert base != GpioBase(PortG) && base != GpioBase(PortH);
  }

  /** AHB1ENR after the clock helper runs for the block at `base`. */
  function WithPortClock(ahb1enr: bv32, base: nat): (r: bv32)
    ensures ClockEnableBit(base).Some? ==> Bit(r, ClockEnableBit(base).value)
    ensures ClockEnableBit(base).None? ==> r == ahb1enr
  {
    match ClockEnableBit(base)
    case Some(b) => SetBit(ahb1enr, b)
    case None => ahb1enr
  }

  /** Every AHB1ENR bit other than the port's own clock bit keeps its value. */
  lemma WithPortClockFrame(ahb1enr: bv32, p: GpioPort, i: bv32)
    requires i < 32 && i != PortNumber(p) as bv32
    ensures Bit(WithPortClock(ahb1enr, GpioBase(p)), i) == Bit(ahb1enr, i)
  {
    ClockEnableBitOfPort(p);
    SetBitFrame(ahb1enr, PortNumber(p) as bv32);
  }

  lemma WithPortClockIdempotent(ahb1enr: bv32, base: nat)
    ensures WithPortClock(WithPortClock(ahb1enr, base), base) == WithPortClock(ahb1enr, base)
  {
    if ClockEnableBit(base).Some? {
      SetBitIdempotent(ahb1enr, ClockEnableBit(base).value);
    }
  }

  /** bare_gpio_enable_clock: OR the port's bit into RCC AHB1ENR. */
  method EnableClock(rcc: RccRegs, port: GpioRegs)
    modifies rcc`AHB1ENR
    ensures rcc.AHB1ENR == WithPortClock(old(rcc.AHB1ENR), port.base)
  {
    if port.base == GPIOA_BASE {
      rcc.AHB1ENR := rcc.AHB1ENR | (1 << 0);
    } else if port.base == GPIOB_BASE {
      rcc.AHB1ENR := rcc.AHB1ENR | (1 << 1);
    } else if port.base == GPIOC_BASE {
      rcc.AHB1ENR := rcc.AHB1ENR | (1 << 2);
    } else if port.base == GPIOD_BASE {
      rcc.AHB1ENR := rcc.AHB1ENR | (1 << 3);
    } else if port.base == GPIOE_BASE {
      rcc.AHB1ENR := rcc.AHB1ENR | (1 << 4);
    } else if port.base == GPIOF_BASE {
      rcc.AHB1ENR := rcc.AHB1ENR | (1 << 5);
    } else if port.base == GPIOG_BASE {
      rcc.AHB1ENR := rcc.AHB1ENR | (1 << 6);
    } else if port.base == GPIOH_BASE {
      rcc.AHB1ENR := rcc.AHB1ENR | (1 << 7);
    }
  }

  /**
   * bare_gpio_init: enable the port clock, then clear and rewrite the pin's
   * 2-bit MODER, OSPEEDR and PUPDR fields and its 1-bit OTYPER field, each
   * value masked to its field width. No other register changes.
   */
  method Init(rcc: RccRegs, port: GpioRegs, pin: bv8, mode: bv32, otype: bv32, speed: bv32, pull: bv32)
    requires pin < 16
    modifies rcc`AHB1ENR, port`MODER, port`OTYPER, port`OSPEEDR, port`PUPDR
    ensures rcc.AHB1ENR == WithPortClock(old(rcc.AHB1ENR), port.base)
    ensures port.MODER == Insert2(old(port.MODER), 2 * (pin as bv32), mode)
    ensures port.OTYPER == Insert1(old(port.OTYPER), pin as bv32, otype)
    ensures port.OSPEEDR == Insert2(old(port.OSPEEDR), 2 * (pin as bv32), speed)
    ensures port.PUPDR == Insert2(old(port.PUPDR), 2 * (pin as bv32), pull)
    ensures unchanged(port`IDR, port`ODR, port`BSRR, port`LCKR, port`AFRL, port`AFRH)
  {
    EnableClock(rcc, port);
    port.MODER := ClearThenSet2(port.MODER, pin, mode);
    port.OTYPER := ClearThenSet1(port.OTYPER, pin, otype);
    port.OSPEEDR := ClearThenSet2(port.OSPEEDR, pin, speed);
    port.PUPDR := ClearThenSet2(port.PUPDR, pin, pull);
  }

  /** One `&= ~(0x3U << (pin * 2))` then `|= ((v & 0x3U) << (pin * 2))` pair of bare_gpio_init. */
  method ClearThenSet2(reg: bv32, pin: bv8, v: bv32) returns (r: bv32)
    requires pin < 16
    ensures r == Insert2(reg, 2 * (pin as bv32), v)
  {
    r := reg & !(3 << (pin as bv32 * 2));
    r := r | ((v & 3) << (pin as bv32 * 2));
  }

  /** The `&= ~(0x1U << pin)` then `|= ((otype & 0x1U) << pin)` pair of bare_gpio_init. */
  method ClearThenSet1(reg: bv32, pin: bv8, v: bv32) returns (r: bv32)
    requires pin < 16
    ensures r == Insert1(reg, pin as bv32, v)
  {
    r := reg & !(1 << (pin as bv32));
    r := r | ((v & 1) << (pin as bv32));
  }

  /** The 2-bit MODER, OSPEEDR or PUPDR field of pin `q`. */
  function PinField2(w: bv32, q: bv32): (r: bv32)
    requires q < 16
    ensures r == (if Bit(w, 2 * q + 1) then 2 else 0) + (if Bit(w, 2 * q) then 1 else 0)
  {
    Field2(w, 2 * q)
  }

  /** Configuring pin `pin` stores `v & 3` in its own 2-bit field and leaves every other pin's field alone. */
  lemma ConfigureField2(w: bv32, pin: bv32, v: bv32, q: bv32)
    requires pin < 16 && q < 16
    ensures PinField2(Insert2(w, 2 * pin, v), pin) == v & 3
    ensures q != pin ==> PinField2(Insert2(w, 2 * pin, v), q) == PinField2(w, q)
  {
    Insert2Frame(w, 2 * pin, v);
  }

  /** Configuring the output type of `pin` stores `v & 1` in its bit and leaves every other pin's bit alone. */
  lemma ConfigureField1(w: bv32, pin: bv32, v: bv32, q: bv32)
    requires pin < 16 && q < 32
    ensures Field1(Insert1(w, pin, v), pin) == v & 1
    ensures q != pin ==> Bit(Insert1(w, pin, v), q) == Bit(w, q)
  {
    Insert1Frame(w, pin, v);
  }

  /** A named mode, speed, pull or output type is stored unchanged: the mask is the identity on it. */
  lemma NamedValuesStored(w: bv32, pin: bv32, v: bv32, t: bv32)
    requires pin < 16
    requires v in Modes || v in Speeds || v in Pulls
    requires t in OutputTypes
    ensures PinField2(Insert2(w, 2 * pin, v), pin) == v
    ensures Field1(Insert1(w, pin, t), pin) == t
  {
    ModesFit();
    SpeedsFit();
    PullsFit();
    OutputTypesFit();
  }

  /**
   * An out-of-range value is cut to its field width: it configures exactly what its low bits would.
   * This is the per-pin form of `Insert2Truncates` and `Insert1Truncates`, at bit 2·pin and pin.
   */
  lemma ConfigureTruncates(w: bv32, pin: bv32, v: bv32)
    requires pin < 16
    ensures Insert2(w, 2 * pin, v) == Insert2(w, 2 * pin, v & 3)
    ensures Insert1(w, pin, v) == Insert1(w, pin, v & 1)
  {
    Insert2Truncates(w, 2 * pin, v);
    Insert1Truncates(w, pin, v);
  }

  /**
   * Configuring the same pin with the same value twice is the same as once.
   * This is the per-pin form of `Insert2Idempotent` and `Insert1Idempotent`.
   */
  lemma ConfigureIdempotent(w: bv32, pin: bv32, v: bv32)
    requires pin < 16
    ensures Insert2(Insert2(w, 2 * pin, v), 2 * pin, v) == Insert2(w, 2 * pin, v)
    ensures Insert1(Insert1(w, pin, v), pin, v) == Insert1(w, pin, v)
  {
    Insert2Idempotent(w, 2 * pin, v);
    Insert1Idempotent(w, pin, v);
  }

  /**
   * The word bare_gpio_write stores into BSRR: bit `pin` (set) when the state
   * is GPIO_PIN_HIGH, bit `pin + 16` (reset) for any other state. Exactly one
   * bit is set.
   */
  function BsrrWord(pin: bv8, state: bv8): (w: bv32)
    requires pin < 16
    ensures w != 0 && w & (w - 1) == 0
    ensures Bit(w, pin as bv32) == (state == GPIO_PIN_HIGH)
    ensures Bit(w, pin as bv32 + 16) == (state != GPIO_PIN_HIGH)
  {
    if state == GPIO_PIN_HIGH then 1 << (pin as bv32) else 1 << (pin as bv32 + 16)
  }

  /** bare_gpio_write: store the one-hot set/reset word; ODR is neither read nor written. */
  method Write(port: GpioRegs, pin: bv8, state: bv8)
    requires pin < 16
    modifies port`BSRR
    ensures port.BSRR == BsrrWord(pin, state)
  {
    if state == GPIO_PIN_HIGH {
      port.BSRR := 1 << (pin as bv32);
    } else {
      port.BSRR := 1 << (pin as bv32 + 16);
    }
  }

  /** bare_gpio_read: bit `pin` of IDR, as 0 or 1. */
  function Read(port: GpioRegs, pin: bv8): (r: bv8)
    requires pin < 16
    reads port`IDR
    ensures r <= 1
    ensures (r == 1) == Bit(port.IDR, pin as bv32)
  {
    if Field1(port.IDR, pin as bv32) == 1 then 1 else 0
  }

  /** bare_gpio_toggle: XOR bit `pin` into ODR. */
  method Toggle(port: GpioRegs, pin: bv8)
    requires pin < 16
    modifies port`ODR
    ensures port.ODR == FlipBit(old(port.ODR), pin as bv32)
  {
    port.ODR := port.ODR ^ (1 << (pin as bv32));
  }

  /**
   * Toggling flips the pin's ODR bit, keeps every other bit, and a second toggle restores ODR.
   * This is the form of `FlipBitFrame` and `FlipBitTwice` for a pin below 16.
   */
  lemma ToggleEffect(odr: bv32, pin: bv32, i: bv32)
    requires pin < 16 && i < 32
    ensures Bit(FlipBit(odr, pin), pin) == !Bit(odr, pin)
    ensures i != pin ==> Bit(FlipBit(odr, pin), i) == Bit(odr, i)
    ensures FlipBit(FlipBit(odr, pin), pin) == odr
  {
    FlipBitFrame(odr, pin);
    FlipBitTwice(odr, pin);
  }
}
