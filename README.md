# STM32F446RE bare-metal drivers: a Dafny model

This project models a small bare-metal driver layer for the STM32F446RE
microcontroller (Cortex-M4). It covers two parts.

- **Drivers.** The GPIO driver configures a pin, writes it through BSRR, reads
  IDR and toggles ODR. The GPIO and TIM2–TIM5 clock helpers gate a
  peripheral's clock in RCC AHB1ENR or APB1ENR. The SysTick driver programs
  the reload and current values and starts the counter.
- **Register map.** The four register headers fix bus and peripheral base
  addresses and declare the register structs (SysTick, NVIC, RCC, GPIO,
  SYSCFG, EXTI and the second GPIO struct `GPIO_RegDef_t`).

Registers are plain `bv32` fields of classes (`RegisterBlocks.GpioRegs`,
`RccRegs`, `SysTickRegs`). Each driver routine that stores into a register is
a method over those fields, with field-level `modifies` frames, so each
contract also says which registers a routine cannot touch. `bare_gpio_read`
only loads IDR, so it is the function `BareGpio.Read`, with a `reads` frame
of IDR alone. A method's `ensures` gives the new register
value as a function of the old one. The functions in `Bits` (`SetBit`,
`ClearBit`, `FlipBit`, `Insert1`, `Insert2`, `Field1`, `Field2`) carry the
bit-level meaning, and lemmas about them give the frame, truncation and
idempotence facts. A peripheral pointer is modelled by the address it holds,
so "not one of GPIOA..GPIOH" is any other address.

A struct layout is a list of members `Field(name, elemBytes, count)`. Member
offsets are prefix sums of member sizes (`Layout.Offset`). `NaturallyAligned`
states that no member needs padding, which makes those prefix sums the C
offsets. The header comments that state offsets become `Annotation` values,
checked against the computed offsets.

Module to file:

| module | file |
|---|---|
| `Options` | `options.dfy` |
| `Bits` | `bits.dfy` |
| `Layout` | `layout.dfy` |
| `Stm32f446reRegisters` | `stm32f446re_registers.dfy` |
| `SyscfgRegisters` | `syscfg_registers.dfy` |
| `ExtiRegisters` | `exti_registers.dfy` |
| `DeviceRegisters` | `device_registers.dfy` |
| `RegisterBlocks` | `register_blocks.dfy` |
| `BareGpioDefs` | `bare_gpio_h.dfy` |
| `BareGpio` | `bare_gpio.dfy` |
| `BareTim2To5` | `bare_tim2_5.dfy` |
| `BareSysTick` | `bare_systick.dfy` |

## Model

| member | source | states |
|---|---|---|
| Bits.SetBit | src/bare_gpio.c:12-28 | OR-ing `1 << b` into a register leaves bit b set |
| Bits.ClearBit | src/bare_tim2_5.c:50-61 | AND-ing a register with `~(1 << b)` leaves bit b clear |
| Bits.FlipBit | src/bare_gpio.c:69 | XOR-ing `1 << b` into a register inverts bit b |
| Bits.SetBitFrame | src/bare_gpio.c:12-28 | setting bit b keeps every other bit |
| Bits.ClearBitFrame | src/bare_tim2_5.c:50-61 | clearing bit b keeps every other bit |
| Bits.FlipBitFrame | src/bare_gpio.c:69 | flipping bit b keeps every other bit |
| Bits.SetBitIdempotent | src/bare_tim2_5.c:28 | setting a bit twice equals setting it once |
| Bits.ClearBitIdempotent | src/bare_tim2_5.c:51 | clearing a bit twice equals clearing it once |
| Bits.ClearAfterSet | src/bare_tim2_5.c:26-61 | set then clear of bit b equals clear alone, so all other bits are as before |
| Bits.FlipBitTwice | src/bare_gpio.c:69 | flipping the same bit twice restores the word |
| Bits.Field1 | src/bare_gpio.c:64 | `(w >> lo) & 1` is 1 exactly when bit lo is set, else 0 |
| Bits.Field2 | src/bare_gpio.c:37-38 | the 2-bit field at lo has value 2·bit(lo+1) + bit(lo) |
| Bits.Insert1 | src/bare_gpio.c:41-42 | clear-then-OR of a 1-bit field stores `v & 1` there |
| Bits.Insert2 | src/bare_gpio.c:37-38 | clear-then-OR of a 2-bit field stores `v & 3` there |
| Bits.Insert1Frame | src/bare_gpio.c:41-42 | writing the 1-bit field keeps all other 31 bits |
| Bits.Insert2Frame | src/bare_gpio.c:37-38 | writing the 2-bit field keeps all other 30 bits |
| Bits.Insert1Truncates | src/bare_gpio.c:42 | only the low bit of the value matters |
| Bits.Insert2Truncates | src/bare_gpio.c:38 | only the low two bits of the value matter |
| Bits.Insert1Idempotent | src/bare_gpio.c:41-42 | writing the same 1-bit field value twice equals once |
| Bits.Insert2Idempotent | src/bare_gpio.c:37-38 | writing the same 2-bit field value twice equals once |
| Layout.Words | inc/stm32f446re_registers.h:136-147 | a struct of `uint32_t` members keeps the names and order it is given |
| Layout.SizeOfAppend | inc/stm32f446re_registers.h:55-69 | adding a member adds its size to the struct size |
| Layout.OffsetIsPrefixSize | inc/stm32f446re_registers.h:55-69 | a member's offset is the size of the members declared before it |
| Layout.EndIsSize | inc/stm32f446re_registers.h:55-69 | the end of the last member is the struct size |
| Layout.MembersDisjoint | inc/stm32f446re_registers.h:55-69 | each member ends at or before every later member starts |
| Layout.WordStructOffsets | inc/stm32f446re_registers.h:136-147 | in an all-`uint32_t` struct, member i is at byte 4·i |
| Layout.WordStructAligned | inc/stm32f446re_registers.h:136-147 | an all-`uint32_t` struct needs no padding and is 4·n bytes |
| Layout.WordMultipleOffsets | inc/stm32f446re_registers.h:55-69 | with whole-word member sizes, every member starts on a word boundary |
| Layout.WordMultiplesAligned | inc/stm32f446re_registers.h:66 | a mix of `uint8_t` and `uint32_t` arrays of whole-word size needs no padding |
| Layout.IndexFrom | inc/syscfg_registers.h:28-38 | name lookup returns a position holding that name, or None only when the name is absent |
| Layout.IndexFromFinds | inc/syscfg_registers.h:28-38 | lookup returns the first position with the name |
| Stm32f446reRegisters.AddressesFit | inc/stm32f446re_registers.h:20-22 | every base address fits in 32 bits |
| Stm32f446reRegisters.CoreBases | inc/stm32f446re_registers.h:27-29 | SysTick is at 0xE000E010, NVIC at 0xE000E100, RCC at 0x40023800 |
| Stm32f446reRegisters.SysTickOffsets | inc/stm32f446re_registers.h:43-48 | CSR, RVR, CVR, CALIB at 0x0, 0x4, 0x8, 0xC; block size 0x10 |
| Stm32f446reRegisters.NvicOffsets | inc/stm32f446re_registers.h:55-69 | ISER 0x000, ICER 0x080, ISPR 0x100, ICPR 0x180, IABR 0x200, IPR 0x300, STIR 0xE00 |
| Stm32f446reRegisters.NvicReservedRanges | inc/stm32f446re_registers.h:57-67 | each reserved gap spans the range its comment gives; 644 = (0xE00 − 0x3F0) / 4 |
| Stm32f446reRegisters.NvicAligned | inc/stm32f446re_registers.h:55-69 | the byte array IPR ends on a word boundary, so the struct has no padding |
| Stm32f446reRegisters.NvicSize | inc/stm32f446re_registers.h:55-69 | the NVIC struct is 0xE04 bytes |
| Stm32f446reRegisters.RccOffset | inc/stm32f446re_registers.h:78-117 | RCC_TypeDef needs no padding, and member i is at byte 4·i |
| Stm32f446reRegisters.RccEnableRegisters | inc/stm32f446re_registers.h:91-95 | AHB1ENR is at 0x30 and APB1ENR at 0x40 |
| Stm32f446reRegisters.RccReservedLow | inc/stm32f446re_registers.h:86-94 | RESERVED0–3 are at their commented 0x1C, 0x28, 0x2C, 0x3C |
| Stm32f446reRegisters.RccReservedMiddle | inc/stm32f446re_registers.h:97-102 | RESERVED4–6 are at their commented 0x48, 0x4C, 0x5C |
| Stm32f446reRegisters.RccReservedHigh | inc/stm32f446re_registers.h:105-110 | RESERVED7–10 are at their commented 0x68, 0x6C, 0x78, 0x7C |
| Stm32f446reRegisters.GpioOffsets | inc/stm32f446re_registers.h:136-147 | MODER..AFRH are at 0x00..0x24 in steps of 4; block size 0x28 |
| Stm32f446reRegisters.GpioBases | inc/stm32f446re_registers.h:124-131 | GPIOx is AHB1 + 0x400·x; its block stays inside its slot and below RCC |
| Stm32f446reRegisters.GpioBasesDistinct | inc/stm32f446re_registers.h:124-131 | distinct ports have distinct bases |
| Stm32f446reRegisters.TimerBases | inc/stm32f446re_registers.h:161-164 | TIM2..TIM5 are APB1 + 0x400·k for k = 0..3 |
| Stm32f446reRegisters.TimerBasesDistinct | inc/stm32f446re_registers.h:161-164 | distinct timers have distinct bases |
| SyscfgRegisters.SyscfgBase | inc/syscfg_registers.h:22 | SYSCFG is at 0x40013800 |
| SyscfgRegisters.LeadingMembersAgree | inc/syscfg_registers.h:30-35 | MEMRMP, PMC and EXTICR1–4 are at their commented offsets 0x00–0x14 |
| SyscfgRegisters.TrailingMembersMisplaced | inc/syscfg_registers.h:36-37 | as declared, CMPCR is at 0x18 and CFGR at 0x1C, contradicting their comments |
| SyscfgRegisters.PaddedLayoutAgrees | inc/syscfg_registers.h:30-37 | with two reserved words after EXTICR4, every member is at its commented offset |
| SyscfgRegisters.SyscfgSizes | inc/syscfg_registers.h:28-38 | neither struct needs padding; the struct is 0x20 bytes as declared and 0x28 with the padding |
| ExtiRegisters.ExtiBase | inc/exti_registers.h:22 | EXTI is at 0x40013C00, one 0x400 slot above SYSCFG |
| ExtiRegisters.ExtiCommentsAgree | inc/exti_registers.h:30-35 | IMR..PR are at their commented offsets 0x00..0x14 |
| ExtiRegisters.ExtiFitsSlot | inc/exti_registers.h:28-36 | the EXTI struct needs no padding, is 0x18 bytes and fits its slot |
| ExtiRegisters.SyscfgBelowExti | inc/syscfg_registers.h:22-38 | the SYSCFG block, declared or padded, ends below EXTI |
| DeviceRegisters.BusBasesAgree | inc/device_registers.h:7-12 | the differently spelled bus bases equal those of the main register map |
| DeviceRegisters.BlockBasesAgree | inc/device_registers.h:15-27 | SysTick, NVIC, RCC, EXTI and SYSCFG bases equal those of the other headers |
| DeviceRegisters.GpioBasesAgree | inc/device_registers.h:30-37 | GPIOx_BASE is AHB1 + 0x400·x, the main map's address for port x |
| DeviceRegisters.GpioBasesDistinct | inc/device_registers.h:30-37 | the eight GPIO bases are pairwise distinct |
| DeviceRegisters.TimerBasesAgree | inc/device_registers.h:52-55 | TIMx_BASE is APB1 + 0x400·k, the main map's address for that timer |
| DeviceRegisters.TimerBasesDistinct | inc/device_registers.h:52-55 | the four timer bases are pairwise distinct |
| DeviceRegisters.OffsetMacrosMatchRegDef | inc/device_registers.h:40-67 | each `*_OFFSET` macro is its member's offset in `GPIO_RegDef_t` |
| DeviceRegisters.RegDefIsTypeDef | inc/device_registers.h:57-67 | `GPIO_RegDef_t` has the same members in the same order as `GPIO_TypeDef` |
| BareGpioDefs.PortIndex | inc/bare_gpio.h:7-14 | every port index is at most 8 |
| BareGpioDefs.ModesFit | inc/bare_gpio.h:16-19 | the four modes are 0–3, distinct, and unchanged by `& 3` |
| BareGpioDefs.SpeedsFit | inc/bare_gpio.h:27-30 | the four speeds are 0–3, distinct, and unchanged by `& 3` |
| BareGpioDefs.PullsFit | inc/bare_gpio.h:32-34 | the three pulls are 0–2 and unchanged by `& 3`; 3 has no name |
| BareGpioDefs.OutputTypesFit | inc/bare_gpio.h:24-25 | push-pull 0 and open-drain 1 are unchanged by `& 1` |
| BareGpioDefs.PinStatesDistinct | inc/bare_gpio.h:21-22 | HIGH is 1 and LOW is 0 |
| BareGpioDefs.PortIndices | inc/bare_gpio.h:7-14 | port indices are distinct and skip 3, so from port D on they are one past the position |
| BareGpio.ClockEnableBit | src/bare_gpio.c:10-29 | a recognised port gets bit b < 8 with base = AHB1 + 0x400·b |
| BareGpio.ClockEnableBitOfPort | src/bare_gpio.c:12-28 | port x gets bit x, which equals its `GPIO_PORTx` index only for A, B and C |
| BareGpio.ClockEnableBitUnrecognised | src/bare_gpio.c:10-29 | any other address gets no bit |
| BareGpio.WithPortClock | src/bare_gpio.c:10-29 | the port's bit is set; an unrecognised address leaves AHB1ENR unchanged |
| BareGpio.WithPortClockFrame | src/bare_gpio.c:12-28 | every other AHB1ENR bit keeps its value |
| BareGpio.WithPortClockIdempotent | src/bare_gpio.c:10-29 | enabling a clock twice equals enabling it once |
| BareGpio.EnableClock | src/bare_gpio.c:10-29 | only AHB1ENR changes, and it becomes `WithPortClock` of its old value |
| BareGpio.Init | src/bare_gpio.c:31-51 | AHB1ENR gets the port clock; MODER, OSPEEDR, PUPDR get the masked 2-bit field and OTYPER the masked bit; IDR, ODR, BSRR, LCKR, AFRL, AFRH are unchanged |
| BareGpio.ClearThenSet2 | src/bare_gpio.c:37-38 | a clear-then-set pair on a 2-bit field is `Insert2` at bit 2·pin |
| BareGpio.ClearThenSet1 | src/bare_gpio.c:41-42 | the clear-then-set pair on OTYPER is `Insert1` at bit pin |
| BareGpio.PinField2 | src/bare_gpio.c:37-50 | pin q's 2-bit field is built from bits 2q+1 and 2q |
| BareGpio.ConfigureField2 | src/bare_gpio.c:37-50 | the pin's field becomes `v & 3`; every other pin's field is unchanged |
| BareGpio.ConfigureField1 | src/bare_gpio.c:41-42 | the pin's OTYPER bit becomes `v & 1`; every other bit is unchanged |
| BareGpio.NamedValuesStored | src/bare_gpio.c:38-50 | a named mode, speed, pull or output type is stored exactly |
| BareGpio.ConfigureTruncates | src/bare_gpio.c:38-50 | out-of-range values act as their low bits (the per-pin form of `Bits.Insert2Truncates` and `Bits.Insert1Truncates`) |
| BareGpio.ConfigureIdempotent | src/bare_gpio.c:31-51 | configuring a pin twice with the same values equals once (the per-pin form of `Bits.Insert2Idempotent` and `Bits.Insert1Idempotent`) |
| BareGpio.BsrrWord | src/bare_gpio.c:53-60 | the word is one-hot: bit pin for HIGH, bit pin+16 for any other state |
| BareGpio.Write | src/bare_gpio.c:53-60 | only BSRR changes, and it holds `BsrrWord`; ODR is untouched |
| BareGpio.Read | src/bare_gpio.c:62-65 | the result is 0 or 1, and is 1 exactly when IDR bit pin is set |
| BareGpio.Toggle | src/bare_gpio.c:67-70 | only ODR changes, with bit pin flipped |
| BareGpio.ToggleEffect | src/bare_gpio.c:69 | the pin's bit inverts, others keep their value, and two toggles restore ODR (the per-pin form of `Bits.FlipBitFrame` and `Bits.FlipBitTwice`) |
| BareTim2To5.TimerClockBit | src/bare_tim2_5.c:26-40 | a recognised timer gets bit k < 4 with base = APB1 + 0x400·k |
| BareTim2To5.TimerClockBitOfTimer | src/bare_tim2_5.c:27-38 | TIMx gets bit k for its position; distinct timers get distinct bits |
| BareTim2To5.TimerClockBitUnrecognised | src/bare_tim2_5.c:26-40 | any other address gets no bit |
| BareTim2To5.WithTimerClock | src/bare_tim2_5.c:26-40 | the timer's bit is set; an unrecognised address leaves APB1ENR unchanged |
| BareTim2To5.WithoutTimerClock | src/bare_tim2_5.c:49-63 | the timer's bit is clear; an unrecognised address leaves APB1ENR unchanged |
| BareTim2To5.EnableClock | src/bare_tim2_5.c:26-40 | only APB1ENR changes, and it becomes `WithTimerClock` of its old value |
| BareTim2To5.DisableClock | src/bare_tim2_5.c:49-63 | only APB1ENR changes, and it becomes `WithoutTimerClock` of its old value |
| BareTim2To5.GatingFrame | src/bare_tim2_5.c:27-61 | enabling or disabling a timer keeps every other APB1ENR bit |
| BareTim2To5.GatingIsolated | src/bare_tim2_5.c:27-61 | gating one timer never changes another timer's bit |
| BareTim2To5.EnableThenDisable | src/bare_tim2_5.c:26-61 | enable then disable equals disable alone: the bit is clear, all others as before |
| BareTim2To5.GatingIdempotent | src/bare_tim2_5.c:28-51 | enabling twice equals once, and disabling twice equals once |
| BareSysTick.Started | src/bare_systick.c:7-9 | CSR bits 0, 1 and 2 are set |
| BareSysTick.StartedFrame | src/bare_systick.c:7-9 | CSR bits 3–31 are unchanged |
| BareSysTick.StartedIsOr7 | src/bare_systick.c:7-9 | the three ORs together OR in 0x7 |
| BareSysTick.StartedIdempotent | src/bare_systick.c:4-10 | starting an already started CSR changes nothing |
| BareSysTick.SetTimer | src/bare_systick.c:12-15 | RVR = reload and CVR = 0, stored in that order; CSR unchanged |
| BareSysTick.Init | src/bare_systick.c:4-10 | RVR = reload, CVR = 0, CSR = `Started(old CSR)`; the stores are `InitWrites(reload)`; clk, interrupt, impl and calib have no effect |
| BareSysTick.OrIntoCsr | src/bare_systick.c:7 | one OR-store into CSR ORs in the mask and is logged |
| BareSysTick.InitWriteOrder | src/bare_systick.c:6-9 | RVR and CVR are stored before any CSR store, then come three CSR stores |
| BareSysTick.InitWritesStart | src/bare_systick.c:7-9 | the CSR stores together OR in 0x7, which is `Started` |

## Left out

- No hardware behaviour is modelled behind the registers. IDR does not follow the pins, BSRR does not act on ODR, clock gating has no effect and reset values are not given. A written level therefore cannot be read back in the model.
- Interrupts are not modelled. In particular, an interrupt cannot preempt the non-atomic read-modify-write sequences of `toggle`, `init` or the clock helpers.
- `bare_tim2_5_start` and `bare_tim2_5_set` are declared in `inc/bare_tim2_5.h` but have no bodies in `src/bare_tim2_5.c`, so they are not modelled. The same goes for the timer register struct. The timer constants in `inc/bare_tim2_5.h` and `inc/bare_systick.h` are not used by any modelled code.
- `stm32f446re_addresses.h`, `rcc_registers.h` and `tim2_5_registers.h` are not part of this model. Base addresses come from `inc/stm32f446re_registers.h`, which defines the same names.
- The NVIC, LCKR, AFRL and AFRH registers are laid out but given no meaning, because no modelled code uses them.
- The drivers use `GPIO_TypeDef`, `RCC`, `SYSTICK` and the `*_t` parameter types, which their own includes do not declare. The model follows the code's behaviour, not whether it compiles. Those parameter types are modelled as `bv32`.
- A peripheral pointer is modelled by the address it holds. Pointer arithmetic and other structs placed at those addresses are not modelled.
- BareGpio.Init and BareGpio.Write: both require `pin < 16`. In C a larger pin makes their shifts undefined (`0x3U << (pin * 2)` in `init` for pin 16 and up, `1U << (pin + 16)` in `write`), and the model does not cover that case.
- BareGpio.Read and BareGpio.Toggle: both are limited to pins 0–15, the range the pin parameter is documented with (`inc/bare_tim2_5.h`, lines 76 and 88). C itself defines `IDR >> pin` and `1U << pin` for any pin below 32. The model does not cover pins 16–31, which would read bit `pin` of IDR or flip bit `pin` of ODR.
- BareGpio.Init: `bare_gpio_init` runs its eight clear and set statements in sequence. The model runs each clear-and-set pair as one call (`ClearThenSet2` or `ClearThenSet1`) that returns the register's new value. The intermediate register value between the clear and the set of a pair is therefore not visible.
- BareSysTick.Init: the three `CSR |=` statements are each a call to `OrIntoCsr`. The ghost trace `writes` records RVR and CVR stores with their values, and each CSR update as the mask it ORs in rather than as the value it stores.
- `CALIB` is read-only in the header; the model makes it a `const` that no routine writes.
- RegisterBlocks.GpioRegs: `IDR` is also read-only in the header (`const volatile`), but it stays a `var` in the model. It stands for the input the hardware would change, and no modelled routine writes it: `IDR` is in no method's `modifies` clause, and `Init` states that it is unchanged.

## Findings

| source | as written | input that shows it | evidently intended | confidence | as-written member | corrected member |
|---|---|---|---|---|---|---|
| inc/syscfg_registers.h:35-37 | `SYSCFG_TypeDef` declares CMPCR and CFGR right after EXTICR4, so they sit at 0x18 and 0x1C | the CMPCR and CFGR members: their comments state 0x20 and 0x24 | two reserved words after EXTICR4, putting CMPCR at 0x20 and CFGR at 0x24 as the comments state | high (not executed; offsets follow from the member list) | SyscfgRegisters.TrailingMembersMisplaced | SyscfgRegisters.PaddedLayoutAgrees |
