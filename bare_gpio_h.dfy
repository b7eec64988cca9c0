/**
 * The named values of the GPIO driver interface: port indices, pin modes,
 * pin states, output types, output speeds and pull configurations.
 */
module BareGpioDefs {
  import opened Stm32f446reRegisters

  const GPIO_PORTA: nat := 0x00
  const GPIO_PORTB: nat := 0x01
  const GPIO_PORTC: nat := 0x02
  const GPIO_PORTD: nat := 0x04
  const GPIO_PORTE: nat := 0x05
  const GPIO_PORTF: nat := 0x06
  const GPIO_PORTG: nat := 0x07
  const GPIO_PORTH: nat := 0x08

  const GPIO_MODE_INPUT: bv32 := 0x00
  const GPIO_MODE_OUTPUT: bv32 := 0x01
  const GPIO_MODE_AF: bv32 := 0x02
  const GPIO_MODE_ANALOG: bv32 := 0x03

  const GPIO_PIN_HIGH: bv8 := 0x01
  const GPIO_PIN_LOW: bv8 := 0x00

  const GPIO_PUSH_PULL: bv32 := 0x00
  const GPIO_OPEN_DRAIN: bv32 := 0x01

  const GPIO_LOW_SPEED: bv32 := 0x00
  const GPIO_MEDIUM_SPEED: bv32 := 0x01
  const GPIO_FAST_SPEED: bv32 := 0x02
  const GPIO_HIGH_SPEED: bv32 := 0x03

  const GPIO_FLOATING: bv32 := 0x00
  const GPIO_PULL_UP: bv32 := 0x01
  const GPIO_PULL_DOWN: bv32 := 0x02

  const Modes: set<bv32> := {GPIO_MODE_INPUT, GPIO_MODE_OUTPUT, GPIO_MODE_AF, GPIO_MODE_ANALOG}
  const OutputTypes: set<bv32> := {GPIO_PUSH_PULL, GPIO_OPEN_DRAIN}
  const Speeds: set<bv32> := {GPIO_LOW_SPEED, GPIO_MEDIUM_SPEED, GPIO_FAST_SPEED, GPIO_HIGH_SPEED}
  const Pulls: set<bv32> := {GPIO_FLOATING, GPIO_PULL_UP, GPIO_PULL_DOWN}

  /** The GPIO_PORTx index of a port. */
  function PortIndex(p: GpioPort): (r: nat)
    ensures r <= 8
  {
    match p
    case PortA => GPIO_PORTA case PortB => GPIO_PORTB
    case PortC => GPIO_PORTC case PortD => GPIO_PORTD
    case PortE => GPIO_PORTE case PortF => GPIO_PORTF
    case PortG => GPIO_PORTG case PortH => GPIO_PORTH
  }

  /** The four modes are 0 to 3, pairwise distinct, and each fits the 2-bit MODER field. */
  lemma ModesFit()
    ensures Modes == {0, 1, 2, 3} && |Modes| == 4
    ensures forall m :: m in Modes ==> m & 3 == m
  {
  }

  /** The four speeds are 0 to 3, pairwise distinct, and each fits the 2-bit OSPEEDR field. */
  lemma SpeedsFit()
    ensures Speeds == {0, 1, 2, 3} && |Speeds| == 4
    ensures forall s :: s in Speeds ==> s & 3 == s
  {
  }

  /** The three pull settings are 0 to 2 and fit the 2-bit PUPDR field; 3 has no name. */
  lemma PullsFit()
    ensures Pulls == {0, 1, 2} && |Pulls| == 3
    ensures forall u :: u in Pulls ==> u & 3 == u
    ensures 3 !in Pulls
  {
  }

  /** Push-pull is 0 and open-drain is 1; both fit the 1-bit OTYPER field. */
  lemma OutputTypesFit()
    ensures OutputTypes == {0, 1} && |OutputTypes| == 2
    ensures forall t :: t in OutputTypes ==> t & 1 == t
  {
  }

  lemma PinStatesDistinct()
    ensures GPIO_PIN_HIGH == 1 && GPIO_PIN_LOW == 0
  {
  }

  /** The port indices are pairwise distinct but skip 3, so from port D on they are one past the port's position. */
  lemma PortIndices(p: GpioPort, q: GpioPort)
    ensures p != q ==> PortIndex(p) != PortIndex(q)
    ensures PortIndex(p) != 3
    ensures PortIndex(p) == if PortNumber(p) < 3 then PortNumber(p) else PortNumber(p) + 1
  {
  }
}
