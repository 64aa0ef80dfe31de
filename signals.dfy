/**
 * The bus between the Z80 and the rest of the machine: one address, one data
 * byte, a memory request, an I/O port request and the interrupt line.
 */
module Bus {
  import Base

  datatype SignalReq = Read | Write | None

  datatype Signals = Signals(addr: Base.u16, data: Base.u8, mem: SignalReq, port: SignalReq, interrupt: bool)

  /** `Signals::default()`: address and data 0, no request, interrupt line low. */
  const Idle: Signals := Signals(0, 0, None, None, false)
}
