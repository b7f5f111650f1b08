/** The register fields the firmware reads or writes, abstracted as values.
    Only the bits the program touches are represented. */
module Registers {

  type u8 = x: int | 0 <= x < 0x100
  type u16 = x: int | 0 <= x < 0x1_0000

  /** The two serial audio engines: SPI2 is the master transmitter, SPI5 the
      slave receiver. */
  datatype Engine = Spi2 | Spi5

  /** The status register flags the program reads (SPIx_SR). */
  datatype Status = Status(
    txe: bool,     // transmit buffer empty
    rxne: bool,    // receive buffer not empty
    chside: bool,  // channel side: false for channel 0 (left), true for channel 1
    udr: bool,     // underrun
    ovr: bool,     // overrun
    fre: bool)     // frame error

  /** I2SCFG: the role of an engine. */
  datatype Role = SlaveTx | SlaveRx | MasterTx | MasterRx

  /** PCMSYNC: frame synchronisation length (relevant to the PCM standard). */
  datatype PcmSync = ShortSync | LongSync

  /** I2SSTD: protocol standard. */
  datatype Standard = Philips | MsbJustified | LsbJustified | Pcm

  /** CKPOL: idle level of the bit clock. */
  datatype Polarity = IdleLow | IdleHigh

  /** DATLEN: data word length. */
  datatype DataLength = Data16 | Data24 | Data32

  /** CHLEN: channel length. */
  datatype ChannelLength = Chan16 | Chan32

  /** The frame shape: the part of I2SCFGR that master and slave must agree on. */
  datatype FrameFormat = FrameFormat(
    pcmsync: PcmSync, standard: Standard, ckpol: Polarity, datlen: DataLength, chlen: ChannelLength)

  /** SPIx_I2SCFGR apart from the enable bit I2SE, which is kept separately. */
  datatype I2sConfig = I2sConfig(i2sMode: bool, role: Role, format: FrameFormat)

  /** SPIx_I2SPR: bit-clock divider, odd factor, master-clock output enable. */
  datatype Prescaler = Prescaler(i2sdiv: u8, odd: bool, mckoe: bool)

  /** A snapshot of every modelled register bit.
      imr0: bit MR0 of EXTI_IMR; set means line 0 is NOT masked (its interrupt is delivered).
      rtsr0: bit TR0 of EXTI_RTSR, rising-edge trigger on line 0.
      pr0: bit PR0 of EXTI_PR, line 0 pending.
      ws: the level of the slave's word-select pin PB1 (GPIOB IDR bit 1), the frame clock.
      ck: the level of the slave's bit-clock pin PB0. EXTI line x takes pin x of
      the port SYSCFG selects, and line 0 is routed to port B, so PB0 is the
      input whose rising edges make line 0 pending. */
  datatype Regs = Regs(
    spi2Cfg: I2sConfig, spi2Pr: Prescaler, spi2Enabled: bool, spi2Sr: Status, spi2Dr: u16,
    spi5Cfg: I2sConfig, spi5Enabled: bool, spi5Sr: Status, spi5Dr: u16,
    imr0: bool, rtsr0: bool, pr0: bool, ws: bool, ck: bool)

  /** Status register after reset: only TXE is set. */
  const RESET_STATUS: Status := Status(true, false, false, false, false, false)

  /** I2SCFGR after reset: every field zero (SPI mode, slave transmit, Philips,
      short sync, clock idle low, 16-bit data and channel). */
  const RESET_CONFIG: I2sConfig := I2sConfig(false, SlaveTx, FrameFormat(ShortSync, Philips, IdleLow, Data16, Chan16))

  /** I2SPR after reset: divider 2, no odd factor, no master clock. */
  const RESET_PRESCALER: Prescaler := Prescaler(2, false, false)

  /** Every modelled register at reset: both engines off, EXTI line 0 masked
      and no trigger selected. The pending bit and the two pin levels have no
      fixed reset value on the device; the model takes them as false. */
  const RESET: Regs := Regs(
    RESET_CONFIG, RESET_PRESCALER, false, RESET_STATUS, 0,
    RESET_CONFIG, false, RESET_STATUS, 0,
    false, false, false, false, false)
}
