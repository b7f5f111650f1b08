/** The effect of each block of the firmware on the modelled registers, as
    functions from the register snapshot before the block to the one after.
    Each handler and startup step runs as one atomic step. */
module Handlers {
  import opened Registers

  /** The events the firmware reports on its debug channel. */
  datatype Diagnostic =
    | FrameError(engine: Engine)
    | Overrun(engine: Engine)
    | Underrun(engine: Engine)
    | EdgeInterrupt   // the EXTI0 handler ran
    | Resynced        // the EXTI0 handler re-enabled the slave

  /** Position of a report in the fixed order in which flags are examined. */
  function Rank(d: Diagnostic): nat
  {
    match d
    case FrameError(_) => 0
    case Overrun(_) => 1
    case Underrun(_) => 2
    case EdgeInterrupt => 3
    case Resynced => 4
  }

  // ---------------------------------------------------------------- startup

  /** The frame shape written to both engines: long sync, Philips standard,
      clock idle high, 16-bit data in 32-bit channels. */
  const LINK_FORMAT: FrameFormat := FrameFormat(LongSync, Philips, IdleHigh, Data16, Chan32)

  /** I2SDIV, ODD and MCK of the master: divider 62, odd factor, no master clock. */
  const MASTER_PRESCALER: Prescaler := Prescaler(62, true, false)

  /** Edge-watch setup: rising-edge trigger on EXTI line 0 and MR0 set, which
      leaves the line unmasked. */
  function ConfigureEdgeWatch(r: Regs): (r': Regs)
    ensures r'.imr0 && r'.rtsr0
    ensures r' == r.(imr0 := r'.imr0, rtsr0 := r'.rtsr0)
  {
    r.(imr0 := true).(rtsr0 := true)
  }

  /** Link setup: the master's prescaler, then the master's and the slave's
      configuration, then the enable bits, slave first. */
  function ConfigureLinks(r: Regs): (r': Regs)
    ensures r'.spi2Cfg.format == r'.spi5Cfg.format == LINK_FORMAT
    ensures r'.spi2Cfg.i2sMode && r'.spi5Cfg.i2sMode
    ensures r'.spi2Cfg.role == MasterTx && r'.spi5Cfg.role == SlaveRx
    ensures r'.spi2Pr == MASTER_PRESCALER
    ensures r'.spi2Enabled && r'.spi5Enabled
    ensures r' == r.(spi2Cfg := r'.spi2Cfg, spi2Pr := r'.spi2Pr, spi5Cfg := r'.spi5Cfg,
                     spi2Enabled := true, spi5Enabled := true)
  {
    var prescaled := r.(spi2Pr := MASTER_PRESCALER);
    var master := prescaled.(spi2Cfg := I2sConfig(true, MasterTx, LINK_FORMAT));
    var slave := master.(spi5Cfg := I2sConfig(true, SlaveRx, LINK_FORMAT));
    slave.(spi5Enabled := true).(spi2Enabled := true)
  }

  // ---------------------------------------------------------- transmit loop

  /** The word written into the master's data register for each channel side:
      0b1111_1111_0000_0000 on channel 0, 0b1111_1111_0000_0110 on channel 1. */
  function TxWord(chside: bool): (w: u16)
    ensures w == 0xFF00 || w == 0xFF06
    ensures w / 0x100 == 0xFF
    ensures (w % 0x100 == 0) == !chside
  {
    if chside then 0xFF06 else 0xFF00
  }

  /** One pass of the foreground loop's poll: while TXE is clear nothing is
      written; once it is set, the word for the current channel side is. */
  function TransmitPoll(r: Regs): (r': Regs)
    ensures r' == r.(spi2Dr := r'.spi2Dr)
    ensures !r.spi2Sr.txe ==> r' == r
    ensures r.spi2Sr.txe ==> (r'.spi2Dr == 0xFF00 <==> !r.spi2Sr.chside)
    ensures r.spi2Sr.txe ==> (r'.spi2Dr == 0xFF06 <==> r.spi2Sr.chside)
  {
    if r.spi2Sr.txe then r.(spi2Dr := TxWord(r.spi2Sr.chside)) else r
  }

  // ------------------------------------------------------ interrupt handlers

  /** Reports of an engine's error checks: frame error, overrun and underrun,
      each reported exactly when its flag is set, in that order. */
  function ErrorReports(e: Engine, sr: Status): (d: seq<Diagnostic>)
    ensures (FrameError(e) in d) == sr.fre
    ensures (Overrun(e) in d) == sr.ovr
    ensures (Underrun(e) in d) == sr.udr
    ensures forall k :: 0 <= k < |d| ==> d[k] in {FrameError(e), Overrun(e), Underrun(e)}
    ensures forall i, j :: 0 <= i < j < |d| ==> Rank(d[i]) < Rank(d[j])
  {
    (if sr.fre then [FrameError(e)] else [])
    + (if sr.ovr then [Overrun(e)] else [])
    + (if sr.udr then [Underrun(e)] else [])
  }

  /** Register effect of the slave's (SPI5) handler. On a frame error it turns
      the slave off, unmasks EXTI line 0 and triggers it in software, which
      makes line 0 pending. Overrun and underrun are only reported, and the
      received-data branch only reads the data register and the channel side. */
  function Spi5Next(r: Regs): (r': Regs)
    ensures r.spi5Sr.fre ==> !r'.spi5Enabled && r'.imr0 && r'.pr0
    ensures !r.spi5Sr.fre ==> r' == r
    ensures r' == r.(spi5Enabled := r'.spi5Enabled, imr0 := r'.imr0, pr0 := r'.pr0)
  {
    if r.spi5Sr.fre then
      r.(spi5Enabled := false).(imr0 := true).(pr0 := true)
    else
      r
  }

  /** Register effect of the EXTI0 handler. It clears the pending bit; only
      when the word-select line reads high does it mask line 0 again and
      re-enable the slave. */
  function Exti0Next(r: Regs): (r': Regs)
    ensures !r'.pr0
    ensures r.ws ==> !r'.imr0 && r'.spi5Enabled
    ensures !r.ws ==> r'.imr0 == r.imr0 && r'.spi5Enabled == r.spi5Enabled
    ensures r' == r.(pr0 := false, imr0 := r'.imr0, spi5Enabled := r'.spi5Enabled)
  {
    var cleared := r.(pr0 := false);
    if r.ws then cleared.(imr0 := false).(spi5Enabled := true) else cleared
  }

  /** Reports of the EXTI0 handler. */
  function Exti0Reports(ws: bool): (d: seq<Diagnostic>)
    ensures |d| > 0 && d[0] == EdgeInterrupt
    ensures (Resynced in d) == ws
    ensures forall k :: 0 <= k < |d| ==> d[k] in {EdgeInterrupt, Resynced}
    ensures forall i, j :: 0 <= i < j < |d| ==> Rank(d[i]) < Rank(d[j])
  {
    [EdgeInterrupt] + (if ws then [Resynced] else [])
  }

  // ---------------------------------------------------------------- hardware

  /** What the hardware does between two steps of the firmware: new status
      flags, a new received word, new levels of word-select and bit clock. A
      rising edge of the bit clock PB0, the pin routed to EXTI line 0, makes the
      line pending when the rising trigger is selected; word-select does not.
      No bit the firmware controls (enables, mask, trigger, formats) changes. */
  function HardwareNext(r: Regs, spi2Sr: Status, spi5Sr: Status, rx: u16, ws: bool, ck: bool): (r': Regs)
    ensures r'.pr0 <==> r.pr0 || (r.rtsr0 && !r.ck && ck)
    ensures r' == r.(spi2Sr := spi2Sr, spi5Sr := spi5Sr, spi5Dr := rx, ws := ws, ck := ck, pr0 := r'.pr0)
  {
    r.(spi2Sr := spi2Sr, spi5Sr := spi5Sr, spi5Dr := rx, ws := ws, ck := ck,
       pr0 := r.pr0 || (r.rtsr0 && !r.ck && ck))
  }
}
