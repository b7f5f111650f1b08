/** The firmware as it runs on the microcontroller: the registers are fields
    of one object, and each block of main and each interrupt handler is a
    method that reads and writes them. Each method is tied to the function of
    module Handlers that gives its effect on the whole register snapshot. */
module Device {
  import opened Registers
  import opened Handlers

  class Board {
    var spi2Cfg: I2sConfig
    var spi2Pr: Prescaler
    var spi2Enabled: bool
    var spi2Sr: Status
    var spi2Dr: u16
    var spi5Cfg: I2sConfig
    var spi5Enabled: bool
    var spi5Sr: Status
    var spi5Dr: u16
    var imr0: bool
    var rtsr0: bool
    var pr0: bool
    var ws: bool
    var ck: bool

    /** The startup enable order: the engines in the order main sets their enable bits. */
    ghost var enableLog: seq<Engine>

    function State(): Regs
      reads this
    {
      Regs(spi2Cfg, spi2Pr, spi2Enabled, spi2Sr, spi2Dr,
           spi5Cfg, spi5Enabled, spi5Sr, spi5Dr,
           imr0, rtsr0, pr0, ws, ck)
    }

    /** The device out of reset. */
    constructor ()
      ensures State() == RESET && enableLog == []
    {
      spi2Cfg, spi2Pr, spi2Enabled, spi2Sr, spi2Dr := RESET_CONFIG, RESET_PRESCALER, false, RESET_STATUS, 0;
      spi5Cfg, spi5Enabled, spi5Sr, spi5Dr := RESET_CONFIG, false, RESET_STATUS, 0;
      imr0, rtsr0, pr0, ws, ck := false, false, false, false, false;
      enableLog := [];
    }

    /** EXTI line 0 setup in main: set MR0, which unmasks the line, and select
        the rising-edge trigger. */
    method ConfigureEdgeWatch()
      modifies this`imr0, this`rtsr0
      ensures State() == Handlers.ConfigureEdgeWatch(old(State()))
      ensures imr0 && rtsr0
    {
      imr0 := true;
      rtsr0 := true;
    }

    /** Serial engine setup in main: the master's prescaler and configuration,
        the slave's configuration with the same frame shape, then the slave's
        enable bit and, after it, the master's. */
    method ConfigureLinks()
      modifies this`spi2Pr, this`spi2Cfg, this`spi5Cfg, this`spi5Enabled, this`spi2Enabled, this`enableLog
      ensures State() == Handlers.ConfigureLinks(old(State()))
      ensures spi2Cfg.format == spi5Cfg.format
      ensures spi2Cfg.role == MasterTx && spi5Cfg.role == SlaveRx
      ensures enableLog == old(enableLog) + [Spi5, Spi2]
    {
      spi2Pr := MASTER_PRESCALER;
      spi2Cfg := I2sConfig(true, MasterTx, LINK_FORMAT);
      spi5Cfg := I2sConfig(true, SlaveRx, LINK_FORMAT);
      Enable(Spi5);
      Enable(Spi2);
    }

    /** Sets the enable bit I2SE of one engine and records it in the enable log. */
    method Enable(e: Engine)
      modifies this`spi2Enabled, this`spi5Enabled, this`enableLog
      ensures State() == if e == Spi2 then old(State()).(spi2Enabled := true)
                         else old(State()).(spi5Enabled := true)
      ensures enableLog == old(enableLog) + [e]
    {
      if e == Spi2 {
        spi2Enabled := true;
      } else {
        spi5Enabled := true;
      }
      enableLog := enableLog + [e];
    }

    /** One iteration of the foreground loop, entered once TXE reads set (the
        busy-wait on TXE is the caller's): the word for the current channel side
        goes into the master's data register. */
    method TransmitWord()
      requires spi2Sr.txe
      modifies this`spi2Dr
      ensures State() == TransmitPoll(old(State()))
      ensures spi2Dr == 0xFF00 <==> !spi2Sr.chside
      ensures spi2Dr == 0xFF06 <==> spi2Sr.chside
    {
      if !spi2Sr.chside {
        spi2Dr := 0xFF00;
      } else {
        spi2Dr := 0xFF06;
      }
    }

    /** The master's (SPI2) handler: it reports each error flag that is set and
        changes nothing. */
    method Spi2Interrupt() returns (reports: seq<Diagnostic>)
      ensures reports == ErrorReports(Spi2, spi2Sr)
    {
      reports := [];
      if spi2Sr.fre {
        reports := reports + [FrameError(Spi2)];
      }
      if spi2Sr.ovr {
        reports := reports + [Overrun(Spi2)];
      }
      if spi2Sr.udr {
        reports := reports + [Underrun(Spi2)];
      }
    }

    /** The slave's (SPI5) handler. */
    method Spi5Interrupt() returns (reports: seq<Diagnostic>)
      modifies this`spi5Enabled, this`imr0, this`pr0
      ensures State() == Spi5Next(old(State()))
      ensures spi5Sr.fre ==> !spi5Enabled && imr0 && pr0
      ensures reports == ErrorReports(Spi5, spi5Sr)
    {
      reports := [];
      if spi5Sr.fre {
        reports := reports + [FrameError(Spi5)];
        spi5Enabled := false;
        imr0 := true;
        // the software trigger only makes the line pending
        pr0 := true;
      }
      if spi5Sr.ovr {
        reports := reports + [Overrun(Spi5)];
      }
      if spi5Sr.udr {
        reports := reports + [Underrun(Spi5)];
      }
      if spi5Sr.rxne {
        // the received word and the channel side are read and dropped
        var data, side := spi5Dr, spi5Sr.chside;
      }
    }

    /** The EXTI0 handler. */
    method Exti0Interrupt() returns (reports: seq<Diagnostic>)
      modifies this`pr0, this`imr0, this`spi5Enabled
      ensures State() == Exti0Next(old(State()))
      ensures !pr0
      ensures ws ==> !imr0 && spi5Enabled
      ensures !ws ==> imr0 == old(imr0) && spi5Enabled == old(spi5Enabled)
      ensures reports == Exti0Reports(ws)
    {
      var level := ws;
      pr0 := false;
      reports := [EdgeInterrupt];
      if level {
        imr0 := false;
        spi5Enabled := true;
        reports := reports + [Resynced];
      }
    }

    /** The hardware side between two firmware steps: new status flags, a new
        received word and new levels of word-select and bit clock. */
    method HardwareUpdate(newSpi2Sr: Status, newSpi5Sr: Status, rx: u16, wsLevel: bool, ckLevel: bool)
      modifies this`spi2Sr, this`spi5Sr, this`spi5Dr, this`ws, this`ck, this`pr0
      ensures State() == HardwareNext(old(State()), newSpi2Sr, newSpi5Sr, rx, wsLevel, ckLevel)
    {
      // line 0 is routed to PB0, the bit clock
      var pending := pr0 || (rtsr0 && !ck && ckLevel);
      spi2Sr, spi5Sr, spi5Dr, ws, ck, pr0 := newSpi2Sr, newSpi5Sr, rx, wsLevel, ckLevel, pending;
    }
  }

  /** Startup followed by one frame error and its recovery, as a client of the
      methods' contracts alone. */
  method ResyncScenario(b: Board, fault: Status)
    requires b.State() == RESET && fault.fre
    modifies b
  {
    b.ConfigureEdgeWatch();
    b.ConfigureLinks();
    assert b.spi5Enabled && b.spi2Enabled;
    b.HardwareUpdate(RESET_STATUS, fault, 0, false, false);
    var r := b.Spi5Interrupt();
    assert !b.spi5Enabled && b.imr0 && b.pr0;
    r := b.Exti0Interrupt();
    assert !b.spi5Enabled && b.imr0 && !b.pr0;
    // word-select rises alone: line 0 does not see it
    b.HardwareUpdate(RESET_STATUS, RESET_STATUS, 0, true, false);
    assert !b.pr0;
    // the bit clock rises: line 0 becomes pending
    b.HardwareUpdate(RESET_STATUS, RESET_STATUS, 0, true, true);
    assert b.pr0;
    r := b.Exti0Interrupt();
    assert b.spi5Enabled && !b.imr0 && r == [EdgeInterrupt, Resynced];
  }
}
