/** The run-time behaviour of the link as a sequence of atomic steps: the
    three interrupt handlers, the transmit poll, and the hardware changing
    its inputs. Each handler may run at any point (the model does not require
    its flag to be set), which makes every statement below hold for more
    interleavings than the hardware allows. */
module Resync {
  import opened Registers
  import opened Handlers

  datatype Event =
    | Spi2Interrupt
    | Spi5Interrupt
    | Exti0Interrupt
    | Transmit
    | Hardware(spi2Sr: Status, spi5Sr: Status, rx: u16, ws: bool, ck: bool)

  /** One atomic step. The master's handler only reports, so it leaves every
      register as it was. */
  function Step(r: Regs, e: Event): Regs
  {
    match e
    case Spi2Interrupt => r
    case Spi5Interrupt => Spi5Next(r)
    case Exti0Interrupt => Exti0Next(r)
    case Transmit => TransmitPoll(r)
    case Hardware(sr2, sr5, rx, ws, ck) => HardwareNext(r, sr2, sr5, rx, ws, ck)
  }

  /** The registers after the events of es, in order. */
  function Run(r: Regs, es: seq<Event>): Regs
    decreases |es|
  {
    if es == [] then r else Step(Run(r, es[..|es| - 1]), es[|es| - 1])
  }

  /** The synchronisation state the registers encode.
      Locked: the slave engine runs.
      AwaitingEdge: the slave is off and EXTI line 0 is armed (rising trigger
      selected and the line unmasked), so the next edge handler can restart it.
      Unsynced: the slave is off and nothing will restart it, as at reset.
      The transient fault state exists only inside the SPI5 handler, between
      turning the slave off and unmasking the line, and is never seen between
      atomic steps. */
  datatype SyncState = Unsynced | Locked | AwaitingEdge

  function SyncOf(r: Regs): SyncState
  {
    if r.spi5Enabled then Locked
    else if r.rtsr0 && r.imr0 then AwaitingEdge
    else Unsynced
  }

  /** Startup leaves the link locked, with the rising trigger selected. */
  lemma StartupLocks(r: Regs)
    ensures var s := ConfigureLinks(ConfigureEdgeWatch(r)); SyncOf(s) == Locked && s.rtsr0
  {
  }

  /** The transitions of the synchronisation state in one step:
      a frame error on the slave takes Locked to AwaitingEdge, the edge handler
      with word-select high takes AwaitingEdge to Locked, and nothing else moves
      the state between these two; from either of them Unsynced is never reached. */
  lemma SyncTransitions(r: Regs, e: Event)
    requires r.rtsr0
    ensures Step(r, e).rtsr0
    ensures SyncOf(r) != Unsynced ==> SyncOf(Step(r, e)) != Unsynced
    ensures SyncOf(r) == Locked && SyncOf(Step(r, e)) != Locked <==>
            SyncOf(r) == Locked && e == Spi5Interrupt && r.spi5Sr.fre
    ensures SyncOf(r) == Locked && e == Spi5Interrupt && r.spi5Sr.fre ==>
            SyncOf(Step(r, e)) == AwaitingEdge && Step(r, e).pr0
    ensures SyncOf(r) == AwaitingEdge && SyncOf(Step(r, e)) == Locked <==>
            SyncOf(r) == AwaitingEdge && e == Exti0Interrupt && r.ws
  {
  }

  /** A word-select low reading in the edge handler leaves the slave waiting
      with line 0 still armed, and the next rising edge of the bit clock PB0
      makes the line pending again, whatever the word-select level then is. */
  lemma RisingEdgeRetriggers(r: Regs, sr2: Status, sr5: Status, rx: u16, ws: bool)
    requires SyncOf(r) == AwaitingEdge && !r.ws && !r.ck
    ensures var waiting := Exti0Next(r);
            var rose := HardwareNext(waiting, sr2, sr5, rx, ws, true);
            SyncOf(waiting) == AwaitingEdge && !waiting.pr0 &&
            rose.pr0 && SyncOf(rose) == AwaitingEdge
  {
  }

  /** Once armed, the link never reaches Unsynced: the slave is either running
      or can be restarted by the edge handler, whatever the events. */
  lemma {:induction false} NeverUnsynced(r: Regs, es: seq<Event>)
    requires r.rtsr0 && SyncOf(r) != Unsynced
    ensures Run(r, es).rtsr0 && SyncOf(Run(r, es)) != Unsynced
    decreases |es|
  {
    if es != [] {
      NeverUnsynced(r, es[..|es| - 1]);
      SyncTransitions(Run(r, es[..|es| - 1]), es[|es| - 1]);
    }
  }

  /** No run-time event touches the formats, the prescaler, the master's enable
      bit or the trigger selection: they keep their startup values. */
  lemma {:induction false} ConfigurationFixed(r: Regs, es: seq<Event>)
    ensures var s := Run(r, es);
            s.spi2Cfg == r.spi2Cfg && s.spi5Cfg == r.spi5Cfg && s.spi2Pr == r.spi2Pr &&
            s.spi2Enabled == r.spi2Enabled && s.rtsr0 == r.rtsr0
    decreases |es|
  {
    if es != [] {
      ConfigurationFixed(r, es[..|es| - 1]);
    }
  }

  /** The slave is re-enabled only by the edge handler, in a step where it was
      off and the word-select line read high. */
  lemma {:induction false} ReenabledOnlyOnWordSelectHigh(r: Regs, es: seq<Event>)
    requires !r.spi5Enabled && Run(r, es).spi5Enabled
    ensures exists k :: 0 <= k < |es| && es[k] == Exti0Interrupt &&
              !Run(r, es[..k]).spi5Enabled && Run(r, es[..k]).ws && Run(r, es[..k + 1]).spi5Enabled
    decreases |es|
  {
    var n := |es| - 1;
    var before := es[..n];
    assert es[..n + 1] == es;
    if Run(r, before).spi5Enabled {
      ReenabledOnlyOnWordSelectHigh(r, before);
      var k :| 0 <= k < |before| && before[k] == Exti0Interrupt &&
               !Run(r, before[..k]).spi5Enabled && Run(r, before[..k]).ws && Run(r, before[..k + 1]).spi5Enabled;
      assert before[..k] == es[..k] && before[..k + 1] == es[..k + 1];
    } else {
      assert es[n] == Exti0Interrupt && Run(r, es[..n]).ws;
    }
  }

  /** The slave is turned off only by its own handler, in a step where its
      frame-error flag was set. */
  lemma {:induction false} DisabledOnlyByFrameError(r: Regs, es: seq<Event>)
    requires r.spi5Enabled && !Run(r, es).spi5Enabled
    ensures exists k :: 0 <= k < |es| && es[k] == Spi5Interrupt &&
              Run(r, es[..k]).spi5Enabled && Run(r, es[..k]).spi5Sr.fre && !Run(r, es[..k + 1]).spi5Enabled
    decreases |es|
  {
    var n := |es| - 1;
    var before := es[..n];
    assert es[..n + 1] == es;
    if !Run(r, before).spi5Enabled {
      DisabledOnlyByFrameError(r, before);
      var k :| 0 <= k < |before| && before[k] == Spi5Interrupt &&
               Run(r, before[..k]).spi5Enabled && Run(r, before[..k]).spi5Sr.fre && !Run(r, before[..k + 1]).spi5Enabled;
      assert before[..k] == es[..k] && before[..k + 1] == es[..k + 1];
    } else {
      assert es[n] == Spi5Interrupt && Run(r, es[..n]).spi5Sr.fre;
    }
  }
}
