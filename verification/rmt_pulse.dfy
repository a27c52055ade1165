/** Model of the RMT pulse generator of the T5 4.7" e-paper board
    (components/t547/rmt_pulse.c).

    The C file keeps two module-level handles (the RMT channel and its copy
    encoder) and issues one two-level symbol per pulse request.  Every call
    into the ESP-IDF RMT driver is a foreign call: here it becomes an event
    appended to `trace`, and its success or failure is a parameter of the
    method that makes the call.  An `ESP_ERROR_CHECK` that sees a failure
    aborts the process; the model records that in `aborted`, and no method
    may be called afterwards (nothing runs in an aborted process). */
module RmtPulse {

  /** A value of a C `uint16_t`. */
  type U16 = x: int | 0 <= x < 0x1_0000

  /** The C conversion of an `int` into a `uint16_t` parameter: reduction
      modulo 2^16. */
  function ToU16(x: int): (r: U16)
    ensures 0 <= x < 0x1_0000 ==> r == x
    ensures (x - r) % 0x1_0000 == 0
  {
    x % 0x1_0000
  }

  /** One RMT symbol word: `level0` for `duration0` ticks, then `level1` for
      `duration1` ticks.  The bit widths of the hardware fields are not
      modelled; the durations hold the `uint16_t` values assigned to them. */
  datatype Symbol = Symbol(level0: int, duration0: U16, level1: int, duration1: U16)

  /** Output level of the line during one tick. */
  datatype Level = Low | High

  /** Resolution of the channel: 10 MHz, i.e. one tick is 0.1 microseconds. */
  const ResolutionHz: int := 10_000_000

  /** Ticks in one microsecond at `ResolutionHz`. */
  const TicksPerUs: int := 10

  /** Clock sources of the RMT peripheral; only the default one is used. */
  datatype ClockSource = ClkSrcDefault

  /** Configuration handed to `rmt_new_tx_channel`. */
  datatype TxChannelConfig = TxChannelConfig(
    clkSrc: ClockSource,
    gpioNum: int,
    memBlockSymbols: int,
    resolutionHz: int,
    transQueueDepth: int,
    invertOut: bool,
    withDma: bool)

  /** Configuration handed to every `rmt_transmit`. */
  datatype TransmitConfig = TransmitConfig(loopCount: int, eotLevel: int)

  /** Timeout argument of `rmt_tx_wait_all_done`: -1 waits forever. */
  const WaitForever: int := -1

  /** The calls this file makes into the RMT driver, in the order made. */
  datatype RmtCall =
    | NewTxChannel(channelConfig: TxChannelConfig)
    | Enable
    | NewCopyEncoder
    | Transmit(symbol: Symbol, txConfig: TransmitConfig)
    | WaitAllDone(timeoutMs: int)

  /** The fixed channel configuration `rmt_pulse_init` uses for `pin`. */
  function ChannelConfig(pin: int): (c: TxChannelConfig)
    ensures c.clkSrc == ClkSrcDefault && c.gpioNum == pin
    ensures c.resolutionHz == TicksPerUs * 1_000_000
    ensures c.memBlockSymbols == 64 && c.transQueueDepth == 4
    ensures !c.invertOut && !c.withDma
  {
    TxChannelConfig(ClkSrcDefault, pin, 64, ResolutionHz, 4, false, false)
  }

  /** The transmit configuration: no looping, line low after the symbol. */
  const TxConfig: TransmitConfig := TransmitConfig(0, 0)

  /** The symbol `pulse_ckv_ticks` builds.  A zero high time would make the
      first duration zero, which the code avoids by putting the low time in
      the first (high) phase and leaving the second phase empty. */
  function MakeSymbol(high: U16, low: U16): (s: Symbol)
    ensures s.level0 == 1 && s.level1 == 0
    ensures s.duration0 + s.duration1 == high + low
    ensures high > 0 ==> s.duration0 == high && s.duration1 == low
    ensures high == 0 ==> s.duration1 == 0
  {
    if high > 0 then Symbol(1, high, 0, low) else Symbol(1, low, 0, 0)
  }

  /** The microseconds-to-ticks conversion of `pulse_ckv_us`: the product is
      computed in `int` and truncated to the `uint16_t` parameter. */
  function UsToTicks(us: U16): (t: U16)
    ensures us <= 6553 ==> t == TicksPerUs * us
    ensures us > 6553 ==> t < TicksPerUs * us
    ensures (TicksPerUs * us - t) % 0x1_0000 == 0
  {
    ToU16(TicksPerUs * us)
  }

  /** The line level tick by tick while a symbol is played out. */
  function Waveform(s: Symbol): (w: seq<Level>)
    ensures |w| == s.duration0 + s.duration1
  {
    seq(s.duration0, _ => if s.level0 == 1 then High else Low)
      + seq(s.duration1, _ => if s.level1 == 1 then High else Low)
  }

  /** The number of high ticks in a waveform. */
  function CountHigh(w: seq<Level>): (n: nat)
    ensures n <= |w|
  {
    if w == [] then 0 else (if w[0] == High then 1 else 0) + CountHigh(w[1..])
  }

  lemma {:induction false} CountHighAppend(a: seq<Level>, b: seq<Level>)
    ensures CountHigh(a + b) == CountHigh(a) + CountHigh(b)
  {
    if a == [] {
      assert a + b == b;
    } else {
      assert (a + b)[1..] == a[1..] + b;
      CountHighAppend(a[1..], b);
    }
  }

  lemma {:induction false} CountHighConst(n: nat, l: Level)
    ensures CountHigh(seq(n, _ => l)) == if l == High then n else 0
  {
    if n > 0 {
      assert seq(n, _ => l)[1..] == seq(n - 1, _ => l);
      CountHighConst(n - 1, l);
    }
  }

  /** A pulse with a non-zero high time is `high` high ticks followed by
      `low` low ticks.  With a zero high time the line is instead high for
      `low` ticks: the low time has moved into the high phase. */
  lemma PulseWaveform(high: U16, low: U16)
    ensures var w := Waveform(MakeSymbol(high, low));
      |w| == high + low &&
      (forall i :: 0 <= i < |w| ==> (w[i] == High <==> (i < high || high == 0))) &&
      CountHigh(w) == (if high > 0 then high else low)
  {
    var s := MakeSymbol(high, low);
    CountHighAppend(seq(s.duration0, _ => High), seq(s.duration1, _ => Low));
    CountHighConst(s.duration0, High);
    CountHighConst(s.duration1, Low);
  }

  /** The driver calls one pulse request makes, given the outcome of the
      transmit: with `wait` a transmit and, if it succeeded, an unbounded
      wait for completion; without `wait` only the transmit. */
  function PulseCalls(s: Symbol, wait: bool, transmitOk: bool): (cs: seq<RmtCall>)
    ensures 1 <= |cs| <= 2 && cs[0] == Transmit(s, TxConfig)
    ensures |cs| == 2 <==> wait && transmitOk
    ensures |cs| == 2 ==> cs[1] == WaitAllDone(WaitForever)
  {
    if wait && transmitOk then [Transmit(s, TxConfig), WaitAllDone(WaitForever)]
    else [Transmit(s, TxConfig)]
  }

  /** Whether a pulse request aborts the process: only a waited request
      checks the driver's results, and either failure is fatal. */
  predicate PulseAborts(wait: bool, transmitOk: bool, waitOk: bool)
    ensures !wait ==> !PulseAborts(wait, transmitOk, waitOk)
    ensures wait ==> (PulseAborts(wait, transmitOk, waitOk) <==> !transmitOk || !waitOk)
  {
    wait && !(transmitOk && waitOk)
  }

  /** A fire-and-forget pulse never aborts and always makes exactly one
      transmit, whatever the driver answers. */
  lemma NoWaitIgnoresResult(s: Symbol, transmitOk: bool, waitOk: bool)
    ensures PulseCalls(s, false, transmitOk) == [Transmit(s, TxConfig)]
    ensures !PulseAborts(false, transmitOk, waitOk)
  {
  }

  /** For durations up to 6553 us the microsecond entry point sends exactly
      the symbol of ten times the durations in ticks. */
  lemma UsPulseExact(highUs: U16, lowUs: U16)
    requires highUs <= 6553 && lowUs <= 6553
    ensures MakeSymbol(UsToTicks(highUs), UsToTicks(lowUs))
         == MakeSymbol(TicksPerUs * highUs, TicksPerUs * lowUs)
  {
  }

  /** The module-level state of rmt_pulse.c: the channel and encoder
      handles, plus the driver calls made so far. */
  class PulseDriver {
    var channelCreated: bool
    var encoderCreated: bool
    var trace: seq<RmtCall>
    var aborted: bool

    /** The state at program start: both handles NULL, nothing called. */
    constructor ()
      ensures !channelCreated && !encoderCreated
      ensures trace == [] && !aborted
    {
      channelCreated, encoderCreated := false, false;
      trace, aborted := [], false;
    }

    /** `rmt_pulse_init`: create the channel, enable it, create the copy
        encoder, in that order; the first failure aborts. */
    method Init(pin: int, channelOk: bool, enableOk: bool, encoderOk: bool)
      requires !aborted
      modifies this
      ensures aborted == !(channelOk && enableOk && encoderOk)
      ensures trace == old(trace) + [NewTxChannel(ChannelConfig(pin))]
        + (if channelOk then [Enable] else [])
        + (if channelOk && enableOk then [NewCopyEncoder] else [])
      ensures channelCreated == (channelOk || old(channelCreated))
      ensures encoderCreated == ((channelOk && enableOk && encoderOk) || old(encoderCreated))
    {
      trace := trace + [NewTxChannel(ChannelConfig(pin))];
      if !channelOk {
        aborted := true;
        return;
      }
      channelCreated := true;
      trace := trace + [Enable];
      if !enableOk {
        aborted := true;
        return;
      }
      trace := trace + [NewCopyEncoder];
      if !encoderOk {
        aborted := true;
        return;
      }
      encoderCreated := true;
    }

    /** `pulse_ckv_ticks`: build the symbol, transmit it and, when `wait`
        is set, block until it is sent, aborting on any driver error. */
    method PulseTicks(high: U16, low: U16, wait: bool, transmitOk: bool, waitOk: bool)
      requires !aborted
      modifies this`trace, this`aborted
      ensures trace == old(trace) + PulseCalls(MakeSymbol(high, low), wait, transmitOk)
      ensures aborted == PulseAborts(wait, transmitOk, waitOk)
    {
      var symbol := MakeSymbol(high, low);
      if wait {
        trace := trace + [Transmit(symbol, TxConfig)];
        if !transmitOk {
          aborted := true;
          return;
        }
        trace := trace + [WaitAllDone(WaitForever)];
        if !waitOk {
          aborted := true;
          return;
        }
      } else {
        trace := trace + [Transmit(symbol, TxConfig)];
      }
    }

    /** `pulse_ckv_us`: the same pulse with durations given in
        microseconds, converted to ticks with `uint16_t` truncation. */
    method PulseUs(highUs: U16, lowUs: U16, wait: bool, transmitOk: bool, waitOk: bool)
      requires !aborted
      modifies this`trace, this`aborted
      ensures trace == old(trace)
        + PulseCalls(MakeSymbol(UsToTicks(highUs), UsToTicks(lowUs)), wait, transmitOk)
      ensures aborted == PulseAborts(wait, transmitOk, waitOk)
    {
      PulseTicks(UsToTicks(highUs), UsToTicks(lowUs), wait, transmitOk, waitOk);
    }
  }
}
