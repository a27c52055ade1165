/** Model of the T547 display component (components/t547/t547.cpp).

    The component owns a 4-bit-per-pixel framebuffer (`buffer_`), a cached
    panel power flag (`panel_on_`) and the host framework's failed flag.
    The calls that change the panel, the buffer or the heap are events
    appended to `calls`: `epd_init`, `epd_poweron`, `epd_poweroff`,
    `epd_clear`, `epd_draw_pixel`, `epd_draw_grayscale_image`, the release
    of the old buffer, both allocators and the framework's redraw.
    Allocator outcomes are parameters of `Setup`. */
module T547 {

  /** A value of a C `uint8_t`. */
  type Byte = x: int | 0 <= x < 0x100

  datatype Option<T> = None | Some(value: T)

  /** An RGB colour as the framework hands it to the component. */
  datatype Color = Color(red: Byte, green: Byte, blue: Byte)

  /** Memory capabilities requested from `heap_caps_malloc`. */
  datatype Cap = CapSpiram | Cap8Bit

  /** Calls the component makes into code outside it, in the order made. */
  datatype Call =
    | EpdInit
    | Free                                   // release of the previous buffer
    | PsMalloc(size: int)
    | HeapCapsMalloc(size: int, caps: set<Cap>)
    | EpdPowerOn
    | EpdPowerOff
    | EpdClear
    | EpdDrawPixel(x: int, y: int, gs: Byte)
    | EpdDrawGrayscaleImage(image: Option<seq<Byte>>)  // area: epd_full_screen()
    | DoUpdate                               // the framework's redraw

  /** The C conversion of an `int` into a `uint8_t`: reduction modulo 2^8. */
  function ToByte(x: int): (b: Byte)
    ensures 0 <= x < 0x100 ==> b == x
    ensures (x - b) % 0x100 == 0
  {
    x % 0x100
  }

  /** `get_buffer_length_`: bytes of a packed 4-bit framebuffer for a
      `width` x `height` panel (C integer division; both dimensions are
      non-negative). */
  function BufferLength(width: int, height: int): (n: nat)
    requires 0 <= width && 0 <= height
    ensures 2 * n <= width * height < 2 * n + 2
    ensures n * 2 == width * height <==> (width * height) % 2 == 0
  {
    width * height / 2
  }

  /** One luminance term: a channel times its weight in ten-thousandths,
      truncated. */
  function Term(v: Byte, weight: int): (t: int)
    requires 0 <= weight
    ensures 0 <= t
    ensures 10000 * t <= v * weight < 10000 * (t + 1)
  {
    v * weight / 10000
  }

  /** The integer luminance of a colour, each term truncated on its own. */
  function Luminance(c: Color): (l: int)
    ensures 0 <= l <= 254
  {
    assert Term(255, 2126) + Term(255, 7152) + Term(255, 722) == 254;
    TermBounds(c.red, 2126);
    TermBounds(c.green, 7152);
    TermBounds(c.blue, 722);
    Term(c.red, 2126) + Term(c.green, 7152) + Term(c.blue, 722)
  }

  lemma TermBounds(v: Byte, weight: int)
    requires 0 <= weight
    ensures 0 <= Term(v, weight) <= Term(255, weight)
  {
    assert 0 <= v * weight <= 255 * weight;
  }

  lemma TermMonotone(u: Byte, v: Byte, weight: int)
    requires u <= v && 0 <= weight
    ensures Term(u, weight) <= Term(v, weight)
  {
    assert u * weight <= v * weight;
  }

  /** The inverted greyscale of `draw_absolute_pixel_internal`, including
      the conversion of the result to `uint8_t`.  The luminance is at most
      254, so the conversion never wraps and the result is at least 1. */
  function Grey(c: Color): (gs: Byte)
    ensures 1 <= gs
    ensures gs == 255 - Luminance(c)
  {
    ToByte(255 - Luminance(c))
  }

  /** Brighter input never gives a larger greyscale value. */
  lemma GreyMonotone(c: Color, d: Color)
    requires c.red <= d.red && c.green <= d.green && c.blue <= d.blue
    ensures Grey(d) <= Grey(c)
  {
    TermMonotone(c.red, d.red, 2126);
    TermMonotone(c.green, d.green, 7152);
    TermMonotone(c.blue, d.blue, 722);
  }

  lemma TermZero(v: Byte, weight: int, limit: int)
    requires 0 < weight && 0 <= limit
    requires limit * weight < 10000 <= (limit + 1) * weight
    ensures Term(v, weight) == 0 <==> v <= limit
  {
    if v <= limit {
      assert v * weight <= limit * weight;
    } else {
      assert (limit + 1) * weight <= v * weight;
    }
  }

  /** Exactly the colours whose every term truncates to zero map to 255. */
  lemma GreyBlack(c: Color)
    ensures Grey(c) == 255 <==> c.red <= 4 && c.green <= 1 && c.blue <= 13
  {
    TermBounds(c.red, 2126);
    TermBounds(c.green, 7152);
    TermBounds(c.blue, 722);
    TermZero(c.red, 2126, 4);
    TermZero(c.green, 7152, 1);
    TermZero(c.blue, 722, 13);
  }

  lemma TermTop(v: Byte, weight: int, limit: int)
    requires 0 < weight && 0 <= limit <= 255
    requires (limit - 1) * weight < 10000 * Term(255, weight) <= limit * weight
    ensures Term(v, weight) == Term(255, weight) <==> v >= limit
  {
    TermBounds(v, weight);
    if v >= limit {
      assert limit * weight <= v * weight;
    } else {
      assert v * weight <= (limit - 1) * weight;
    }
  }

  /** Exactly the colours whose every term reaches its maximum map to 1,
      the smallest value the formula produces. */
  lemma GreyWhite(c: Color)
    ensures Grey(c) == 1 <==> c.red >= 254 && c.green == 255 && c.blue >= 250
  {
    assert Term(255, 2126) == 54 && Term(255, 7152) == 182 && Term(255, 722) == 18;
    TermTop(c.red, 2126, 254);
    TermTop(c.green, 7152, 255);
    TermTop(c.blue, 722, 250);
  }

  /** Whether a pixel lies outside a `width` x `height` panel. */
  predicate OutOfRange(x: int, y: int, width: int, height: int)
    ensures OutOfRange(x, y, width, height) <==> !(0 <= x < width && 0 <= y < height)
  {
    x >= width || y >= height || x < 0 || y < 0
  }

  /** The cached-power operations `eink_on_` and `eink_off_`. */
  datatype PowerOp = EinkOn | EinkOff

  /** The power flag each operation leaves behind. */
  function Target(op: PowerOp): int
  {
    if op == EinkOn then 1 else 0
  }

  /** The panel call each operation makes when the flag disagrees. */
  function PowerCall(op: PowerOp): Call
  {
    if op == EinkOn then EpdPowerOn else EpdPowerOff
  }

  /** One power operation on the cached flag `panelOn`: the new flag and the
      panel calls made. */
  function PowerStep(panelOn: int, op: PowerOp): (r: (int, seq<Call>))
    ensures r.0 == Target(op)
    ensures |r.1| <= 1
    ensures r.1 != [] <==> panelOn != Target(op)
    ensures r.1 != [] ==> r.1[0] == PowerCall(op)
  {
    if panelOn == Target(op) then (panelOn, []) else (Target(op), [PowerCall(op)])
  }

  /** A sequence of power operations from flag `panelOn`: the final flag and
      all panel calls made. */
  function PowerRun(panelOn: int, ops: seq<PowerOp>): (int, seq<Call>)
    decreases |ops|
  {
    if ops == [] then (panelOn, [])
    else
      var first := PowerStep(panelOn, ops[0]);
      var rest := PowerRun(first.0, ops[1..]);
      (rest.0, first.1 + rest.1)
  }

  /** Calls made by a power run are power calls that strictly alternate:
      the panel is never powered on twice, or off twice, in a row.  The
      first call goes against the starting flag, the last agrees with the
      final flag, and the final flag is set by the last operation. */
  lemma {:induction false} PowerRunAlternates(panelOn: int, ops: seq<PowerOp>)
    ensures var (q, cs) := PowerRun(panelOn, ops);
      |cs| <= |ops| &&
      (forall i :: 0 <= i < |cs| ==> cs[i] == EpdPowerOn || cs[i] == EpdPowerOff) &&
      (forall i :: 0 <= i < |cs| - 1 ==> cs[i] != cs[i + 1]) &&
      (cs != [] ==> (cs[0] == EpdPowerOn ==> panelOn != 1) && (cs[0] == EpdPowerOff ==> panelOn != 0)) &&
      (cs != [] ==> (cs[|cs| - 1] == EpdPowerOn <==> q == 1)) &&
      (cs == [] ==> q == panelOn) &&
      (ops != [] ==> q == Target(ops[|ops| - 1]))
    decreases |ops|
  {
    if ops != [] {
      var (p, cs) := PowerStep(panelOn, ops[0]);
      var (q, ds) := PowerRun(p, ops[1..]);
      PowerRunAlternates(p, ops[1..]);
      assert PowerRun(panelOn, ops) == (q, cs + ds);
      if ops[1..] != [] {
        assert ops[|ops| - 1] == ops[1..][|ops[1..]| - 1];
      }
      if cs != [] && ds != [] {
        assert ds[0] != cs[0];
      }
    }
  }

  /** Two `eink_on_` calls make a single power-on call, and none when the
      flag already says on. */
  lemma EinkOnTwice(panelOn: int)
    ensures PowerRun(panelOn, [EinkOn, EinkOn]).1 == if panelOn != 1 then [EpdPowerOn] else []
  {
    assert [EinkOn, EinkOn][1..] == [EinkOn];
    PowerRunSingle(PowerStep(panelOn, EinkOn).0, EinkOn);
  }

  lemma PowerRunSingle(panelOn: int, op: PowerOp)
    ensures PowerRun(panelOn, [op]) == PowerStep(panelOn, op)
  {
    assert [op][1..] == [];
    var first := PowerStep(panelOn, op);
    assert PowerRun(first.0, []) == (first.0, []);
    assert first.1 + [] == first.1;
  }

  /** Repeating a power operation changes nothing and calls nothing. */
  lemma PowerIdempotent(panelOn: int, op: PowerOp)
    ensures PowerRun(panelOn, [op, op]) == PowerRun(panelOn, [op])
  {
    assert [op, op][1..] == [op];
    var first := PowerStep(panelOn, op);
    PowerRunSingle(panelOn, op);
    PowerRunSingle(first.0, op);
    assert first.1 + [] == first.1;
  }

  /** The calls `display` makes: always a full refresh, powered on and off
      around it, independent of the cached power flag. */
  function DisplayCalls(image: Option<seq<Byte>>): (cs: seq<Call>)
    ensures |cs| == 4
    ensures cs[0] == EpdPowerOn && cs[|cs| - 1] == EpdPowerOff
    ensures cs[1] == EpdClear && cs[2] == EpdDrawGrayscaleImage(image)
  {
    [EpdPowerOn, EpdClear, EpdDrawGrayscaleImage(image), EpdPowerOff]
  }

  /** `display` powers the panel on and off directly, without `eink_on_` or
      `eink_off_`, so the cached flag is not kept in step: after `eink_on_`
      and a refresh the flag still says on while the last power call was a
      power-off, and a further `eink_on_` makes no call. */
  lemma DisplayBypassesPowerFlag(panelOn: int, image: Option<seq<Byte>>)
    ensures var on := PowerStep(panelOn, EinkOn);
      var cs := on.1 + DisplayCalls(image);
      on.0 == 1 && cs[|cs| - 1] == EpdPowerOff && PowerStep(on.0, EinkOn).1 == []
  {
  }

  /** The calls `setup` makes up to its allocation outcome: panel init, the
      release of a previous buffer if there was one, the preferred
      allocation and, only if that failed, the fallback. */
  function SetupCalls(hadBuffer: bool, size: int, preferredOk: bool): (cs: seq<Call>)
    ensures 2 <= |cs| && cs[0] == EpdInit
    ensures Free in cs <==> hadBuffer
    ensures PsMalloc(size) in cs
    ensures HeapCapsMalloc(size, {CapSpiram, Cap8Bit}) in cs <==> !preferredOk
    ensures !preferredOk ==> cs[|cs| - 2] == PsMalloc(size)
    ensures cs[|cs| - 1] == if preferredOk then PsMalloc(size) else HeapCapsMalloc(size, {CapSpiram, Cap8Bit})
  {
    [EpdInit] + (if hadBuffer then [Free] else []) + [PsMalloc(size)]
      + (if preferredOk then [] else [HeapCapsMalloc(size, {CapSpiram, Cap8Bit})])
  }

  /** Whether a call is an allocation attempt. */
  predicate IsAlloc(c: Call)
  {
    c.PsMalloc? || c.HeapCapsMalloc?
  }

  /** The number of allocation attempts in a call sequence. */
  function AllocCount(cs: seq<Call>): (n: nat)
    ensures n <= |cs|
  {
    if cs == [] then 0 else (if IsAlloc(cs[0]) then 1 else 0) + AllocCount(cs[1..])
  }

  lemma {:induction false} AllocCountAppend(a: seq<Call>, b: seq<Call>)
    ensures AllocCount(a + b) == AllocCount(a) + AllocCount(b)
  {
    if a == [] {
      assert a + b == b;
    } else {
      assert (a + b)[1..] == a[1..] + b;
      AllocCountAppend(a[1..], b);
    }
  }

  /** `setup` makes at most two allocation attempts, two only when the
      first failed, and releases any old buffer before the first. */
  lemma SetupAllocations(hadBuffer: bool, size: int, preferredOk: bool)
    ensures var cs := SetupCalls(hadBuffer, size, preferredOk);
      AllocCount(cs) == (if preferredOk then 1 else 2) &&
      (hadBuffer ==> cs[1] == Free && !IsAlloc(cs[0]))
  {
    var pre := [EpdInit] + (if hadBuffer then [Free] else []);
    var tail := if preferredOk then [] else [HeapCapsMalloc(size, {CapSpiram, Cap8Bit})];
    assert SetupCalls(hadBuffer, size, preferredOk) == pre + [PsMalloc(size)] + tail;
    AllocCountAppend(pre + [PsMalloc(size)], tail);
    AllocCountAppend(pre, [PsMalloc(size)]);
    if hadBuffer {
      AllocCountAppend([EpdInit], [Free]);
    }
    if !preferredOk {
      assert AllocCount(tail) == 1 + AllocCount(tail[1..]);
    }
  }

  /** The display component: panel dimensions, framebuffer, cached power
      flag, failed flag and the calls made so far. */
  class T547Display {
    const width: int
    const height: int
    var buffer: array?<Byte>
    var panelOn: int
    var failed: bool
    var calls: seq<Call>

    /** A held buffer always has the length computed from the panel size. */
    ghost predicate Valid()
      reads this
    {
      0 <= width && 0 <= height &&
      (buffer != null ==> buffer.Length == BufferLength(width, height))
    }

    /** The image handed to the panel library: the buffer's bytes, or none
        when no buffer is held. */
    function Image(): (img: Option<seq<Byte>>)
      reads this, buffer
      ensures img.Some? <==> buffer != null
      ensures buffer != null ==> |img.value| == buffer.Length
    {
      if buffer == null then None else Some(buffer[..])
    }

    /** A component for a panel of the given size, before `setup`. */
    constructor (width: int, height: int)
      requires 0 <= width && 0 <= height
      ensures Valid()
      ensures this.width == width && this.height == height
      ensures buffer == null && panelOn == 0 && !failed && calls == []
    {
      this.width, this.height := width, height;
      buffer, panelOn, failed, calls := null, 0, false, [];
    }

    /** `setup`: initialise the panel, release the old buffer, allocate
        with the preferred allocator and, if that fails, the fallback; if
        both fail mark the component failed, otherwise fill the new buffer
        with 0xFF (white). */
    method Setup(preferredOk: bool, fallbackOk: bool)
      requires Valid()
      modifies this
      ensures Valid()
      ensures calls == old(calls) + SetupCalls(old(buffer) != null, BufferLength(width, height), preferredOk)
      ensures failed == (old(failed) || (!preferredOk && !fallbackOk))
      ensures !preferredOk && !fallbackOk ==> buffer == null
      ensures preferredOk || fallbackOk ==>
        buffer != null && fresh(buffer) && buffer.Length == BufferLength(width, height) &&
        forall i :: 0 <= i < buffer.Length ==> buffer[i] == 0xFF
      ensures panelOn == old(panelOn)
    {
      calls := calls + [EpdInit];
      var size := BufferLength(width, height);
      if buffer != null {
        calls := calls + [Free];
      }
      calls := calls + [PsMalloc(size)];
      if preferredOk {
        buffer := new Byte[size];
      } else {
        buffer := null;
        calls := calls + [HeapCapsMalloc(size, {CapSpiram, Cap8Bit})];
        if fallbackOk {
          buffer := new Byte[size];
        } else {
          failed := true;
          return;
        }
      }
      var b := buffer;
      forall i | 0 <= i < b.Length {
        b[i] := 0xFF;
      }
    }

    /** `draw_absolute_pixel_internal`: ignore pixels off the panel,
        otherwise hand the pixel's greyscale value to `epd_draw_pixel`, which
        packs it into the buffer (its packing is not modelled, so the
        buffer's bytes are left unspecified). */
    method DrawAbsolutePixelInternal(x: int, y: int, color: Color)
      modifies this`calls, buffer
      ensures OutOfRange(x, y, width, height) ==> calls == old(calls)
      ensures OutOfRange(x, y, width, height) && buffer != null ==> unchanged(buffer)
      ensures !OutOfRange(x, y, width, height) ==> calls == old(calls) + [EpdDrawPixel(x, y, Grey(color))]
      ensures buffer == old(buffer) && panelOn == old(panelOn)
    {
      if OutOfRange(x, y, width, height) {
        return;
      }
      var gs := Grey(color);
      calls := calls + [EpdDrawPixel(x, y, gs)];
    }

    /** `eink_off_`: power off unless the cached flag already says off. */
    method EinkOff()
      modifies this`panelOn, this`calls
      ensures panelOn == PowerStep(old(panelOn), PowerOp.EinkOff).0
      ensures calls == old(calls) + PowerStep(old(panelOn), PowerOp.EinkOff).1
    {
      if panelOn == 0 {
        return;
      }
      calls := calls + [EpdPowerOff];
      panelOn := 0;
    }

    /** `eink_on_`: power on unless the cached flag already says on. */
    method EinkOn()
      modifies this`panelOn, this`calls
      ensures panelOn == PowerStep(old(panelOn), PowerOp.EinkOn).0
      ensures calls == old(calls) + PowerStep(old(panelOn), PowerOp.EinkOn).1
    {
      if panelOn == 1 {
        return;
      }
      calls := calls + [EpdPowerOn];
      panelOn := 1;
    }

    /** `display`: a full refresh of the whole screen from the buffer. */
    method Display()
      modifies this`calls
      ensures calls == old(calls) + DisplayCalls(Image())
      ensures panelOn == old(panelOn) && buffer == old(buffer)
    {
      calls := calls + [EpdPowerOn, EpdClear];
      calls := calls + [EpdDrawGrayscaleImage(Image())];
      calls := calls + [EpdPowerOff];
    }

    /** `update`: the framework redraws into the buffer, then the screen is
        refreshed in full from what the buffer then holds. */
    method Update()
      modifies this`calls, buffer
      ensures calls == old(calls) + [DoUpdate] + DisplayCalls(Image())
      ensures panelOn == old(panelOn) && buffer == old(buffer)
    {
      calls := calls + [DoUpdate];
      Display();
    }
  }
}
