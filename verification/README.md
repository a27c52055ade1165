# T547 e-paper driver fragment, modelled in Dafny

This project models the two leaf components of the LilyGo T5 4.7" e-paper
driver for ESPHome:

- `rmt_pulse.dfy` (module `RmtPulse`) models the RMT pulse generator of
  `components/t547/rmt_pulse.c`. It covers the one-time channel setup
  (`rmt_pulse_init`), the two-level symbol built by `pulse_ckv_ticks`, and
  the transmit, or transmit-and-wait, that follows. It also covers the
  microsecond entry point `pulse_ckv_us`, which multiplies by 10 and
  truncates to `uint16_t`. The module-level handles and the driver calls
  made so far are the fields of class `PulseDriver`.
- `t547.dfy` (module `T547`) models the display component of
  `components/t547/t547.cpp`. It covers the framebuffer length, `setup`'s
  release and two-stage allocation with its failure flag, the bounds guard
  and integer greyscale formula of `draw_absolute_pixel_internal`, the
  cached power flag of `eink_on_`/`eink_off_`, and `display`'s fixed refresh
  sequence. `update` is also covered. The component's state is class
  `T547Display`.

Calls that change the hardware, the panel, the buffer or the heap are
recorded as events in a trace. These are the RMT driver's channel
creation, enable, encoder creation, transmit and wait; the panel
library's `epd_init`, `epd_poweron`, `epd_poweroff`, `epd_clear`,
`epd_draw_pixel` and `epd_draw_grayscale_image`; the release of the old
buffer; both allocators; and the framework's redraw. Calls that only
read a value (`epd_full_screen()`, the heap statistics, `millis()`) are
not recorded. A foreign call that returns a
result takes that result as a `bool` parameter of the method making the
call. So the allocators' success or failure is chosen by the caller of
`Setup`, and the driver's `esp_err_t` is chosen by the caller of `Init`,
`PulseTicks` and `PulseUs`. An `ESP_ERROR_CHECK` that sees an error aborts
the process. The model records this in `aborted`, and no `PulseDriver`
method may be called after it.

What the proofs establish:

- `pulse_ckv_ticks` always builds a symbol with levels 1 then 0 whose two
  durations add up to `high + low`. With a zero high time, the low time
  becomes the high phase and the trailing low phase is empty. Played out
  tick by tick, such a pulse is high for `low` ticks, not low
  (`PulseWaveform`).
- A waited pulse is one transmit, then one wait with timeout -1, and
  either failure aborts. A fire-and-forget pulse is exactly one transmit,
  and its result is ignored.
- The microsecond conversion is exact up to 6553 us and wraps modulo 2^16
  above that.
- The greyscale formula truncates each term separately. Its luminance
  sum is therefore at most 254, so the `uint8_t` result never wraps and
  lies in 1..255. Exactly the colours with red <= 4, green <= 1 and
  blue <= 13 map to 255. Exactly the colours with red >= 254, green = 255
  and blue >= 250 map to 1, so white gives 1. The value never increases
  when a channel brightens.
- Any sequence of `eink_on_`/`eink_off_` calls makes power calls that
  strictly alternate, so the panel is never powered on twice in a row, or
  off twice in a row. Repeating either call is a no-op.
- `display` calls `epd_poweron`/`epd_poweroff` directly and never touches
  `panel_on_`. After `eink_on_` and a refresh, the flag says on while the
  panel's last power call was a power-off (`DisplayBypassesPowerFlag`).
- `setup` releases an old buffer before its first allocation. It tries
  the fallback allocator only when the preferred one fails, and makes at
  most two attempts. When both fail, it marks the component failed and
  leaves no buffer. On success, every byte of the new buffer is 0xFF.

White (255, 255, 255) maps to 1, not 0, because each of the three
products is truncated on its own before the sum.

## Model

| member | source | states |
|---|---|---|
| RmtPulse.ToU16 | components/t547/rmt_pulse.c:110-112 | Converting an `int` argument to a `uint16_t` parameter keeps in-range values and otherwise differs by a multiple of 2^16. |
| RmtPulse.ChannelConfig | components/t547/rmt_pulse.c:62-70 | The channel is configured on the given pin with the default clock source, 64 memory-block symbols, a queue depth of 4, no inversion, no DMA, and a resolution of 10 ticks per microsecond. |
| RmtPulse.MakeSymbol | components/t547/rmt_pulse.c:84-99 | The symbol's levels are always 1 then 0, and its two durations add up to high + low. With high > 0 the durations are (high, low). With high = 0 the trailing duration is 0. |
| RmtPulse.PulseWaveform | components/t547/rmt_pulse.c:86-99 | Played tick by tick, the symbol lasts high + low ticks. A tick is high exactly when it falls before `high`, or when high = 0. The number of high ticks is `high`, or `low` when high = 0. |
| RmtPulse.UsToTicks | components/t547/rmt_pulse.c:110-113 | Ticks are 10 x us when us <= 6553, fewer than 10 x us above that, and always congruent to 10 x us modulo 2^16. |
| RmtPulse.UsPulseExact | components/t547/rmt_pulse.c:110-113 | For durations up to 6553 us, `pulse_ckv_us` builds exactly the symbol for 10 x high and 10 x low ticks. |
| RmtPulse.PulseCalls | components/t547/rmt_pulse.c:101-106 | A pulse always begins with one transmit of the symbol using the fixed transmit configuration. A second call is made exactly when `wait` is set and the transmit succeeded, and it is a wait with timeout -1. |
| RmtPulse.PulseAborts | components/t547/rmt_pulse.c:101-105 | A pulse without `wait` never aborts. A waited pulse aborts exactly when the transmit or the wait fails. |
| RmtPulse.NoWaitIgnoresResult | components/t547/rmt_pulse.c:104-105 | Without `wait`, the pulse is exactly one transmit and never aborts, whatever the driver returns. |
| RmtPulse.PulseDriver.constructor | components/t547/rmt_pulse.c:41-54 | At start both handles are unset, no driver call has been made, and the process has not aborted. |
| RmtPulse.PulseDriver.Init | components/t547/rmt_pulse.c:60-78 | Calls are made in the order channel creation, enable, copy-encoder creation, stopping at the first failure. The process aborts exactly when one of them fails. |
| RmtPulse.PulseDriver.PulseTicks | components/t547/rmt_pulse.c:81-107 | Appends the calls of `PulseCalls` for the built symbol. Aborts exactly when `wait` is set and the transmit or the wait fails. |
| RmtPulse.PulseDriver.PulseUs | components/t547/rmt_pulse.c:110-113 | Behaves as `PulseTicks` on the `uint16_t`-truncated products 10 x high and 10 x low. |
| T547.ToByte | components/t547/t547.cpp:71 | Converting an `int` to `uint8_t` keeps in-range values and otherwise differs by a multiple of 2^8. |
| T547.BufferLength | components/t547/t547.cpp:59-61 | The buffer length n satisfies 2n <= width x height < 2n + 2, which is integer division by 2. It is exact when width x height is even. |
| T547.Term | components/t547/t547.cpp:71 | One luminance term is the channel times its weight divided by 10000, rounded down: 10000 t <= v x weight < 10000 (t + 1). |
| T547.Luminance | components/t547/t547.cpp:71 | The sum of the three separately truncated terms lies between 0 and 254. |
| T547.Grey | components/t547/t547.cpp:71 | The greyscale value is 255 minus the per-term-truncated luminance, is at least 1, and fits in a `uint8_t` without wrapping. |
| T547.GreyMonotone | components/t547/t547.cpp:71 | If each channel of one colour is at least that of another, its greyscale value is at most the other's. |
| T547.GreyBlack | components/t547/t547.cpp:71 | A colour maps to 255 exactly when red <= 4, green <= 1 and blue <= 13. |
| T547.GreyWhite | components/t547/t547.cpp:71 | A colour maps to 1 exactly when red >= 254, green = 255 and blue >= 250, so white maps to 1. |
| T547.OutOfRange | components/t547/t547.cpp:69 | A pixel is ignored exactly when it is not inside the panel, that is, unless 0 <= x < width and 0 <= y < height. |
| T547.PowerStep | components/t547/t547.cpp:80-94 | A power operation always leaves the flag at its target: 1 for on, 0 for off. It makes one panel call, of the matching kind, exactly when the old flag differs from the target. |
| T547.PowerRunAlternates | components/t547/t547.cpp:80-94 | Over any sequence of power operations, the calls made are power calls that strictly alternate, and there are no more of them than operations. The first call goes against the starting flag. The last call agrees with the final flag. With no calls the flag is unchanged. Otherwise the final flag is set by the last operation. |
| T547.PowerRunSingle | components/t547/t547.cpp:80-94 | A run of one power operation is that operation's step. |
| T547.EinkOnTwice | components/t547/t547.cpp:88-94 | Two `eink_on_` calls make one power-on call, or none if the flag already said on. |
| T547.PowerIdempotent | components/t547/t547.cpp:80-94 | Repeating a power operation gives the same flag and the same calls as doing it once. |
| T547.DisplayCalls | components/t547/t547.cpp:96-106 | A refresh is exactly power-on, clear, full-screen greyscale blit of the buffer, power-off, in that order. |
| T547.DisplayBypassesPowerFlag | components/t547/t547.cpp:80-106 | After `eink_on_` and a refresh, the flag is 1 while the last power call was a power-off, and a further `eink_on_` makes no call. |
| T547.SetupCalls | components/t547/t547.cpp:24-51 | `setup` starts with panel init and releases the old buffer exactly when one was held. It tries the fallback allocation exactly when the preferred one failed, and its last call is the last allocation attempt. |
| T547.SetupAllocations | components/t547/t547.cpp:28-51 | `setup` makes one allocation attempt when the preferred allocator succeeds and two otherwise. An old buffer is released before any attempt. |
| T547.T547Display.Image | components/t547/t547.cpp:102 | The image handed to the panel is present exactly when a buffer is held, and has the buffer's length. |
| T547.T547Display.constructor | components/t547/t547.cpp:28 | Before `setup` no buffer is held (the null test here), the power flag is 0 and the component has not failed. These initial values are assumptions; see "Left out". |
| T547.T547Display.Setup | components/t547/t547.cpp:14-56 | Records the calls of `SetupCalls`. The failed flag becomes set when both allocations fail, and the buffer is then null. Otherwise there is a fresh buffer of the computed length whose every byte is 0xFF. The power flag is unchanged. |
| T547.T547Display.DrawAbsolutePixelInternal | components/t547/t547.cpp:68-73 | An out-of-range pixel changes neither the calls nor the buffer. An in-range pixel makes one `epd_draw_pixel` call with its greyscale value. |
| T547.T547Display.EinkOff | components/t547/t547.cpp:80-86 | The flag and calls follow `PowerStep` for the off operation. |
| T547.T547Display.EinkOn | components/t547/t547.cpp:88-94 | The flag and calls follow `PowerStep` for the on operation. |
| T547.T547Display.Display | components/t547/t547.cpp:96-106 | Appends `DisplayCalls` of the current buffer. The power flag and buffer are unchanged. |
| T547.T547Display.Update | components/t547/t547.cpp:63-66 | Records the framework redraw, then the refresh calls of the buffer as the redraw left it. The power flag is unchanged. |

## Left out

- The ESP-IDF RMT driver: channel creation, enable, encoder creation, transmit and wait are trace events with a success/failure parameter. What they do to the hardware, background transmission, and the blocking of the wait are not modelled.
- RmtPulse.PulseDriver.PulseTicks: the outcome of a pulse is not tied to initialisation. The fields `channelCreated` and `encoderCreated` record what `Init` did, but a pulse on unset handles still takes the transmit and wait outcomes from its parameters. What the driver returns for a NULL handle is not modelled.
- The bit widths of the `rmt_symbol_word_t` fields are declared in a header that is not part of this model. Durations are held as the `uint16_t` values assigned to them.
- The commented-out interrupt handler and `rmt_busy` in `components/t547/rmt_pulse.c` are dead code.
- The `epd_*` panel library: its internals are not modelled. This covers how `epd_draw_pixel` packs 4-bit pixels into the buffer, so after an in-range pixel the buffer's bytes are left unspecified, and the rectangle `epd_full_screen()` returns. `epd_draw_pixel` is recorded even when no buffer is held, as in the code.
- The call to `epd_full_screen()` in `display` is not a recorded event. The blit event always stands for the full-screen area.
- The heap statistics calls (`heap_caps_get_free_size`, `heap_caps_get_total_size`, `heap_caps_get_largest_free_block`) are not recorded. They only feed log messages.
- The header `t547.h` is not part of this model. The panel dimensions are constructor parameters, assumed non-negative. `panel_on_` is an `int` that starts at 0, and `buffer_` starts null. The `int` product width x height is assumed not to overflow.
- The framework's `do_update_`, which runs the user's drawing code, is one `DoUpdate` event. Its effect on the buffer is left unspecified. `mark_failed` is the `failed` flag only.
- Logging, `millis()` timing (not recorded as calls), `get_setup_priority` (a float) and `dump_config` produce no state the model tracks.
- The release of the old buffer is a `Free` event. Whether the release matches the allocator that produced the buffer is not modelled.
