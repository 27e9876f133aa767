/**
 * Values the drivers take from kernel headers, and the fixed-width
 * conversions that C performs implicitly on assignment.
 *
 * Error codes are positive here, as in <linux/errno.h>; the drivers
 * return their negation.
 */
module Kernel {

  const EIO: int := 5
  const ENOMEM: int := 12
  const EBUSY: int := 16
  const ENODEV: int := 19
  const EINVAL: int := 22
  const EPROBE_DEFER: int := 517

  const U32_MODULUS: int := 0x1_0000_0000
  const I32_MIN: int := -0x8000_0000
  const I32_MAX: int := 0x7FFF_FFFF

  /** A C `u32` / `unsigned int`. */
  type u32 = x: int | 0 <= x < 0x1_0000_0000

  /** Assigning an `int` to an `unsigned int`: reduction modulo 2^32. */
  function ToU32(x: int): (r: u32)
    ensures 0 <= x < U32_MODULUS ==> r == x
    ensures x < 0 && -U32_MODULUS <= x ==> r == x + U32_MODULUS
  {
    x % U32_MODULUS
  }

  /** Assigning an `unsigned int` to an `int`: two's-complement reinterpretation. */
  function ToI32(x: u32): (r: int)
    ensures I32_MIN <= r <= I32_MAX
    ensures ToU32(r) == x
    ensures x <= I32_MAX ==> r == x
  {
    if x <= I32_MAX then x else x - U32_MODULUS
  }

  function Min(a: int, b: int): int { if a < b then a else b }

  function Max(a: int, b: int): int { if a < b then b else a }

  datatype Option<T> = None | Some(value: T)

  // ALSA PCM stream directions (<sound/asound.h>)
  const SNDRV_PCM_STREAM_PLAYBACK: int := 0
  const SNDRV_PCM_STREAM_CAPTURE: int := 1
  const SNDRV_PCM_STREAM_LAST: int := 1

  // ALSA sample formats used by the USB offload decoder
  const SNDRV_PCM_FORMAT_S16_LE: int := 2
  const SNDRV_PCM_FORMAT_S24_LE: int := 6

  // ALSA trigger command
  const SNDRV_PCM_TRIGGER_SUSPEND: int := 5

  // Synchronisation type of a USB isochronous endpoint (<linux/usb/ch9.h>)
  const USB_ENDPOINT_SYNCTYPE: bv8 := 0x0c
  const USB_ENDPOINT_SYNC_NONE: bv8 := 0x00
  const USB_ENDPOINT_SYNC_ASYNC: bv8 := 0x04
  const USB_ENDPOINT_SYNC_ADAPTIVE: bv8 := 0x08
  const USB_ENDPOINT_SYNC_SYNC: bv8 := 0x0c
}
