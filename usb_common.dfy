/**
 * What the two SPRD USB audio vendor hooks (offload and adaptive) have in
 * common: the view of a USB audio chip and endpoint they read, the calls
 * they make into the USB controller driver and the ALSA control core, and
 * the mixer-control handlers both drivers implement with the same code.
 */
module UsbAudio {
  import opened Kernel

  /** The parts of a `struct snd_usb_audio` the hooks look at. */
  datatype UsbChip = UsbChip(
    busOk: bool,       // chip->dev and chip->dev->bus are both non-NULL
    hcdDriver: bool,   // bus_to_hcd(chip->dev->bus)->driver is non-NULL
    idProduct: int)    // chip->dev->descriptor.idProduct

  /** The parts of a `struct snd_usb_endpoint` the ep_action hooks look at. */
  datatype Endpoint = Endpoint(
    pipeIn: bool,            // usb_pipein(ep->pipe)
    epNum: int,
    channels: int,           // ep->cur_channels
    format: int,             // ep->cur_format
    epAttr: bv8,             // ep->cur_audiofmt->ep_attr
    chip: Option<UsbChip>)   // ep->chip

  /** Calls into the USB controller driver and the ALSA core, in order. */
  datatype UsbCall =
    | OffloadConfig(epNum: int, isMono: bool, isPcm24: bool, iisWidth: int, rate: int, enable: int)  // musb_offload_config
    | SetOffloadMode(mode: int)                                                                    // musb_set_offload_mode
    | AdaptiveConfig(epNum: int, rate: int, start: bool)                                           // musb_adaptive_config(hcd, ep, 0, 0, 0, rate, start)
    | SetAdaptiveMode(mode: int)                                                                   // musb_set_adaptive_mode
    | CtlAdd(name: string)                                                                         // snd_ctl_add(card, snd_ctl_new1(control, chip))
    | Mdelay(ms: int)                                                                              // mdelay

  /** The direction an endpoint serves. */
  function StreamOf(ep: Endpoint): (stream: int)
    ensures stream == SNDRV_PCM_STREAM_CAPTURE <==> ep.pipeIn
    ensures stream == SNDRV_PCM_STREAM_PLAYBACK || stream == SNDRV_PCM_STREAM_CAPTURE
  {
    if ep.pipeIn then SNDRV_PCM_STREAM_CAPTURE else SNDRV_PCM_STREAM_PLAYBACK
  }

  /**
   * `val = ucontrol->value.integer.value[0]`: a `long` stored in an `int`
   * keeps its low 32 bits.
   */
  function CtlValue(value: int): (val: int)
    ensures I32_MIN <= val <= I32_MAX
    ensures I32_MIN <= value <= I32_MAX ==> val == value
    ensures (val - value) % U32_MODULUS == 0
  {
    ToI32(ToU32(value))
  }

  /** An offload-enable array has one C `int` flag per PCM direction. */
  predicate FlagsOk(ofldEn: seq<int>)
  {
    |ofldEn| == SNDRV_PCM_STREAM_LAST + 1 && forall k :: 0 <= k < |ofldEn| ==> I32_MIN <= ofldEn[k] <= I32_MAX
  }

  /* ---------------------------------------------------------------------
   * The mixer-control handlers shared by both drivers
   * ------------------------------------------------------------------- */

  /** A get handler's return value and what it wrote to `ucontrol`, if anything. */
  datatype CtlRead = CtlRead(ret: int, value: Option<int>)

  /** The outcome of sprd_usb_offload_enable_put: its return value and the new flags. */
  datatype PutResult = PutResult(ret: int, ofldEn: seq<int>)

  /**
   * sprd_usb_offload_enable_get: with a chip and a stream no greater than
   * SNDRV_PCM_STREAM_LAST it reports the stream's flag; otherwise it writes
   * nothing. It always returns 0.
   */
  function EnableGetSpec(ofldEn: seq<int>, chip: bool, stream: int): (r: CtlRead)
    requires FlagsOk(ofldEn) && 0 <= stream
    ensures r.ret == 0
    ensures r.value.Some? <==> chip && stream <= SNDRV_PCM_STREAM_LAST
    ensures r.value.Some? ==> r.value.value == ofldEn[stream]
  {
    if !chip || stream > SNDRV_PCM_STREAM_LAST then CtlRead(0, None)
    else CtlRead(0, Some(ofldEn[stream]))
  }

  /** sprd_usb_offload_enable_put */
  function EnablePutSpec(ofldEn: seq<int>, chip: bool, stream: int, max: int, value: int): (r: PutResult)
    requires FlagsOk(ofldEn) && 0 <= stream
    ensures FlagsOk(r.ofldEn)
  {
    if !chip || stream > SNDRV_PCM_STREAM_LAST then PutResult(0, ofldEn)
    else if CtlValue(value) > max then PutResult(-EINVAL, ofldEn)
    else PutResult(0, ofldEn[stream := CtlValue(value)])
  }

  /**
   * sprd_usb_offload_enable_put: a missing chip or an out-of-range stream
   * is reported as success and changes nothing; a value above `max` is
   * -EINVAL and changes nothing; otherwise the stream's flag takes the
   * (truncated) value and the other stream's flag is kept. Values below
   * zero are not rejected.
   */
  lemma EnablePutBehaviour(ofldEn: seq<int>, chip: bool, stream: int, max: int, value: int)
    requires FlagsOk(ofldEn) && 0 <= stream
    ensures var r := EnablePutSpec(ofldEn, chip, stream, max, value);
      && (r.ret == 0 || r.ret == -EINVAL)
      && (r.ret == -EINVAL <==> chip && stream <= SNDRV_PCM_STREAM_LAST && CtlValue(value) > max)
      && (r.ofldEn != ofldEn ==> r.ret == 0 && chip && stream <= SNDRV_PCM_STREAM_LAST)
      && (chip && stream <= SNDRV_PCM_STREAM_LAST && CtlValue(value) <= max ==>
            r.ofldEn[stream] == CtlValue(value) && r.ofldEn[1 - stream] == ofldEn[1 - stream])
      && (chip && stream <= SNDRV_PCM_STREAM_LAST && I32_MIN <= value <= I32_MAX && value <= max ==> r.ofldEn[stream] == value)
  {
  }

  /** A value the put handler accepted is what the get handler reads back. */
  lemma EnablePutThenGet(ofldEn: seq<int>, chip: bool, stream: int, max: int, value: int)
    requires FlagsOk(ofldEn) && 0 <= stream && chip && stream <= SNDRV_PCM_STREAM_LAST
    requires I32_MIN <= value <= I32_MAX && value <= max
    ensures var r := EnablePutSpec(ofldEn, chip, stream, max, value);
      r.ret == 0 && EnableGetSpec(r.ofldEn, chip, stream) == CtlRead(0, Some(value))
  {
  }

  /** Writing back what the get handler read changes nothing. */
  lemma EnableGetThenPut(ofldEn: seq<int>, chip: bool, stream: int, max: int)
    requires FlagsOk(ofldEn) && 0 <= stream && chip && stream <= SNDRV_PCM_STREAM_LAST
    requires ofldEn[stream] <= max
    ensures var g := EnableGetSpec(ofldEn, chip, stream);
      g.value.Some? && EnablePutSpec(ofldEn, chip, stream, max, g.value.value) == PutResult(0, ofldEn)
  {
    var g := EnableGetSpec(ofldEn, chip, stream);
    assert ofldEn[stream := ofldEn[stream]] == ofldEn;
  }

  /** sprd_usb_should_suspend_get: -EINVAL without a chip, else the stored mode. */
  function ShouldSuspendGetSpec(shouldSuspend: int, chip: bool): (r: CtlRead)
    ensures r.ret == 0 <==> chip
    ensures r.ret != 0 ==> r.ret == -EINVAL && r.value.None?
    ensures r.ret == 0 ==> r.value == Some(shouldSuspend)
  {
    if !chip then CtlRead(-EINVAL, None) else CtlRead(0, Some(shouldSuspend))
  }

  /** The outcome of sprd_usb_should_suspend_put: return value, stored mode, and the mode passed to the USB driver, if it was called. */
  datatype SuspendPut = SuspendPut(ret: int, shouldSuspend: int, setMode: Option<int>)

  /** sprd_usb_should_suspend_put */
  function ShouldSuspendPutSpec(shouldSuspend: int, chip: Option<UsbChip>, max: int, value: int): (r: SuspendPut)
    ensures r.ret == 0 || r.ret == -EINVAL
    ensures r.setMode.Some? ==> r.ret == 0 && r.setMode.value == r.shouldSuspend
  {
    if chip.None? || !chip.value.busOk then SuspendPut(-EINVAL, shouldSuspend, None)
    else if CtlValue(value) > max then SuspendPut(-EINVAL, shouldSuspend, None)
    else if !chip.value.hcdDriver then SuspendPut(-EINVAL, CtlValue(value), None)
    else SuspendPut(0, CtlValue(value), Some(CtlValue(value)))
  }

  /**
   * sprd_usb_should_suspend_put: without a chip, device or bus, or with a
   * value above `max`, it is -EINVAL and nothing changes; otherwise the
   * value is stored first, and then handed to the USB driver only when the
   * host controller has a driver — the store is kept even when the missing
   * driver makes the call fail with -EINVAL.
   */
  lemma ShouldSuspendPutBehaviour(shouldSuspend: int, chip: Option<UsbChip>, max: int, value: int)
    ensures var r := ShouldSuspendPutSpec(shouldSuspend, chip, max, value);
      var accepted := chip.Some? && chip.value.busOk && CtlValue(value) <= max;
      && (r.ret == 0 || r.ret == -EINVAL)
      && (r.ret == 0 <==> accepted && chip.value.hcdDriver)
      && (accepted ==> r.shouldSuspend == CtlValue(value))
      && (!accepted ==> r.shouldSuspend == shouldSuspend && r.setMode.None?)
      && (r.setMode.Some? <==> r.ret == 0)
      && (r.setMode.Some? ==> r.setMode.value == r.shouldSuspend)
  {
  }

  /** An accepted should-suspend value reads back, whether or not the USB driver was reached. */
  lemma ShouldSuspendPutThenGet(shouldSuspend: int, c: UsbChip, max: int, value: int)
    requires c.busOk && I32_MIN <= value <= I32_MAX && value <= max
    ensures ShouldSuspendGetSpec(ShouldSuspendPutSpec(shouldSuspend, Some(c), max, value).shouldSuspend, true)
         == CtlRead(0, Some(value))
  {
  }

  /* ---------------------------------------------------------------------
   * sprd_usb_control_add
   * ------------------------------------------------------------------- */

  /** The return value of sprd_usb_control_add and the snd_ctl_add calls it made. */
  datatype Added = Added(ret: int, calls: seq<UsbCall>)

  /** `calls` before the outcome `a`. */
  function Prepend(calls: seq<UsbCall>, a: Added): Added
  {
    Added(a.ret, calls + a.calls)
  }

  /** The add loop from control `i` on; `addRet(k)` is snd_ctl_add's result for control `k`. */
  function AddFrom(table: seq<string>, addRet: nat -> int, i: nat): (r: Added)
    requires i <= |table|
    ensures r.ret <= 0
    ensures |r.calls| <= |table| - i
    decreases |table| - i
  {
    if i == |table| then Added(0, [])
    else if addRet(i) < 0 then Added(addRet(i), [CtlAdd(table[i])])
    else Prepend([CtlAdd(table[i])], AddFrom(table, addRet, i + 1))
  }

  /** sprd_usb_control_add over the driver's control table. */
  function ControlAddSpec(chip: bool, table: seq<string>, addRet: nat -> int): (r: Added)
    ensures r.ret <= 0
    ensures |r.calls| <= |table|
  {
    if !chip then Added(-EINVAL, []) else AddFrom(table, addRet, 0)
  }

  /**
   * The add loop offers the controls in table order and stops at the first
   * one snd_ctl_add refuses, returning that error; it returns 0 exactly
   * when every control was added.
   */
  lemma {:induction false} AddFromOutcome(table: seq<string>, addRet: nat -> int, i: nat)
    requires i <= |table|
    ensures var r := AddFrom(table, addRet, i);
      && r.ret <= 0
      && |r.calls| <= |table| - i
      && (forall k :: 0 <= k < |r.calls| ==> r.calls[k] == CtlAdd(table[i + k]))
      && (r.ret == 0 <==> forall k :: i <= k < |table| ==> addRet(k) >= 0)
      && (r.ret == 0 ==> |r.calls| == |table| - i)
      && (r.ret < 0 ==>
            && 0 < |r.calls| && r.ret == addRet(i + |r.calls| - 1)
            && forall k :: i <= k < i + |r.calls| - 1 ==> addRet(k) >= 0)
    decreases |table| - i
  {
    if i < |table| && addRet(i) >= 0 {
      AddFromOutcome(table, addRet, i + 1);
    }
  }

  /** sprd_usb_control_add: -EINVAL without a chip, else the add loop over the table. */
  lemma ControlAddOutcome(chip: bool, table: seq<string>, addRet: nat -> int)
    ensures var r := ControlAddSpec(chip, table, addRet);
      && (!chip ==> r == Added(-EINVAL, []))
      && (chip && (forall k :: 0 <= k < |table| ==> addRet(k) >= 0) ==>
            r.ret == 0 && |r.calls| == |table| && forall k :: 0 <= k < |table| ==> r.calls[k] == CtlAdd(table[k]))
      && (chip && r.ret < 0 ==> r.ret == addRet(|r.calls| - 1))
  {
    if chip {
      AddFromOutcome(table, addRet, 0);
    }
  }

  /** sprd_usb_control_add */
  method ControlAdd(chip: bool, table: seq<string>, addRet: nat -> int) returns (ret: int, calls: seq<UsbCall>)
    ensures Added(ret, calls) == ControlAddSpec(chip, table, addRet)
  {
    if !chip {
      return -EINVAL, [];
    }
    calls := [];
    var i := 0;
    while i < |table|
      invariant 0 <= i <= |table|
      invariant AddFrom(table, addRet, 0) == Prepend(calls, AddFrom(table, addRet, i))
      decreases |table| - i
    {
      calls := calls + [CtlAdd(table[i])];
      ret := addRet(i);
      if ret < 0 {
        return ret, calls;
      }
      i := i + 1;
    }
    ret := 0;
  }
}
