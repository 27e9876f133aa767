/**
 * The SPRD USB audio offload vendor hooks: per-direction offload flags and
 * a suspend mode set through three mixer controls, the endpoint start/stop
 * hook that configures the controller's I2S offload path, and the
 * sync-type filter applied to the device's audio formats.
 *
 * The driver's static `vendor_audio` is the class `VendorAudio`; calls into
 * the USB controller driver and the ALSA core go to its `calls` log.
 */
module UsbOffload {
  import opened Kernel
  import opened UsbAudio

  const USB_AUD_IIS_WIDTH_16: int := 0
  const USB_AUD_IIS_WIDTH_24: int := 1
  /** The rate, in kHz, the offload path is configured for. */
  const OFLD_RATE: int := 48

  /** The names in `sprd_controls`, in order. */
  const CONTROLS: seq<string> := ["USB_AUD_OFLD_P_EN", "USB_AUD_OFLD_C_EN", "USB_AUD_SHOULD_SUSPEND"]

  /** `vendor_audio` as a value. */
  datatype Vendor = Vendor(ofldEn: seq<int>, shouldSuspend: int)

  /** How ep_action describes an endpoint's stream to the controller. */
  datatype EpFormat = EpFormat(isMono: bool, isPcm24: bool, iisWidth: int, rate: int)

  /**
   * The channel and format switches of usb_offload_ep_action: mono only
   * for one channel, 24-bit only for S24_LE (every other count or format,
   * valid or not, is stereo / 16-bit); the I2S width is always 24 bits and
   * the rate always 48 kHz.
   */
  function DecodeEndpoint(channels: int, format: int): (f: EpFormat)
    ensures f.isMono <==> channels == 1
    ensures f.isPcm24 <==> format == SNDRV_PCM_FORMAT_S24_LE
    ensures f.iisWidth == USB_AUD_IIS_WIDTH_24 && f.rate == OFLD_RATE
  {
    var isMono := match channels
      case 2 => false
      case 1 => true
      case _ => false;
    var isPcm24 := if format == SNDRV_PCM_FORMAT_S16_LE then false
      else if format == SNDRV_PCM_FORMAT_S24_LE then true
      else false;
    EpFormat(isMono, isPcm24, USB_AUD_IIS_WIDTH_24, OFLD_RATE)
  }

  /** sprd_usb_audio_offload_check: 1 for a valid direction of an existing chip whose flag is set, else 0. */
  function OffloadCheck(ofldEn: seq<int>, chip: bool, stream: int): (r: int)
    requires FlagsOk(ofldEn)
    ensures r == 0 || r == 1
    ensures r == 1 <==>
      (stream == SNDRV_PCM_STREAM_PLAYBACK || stream == SNDRV_PCM_STREAM_CAPTURE) && chip && ofldEn[stream] != 0
  {
    if stream != SNDRV_PCM_STREAM_PLAYBACK && stream != SNDRV_PCM_STREAM_CAPTURE then 0
    else if !chip then 0
    else if ofldEn[stream] != 0 then 1
    else 0
  }

  /** The controller calls of usb_offload_ep_action (`action`: true to start, false to stop). */
  function EpActionCalls(ofldEn: seq<int>, ep: Option<Endpoint>, action: bool): (r: seq<UsbCall>)
    requires FlagsOk(ofldEn)
    ensures |r| <= 1
    ensures r != [] ==> ep.Some? && ep.value.chip.Some? && ep.value.chip.value.hcdDriver
  {
    if ep.None? then []
    else
      var e := ep.value;
      var f := DecodeEndpoint(e.channels, e.format);
      var on := OffloadCheck(ofldEn, e.chip.Some?, StreamOf(e));
      if on == 0 || !e.chip.value.hcdDriver then []
      else [OffloadConfig(e.epNum, f.isMono, f.isPcm24, f.iisWidth, OFLD_RATE, if action then on else 0)]
  }

  /**
   * usb_offload_ep_action configures the controller once, and only for an
   * endpoint whose chip has offload enabled in its direction and whose
   * host controller has a driver: start passes enable 1, stop passes 0,
   * with the endpoint's number, channel and sample-format flags.
   */
  lemma EpActionConfiguresOffloadOnly(ofldEn: seq<int>, ep: Option<Endpoint>, action: bool)
    requires FlagsOk(ofldEn)
    ensures var calls := EpActionCalls(ofldEn, ep, action);
      && (calls != [] <==>
            ep.Some? && ep.value.chip.Some? && ep.value.chip.value.hcdDriver && ofldEn[StreamOf(ep.value)] != 0)
      && (calls != [] ==>
            var e := ep.value;
            && |calls| == 1
            && calls[0] == OffloadConfig(e.epNum, e.channels == 1, e.format == SNDRV_PCM_FORMAT_S24_LE,
                                         USB_AUD_IIS_WIDTH_24, OFLD_RATE, if action then 1 else 0))
  {
  }

  /** sprd_usb_aud_ofld_en: the raw flag of a valid direction of an existing chip, else 0. */
  function AudOfldEn(ofldEn: seq<int>, chip: bool, stream: int): (r: int)
    requires FlagsOk(ofldEn)
    ensures r != 0 <==> OffloadCheck(ofldEn, chip, stream) == 1
  {
    if stream != SNDRV_PCM_STREAM_PLAYBACK && stream != SNDRV_PCM_STREAM_CAPTURE then 0
    else if !chip then 0
    else ofldEn[stream]
  }

  /** sprd_ofld_synctype_ignore */
  function SynctypeIgnore(ofldEn: seq<int>, chip: bool, stream: int, attr: int): (r: int)
    requires FlagsOk(ofldEn)
    ensures r == 0 || r == 1
  {
    if AudOfldEn(ofldEn, chip, stream) == 0 then 0
    else if attr != USB_ENDPOINT_SYNC_SYNC as int then 1
    else 0
  }

  /** usb_offload_synctype_ignore: the value it stores through `need_ignore`. */
  function NeedIgnore(ofldEn: seq<int>, chip: bool, direction: int, attr: int): (needIgnore: bool)
    requires FlagsOk(ofldEn)
  {
    SynctypeIgnore(ofldEn, chip, direction, attr) != 0
  }

  /**
   * With offload on for a direction, every audio format whose sync type is
   * not SYNC is ignored; with offload off, none is.
   */
  lemma NeedIgnoreIffOffloadNotSync(ofldEn: seq<int>, chip: bool, direction: int, attr: int)
    requires FlagsOk(ofldEn)
    ensures NeedIgnore(ofldEn, chip, direction, attr)
       <==> OffloadCheck(ofldEn, chip, direction) == 1 && attr != USB_ENDPOINT_SYNC_SYNC as int
  {
  }

  /** usb_offload_add_ctrl: both flags cleared, suspend mode 1, then the controls are added. */
  function AddCtrlSpec(v: Vendor, chip: bool, addRet: nat -> int): (r: (Vendor, seq<UsbCall>))
    ensures FlagsOk(r.0.ofldEn)
    ensures |r.1| <= |CONTROLS|
  {
    (Vendor([0, 0], 1), ControlAddSpec(chip, CONTROLS, addRet).calls)
  }

  /**
   * After a device connects, offload is off in both directions — no
   * endpoint is configured and no format ignored — and the suspend mode
   * reads 1, whether or not the controls could be added.
   */
  lemma AddCtrlResets(v: Vendor, chip: bool, addRet: nat -> int, ep: Option<Endpoint>, action: bool, stream: int, attr: int)
    ensures var (w, _) := AddCtrlSpec(v, chip, addRet);
      && FlagsOk(w.ofldEn)
      && OffloadCheck(w.ofldEn, chip, stream) == 0
      && EpActionCalls(w.ofldEn, ep, action) == []
      && !NeedIgnore(w.ofldEn, chip, stream, attr)
      && ShouldSuspendGetSpec(w.shouldSuspend, chip).value == (if chip then Some(1) else None)
  {
    var (w, _) := AddCtrlSpec(v, chip, addRet);
    EpActionConfiguresOffloadOnly(w.ofldEn, ep, action);
  }

  /** The driver's `vendor_audio`. */
  class VendorAudio {
    var usbAudOfldEn: seq<int>
    var usbAudShouldSuspend: int
    var calls: seq<UsbCall>

    function View(): Vendor
      reads this
    {
      Vendor(usbAudOfldEn, usbAudShouldSuspend)
    }

    ghost predicate Valid()
      reads this
    {
      FlagsOk(usbAudOfldEn) && I32_MIN <= usbAudShouldSuspend <= I32_MAX
    }

    /** The zero-initialised static. */
    constructor ()
      ensures Valid() && View() == Vendor([0, 0], 0) && calls == []
    {
      usbAudOfldEn := [0, 0];
      usbAudShouldSuspend := 0;
      calls := [];
    }

    /** snd_vendor_audio_offload: the raw flag, which the offload check reads for an existing chip. */
    function VendorAudioOffload(stream: int): (r: int)
      reads this
      requires Valid() && 0 <= stream <= SNDRV_PCM_STREAM_LAST
      ensures r != 0 <==> OffloadCheck(usbAudOfldEn, true, stream) == 1
    {
      usbAudOfldEn[stream]
    }

    /** usb_offload_ep_action */
    method EpAction(ep: Option<Endpoint>, action: bool)
      requires Valid()
      modifies this
      ensures View() == old(View()) && calls == old(calls) + EpActionCalls(usbAudOfldEn, ep, action)
    {
      if ep.Some? {
        var e := ep.value;
        var stream := if e.pipeIn then SNDRV_PCM_STREAM_CAPTURE else SNDRV_PCM_STREAM_PLAYBACK;
        var iisWidth := USB_AUD_IIS_WIDTH_24;
        var isMono := false;
        if e.channels == 1 {
          isMono := true;
        }
        var isPcm24 := false;
        if e.format == SNDRV_PCM_FORMAT_S24_LE {
          isPcm24 := true;
        }
        var isOffloadMod := OffloadCheck(usbAudOfldEn, e.chip.Some?, stream);
        if isOffloadMod != 0 {
          if !e.chip.value.hcdDriver {
            return;
          }
          if action {
            calls := calls + [OffloadConfig(e.epNum, isMono, isPcm24, iisWidth, OFLD_RATE, isOffloadMod)];
          } else {
            calls := calls + [OffloadConfig(e.epNum, isMono, isPcm24, iisWidth, OFLD_RATE, 0)];
          }
        }
      }
    }

    /** sprd_usb_offload_enable_get */
    function EnableGet(chip: bool, stream: int): (r: CtlRead)
      reads this
      requires Valid() && 0 <= stream
      ensures r.value.Some? ==> OffloadCheck(usbAudOfldEn, chip, stream) == (if r.value.value != 0 then 1 else 0)
    {
      EnableGetSpec(usbAudOfldEn, chip, stream)
    }

    /** sprd_usb_offload_enable_put */
    method EnablePut(chip: bool, stream: int, max: int, value: int) returns (ret: int)
      requires Valid() && 0 <= stream
      modifies this
      ensures Valid() && usbAudShouldSuspend == old(usbAudShouldSuspend) && calls == old(calls)
      ensures PutResult(ret, usbAudOfldEn) == EnablePutSpec(old(usbAudOfldEn), chip, stream, max, value)
    {
      if !chip {
        return 0;
      }
      if stream > SNDRV_PCM_STREAM_LAST {
        return 0;
      }
      var val := CtlValue(value);
      if val > max {
        return -EINVAL;
      }
      usbAudOfldEn := usbAudOfldEn[stream := val];
      ret := 0;
    }

    /** sprd_usb_should_suspend_get */
    function ShouldSuspendGet(chip: bool): (r: CtlRead)
      reads this
      ensures r.value.Some? ==> r.value.value == usbAudShouldSuspend
    {
      ShouldSuspendGetSpec(usbAudShouldSuspend, chip)
    }

    /** sprd_usb_should_suspend_put */
    method ShouldSuspendPut(chip: Option<UsbChip>, max: int, value: int) returns (ret: int)
      requires Valid()
      modifies this
      ensures Valid() && usbAudOfldEn == old(usbAudOfldEn)
      ensures var r := ShouldSuspendPutSpec(old(usbAudShouldSuspend), chip, max, value);
        && ret == r.ret && usbAudShouldSuspend == r.shouldSuspend
        && calls == old(calls) + (if r.setMode.Some? then [SetOffloadMode(r.setMode.value)] else [])
    {
      if chip.None? || !chip.value.busOk {
        return -EINVAL;
      }
      var val := CtlValue(value);
      if val > max {
        return -EINVAL;
      }
      usbAudShouldSuspend := val;
      if !chip.value.hcdDriver {
        return -EINVAL;
      }
      calls := calls + [SetOffloadMode(usbAudShouldSuspend)];
      ret := 0;
    }

    /** usb_offload_add_ctrl */
    method AddCtrl(chip: bool, addRet: nat -> int)
      requires Valid()
      modifies this
      ensures Valid()
      ensures var (w, added) := AddCtrlSpec(old(View()), chip, addRet);
        View() == w && calls == old(calls) + added
    {
      usbAudOfldEn := usbAudOfldEn[SNDRV_PCM_STREAM_PLAYBACK := 0];
      usbAudOfldEn := usbAudOfldEn[SNDRV_PCM_STREAM_CAPTURE := 0];
      usbAudShouldSuspend := 1;
      var ret, added := ControlAdd(chip, CONTROLS, addRet);
      calls := calls + added;
    }

    /** usb_offload_synctype_ignore */
    method SynctypeIgnoreHook(chip: bool, direction: int, attr: int) returns (needIgnore: bool)
      requires Valid()
      ensures needIgnore <==> OffloadCheck(usbAudOfldEn, chip, direction) == 1 && attr != USB_ENDPOINT_SYNC_SYNC as int
    {
      var ignore := SynctypeIgnore(usbAudOfldEn, chip, direction, attr);
      if ignore != 0 {
        needIgnore := true;
      } else {
        needIgnore := false;
      }
    }
  }
}
