/**
 * The SPRD USB audio adaptive vendor hooks: the same offload flags and
 * suspend mode as the offload driver, plus the synchronisation type of the
 * last endpoint started or stopped in each direction, two read-only mixer
 * controls reporting it, the endpoint hook that switches the controller
 * into adaptive mode, and the hook that keeps an offloaded stream running
 * across a system suspend.
 *
 * The driver's static `vendor_audio` is the class `AdaptiveAudio`; calls
 * into the USB controller driver, the ALSA core and mdelay go to its
 * `calls` log.
 */
module UsbAdaptive {
  import opened Kernel
  import opened UsbAudio

  /** A device whose capture endpoint needs a settling delay after an action. */
  const QUIRK_PRODUCT_ID: int := 0x3A07
  /** The quirk's delay, in milliseconds. */
  const QUIRK_DELAY_MS: int := 20
  /** The rate, in kHz, the adaptive path is configured for. */
  const ADAPTIVE_RATE: int := 48

  /** The names in `sprd_controls`, in order. */
  const CONTROLS: seq<string> := ["USB_AUD_OFLD_P_EN", "USB_AUD_OFLD_C_EN", "USB_AUD_SHOULD_SUSPEND",
                                  "USB_AUD_PLAYBACK_TYPE", "USB_AUD_CAPTURE_TYPE"]

  /** enum usb_aud_type; the zero-initialised value is Sync. */
  datatype AudType = Sync | Adaptive | Async

  /** The enumerator's value, as the type controls report it. */
  function AudTypeValue(t: AudType): (n: int)
    ensures 0 <= n < 3
  {
    match t
    case Sync => 0
    case Adaptive => 1
    case Async => 2
  }

  /** `vendor_audio` as a value. */
  datatype Vendor = Vendor(ofldEn: seq<int>, shouldSuspend: int, audType: seq<AudType>)

  /** The invariant of `vendor_audio`: one flag and one type per direction. */
  predicate VendorOk(v: Vendor)
  {
    FlagsOk(v.ofldEn) && |v.audType| == SNDRV_PCM_STREAM_LAST + 1
  }

  /**
   * The switch in usb_offload_ep_action: the type an endpoint attribute's
   * synchronisation bits name, or None for NONE (no isochronous
   * synchronisation), which leaves the recorded type as it was.
   */
  function SyncTypeOf(attr: bv8): (t: Option<AudType>)
    ensures t.None? <==> attr & USB_ENDPOINT_SYNCTYPE == USB_ENDPOINT_SYNC_NONE
    ensures t == Some(Sync) <==> attr & USB_ENDPOINT_SYNCTYPE == USB_ENDPOINT_SYNC_SYNC
    ensures t == Some(Adaptive) <==> attr & USB_ENDPOINT_SYNCTYPE == USB_ENDPOINT_SYNC_ADAPTIVE
    ensures t == Some(Async) <==> attr & USB_ENDPOINT_SYNCTYPE == USB_ENDPOINT_SYNC_ASYNC
  {
    var syncType := attr & USB_ENDPOINT_SYNCTYPE;
    if syncType == USB_ENDPOINT_SYNC_SYNC then Some(Sync)
    else if syncType == USB_ENDPOINT_SYNC_ADAPTIVE then Some(Adaptive)
    else if syncType == USB_ENDPOINT_SYNC_ASYNC then Some(Async)
    else None
  }

  /** sprd_usb_audio_offload_check: 1 for a valid direction whose flag is set, else 0 (no chip test here). */
  function OffloadCheck(ofldEn: seq<int>, stream: int): (r: int)
    requires FlagsOk(ofldEn)
    ensures r == 0 || r == 1
    ensures r == 1 <==>
      (stream == SNDRV_PCM_STREAM_PLAYBACK || stream == SNDRV_PCM_STREAM_CAPTURE) && ofldEn[stream] != 0
  {
    if stream != SNDRV_PCM_STREAM_PLAYBACK && stream != SNDRV_PCM_STREAM_CAPTURE then 0
    else if ofldEn[stream] != 0 then 1
    else 0
  }

  /** The type array after an endpoint of direction `stream` with attribute `attr` was acted on. */
  function RecordType(audType: seq<AudType>, stream: int, attr: bv8): seq<AudType>
    requires 0 <= stream < |audType|
  {
    match SyncTypeOf(attr)
    case None => audType
    case Some(t) => audType[stream := t]
  }

  /** The calls usb_offload_ep_action makes for an endpoint once offload is on and the controller has a driver. */
  function AdaptiveCalls(e: Endpoint, action: bool): seq<UsbCall>
    requires e.chip.Some?
  {
    [AdaptiveConfig(e.epNum, ADAPTIVE_RATE, action)]
      + (if StreamOf(e) == SNDRV_PCM_STREAM_CAPTURE && e.chip.value.idProduct == QUIRK_PRODUCT_ID
         then [Mdelay(QUIRK_DELAY_MS)] else [])
  }

  /** usb_offload_ep_action: the new `vendor_audio` and the calls made. */
  function EpActionSpec(v: Vendor, ep: Option<Endpoint>, action: bool): (r: (Vendor, seq<UsbCall>))
    requires VendorOk(v)
    requires ep.Some? ==> ep.value.chip.Some?
    ensures VendorOk(r.0) && r.0.ofldEn == v.ofldEn && r.0.shouldSuspend == v.shouldSuspend
    ensures |r.1| <= 2
  {
    if ep.None? then (v, [])
    else
      var e := ep.value;
      var stream := StreamOf(e);
      var w := v.(audType := RecordType(v.audType, stream, e.epAttr));
      if OffloadCheck(w.ofldEn, stream) == 0 || !e.chip.value.hcdDriver then (w, [])
      else (w, AdaptiveCalls(e, action))
  }

  /**
   * usb_offload_ep_action records the endpoint's synchronisation type for
   * its direction (and only there, and only when the type is known),
   * whether or not offload is on; it changes nothing else in
   * `vendor_audio`. It configures adaptive mode only when offload is on in
   * that direction and the host controller has a driver — with the
   * endpoint's number, 48 kHz and start/stop — and then waits 20 ms only
   * for the capture endpoint of the quirky product.
   */
  lemma EpActionBehaviour(v: Vendor, ep: Option<Endpoint>, action: bool)
    requires VendorOk(v)
    requires ep.Some? ==> ep.value.chip.Some?
    ensures var (w, calls) := EpActionSpec(v, ep, action);
      && VendorOk(w)
      && w.ofldEn == v.ofldEn && w.shouldSuspend == v.shouldSuspend
      && (ep.None? ==> w == v && calls == [])
      && (ep.Some? ==>
            var e := ep.value;
            var s := StreamOf(e);
            && w.audType[1 - s] == v.audType[1 - s]
            && w.audType[s] == (if SyncTypeOf(e.epAttr).Some? then SyncTypeOf(e.epAttr).value else v.audType[s])
            && (calls != [] <==> v.ofldEn[s] != 0 && e.chip.value.hcdDriver)
            && (calls != [] ==>
                  && calls[0] == AdaptiveConfig(e.epNum, ADAPTIVE_RATE, action)
                  && (|calls| == 2 <==> e.pipeIn && e.chip.value.idProduct == QUIRK_PRODUCT_ID)
                  && (|calls| == 2 ==> calls[1] == Mdelay(QUIRK_DELAY_MS))
                  && |calls| <= 2))
  {
  }

  /** sprd_usb_aud_ofld_en: the raw flag of a valid direction of an existing chip, else 0. */
  function AudOfldEn(ofldEn: seq<int>, chip: bool, stream: int): (r: int)
    requires FlagsOk(ofldEn)
    ensures r != 0 <==> chip && OffloadCheck(ofldEn, stream) == 1
  {
    if stream != SNDRV_PCM_STREAM_PLAYBACK && stream != SNDRV_PCM_STREAM_CAPTURE then 0
    else if !chip then 0
    else ofldEn[stream]
  }

  /**
   * sprd_ofld_synctype_ignore: every path returns 0 — the adaptive
   * controller accepts every synchronisation type.
   */
  function SynctypeIgnore(ofldEn: seq<int>, chip: bool, stream: int, attr: int): (r: int)
    requires FlagsOk(ofldEn)
    ensures r == 0
  {
    if AudOfldEn(ofldEn, chip, stream) == 0 then 0
    else if attr != USB_ENDPOINT_SYNC_SYNC as int then 0
    else 0
  }

  /** usb_offload_synctype_ignore: the value it stores through `need_ignore`. */
  function NeedIgnore(ofldEn: seq<int>, chip: bool, direction: int, attr: int): (needIgnore: bool)
    requires FlagsOk(ofldEn)
  {
    SynctypeIgnore(ofldEn, chip, direction, attr) != 0
  }

  /** With the adaptive driver no audio format is ever ignored, offload or not. */
  lemma NeedIgnoreNever(ofldEn: seq<int>, chip: bool, direction: int, attr: int)
    requires FlagsOk(ofldEn)
    ensures !NeedIgnore(ofldEn, chip, direction, attr)
  {
  }

  /** usb_offload_suspend: the new value of `*suspend`. */
  function SuspendSpec(ofldEn: seq<int>, stream: int, cmd: int, suspend: bool): (r: bool)
    requires FlagsOk(ofldEn)
    ensures r ==> suspend
  {
    if OffloadCheck(ofldEn, stream) == 1 && cmd == SNDRV_PCM_TRIGGER_SUSPEND then false else suspend
  }

  /**
   * usb_offload_suspend only ever clears `*suspend`, and clears it exactly
   * for a SUSPEND trigger on a direction with offload on: an offloaded
   * stream keeps running across system suspend, every other stream is
   * left to the USB audio core's decision.
   */
  lemma SuspendBehaviour(ofldEn: seq<int>, stream: int, cmd: int, suspend: bool)
    requires FlagsOk(ofldEn)
    ensures var r := SuspendSpec(ofldEn, stream, cmd, suspend);
      && (r ==> suspend)
      && (suspend ==> (!r <==> cmd == SNDRV_PCM_TRIGGER_SUSPEND && OffloadCheck(ofldEn, stream) == 1))
  {
  }

  /** usb_offload_add_ctrl: both flags cleared, suspend mode 1, types kept, then the controls are added. */
  function AddCtrlSpec(v: Vendor, chip: bool, addRet: nat -> int): (r: (Vendor, seq<UsbCall>))
    ensures FlagsOk(r.0.ofldEn) && r.0.audType == v.audType
    ensures |r.1| <= |CONTROLS|
  {
    (Vendor([0, 0], 1, v.audType), ControlAddSpec(chip, CONTROLS, addRet).calls)
  }

  /**
   * After a device connects, offload is off in both directions — no
   * endpoint is configured, no suspend is overridden — and the suspend
   * mode reads 1; the recorded synchronisation types survive from the
   * previous device.
   */
  lemma AddCtrlResets(v: Vendor, chip: bool, addRet: nat -> int, ep: Option<Endpoint>, action: bool,
                      stream: int, cmd: int, suspend: bool)
    requires VendorOk(v)
    requires ep.Some? ==> ep.value.chip.Some?
    ensures var (w, _) := AddCtrlSpec(v, chip, addRet);
      && VendorOk(w) && w.audType == v.audType
      && OffloadCheck(w.ofldEn, stream) == 0
      && EpActionSpec(w, ep, action).1 == []
      && SuspendSpec(w.ofldEn, stream, cmd, suspend) == suspend
      && ShouldSuspendGetSpec(w.shouldSuspend, chip).value == (if chip then Some(1) else None)
  {
    var (w, _) := AddCtrlSpec(v, chip, addRet);
    EpActionBehaviour(w, ep, action);
  }

  /** The driver's `vendor_audio`. */
  class AdaptiveAudio {
    var usbAudOfldEn: seq<int>
    var usbAudShouldSuspend: int
    var usbAudType: seq<AudType>
    var calls: seq<UsbCall>

    function View(): Vendor
      reads this
    {
      Vendor(usbAudOfldEn, usbAudShouldSuspend, usbAudType)
    }

    ghost predicate Valid()
      reads this
    {
      VendorOk(View()) && I32_MIN <= usbAudShouldSuspend <= I32_MAX
    }

    /** The zero-initialised static. */
    constructor ()
      ensures Valid() && View() == Vendor([0, 0], 0, [Sync, Sync]) && calls == []
    {
      usbAudOfldEn := [0, 0];
      usbAudShouldSuspend := 0;
      usbAudType := [Sync, Sync];
      calls := [];
    }

    /** snd_vendor_audio_offload: the raw flag, which the offload check reads. */
    function VendorAudioOffload(stream: int): (r: int)
      reads this
      requires Valid() && 0 <= stream <= SNDRV_PCM_STREAM_LAST
      ensures r != 0 <==> OffloadCheck(usbAudOfldEn, stream) == 1
    {
      usbAudOfldEn[stream]
    }

    /** usb_offload_ep_action */
    method EpAction(ep: Option<Endpoint>, action: bool)
      requires Valid()
      requires ep.Some? ==> ep.value.chip.Some?
      modifies this
      ensures Valid()
      ensures var (w, added) := EpActionSpec(old(View()), ep, action);
        View() == w && calls == old(calls) + added
    {
      if ep.Some? {
        var e := ep.value;
        var idProduct := e.chip.value.idProduct;
        var stream := if e.pipeIn then SNDRV_PCM_STREAM_CAPTURE else SNDRV_PCM_STREAM_PLAYBACK;
        var syncType := e.epAttr & USB_ENDPOINT_SYNCTYPE;
        if syncType == USB_ENDPOINT_SYNC_SYNC {
          usbAudType := usbAudType[stream := Sync];
        } else if syncType == USB_ENDPOINT_SYNC_ADAPTIVE {
          usbAudType := usbAudType[stream := Adaptive];
        } else if syncType == USB_ENDPOINT_SYNC_ASYNC {
          usbAudType := usbAudType[stream := Async];
        }
        var isOffloadMod := OffloadCheck(usbAudOfldEn, stream);
        if isOffloadMod != 0 {
          if !e.chip.value.hcdDriver {
            return;
          }
          calls := calls + [AdaptiveConfig(e.epNum, ADAPTIVE_RATE, action)];
          if stream == SNDRV_PCM_STREAM_CAPTURE && idProduct == QUIRK_PRODUCT_ID {
            calls := calls + [Mdelay(QUIRK_DELAY_MS)];
          }
        }
      }
    }

    /** sprd_usb_offload_enable_get */
    function EnableGet(chip: bool, stream: int): (r: CtlRead)
      reads this
      requires Valid() && 0 <= stream
      ensures r.value.Some? ==> chip && OffloadCheck(usbAudOfldEn, stream) == (if r.value.value != 0 then 1 else 0)
    {
      EnableGetSpec(usbAudOfldEn, chip, stream)
    }

    /** sprd_usb_offload_enable_put */
    method EnablePut(chip: bool, stream: int, max: int, value: int) returns (ret: int)
      requires Valid() && 0 <= stream
      modifies this
      ensures Valid() && calls == old(calls)
      ensures usbAudShouldSuspend == old(usbAudShouldSuspend) && usbAudType == old(usbAudType)
      ensures PutResult(ret, usbAudOfldEn) == EnablePutSpec(old(usbAudOfldEn), chip, stream, max, value)
    {
      if !chip {
        return 0;
      }
      if stream > SNDRV_PCM_STREAM_LAST {
        return 0;
      }
      var val := CtlValue(value);
      if val > max {
        return -EINVAL;
      }
      usbAudOfldEn := usbAudOfldEn[stream := val];
      ret := 0;
    }

    /** sprd_usb_should_suspend_get */
    function ShouldSuspendGet(chip: bool): (r: CtlRead)
      reads this
      ensures r.value.Some? ==> r.value.value == usbAudShouldSuspend
    {
      ShouldSuspendGetSpec(usbAudShouldSuspend, chip)
    }

    /** sprd_usb_should_suspend_put; the mode goes to musb_set_adaptive_mode. */
    method ShouldSuspendPut(chip: Option<UsbChip>, max: int, value: int) returns (ret: int)
      requires Valid()
      modifies this
      ensures Valid() && usbAudOfldEn == old(usbAudOfldEn) && usbAudType == old(usbAudType)
      ensures var r := ShouldSuspendPutSpec(old(usbAudShouldSuspend), chip, max, value);
        && ret == r.ret && usbAudShouldSuspend == r.shouldSuspend
        && calls == old(calls) + (if r.setMode.Some? then [SetAdaptiveMode(r.setMode.value)] else [])
    {
      if chip.None? || !chip.value.busOk {
        return -EINVAL;
      }
      var val := CtlValue(value);
      if val > max {
        return -EINVAL;
      }
      usbAudShouldSuspend := val;
      if !chip.value.hcdDriver {
        return -EINVAL;
      }
      calls := calls + [SetAdaptiveMode(usbAudShouldSuspend)];
      ret := 0;
    }

    /** sprd_usb_playback_type_get: the type last recorded for playback, with no chip check. */
    function PlaybackTypeGet(): (r: CtlRead)
      reads this
      requires Valid()
      ensures r.ret == 0 && r.value.Some?
      ensures AudTypeValue(usbAudType[SNDRV_PCM_STREAM_PLAYBACK]) == r.value.value
    {
      CtlRead(0, Some(AudTypeValue(usbAudType[SNDRV_PCM_STREAM_PLAYBACK])))
    }

    /** sprd_usb_capture_type_get: the type last recorded for capture, with no chip check. */
    function CaptureTypeGet(): (r: CtlRead)
      reads this
      requires Valid()
      ensures r.ret == 0 && r.value.Some?
      ensures AudTypeValue(usbAudType[SNDRV_PCM_STREAM_CAPTURE]) == r.value.value
    {
      CtlRead(0, Some(AudTypeValue(usbAudType[SNDRV_PCM_STREAM_CAPTURE])))
    }

    /** usb_offload_add_ctrl */
    method AddCtrl(chip: bool, addRet: nat -> int)
      requires Valid()
      modifies this
      ensures Valid()
      ensures var (w, added) := AddCtrlSpec(old(View()), chip, addRet);
        View() == w && calls == old(calls) + added
    {
      usbAudOfldEn := usbAudOfldEn[SNDRV_PCM_STREAM_PLAYBACK := 0];
      usbAudOfldEn := usbAudOfldEn[SNDRV_PCM_STREAM_CAPTURE := 0];
      usbAudShouldSuspend := 1;
      var ret, added := ControlAdd(chip, CONTROLS, addRet);
      calls := calls + added;
    }

    /** usb_offload_synctype_ignore */
    method SynctypeIgnoreHook(chip: bool, direction: int, attr: int) returns (needIgnore: bool)
      requires Valid()
      ensures !needIgnore
    {
      var ignore := SynctypeIgnore(usbAudOfldEn, chip, direction, attr);
      if ignore != 0 {
        needIgnore := true;
      } else {
        needIgnore := false;
      }
    }

    /** usb_offload_suspend */
    method Suspend(stream: int, cmd: int, suspend: bool) returns (suspendOut: bool)
      requires Valid()
      ensures suspendOut == SuspendSpec(usbAudOfldEn, stream, cmd, suspend)
    {
      suspendOut := suspend;
      var isOffloadMod := OffloadCheck(usbAudOfldEn, stream);
      if isOffloadMod != 0 && cmd == SNDRV_PCM_TRIGGER_SUSPEND {
        suspendOut := false;
      }
    }
  }

  /**
   * The type controls report what the last endpoint action recorded: after
   * ep_action on an endpoint with a known synchronisation type, the
   * control of its direction reads that type's value.
   */
  lemma EpActionThenTypeGet(v: Vendor, e: Endpoint, action: bool)
    requires VendorOk(v) && e.chip.Some? && SyncTypeOf(e.epAttr).Some?
    ensures EpActionSpec(v, Some(e), action).0.audType[StreamOf(e)] == SyncTypeOf(e.epAttr).value
  {
  }
}
