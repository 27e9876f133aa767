/**
 * AGDSP power domain: the access gate that keeps the audio co-processor
 * (AGCP) awake while the application processor (AP) uses its registers.
 *
 * Hardware is an oracle: every `regmap_read` is a `RegRead` supplied by
 * the caller (the poll loop reads from a function of the read number).
 * Writes the driver performs on the outside world (regmap updates, cache
 * mode switches, mailbox messages) are appended to an event log. The
 * spinlock is not modelled: each power call is one atomic step.
 */
module AgdspPd {
  import opened Kernel

  /** Bound of the wake-up poll loop. */
  const TRY_CNT_MAX: nat := 1000000
  /** Length of the mailbox TX queue (`MBOX_TX_QUEUE_LEN` of the mailbox framework). */
  const MBOX_TX_QUEUE_LEN: nat := 20
  /** The wake mail: an invalid command that only wakes the DSP. */
  const WAKE_MAIL: int := 100

  /** `enum adsp_state`: the power-state field reads 0 once power-up finished. */
  const PD_WAKEUP_STATE: bv32 := 0
  /** `enum adcp_state`: the sleep-status field of an awake, locked subsystem. */
  const WAKEUP_LOCK_STATE: bv32 := 6

  // IPC message types (<linux/sipc.h>) and the flags of the access-init handshake
  const SMSG_TYPE_OPEN: int := 1
  const SMSG_TYPE_CMD: int := 5
  const SMSG_TYPE_DONE: int := 6
  const SMSG_CMD_AGDSP_ACCESS_INIT: int := 0x0001
  const SMSG_DONE_AGDSP_ACCESS_INIT: int := 0x0002

  /* ---------------------------------------------------------------------
   * Register field decode: (val & mask) >> (ffs(mask) - 1)
   * ------------------------------------------------------------------- */

  /**
   * `(v & m) >> (ffs(m) - 1)` computed as the source's shift does it one
   * bit at a time: value and mask move down together until the mask's
   * lowest set bit reaches bit 0 (at most 32 steps; a zero mask stops at once).
   */
  function Align(v: bv32, m: bv32, n: nat): bv32
  {
    if n == 0 || m == 0 || m & 1 == 1 then v else Align(v >> 1, m >> 1, n - 1)
  }

  /** `v` only has bits inside `m`. */
  predicate Within(v: bv32, m: bv32)
  {
    v & m == v
  }

  lemma ShiftDown(v: bv32, m: bv32) returns (v': bv32, m': bv32)
    requires Within(v, m) && m & 1 == 0
    ensures v' == v >> 1 && m' == m >> 1
    ensures Within(v', m')
    ensures v' == 0 <==> v == 0
  {
    v', m' := v >> 1, m >> 1;
  }

  /** Shifting a masked value down below its mask loses no set bit. */
  lemma {:induction false} AlignZero(v: bv32, m: bv32, n: nat)
    requires Within(v, m)
    ensures Align(v, m, n) == 0 <==> v == 0
  {
    if !(n == 0 || m == 0 || m & 1 == 1) {
      var v', m' := ShiftDown(v, m);
      AlignZero(v', m', n - 1);
    }
  }

  /** No bit of `m` is set in `v`. */
  predicate Clear(v: bv32, m: bv32)
  {
    v & m == 0
  }

  /**
   * The field of `val` selected by `mask`, shifted down to bit 0. A zero
   * mask (register descriptor absent from the device tree, left zero by
   * kzalloc) selects nothing; C's shift count would then be -1, which C
   * leaves undefined, and the model takes the masked value 0.
   */
  function DecodeField(val: bv32, mask: bv32): (r: bv32)
    ensures r == 0 <==> Clear(val, mask)
  {
    AlignZero(val & mask, mask, 32);
    Align(val & mask, mask, 32)
  }

  /* ---------------------------------------------------------------------
   * Configuration, hardware oracle and event log
   * ------------------------------------------------------------------- */

  /** One `regmap_read`: its return code and the value it produced. */
  datatype RegRead = RegRead(ret: int, val: bv32)

  /** The masks resolved from the device tree at initialisation. */
  datatype Masks = Masks(
    accessEna: bv32,     // ap_access_ena_mask
    deepSleep: bv32,     // audcp_pmu_sleep_ctrl_deepslp_mask
    slpStatus: bv32,     // audcp_pmu_slp_status_mask
    sysSlpState: bv32,   // audcp_pmu_sys_slp_state_mask (pwr_status4)
    slpState: bv32)      // audcp_pmu_slp_state_mask (pwr_status3)

  /** The four optional register maps whose cache mode the gate switches. */
  datatype CacheMap = AgcpGlb | ClkRf | DvfsApbRf | AgcpApb

  datatype Event =
    | EnableBitUpdate(enable: bool)            // regmap_update_bits on the AP access-enable bit
    | MboxSend(slot: int, value: int)          // mbox_send_message(&msg_val[slot]) with msg_val[slot] == value
    | MboxTxDone                               // mbox_chan_txdone
    | CacheOnly(regmap: CacheMap, on: bool)    // regcache_cache_only(regmap, on)

  /** What the power calls read but never change. */
  datatype Config = Config(ready: bool, hasState: bool, auto: bool, masks: Masks, present: set<CacheMap>)

  /** What the power calls change, besides the event log. */
  datatype Gate = Gate(apCnt: int, cpCnt: int, msgIndex: int, cacheOnly: set<CacheMap>)

  /** The register reads pw_on may perform. */
  datatype PowerOnHw = PowerOnHw(updateRet: int, enableRead: RegRead, poll: nat -> RegRead)

  datatype Outcome = Outcome(ret: int, gate: Gate, events: seq<Event>)

  /** The invariant the gate keeps: the count is never negative and msg_index indexes the ring. */
  predicate GateOk(cfg: Config, g: Gate)
  {
    g.apCnt >= 0 && 0 <= g.msgIndex < MBOX_TX_QUEUE_LEN && g.cacheOnly <= cfg.present
  }

  /* ---------------------------------------------------------------------
   * Register-cache switch
   * ------------------------------------------------------------------- */

  function SwitchOne(m: CacheMap, present: set<CacheMap>, on: bool): seq<Event>
  {
    if m in present then [CacheOnly(m, on)] else []
  }

  /** The cache-mode calls for every present map, in the order glb, clk_rf, dvfs_apb_rf, apb. */
  function CacheSwitch(present: set<CacheMap>, on: bool): seq<Event>
  {
    SwitchOne(AgcpGlb, present, on) + SwitchOne(ClkRf, present, on)
      + SwitchOne(DvfsApbRf, present, on) + SwitchOne(AgcpApb, present, on)
  }

  /** Absent maps are never touched, every present map is switched, all in the same direction. */
  lemma CacheSwitchTouchesPresentOnly(present: set<CacheMap>, on: bool)
    ensures forall e :: e in CacheSwitch(present, on) ==> e.CacheOnly? && e.regmap in present && e.on == on
    ensures forall m :: m in present ==> CacheOnly(m, on) in CacheSwitch(present, on)
  {
    forall m | m in present
      ensures CacheOnly(m, on) in CacheSwitch(present, on)
    {
      match m
      case AgcpGlb => assert CacheSwitch(present, on)[0] == CacheOnly(m, on);
      case ClkRf => assert CacheOnly(m, on) in SwitchOne(ClkRf, present, on);
      case DvfsApbRf => assert CacheOnly(m, on) in SwitchOne(DvfsApbRf, present, on);
      case AgcpApb => assert CacheOnly(m, on) in SwitchOne(AgcpApb, present, on);
    }
  }

  /** The four maps are all there is: a set of them is the union of its four possible members. */
  lemma AllCacheMaps(present: set<CacheMap>)
    ensures present == (present * {AgcpGlb}) + (present * {ClkRf}) + (present * {DvfsApbRf}) + (present * {AgcpApb})
  {
    forall m | m in present
      ensures m in (present * {AgcpGlb}) + (present * {ClkRf}) + (present * {DvfsApbRf}) + (present * {AgcpApb})
    {
      match m
      case AgcpGlb =>
      case ClkRf =>
      case DvfsApbRf =>
      case AgcpApb =>
    }
  }

  /* ---------------------------------------------------------------------
   * Mailbox slot and wake-up poll
   * ------------------------------------------------------------------- */

  /** `msg_index++; if (msg_index >= MBOX_TX_QUEUE_LEN) msg_index = 0;` */
  function NextMsgIndex(i: int): (r: int)
    ensures 0 <= i < MBOX_TX_QUEUE_LEN ==> r == (i + 1) % MBOX_TX_QUEUE_LEN
    ensures i >= -1 ==> 0 <= r < MBOX_TX_QUEUE_LEN
  {
    if i + 1 >= MBOX_TX_QUEUE_LEN then 0 else i + 1
  }

  /** A poll read ends the loop: the read failed, or the power-state field reads PD_WAKEUP_STATE. */
  predicate PollStops(r: RegRead, mask: bv32)
  {
    r.ret != 0 || DecodeField(r.val, mask) == PD_WAKEUP_STATE
  }

  /** The number of reads the do-while loop performs, `done` reads having been made without stopping it. */
  function PollCount(read: nat -> RegRead, mask: bv32, done: nat): (cnt: nat)
    requires done < TRY_CNT_MAX
    ensures done < cnt <= TRY_CNT_MAX
    decreases TRY_CNT_MAX - done
  {
    if PollStops(read(done), mask) || done + 1 == TRY_CNT_MAX then done + 1
    else PollCount(read, mask, done + 1)
  }

  /** The loop stops at the first stopping read, and only there, or after TRY_CNT_MAX reads. */
  lemma {:induction false} PollCountIsFirstStop(read: nat -> RegRead, mask: bv32, done: nat)
    requires done < TRY_CNT_MAX
    ensures forall k :: done <= k < PollCount(read, mask, done) - 1 ==> !PollStops(read(k), mask)
    ensures PollCount(read, mask, done) < TRY_CNT_MAX ==> PollStops(read(PollCount(read, mask, done) - 1), mask)
    decreases TRY_CNT_MAX - done
  {
    if !(PollStops(read(done), mask) || done + 1 == TRY_CNT_MAX) {
      PollCountIsFirstStop(read, mask, done + 1);
    }
  }

  /**
   * The poll loop reaches its bound exactly when none of the first
   * TRY_CNT_MAX - 1 reads stops it: whatever the last read returns,
   * success included, the caller sees a timeout.
   */
  lemma PollTimesOutIffNoEarlyStop(read: nat -> RegRead, mask: bv32)
    ensures PollCount(read, mask, 0) == TRY_CNT_MAX
        <==> forall k :: 0 <= k < TRY_CNT_MAX - 1 ==> !PollStops(read(k), mask)
  {
    PollCountIsFirstStop(read, mask, 0);
  }

  /**
   * The wake-up poll of sprd_agdsp_pw_on: read the power-state register
   * until it fails, reports PD_WAKEUP_STATE, or TRY_CNT_MAX reads were made.
   * Returns the number of reads and the return code of the last one.
   */
  method PollPowerState(read: nat -> RegRead, mask: bv32) returns (cnt: nat, ret: int)
    ensures 1 <= cnt <= TRY_CNT_MAX
    ensures cnt == PollCount(read, mask, 0)
    ensures ret == read(cnt - 1).ret
    ensures forall k :: 0 <= k < cnt - 1 ==> !PollStops(read(k), mask)
    ensures cnt < TRY_CNT_MAX ==> PollStops(read(cnt - 1), mask)
  {
    PollCountIsFirstStop(read, mask, 0);
    cnt := 0;
    ret := 0;
    var stop := false;
    while !stop
      invariant 0 <= cnt <= TRY_CNT_MAX
      invariant !stop ==> cnt < TRY_CNT_MAX && PollCount(read, mask, cnt) == PollCount(read, mask, 0)
      invariant stop ==> 1 <= cnt && cnt == PollCount(read, mask, 0) && ret == read(cnt - 1).ret
      decreases TRY_CNT_MAX - cnt, !stop
    {
      cnt := cnt + 1;
      var r := read(cnt - 1);
      ret := r.ret;
      if ret != 0 {
        stop := true;
      } else if DecodeField(r.val, mask) == PD_WAKEUP_STATE {
        stop := true;
      } else if cnt >= TRY_CNT_MAX {
        stop := true;
      }
    }
  }

  /* ---------------------------------------------------------------------
   * sprd_agdsp_pw_on / sprd_agdsp_pw_off as functions of the state
   * ------------------------------------------------------------------- */

  /** Non-auto mode: the access-enable bit could not be set, or did not read back set. */
  predicate EnableFails(cfg: Config, hw: PowerOnHw)
  {
    !cfg.auto
    && (hw.updateRet != 0 || hw.enableRead.ret != 0 || Clear(hw.enableRead.val, cfg.masks.accessEna))
  }

  /** The critical section of pw_on: its return code, the new count and slot, and what it wrote. */
  datatype Locked = Locked(ret: int, apCnt: int, msgIndex: int, events: seq<Event>)

  function PowerOnLocked(cfg: Config, g: Gate, hw: PowerOnHw): (l: Locked)
    ensures l.apCnt == g.apCnt || l.apCnt == g.apCnt + 1
    ensures l.apCnt == g.apCnt ==> l.ret == -EINVAL || l.ret == -EBUSY
    ensures l.msgIndex != g.msgIndex ==> g.apCnt == 0
  {
    var enable := if cfg.auto then [] else [EnableBitUpdate(true)];
    if EnableFails(cfg, hw) then Locked(-EINVAL, g.apCnt, g.msgIndex, enable)
    else if g.apCnt != 0 then Locked(0, g.apCnt + 1, g.msgIndex, enable)
    else
      var wake := enable + [MboxSend(g.msgIndex, WAKE_MAIL), MboxTxDone];
      var cnt := PollCount(hw.poll, cfg.masks.sysSlpState, 0);
      if cnt == TRY_CNT_MAX then Locked(-EBUSY, g.apCnt, NextMsgIndex(g.msgIndex), wake)
      else Locked(hw.poll(cnt - 1).ret, g.apCnt + 1, NextMsgIndex(g.msgIndex), wake)
  }

  /** sprd_agdsp_pw_on: the entry check, the critical section, then every present map reads live hardware. */
  function PowerOnSpec(cfg: Config, g: Gate, hw: PowerOnHw): (o: Outcome)
    ensures o.gate.cpCnt == g.cpCnt
    ensures cfg.ready && cfg.hasState ==> o.gate.cacheOnly !! cfg.present
  {
    if !cfg.ready || !cfg.hasState then Outcome(-EPROBE_DEFER, g, [])
    else
      var l := PowerOnLocked(cfg, g, hw);
      Outcome(l.ret, Gate(l.apCnt, g.cpCnt, l.msgIndex, g.cacheOnly - cfg.present),
              l.events + CacheSwitch(cfg.present, false))
  }

  /** sprd_agdsp_pw_off: the entry check, every present map cache-only, then the floored decrement. */
  function PowerOffSpec(cfg: Config, g: Gate): (o: Outcome)
    ensures o.ret == 0 <==> cfg.ready && cfg.hasState
    ensures o.gate.cpCnt == g.cpCnt && o.gate.msgIndex == g.msgIndex
    ensures o.ret == 0 ==> cfg.present <= o.gate.cacheOnly
  {
    if !cfg.ready || !cfg.hasState then Outcome(-EINVAL, g, [])
    else
      var cnt := if g.apCnt > 0 then g.apCnt - 1 else g.apCnt;
      var clear := if !cfg.auto && cnt == 0 then [EnableBitUpdate(false)] else [];
      Outcome(0, g.(apCnt := cnt, cacheOnly := g.cacheOnly + cfg.present), CacheSwitch(cfg.present, true) + clear)
  }

  /** Every power call keeps the gate invariant and leaves the DSP's own count alone. */
  lemma PowerCallsKeepGate(cfg: Config, g: Gate, hw: PowerOnHw)
    requires GateOk(cfg, g)
    ensures GateOk(cfg, PowerOnSpec(cfg, g, hw).gate) && PowerOnSpec(cfg, g, hw).gate.cpCnt == g.cpCnt
    ensures GateOk(cfg, PowerOffSpec(cfg, g).gate) && PowerOffSpec(cfg, g).gate.cpCnt == g.cpCnt
  {
  }

  /** Not ready, or no shared state: -EPROBE_DEFER, no mail, no register access, nothing changed. */
  lemma PowerOnUnreadyDefers(cfg: Config, g: Gate, hw: PowerOnHw)
    requires !cfg.ready || !cfg.hasState
    ensures PowerOnSpec(cfg, g, hw) == Outcome(-EPROBE_DEFER, g, [])
  {
  }

  /**
   * Non-auto mode: when the enable bit cannot be set or does not stick, pw_on
   * returns -EINVAL without mail, without polling and without counting.
   */
  lemma PowerOnEnableFailure(cfg: Config, g: Gate, hw: PowerOnHw)
    requires cfg.ready && cfg.hasState && EnableFails(cfg, hw)
    ensures var o := PowerOnSpec(cfg, g, hw);
      o.ret == -EINVAL && o.gate.apCnt == g.apCnt && o.gate.msgIndex == g.msgIndex
      && forall e :: e in o.events ==> !e.MboxSend?
  {
    CacheSwitchTouchesPresentOnly(cfg.present, false);
  }

  /** The wake mail is sent only on the 0 -> 1 transition, and each mail advances msg_index around the ring. */
  lemma PowerOnWakesOnlyFromZero(cfg: Config, g: Gate, hw: PowerOnHw)
    requires GateOk(cfg, g)
    ensures var o := PowerOnSpec(cfg, g, hw);
      (exists e :: e in o.events && e.MboxSend?) <==> cfg.ready && cfg.hasState && !EnableFails(cfg, hw) && g.apCnt == 0
    ensures var o := PowerOnSpec(cfg, g, hw);
      MboxSend(g.msgIndex, WAKE_MAIL) in o.events ==> o.gate.msgIndex == (g.msgIndex + 1) % MBOX_TX_QUEUE_LEN
    ensures var o := PowerOnSpec(cfg, g, hw);
      (forall e :: e in o.events ==> !e.MboxSend?) ==> o.gate.msgIndex == g.msgIndex
  {
    CacheSwitchTouchesPresentOnly(cfg.present, false);
    var o := PowerOnSpec(cfg, g, hw);
    if cfg.ready && cfg.hasState && !EnableFails(cfg, hw) && g.apCnt == 0 {
      var enable := if cfg.auto then [] else [EnableBitUpdate(true)];
      assert PowerOnLocked(cfg, g, hw).events[|enable|] == MboxSend(g.msgIndex, WAKE_MAIL);
      assert o.events[|enable|] == MboxSend(g.msgIndex, WAKE_MAIL);
    }
  }

  /**
   * On the 0 -> 1 path the result is decided by the poll: -EBUSY with the
   * count unchanged exactly when TRY_CNT_MAX reads were made (even if the
   * last one reported the wake-up state); otherwise the count goes up by
   * one and the return code is that of the last read, an error included.
   */
  lemma PowerOnPollOutcome(cfg: Config, g: Gate, hw: PowerOnHw)
    requires cfg.ready && cfg.hasState && !EnableFails(cfg, hw) && g.apCnt == 0
    ensures var o := PowerOnSpec(cfg, g, hw);
      var cnt := PollCount(hw.poll, cfg.masks.sysSlpState, 0);
      && (cnt == TRY_CNT_MAX ==> o.ret == -EBUSY && o.gate.apCnt == 0)
      && (cnt < TRY_CNT_MAX ==>
            o.gate.apCnt == 1 && o.ret == hw.poll(cnt - 1).ret && PollStops(hw.poll(cnt - 1), cfg.masks.sysSlpState))
  {
    PollCountIsFirstStop(hw.poll, cfg.masks.sysSlpState, 0);
  }

  /** The timeout quirk: a wake-up seen only on the TRY_CNT_MAX-th read is still reported as -EBUSY. */
  lemma PowerOnLastReadWakeIsTimeout(cfg: Config, g: Gate, hw: PowerOnHw)
    requires cfg.ready && cfg.hasState && !EnableFails(cfg, hw) && g.apCnt == 0
    requires forall k :: 0 <= k < TRY_CNT_MAX - 1 ==> !PollStops(hw.poll(k), cfg.masks.sysSlpState)
    requires hw.poll(TRY_CNT_MAX - 1) == RegRead(0, 0)
    ensures PowerOnSpec(cfg, g, hw).ret == -EBUSY && PowerOnSpec(cfg, g, hw).gate.apCnt == 0
  {
    PollTimesOutIffNoEarlyStop(hw.poll, cfg.masks.sysSlpState);
  }

  /** The read-error quirk: a failing poll read still counts the caller in and returns the read's error. */
  lemma PowerOnPollErrorStillCounts(cfg: Config, g: Gate, hw: PowerOnHw, k: nat)
    requires cfg.ready && cfg.hasState && !EnableFails(cfg, hw) && g.apCnt == 0
    requires k < TRY_CNT_MAX - 1 && hw.poll(k).ret != 0
    requires forall j :: 0 <= j < k ==> !PollStops(hw.poll(j), cfg.masks.sysSlpState)
    ensures PowerOnSpec(cfg, g, hw).ret == hw.poll(k).ret
    ensures PowerOnSpec(cfg, g, hw).gate.apCnt == 1
  {
    PollCountIsFirstStop(hw.poll, cfg.masks.sysSlpState, 0);
  }

  /** A count already above zero is incremented without mail or polling. */
  lemma PowerOnNested(cfg: Config, g: Gate, hw: PowerOnHw)
    requires cfg.ready && cfg.hasState && !EnableFails(cfg, hw) && g.apCnt > 0
    ensures var o := PowerOnSpec(cfg, g, hw);
      o.ret == 0 && o.gate.apCnt == g.apCnt + 1 && o.gate.msgIndex == g.msgIndex
      && forall e :: e in o.events ==> !e.MboxSend?
  {
    CacheSwitchTouchesPresentOnly(cfg.present, false);
  }

  /** Every pw_on exit after the lock leaves every present cache map reading live hardware. */
  lemma PowerOnSetsCachesLive(cfg: Config, g: Gate, hw: PowerOnHw)
    requires cfg.ready && cfg.hasState && g.cacheOnly <= cfg.present
    ensures PowerOnSpec(cfg, g, hw).gate.cacheOnly == {}
    ensures var ev := PowerOnSpec(cfg, g, hw).events;
      var live := CacheSwitch(cfg.present, false);
      |live| <= |ev| && ev[|ev| - |live|..] == live
  {
  }

  /**
   * pw_off: -EINVAL when not ready; otherwise every present map goes
   * cache-only first, the count drops by one unless already zero, the
   * enable bit is cleared exactly when the new count is zero outside auto
   * mode, and the result is 0.
   */
  lemma PowerOffBehaviour(cfg: Config, g: Gate)
    requires g.apCnt >= 0
    ensures var o := PowerOffSpec(cfg, g);
      (!cfg.ready || !cfg.hasState) ==> o == Outcome(-EINVAL, g, [])
    ensures var o := PowerOffSpec(cfg, g);
      cfg.ready && cfg.hasState ==>
        && o.ret == 0
        && o.gate.apCnt == Max(g.apCnt - 1, 0)
        && o.gate.cacheOnly == g.cacheOnly + cfg.present
        && o.events[..|CacheSwitch(cfg.present, true)|] == CacheSwitch(cfg.present, true)
        && (EnableBitUpdate(false) in o.events <==> !cfg.auto && o.gate.apCnt == 0)
  {
    CacheSwitchTouchesPresentOnly(cfg.present, true);
  }

  /**
   * Two overlapping power-ons (two streams starting): only the first
   * sends the wake mail, and the count ends at 2.
   */
  lemma TwoPowerOnsWakeOnce(cfg: Config, g: Gate, hw1: PowerOnHw, hw2: PowerOnHw)
    requires GateOk(cfg, g) && cfg.ready && cfg.hasState && g.apCnt == 0
    requires !EnableFails(cfg, hw1) && !EnableFails(cfg, hw2)
    requires PollCount(hw1.poll, cfg.masks.sysSlpState, 0) < TRY_CNT_MAX
    ensures var o1 := PowerOnSpec(cfg, g, hw1);
      var o2 := PowerOnSpec(cfg, o1.gate, hw2);
      && (exists e :: e in o1.events && e.MboxSend?)
      && (forall e :: e in o2.events ==> !e.MboxSend?)
      && o2.gate.apCnt == 2
  {
    var o1 := PowerOnSpec(cfg, g, hw1);
    PowerOnWakesOnlyFromZero(cfg, g, hw1);
    PowerOnPollOutcome(cfg, g, hw1);
    PowerCallsKeepGate(cfg, g, hw1);
    PowerOnNested(cfg, o1.gate, hw2);
  }

  /** A successful power-on followed by a power-off restores the count. */
  lemma PowerOnOffRestoresCount(cfg: Config, g: Gate, hw: PowerOnHw)
    requires GateOk(cfg, g) && cfg.ready && cfg.hasState && !EnableFails(cfg, hw)
    requires g.apCnt > 0 || PollCount(hw.poll, cfg.masks.sysSlpState, 0) < TRY_CNT_MAX
    ensures PowerOffSpec(cfg, PowerOnSpec(cfg, g, hw).gate).gate.apCnt == g.apCnt
  {
    if g.apCnt == 0 {
      PowerOnPollOutcome(cfg, g, hw);
    }
  }

  /** The gate after one pw_on per element of `hws`, in order. */
  function PowerOns(cfg: Config, g: Gate, hws: seq<PowerOnHw>): Gate
    decreases |hws|
  {
    if hws == [] then g else PowerOns(cfg, PowerOnSpec(cfg, g, hws[0]).gate, hws[1..])
  }

  /** The gate after `k` pw_off calls. */
  function PowerOffs(cfg: Config, g: Gate, k: nat): Gate
    decreases k
  {
    if k == 0 then g else PowerOffs(cfg, PowerOffSpec(cfg, g).gate, k - 1)
  }

  /** Every pw_on of the sequence is counted: the access-enable succeeds and a wake from zero does not time out. */
  predicate CountedPowerOns(cfg: Config, g: Gate, hws: seq<PowerOnHw>)
  {
    (forall i :: 0 <= i < |hws| ==> !EnableFails(cfg, hws[i]))
    && (g.apCnt == 0 && hws != [] ==> PollCount(hws[0].poll, cfg.masks.sysSlpState, 0) < TRY_CNT_MAX)
  }

  /** Counted power-ons raise ap_enable_cnt by one each and keep the gate invariant. */
  lemma {:induction false} PowerOnsCount(cfg: Config, g: Gate, hws: seq<PowerOnHw>)
    requires GateOk(cfg, g) && cfg.ready && cfg.hasState && CountedPowerOns(cfg, g, hws)
    ensures GateOk(cfg, PowerOns(cfg, g, hws))
    ensures PowerOns(cfg, g, hws).apCnt == g.apCnt + |hws|
    decreases |hws|
  {
    if hws != [] {
      var g1 := PowerOnSpec(cfg, g, hws[0]).gate;
      PowerCallsKeepGate(cfg, g, hws[0]);
      if g.apCnt == 0 {
        PowerOnPollOutcome(cfg, g, hws[0]);
      } else {
        PowerOnNested(cfg, g, hws[0]);
      }
      assert g1.apCnt == g.apCnt + 1;
      assert forall i :: 0 <= i < |hws[1..]| ==> hws[1..][i] == hws[i + 1];
      PowerOnsCount(cfg, g1, hws[1..]);
    }
  }

  /** Each pw_off while the count is positive lowers it by exactly one. */
  lemma {:induction false} PowerOffsCount(cfg: Config, g: Gate, k: nat)
    requires GateOk(cfg, g) && cfg.ready && cfg.hasState && k <= g.apCnt
    ensures GateOk(cfg, PowerOffs(cfg, g, k))
    ensures PowerOffs(cfg, g, k).apCnt == g.apCnt - k
    decreases k
  {
    if k > 0 {
      PowerOffBehaviour(cfg, g);
      PowerCallsKeepGate(cfg, g, PowerOnHw(0, RegRead(0, 0), _ => RegRead(0, 0)));
      PowerOffsCount(cfg, PowerOffSpec(cfg, g).gate, k - 1);
    }
  }

  /**
   * Any well-paired run — k counted power-ons, then k power-offs — brings
   * ap_enable_cnt back to where it started. Only the last power-off can
   * clear the access-enable bit, and it does so exactly when the run
   * started from zero outside auto mode.
   */
  lemma PairedPowerCallsRestoreCount(cfg: Config, g: Gate, hws: seq<PowerOnHw>)
    requires GateOk(cfg, g) && cfg.ready && cfg.hasState && CountedPowerOns(cfg, g, hws)
    ensures PowerOffs(cfg, PowerOns(cfg, g, hws), |hws|).apCnt == g.apCnt
    ensures forall j :: 0 <= j < |hws| ==>
      ((EnableBitUpdate(false) in PowerOffSpec(cfg, PowerOffs(cfg, PowerOns(cfg, g, hws), j)).events)
       <==> (j == |hws| - 1 && g.apCnt == 0 && !cfg.auto))
  {
    var top := PowerOns(cfg, g, hws);
    PowerOnsCount(cfg, g, hws);
    PowerOffsCount(cfg, top, |hws|);
    forall j | 0 <= j < |hws|
      ensures (EnableBitUpdate(false) in PowerOffSpec(cfg, PowerOffs(cfg, top, j)).events)
              <==> (j == |hws| - 1 && g.apCnt == 0 && !cfg.auto)
    {
      PowerOffsCount(cfg, top, j);
      PowerOffBehaviour(cfg, PowerOffs(cfg, top, j));
    }
  }

  /* ---------------------------------------------------------------------
   * agdsp_can_access
   * ------------------------------------------------------------------- */

  /** The five reads of agdsp_can_access, in program order. */
  datatype AccessReads = AccessReads(enable: RegRead, sleepCtrl: RegRead, slpStatus: RegRead, pwrStatus4: RegRead, pwrStatus3: RegRead)

  /** agdsp_can_access: 1 when AGCP registers may be accessed, 0 otherwise. */
  function CanAccess(auto: bool, masks: Masks, rd: AccessReads): (r: int)
    ensures r == 0 || r == 1
    ensures r == 1 <==>
      && (auto || (rd.enable.ret == 0 && !Clear(rd.enable.val, masks.accessEna)))
      && rd.sleepCtrl.ret == 0 && Clear(rd.sleepCtrl.val, masks.deepSleep)
      && rd.slpStatus.ret == 0 && DecodeField(rd.slpStatus.val, masks.slpStatus) == WAKEUP_LOCK_STATE
      && rd.pwrStatus4.ret == 0 && Clear(rd.pwrStatus4.val, masks.sysSlpState)
      && rd.pwrStatus3.ret == 0 && Clear(rd.pwrStatus3.val, masks.slpState)
  {
    if !auto && rd.enable.ret != 0 then 0
    else if !auto && Clear(rd.enable.val, masks.accessEna) then 0
    else if rd.sleepCtrl.ret != 0 then 0
    else if !Clear(rd.sleepCtrl.val, masks.deepSleep) then 0
    else if rd.slpStatus.ret != 0 then 0
    else if DecodeField(rd.slpStatus.val, masks.slpStatus) != WAKEUP_LOCK_STATE then 0
    else if rd.pwrStatus4.ret != 0 then 0
    else if DecodeField(rd.pwrStatus4.val, masks.sysSlpState) != PD_WAKEUP_STATE then 0
    else if rd.pwrStatus3.ret != 0 then 0
    else if DecodeField(rd.pwrStatus3.val, masks.slpState) != PD_WAKEUP_STATE then 0
    else 1
  }

  /**
   * can_access and pw_on agree on "awake": a power-state value that
   * can_access accepts would end pw_on's poll at its first read, without timeout.
   */
  lemma CanAccessAgreesWithPoll(auto: bool, masks: Masks, rd: AccessReads, read: nat -> RegRead)
    requires CanAccess(auto, masks, rd) == 1
    requires read(0) == rd.pwrStatus4
    ensures PollCount(read, masks.sysSlpState, 0) == 1
  {
  }

  /* ---------------------------------------------------------------------
   * Access-init handshake: one step of agdsp_access_init_thread's loop
   * ------------------------------------------------------------------- */

  datatype Smsg = Smsg(channel: int, msgType: int, flag: int, value: int)

  datatype Reply =
    | Retry            // transport not ready: sleep and receive again
    | Ignore           // message logged and dropped
    | OpenAck          // smsg_open_ack
    | Send(msg: Smsg)  // smsg_send

  /**
   * What the thread does with the result `rval` of smsg_recv and the
   * message it received. Any CMD is answered (a wrong flag only warns).
   */
  function HandshakeStep(rval: int, recv: Smsg, channel: int, smemPhyAddr: u32, offset: u32): (r: Reply)
    ensures (rval == -EIO || rval == -ENODEV) <==> r == Retry
    ensures r == OpenAck <==> rval != -EIO && rval != -ENODEV && recv.msgType == SMSG_TYPE_OPEN
    ensures r.Send? <==> rval != -EIO && rval != -ENODEV && recv.msgType == SMSG_TYPE_CMD
    ensures r.Send? ==> r.msg == Smsg(channel, SMSG_TYPE_DONE, SMSG_DONE_AGDSP_ACCESS_INIT, ToU32(smemPhyAddr + offset))
  {
    if rval == -EIO || rval == -ENODEV then Retry
    else if recv.msgType == SMSG_TYPE_OPEN then OpenAck
    else if recv.msgType == SMSG_TYPE_CMD then
      Send(Smsg(channel, SMSG_TYPE_DONE, SMSG_DONE_AGDSP_ACCESS_INIT, ToU32(smemPhyAddr + offset)))
    else Ignore
  }

  /** The DONE payload is the shared block's address plus the offset, wrapping at 2^32. */
  lemma HandshakeDoneAddress(channel: int, smemPhyAddr: u32, offset: u32, flag: int)
    ensures HandshakeStep(0, Smsg(channel, SMSG_TYPE_CMD, flag, 0), channel, smemPhyAddr, offset).msg.value
      == if smemPhyAddr + offset < U32_MODULUS then smemPhyAddr + offset else smemPhyAddr + offset - U32_MODULUS
  {
  }

  /* ---------------------------------------------------------------------
   * Probe defaults
   * ------------------------------------------------------------------- */

  /** A u32 device-tree property: absent, present but unreadable, or present with a value. */
  datatype DtU32 = Absent | Unreadable | Present(v: u32)

  datatype ProbeSettings = ProbeSettings(offset: u32, auto: bool)

  /**
   * agdsp_pd_probe before initialisation: the DDR offset defaults to 0 but
   * an unreadable one is -EINVAL; auto access defaults to off; both
   * syscon maps must resolve.
   */
  function Probe(offsetProp: DtU32, autoProp: DtU32, agcpAhbOk: bool, pmuApbOk: bool): (r: Option<ProbeSettings>)
    ensures r.None? <==> offsetProp.Unreadable? || !agcpAhbOk || !pmuApbOk
    ensures r.Some? ==> r.value.offset == (if offsetProp.Present? then offsetProp.v else 0)
    ensures r.Some? ==> (r.value.auto <==> autoProp.Present? && autoProp.v != 0)
  {
    if offsetProp.Unreadable? then None
    else
      var offset := if offsetProp.Present? then offsetProp.v else 0;
      var auto := if autoProp.Present? then autoProp.v != 0 else false;
      if !agcpAhbOk || !pmuApbOk then None else Some(ProbeSettings(offset, auto))
  }

  /** The lock-free, nullable `g_agdsp_access` dereference at the top of pw_on, as written. */
  datatype Entry = NullDeref | Exit(code: int) | Proceed

  /**
   * The entry checks of sprd_agdsp_pw_on as written: when the debug print
   * before the null check is enabled, a missing controller is dereferenced.
   */
  function PwOnEntryAsWritten(controller: bool, debugPrint: bool, ready: bool, hasState: bool): (e: Entry)
    ensures controller ==> e != NullDeref
    ensures e == NullDeref <==> !controller && debugPrint
  {
    if debugPrint && !controller then NullDeref
    else if !controller then Exit(-EINVAL)
    else if !ready || !hasState then Exit(-EPROBE_DEFER)
    else Proceed
  }

  /** The input that shows it: no controller, debug print on. */
  lemma PwOnEntryAsWrittenDereferencesNull()
    ensures PwOnEntryAsWritten(false, true, false, false) == NullDeref
  {
  }

  /** The entry checks as intended: the null check comes first. */
  function PwOnEntry(controller: bool, ready: bool, hasState: bool): (e: Entry)
    ensures e != NullDeref
    ensures !controller ==> e == Exit(-EINVAL)
    ensures e == Proceed <==> controller && ready && hasState
    ensures controller && !(ready && hasState) ==> e == Exit(-EPROBE_DEFER)
  {
    if !controller then Exit(-EINVAL)
    else if !ready || !hasState then Exit(-EPROBE_DEFER)
    else Proceed
  }

  /* ---------------------------------------------------------------------
   * The controller
   * ------------------------------------------------------------------- */

  /** `struct agdsp_access_state`: the two counts in memory shared with the DSP. */
  class AccessState {
    var apEnableCnt: int
    var cpEnableCnt: int

    constructor ()
      ensures apEnableCnt == 0 && cpEnableCnt == 0
    {
      apEnableCnt := 0;
      cpEnableCnt := 0;
    }
  }

  /**
   * `struct agdsp_access` together with the file-scope `msg_index`, the
   * cache mode of the optional register maps and the event log.
   */
  class AgdspAccess {
    var state: AccessState?
    var ready: bool
    var autoAgcpAccess: bool
    var masks: Masks
    var present: set<CacheMap>
    var smemPhyAddr: u32
    var ddrAddrOffset: u32
    var msgIndex: int
    var cacheOnly: set<CacheMap>
    var events: seq<Event>

    function Cfg(): Config
      reads this
    {
      Config(ready, state != null, autoAgcpAccess, masks, present)
    }

    function Snapshot(): Gate
      reads this, state
    {
      if state == null then Gate(0, 0, msgIndex, cacheOnly)
      else Gate(state.apEnableCnt, state.cpEnableCnt, msgIndex, cacheOnly)
    }

    ghost predicate Valid()
      reads this, state
    {
      GateOk(Cfg(), Snapshot())
    }

    /**
     * agdsp_access_initialize reached from agdsp_pd_probe: the counts are
     * zeroed, the enable bit is cleared outside auto mode, msg_index starts
     * at 0 and the controller is ready. Allocation and thread start-up
     * succeed; their failures are `Initialize`'s concern.
     */
    constructor (auto: bool, masks: Masks, present: set<CacheMap>, smemAddr: u32, offset: u32)
      ensures Valid() && fresh(state) && state != null
      ensures Cfg() == Config(true, true, auto, masks, present)
      ensures Snapshot() == Gate(0, 0, 0, {})
      ensures smemPhyAddr == smemAddr && ddrAddrOffset == offset
      ensures events == if auto then [] else [EnableBitUpdate(false)]
    {
      this.masks := masks;
      this.present := present;
      this.autoAgcpAccess := auto;
      this.smemPhyAddr := smemAddr;
      this.ddrAddrOffset := offset;
      this.msgIndex := 0;
      this.cacheOnly := {};
      var s := new AccessState();
      this.state := s;
      this.events := if auto then [] else [EnableBitUpdate(false)];
      this.ready := true;
    }

    /** The four optional cache maps switched to `on`, absent ones skipped. */
    method SwitchCaches(on: bool)
      modifies this
      ensures events == old(events) + CacheSwitch(present, on)
      ensures cacheOnly == if on then old(cacheOnly) + present else old(cacheOnly) - present
      ensures state == old(state) && Cfg() == old(Cfg()) && msgIndex == old(msgIndex)
      ensures smemPhyAddr == old(smemPhyAddr) && ddrAddrOffset == old(ddrAddrOffset)
    {
      ghost var c0 := cacheOnly;
      SwitchOneCache(AgcpGlb, on);
      SwitchOneCache(ClkRf, on);
      SwitchOneCache(DvfsApbRf, on);
      SwitchOneCache(AgcpApb, on);
      AllCacheMaps(present);
      if on {
        assert cacheOnly == c0 + (present * {AgcpGlb}) + (present * {ClkRf}) + (present * {DvfsApbRf}) + (present * {AgcpApb});
      } else {
        assert cacheOnly == c0 - (present * {AgcpGlb}) - (present * {ClkRf}) - (present * {DvfsApbRf}) - (present * {AgcpApb});
      }
    }

    /** `if (map) regcache_cache_only(map, on);` */
    method SwitchOneCache(m: CacheMap, on: bool)
      modifies this
      ensures events == old(events) + SwitchOne(m, present, on)
      ensures cacheOnly == if on then old(cacheOnly) + (present * {m}) else old(cacheOnly) - (present * {m})
      ensures state == old(state) && Cfg() == old(Cfg()) && msgIndex == old(msgIndex)
      ensures smemPhyAddr == old(smemPhyAddr) && ddrAddrOffset == old(ddrAddrOffset)
    {
      if m in present {
        events := events + [CacheOnly(m, on)];
        cacheOnly := if on then cacheOnly + {m} else cacheOnly - {m};
      }
    }

    /** Outside auto mode: set the AP access-enable bit and read it back. */
    method EnableAccess(hw: PowerOnHw) returns (failed: bool)
      modifies this
      ensures failed == EnableFails(Cfg(), hw)
      ensures events == old(events) + (if autoAgcpAccess then [] else [EnableBitUpdate(true)])
      ensures state == old(state) && Cfg() == old(Cfg()) && cacheOnly == old(cacheOnly) && msgIndex == old(msgIndex)
      ensures smemPhyAddr == old(smemPhyAddr) && ddrAddrOffset == old(ddrAddrOffset)
    {
      failed := false;
      if !autoAgcpAccess {
        events := events + [EnableBitUpdate(true)];
        if hw.updateRet != 0 {
          failed := true;
        } else if hw.enableRead.ret != 0 {
          failed := true;
        } else if Clear(hw.enableRead.val, masks.accessEna) {
          failed := true;
        }
      }
    }

    /** The 0 -> 1 transition: mail the wake command into the next ring slot, then poll the power state. */
    method WakeDsp(hw: PowerOnHw) returns (cnt: nat, ret: int)
      modifies this
      ensures cnt == PollCount(hw.poll, masks.sysSlpState, 0) && ret == hw.poll(cnt - 1).ret
      ensures events == old(events) + [MboxSend(old(msgIndex), WAKE_MAIL), MboxTxDone]
      ensures msgIndex == NextMsgIndex(old(msgIndex))
      ensures state == old(state) && Cfg() == old(Cfg()) && cacheOnly == old(cacheOnly)
      ensures smemPhyAddr == old(smemPhyAddr) && ddrAddrOffset == old(ddrAddrOffset)
    {
      SendWakeMail();
      cnt, ret := PollPowerState(hw.poll, masks.sysSlpState);
    }

    /** The wake-up mail, sent on the next mailbox slot. */
    method SendWakeMail()
      modifies this
      ensures events == old(events) + [MboxSend(old(msgIndex), WAKE_MAIL), MboxTxDone]
      ensures msgIndex == NextMsgIndex(old(msgIndex))
      ensures state == old(state) && Cfg() == old(Cfg()) && cacheOnly == old(cacheOnly)
      ensures smemPhyAddr == old(smemPhyAddr) && ddrAddrOffset == old(ddrAddrOffset)
    {
      events := events + [MboxSend(msgIndex, WAKE_MAIL), MboxTxDone];
      msgIndex := msgIndex + 1;
      if msgIndex >= MBOX_TX_QUEUE_LEN {
        msgIndex := 0;
      }
    }

    /** The part of sprd_agdsp_pw_on under the spinlock. */
    method LockedPowerOn(hw: PowerOnHw) returns (ret: int)
      requires Valid() && ready && state != null
      modifies this, state
      ensures state == old(state) && Cfg() == old(Cfg()) && cacheOnly == old(cacheOnly)
      ensures smemPhyAddr == old(smemPhyAddr) && ddrAddrOffset == old(ddrAddrOffset)
      ensures state.cpEnableCnt == old(state.cpEnableCnt)
      ensures var l := PowerOnLocked(old(Cfg()), old(Snapshot()), hw);
        ret == l.ret && state.apEnableCnt == l.apCnt && msgIndex == l.msgIndex && events == old(events) + l.events
    {
      var failed := EnableAccess(hw);
      ret := if failed then -EINVAL else 0;
      if !failed && state.apEnableCnt == 0 {
        var cnt;
        cnt, ret := WakeDsp(hw);
        if cnt == TRY_CNT_MAX {
          ret, failed := -EBUSY, true;
        }
      }
      if !failed {
        state.apEnableCnt := state.apEnableCnt + 1;
      }
    }

    /** sprd_agdsp_pw_on for an existing controller. */
    method PowerOn(hw: PowerOnHw) returns (ret: int)
      requires Valid()
      modifies this, state
      ensures Valid() && state == old(state) && Cfg() == old(Cfg())
      ensures smemPhyAddr == old(smemPhyAddr) && ddrAddrOffset == old(ddrAddrOffset)
      ensures var o := PowerOnSpec(old(Cfg()), old(Snapshot()), hw);
        ret == o.ret && Snapshot() == o.gate && events == old(events) + o.events
    {
      if !ready || state == null {
        return -EPROBE_DEFER;
      }
      ret := LockedPowerOn(hw);
      SwitchCaches(false);
    }

    /** sprd_agdsp_pw_off for an existing controller. */
    method PowerOff() returns (ret: int)
      requires Valid()
      modifies this, state
      ensures Valid() && state == old(state) && Cfg() == old(Cfg())
      ensures smemPhyAddr == old(smemPhyAddr) && ddrAddrOffset == old(ddrAddrOffset)
      ensures var o := PowerOffSpec(old(Cfg()), old(Snapshot()));
        ret == o.ret && Snapshot() == o.gate && events == old(events) + o.events
    {
      if !ready || state == null {
        return -EINVAL;
      }
      SwitchCaches(true);
      if state.apEnableCnt > 0 {
        state.apEnableCnt := state.apEnableCnt - 1;
      }
      if !autoAgcpAccess && state.apEnableCnt == 0 {
        events := events + [EnableBitUpdate(false)];
      }
      ret := 0;
    }

    /** The DSP's reply for one received message, from the controller's address and offset. */
    function Handshake(rval: int, recv: Smsg, channel: int): (r: Reply)
      reads this
      ensures r.Send? ==> r.msg.value == ToU32(smemPhyAddr + ddrAddrOffset)
    {
      HandshakeStep(rval, recv, channel, smemPhyAddr, ddrAddrOffset)
    }
  }

  /**
   * The power-on callback as registered: the global controller may be
   * missing, in which case the null check answers -EINVAL (see
   * PwOnEntry; PwOnEntryAsWritten shows the debug-print dereference).
   */
  method PwOn(dsp: AgdspAccess?, hw: PowerOnHw) returns (ret: int)
    requires dsp != null ==> dsp.Valid()
    modifies if dsp == null then {} else {dsp}, if dsp == null || dsp.state == null then {} else {dsp.state}
    ensures dsp == null ==> ret == PwOnEntry(false, false, false).code
    ensures dsp != null ==> dsp.Valid()
    ensures dsp != null ==>
              var o := PowerOnSpec(old(dsp.Cfg()), old(dsp.Snapshot()), hw);
              ret == o.ret && dsp.Snapshot() == o.gate && dsp.events == old(dsp.events) + o.events
  {
    if dsp == null {
      ret := -EINVAL;
    } else {
      ret := dsp.PowerOn(hw);
    }
  }

  /** The power-off callback as registered: a missing controller is -EINVAL. */
  method PwOff(dsp: AgdspAccess?) returns (ret: int)
    requires dsp != null ==> dsp.Valid()
    modifies if dsp == null then {} else {dsp}, if dsp == null || dsp.state == null then {} else {dsp.state}
    ensures dsp == null ==> ret == -EINVAL
    ensures dsp != null ==> dsp.Valid()
    ensures dsp != null ==>
              var o := PowerOffSpec(old(dsp.Cfg()), old(dsp.Snapshot()));
              ret == o.ret && dsp.Snapshot() == o.gate && dsp.events == old(dsp.events) + o.events
  {
    if dsp == null {
      ret := -EINVAL;
    } else {
      ret := dsp.PowerOff();
    }
  }

  /**
   * agdsp_access_initialize's outcomes: no AGCP AHB map is -ENOMEM; no
   * counter block (neither shared nor local memory) or no handshake thread
   * is -EINVAL, the initial value of `ret`; otherwise a ready controller.
   */
  method Initialize(agcpAhbOk: bool, stateAllocOk: bool, threadOk: bool, auto: bool, masks: Masks,
                    present: set<CacheMap>, smemPhyAddr: u32, offset: u32)
    returns (dsp: AgdspAccess?, ret: int)
    ensures ret == 0 <==> dsp != null
    ensures !agcpAhbOk ==> ret == -ENOMEM
    ensures agcpAhbOk && !(stateAllocOk && threadOk) ==> ret == -EINVAL
    ensures dsp != null ==>
      && fresh(dsp) && fresh(dsp.state) && dsp.Valid()
      && dsp.smemPhyAddr == smemPhyAddr && dsp.ddrAddrOffset == offset
      && dsp.events == (if auto then [] else [EnableBitUpdate(false)])
      && dsp.Cfg() == Config(true, true, auto, masks, present)
      && dsp.Snapshot() == Gate(0, 0, 0, {})
  {
    if !agcpAhbOk {
      return null, -ENOMEM;
    }
    if !stateAllocOk || !threadOk {
      return null, -EINVAL;
    }
    dsp := new AgdspAccess(auto, masks, present, smemPhyAddr, offset);
    ret := 0;
  }
}
