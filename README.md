# AGDSP access gate, board speaker hooks and USB audio offload

This project is a Dafny model of four pieces of a vendor ALSA SoC audio
board-support layer.

* **AGDSP power-domain access control** (`agdsp_pd.dfy`, module `AgdspPd`).
  The application processor (AP) may touch the audio co-processor's clock
  and configuration registers only while the DSP is awake.
  - `ap_enable_cnt`, which lives in memory shared with the DSP, counts the
    AP's outstanding power requests.
  - Power-on from zero enables AGCP access, sends a wake mail on the next
    mailbox slot, and polls the power state at most `TRY_CNT_MAX` times.
  - Every power-on switches the register-map caches to live reads. Every
    power-off switches them back to cache-only.
  - The init thread answers the DSP's handshake with the physical address
    of the counter block.
  - Registers are oracles (`RegRead`, `nat -> RegRead`). Side effects are an
    `Event` log.
* **Board speaker/earpiece hooks** (`card_hook.dfy`, module `CardHook`).
  - The general speaker hook drives a GPIO pulse train.
  - The FS1815 I2C amplifier hook tracks the audio scene and turns the
    earpiece "virtually" off while the speaker plays.
  - Device-tree parsing binds the hooks and GPIOs. Freeing releases the
    requested GPIOs.
  - GPIO writes, GPIO requests and amplifier calls form a `HookEvent` log.
* **USB audio offload** (`usb_offload.dfy`, module `UsbOffload`).
  - Per-direction offload flags and a suspend mode are ALSA controls.
  - The endpoint start/stop hook configures the controller's offload path.
  - Audio formats whose sync type is not SYNC are ignored while offload is
    on.
* **USB audio adaptive** (`usb_adaptive.dfy`, module `UsbAdaptive`).
  - The same controls as the offload driver, plus the recorded
    synchronisation type per direction.
  - The adaptive configuration call, which has a 20 ms delay quirk for one
    capture device.
  - The PCM-suspend override.

`usb_common.dfy` (module `UsbAudio`) holds what the two USB drivers share:
- the endpoint and chip values;
- the control get/put handlers;
- the control-adding loop.

`kernel.dfy` (module `Kernel`) holds errno values, ALSA and USB constants,
and 32-bit conversions.

Stateful objects are classes with the source's fields:
- `AgdspPd.AccessState` and `AgdspPd.AgdspAccess`;
- `CardHook.HookSpkPriv`;
- `UsbOffload.VendorAudio` and `UsbAdaptive.AdaptiveAudio`.

Every method is proved against a specification function of the old state
(for example `PowerOnSpec`, `SpkI2cSpec`, `ParseSpec`, `EnablePutSpec`). The
lemmas about those functions state what the drivers promise.

## Model

| member | source | states |
|---|---|---|
| AgdspPd.DecodeField | sprd_audio/agdsp_pd/agdsp_pd.c:128-207 | The shifted-down register field is zero exactly when the value has no bit under the mask, so the "== 0" state tests read the masked bits. |
| AgdspPd.AlignZero | sprd_audio/agdsp_pd/agdsp_pd.c:128-207 | Shifting a value and its mask right while the mask's low bit is clear never changes whether the value is zero. |
| AgdspPd.CacheSwitchTouchesPresentOnly | sprd_audio/agdsp_pd/agdsp_pd.c:314-326 | The cache switch sets cache-only mode to the requested value on every register map that exists, and on nothing else. |
| AgdspPd.AllCacheMaps | sprd_audio/agdsp_pd/agdsp_pd.c:314-326 | The four per-map cache switches together cover every present register map. |
| AgdspPd.NextMsgIndex | sprd_audio/agdsp_pd/agdsp_pd.c:261-276 | The mailbox index advances by one modulo MBOX_TX_QUEUE_LEN and stays in range. |
| AgdspPd.PollCount | sprd_audio/agdsp_pd/agdsp_pd.c:278-307 | The poll loop makes at least one and at most TRY_CNT_MAX reads. |
| AgdspPd.PollCountIsFirstStop | sprd_audio/agdsp_pd/agdsp_pd.c:278-307 | The loop stops at the first read that fails or shows the wakeup state; every earlier read did neither. |
| AgdspPd.PollTimesOutIffNoEarlyStop | sprd_audio/agdsp_pd/agdsp_pd.c:278-307 | The poll uses all TRY_CNT_MAX reads exactly when none of the first TRY_CNT_MAX - 1 stops it. |
| AgdspPd.PollPowerState | sprd_audio/agdsp_pd/agdsp_pd.c:278-307 | The loop's count and last return equal PollCount: bounded, first stop, and a timeout only after no earlier stop. |
| AgdspPd.PowerCallsKeepGate | sprd_audio/agdsp_pd/agdsp_pd.c:210-381 | Power-on and power-off keep ap_enable_cnt non-negative and the msg index in range, and never change cp_enable_cnt. |
| AgdspPd.PowerOnUnreadyDefers | sprd_audio/agdsp_pd/agdsp_pd.c:225-229 | Before the handshake is ready, or without the shared state, power-on returns -EPROBE_DEFER and changes and emits nothing. |
| AgdspPd.PowerOnLocked | sprd_audio/agdsp_pd/agdsp_pd.c:231-311 | The count rises by at most one, and is left as it was only on -EINVAL or -EBUSY; the message slot moves only on a power-on from 0. Its outcomes are stated by PowerOnEnableFailure, PowerOnNested, PowerOnWakesOnlyFromZero and PowerOnPollOutcome. |
| AgdspPd.PowerOnSpec | sprd_audio/agdsp_pd/agdsp_pd.c:210-333 | cp_enable_cnt is untouched, and once past the entry check no present map stays cache-only. Its outcomes are stated by PowerOnUnreadyDefers, PowerOnPollOutcome, PowerOnSetsCachesLive and PowerCallsKeepGate. |
| AgdspPd.PowerOffSpec | sprd_audio/agdsp_pd/agdsp_pd.c:335-381 | Returns 0 exactly when ready with its shared state; cp_enable_cnt and the message slot are untouched; on success every present map is cache-only. The rest is stated by PowerOffBehaviour. |
| AgdspPd.PowerOnEnableFailure | sprd_audio/agdsp_pd/agdsp_pd.c:233-259 | A failed or ineffective access-enable gives -EINVAL, keeps the count and sends no mail. |
| AgdspPd.PowerOnWakesOnlyFromZero | sprd_audio/agdsp_pd/agdsp_pd.c:261-311 | A wake mail is sent exactly when the gate is usable and ap_enable_cnt is 0; without a mail the msg index is unchanged. |
| AgdspPd.PowerOnPollOutcome | sprd_audio/agdsp_pd/agdsp_pd.c:278-311 | From zero: a timeout returns -EBUSY with the count left at 0; an early stop counts the request and returns that read's result. |
| AgdspPd.PowerOnLastReadWakeIsTimeout | sprd_audio/agdsp_pd/agdsp_pd.c:278-307 | Even when the last allowed read shows the wakeup state, the loop declares -EBUSY, as written. |
| AgdspPd.PowerOnPollErrorStillCounts | sprd_audio/agdsp_pd/agdsp_pd.c:278-311 | A failing poll read ends the loop early and returns that error, yet the request is still counted, as written. |
| AgdspPd.PowerOnNested | sprd_audio/agdsp_pd/agdsp_pd.c:261-311 | With ap_enable_cnt > 0, power-on only increments the count, returns 0 and sends no mail. |
| AgdspPd.PowerOnSetsCachesLive | sprd_audio/agdsp_pd/agdsp_pd.c:314-326 | Once past the readiness check, every power-on leaves every register map reading live hardware. |
| AgdspPd.PowerOffBehaviour | sprd_audio/agdsp_pd/agdsp_pd.c:335-381 | Unready gives -EINVAL with no change. Otherwise: caches go cache-only first, the count drops by one but not below 0, and the access bit clears exactly when the count reaches 0 without auto access. |
| AgdspPd.TwoPowerOnsWakeOnce | sprd_audio/agdsp_pd/agdsp_pd.c:261-311 | Two successful power-ons from zero send exactly one wake mail and leave the count at 2. |
| AgdspPd.PowerOnOffRestoresCount | sprd_audio/agdsp_pd/agdsp_pd.c:210-381 | A counted power-on followed by a power-off restores ap_enable_cnt. |
| AgdspPd.PowerOnsCount | sprd_audio/agdsp_pd/agdsp_pd.c:210-381 | k counted power-ons in a row keep the gate consistent and raise ap_enable_cnt by k. |
| AgdspPd.PowerOffsCount | sprd_audio/agdsp_pd/agdsp_pd.c:210-381 | k power-offs (k at most the count) keep the gate consistent and lower ap_enable_cnt by k. |
| AgdspPd.PairedPowerCallsRestoreCount | sprd_audio/agdsp_pd/agdsp_pd.c:210-381 | k counted power-ons then k power-offs restore ap_enable_cnt; the enable bit is cleared on exactly the last power-off, and only when the count started at 0 and auto mode is off. |
| AgdspPd.CanAccess | sprd_audio/agdsp_pd/agdsp_pd.c:128-207 | Returns 1 exactly when access is enabled (or automatic), deep sleep is off, the lock is WAKEUP_LOCK and both power states are WAKEUP with every read succeeding; otherwise 0. |
| AgdspPd.CanAccessAgreesWithPoll | sprd_audio/agdsp_pd/agdsp_pd.c:128-307 | When the access check passes, the wake poll stops at its first read. |
| AgdspPd.HandshakeStep | sprd_audio/agdsp_pd/agdsp_pd.c:405-441 | -EIO/-ENODEV retry the receive. OPEN is acknowledged. Any CMD is answered with DONE carrying the 32-bit shared-memory address plus offset; a CMD with an unexpected flag only warns and is still answered. |
| AgdspPd.HandshakeDoneAddress | sprd_audio/agdsp_pd/agdsp_pd.c:420-436 | The address in the DONE reply is smem_phy_addr + ddr_addr_offset wrapped to 32 bits. |
| AgdspPd.Probe | sprd_audio/agdsp_pd/agdsp_pd.c:624-680 | Probe fails exactly on an unreadable offset or a missing syscon. The offset defaults to 0. Auto access is on exactly when the property is present and non-zero. |
| AgdspPd.PwOnEntryAsWritten | sprd_audio/agdsp_pd/agdsp_pd.c:210-229 | The entry as written dereferences a null controller whenever the debug print is enabled. |
| AgdspPd.PwOnEntryAsWrittenDereferencesNull | sprd_audio/agdsp_pd/agdsp_pd.c:218-223 | The concrete input of the finding: no controller with debug printing on. |
| AgdspPd.PwOnEntry | sprd_audio/agdsp_pd/agdsp_pd.c:210-229 | Null check first: no controller gives -EINVAL, not ready gives -EPROBE_DEFER, otherwise proceed; never a null dereference. |
| AgdspPd.AccessState.constructor | sprd_audio/agdsp_pd/agdsp_pd.c:558-575 | The shared counter block starts with both counts 0. |
| AgdspPd.AgdspAccess.constructor | sprd_audio/agdsp_pd/agdsp_pd.c:447-622 | A ready controller with zero counts, live caches and msg index 0, and the access bit cleared unless access is automatic. |
| AgdspPd.AgdspAccess.SwitchCaches | sprd_audio/agdsp_pd/agdsp_pd.c:314-326 | Appends the cache switch of every present map and updates the cache-only set; nothing else changes. |
| AgdspPd.AgdspAccess.SwitchOneCache | sprd_audio/agdsp_pd/agdsp_pd.c:314-326 | One map's switch, present maps only. |
| AgdspPd.AgdspAccess.EnableAccess | sprd_audio/agdsp_pd/agdsp_pd.c:233-259 | Reports failure exactly as EnableFails and logs the enable-bit write unless access is automatic. |
| AgdspPd.AgdspAccess.WakeDsp | sprd_audio/agdsp_pd/agdsp_pd.c:261-307 | Sends the wake mail on the current slot, advances the index and returns PollCount's count and last result. |
| AgdspPd.AgdspAccess.SendWakeMail | sprd_audio/agdsp_pd/agdsp_pd.c:261-276 | Logs the mail send on the old index and its tx-done, and advances the index with NextMsgIndex. |
| AgdspPd.AgdspAccess.LockedPowerOn | sprd_audio/agdsp_pd/agdsp_pd.c:231-311 | The locked region's return value, count, msg index and events equal PowerOnLocked; cp_enable_cnt is unchanged. |
| AgdspPd.AgdspAccess.PowerOn | sprd_audio/agdsp_pd/agdsp_pd.c:210-333 | The return value, new gate and events equal PowerOnSpec of the old state; the controller stays valid. |
| AgdspPd.AgdspAccess.PowerOff | sprd_audio/agdsp_pd/agdsp_pd.c:335-381 | The return value, new gate and events equal PowerOffSpec of the old state; the controller stays valid. |
| AgdspPd.AgdspAccess.Handshake | sprd_audio/agdsp_pd/agdsp_pd.c:405-441 | The DONE reply carries this controller's shared address plus offset. |
| AgdspPd.PwOn | sprd_audio/agdsp_pd/agdsp_pd.c:210-333 | No controller: -EINVAL. Otherwise the return value, new gate and events equal PowerOnSpec of the old state, and the controller stays valid. |
| AgdspPd.PwOff | sprd_audio/agdsp_pd/agdsp_pd.c:335-381 | No controller: -EINVAL. Otherwise the return value, new gate and events equal PowerOffSpec of the old state, and the controller stays valid. |
| AgdspPd.Initialize | sprd_audio/agdsp_pd/agdsp_pd.c:447-622 | Returns 0 exactly when a controller was made. -ENOMEM without the AGCP regmap, -EINVAL if the state or thread fails. A new controller has zero counts and the access bit cleared unless automatic. |
| CardHook.HookArr | sprd/machine/sprd_card/sprd-asoc-card-utils-hook.c:476-481 | The hook table has the general speaker hook first and the I2C hook second only on FS1815 boards; no entry is empty. |
| CardHook.ClampSense | sprd/machine/sprd_card/sprd-asoc-card-utils-hook.c:314-321 | A stored audio sense is always in range: valid values are kept, others become MUSIC. |
| CardHook.Fs1815Scene | sprd/machine/sprd_card/sprd-asoc-card-utils-hook.c:336-364 | The amplifier scene is one of the six table values, non-zero exactly for the listed senses. |
| CardHook.Fs1815SceneDistinguishes | sprd/machine/sprd_card/sprd-asoc-card-utils-hook.c:336-364 | Distinct senses never share a non-zero scene. |
| CardHook.PulsesShape | sprd/machine/sprd_card/sprd-asoc-card-utils-hook.c:228-244 | n pulse pairs are 2n writes alternating EN_LEVEL and its inverse. |
| CardHook.PulseTrainShape | sprd/machine/sprd_card/sprd-asoc-card-utils-hook.c:228-244 | A mode-m pulse train is 2*max(0, m-1)+1 alternating writes to that GPIO only, ending at EN_LEVEL. |
| CardHook.GeneralSpkBehaviour | sprd/machine/sprd_card/sprd-asoc-card-utils-hook.c:277-311 | No GPIO: -EINVAL, no write. Off: one write of 0. On: a pulse train of the on mode ending at EN_LEVEL. A private mode above GENERAL_SPK_MODE gives a single write. |
| CardHook.GeneralSpkSpec | sprd/machine/sprd_card/sprd-asoc-card-utils-hook.c:277-311 | Returns HOOK_OK or -EINVAL, and writes a GPIO exactly when it returns HOOK_OK. The writes are stated by GeneralSpkBehaviour. |
| CardHook.GeneralSpkNegativeModePulses | sprd/machine/sprd_card/sprd-asoc-card-utils-hook.c:228-311 | A mode of -1 escapes the clamp and becomes 2^32-2 pulse pairs through the unsigned conversion. |
| CardHook.Fs1815Spec | sprd/machine/sprd_card/sprd-asoc-card-utils-hook.c:366-407 | Keeps the private state well-formed; what it does is stated by Fs1815Behaviour. |
| CardHook.Fs1815Behaviour | sprd/machine/sprd_card/sprd-asoc-card-utils-hook.c:366-407 | Only function id's state and recorded sense change. On: its on mode, the sense (RCV for the earpiece in a call), and exactly two events: the scene for that sense and function, then amplifier on. Off: state 0, CLOSE, amplifier off and scene 0. |
| CardHook.Fs1815InCallScenes | sprd/machine/sprd_card/sprd-asoc-card-utils-hook.c:381-391 | During a voice or VOIP call, turning the earpiece on selects scene 15 (receiver) and turning a speaker on selects scene 1 (voice), not the VOIP scene. |
| CardHook.Fs1815SettlesNeedUpdate | sprd/machine/sprd_card/sprd-asoc-card-utils-hook.c:328-407 | After the hook (except the earpiece turned on in a voice scene), no update is pending for that function. |
| CardHook.NeedUpdateAfterSensePut | sprd/machine/sprd_card/sprd-asoc-card-utils-hook.c:314-332 | After a new audio sense is written (clamped to the valid range), a function reports a pending update exactly when its recorded sense is not CLOSE and differs from the new sense. |
| CardHook.EarToVirtual | sprd/machine/sprd_card/sprd-asoc-card-utils-hook.c:423-431 | Keeps the state well-formed; its effect in both receiver configurations, and its no-op case, are stated by EarToVirtualBehaviour. |
| CardHook.SpkSwitch | sprd/machine/sprd_card/sprd-asoc-card-utils-hook.c:433-437 | Keeps the state well-formed; its effect in both receiver configurations is stated by SpkSwitchBehaviour. |
| CardHook.EarBackOn | sprd/machine/sprd_card/sprd-asoc-card-utils-hook.c:439-446 | Keeps the state well-formed; its effect in both receiver configurations, and its no-op case, are stated by EarBackOnBehaviour. |
| CardHook.EarSwitch | sprd/machine/sprd_card/sprd-asoc-card-utils-hook.c:448-461 | Keeps the state well-formed; its effect is stated by EarSwitchBehaviour (speaker not on) and SpkI2cEarWhileSpkOn (speaker on). |
| CardHook.SpkI2cSpec | sprd/machine/sprd_card/sprd-asoc-card-utils-hook.c:409-473 | Keeps the state well-formed; its meaning is stated by SpkI2cSharedSpk1Ignored, SpkI2cEarWhileSpkOn, SpkI2cSpkOnMakesEarVirtual, SpkI2cSpkOffRestoresEar, SpkI2cKeepsSenses and the per-phase behaviour lemmas. |
| CardHook.SpkI2cSharedSpk1Ignored | sprd/machine/sprd_card/sprd-asoc-card-utils-hook.c:416-418 | With a shared receiver, the SPK1 function is ignored: no change, no event. |
| CardHook.SpkI2cEarWhileSpkOn | sprd/machine/sprd_card/sprd-asoc-card-utils-hook.c:448-461 | While the speaker is on, an earpiece request only records virtual on (-1) or off (0), with no amplifier call. |
| CardHook.SpkI2cSpkOnMakesEarVirtual | sprd/machine/sprd_card/sprd-asoc-card-utils-hook.c:421-437 | Speaker on over a really-on earpiece, in both receiver configurations: the earpiece is turned off first (amplifier off, scene 0) and left virtually on (-1, CLOSE); the speaker ends on in its mode, which with a shared receiver is taken after select_mode is cleared, and SPK1 then follows in the same way. |
| CardHook.SpkI2cSpkOffRestoresEar | sprd/machine/sprd_card/sprd-asoc-card-utils-hook.c:433-446 | Speaker off over a virtual earpiece, in both receiver configurations: the speaker is off with CLOSE, and the earpiece is really on again with its mode and recorded sense. With a shared receiver SPK1 comes back on in the earpiece's stored mode and select_mode ends 0; otherwise SPK1 and select_mode are untouched. |
| CardHook.EarToVirtualBehaviour | sprd/machine/sprd_card/sprd-asoc-card-utils-hook.c:423-431 | Only a speaker-on request over a really-on earpiece acts. Then the earpiece goes off and is marked -1 with CLOSE; with a shared receiver SPK1 also goes off after select_mode is cleared (four events), otherwise two events and select_mode unchanged. Every other function is untouched. |
| CardHook.SpkSwitchBehaviour | sprd/machine/sprd_card/sprd-asoc-card-utils-hook.c:433-437 | The speaker takes its on mode and the sense, or 0 and CLOSE. With a shared receiver SPK1 follows after select_mode is cleared; otherwise only the speaker changes. |
| CardHook.EarBackOnBehaviour | sprd/machine/sprd_card/sprd-asoc-card-utils-hook.c:439-446 | Only a speaker-off request over a virtual earpiece acts. Then the earpiece is really on with its mode and recorded sense; with a shared receiver SPK1 goes on in the earpiece's stored mode and select_mode ends 0. Every other function is untouched. |
| CardHook.EarSwitchBehaviour | sprd/machine/sprd_card/sprd-asoc-card-utils-hook.c:448-461 | With the speaker not on, the earpiece is really switched (RCV recorded in a call); with a shared receiver SPK1 follows, in the earpiece's stored mode when turned on, and select_mode ends 0. |
| CardHook.Fs1815KeepsSenses | sprd/machine/sprd_card/sprd-asoc-card-utils-hook.c:366-407 | The FS1815 hook keeps every sense in range and never changes the HAL's sense. |
| CardHook.SpkI2cKeepsSenses | sprd/machine/sprd_card/sprd-asoc-card-utils-hook.c:409-473 | The I2C hook keeps every sense in range and never changes the HAL's sense. |
| CardHook.EarToVirtualKeepsSenses | sprd/machine/sprd_card/sprd-asoc-card-utils-hook.c:423-431 | That phase keeps the senses in range. |
| CardHook.SpkSwitchKeepsSenses | sprd/machine/sprd_card/sprd-asoc-card-utils-hook.c:433-437 | That phase keeps the senses in range. |
| CardHook.EarBackOnKeepsSenses | sprd/machine/sprd_card/sprd-asoc-card-utils-hook.c:439-446 | That phase keeps the senses in range. |
| CardHook.EarSwitchKeepsSenses | sprd/machine/sprd_card/sprd-asoc-card-utils-hook.c:448-461 | That branch keeps the senses in range. |
| CardHook.SpkCount | sprd/machine/sprd_card/sprd-asoc-card-utils-hook.c:511-529 | The entry count is at most BOARD_FUNC_MAX and every counted entry lies inside the info array. |
| CardHook.ParseEntry | sprd/machine/sprd_card/sprd-asoc-card-utils-hook.c:549-621 | Keeps the state well-formed; its meaning is stated by ParseEntryWrites and ParseEntryRejectsBadCells. |
| CardHook.EntryGpio | sprd/machine/sprd_card/sprd-asoc-card-utils-hook.c:581-620 | Keeps the state well-formed; its meaning is stated by ParseShareOutOfRange and ParseShareCopiesGpio. |
| CardHook.ParseLoop | sprd/machine/sprd_card/sprd-asoc-card-utils-hook.c:549-621 | Keeps the state well-formed; its meaning is stated by ParseLoopInstalls, ParseLoopKeeps and ParseLoopSplit. |
| CardHook.ParseEntryWrites | sprd/machine/sprd_card/sprd-asoc-card-utils-hook.c:549-621 | An entry writes only its own function's hook and private data (plus GPIOs). A continuing entry had a valid type and hook, installed that hook and stored the private cell as int32. |
| CardHook.ResetSenses | sprd/machine/sprd_card/sprd-asoc-card-utils-hook.c:497-501 | Resetting leaves every sense in range. |
| CardHook.ParseSpec | sprd/machine/sprd_card/sprd-asoc-card-utils-hook.c:483-624 | Keeps the state well-formed; its meaning is stated by ParseResetsSenses, ParseRejectsRaggedInfo, ParseIicShortcut and ParseSpecRejectsBadEntry. |
| CardHook.ParseLoopKeeps | sprd/machine/sprd_card/sprd-asoc-card-utils-hook.c:549-621 | The entry loop never changes the senses, states, select mode or sharing flag. |
| CardHook.ParseResetsSenses | sprd/machine/sprd_card/sprd-asoc-card-utils-hook.c:483-624 | Whatever the outcome, parsing leaves the HAL sense at MUSIC and every recorded sense at CLOSE. |
| CardHook.ParseRejectsRaggedInfo | sprd/machine/sprd_card/sprd-asoc-card-utils-hook.c:511-529 | Without the IIC shortcut, an empty or ragged info array gives -EINVAL before any GPIO is touched. |
| CardHook.ParseIicShortcut | sprd/machine/sprd_card/sprd-asoc-card-utils-hook.c:503-509 | The extral-iic-pa shortcut binds only the speaker to the general hook, records the flag, returns 0 and touches no GPIO. |
| CardHook.ParseLoopInstalls | sprd/machine/sprd_card/sprd-asoc-card-utils-hook.c:549-621 | A successful parse had valid type and hook cells in every entry. Functions not listed are untouched. With distinct types, each listed function gets its hook and private data. |
| CardHook.ParseEntryRejectsBadCells | sprd/machine/sprd_card/sprd-asoc-card-utils-hook.c:549-571 | An entry whose type cell is not a board function, or whose hook cell is beyond the hook table, stops the parse with -EINVAL and no change or event. |
| CardHook.ParseLoopSplit | sprd/machine/sprd_card/sprd-asoc-card-utils-hook.c:549-621 | Running the entries up to j and then the rest equals running them all in one loop. |
| CardHook.ParseSpecRejectsBadEntry | sprd/machine/sprd_card/sprd-asoc-card-utils-hook.c:483-624 | A bad type or hook cell in any entry makes the whole parse fail; when the entries before it all succeed, the parse returns -EINVAL with their effects. |
| CardHook.ParseShareOutOfRange | sprd/machine/sprd_card/sprd-asoc-card-utils-hook.c:581-591 | A share-GPIO cell beyond the entry count gives -EINVAL and clears that function's hook. |
| CardHook.ParseShareCopiesGpio | sprd/machine/sprd_card/sprd-asoc-card-utils-hook.c:581-591 | A valid share cell copies the GPIO of function share-1 and requests nothing. |
| CardHook.FreeLoop | sprd/machine/sprd_card/sprd-asoc-card-utils-hook.c:672-691 | Keeps the state well-formed; its meaning is stated by FreeLoopReleases and FreeLoopFreesRequested. |
| CardHook.FreeSpec | sprd/machine/sprd_card/sprd-asoc-card-utils-hook.c:632-699 | Keeps the state well-formed; its meaning is stated by FreeReleasesListed. |
| CardHook.FreeLoopReleases | sprd/machine/sprd_card/sprd-asoc-card-utils-hook.c:672-691 | The loop only clears requested flags, changes nothing else, and on success leaves every listed function unrequested. |
| CardHook.FreeLoopFreesRequested | sprd/machine/sprd_card/sprd-asoc-card-utils-hook.c:672-691 | Every GPIO the loop frees was requested by some function. |
| CardHook.FreeReleasesListed | sprd/machine/sprd_card/sprd-asoc-card-utils-hook.c:632-699 | Ragged info gives -EINVAL with no change. Success releases every listed function. Only requested GPIOs are ever freed. |
| CardHook.HookSpkPriv.constructor | sprd/machine/sprd_card/sprd-asoc-card-utils-hook.c:83-92 | Zeroed private data and an empty log. |
| CardHook.HookSpkPriv.AudioSensePut | sprd/machine/sprd_card/sprd-asoc-card-utils-hook.c:314-321 | Only the audio sense changes, to the clamped value. |
| CardHook.HookSpkPriv.AudioSenseGet | sprd/machine/sprd_card/sprd-asoc-card-utils-hook.c:323-326 | The returned sense is in range. |
| CardHook.HookSpkPriv.AudioSenseNeedUpdate | sprd/machine/sprd_card/sprd-asoc-card-utils-hook.c:328-332 | An update is pending exactly when the function is not closed and its recorded sense differs from the current one. |
| CardHook.HookSpkPriv.GpioPulseControl | sprd/machine/sprd_card/sprd-asoc-card-utils-hook.c:228-244 | Appends the pulse train and changes no field. |
| CardHook.HookSpkPriv.GeneralSpk | sprd/machine/sprd_card/sprd-asoc-card-utils-hook.c:277-311 | Its return value and writes equal GeneralSpkSpec; no field changes. |
| CardHook.HookSpkPriv.SetFs1815Scene | sprd/machine/sprd_card/sprd-asoc-card-utils-hook.c:336-364 | Logs the amplifier scene of the sense. |
| CardHook.HookSpkPriv.SpkI2cFs1815 | sprd/machine/sprd_card/sprd-asoc-card-utils-hook.c:366-407 | Returns HOOK_OK; the new state and events equal Fs1815Spec. |
| CardHook.HookSpkPriv.RecordOnSense | sprd/machine/sprd_card/sprd-asoc-card-utils-hook.c:381-391 | Records the sense for the function being turned on and logs its scene. |
| CardHook.HookSpkPriv.EarToVirtualPhase | sprd/machine/sprd_card/sprd-asoc-card-utils-hook.c:423-431 | The new state and events equal EarToVirtual. |
| CardHook.HookSpkPriv.SpkSwitchPhase | sprd/machine/sprd_card/sprd-asoc-card-utils-hook.c:433-437 | The new state and events equal SpkSwitch. |
| CardHook.HookSpkPriv.EarBackOnPhase | sprd/machine/sprd_card/sprd-asoc-card-utils-hook.c:439-446 | The new state and events equal EarBackOn. |
| CardHook.HookSpkPriv.SpkRequest | sprd/machine/sprd_card/sprd-asoc-card-utils-hook.c:421-447 | The new state and events equal SpkI2cSpec for the speaker. |
| CardHook.HookSpkPriv.EarSwitchPhase | sprd/machine/sprd_card/sprd-asoc-card-utils-hook.c:448-461 | The new state and events equal EarSwitch. |
| CardHook.HookSpkPriv.SpkI2c | sprd/machine/sprd_card/sprd-asoc-card-utils-hook.c:409-473 | Returns HOOK_OK; the new state and events equal SpkI2cSpec. |
| CardHook.HookSpkPriv.ResetSensesPhase | sprd/machine/sprd_card/sprd-asoc-card-utils-hook.c:497-501 | The new state is ResetSenses of the old one. |
| CardHook.HookSpkPriv.ParseHook | sprd/machine/sprd_card/sprd-asoc-card-utils-hook.c:483-624 | The return value, new state and events equal ParseSpec. |
| CardHook.HookSpkPriv.ParseEntries | sprd/machine/sprd_card/sprd-asoc-card-utils-hook.c:549-621 | The loop's result equals ParseLoop from entry 0. |
| CardHook.HookSpkPriv.ParseOneEntry | sprd/machine/sprd_card/sprd-asoc-card-utils-hook.c:549-621 | One iteration equals ParseEntry; it stops exactly on an error. |
| CardHook.HookSpkPriv.BindEntryGpio | sprd/machine/sprd_card/sprd-asoc-card-utils-hook.c:581-620 | The GPIO binding equals EntryGpio. |
| CardHook.HookSpkPriv.FreeGpio | sprd/machine/sprd_card/sprd-asoc-card-utils-hook.c:632-699 | The return value, new state and events equal FreeSpec. |
| UsbAudio.StreamOf | sprd_audio/usb_offload/sprd_audio_usb_offload.c:89-90 | An IN pipe is capture, anything else is playback. |
| UsbAudio.CtlValue | sprd_audio/usb_offload/sprd_audio_usb_offload.c:177-208 | The control value truncated to int: in int32 range and congruent mod 2^32, unchanged when it already fits. |
| UsbAudio.EnableGetSpec | sprd_audio/usb_offload/sprd_audio_usb_offload.c:152-175 | Always returns 0; reports the direction's flag exactly when there is a chip and the direction is valid. |
| UsbAudio.EnablePutSpec | sprd_audio/usb_offload/sprd_audio_usb_offload.c:177-208 | Keeps the two-flag array's shape; its meaning is stated by EnablePutBehaviour. |
| UsbAudio.EnablePutBehaviour | sprd_audio/usb_offload/sprd_audio_usb_offload.c:177-208 | -EINVAL exactly for a value above max on a valid chip and direction; otherwise 0. A change happens only on success and writes only that direction, with the truncated value. |
| UsbAudio.EnablePutThenGet | sprd_audio/usb_offload/sprd_audio_usb_offload.c:152-208 | An accepted value reads back. |
| UsbAudio.EnableGetThenPut | sprd_audio/usb_offload/sprd_audio_usb_offload.c:152-208 | Writing back the value read changes nothing. |
| UsbAudio.ShouldSuspendGetSpec | sprd_audio/usb_offload/sprd_audio_usb_offload.c:210-222 | -EINVAL without a chip; otherwise 0 and the stored mode. |
| UsbAudio.ShouldSuspendPutSpec | sprd_audio/usb_offload/sprd_audio_usb_offload.c:224-253 | Returns 0 or -EINVAL; the USB driver is called only on success, and with the stored mode. The full outcome is stated by ShouldSuspendPutBehaviour. |
| UsbAudio.ShouldSuspendPutBehaviour | sprd_audio/usb_offload/sprd_audio_usb_offload.c:224-253 | An accepted value (chip, bus, value not above max) is stored. It reaches the USB driver and returns 0 exactly when the host controller has a driver, else -EINVAL. A rejected value leaves the mode unchanged. |
| UsbAudio.ShouldSuspendPutThenGet | sprd_audio/usb_offload/sprd_audio_usb_offload.c:210-253 | An accepted mode reads back, whether or not the USB driver was reached. |
| UsbAudio.AddFromOutcome | sprd_audio/usb_offload/sprd_audio_usb_offload.c:271-291 | Controls are added in table order. The loop stops at the first refusal and returns it; it returns 0 exactly when every control was added. |
| UsbAudio.ControlAddSpec | sprd_audio/usb_offload/sprd_audio_usb_offload.c:271-291 | Never returns a positive value and adds at most every control once. The outcomes are stated by ControlAddOutcome and AddFromOutcome. |
| UsbAudio.ControlAddOutcome | sprd_audio/usb_offload/sprd_audio_usb_offload.c:271-291 | No chip: -EINVAL and no call. All accepted: 0 and every control added in order. Otherwise the last add's error. |
| UsbAudio.ControlAdd | sprd_audio/usb_offload/sprd_audio_usb_offload.c:271-291 | The loop's return value and calls equal ControlAddSpec. |
| UsbOffload.DecodeEndpoint | sprd_audio/usb_offload/sprd_audio_usb_offload.c:89-118 | Mono exactly for one channel, 24-bit exactly for S24_LE; IIS width always 24 and rate 48. |
| UsbOffload.OffloadCheck | sprd_audio/usb_offload/sprd_audio_usb_offload.c:51-75 | 1 exactly for a valid direction of an existing chip whose flag is non-zero; else 0. |
| UsbOffload.EpActionConfiguresOffloadOnly | sprd_audio/usb_offload/sprd_audio_usb_offload.c:78-150 | The controller is configured once, exactly when offload is on for the endpoint's direction and the host controller has a driver. Start passes 1, stop 0, with the endpoint's number and format flags. |
| UsbOffload.AudOfldEn | sprd_audio/usb_offload/sprd_audio_usb_offload.c:304-318 | Non-zero exactly when OffloadCheck holds. |
| UsbOffload.EpActionCalls | sprd_audio/usb_offload/sprd_audio_usb_offload.c:78-150 | At most one controller call, only for an endpoint whose chip exists and whose host controller has a driver. When and how it configures is stated by EpActionConfiguresOffloadOnly. |
| UsbOffload.AddCtrlSpec | sprd_audio/usb_offload/sprd_audio_usb_offload.c:293-302 | Leaves well-formed flags and tries at most every control once. The reset is stated by AddCtrlResets. |
| UsbOffload.SynctypeIgnore | sprd_audio/usb_offload/sprd_audio_usb_offload.c:320-336 | Returns 0 or 1; when it returns 1 is stated by NeedIgnoreIffOffloadNotSync. |
| UsbOffload.NeedIgnoreIffOffloadNotSync | sprd_audio/usb_offload/sprd_audio_usb_offload.c:320-355 | A format is ignored exactly when offload is on for its direction and its sync type is not SYNC. |
| UsbOffload.AddCtrlResets | sprd_audio/usb_offload/sprd_audio_usb_offload.c:293-302 | After connect, offload is off both ways: no configuration, no ignored format, and the suspend mode reads 1. |
| UsbOffload.VendorAudio.constructor | sprd_audio/usb_offload/sprd_audio_usb_offload.c:31-34 | Both flags 0, mode 0, no calls. |
| UsbOffload.VendorAudio.VendorAudioOffload | sprd_audio/usb_offload/sprd_audio_usb_offload.c:43-46 | Non-zero exactly when OffloadCheck holds for that direction. |
| UsbOffload.VendorAudio.EpAction | sprd_audio/usb_offload/sprd_audio_usb_offload.c:78-150 | Appends EpActionCalls; no field changes. |
| UsbOffload.VendorAudio.EnableGet | sprd_audio/usb_offload/sprd_audio_usb_offload.c:152-175 | A value read agrees with OffloadCheck. |
| UsbOffload.VendorAudio.EnablePut | sprd_audio/usb_offload/sprd_audio_usb_offload.c:177-208 | The return value and flags equal EnablePutSpec; nothing else changes. |
| UsbOffload.VendorAudio.ShouldSuspendGet | sprd_audio/usb_offload/sprd_audio_usb_offload.c:210-222 | A value read is the stored mode. |
| UsbOffload.VendorAudio.ShouldSuspendPut | sprd_audio/usb_offload/sprd_audio_usb_offload.c:224-253 | The return value, mode and USB call equal ShouldSuspendPutSpec; flags unchanged. |
| UsbOffload.VendorAudio.AddCtrl | sprd_audio/usb_offload/sprd_audio_usb_offload.c:293-302 | The new state and calls equal AddCtrlSpec. |
| UsbOffload.VendorAudio.SynctypeIgnoreHook | sprd_audio/usb_offload/sprd_audio_usb_offload.c:338-355 | Ignores exactly a non-SYNC format on an offloaded direction. |
| UsbAdaptive.AudTypeValue | sprd_audio/usb_adaptive/sprd_audio_usb_adaptive.c:36-41 | Each sync type's enum value is in 0..2. |
| UsbAdaptive.SyncTypeOf | sprd_audio/usb_adaptive/sprd_audio_usb_adaptive.c:106-118 | The attribute's sync bits decide the type: NONE records nothing, SYNC, ADAPTIVE and ASYNC each exactly their own. |
| UsbAdaptive.OffloadCheck | sprd_audio/usb_adaptive/sprd_audio_usb_adaptive.c:67-86 | 1 exactly for a valid direction whose flag is non-zero (no chip test); else 0. |
| UsbAdaptive.EpActionBehaviour | sprd_audio/usb_adaptive/sprd_audio_usb_adaptive.c:89-147 | Only the endpoint direction's type changes, to the decoded one if any. The adaptive config is sent exactly when offload is on and the host controller has a driver. The 20 ms delay follows only for the quirk product's capture. |
| UsbAdaptive.EpActionSpec | sprd_audio/usb_adaptive/sprd_audio_usb_adaptive.c:89-147 | Keeps the state well-formed and never changes the offload flags or the suspend mode; at most a config and a delay. The rest is stated by EpActionBehaviour. |
| UsbAdaptive.EpActionThenTypeGet | sprd_audio/usb_adaptive/sprd_audio_usb_adaptive.c:89-265 | After an endpoint action, the type control reads the endpoint's decoded sync type. |
| UsbAdaptive.AudOfldEn | sprd_audio/usb_adaptive/sprd_audio_usb_adaptive.c:319-333 | Non-zero exactly for an existing chip with OffloadCheck. |
| UsbAdaptive.NeedIgnoreNever | sprd_audio/usb_adaptive/sprd_audio_usb_adaptive.c:335-370 | No format is ever ignored: every path of synctype_ignore returns 0. |
| UsbAdaptive.SynctypeIgnore | sprd_audio/usb_adaptive/sprd_audio_usb_adaptive.c:335-351 | Returns 0 on every path, whatever the flags and the sync type. NeedIgnoreNever lifts this to the hook. |
| UsbAdaptive.SuspendSpec | sprd_audio/usb_adaptive/sprd_audio_usb_adaptive.c:372-383 | Never sets the suspend flag, only keeps or clears it. When it clears it is stated by SuspendBehaviour. |
| UsbAdaptive.SuspendBehaviour | sprd_audio/usb_adaptive/sprd_audio_usb_adaptive.c:372-383 | The suspend flag is only ever cleared, exactly for a SUSPEND trigger on an offloaded direction. |
| UsbAdaptive.AddCtrlResets | sprd_audio/usb_adaptive/sprd_audio_usb_adaptive.c:308-317 | After connect, offload is off both ways: no configuration, no suspend override, mode reads 1. The recorded types survive. |
| UsbAdaptive.AddCtrlSpec | sprd_audio/usb_adaptive/sprd_audio_usb_adaptive.c:308-317 | Leaves well-formed flags, keeps the recorded types, and tries at most every control once. The reset is stated by AddCtrlResets. |
| UsbAdaptive.AdaptiveAudio.constructor | sprd_audio/usb_adaptive/sprd_audio_usb_adaptive.c:43-47 | Both flags 0, mode 0, both types SYNC (0), no calls. |
| UsbAdaptive.AdaptiveAudio.VendorAudioOffload | sprd_audio/usb_adaptive/sprd_audio_usb_adaptive.c:51-54 | Non-zero exactly when OffloadCheck holds. |
| UsbAdaptive.AdaptiveAudio.EpAction | sprd_audio/usb_adaptive/sprd_audio_usb_adaptive.c:89-147 | The new state and calls equal EpActionSpec. |
| UsbAdaptive.AdaptiveAudio.EnableGet | sprd_audio/usb_adaptive/sprd_audio_usb_adaptive.c:149-172 | A value read agrees with OffloadCheck on an existing chip. |
| UsbAdaptive.AdaptiveAudio.EnablePut | sprd_audio/usb_adaptive/sprd_audio_usb_adaptive.c:174-205 | The return value and flags equal EnablePutSpec; mode and types unchanged. |
| UsbAdaptive.AdaptiveAudio.ShouldSuspendGet | sprd_audio/usb_adaptive/sprd_audio_usb_adaptive.c:207-219 | A value read is the stored mode. |
| UsbAdaptive.AdaptiveAudio.ShouldSuspendPut | sprd_audio/usb_adaptive/sprd_audio_usb_adaptive.c:221-250 | The return value, mode and USB call equal ShouldSuspendPutSpec; flags and types unchanged. |
| UsbAdaptive.AdaptiveAudio.PlaybackTypeGet | sprd_audio/usb_adaptive/sprd_audio_usb_adaptive.c:253-258 | Returns 0 and the playback type's enum value. |
| UsbAdaptive.AdaptiveAudio.CaptureTypeGet | sprd_audio/usb_adaptive/sprd_audio_usb_adaptive.c:260-265 | Returns 0 and the capture type's enum value. |
| UsbAdaptive.AdaptiveAudio.AddCtrl | sprd_audio/usb_adaptive/sprd_audio_usb_adaptive.c:308-317 | The new state and calls equal AddCtrlSpec. |
| UsbAdaptive.AdaptiveAudio.SynctypeIgnoreHook | sprd_audio/usb_adaptive/sprd_audio_usb_adaptive.c:353-370 | Never asks for a format to be ignored. |
| UsbAdaptive.AdaptiveAudio.Suspend | sprd_audio/usb_adaptive/sprd_audio_usb_adaptive.c:372-383 | The new suspend flag equals SuspendSpec. |

## Left out

- Spinlocks, mutexes and concurrency. Each operation is modelled as one atomic step on the state its lock protects. Races between AP callers, and the DSP's own updates of `cp_enable_cnt`, are not modelled.
- Thread lifecycle: the init thread's creation and stop, its wait loop and the `smsg_ch_open` failure path. Only the per-message dispatch (`HandshakeStep`) is modelled.
- Timing: `udelay`, `msleep` and `mdelay` are not modelled. The adaptive quirk's `mdelay(20)` is recorded as an `Mdelay` call. `pr_*` logging is not modelled.
- The AGDSP counters are kept as unbounded integers; the C `int` width is not modelled. The ALSA control's `long` value is truncated to `int`, and that truncation is modelled by `UsbAudio.CtlValue`.
- The failure of `of_property_read_u32_array` in hook parsing is not modelled. The source's return on that failure is commented out, so it continues with an unread buffer; the model takes the info array as given.
- Sysfs (`select_mode_store`, the debug and FSM sysfs files), `agdsp_set_mboxchan`, and registration with the generic power domain: these are outside the access logic.
- `g_agdsp_access` left dangling after a failed initialisation is not modelled; `Initialize` returns no controller instead.
- A failing `mbox_send_message`: the source only logs it, so the model always records the send.
- A zero register mask makes the source's field alignment loop undefined. The model decodes it as 0.
- Header constants not shipped with these sources are assumed: BOARD_FUNC_SPK 0, SPK1 1, EAR 2, MAX 10; HOOK_OK 2; MBOX_TX_QUEUE_LEN 20; the SMSG type values. The headers are not part of this model.
- `agdsp_can_access` dereferences its controller without a null check. `AgdspPd.CanAccess` is modelled for a present controller.
- The USB controls' `mc->shift` selects the direction. It is taken to be a non-negative stream number; the get/put specs require `0 <= stream`.
- `usb_offload_ep_action` dereferences the endpoint's device and bus without checks. The offload model takes a missing chip to mean no offload. `UsbAdaptive.EpActionSpec` requires the chip to be present, because the adaptive driver dereferences it unconditionally.
- Module init/exit and the registration of the vendor trace hooks: these are plumbing. The hook bodies are modelled.
- The `#if 0` external IIC amplifier code in the general speaker hook is disabled in the source and not modelled.
- The mailbox channel is never checked before the wake mail in `agdsp_pw_on`, so the model does not fail power-on when the channel is unset. A power-on failure for a missing channel does not match the code, and the model follows the code.

## Findings

| source | as written | input that shows it | evidently intended | confidence | as-written member | corrected member |
|---|---|---|---|---|---|---|
| sprd_audio/agdsp_pd/agdsp_pd.c:218-223 | `agdsp_pw_on` prints `dsp_ac->auto_agcp_access` in a debug message before the `if (!dsp_ac)` check. | No controller (`g_agdsp_access == NULL`) while this `pr_dbg` site prints: `AGDSP_ACCESS_DEBUG` set to 1, or dynamic debug enabled for it. | Check for a null controller first and return -EINVAL. | not executed | AgdspPd.PwOnEntryAsWritten | AgdspPd.PwOnEntry |
