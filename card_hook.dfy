/**
 * Board speaker / earpiece hooks of the SPRD sound card.
 *
 * The file-scope state (`hook_spk_priv`, `select_mode`, `extral_iic_pa_en`)
 * and the card's `ext_hook->ext_ctrl` table form the class `HookSpkPriv`.
 * GPIO and FS1815 amplifier calls are appended to an event log; device-tree
 * lookups and GPIO requests are oracles in `DtHook`.
 */
module CardHook {
  import opened Kernel

  // Board function indices (enum in sprd-asoc-card-utils-legacy.h)
  const BOARD_FUNC_SPK: int := 0
  const BOARD_FUNC_SPK1: int := 1
  const BOARD_FUNC_EAR: int := 2
  const BOARD_FUNC_MAX: int := 10
  /** The success value a hook returns. */
  const HOOK_OK: int := 2

  // Cells of one "sprd,spk-ext-pa-info" entry
  const CELL_CTRL_TYPE: nat := 0
  const CELL_HOOK: nat := 1
  const CELL_PRIV: nat := 2
  const CELL_SHARE_GPIO: nat := 3
  const CELL_NUMBER: nat := 4

  // Audio senses set by the HAL
  const AUDIO_SENSE_CLOSE: int := -1
  const AUDIO_SENSE_MUSIC: int := 0
  const AUDIO_SENSE_VOICE: int := 1
  const AUDIO_SENSE_VOIP: int := 2
  const AUDIO_SENSE_FM: int := 3
  const AUDIO_SENSE_RCV: int := 4
  const AUDIO_SENSE_UP_SPK_BYPASS: int := 5
  const AUDIO_SENSE_DOWN_SPK_BYPASS: int := 6
  const AUDIO_SENSE_MAX: int := 7

  const GENERAL_SPK_MODE: int := 10
  const EN_LEVEL: int := 1

  /** The hook functions a board function can be bound to. */
  datatype Hook = NoHook | GeneralSpeaker | I2cSpeaker

  /** `ext_hook_arr`: the i2c speaker hook exists only with FS1815 support. */
  function HookArr(fs1815: bool): (arr: seq<Hook>)
    ensures |arr| == if fs1815 then 2 else 1
    ensures arr[0] == GeneralSpeaker && NoHook !in arr
  {
    if fs1815 then [GeneralSpeaker, I2cSpeaker] else [GeneralSpeaker]
  }

  datatype HookEvent =
    | GpioSet(gpio: int, level: int)   // gpio_set_value
    | GpioRequest(gpio: int)           // gpio_request_one(gpio, output, initially EN_LEVEL)
    | GpioFree(gpio: int)              // gpio_free
    | FsmSpeakerOn                     // fsm_speaker_onn
    | FsmSpeakerOff                    // fsm_speaker_off
    | FsmSetScene(scene: int)          // fsm_set_scene

  /** The hook layer's state as a value. */
  datatype Priv = Priv(
    gpio: seq<int>,
    privData: seq<int>,
    gpioRequested: seq<bool>,
    state: seq<int>,
    rcvShared: bool,
    hookAudioSense: seq<int>,
    audioSense: int,
    selectMode: int,
    extralIicPaEn: u32,
    extCtrl: seq<Hook>)

  /** Every per-function table has BOARD_FUNC_MAX entries. */
  predicate Wf(p: Priv)
  {
    |p.gpio| == BOARD_FUNC_MAX && |p.privData| == BOARD_FUNC_MAX && |p.gpioRequested| == BOARD_FUNC_MAX
    && |p.state| == BOARD_FUNC_MAX && |p.hookAudioSense| == BOARD_FUNC_MAX && |p.extCtrl| == BOARD_FUNC_MAX
  }

  /** The sense set by the HAL is a real sense, and every recorded one is a sense or CLOSE. */
  predicate SensesOk(p: Priv)
    requires Wf(p)
  {
    AUDIO_SENSE_MUSIC <= p.audioSense < AUDIO_SENSE_MAX
    && forall id :: 0 <= id < BOARD_FUNC_MAX ==> AUDIO_SENSE_CLOSE <= p.hookAudioSense[id] < AUDIO_SENSE_MAX
  }

  /** The zero-initialised statics. */
  function Zero(): (p: Priv)
    ensures Wf(p) && SensesOk(p)
  {
    Priv(seq(BOARD_FUNC_MAX, _ => 0), seq(BOARD_FUNC_MAX, _ => 0), seq(BOARD_FUNC_MAX, _ => false),
         seq(BOARD_FUNC_MAX, _ => 0), false, seq(BOARD_FUNC_MAX, _ => 0), AUDIO_SENSE_MUSIC, 0, 0,
         seq(BOARD_FUNC_MAX, _ => NoHook))
  }

  /* ---------------------------------------------------------------------
   * Audio sense
   * ------------------------------------------------------------------- */

  /** audio_sense_put's clamp: out-of-range senses become MUSIC. */
  function ClampSense(sense: int): (r: int)
    ensures AUDIO_SENSE_MUSIC <= r < AUDIO_SENSE_MAX
    ensures AUDIO_SENSE_MUSIC <= sense < AUDIO_SENSE_MAX ==> r == sense
    ensures !(AUDIO_SENSE_MUSIC <= sense < AUDIO_SENSE_MAX) ==> r == AUDIO_SENSE_MUSIC
  {
    if AUDIO_SENSE_MUSIC > sense || AUDIO_SENSE_MAX <= sense then AUDIO_SENSE_MUSIC else sense
  }

  /** audio_sense_need_update */
  predicate NeedUpdate(p: Priv, id: int)
    requires Wf(p) && 0 <= id < BOARD_FUNC_MAX
  {
    p.audioSense != p.hookAudioSense[id] && AUDIO_SENSE_CLOSE != p.hookAudioSense[id]
  }

  /** set_fs1815_scene's table from audio sense to amplifier scene. */
  function Fs1815Scene(sense: int): (scene: int)
    ensures scene in {0, 1, 2, 7, 13, 15}
    ensures scene != 0 <==> sense in {AUDIO_SENSE_VOICE, AUDIO_SENSE_VOIP, AUDIO_SENSE_RCV,
                                      AUDIO_SENSE_UP_SPK_BYPASS, AUDIO_SENSE_DOWN_SPK_BYPASS}
  {
    if sense == AUDIO_SENSE_MUSIC then 0
    else if sense == AUDIO_SENSE_VOICE then 1
    else if sense == AUDIO_SENSE_VOIP then 2
    else if sense == AUDIO_SENSE_FM then 0
    else if sense == AUDIO_SENSE_RCV then 15
    else if sense == AUDIO_SENSE_UP_SPK_BYPASS then 7
    else if sense == AUDIO_SENSE_DOWN_SPK_BYPASS then 13
    else 0
  }

  /** Senses that select a non-default scene select pairwise different scenes. */
  lemma Fs1815SceneDistinguishes(a: int, b: int)
    requires Fs1815Scene(a) != 0 && a != b
    ensures Fs1815Scene(a) != Fs1815Scene(b)
  {
  }

  /* ---------------------------------------------------------------------
   * GPIO pulse train and the general speaker hook
   * ------------------------------------------------------------------- */

  /** `n` high/low pulse pairs on `gpio`. */
  function Pulses(gpio: int, n: nat): seq<HookEvent>
  {
    if n == 0 then [] else Pulses(gpio, n - 1) + [GpioSet(gpio, EN_LEVEL), GpioSet(gpio, 1 - EN_LEVEL)]
  }

  /** hook_gpio_pulse_control: `mode - 1` pulse pairs (none for mode 0), then the line is left at EN_LEVEL. */
  function PulseTrain(gpio: int, mode: u32): seq<HookEvent>
  {
    Pulses(gpio, if mode >= 1 then mode - 1 else 0) + [GpioSet(gpio, EN_LEVEL)]
  }

  lemma {:induction false} PulsesShape(gpio: int, n: nat)
    ensures |Pulses(gpio, n)| == 2 * n
    ensures forall k :: 0 <= k < 2 * n ==>
      Pulses(gpio, n)[k] == GpioSet(gpio, if k % 2 == 0 then EN_LEVEL else 1 - EN_LEVEL)
  {
    if n > 0 {
      PulsesShape(gpio, n - 1);
    }
  }

  /**
   * The pulse train has 2 * max(0, mode - 1) + 1 writes to `gpio` only,
   * alternating high and low, and always ends at EN_LEVEL.
   */
  lemma PulseTrainShape(gpio: int, mode: u32)
    ensures var t := PulseTrain(gpio, mode);
      && |t| == 2 * Max(0, mode - 1) + 1
      && t[|t| - 1] == GpioSet(gpio, EN_LEVEL)
      && forall k :: 0 <= k < |t| ==> t[k] == GpioSet(gpio, if k % 2 == 0 then EN_LEVEL else 1 - EN_LEVEL)
  {
    PulsesShape(gpio, if mode >= 1 then mode - 1 else 0);
  }

  /** The mode stored for a function, with modes above GENERAL_SPK_MODE read as 0. */
  function StoredMode(p: Priv, id: int): int
    requires Wf(p) && 0 <= id < BOARD_FUNC_MAX
  {
    if p.privData[id] > GENERAL_SPK_MODE then 0 else p.privData[id]
  }

  /** The mode an "on" uses: a nonzero select_mode overrides the stored one. */
  function OnMode(p: Priv, id: int): int
    requires Wf(p) && 0 <= id < BOARD_FUNC_MAX
  {
    if p.selectMode != 0 then p.selectMode else StoredMode(p, id)
  }

  datatype HookOut = HookOut(ret: int, events: seq<HookEvent>)

  /** hook_general_spk: a GPIO-driven amplifier whose mode is a pulse count. */
  function GeneralSpkSpec(p: Priv, id: int, on: int): (o: HookOut)
    requires Wf(p) && 0 <= id < BOARD_FUNC_MAX
    ensures o.ret == HOOK_OK || o.ret == -EINVAL
    ensures o.ret == HOOK_OK <==> o.events != []
  {
    var gpio := p.gpio[id];
    if gpio < 0 then HookOut(-EINVAL, [])
    else if on == 0 then HookOut(HOOK_OK, [GpioSet(gpio, 1 - EN_LEVEL)])
    else HookOut(HOOK_OK, PulseTrain(gpio, ToU32(OnMode(p, id))))
  }

  /**
   * hook_general_spk: -EINVAL and no GPIO write for a negative GPIO; "off"
   * drives the line low once; "on" emits max(0, mode - 1) pulse pairs,
   * mode being select_mode when nonzero, else the stored mode with values
   * above GENERAL_SPK_MODE read as 0, and leaves the line at EN_LEVEL.
   */
  lemma GeneralSpkBehaviour(p: Priv, id: int, on: int)
    requires Wf(p) && 0 <= id < BOARD_FUNC_MAX
    ensures var o := GeneralSpkSpec(p, id, on);
      && (p.gpio[id] < 0 <==> o.ret == -EINVAL)
      && (p.gpio[id] < 0 ==> o.events == [])
      && (p.gpio[id] >= 0 && on == 0 ==> o.ret == HOOK_OK && o.events == [GpioSet(p.gpio[id], 0)])
      && (p.gpio[id] >= 0 && on != 0 && 0 <= OnMode(p, id) <= I32_MAX ==>
            o.ret == HOOK_OK && |o.events| == 2 * Max(0, OnMode(p, id) - 1) + 1
            && o.events[|o.events| - 1] == GpioSet(p.gpio[id], EN_LEVEL))
      && (p.gpio[id] >= 0 && on != 0 && p.selectMode == 0 && p.privData[id] > GENERAL_SPK_MODE ==>
            o.events == [GpioSet(p.gpio[id], EN_LEVEL)])
  {
    if p.gpio[id] >= 0 && on != 0 {
      PulseTrainShape(p.gpio[id], ToU32(OnMode(p, id)));
    }
  }

  /**
   * A negative mode (a private-data cell of 2^31 or more, or a negative
   * select_mode) is not caught by the `mode > GENERAL_SPK_MODE` clamp:
   * converted to the unsigned pulse count it asks for 2^32 - 2 pulse pairs.
   */
  lemma GeneralSpkNegativeModePulses(p: Priv, id: int)
    requires Wf(p) && 0 <= id < BOARD_FUNC_MAX && p.gpio[id] >= 0 && OnMode(p, id) == -1
    ensures |GeneralSpkSpec(p, id, 1).events| == 2 * (U32_MODULUS - 2) + 1
  {
    PulseTrainShape(p.gpio[id], ToU32(-1));
  }

  /* ---------------------------------------------------------------------
   * FS1815 amplifier and the speaker / earpiece state machine
   * ------------------------------------------------------------------- */

  datatype Step = Step(priv: Priv, events: seq<HookEvent>)

  predicate InVoice(sense: int)
  {
    sense == AUDIO_SENSE_VOIP || sense == AUDIO_SENSE_VOICE
  }

  /** The sense hook_spk_i2c_fs1815 records when turning `id` on: RCV for the earpiece in a call. */
  function OnRecorded(id: int, sense: int): int
  {
    if id == BOARD_FUNC_EAR && InVoice(sense) then AUDIO_SENSE_RCV else sense
  }

  /** The sense whose scene is selected when turning `id` on: RCV for the earpiece and VOICE for a speaker in a call. */
  function OnScene(id: int, sense: int): int
  {
    if id == BOARD_FUNC_EAR && InVoice(sense) then AUDIO_SENSE_RCV
    else if (id == BOARD_FUNC_SPK || id == BOARD_FUNC_SPK1) && InVoice(sense) then AUDIO_SENSE_VOICE
    else sense
  }

  /** hook_spk_i2c_fs1815 */
  function Fs1815Spec(p: Priv, id: int, on: int): (s: Step)
    requires Wf(p) && 0 <= id < BOARD_FUNC_MAX
    ensures Wf(s.priv)
  {
    var sense := p.audioSense;
    if on != 0 then
      Step(p.(state := p.state[id := OnMode(p, id)], hookAudioSense := p.hookAudioSense[id := OnRecorded(id, sense)]),
           [FsmSetScene(Fs1815Scene(OnScene(id, sense))), FsmSpeakerOn])
    else
      Step(p.(state := p.state[id := 0], hookAudioSense := p.hookAudioSense[id := AUDIO_SENSE_CLOSE]),
           [FsmSpeakerOff, FsmSetScene(Fs1815Scene(AUDIO_SENSE_CLOSE))])
  }

  /**
   * hook_spk_i2c_fs1815: "on" stores the mode in state[id] and records the
   * sense (RCV for the earpiece during a call), setting the matching scene
   * before enabling the amplifier; "off" disables the amplifier, then
   * zeroes state[id], records CLOSE and selects the default scene.
   * Nothing else changes.
   */
  lemma Fs1815Behaviour(p: Priv, id: int, on: int)
    requires Wf(p) && 0 <= id < BOARD_FUNC_MAX
    ensures var s := Fs1815Spec(p, id, on);
      && s.priv.(state := p.state, hookAudioSense := p.hookAudioSense) == p
      && (forall k :: 0 <= k < BOARD_FUNC_MAX && k != id ==>
            s.priv.state[k] == p.state[k] && s.priv.hookAudioSense[k] == p.hookAudioSense[k])
      && (on != 0 ==>
            && s.priv.state[id] == OnMode(p, id)
            && s.events == [FsmSetScene(Fs1815Scene(OnScene(id, p.audioSense))), FsmSpeakerOn]
            && s.priv.hookAudioSense[id] == (if id == BOARD_FUNC_EAR && InVoice(p.audioSense) then AUDIO_SENSE_RCV else p.audioSense))
      && (on == 0 ==>
            && s.priv.state[id] == 0 && s.priv.hookAudioSense[id] == AUDIO_SENSE_CLOSE
            && s.events == [FsmSpeakerOff, FsmSetScene(0)])
  {
  }

  /**
   * The scene chosen on "on" during a call: the earpiece selects the
   * receiver scene (15) and a speaker the voice scene (1), for a VOIP call
   * as well as a voice call.
   */
  lemma Fs1815InCallScenes(p: Priv, on: int)
    requires Wf(p) && on != 0 && InVoice(p.audioSense)
    ensures Fs1815Spec(p, BOARD_FUNC_EAR, on).events[0] == FsmSetScene(15)
    ensures Fs1815Spec(p, BOARD_FUNC_SPK, on).events[0] == FsmSetScene(1)
    ensures Fs1815Spec(p, BOARD_FUNC_SPK1, on).events[0] == FsmSetScene(1)
  {
  }

  /** Right after a hook turned on outside a call, its recorded sense is current; after off there is nothing to update. */
  lemma Fs1815SettlesNeedUpdate(p: Priv, id: int, on: int)
    requires Wf(p) && 0 <= id < BOARD_FUNC_MAX
    requires on == 0 || !(id == BOARD_FUNC_EAR && InVoice(p.audioSense))
    ensures !NeedUpdate(Fs1815Spec(p, id, on).priv, id)
  {
  }

  /** A later sense change is reported for a hook that is on, and never for one that is off. */
  lemma NeedUpdateAfterSensePut(p: Priv, id: int, sense: int)
    requires Wf(p) && 0 <= id < BOARD_FUNC_MAX
    ensures NeedUpdate(p.(audioSense := ClampSense(sense)), id)
        <==> p.hookAudioSense[id] != AUDIO_SENSE_CLOSE && p.hookAudioSense[id] != ClampSense(sense)
  {
  }

  /** Apply hook_spk_i2c_fs1815 after `s`. */
  function Then(s: Step, id: int, on: int): (r: Step)
    requires Wf(s.priv) && 0 <= id < BOARD_FUNC_MAX
    ensures Wf(r.priv)
  {
    var t := Fs1815Spec(s.priv, id, on);
    Step(t.priv, s.events + t.events)
  }

  function WithSelect(s: Step, mode: int): (r: Step)
    ensures Wf(r.priv) <==> Wf(s.priv)
  {
    Step(s.priv.(selectMode := mode), s.events)
  }

  function WithEarState(s: Step, v: int): (r: Step)
    requires Wf(s.priv)
    ensures Wf(r.priv)
  {
    Step(s.priv.(state := s.priv.state[BOARD_FUNC_EAR := v]), s.events)
  }

  /** Speaker on while the earpiece is really on: the earpiece (and SPK1 when shared) goes off and is marked virtually on. */
  function EarToVirtual(p: Priv, on: int): (s: Step)
    requires Wf(p)
    ensures Wf(s.priv)
  {
    if on != 0 && 0 < p.state[BOARD_FUNC_EAR] then
      var a := Then(Step(p, []), BOARD_FUNC_EAR, 0);
      var b := if p.rcvShared then Then(WithSelect(a, 0), BOARD_FUNC_SPK1, 0) else a;
      WithEarState(b, -1)
    else Step(p, [])
  }

  /** The speaker itself (and SPK1 when shared, with select_mode cleared) goes on or off. */
  function SpkSwitch(p: Priv, on: int): (s: Step)
    requires Wf(p)
    ensures Wf(s.priv)
  {
    var a := Then(Step(p, []), BOARD_FUNC_SPK, on);
    if p.rcvShared then Then(WithSelect(a, 0), BOARD_FUNC_SPK1, on) else a
  }

  /** Speaker off while the earpiece is virtually on: the earpiece (and SPK1 in earpiece mode when shared) really goes on. */
  function EarBackOn(p: Priv, on: int): (s: Step)
    requires Wf(p)
    ensures Wf(s.priv)
  {
    if on == 0 && p.state[BOARD_FUNC_EAR] == -1 then
      var a := Then(Step(p, []), BOARD_FUNC_EAR, 1);
      if p.rcvShared then
        WithSelect(Then(WithSelect(a, a.priv.privData[BOARD_FUNC_EAR]), BOARD_FUNC_SPK1, 1), 0)
      else a
    else Step(p, [])
  }

  /** Earpiece on/off: only marked when the speaker is on, otherwise really switched (with SPK1 when shared). */
  function EarSwitch(p: Priv, on: int): (s: Step)
    requires Wf(p)
    ensures Wf(s.priv)
  {
    if 0 < p.state[BOARD_FUNC_SPK] then WithEarState(Step(p, []), if on > 0 then -1 else 0)
    else
      var a := Then(Step(p, []), BOARD_FUNC_EAR, on);
      if p.rcvShared then
        WithSelect(Then(WithSelect(a, if on > 0 then p.privData[BOARD_FUNC_EAR] else 0), BOARD_FUNC_SPK1, on), 0)
      else a
  }

  /** `t` after `s`. */
  function Chain(s: Step, t: Step): Step
  {
    Step(t.priv, s.events + t.events)
  }

  /** hook_spk_i2c: the earpiece shares the amplifier with the speaker. */
  function SpkI2cSpec(p: Priv, id: int, on: int): (s: Step)
    requires Wf(p) && 0 <= id < BOARD_FUNC_MAX
    ensures Wf(s.priv)
  {
    if p.rcvShared && id == BOARD_FUNC_SPK1 then Step(p, [])
    else if id == BOARD_FUNC_SPK then
      var a := EarToVirtual(p, on);
      var b := SpkSwitch(a.priv, on);
      Chain(Chain(a, b), EarBackOn(b.priv, on))
    else if id == BOARD_FUNC_EAR then EarSwitch(p, on)
    else Then(Step(p, []), id, on)
  }

  /** With the receiver shared among speakers, SPK1 requests are ignored. */
  lemma SpkI2cSharedSpk1Ignored(p: Priv, on: int)
    requires Wf(p) && p.rcvShared
    ensures SpkI2cSpec(p, BOARD_FUNC_SPK1, on) == Step(p, [])
  {
  }

  /** Earpiece requests while the speaker is on only mark the earpiece virtually on (-1) or off (0). */
  lemma SpkI2cEarWhileSpkOn(p: Priv, on: int)
    requires Wf(p) && 0 < p.state[BOARD_FUNC_SPK]
    ensures SpkI2cSpec(p, BOARD_FUNC_EAR, on)
         == Step(p.(state := p.state[BOARD_FUNC_EAR := if on > 0 then -1 else 0]), [])
  {
  }

  /**
   * Speaker on while the earpiece is really on: the earpiece is switched
   * off first (amplifier off, CLOSE recorded) and is left virtually on (-1),
   * while the speaker holds its on mode. With a shared receiver, SPK1
   * follows the speaker and select_mode has been cleared before either
   * took its mode.
   */
  lemma SpkI2cSpkOnMakesEarVirtual(p: Priv, on: int)
    requires Wf(p) && on != 0 && 0 < p.state[BOARD_FUNC_EAR]
    ensures var s := SpkI2cSpec(p, BOARD_FUNC_SPK, on);
      var q := if p.rcvShared then p.(selectMode := 0) else p;
      && s.priv.state[BOARD_FUNC_EAR] == -1
      && s.priv.hookAudioSense[BOARD_FUNC_EAR] == AUDIO_SENSE_CLOSE
      && s.priv.state[BOARD_FUNC_SPK] == OnMode(q, BOARD_FUNC_SPK)
      && s.events[..2] == [FsmSpeakerOff, FsmSetScene(0)]
      && s.events[|s.events| - 1] == FsmSpeakerOn
      && (p.rcvShared ==> s.priv.state[BOARD_FUNC_SPK1] == OnMode(q, BOARD_FUNC_SPK1) && s.priv.selectMode == 0)
      && (!p.rcvShared ==> s.priv.state[BOARD_FUNC_SPK1] == p.state[BOARD_FUNC_SPK1] && s.priv.selectMode == p.selectMode)
  {
  }

  /**
   * Speaker off while the earpiece is virtually on: the speaker is turned
   * off and the earpiece really back on, with its mode and a recorded sense.
   * With a shared receiver, SPK1 comes back on in the earpiece's mode and
   * select_mode ends cleared.
   */
  lemma SpkI2cSpkOffRestoresEar(p: Priv)
    requires Wf(p) && SensesOk(p) && p.state[BOARD_FUNC_EAR] == -1
    ensures var s := SpkI2cSpec(p, BOARD_FUNC_SPK, 0);
      var q := if p.rcvShared then p.(selectMode := 0) else p;
      && s.priv.state[BOARD_FUNC_SPK] == 0
      && s.priv.hookAudioSense[BOARD_FUNC_SPK] == AUDIO_SENSE_CLOSE
      && s.priv.state[BOARD_FUNC_EAR] == OnMode(q, BOARD_FUNC_EAR)
      && s.priv.hookAudioSense[BOARD_FUNC_EAR] == OnRecorded(BOARD_FUNC_EAR, p.audioSense)
      && s.priv.hookAudioSense[BOARD_FUNC_EAR] != AUDIO_SENSE_CLOSE
      && s.events[|s.events| - 1] == FsmSpeakerOn
      && (p.rcvShared ==>
            && s.priv.state[BOARD_FUNC_SPK1] == OnMode(p.(selectMode := p.privData[BOARD_FUNC_EAR]), BOARD_FUNC_SPK1)
            && s.priv.hookAudioSense[BOARD_FUNC_SPK1] == p.audioSense
            && s.priv.selectMode == 0)
      && (!p.rcvShared ==> s.priv.state[BOARD_FUNC_SPK1] == p.state[BOARD_FUNC_SPK1] && s.priv.selectMode == p.selectMode)
  {
  }

  /**
   * The earpiece-to-virtual phase acts only on a speaker-on request while
   * the earpiece is really on: the earpiece (and SPK1 with a shared
   * receiver, after select_mode is cleared) is switched off, then the
   * earpiece is marked virtually on. Nothing else changes.
   */
  lemma EarToVirtualBehaviour(p: Priv, on: int)
    requires Wf(p)
    ensures var s := EarToVirtual(p, on);
      && (!(on != 0 && 0 < p.state[BOARD_FUNC_EAR]) ==> s == Step(p, []))
      && (on != 0 && 0 < p.state[BOARD_FUNC_EAR] ==>
            && s.priv.state[BOARD_FUNC_EAR] == -1
            && s.priv.hookAudioSense[BOARD_FUNC_EAR] == AUDIO_SENSE_CLOSE
            && s.priv.(state := p.state, hookAudioSense := p.hookAudioSense, selectMode := p.selectMode) == p
            && (forall k :: 0 <= k < BOARD_FUNC_MAX && k != BOARD_FUNC_EAR && (k != BOARD_FUNC_SPK1 || !p.rcvShared) ==>
                  s.priv.state[k] == p.state[k] && s.priv.hookAudioSense[k] == p.hookAudioSense[k])
            && (p.rcvShared ==>
                  && s.priv.state[BOARD_FUNC_SPK1] == 0
                  && s.priv.hookAudioSense[BOARD_FUNC_SPK1] == AUDIO_SENSE_CLOSE
                  && s.priv.selectMode == 0
                  && s.events == [FsmSpeakerOff, FsmSetScene(0), FsmSpeakerOff, FsmSetScene(0)])
            && (!p.rcvShared ==> s.priv.selectMode == p.selectMode && s.events == [FsmSpeakerOff, FsmSetScene(0)]))
  {
  }

  /**
   * The earpiece-back-on phase acts only on a speaker-off request while
   * the earpiece is virtually on: the earpiece really goes on with its
   * mode and recorded sense; with a shared receiver SPK1 follows in the
   * earpiece's mode (select_mode set to its private data, then cleared).
   * Nothing else changes.
   */
  lemma EarBackOnBehaviour(p: Priv, on: int)
    requires Wf(p)
    ensures var s := EarBackOn(p, on);
      && (!(on == 0 && p.state[BOARD_FUNC_EAR] == -1) ==> s == Step(p, []))
      && (on == 0 && p.state[BOARD_FUNC_EAR] == -1 ==>
            && s.priv.state[BOARD_FUNC_EAR] == OnMode(p, BOARD_FUNC_EAR)
            && s.priv.hookAudioSense[BOARD_FUNC_EAR] == OnRecorded(BOARD_FUNC_EAR, p.audioSense)
            && s.priv.(state := p.state, hookAudioSense := p.hookAudioSense, selectMode := p.selectMode) == p
            && (forall k :: 0 <= k < BOARD_FUNC_MAX && k != BOARD_FUNC_EAR && (k != BOARD_FUNC_SPK1 || !p.rcvShared) ==>
                  s.priv.state[k] == p.state[k] && s.priv.hookAudioSense[k] == p.hookAudioSense[k])
            && s.events[1] == FsmSpeakerOn && s.events[|s.events| - 1] == FsmSpeakerOn
            && (p.rcvShared ==>
                  && s.priv.state[BOARD_FUNC_SPK1] == OnMode(p.(selectMode := p.privData[BOARD_FUNC_EAR]), BOARD_FUNC_SPK1)
                  && s.priv.hookAudioSense[BOARD_FUNC_SPK1] == OnRecorded(BOARD_FUNC_SPK1, p.audioSense)
                  && s.priv.selectMode == 0 && |s.events| == 4)
            && (!p.rcvShared ==> s.priv.selectMode == p.selectMode && |s.events| == 2))
  {
  }

  /**
   * The speaker-switch phase turns the speaker on (in its mode, recording
   * the sense) or off (CLOSE); with a shared receiver, SPK1 follows with
   * select_mode cleared first. Nothing else changes.
   */
  lemma SpkSwitchBehaviour(p: Priv, on: int)
    requires Wf(p)
    ensures var s := SpkSwitch(p, on);
      && s.priv.(state := p.state, hookAudioSense := p.hookAudioSense, selectMode := p.selectMode) == p
      && (forall k :: 0 <= k < BOARD_FUNC_MAX && k != BOARD_FUNC_SPK && (k != BOARD_FUNC_SPK1 || !p.rcvShared) ==>
            s.priv.state[k] == p.state[k] && s.priv.hookAudioSense[k] == p.hookAudioSense[k])
      && (on != 0 ==> s.priv.state[BOARD_FUNC_SPK] == OnMode(p, BOARD_FUNC_SPK)
                      && s.priv.hookAudioSense[BOARD_FUNC_SPK] == p.audioSense
                      && s.events[|s.events| - 1] == FsmSpeakerOn)
      && (on == 0 ==> s.priv.state[BOARD_FUNC_SPK] == 0 && s.priv.hookAudioSense[BOARD_FUNC_SPK] == AUDIO_SENSE_CLOSE)
      && (p.rcvShared ==>
            && s.priv.selectMode == 0 && |s.events| == 4
            && (on != 0 ==> s.priv.state[BOARD_FUNC_SPK1] == OnMode(p.(selectMode := 0), BOARD_FUNC_SPK1)
                            && s.priv.hookAudioSense[BOARD_FUNC_SPK1] == p.audioSense)
            && (on == 0 ==> s.priv.state[BOARD_FUNC_SPK1] == 0 && s.priv.hookAudioSense[BOARD_FUNC_SPK1] == AUDIO_SENSE_CLOSE))
      && (!p.rcvShared ==> s.priv.selectMode == p.selectMode && |s.events| == 2)
  {
  }

  /**
   * The earpiece switch with the speaker not on really switches the
   * earpiece (RCV recorded during a call); with a shared receiver SPK1
   * follows, in the earpiece's stored mode when turned on, and select_mode
   * ends cleared. Nothing else changes.
   */
  lemma EarSwitchBehaviour(p: Priv, on: int)
    requires Wf(p) && p.state[BOARD_FUNC_SPK] <= 0
    ensures var s := EarSwitch(p, on);
      && s.priv.(state := p.state, hookAudioSense := p.hookAudioSense, selectMode := p.selectMode) == p
      && (forall k :: 0 <= k < BOARD_FUNC_MAX && k != BOARD_FUNC_EAR && (k != BOARD_FUNC_SPK1 || !p.rcvShared) ==>
            s.priv.state[k] == p.state[k] && s.priv.hookAudioSense[k] == p.hookAudioSense[k])
      && (on != 0 ==> s.priv.state[BOARD_FUNC_EAR] == OnMode(p, BOARD_FUNC_EAR)
                      && s.priv.hookAudioSense[BOARD_FUNC_EAR] == OnRecorded(BOARD_FUNC_EAR, p.audioSense)
                      && s.events[|s.events| - 1] == FsmSpeakerOn)
      && (on == 0 ==> s.priv.state[BOARD_FUNC_EAR] == 0 && s.priv.hookAudioSense[BOARD_FUNC_EAR] == AUDIO_SENSE_CLOSE)
      && (p.rcvShared ==>
            && s.priv.selectMode == 0 && |s.events| == 4
            && (on > 0 ==> s.priv.state[BOARD_FUNC_SPK1] == OnMode(p.(selectMode := p.privData[BOARD_FUNC_EAR]), BOARD_FUNC_SPK1))
            && (on == 0 ==> s.priv.state[BOARD_FUNC_SPK1] == 0 && s.priv.hookAudioSense[BOARD_FUNC_SPK1] == AUDIO_SENSE_CLOSE))
      && (!p.rcvShared ==> s.priv.selectMode == p.selectMode && |s.events| == 2)
  {
  }

  /** The sense invariant survives the amplifier hook. */
  lemma Fs1815KeepsSenses(p: Priv, id: int, on: int)
    requires Wf(p) && SensesOk(p) && 0 <= id < BOARD_FUNC_MAX
    ensures SensesOk(Fs1815Spec(p, id, on).priv)
    ensures Fs1815Spec(p, id, on).priv.audioSense == p.audioSense
  {
  }

  /** The sense invariant survives every speaker / earpiece request, and the HAL's sense is never changed by one. */
  lemma SpkI2cKeepsSenses(p: Priv, id: int, on: int)
    requires Wf(p) && SensesOk(p) && 0 <= id < BOARD_FUNC_MAX
    ensures SensesOk(SpkI2cSpec(p, id, on).priv)
    ensures SpkI2cSpec(p, id, on).priv.audioSense == p.audioSense
  {
    if id == BOARD_FUNC_SPK {
      var a := EarToVirtual(p, on);
      EarToVirtualKeepsSenses(p, on);
      SpkSwitchKeepsSenses(a.priv, on);
      EarBackOnKeepsSenses(SpkSwitch(a.priv, on).priv, on);
    } else if id == BOARD_FUNC_EAR {
      EarSwitchKeepsSenses(p, on);
    } else {
      Fs1815KeepsSenses(p, id, on);
    }
  }

  lemma EarToVirtualKeepsSenses(p: Priv, on: int)
    requires Wf(p) && SensesOk(p)
    ensures SensesOk(EarToVirtual(p, on).priv) && EarToVirtual(p, on).priv.audioSense == p.audioSense
  {
    var a := Then(Step(p, []), BOARD_FUNC_EAR, 0);
    ThenKeepsSenses(Step(p, []), BOARD_FUNC_EAR, 0);
    ThenKeepsSenses(WithSelect(a, 0), BOARD_FUNC_SPK1, 0);
  }

  lemma SpkSwitchKeepsSenses(p: Priv, on: int)
    requires Wf(p) && SensesOk(p)
    ensures SensesOk(SpkSwitch(p, on).priv) && SpkSwitch(p, on).priv.audioSense == p.audioSense
  {
    var a := Then(Step(p, []), BOARD_FUNC_SPK, on);
    ThenKeepsSenses(Step(p, []), BOARD_FUNC_SPK, on);
    ThenKeepsSenses(WithSelect(a, 0), BOARD_FUNC_SPK1, on);
  }

  lemma EarBackOnKeepsSenses(p: Priv, on: int)
    requires Wf(p) && SensesOk(p)
    ensures SensesOk(EarBackOn(p, on).priv) && EarBackOn(p, on).priv.audioSense == p.audioSense
  {
    var a := Then(Step(p, []), BOARD_FUNC_EAR, 1);
    ThenKeepsSenses(Step(p, []), BOARD_FUNC_EAR, 1);
    ThenKeepsSenses(WithSelect(a, a.priv.privData[BOARD_FUNC_EAR]), BOARD_FUNC_SPK1, 1);
  }

  lemma EarSwitchKeepsSenses(p: Priv, on: int)
    requires Wf(p) && SensesOk(p)
    ensures SensesOk(EarSwitch(p, on).priv) && EarSwitch(p, on).priv.audioSense == p.audioSense
  {
    var a := Then(Step(p, []), BOARD_FUNC_EAR, on);
    ThenKeepsSenses(Step(p, []), BOARD_FUNC_EAR, on);
    ThenKeepsSenses(WithSelect(a, if on > 0 then p.privData[BOARD_FUNC_EAR] else 0), BOARD_FUNC_SPK1, on);
  }

  lemma ThenKeepsSenses(s: Step, id: int, on: int)
    requires Wf(s.priv) && SensesOk(s.priv) && 0 <= id < BOARD_FUNC_MAX
    ensures SensesOk(Then(s, id, on).priv) && Then(s, id, on).priv.audioSense == s.priv.audioSense
  {
    Fs1815KeepsSenses(s.priv, id, on);
  }

  /* ---------------------------------------------------------------------
   * Parsing "sprd,spk-ext-pa-info" and releasing the GPIOs
   * ------------------------------------------------------------------- */

  /** What sprd_asoc_card_parse_hook reads from the device tree and the GPIO layer. */
  datatype DtHook = DtHook(
    extralIicPa: Option<u32>,   // "extral-iic-pa"
    info: seq<u32>,             // "sprd,spk-ext-pa-info", empty when absent
    rcvShared: bool,            // "sprd,rcv_shared_multi_spk"
    namedGpio: nat -> int,      // of_get_named_gpio_flags(np, "sprd,spk-ext-pa-gpio", i)
    requestRet: nat -> int)     // gpio_request_one for the GPIO of entry i

  datatype ParseOut = ParseOut(ret: int, priv: Priv, events: seq<HookEvent>)

  /** Cell `cell` of entry `i`. */
  function Cell(info: seq<u32>, i: nat, cell: nat): u32
    requires cell < CELL_NUMBER && i * CELL_NUMBER + cell < |info|
  {
    info[i * CELL_NUMBER + cell]
  }

  /** The number of entries processed: whole entries only, at most BOARD_FUNC_MAX. */
  function SpkCount(info: seq<u32>): (n: nat)
    ensures n <= BOARD_FUNC_MAX && n * CELL_NUMBER <= |info|
  {
    Min(|info| / CELL_NUMBER, BOARD_FUNC_MAX)
  }

  /** The outcome of one entry: go on with the next one, or return `ret`. */
  datatype Entry = Next(priv: Priv, events: seq<HookEvent>) | Stop(ret: int, priv: Priv, events: seq<HookEvent>)

  /** One iteration of sprd_asoc_card_parse_hook's loop, on entry `i`. */
  function ParseEntry(fs1815: bool, dt: DtHook, spkCnt: nat, i: nat, p: Priv): (e: Entry)
    requires Wf(p) && spkCnt <= BOARD_FUNC_MAX && spkCnt * CELL_NUMBER <= |dt.info| && i < spkCnt
    ensures Wf(e.priv)
  {
    var ty := Cell(dt.info, i, CELL_CTRL_TYPE);
    var hookSel := Cell(dt.info, i, CELL_HOOK);
    if ty >= BOARD_FUNC_MAX then Stop(-EINVAL, p, [])
    else if hookSel >= |HookArr(fs1815)| then Stop(-EINVAL, p, [])
    else
      var p1 := p.(extCtrl := p.extCtrl[ty := HookArr(fs1815)[hookSel]],
                   privData := p.privData[ty := ToI32(Cell(dt.info, i, CELL_PRIV))]);
      if fs1815 && hookSel == 1 then Next(p1, [])
      else EntryGpio(dt, spkCnt, i, ty, p1)
  }

  /** The GPIO part of one entry: a shared GPIO is copied, otherwise the entry's own one is looked up and requested. */
  function EntryGpio(dt: DtHook, spkCnt: nat, i: nat, ty: int, p: Priv): (e: Entry)
    requires Wf(p) && spkCnt <= BOARD_FUNC_MAX && spkCnt * CELL_NUMBER <= |dt.info| && i < spkCnt
    requires 0 <= ty < BOARD_FUNC_MAX
    ensures Wf(e.priv)
  {
    var share := Cell(dt.info, i, CELL_SHARE_GPIO);
    if share > 0 then
      if share > spkCnt then Stop(-EINVAL, p.(extCtrl := p.extCtrl[ty := NoHook]), [])
      else Next(p.(gpio := p.gpio[ty := p.gpio[share - 1]]), [])
    else
      var g := dt.namedGpio(i);
      if g < 0 then Stop(g, p.(extCtrl := p.extCtrl[ty := NoHook]), [])
      else
        var p2 := p.(gpio := p.gpio[ty := g]);
        var rq := dt.requestRet(i);
        if rq == 0 then Next(p2.(gpioRequested := p2.gpioRequested[ty := true]), [GpioRequest(g)])
        else if rq < 0 then
          Stop(rq, p2.(gpioRequested := p2.gpioRequested[ty := false], extCtrl := p2.extCtrl[ty := NoHook]), [GpioRequest(g)])
        else Next(p2, [GpioRequest(g)])
  }

  /** The loop of sprd_asoc_card_parse_hook from entry `i` on, `ev` having been emitted so far. */
  function ParseLoop(fs1815: bool, dt: DtHook, spkCnt: nat, i: nat, p: Priv, ev: seq<HookEvent>): (r: ParseOut)
    requires Wf(p) && spkCnt <= BOARD_FUNC_MAX && spkCnt * CELL_NUMBER <= |dt.info| && i <= spkCnt
    ensures Wf(r.priv)
    decreases spkCnt - i, 1
  {
    if i == spkCnt then ParseOut(0, p, ev)
    else ParseThen(fs1815, dt, spkCnt, i, ParseEntry(fs1815, dt, spkCnt, i, p), ev)
  }

  /** The loop's continuation after entry `i` gave `e`. */
  function ParseThen(fs1815: bool, dt: DtHook, spkCnt: nat, i: nat, e: Entry, ev: seq<HookEvent>): (r: ParseOut)
    requires Wf(e.priv) && spkCnt <= BOARD_FUNC_MAX && spkCnt * CELL_NUMBER <= |dt.info| && i < spkCnt
    ensures Wf(r.priv)
    decreases spkCnt - i, 0
  {
    if e.Next? then ParseLoop(fs1815, dt, spkCnt, i + 1, e.priv, ev + e.events)
    else ParseOut(e.ret, e.priv, ev + e.events)
  }

  /**
   * One entry touches only the hook, private-data, GPIO and request
   * tables, and only at its own type, which a continuing entry has
   * validated and bound to its hook selection and private data.
   */
  lemma ParseEntryWrites(fs1815: bool, dt: DtHook, spkCnt: nat, i: nat, p: Priv)
    requires Wf(p) && spkCnt <= BOARD_FUNC_MAX && spkCnt * CELL_NUMBER <= |dt.info| && i < spkCnt
    ensures var e := ParseEntry(fs1815, dt, spkCnt, i, p);
      var ty := Cell(dt.info, i, CELL_CTRL_TYPE);
      && e.priv.(extCtrl := p.extCtrl, privData := p.privData, gpio := p.gpio, gpioRequested := p.gpioRequested) == p
      && (forall t :: 0 <= t < BOARD_FUNC_MAX && t != ty ==>
            e.priv.extCtrl[t] == p.extCtrl[t] && e.priv.privData[t] == p.privData[t])
      && (e.Next? ==>
            ty < BOARD_FUNC_MAX && Cell(dt.info, i, CELL_HOOK) < |HookArr(fs1815)|
            && e.priv.extCtrl[ty] == HookArr(fs1815)[Cell(dt.info, i, CELL_HOOK)]
            && e.priv.privData[ty] == ToI32(Cell(dt.info, i, CELL_PRIV)))
  {
  }

  /** The sense reset that opens the parse. */
  function ResetSenses(p: Priv): (q: Priv)
    requires Wf(p)
    ensures Wf(q) && SensesOk(q)
  {
    p.(audioSense := AUDIO_SENSE_MUSIC, hookAudioSense := seq(BOARD_FUNC_MAX, _ => AUDIO_SENSE_CLOSE))
  }

  /** sprd_asoc_card_parse_hook */
  function ParseSpec(fs1815: bool, dt: DtHook, allocOk: bool, p: Priv): (r: ParseOut)
    requires Wf(p)
    ensures Wf(r.priv)
  {
    var p0 := ResetSenses(p);
    if dt.extralIicPa.Some? then
      ParseOut(0, p0.(extralIicPaEn := dt.extralIicPa.value,
                      extCtrl := p0.extCtrl[BOARD_FUNC_SPK := HookArr(fs1815)[BOARD_FUNC_SPK]]), [])
    else if |dt.info| == 0 || |dt.info| % CELL_NUMBER != 0 then ParseOut(-EINVAL, p0, [])
    else if !allocOk then ParseOut(-ENOMEM, p0, [])
    else ParseLoop(fs1815, dt, SpkCount(dt.info), 0, p0.(rcvShared := dt.rcvShared), [])
  }

  /** The entry loop never touches the senses, the select mode or the state table. */
  lemma {:induction false} ParseLoopKeeps(fs1815: bool, dt: DtHook, spkCnt: nat, i: nat, p: Priv, ev: seq<HookEvent>)
    requires Wf(p) && spkCnt <= BOARD_FUNC_MAX && spkCnt * CELL_NUMBER <= |dt.info| && i <= spkCnt
    ensures var r := ParseLoop(fs1815, dt, spkCnt, i, p, ev);
      && r.priv.audioSense == p.audioSense && r.priv.hookAudioSense == p.hookAudioSense
      && r.priv.state == p.state && r.priv.selectMode == p.selectMode && r.priv.rcvShared == p.rcvShared
    decreases spkCnt - i
  {
    if i < spkCnt {
      ParseEntryWrites(fs1815, dt, spkCnt, i, p);
      var e := ParseEntry(fs1815, dt, spkCnt, i, p);
      if e.Next? {
        ParseLoopKeeps(fs1815, dt, spkCnt, i + 1, e.priv, ev + e.events);
      }
    }
  }

  /** Whatever the outcome, parsing leaves the HAL's sense at MUSIC and every recorded sense at CLOSE. */
  lemma ParseResetsSenses(fs1815: bool, dt: DtHook, allocOk: bool, p: Priv)
    requires Wf(p)
    ensures var r := ParseSpec(fs1815, dt, allocOk, p);
      && r.priv.audioSense == AUDIO_SENSE_MUSIC
      && forall id :: 0 <= id < BOARD_FUNC_MAX ==> r.priv.hookAudioSense[id] == AUDIO_SENSE_CLOSE
  {
    var p0 := ResetSenses(p);
    if dt.extralIicPa.None? && |dt.info| > 0 && |dt.info| % CELL_NUMBER == 0 && allocOk {
      ParseLoopKeeps(fs1815, dt, SpkCount(dt.info), 0, p0.(rcvShared := dt.rcvShared), []);
    }
  }

  /** Without the "extral-iic-pa" shortcut, an empty or ragged info array is -EINVAL, before any GPIO is touched. */
  lemma ParseRejectsRaggedInfo(fs1815: bool, dt: DtHook, allocOk: bool, p: Priv)
    requires Wf(p) && dt.extralIicPa.None?
    requires |dt.info| == 0 || |dt.info| % CELL_NUMBER != 0
    ensures ParseSpec(fs1815, dt, allocOk, p).ret == -EINVAL
    ensures ParseSpec(fs1815, dt, allocOk, p).events == []
  {
  }

  /** The "extral-iic-pa" shortcut binds only the speaker to the general hook and reads nothing else. */
  lemma ParseIicShortcut(fs1815: bool, dt: DtHook, allocOk: bool, p: Priv)
    requires Wf(p) && dt.extralIicPa.Some?
    ensures var r := ParseSpec(fs1815, dt, allocOk, p);
      && r.ret == 0 && r.events == []
      && r.priv.extCtrl == p.extCtrl[BOARD_FUNC_SPK := GeneralSpeaker]
      && r.priv.extralIicPaEn == dt.extralIicPa.value
      && r.priv.gpio == p.gpio && r.priv.gpioRequested == p.gpioRequested && r.priv.rcvShared == p.rcvShared
  {
  }

  /** No two of the entries from `i` on name the same board function. */
  predicate DistinctTypes(info: seq<u32>, spkCnt: nat, i: nat)
    requires spkCnt * CELL_NUMBER <= |info|
  {
    forall j, k :: i <= j < k < spkCnt ==> Cell(info, j, CELL_CTRL_TYPE) != Cell(info, k, CELL_CTRL_TYPE)
  }

  lemma MulMono(a: nat, b: nat)
    requires a < b
    ensures a * CELL_NUMBER + CELL_NUMBER <= b * CELL_NUMBER
  {
  }

  /**
   * A successful entry loop validated every entry (type below
   * BOARD_FUNC_MAX, hook selection inside ext_hook_arr), installed each
   * entry's hook and private data under its type when the types are
   * distinct, and left every function no entry names alone.
   */
  lemma {:induction false} ParseLoopInstalls(fs1815: bool, dt: DtHook, spkCnt: nat, i: nat, p: Priv, ev: seq<HookEvent>)
    requires Wf(p) && spkCnt <= BOARD_FUNC_MAX && spkCnt * CELL_NUMBER <= |dt.info| && i <= spkCnt
    requires ParseLoop(fs1815, dt, spkCnt, i, p, ev).ret == 0
    ensures forall j :: i <= j < spkCnt ==>
      (MulMono(j, spkCnt);
       Cell(dt.info, j, CELL_CTRL_TYPE) < BOARD_FUNC_MAX && Cell(dt.info, j, CELL_HOOK) < |HookArr(fs1815)|)
    ensures var r := ParseLoop(fs1815, dt, spkCnt, i, p, ev);
      forall t :: 0 <= t < BOARD_FUNC_MAX && (forall j :: i <= j < spkCnt ==> (MulMono(j, spkCnt); Cell(dt.info, j, CELL_CTRL_TYPE) != t)) ==>
        r.priv.extCtrl[t] == p.extCtrl[t] && r.priv.privData[t] == p.privData[t]
    ensures var r := ParseLoop(fs1815, dt, spkCnt, i, p, ev);
      DistinctTypes(dt.info, spkCnt, i) ==>
        forall j :: i <= j < spkCnt ==>
          (MulMono(j, spkCnt);
           r.priv.extCtrl[Cell(dt.info, j, CELL_CTRL_TYPE)] == HookArr(fs1815)[Cell(dt.info, j, CELL_HOOK)]
           && r.priv.privData[Cell(dt.info, j, CELL_CTRL_TYPE)] == ToI32(Cell(dt.info, j, CELL_PRIV)))
    decreases spkCnt - i
  {
    if i < spkCnt {
      ParseEntryWrites(fs1815, dt, spkCnt, i, p);
      var e := ParseEntry(fs1815, dt, spkCnt, i, p);
      assert e.Next?;
      ParseLoopInstalls(fs1815, dt, spkCnt, i + 1, e.priv, ev + e.events);
    }
  }

  /** Entry `j` names no board function or no hook of the table. */
  predicate BadCells(fs1815: bool, info: seq<u32>, spkCnt: nat, j: nat)
    requires spkCnt * CELL_NUMBER <= |info| && j < spkCnt
  {
    MulMono(j, spkCnt);
    Cell(info, j, CELL_CTRL_TYPE) >= BOARD_FUNC_MAX || Cell(info, j, CELL_HOOK) >= |HookArr(fs1815)|
  }

  /** An entry with an out-of-range type or hook selection stops the parse with -EINVAL, changing nothing. */
  lemma ParseEntryRejectsBadCells(fs1815: bool, dt: DtHook, spkCnt: nat, i: nat, p: Priv)
    requires Wf(p) && spkCnt <= BOARD_FUNC_MAX && spkCnt * CELL_NUMBER <= |dt.info| && i < spkCnt
    requires BadCells(fs1815, dt.info, spkCnt, i)
    ensures ParseEntry(fs1815, dt, spkCnt, i, p) == Stop(-EINVAL, p, [])
  {
  }

  /** Entries `i` to `j - 1` of the loop: the state reached, or the first entry's stop. */
  function ParseUntil(fs1815: bool, dt: DtHook, spkCnt: nat, i: nat, j: nat, p: Priv, ev: seq<HookEvent>): (e: Entry)
    requires Wf(p) && spkCnt <= BOARD_FUNC_MAX && spkCnt * CELL_NUMBER <= |dt.info| && i <= j <= spkCnt
    ensures Wf(e.priv)
    decreases j - i
  {
    if i == j then Next(p, ev)
    else
      var e := ParseEntry(fs1815, dt, spkCnt, i, p);
      if e.Stop? then Stop(e.ret, e.priv, ev + e.events)
      else ParseUntil(fs1815, dt, spkCnt, i + 1, j, e.priv, ev + e.events)
  }

  /** The loop from `i` is the loop up to `j`, then (unless it stopped) the loop from `j`. */
  lemma {:induction false} ParseLoopSplit(fs1815: bool, dt: DtHook, spkCnt: nat, i: nat, j: nat, p: Priv, ev: seq<HookEvent>)
    requires Wf(p) && spkCnt <= BOARD_FUNC_MAX && spkCnt * CELL_NUMBER <= |dt.info| && i <= j <= spkCnt
    ensures var u := ParseUntil(fs1815, dt, spkCnt, i, j, p, ev);
      && (u.Next? ==> ParseLoop(fs1815, dt, spkCnt, i, p, ev) == ParseLoop(fs1815, dt, spkCnt, j, u.priv, u.events))
      && (u.Stop? ==> ParseLoop(fs1815, dt, spkCnt, i, p, ev) == ParseOut(u.ret, u.priv, u.events))
    decreases j - i
  {
    if i < j {
      var e := ParseEntry(fs1815, dt, spkCnt, i, p);
      if e.Next? {
        ParseLoopSplit(fs1815, dt, spkCnt, i + 1, j, e.priv, ev + e.events);
      }
    }
  }

  /**
   * Without the IIC shortcut, a well-formed info array with an entry
   * naming no board function or no hook never parses successfully; when
   * the entries before it went through, the parse returns -EINVAL in the
   * state they left, with only their GPIO requests emitted.
   */
  lemma ParseSpecRejectsBadEntry(fs1815: bool, dt: DtHook, p: Priv, j: nat)
    requires Wf(p) && dt.extralIicPa.None? && |dt.info| > 0 && |dt.info| % CELL_NUMBER == 0
    requires j < SpkCount(dt.info) && BadCells(fs1815, dt.info, SpkCount(dt.info), j)
    ensures ParseSpec(fs1815, dt, true, p).ret != 0
    ensures var u := ParseUntil(fs1815, dt, SpkCount(dt.info), 0, j, ResetSenses(p).(rcvShared := dt.rcvShared), []);
      u.Next? ==> ParseSpec(fs1815, dt, true, p) == ParseOut(-EINVAL, u.priv, u.events)
  {
    var n := SpkCount(dt.info);
    var p0 := ResetSenses(p).(rcvShared := dt.rcvShared);
    if ParseLoop(fs1815, dt, n, 0, p0, []).ret == 0 {
      ParseLoopInstalls(fs1815, dt, n, 0, p0, []);
    }
    ParseLoopSplit(fs1815, dt, n, 0, j, p0, []);
    var u := ParseUntil(fs1815, dt, n, 0, j, p0, []);
    if u.Next? {
      ParseEntryRejectsBadCells(fs1815, dt, n, j, u.priv);
    }
  }

  /** A shared-GPIO cell beyond the entry count fails the parse and unbinds that function. */
  lemma ParseShareOutOfRange(fs1815: bool, dt: DtHook, spkCnt: nat, i: nat, p: Priv)
    requires Wf(p) && spkCnt <= BOARD_FUNC_MAX && spkCnt * CELL_NUMBER <= |dt.info| && i < spkCnt
    requires Cell(dt.info, i, CELL_CTRL_TYPE) < BOARD_FUNC_MAX && Cell(dt.info, i, CELL_HOOK) < |HookArr(fs1815)|
    requires !(fs1815 && Cell(dt.info, i, CELL_HOOK) == 1)
    requires Cell(dt.info, i, CELL_SHARE_GPIO) > spkCnt
    ensures var e := ParseEntry(fs1815, dt, spkCnt, i, p);
      e == Stop(-EINVAL, e.priv, []) && e.priv.extCtrl[Cell(dt.info, i, CELL_CTRL_TYPE)] == NoHook
  {
  }

  /** A valid shared-GPIO cell copies the GPIO of function `share - 1` and requests nothing for this entry. */
  lemma ParseShareCopiesGpio(fs1815: bool, dt: DtHook, spkCnt: nat, i: nat, p: Priv)
    requires Wf(p) && spkCnt <= BOARD_FUNC_MAX && spkCnt * CELL_NUMBER <= |dt.info| && i < spkCnt
    requires Cell(dt.info, i, CELL_CTRL_TYPE) < BOARD_FUNC_MAX && Cell(dt.info, i, CELL_HOOK) < |HookArr(fs1815)|
    requires !(fs1815 && Cell(dt.info, i, CELL_HOOK) == 1)
    requires 0 < Cell(dt.info, i, CELL_SHARE_GPIO) <= spkCnt
    ensures var e := ParseEntry(fs1815, dt, spkCnt, i, p);
      var ty := Cell(dt.info, i, CELL_CTRL_TYPE);
      && e.Next? && e.events == []
      && e.priv.gpio == p.gpio[ty := p.gpio[Cell(dt.info, i, CELL_SHARE_GPIO) - 1]]
      && e.priv.gpioRequested == p.gpioRequested
  {
  }

  /** sprd_asoc_card_ext_hook_free_gpio's entry loop. */
  function FreeLoop(info: seq<u32>, spkCnt: nat, i: nat, p: Priv, ev: seq<HookEvent>): (r: ParseOut)
    requires Wf(p) && spkCnt * CELL_NUMBER <= |info| && i <= spkCnt
    ensures Wf(r.priv)
    decreases spkCnt - i, 1
  {
    if i == spkCnt then ParseOut(0, p, ev)
    else
      var ty := Cell(info, i, CELL_CTRL_TYPE);
      if ty >= BOARD_FUNC_MAX then ParseOut(-EINVAL, p, ev)
      else if p.gpioRequested[ty] then
        FreeLoop(info, spkCnt, i + 1, p.(gpioRequested := p.gpioRequested[ty := false]), ev + [GpioFree(p.gpio[ty])])
      else FreeLoop(info, spkCnt, i + 1, p, ev)
  }

  /** sprd_asoc_card_ext_hook_free_gpio */
  function FreeSpec(info: seq<u32>, allocOk: bool, p: Priv): (r: ParseOut)
    requires Wf(p)
    ensures Wf(r.priv)
  {
    if |info| == 0 || |info| % CELL_NUMBER != 0 then ParseOut(-EINVAL, p, [])
    else if !allocOk then ParseOut(-ENOMEM, p, [])
    else FreeLoop(info, SpkCount(info), 0, p, [])
  }

  /**
   * The free loop only clears request flags; on success every listed
   * function is left without a requested GPIO.
   */
  lemma {:induction false} FreeLoopReleases(info: seq<u32>, spkCnt: nat, i: nat, p: Priv, ev: seq<HookEvent>)
    requires Wf(p) && spkCnt * CELL_NUMBER <= |info| && i <= spkCnt
    ensures var r := FreeLoop(info, spkCnt, i, p, ev);
      && r.priv.(gpioRequested := p.gpioRequested) == p
      && (forall t :: 0 <= t < BOARD_FUNC_MAX && r.priv.gpioRequested[t] ==> p.gpioRequested[t])
    ensures var r := FreeLoop(info, spkCnt, i, p, ev);
      r.ret == 0 ==> forall j :: i <= j < spkCnt ==>
        (MulMono(j, spkCnt); Cell(info, j, CELL_CTRL_TYPE) < BOARD_FUNC_MAX && !r.priv.gpioRequested[Cell(info, j, CELL_CTRL_TYPE)])
    decreases spkCnt - i
  {
    if i < spkCnt {
      var ty := Cell(info, i, CELL_CTRL_TYPE);
      if ty < BOARD_FUNC_MAX {
        var q := if p.gpioRequested[ty] then p.(gpioRequested := p.gpioRequested[ty := false]) else p;
        var ev' := if p.gpioRequested[ty] then ev + [GpioFree(p.gpio[ty])] else ev;
        FreeLoopReleases(info, spkCnt, i + 1, q, ev');
      }
    }
  }

  /** The free loop only appends gpio_free calls, each for a GPIO some function had requested. */
  lemma {:induction false} FreeLoopFreesRequested(info: seq<u32>, spkCnt: nat, i: nat, p: Priv, ev: seq<HookEvent>)
    requires Wf(p) && spkCnt * CELL_NUMBER <= |info| && i <= spkCnt
    ensures var r := FreeLoop(info, spkCnt, i, p, ev);
      && |ev| <= |r.events| && r.events[..|ev|] == ev
      && (forall k :: |ev| <= k < |r.events| ==>
            r.events[k].GpioFree? && exists t :: 0 <= t < BOARD_FUNC_MAX && p.gpioRequested[t] && p.gpio[t] == r.events[k].gpio)
    decreases spkCnt - i
  {
    if i < spkCnt {
      var ty := Cell(info, i, CELL_CTRL_TYPE);
      if ty < BOARD_FUNC_MAX {
        var q := if p.gpioRequested[ty] then p.(gpioRequested := p.gpioRequested[ty := false]) else p;
        var ev' := if p.gpioRequested[ty] then ev + [GpioFree(p.gpio[ty])] else ev;
        FreeLoopFreesRequested(info, spkCnt, i + 1, q, ev');
        var r := FreeLoop(info, spkCnt, i, p, ev);
        forall k | |ev| <= k < |r.events|
          ensures r.events[k].GpioFree? && exists t :: 0 <= t < BOARD_FUNC_MAX && p.gpioRequested[t] && p.gpio[t] == r.events[k].gpio
        {
          if k < |ev'| {
            assert r.events[k] == ev'[k] == GpioFree(p.gpio[ty]);
          } else {
            var t :| 0 <= t < BOARD_FUNC_MAX && q.gpioRequested[t] && q.gpio[t] == r.events[k].gpio;
            assert p.gpioRequested[t];
          }
        }
      }
    }
  }

  /** Freeing: -EINVAL for a ragged array, and on success nothing listed stays requested. */
  lemma FreeReleasesListed(info: seq<u32>, allocOk: bool, p: Priv)
    requires Wf(p)
    ensures var r := FreeSpec(info, allocOk, p);
      && ((|info| == 0 || |info| % CELL_NUMBER != 0) ==> r.ret == -EINVAL && r.priv == p)
      && (r.ret == 0 ==> forall j :: 0 <= j < SpkCount(info) ==>
            (MulMono(j, SpkCount(info));
             Cell(info, j, CELL_CTRL_TYPE) < BOARD_FUNC_MAX && !r.priv.gpioRequested[Cell(info, j, CELL_CTRL_TYPE)]))
      && (forall k :: 0 <= k < |r.events| ==>
            r.events[k].GpioFree? && exists t :: 0 <= t < BOARD_FUNC_MAX && p.gpioRequested[t] && p.gpio[t] == r.events[k].gpio)
  {
    if |info| > 0 && |info| % CELL_NUMBER == 0 && allocOk {
      FreeLoopReleases(info, SpkCount(info), 0, p, []);
      FreeLoopFreesRequested(info, SpkCount(info), 0, p, []);
    }
  }

  /* ---------------------------------------------------------------------
   * The hook layer's state
   * ------------------------------------------------------------------- */

  class HookSpkPriv {
    /** CONFIG_SND_SOC_FS1815 */
    const fs1815: bool
    var gpio: seq<int>
    var privData: seq<int>
    var gpioRequested: seq<bool>
    var state: seq<int>
    var rcvSharedMultiSpk: bool
    var hookAudioSense: seq<int>
    var audioSense: int
    var selectMode: int
    var extralIicPaEn: u32
    var extCtrl: seq<Hook>
    var events: seq<HookEvent>

    function View(): Priv
      reads this
    {
      Priv(gpio, privData, gpioRequested, state, rcvSharedMultiSpk, hookAudioSense, audioSense,
           selectMode, extralIicPaEn, extCtrl)
    }

    ghost predicate Valid()
      reads this
    {
      Wf(View()) && SensesOk(View())
    }

    /** The statics before any call: all zero. */
    constructor (fs1815: bool)
      ensures Valid() && View() == Zero() && events == [] && this.fs1815 == fs1815
    {
      this.fs1815 := fs1815;
      var z := Zero();
      gpio, privData, gpioRequested, state := z.gpio, z.privData, z.gpioRequested, z.state;
      rcvSharedMultiSpk, hookAudioSense, audioSense := z.rcvShared, z.hookAudioSense, z.audioSense;
      selectMode, extralIicPaEn, extCtrl := z.selectMode, z.extralIicPaEn, z.extCtrl;
      events := [];
    }

    /** audio_sense_put */
    method AudioSensePut(sense: int)
      requires Valid()
      modifies this
      ensures Valid() && View() == old(View()).(audioSense := ClampSense(sense)) && events == old(events)
    {
      var s := sense;
      if AUDIO_SENSE_MUSIC > s || AUDIO_SENSE_MAX <= s {
        s := AUDIO_SENSE_MUSIC;
      }
      audioSense := s;
    }

    /** audio_sense_get: always a real sense. */
    function AudioSenseGet(): (r: int)
      reads this
      requires Valid()
      ensures AUDIO_SENSE_MUSIC <= r < AUDIO_SENSE_MAX
    {
      audioSense
    }

    /** audio_sense_need_update */
    function AudioSenseNeedUpdate(id: int): (r: bool)
      reads this
      requires Valid() && 0 <= id < BOARD_FUNC_MAX
      ensures r ==> hookAudioSense[id] != AUDIO_SENSE_CLOSE
      ensures r <==> NeedUpdate(View(), id)
    {
      audioSense != hookAudioSense[id] && AUDIO_SENSE_CLOSE != hookAudioSense[id]
    }

    /** hook_gpio_pulse_control */
    method GpioPulseControl(g: int, mode: u32)
      modifies this
      ensures View() == old(View()) && events == old(events) + PulseTrain(g, mode)
    {
      var i := 1;
      while i < mode
        invariant 1 <= i <= if mode >= 1 then mode else 1
        invariant View() == old(View()) && events == old(events) + Pulses(g, i - 1)
      {
        events := events + [GpioSet(g, EN_LEVEL), GpioSet(g, 1 - EN_LEVEL)];
        i := i + 1;
      }
      assert i - 1 == if mode >= 1 then mode - 1 else 0;
      events := events + [GpioSet(g, EN_LEVEL)];
    }

    /** hook_general_spk */
    method GeneralSpk(id: int, on: int) returns (ret: int)
      requires Valid() && 0 <= id < BOARD_FUNC_MAX
      modifies this
      ensures Valid() && View() == old(View())
      ensures var o := GeneralSpkSpec(old(View()), id, on); ret == o.ret && events == old(events) + o.events
    {
      var g := gpio[id];
      if g < 0 {
        return -EINVAL;
      }
      var mode := privData[id];
      if mode > GENERAL_SPK_MODE {
        mode := 0;
      }
      if on == 0 {
        events := events + [GpioSet(g, 1 - EN_LEVEL)];
        return HOOK_OK;
      }
      if selectMode != 0 {
        mode := selectMode;
      }
      GpioPulseControl(g, ToU32(mode));
      ret := HOOK_OK;
    }

    /** set_fs1815_scene */
    method SetFs1815Scene(sense: int)
      modifies this
      ensures View() == old(View()) && events == old(events) + [FsmSetScene(Fs1815Scene(sense))]
    {
      events := events + [FsmSetScene(Fs1815Scene(sense))];
    }

    /** hook_spk_i2c_fs1815 */
    method SpkI2cFs1815(id: int, on: int) returns (ret: int)
      requires Wf(View()) && 0 <= id < BOARD_FUNC_MAX
      modifies this
      ensures Wf(View()) && ret == HOOK_OK
      ensures var s := Fs1815Spec(old(View()), id, on); View() == s.priv && events == old(events) + s.events
    {
      var sense := audioSense;
      var mode := privData[id];
      if mode > GENERAL_SPK_MODE {
        mode := 0;
      }
      if on != 0 {
        if selectMode != 0 {
          mode := selectMode;
        }
        state := state[id := mode];
        RecordOnSense(id, sense);
        events := events + [FsmSpeakerOn];
      } else {
        events := events + [FsmSpeakerOff];
        state := state[id := 0];
        hookAudioSense := hookAudioSense[id := AUDIO_SENSE_CLOSE];
        SetFs1815Scene(AUDIO_SENSE_CLOSE);
      }
      ret := HOOK_OK;
    }

    /** The sense bookkeeping and scene selection of hook_spk_i2c_fs1815 turning `id` on. */
    method RecordOnSense(id: int, sense: int)
      requires Wf(View()) && 0 <= id < BOARD_FUNC_MAX
      modifies this
      ensures View() == old(View()).(hookAudioSense := old(hookAudioSense)[id := OnRecorded(id, sense)])
      ensures events == old(events) + [FsmSetScene(Fs1815Scene(OnScene(id, sense)))]
    {
      if id == BOARD_FUNC_EAR && (sense == AUDIO_SENSE_VOIP || sense == AUDIO_SENSE_VOICE) {
        hookAudioSense := hookAudioSense[id := AUDIO_SENSE_RCV];
        SetFs1815Scene(AUDIO_SENSE_RCV);
      } else if (id == BOARD_FUNC_SPK || id == BOARD_FUNC_SPK1) && (sense == AUDIO_SENSE_VOIP || sense == AUDIO_SENSE_VOICE) {
        hookAudioSense := hookAudioSense[id := sense];
        SetFs1815Scene(AUDIO_SENSE_VOICE);
      } else {
        hookAudioSense := hookAudioSense[id := sense];
        SetFs1815Scene(sense);
      }
    }

    /** The first phase of a speaker request in hook_spk_i2c. */
    method EarToVirtualPhase(on: int)
      requires Wf(View())
      modifies this
      ensures Wf(View())
      ensures var s := EarToVirtual(old(View()), on); View() == s.priv && events == old(events) + s.events
    {
      if on != 0 && 0 < state[BOARD_FUNC_EAR] {
        var r := SpkI2cFs1815(BOARD_FUNC_EAR, 0);
        if rcvSharedMultiSpk {
          selectMode := 0;
          r := SpkI2cFs1815(BOARD_FUNC_SPK1, 0);
        }
        state := state[BOARD_FUNC_EAR := -1];
      }
    }

    /** The second phase: the speaker itself. */
    method SpkSwitchPhase(on: int)
      requires Wf(View())
      modifies this
      ensures Wf(View())
      ensures var s := SpkSwitch(old(View()), on); View() == s.priv && events == old(events) + s.events
    {
      var r := SpkI2cFs1815(BOARD_FUNC_SPK, on);
      if rcvSharedMultiSpk {
        selectMode := 0;
        r := SpkI2cFs1815(BOARD_FUNC_SPK1, on);
      }
    }

    /** The third phase: a virtually-on earpiece comes back. */
    method EarBackOnPhase(on: int)
      requires Wf(View())
      modifies this
      ensures Wf(View())
      ensures var s := EarBackOn(old(View()), on); View() == s.priv && events == old(events) + s.events
    {
      if on == 0 && state[BOARD_FUNC_EAR] == -1 {
        var r := SpkI2cFs1815(BOARD_FUNC_EAR, 1);
        if rcvSharedMultiSpk {
          selectMode := privData[BOARD_FUNC_EAR];
          r := SpkI2cFs1815(BOARD_FUNC_SPK1, 1);
          selectMode := 0;
        }
      }
    }

    /** The speaker request of hook_spk_i2c, its three phases in order. */
    method SpkRequest(on: int)
      requires Wf(View())
      modifies this
      ensures Wf(View())
      ensures var s := SpkI2cSpec(old(View()), BOARD_FUNC_SPK, on); View() == s.priv && events == old(events) + s.events
    {
      ghost var p := View();
      EarToVirtualPhase(on);
      ghost var a := EarToVirtual(p, on);
      SpkSwitchPhase(on);
      ghost var b := SpkSwitch(a.priv, on);
      EarBackOnPhase(on);
      assert events == old(events) + a.events + b.events + EarBackOn(b.priv, on).events;
    }

    /** The earpiece request of hook_spk_i2c. */
    method EarSwitchPhase(on: int)
      requires Wf(View())
      modifies this
      ensures Wf(View())
      ensures var s := EarSwitch(old(View()), on); View() == s.priv && events == old(events) + s.events
    {
      if 0 < state[BOARD_FUNC_SPK] {
        state := state[BOARD_FUNC_EAR := if on > 0 then -1 else 0];
      } else {
        var r := SpkI2cFs1815(BOARD_FUNC_EAR, on);
        if rcvSharedMultiSpk {
          selectMode := if on > 0 then privData[BOARD_FUNC_EAR] else 0;
          r := SpkI2cFs1815(BOARD_FUNC_SPK1, on);
          selectMode := 0;
        }
      }
    }

    /** hook_spk_i2c */
    method SpkI2c(id: int, on: int) returns (ret: int)
      requires Valid() && 0 <= id < BOARD_FUNC_MAX
      modifies this
      ensures Valid() && ret == HOOK_OK
      ensures var s := SpkI2cSpec(old(View()), id, on); View() == s.priv && events == old(events) + s.events
    {
      SpkI2cKeepsSenses(View(), id, on);
      if rcvSharedMultiSpk && id == BOARD_FUNC_SPK1 {
        return HOOK_OK;
      }
      if id == BOARD_FUNC_SPK {
        SpkRequest(on);
      } else if id == BOARD_FUNC_EAR {
        EarSwitchPhase(on);
      } else {
        var r := SpkI2cFs1815(id, on);
      }
      ret := HOOK_OK;
    }

    /** The sense reset at the head of sprd_asoc_card_parse_hook. */
    method ResetSensesPhase()
      requires Wf(View())
      modifies this
      ensures View() == ResetSenses(old(View())) && events == old(events)
    {
      audioSense := AUDIO_SENSE_MUSIC;
      var k := 0;
      while k < BOARD_FUNC_MAX
        invariant 0 <= k <= BOARD_FUNC_MAX && |hookAudioSense| == BOARD_FUNC_MAX
        invariant forall j :: 0 <= j < k ==> hookAudioSense[j] == AUDIO_SENSE_CLOSE
        invariant View() == old(View()).(audioSense := AUDIO_SENSE_MUSIC, hookAudioSense := hookAudioSense)
        invariant events == old(events)
      {
        hookAudioSense := hookAudioSense[k := AUDIO_SENSE_CLOSE];
        k := k + 1;
      }
    }

    /** sprd_asoc_card_parse_hook */
    method ParseHook(dt: DtHook, allocOk: bool) returns (ret: int)
      requires Valid()
      modifies this
      ensures Valid()
      ensures var r := ParseSpec(fs1815, dt, allocOk, old(View()));
        ret == r.ret && View() == r.priv && events == old(events) + r.events
    {
      ParseResetsSenses(fs1815, dt, allocOk, View());
      ResetSensesPhase();
      if dt.extralIicPa.Some? {
        extralIicPaEn := dt.extralIicPa.value;
        extCtrl := extCtrl[BOARD_FUNC_SPK := HookArr(fs1815)[BOARD_FUNC_SPK]];
        return 0;
      }
      var elemCnt := |dt.info|;
      if elemCnt <= 0 {
        return -EINVAL;
      }
      if elemCnt % CELL_NUMBER != 0 {
        return -EINVAL;
      }
      var spkCnt := elemCnt / CELL_NUMBER;
      if spkCnt > BOARD_FUNC_MAX {
        spkCnt := BOARD_FUNC_MAX;
      }
      if !allocOk {
        return -ENOMEM;
      }
      rcvSharedMultiSpk := dt.rcvShared;
      ret := ParseEntries(dt, spkCnt);
    }

    /** The entry loop of sprd_asoc_card_parse_hook. */
    method ParseEntries(dt: DtHook, spkCnt: nat) returns (ret: int)
      requires Wf(View()) && spkCnt <= BOARD_FUNC_MAX && spkCnt * CELL_NUMBER <= |dt.info|
      modifies this
      ensures var r := ParseLoop(fs1815, dt, spkCnt, 0, old(View()), []);
        ret == r.ret && View() == r.priv && events == old(events) + r.events
    {
      ghost var target := ParseLoop(fs1815, dt, spkCnt, 0, View(), []);
      ghost var acc: seq<HookEvent> := [];
      var i := 0;
      while i < spkCnt
        invariant 0 <= i <= spkCnt && Wf(View())
        invariant ParseLoop(fs1815, dt, spkCnt, i, View(), acc) == target
        invariant events == old(events) + acc
        decreases spkCnt - i
      {
        ghost var p := View();
        ghost var e := ParseEntry(fs1815, dt, spkCnt, i, p);
        var stop, r := ParseOneEntry(dt, spkCnt, i);
        acc := acc + e.events;
        if stop {
          assert target == ParseOut(e.ret, e.priv, acc);
          return r;
        }
        assert target == ParseLoop(fs1815, dt, spkCnt, i + 1, e.priv, acc);
        i := i + 1;
      }
      ret := 0;
    }

    /** The body of sprd_asoc_card_parse_hook's loop for entry `i`. */
    method ParseOneEntry(dt: DtHook, spkCnt: nat, i: nat) returns (stop: bool, ret: int)
      requires Wf(View()) && spkCnt <= BOARD_FUNC_MAX && spkCnt * CELL_NUMBER <= |dt.info| && i < spkCnt
      modifies this
      ensures var e := ParseEntry(fs1815, dt, spkCnt, i, old(View()));
        && stop == e.Stop? && (stop ==> ret == e.ret)
        && View() == e.priv && events == old(events) + e.events
    {
      var num := i * CELL_NUMBER;
      var ty := dt.info[CELL_CTRL_TYPE + num];
      if ty >= BOARD_FUNC_MAX {
        return true, -EINVAL;
      }
      var hookSel := dt.info[CELL_HOOK + num];
      if hookSel >= |HookArr(fs1815)| {
        return true, -EINVAL;
      }
      extCtrl := extCtrl[ty := HookArr(fs1815)[hookSel]];
      var priv := dt.info[CELL_PRIV + num];
      privData := privData[ty := ToI32(priv)];
      if fs1815 && hookSel == 1 {
        return false, 0;
      }
      stop, ret := BindEntryGpio(dt, spkCnt, i, ty);
    }

    /** The GPIO part of one entry of sprd_asoc_card_parse_hook's loop. */
    method BindEntryGpio(dt: DtHook, spkCnt: nat, i: nat, ty: int) returns (stop: bool, ret: int)
      requires Wf(View()) && spkCnt <= BOARD_FUNC_MAX && spkCnt * CELL_NUMBER <= |dt.info| && i < spkCnt
      requires 0 <= ty < BOARD_FUNC_MAX
      modifies this
      ensures var e := EntryGpio(dt, spkCnt, i, ty, old(View()));
        && stop == e.Stop? && (stop ==> ret == e.ret)
        && View() == e.priv && events == old(events) + e.events
    {
      var share := dt.info[CELL_SHARE_GPIO + i * CELL_NUMBER];
      if share > 0 {
        if share > spkCnt {
          extCtrl := extCtrl[ty := NoHook];
          return true, -EINVAL;
        }
        gpio := gpio[ty := gpio[share - 1]];
        return false, 0;
      }
      var g := dt.namedGpio(i);
      if g < 0 {
        extCtrl := extCtrl[ty := NoHook];
        return true, g;
      }
      gpio := gpio[ty := g];
      events := events + [GpioRequest(g)];
      var rq := dt.requestRet(i);
      if rq == 0 {
        gpioRequested := gpioRequested[ty := true];
      } else if rq < 0 {
        gpioRequested := gpioRequested[ty := false];
        extCtrl := extCtrl[ty := NoHook];
        return true, rq;
      }
      return false, 0;
    }

    /** sprd_asoc_card_ext_hook_free_gpio */
    method FreeGpio(info: seq<u32>, allocOk: bool) returns (ret: int)
      requires Valid()
      modifies this
      ensures Valid()
      ensures var r := FreeSpec(info, allocOk, old(View()));
        ret == r.ret && View() == r.priv && events == old(events) + r.events
    {
      var elemCnt := |info|;
      if elemCnt <= 0 {
        return -EINVAL;
      }
      if elemCnt % CELL_NUMBER != 0 {
        return -EINVAL;
      }
      var spkCnt := elemCnt / CELL_NUMBER;
      if spkCnt > BOARD_FUNC_MAX {
        spkCnt := BOARD_FUNC_MAX;
      }
      if !allocOk {
        return -ENOMEM;
      }
      ghost var target := FreeLoop(info, spkCnt, 0, View(), []);
      ghost var acc: seq<HookEvent> := [];
      var i := 0;
      while i < spkCnt
        invariant 0 <= i <= spkCnt && Wf(View())
        invariant FreeLoop(info, spkCnt, i, View(), acc) == target
        invariant events == old(events) + acc
        invariant Valid()
        decreases spkCnt - i
      {
        var ty := info[CELL_CTRL_TYPE + i * CELL_NUMBER];
        if ty >= BOARD_FUNC_MAX {
          return -EINVAL;
        }
        ghost var before := View();
        if gpioRequested[ty] {
          events := events + [GpioFree(gpio[ty])];
          acc := acc + [GpioFree(gpio[ty])];
          gpioRequested := gpioRequested[ty := false];
        }
        assert View() == if before.gpioRequested[ty] then before.(gpioRequested := before.gpioRequested[ty := false]) else before;
        i := i + 1;
      }
      ret := 0;
    }
  }
}
