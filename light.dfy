/**
 * The light platform: which devices get a light entity, and the light entity
 * `DayBetterLight` with its local state cache and the order in which its
 * commands reach the coordinator.
 *
 * The operations are specified by functions over the value `LightState` (the
 * entity's mutable fields); the class `DayBetterLight` holds those fields and its
 * methods are proved to leave exactly the state the functions describe.
 */
module Light {
  import opened Wrappers
  import opened DeviceApi
  import opened Text
  import opened Coordinator

  /** The integration's domain, the first half of every device-registry identifier. */
  const Domain := "daybetter_light_local"
  /** The effect name that means "no scene". */
  const NoneScene := "none"
  /** Models that are lights even without a light feature flag. */
  const LightSkus: seq<string> := ["P076", "P077", "P078"]
  /** Models whose colour temperature reaches 7000 K instead of 5000 K (compared lower-cased). */
  const WideKelvinSkus: seq<string> := ["P076"]
  const MinColorTempKelvin := 2200
  const MaxColorTempKelvinWide := 7000
  const MaxColorTempKelvinNarrow := 5000

  // ---------------------------------------------------------------------------
  // Classification

  /** `is_light_device`: a device with capabilities is a light if it has a light feature or is a known light model. */
  function IsLightDevice(d: Device): (r: bool)
    ensures d.capabilities.None? ==> !r
    ensures d.capabilities.Some? && HasLightFeature(d.capabilities.value) ==> r
    ensures d.capabilities.Some? && !HasLightFeature(d.capabilities.value) ==>
              (r <==> d.sku == "P076" || d.sku == "P077" || d.sku == "P078")
  {
    if d.capabilities.None? then false
    else if HasLightFeature(d.capabilities.value) then true
    else d.sku in LightSkus
  }

  /** A light entity's unique id: the bare fingerprint. */
  function LightUniqueId(fingerprint: string): (id: string)
    ensures id == fingerprint
  {
    fingerprint
  }

  // ---------------------------------------------------------------------------
  // Colour modes and the entity's configuration

  /** Home Assistant's colour modes, as far as this light can report them. */
  datatype ColorMode = OnOffMode | BrightnessMode | ColorTempMode | RgbMode

  /** The colour modes `__init__` collects before Home Assistant filters them. */
  function CandidateColorModes(caps: Option<Capabilities>): (m: set<ColorMode>)
    ensures OnOffMode in m
    ensures RgbMode in m <==> caps.Some? && ColorRgbFlag in caps.value.features
    ensures ColorTempMode in m <==> caps.Some? && ColorKelvinTemperatureFlag in caps.value.features
    ensures BrightnessMode in m <==> caps.Some? && BrightnessFlag in caps.value.features
  {
    {OnOffMode}
    + (if caps.Some? && ColorRgbFlag in caps.value.features then {RgbMode} else {})
    + (if caps.Some? && ColorKelvinTemperatureFlag in caps.value.features then {ColorTempMode} else {})
    + (if caps.Some? && BrightnessFlag in caps.value.features then {BrightnessMode} else {})
  }

  /** `__init__`'s loop-free collection of colour modes: on/off, then one mode per capability flag. */
  method CollectColorModes(caps: Option<Capabilities>) returns (modes: set<ColorMode>)
    ensures modes == CandidateColorModes(caps)
  {
    modes := {OnOffMode};
    if caps.Some? {
      if ColorRgbFlag in caps.value.features {
        modes := modes + {RgbMode};
      }
      if ColorKelvinTemperatureFlag in caps.value.features {
        modes := modes + {ColorTempMode};
      }
      if BrightnessFlag in caps.value.features {
        modes := modes + {BrightnessMode};
      }
    }
  }

  /** A set of colour modes with exactly one element is the singleton of one of the four modes. */
  lemma SingletonMode(s: set<ColorMode>)
    requires |s| == 1
    ensures s == {OnOffMode} || s == {BrightnessMode} || s == {ColorTempMode} || s == {RgbMode}
  {
    var m :| m in s;
    assert |s - {m}| == 0;
    assert s == {m};
    match m
    case OnOffMode =>
    case BrightnessMode =>
    case ColorTempMode =>
    case RgbMode =>
  }

  /** The fixed colour mode: the only supported mode when there is just one. */
  function SoleMode(s: set<ColorMode>): (r: Option<ColorMode>)
    ensures r.Some? <==> |s| == 1
    ensures r.Some? ==> s == {r.value}
  {
    if s == {OnOffMode} then Some(OnOffMode)
    else if s == {BrightnessMode} then Some(BrightnessMode)
    else if s == {ColorTempMode} then Some(ColorTempMode)
    else if s == {RgbMode} then Some(RgbMode)
    else
      assert |s| != 1 by { if |s| == 1 { SingletonMode(s); } }
      None
  }

  /**
   * What `__init__` fixes once: supported colour modes, the fixed mode, the effect
   * list and the colour-temperature range. `toNative` and `toHa` are the two
   * floating-point brightness rescalings (0..255 to the device's 0..100 and back),
   * left uninterpreted.
   */
  datatype LightConfig = LightConfig(
    supportedColorModes: set<ColorMode>,
    fixedColorMode: Option<ColorMode>,
    effectList: Option<seq<string>>,
    effectSupported: bool,
    minColorTempKelvin: Option<int>,
    maxColorTempKelvin: Option<int>,
    toNative: int -> int,
    toHa: int -> int)

  // ---------------------------------------------------------------------------
  // The entity's mutable state

  /** The `_cached_*` fields. */
  datatype Cache = Cache(on: bool, brightness: int, rgbColor: Option<Rgb>, temperatureColor: Option<int>, scene: Option<string>)

  /**
   * `_last_color_state`: the colour mode, the brightness on Home Assistant's scale, and
   * the saved colour, which is the one-element tuple `(kelvin,)` when the mode is
   * ColorTempMode and the RGB colour (possibly None) otherwise; the other field is None.
   */
  datatype ColorState = ColorState(mode: ColorMode, brightness: int, kelvin: Option<int>, rgb: Option<Rgb>)

  /** Every field of the entity that its operations change. */
  datatype LightState = LightState(
    cache: Cache,
    attrEffect: Option<string>,
    attrColorMode: Option<ColorMode>,
    lastColorState: Option<ColorState>)

  /** The class-level defaults every entity starts from. */
  const InitialState := LightState(Cache(false, 0, None, None, None), None, None, None)

  // ---------------------------------------------------------------------------
  // Read accessors: the live attribute when the device is online and present, else the cache

  /** `is_on`. */
  function IsOn(s: LightState, view: CoordinatorView): (r: bool)
    ensures !view.online ==> r == s.cache.on
    ensures view.online && view.live.None? ==> r == s.cache.on
    ensures view.online && view.live.Some? && view.live.value.on.Present? ==> r == view.live.value.on.value
    ensures view.online && view.live.Some? && view.live.value.on.Missing? ==> r == s.cache.on
  {
    if view.online && view.live.Some? then view.live.value.on.GetOr(s.cache.on) else s.cache.on
  }

  /** `rgb_color`. */
  function RgbColor(s: LightState, view: CoordinatorView): (r: Option<Rgb>)
    ensures !view.online ==> r == s.cache.rgbColor
    ensures view.online && view.live.None? ==> r == s.cache.rgbColor
    ensures view.online && view.live.Some? && view.live.value.rgbColor.Present? ==> r == view.live.value.rgbColor.value
    ensures view.online && view.live.Some? && view.live.value.rgbColor.Missing? ==> r == s.cache.rgbColor
  {
    if view.online && view.live.Some? then view.live.value.rgbColor.GetOr(s.cache.rgbColor) else s.cache.rgbColor
  }

  /** `color_temp_kelvin`. */
  function ColorTempKelvin(s: LightState, view: CoordinatorView): (r: Option<int>)
    ensures !view.online ==> r == s.cache.temperatureColor
    ensures view.online && view.live.None? ==> r == s.cache.temperatureColor
    ensures view.online && view.live.Some? && view.live.value.temperatureColor.Present? ==> r == view.live.value.temperatureColor.value
    ensures view.online && view.live.Some? && view.live.value.temperatureColor.Missing? ==> r == s.cache.temperatureColor
  {
    if view.online && view.live.Some? then view.live.value.temperatureColor.GetOr(s.cache.temperatureColor)
    else s.cache.temperatureColor
  }

  /** `brightness`, rescaled to Home Assistant's 0..255 by `toHa`. */
  function Brightness(cfg: LightConfig, s: LightState, view: CoordinatorView): (r: int)
    ensures !view.online ==> r == cfg.toHa(s.cache.brightness)
    ensures view.online && view.live.None? ==> r == cfg.toHa(s.cache.brightness)
    ensures view.online && view.live.Some? && view.live.value.brightness.Present? ==> r == cfg.toHa(view.live.value.brightness.value)
    ensures view.online && view.live.Some? && view.live.value.brightness.Missing? ==> r == cfg.toHa(s.cache.brightness)
  {
    if view.online && view.live.Some? then cfg.toHa(view.live.value.brightness.GetOr(s.cache.brightness))
    else cfg.toHa(s.cache.brightness)
  }

  /** `color_mode`: the fixed mode wins; then colour temperature above 0, RGB, brightness above 0, on/off. */
  function ColorModeOf(cfg: LightConfig, s: LightState): (r: ColorMode)
    ensures cfg.fixedColorMode.Some? ==> r == cfg.fixedColorMode.value
    ensures cfg.fixedColorMode.None? ==>
              (r == ColorTempMode <==> s.cache.temperatureColor.Some? && s.cache.temperatureColor.value > 0)
    ensures cfg.fixedColorMode.None? && r != ColorTempMode ==> (r == RgbMode <==> s.cache.rgbColor.Some?)
    ensures cfg.fixedColorMode.None? && r != ColorTempMode && r != RgbMode ==>
              (r == BrightnessMode <==> s.cache.brightness > 0)
  {
    if cfg.fixedColorMode.Some? then cfg.fixedColorMode.value
    else if s.cache.temperatureColor.Some? && s.cache.temperatureColor.value > 0 then ColorTempMode
    else if s.cache.rgbColor.Some? then RgbMode
    else if s.cache.brightness > 0 then BrightnessMode
    else OnOffMode
  }

  // ---------------------------------------------------------------------------
  // _update_state_from_cache

  /** The effect shown for a cached scene: the scene when it is a non-empty name other than "none". */
  function EffectOfScene(scene: Option<string>): (e: Option<string>)
    ensures e.Some? <==> scene.Some? && scene.value != "" && scene.value != NoneScene
    ensures e.Some? ==> e == scene
  {
    if scene.Some? && scene.value != "" && scene.value != NoneScene then scene else None
  }

  /**
   * `_update_state_from_cache` with the snapshot the coordinator returned: nothing
   * changes for an absent or empty snapshot; otherwise every cached field is copied
   * (defaults off and 0, the rest None) and the shown effect follows the scene.
   */
  function FromCache(s: LightState, snapshot: Option<CachedState>): (r: LightState)
    ensures snapshot.None? || !snapshot.value.IsTruthy() ==> r == s
    ensures snapshot.Some? && snapshot.value.IsTruthy() ==>
              var c := snapshot.value;
              && r.cache.on == c.on.GetOr(false)
              && r.cache.brightness == c.brightness.GetOr(0)
              && r.cache.rgbColor == c.rgbColor
              && r.cache.temperatureColor == c.temperatureColor
              && r.cache.scene == c.scene
              && r.attrEffect == EffectOfScene(c.scene)
    ensures r.attrColorMode == s.attrColorMode && r.lastColorState == s.lastColorState
  {
    if snapshot.Some? && snapshot.value.IsTruthy() then
      var c := snapshot.value;
      var cache := Cache(c.on.GetOr(false), c.brightness.GetOr(0), c.rgbColor, c.temperatureColor, c.scene);
      s.(cache := cache, attrEffect := EffectOfScene(cache.scene))
    else
      s
  }

  /** Refreshing twice from the same snapshot is the same as refreshing once. */
  lemma FromCacheIdempotent(s: LightState, snapshot: Option<CachedState>)
    ensures FromCache(FromCache(s, snapshot), snapshot) == FromCache(s, snapshot)
  {
  }

  /** After a refresh from a non-empty snapshot the state no longer depends on what was cached before. */
  lemma FromCacheForgetsOldCache(s: LightState, t: LightState, snapshot: Option<CachedState>)
    requires snapshot.Some? && snapshot.value.IsTruthy()
    requires s.attrColorMode == t.attrColorMode && s.lastColorState == t.lastColorState
    ensures FromCache(s, snapshot) == FromCache(t, snapshot)
  {
  }

  // ---------------------------------------------------------------------------
  // _save_last_color_state and _restore_last_color_state

  /** `_save_last_color_state`: the current colour mode, brightness and colour. */
  function SaveOf(cfg: LightConfig, s: LightState, view: CoordinatorView): (cs: ColorState)
    ensures cs.mode == ColorModeOf(cfg, s) && cs.brightness == Brightness(cfg, s, view)
    ensures cs.mode == ColorTempMode ==> cs.kelvin == ColorTempKelvin(s, view) && cs.rgb.None?
    ensures cs.mode != ColorTempMode ==> cs.rgb == RgbColor(s, view) && cs.kelvin.None?
  {
    var mode := ColorModeOf(cfg, s);
    if mode == ColorTempMode then ColorState(mode, Brightness(cfg, s, view), ColorTempKelvin(s, view), None)
    else ColorState(mode, Brightness(cfg, s, view), None, RgbColor(s, view))
  }

  /** The saved colour is truthy: a one-element tuple always is, an RGB colour when present. */
  predicate HasSavedColor(cs: ColorState) {
    cs.mode == ColorTempMode || cs.rgb.Some?
  }

  /** The colour call `_restore_last_color_state` replays, if any. */
  function ColorCommand(cs: ColorState): (c: Option<Command>)
    ensures c.Some? <==> (cs.mode == RgbMode && cs.rgb.Some?) || cs.mode == ColorTempMode
    ensures cs.mode == RgbMode && cs.rgb.Some? ==> c == Some(SetRgbColor(cs.rgb.value))
    ensures cs.mode == ColorTempMode ==> c == Some(SetTemperature(cs.kelvin))
  {
    if !HasSavedColor(cs) then None
    else if cs.mode == RgbMode then Some(SetRgbColor(cs.rgb.value))
    else if cs.mode == ColorTempMode then Some(SetTemperature(cs.kelvin))
    else None
  }

  /** Every call `_restore_last_color_state` makes for a saved state, in order. */
  function RestorePlan(cfg: LightConfig, cs: ColorState): (p: seq<Command>)
    ensures forall c :: c in p ==> c.SetRgbColor? || c.SetTemperature? || c.SetBrightness?
  {
    (match ColorCommand(cs) case Some(c) => [c] case None => [])
    + (if cs.brightness != 0 then [SetBrightness(cfg.toNative(cs.brightness))] else [])
  }

  /** The calls of a restore from whatever `_last_color_state` holds (none when it is None). */
  function RestoreCalls(cfg: LightConfig, saved: Option<ColorState>): (p: seq<Command>)
    ensures forall c :: c in p ==> c.SetRgbColor? || c.SetTemperature? || c.SetBrightness?
  {
    match saved
    case None => []
    case Some(cs) => RestorePlan(cfg, cs)
  }

  /** Restoring what was just saved replays the current colour and the current brightness, nothing else. */
  lemma SaveThenRestore(cfg: LightConfig, s: LightState, view: CoordinatorView)
    ensures var plan := RestorePlan(cfg, SaveOf(cfg, s, view));
            var b := Brightness(cfg, s, view);
            && (ColorModeOf(cfg, s) == ColorTempMode ==> plan[0] == SetTemperature(ColorTempKelvin(s, view)))
            && (ColorModeOf(cfg, s) == RgbMode && RgbColor(s, view).Some? ==>
                  plan[0] == SetRgbColor(RgbColor(s, view).value))
            && (ColorModeOf(cfg, s) == OnOffMode || ColorModeOf(cfg, s) == BrightnessMode
                || (ColorModeOf(cfg, s) == RgbMode && RgbColor(s, view).None?) ==>
                  plan == if b != 0 then [SetBrightness(cfg.toNative(b))] else [])
            && (b != 0 ==> plan[|plan| - 1] == SetBrightness(cfg.toNative(b)))
            && (b == 0 ==> forall c :: c in plan ==> !c.SetBrightness?)
            && |plan| == (if ColorModeOf(cfg, s) == ColorTempMode || (ColorModeOf(cfg, s) == RgbMode && RgbColor(s, view).Some?)
                          then 1 else 0)
                         + (if b != 0 then 1 else 0)
  {
  }

  /** `_restore_last_color_state` as a step of an operation in progress. */
  function RestoreRun(cfg: LightConfig, r: Run<LightState>, failAt: Option<nat>): (r': Run<LightState>)
    ensures r'.state.cache == r.state.cache
    ensures r'.state.attrEffect == r.state.attrEffect && r'.state.attrColorMode == r.state.attrColorMode
    ensures r.raised ==> r' == r
    ensures !r'.raised ==> r'.state.lastColorState.None?
    ensures r'.raised ==> r'.state.lastColorState == r.state.lastColorState
  {
    match r.state.lastColorState
    case None => r
    case Some(cs) =>
      var r1 := match ColorCommand(cs) case Some(c) => Await(r, c, failAt) case None => r;
      var r2 := if cs.brightness != 0 then Await(r1, SetBrightness(cfg.toNative(cs.brightness)), failAt) else r1;
      Then(r2, r2.state.(lastColorState := None))
  }

  /** A restore makes exactly the calls of `RestoreCalls`, stopping at the first that raises. */
  lemma RestoreRunFollows(cfg: LightConfig, r: Run<LightState>, done: seq<Command>, failAt: Option<nat>)
    requires Follows(r, done, failAt)
    ensures Follows(RestoreRun(cfg, r, failAt), done + RestoreCalls(cfg, r.state.lastColorState), failAt)
  {
    match r.state.lastColorState
    case None =>
      assert done + [] == done;
    case Some(cs) =>
      var p1 := match ColorCommand(cs) case Some(c) => [c] case None => [];
      var r1 := match ColorCommand(cs) case Some(c) => Await(r, c, failAt) case None => r;
      if ColorCommand(cs).Some? {
        AwaitFollows(r, done, ColorCommand(cs).value, failAt);
      } else {
        assert done + p1 == done;
      }
      var p2 := if cs.brightness != 0 then [SetBrightness(cfg.toNative(cs.brightness))] else [];
      if cs.brightness != 0 {
        AwaitFollows(r1, done + p1, SetBrightness(cfg.toNative(cs.brightness)), failAt);
      } else {
        assert done + p1 + p2 == done + p1;
      }
      assert done + p1 + p2 == done + RestorePlan(cfg, cs);
  }

  // ---------------------------------------------------------------------------
  // async_turn_on and async_turn_off

  /**
   * The keyword arguments of `async_turn_on`: brightness (0..255, Home Assistant's
   * scale), RGB colour, colour temperature, effect, and the names of any other
   * arguments (a transition, say) that this entity ignores.
   */
  datatype TurnOnArgs = TurnOnArgs(
    brightness: Option<int>,
    rgbColor: Option<Rgb>,
    colorTempKelvin: Option<int>,
    effect: Option<string>,
    otherKeys: set<string>)
  {
    /** `not kwargs`. */
    predicate IsEmpty() {
      brightness.None? && rgbColor.None? && colorTempKelvin.None? && effect.None? && otherKeys == {}
    }
  }

  /** Which way an entity operation ended: gated out offline, completed, or a call raised (logged, not re-raised). */
  datatype Outcome = Offline | Done | Failed

  /** The result of an entity operation: new state, calls made, outcome. */
  datatype Step = Step(state: LightState, sent: seq<Command>, outcome: Outcome)

  /** The effect is accepted for a scene call: non-empty, and in a non-empty effect list. */
  predicate EffectListed(cfg: LightConfig, e: string): (r: bool)
    ensures r <==> e != "" && cfg.effectList.Some? && e in cfg.effectList.value
  {
    e != "" && cfg.effectList.Some? && |cfg.effectList.value| > 0 && e in cfg.effectList.value
  }

  /** The brightness call, made first when a brightness is given. */
  function BrightnessCalls(cfg: LightConfig, args: TurnOnArgs): (p: seq<Command>)
    ensures args.brightness.None? ==> p == []
    ensures args.brightness.Some? ==> p == [SetBrightness(cfg.toNative(args.brightness.value))]
  {
    if args.brightness.Some? then [SetBrightness(cfg.toNative(args.brightness.value))] else []
  }

  /** The colour or effect calls: RGB first, else colour temperature, else a listed effect. */
  function ColorCalls(cfg: LightConfig, s: LightState, args: TurnOnArgs): (p: seq<Command>)
    ensures args.rgbColor.Some? ==> p == [SetRgbColor(args.rgbColor.value)]
    ensures args.rgbColor.None? && args.colorTempKelvin.Some? ==> p == [SetTemperature(Some(args.colorTempKelvin.value))]
    ensures forall c :: c in p ==> !c.TurnOn? && !c.TurnOff?
    ensures forall c :: c in p && c.SetBrightness? ==> c in RestoreCalls(cfg, s.lastColorState)
    ensures forall c :: c in p && c.SetScene? ==>
              args.rgbColor.None? && args.colorTempKelvin.None? && args.effect == Some(c.scene)
              && EffectListed(cfg, c.scene) && c.scene != NoneScene
    ensures args.rgbColor.None? && args.colorTempKelvin.None? && args.effect == Some(NoneScene)
            && EffectListed(cfg, NoneScene) ==>
              p == RestoreCalls(cfg, s.lastColorState)
    ensures args.rgbColor.None? && args.colorTempKelvin.None? && args.effect.Some?
            && EffectListed(cfg, args.effect.value) && args.effect.value != NoneScene ==>
              p == [SetScene(args.effect.value)]
    ensures args.rgbColor.None? && args.colorTempKelvin.None?
            && (args.effect.None? || !EffectListed(cfg, args.effect.value)) ==>
              p == []
  {
    if args.rgbColor.Some? then [SetRgbColor(args.rgbColor.value)]
    else if args.colorTempKelvin.Some? then [SetTemperature(Some(args.colorTempKelvin.value))]
    else if args.effect.Some? && EffectListed(cfg, args.effect.value) then
      if args.effect.value == NoneScene then RestoreCalls(cfg, s.lastColorState)
      else [SetScene(args.effect.value)]
    else []
  }

  /** The power call: made when the light is not on or no argument was given. */
  function PowerCalls(s: LightState, args: TurnOnArgs, view: CoordinatorView): (p: seq<Command>)
    ensures p == [] || p == [TurnOn]
    ensures TurnOn in p <==> !IsOn(s, view) || args.IsEmpty()
  {
    if !IsOn(s, view) || args.IsEmpty() then [TurnOn] else []
  }

  /** Every call a fully successful `async_turn_on` makes, in order. */
  function TurnOnPlan(cfg: LightConfig, s: LightState, args: TurnOnArgs, view: CoordinatorView): (p: seq<Command>)
    ensures args.brightness.Some? ==> |p| > 0 && p[0] == SetBrightness(cfg.toNative(args.brightness.value))
    ensures args.brightness.None? ==> forall c :: c in p ==> !c.SetBrightness? || c in RestoreCalls(cfg, s.lastColorState)
    ensures TurnOn in p <==> !IsOn(s, view) || args.IsEmpty()
    ensures TurnOn in p ==> p[|p| - 1] == TurnOn
    ensures TurnOff !in p
    ensures args.rgbColor.Some? ==>
              SetRgbColor(args.rgbColor.value) in p && forall c :: c in p ==> !c.SetTemperature? && !c.SetScene?
    ensures args.rgbColor.None? && args.colorTempKelvin.Some? ==>
              SetTemperature(Some(args.colorTempKelvin.value)) in p && forall c :: c in p ==> !c.SetRgbColor? && !c.SetScene?
    ensures args.rgbColor.None? && args.colorTempKelvin.None? && args.effect.Some?
            && EffectListed(cfg, args.effect.value) && args.effect.value != NoneScene ==>
              SetScene(args.effect.value) in p
    ensures forall c :: c in p && c.SetScene? ==>
              args.rgbColor.None? && args.colorTempKelvin.None? && args.effect == Some(c.scene)
              && EffectListed(cfg, c.scene) && c.scene != NoneScene
  {
    BrightnessCalls(cfg, args) + ColorCalls(cfg, s, args) + PowerCalls(s, args, view)
  }

  /**
   * The cache writes at the end of a successful `async_turn_on`: on, the brightness
   * that was sent, and the colour of highest precedence, which clears the other colour
   * and the scene; an effect other than "none" is cached as the scene whether or not
   * it was listed.
   */
  function CacheAfterTurnOn(cfg: LightConfig, c: Cache, args: TurnOnArgs): (r: Cache)
    ensures r.on
    ensures args.brightness.Some? ==> r.brightness == cfg.toNative(args.brightness.value)
    ensures args.brightness.None? ==> r.brightness == c.brightness
    ensures args.rgbColor.Some? ==>
              r.rgbColor == args.rgbColor && r.temperatureColor.None? && r.scene.None?
    ensures args.rgbColor.None? && args.colorTempKelvin.Some? ==>
              r.temperatureColor == args.colorTempKelvin && r.rgbColor.None? && r.scene.None?
    ensures args.rgbColor.None? && args.colorTempKelvin.None? ==>
              r.rgbColor == c.rgbColor && r.temperatureColor == c.temperatureColor
    ensures args.rgbColor.None? && args.colorTempKelvin.None? && args.effect.Some? && args.effect.value != NoneScene ==>
              r.scene == args.effect
    ensures args.rgbColor.None? && args.colorTempKelvin.None? && (args.effect.None? || args.effect.value == NoneScene) ==>
              r.scene == c.scene
    ensures args.rgbColor.Some? || args.colorTempKelvin.Some? ==> !(r.rgbColor.Some? && r.temperatureColor.Some?)
  {
    var c1 := c.(on := true,
                 brightness := if args.brightness.Some? then cfg.toNative(args.brightness.value) else c.brightness);
    if args.rgbColor.Some? then c1.(rgbColor := args.rgbColor, temperatureColor := None, scene := None)
    else if args.colorTempKelvin.Some? then c1.(temperatureColor := args.colorTempKelvin, rgbColor := None, scene := None)
    else if args.effect.Some? && args.effect.value != NoneScene then c1.(scene := args.effect)
    else c1
  }

  /**
   * The colour or effect step of `async_turn_on`. The shown colour mode, effect and
   * saved colour state are written before the call is awaited; the cache is not touched.
   */
  function ColorRun(cfg: LightConfig, r: Run<LightState>, args: TurnOnArgs, view: CoordinatorView, failAt: Option<nat>)
    : (r': Run<LightState>)
    ensures r'.state.cache == r.state.cache
    ensures r.raised ==> r' == r
  {
    if args.rgbColor.Some? then
      Await(Then(r, r.state.(attrColorMode := Some(RgbMode), attrEffect := None, lastColorState := None)),
            SetRgbColor(args.rgbColor.value), failAt)
    else if args.colorTempKelvin.Some? then
      Await(Then(r, r.state.(attrColorMode := Some(ColorTempMode), attrEffect := None, lastColorState := None)),
            SetTemperature(Some(args.colorTempKelvin.value)), failAt)
    else if args.effect.Some? && EffectListed(cfg, args.effect.value) then
      var e := args.effect.value;
      if e == NoneScene then
        RestoreRun(cfg, Then(r, r.state.(attrEffect := None)), failAt)
      else
        Await(Then(r, r.state.(attrEffect := Some(e), lastColorState := Some(SaveOf(cfg, r.state, view)))),
              SetScene(e), failAt)
    else
      r
  }

  /** Once a call has raised, the run follows every extension of its plan. */
  lemma FollowsAfterRaise(r: Run<LightState>, done: seq<Command>, more: seq<Command>, failAt: Option<nat>)
    requires Follows(r, done, failAt) && r.raised
    ensures Follows(r, done + more, failAt)
  {
    assert (done + more)[..failAt.value + 1] == done[..failAt.value + 1];
  }

  lemma ColorRunFollows(cfg: LightConfig, r: Run<LightState>, args: TurnOnArgs, view: CoordinatorView,
                        done: seq<Command>, failAt: Option<nat>)
    requires Follows(r, done, failAt)
    ensures Follows(ColorRun(cfg, r, args, view, failAt), done + ColorCalls(cfg, r.state, args), failAt)
  {
    if r.raised {
      FollowsAfterRaise(r, done, ColorCalls(cfg, r.state, args), failAt);
    } else if args.rgbColor.Some? {
      AwaitFollows(Then(r, r.state.(attrColorMode := Some(RgbMode), attrEffect := None, lastColorState := None)),
                   done, SetRgbColor(args.rgbColor.value), failAt);
    } else if args.colorTempKelvin.Some? {
      AwaitFollows(Then(r, r.state.(attrColorMode := Some(ColorTempMode), attrEffect := None, lastColorState := None)),
                   done, SetTemperature(Some(args.colorTempKelvin.value)), failAt);
    } else if args.effect.Some? && EffectListed(cfg, args.effect.value) {
      var e := args.effect.value;
      if e == NoneScene {
        RestoreRunFollows(cfg, Then(r, r.state.(attrEffect := None)), done, failAt);
      } else {
        AwaitFollows(Then(r, r.state.(attrEffect := Some(e), lastColorState := Some(SaveOf(cfg, r.state, view)))),
                     done, SetScene(e), failAt);
      }
    } else {
      assert done + [] == done;
    }
  }

  /** The brightness step of `async_turn_on`: the call is made first, when a brightness is given. */
  function BrightnessRun(cfg: LightConfig, r: Run<LightState>, args: TurnOnArgs, failAt: Option<nat>)
    : (r': Run<LightState>)
    ensures r'.state == r.state
    ensures r.raised ==> r' == r
  {
    if args.brightness.Some? then Await(r, SetBrightness(cfg.toNative(args.brightness.value)), failAt) else r
  }

  lemma BrightnessRunFollows(cfg: LightConfig, r: Run<LightState>, args: TurnOnArgs, done: seq<Command>, failAt: Option<nat>)
    requires Follows(r, done, failAt)
    ensures Follows(BrightnessRun(cfg, r, args, failAt), done + BrightnessCalls(cfg, args), failAt)
  {
    if args.brightness.Some? {
      AwaitFollows(r, done, SetBrightness(cfg.toNative(args.brightness.value)), failAt);
    } else {
      assert done + [] == done;
    }
  }

  /** The power step of `async_turn_on`: the call is made when the light is not on or no argument was given. */
  function PowerRun(r: Run<LightState>, args: TurnOnArgs, view: CoordinatorView, failAt: Option<nat>)
    : (r': Run<LightState>)
    ensures r'.state == r.state
    ensures r.raised ==> r' == r
  {
    if !IsOn(r.state, view) || args.IsEmpty() then Await(r, TurnOn, failAt) else r
  }

  lemma PowerRunFollows(r: Run<LightState>, args: TurnOnArgs, view: CoordinatorView, done: seq<Command>, failAt: Option<nat>)
    requires Follows(r, done, failAt)
    ensures Follows(PowerRun(r, args, view, failAt), done + PowerCalls(r.state, args, view), failAt)
  {
    if !IsOn(r.state, view) || args.IsEmpty() {
      AwaitFollows(r, done, TurnOn, failAt);
    } else {
      assert done + [] == done;
    }
  }

  /** `async_turn_on` on an online device, as a run: brightness, colour or effect, power, then the cache. */
  function TurnOnRun(cfg: LightConfig, s: LightState, args: TurnOnArgs, view: CoordinatorView, failAt: Option<nat>)
    : (r: Run<LightState>)
    ensures r.raised ==> r.state.cache == s.cache
    ensures !r.raised ==> r.state.cache == CacheAfterTurnOn(cfg, s.cache, args)
  {
    var r3 := PowerRun(ColorRun(cfg, BrightnessRun(cfg, Run(s, [], false), args, failAt), args, view, failAt),
                       args, view, failAt);
    Then(r3, r3.state.(cache := CacheAfterTurnOn(cfg, r3.state.cache, args)))
  }

  /** The run makes the brightness, colour and power calls in turn, stopping at the first that raises. */
  lemma TurnOnRunFollowsStages(cfg: LightConfig, s: LightState, args: TurnOnArgs, view: CoordinatorView,
                               failAt: Option<nat>)
    ensures Follows(TurnOnRun(cfg, s, args, view, failAt),
                    BrightnessCalls(cfg, args) + ColorCalls(cfg, s, args) + PowerCalls(s, args, view), failAt)
  {
    var r0 := Run(s, [], false);
    BrightnessRunFollows(cfg, r0, args, [], failAt);
    assert [] + BrightnessCalls(cfg, args) == BrightnessCalls(cfg, args);
    var r1 := BrightnessRun(cfg, r0, args, failAt);
    ColorRunFollows(cfg, r1, args, view, BrightnessCalls(cfg, args), failAt);
    var r2 := ColorRun(cfg, r1, args, view, failAt);
    PowerRunFollows(r2, args, view, BrightnessCalls(cfg, args) + ColorCalls(cfg, s, args), failAt);
  }

  /** The run makes exactly the planned calls, stopping at the first that raises. */
  lemma TurnOnRunFollows(cfg: LightConfig, s: LightState, args: TurnOnArgs, view: CoordinatorView, failAt: Option<nat>)
    ensures Follows(TurnOnRun(cfg, s, args, view, failAt), TurnOnPlan(cfg, s, args, view), failAt)
  {
    TurnOnRunFollowsStages(cfg, s, args, view, failAt);
  }

  /** With the "none" effect the saved state survives exactly when the brightness call or a restore call raised. */
  lemma NoneEffectSavedState(cfg: LightConfig, s: LightState, args: TurnOnArgs, view: CoordinatorView, failAt: Option<nat>)
    requires args.rgbColor.None? && args.colorTempKelvin.None? && args.effect == Some(NoneScene)
    requires EffectListed(cfg, NoneScene)
    ensures TurnOnRun(cfg, s, args, view, failAt).state.lastColorState ==
              if RaisesUnder(BrightnessCalls(cfg, args) + RestoreCalls(cfg, s.lastColorState), failAt)
              then s.lastColorState else None
  {
    var r0 := Run(s, [], false);
    var r1 := BrightnessRun(cfg, r0, args, failAt);
    BrightnessRunFollows(cfg, r0, args, [], failAt);
    assert [] + BrightnessCalls(cfg, args) == BrightnessCalls(cfg, args);
    var r1' := Then(r1, r1.state.(attrEffect := None));
    RestoreRunFollows(cfg, r1', BrightnessCalls(cfg, args), failAt);
  }

  /**
   * `async_turn_on`. Offline: nothing is sent and nothing changes. Online: the
   * planned calls are made until one raises; then no cached field changes and the
   * error ends the operation. The shown colour mode, effect and saved colour state
   * are written before their call is awaited, so they change even when it raises.
   */
  function TurnOnSpec(cfg: LightConfig, s: LightState, args: TurnOnArgs, view: CoordinatorView, failAt: Option<nat>)
    : (r: Step)
    ensures !view.online ==> r == Step(s, [], Offline)
    ensures view.online ==>
              && r.outcome != Offline
              && r.sent == SentUnder(TurnOnPlan(cfg, s, args, view), failAt)
              && (r.outcome == Failed <==> RaisesUnder(TurnOnPlan(cfg, s, args, view), failAt))
    ensures r.outcome == Failed ==> r.state.cache == s.cache
    ensures r.outcome == Done ==> r.state.cache == CacheAfterTurnOn(cfg, s.cache, args)
    ensures view.online && args.rgbColor.Some? && !(args.brightness.Some? && failAt == Some(0)) ==>
              r.state.attrColorMode == Some(RgbMode) && r.state.attrEffect.None? && r.state.lastColorState.None?
    ensures view.online && args.rgbColor.None? && args.colorTempKelvin.Some? && !(args.brightness.Some? && failAt == Some(0)) ==>
              r.state.attrColorMode == Some(ColorTempMode) && r.state.attrEffect.None? && r.state.lastColorState.None?
    ensures view.online && args.rgbColor.None? && args.colorTempKelvin.None? && args.effect.Some?
            && EffectListed(cfg, args.effect.value) && args.effect.value != NoneScene
            && !(args.brightness.Some? && failAt == Some(0)) ==>
              r.state.attrEffect == args.effect && r.state.lastColorState == Some(SaveOf(cfg, s, view))
    ensures view.online && args.rgbColor.None? && args.colorTempKelvin.None? && args.effect == Some(NoneScene)
            && EffectListed(cfg, NoneScene) && !(args.brightness.Some? && failAt == Some(0)) ==>
              r.state.attrEffect.None?
    ensures view.online && args.rgbColor.None? && args.colorTempKelvin.None? && args.effect == Some(NoneScene)
            && EffectListed(cfg, NoneScene) && r.outcome == Done ==>
              r.state.lastColorState.None?
    ensures view.online && args.rgbColor.None? && args.colorTempKelvin.None? ==>
              r.state.attrColorMode == s.attrColorMode
    ensures view.online && args.rgbColor.None? && args.colorTempKelvin.None?
            && (args.effect.None? || !EffectListed(cfg, args.effect.value)) ==>
              r.state.attrEffect == s.attrEffect && r.state.lastColorState == s.lastColorState
    ensures view.online && args.brightness.Some? && failAt == Some(0) ==> r.state == s
    ensures view.online && args.rgbColor.None? && args.colorTempKelvin.None? && args.effect == Some(NoneScene)
            && EffectListed(cfg, NoneScene) ==>
              r.state.lastColorState ==
                if RaisesUnder(BrightnessCalls(cfg, args) + RestoreCalls(cfg, s.lastColorState), failAt)
                then s.lastColorState else None
  {
    if !view.online then Step(s, [], Offline)
    else
      var run := TurnOnRun(cfg, s, args, view, failAt);
      TurnOnRunFollows(cfg, s, args, view, failAt);
      if args.rgbColor.None? && args.colorTempKelvin.None? && args.effect == Some(NoneScene) && EffectListed(cfg, NoneScene) then
        NoneEffectSavedState(cfg, s, args, view, failAt);
        Step(run.state, run.sent, if run.raised then Failed else Done)
      else
        Step(run.state, run.sent, if run.raised then Failed else Done)
  }

  /** After a successful colour command the colour mode (if not fixed) is the one requested. */
  lemma ColorModeAfterTurnOn(cfg: LightConfig, s: LightState, args: TurnOnArgs, view: CoordinatorView, failAt: Option<nat>)
    requires cfg.fixedColorMode.None?
    ensures var r := TurnOnSpec(cfg, s, args, view, failAt);
            var t := r.state;
            r.outcome == Done ==>
            && (args.rgbColor.Some? ==> ColorModeOf(cfg, t) == RgbMode)
            && (args.rgbColor.None? && args.colorTempKelvin.Some? && args.colorTempKelvin.value > 0 ==>
                  ColorModeOf(cfg, t) == ColorTempMode)
  {
  }

  /**
   * `async_turn_off`. Offline: nothing is sent and nothing changes. Online: the
   * turn-off call is made; if it returns, the cache says off and nothing else changes;
   * if it raises, nothing changes.
   */
  function TurnOffSpec(s: LightState, view: CoordinatorView, failAt: Option<nat>): (r: Step)
    ensures !view.online ==> r == Step(s, [], Offline)
    ensures view.online ==> r.sent == [TurnOff] && (r.outcome == Failed <==> failAt == Some(0)) && r.outcome != Offline
    ensures r.outcome == Done ==> r.state == s.(cache := s.cache.(on := false))
    ensures r.outcome == Failed ==> r.state == s
  {
    if !view.online then Step(s, [], Offline)
    else
      var run := Await(Run(s, [], false), TurnOff, failAt);
      var run' := Then(run, s.(cache := s.cache.(on := false)));
      Step(run'.state, run'.sent, if run'.raised then Failed else Done)
  }

  /** A successful turn-off after a successful turn-on leaves the cache as turn-on left it, but off. */
  lemma TurnOnThenOff(cfg: LightConfig, s: LightState, args: TurnOnArgs, view: CoordinatorView, failAt: Option<nat>, failAt': Option<nat>)
    requires TurnOnSpec(cfg, s, args, view, failAt).outcome == Done
    requires TurnOffSpec(TurnOnSpec(cfg, s, args, view, failAt).state, view, failAt').outcome == Done
    ensures var t := TurnOffSpec(TurnOnSpec(cfg, s, args, view, failAt).state, view, failAt').state;
            && t.cache == CacheAfterTurnOn(cfg, s.cache, args).(on := false)
            && (view.live.None? ==> !IsOn(t, view))
  {
  }

  // ---------------------------------------------------------------------------
  // The entity

  /** The light entity `DayBetterLight`: its configuration and its mutable fields. */
  class DayBetterLight {
    const device: Device
    const uniqueId: string
    const deviceIdentifier: (string, string)
    const config: LightConfig

    var cachedOn: bool
    var cachedBrightness: int
    var cachedRgbColor: Option<Rgb>
    var cachedTemperatureColor: Option<int>
    var cachedScene: Option<string>
    var attrEffect: Option<string>
    var attrColorMode: Option<ColorMode>
    var lastColorState: Option<ColorState>

    /** The entity's mutable fields as one value. */
    function State(): LightState
      reads this
    {
      LightState(Cache(cachedOn, cachedBrightness, cachedRgbColor, cachedTemperatureColor, cachedScene),
                 attrEffect, attrColorMode, lastColorState)
    }

    /**
     * `__init__`: collects the candidate colour modes, lets Home Assistant filter them
     * (`filterModes`), fixes the mode when only one remains, sets up the effect list and
     * the colour-temperature range, and refreshes from the coordinator's snapshot.
     */
    constructor (device: Device, filterModes: set<ColorMode> -> set<ColorMode>,
                 toNative: int -> int, toHa: int -> int, snapshot: Option<CachedState>)
      ensures this.device == device
      ensures uniqueId == LightUniqueId(device.fingerprint) && deviceIdentifier == (Domain, device.fingerprint)
      ensures config.supportedColorModes == filterModes(CandidateColorModes(device.capabilities))
      ensures config.fixedColorMode == SoleMode(config.supportedColorModes)
      ensures var caps := device.capabilities;
              config.effectList ==
                if caps.Some? && ScenesFlag in caps.value.features && |caps.value.scenes| > 0
                then Some([NoneScene] + caps.value.scenes) else None
      ensures config.effectSupported <==> config.effectList.Some?
      ensures config.toNative == toNative && config.toHa == toHa
      ensures var caps := device.capabilities;
              if caps.Some? && ColorKelvinTemperatureFlag in caps.value.features then
                && config.minColorTempKelvin == Some(MinColorTempKelvin)
                && config.maxColorTempKelvin ==
                     Some(if Lower(device.sku) == Lower(WideKelvinSkus[0]) then MaxColorTempKelvinWide
                          else MaxColorTempKelvinNarrow)
              else config.minColorTempKelvin.None? && config.maxColorTempKelvin.None?
      ensures State() == FromCache(InitialState, snapshot)
    {
      var modes := CollectColorModes(device.capabilities);
      var effectList: Option<seq<string>> := None;
      var effectSupported := false;
      var minKelvin: Option<int> := None;
      var maxKelvin: Option<int> := None;
      if device.capabilities.Some? {
        var caps := device.capabilities.value;
        if ColorKelvinTemperatureFlag in caps.features {
          if Lower(device.sku) == Lower(WideKelvinSkus[0]) {
            maxKelvin, minKelvin := Some(MaxColorTempKelvinWide), Some(MinColorTempKelvin);
          } else {
            maxKelvin, minKelvin := Some(MaxColorTempKelvinNarrow), Some(MinColorTempKelvin);
          }
        }
        if ScenesFlag in caps.features && |caps.scenes| > 0 {
          effectSupported := true;
          effectList := Some([NoneScene] + caps.scenes);
        }
      }
      var supported := filterModes(modes);
      this.device := device;
      uniqueId := LightUniqueId(device.fingerprint);
      deviceIdentifier := (Domain, device.fingerprint);
      config := LightConfig(supported, SoleMode(supported), effectList, effectSupported,
                            minKelvin, maxKelvin, toNative, toHa);
      cachedOn, cachedBrightness, cachedRgbColor, cachedTemperatureColor, cachedScene := false, 0, None, None, None;
      attrEffect, attrColorMode, lastColorState := None, None, None;
      new;
      UpdateStateFromCache(snapshot);
    }

    /** `_update_state_from_cache` with the snapshot `get_cached_device_state` returned. */
    method UpdateStateFromCache(snapshot: Option<CachedState>)
      modifies this
      ensures State() == FromCache(old(State()), snapshot)
    {
      if snapshot.Some? && snapshot.value.IsTruthy() {
        var c := snapshot.value;
        cachedOn := c.on.GetOr(false);
        cachedBrightness := c.brightness.GetOr(0);
        cachedRgbColor := c.rgbColor;
        cachedTemperatureColor := c.temperatureColor;
        cachedScene := c.scene;
        if cachedScene.Some? && cachedScene.value != "" && cachedScene.value != NoneScene {
          attrEffect := cachedScene;
        } else {
          attrEffect := None;
        }
      }
    }

    /** `_save_last_color_state`. */
    method SaveLastColorState(view: CoordinatorView)
      modifies this`lastColorState
      ensures State() == old(State()).(lastColorState := Some(SaveOf(config, old(State()), view)))
    {
      var s := State();
      var mode := ColorModeOf(config, s);
      lastColorState := Some(ColorState(mode, Brightness(config, s, view),
                                        if mode == ColorTempMode then ColorTempKelvin(s, view) else None,
                                        if mode == ColorTempMode then None else RgbColor(s, view)));
    }

    /** `_restore_last_color_state`, continuing an operation that has made the calls `sent`. */
    method RestoreLastColorState(sent: seq<Command>, failAt: Option<nat>) returns (sent': seq<Command>, ok: bool)
      modifies this`lastColorState
      ensures var r := RestoreRun(config, Run(old(State()), sent, false), failAt);
              State() == r.state && sent' == r.sent && ok == !r.raised
    {
      sent', ok := sent, true;
      if lastColorState.Some? {
        var cs := lastColorState.value;
        if HasSavedColor(cs) {
          if cs.mode == RgbMode {
            sent', ok := Dispatch(sent', SetRgbColor(cs.rgb.value), failAt);
          } else if cs.mode == ColorTempMode {
            sent', ok := Dispatch(sent', SetTemperature(cs.kelvin), failAt);
          }
          if !ok { return; }
        }
        if cs.brightness != 0 {
          sent', ok := Dispatch(sent', SetBrightness(config.toNative(cs.brightness)), failAt);
          if !ok { return; }
        }
        lastColorState := None;
      }
    }

    /**
     * The colour or effect step of `async_turn_on` (RGB, else colour temperature, else a
     * listed effect), continuing an operation that has made the calls `sent`.
     */
    method TurnOnColorStep(args: TurnOnArgs, view: CoordinatorView, sent: seq<Command>, failAt: Option<nat>)
      returns (sent': seq<Command>, ok: bool)
      modifies this
      ensures var r := ColorRun(config, Run(old(State()), sent, false), args, view, failAt);
              State() == r.state && sent' == r.sent && ok == !r.raised
    {
      sent', ok := sent, true;
      if args.rgbColor.Some? {
        attrColorMode := Some(RgbMode);
        attrEffect := None;
        lastColorState := None;
        sent', ok := Dispatch(sent', SetRgbColor(args.rgbColor.value), failAt);
      } else if args.colorTempKelvin.Some? {
        attrColorMode := Some(ColorTempMode);
        attrEffect := None;
        lastColorState := None;
        sent', ok := Dispatch(sent', SetTemperature(Some(args.colorTempKelvin.value)), failAt);
      } else if args.effect.Some? {
        var effect := args.effect.value;
        if EffectListed(config, effect) {
          if effect == NoneScene {
            attrEffect := None;
            sent', ok := RestoreLastColorState(sent', failAt);
          } else {
            attrEffect := Some(effect);
            SaveLastColorState(view);
            sent', ok := Dispatch(sent', SetScene(effect), failAt);
          }
        }
      }
    }

    /** `async_turn_on`; a raised call is caught and logged, and ends the operation. */
    method AsyncTurnOn(args: TurnOnArgs, view: CoordinatorView, failAt: Option<nat>)
      returns (outcome: Outcome, sent: seq<Command>)
      modifies this
      ensures var r := TurnOnSpec(config, old(State()), args, view, failAt);
              State() == r.state && sent == r.sent && outcome == r.outcome
    {
      if !view.online {
        outcome, sent := Offline, [];
        return;
      }
      var ok;
      ok, sent := TurnOnAvailable(args, view, failAt);
      outcome := if ok then Done else Failed;
    }

    /** The `try` block of `async_turn_on`, run once the device is known to be available. */
    method TurnOnAvailable(args: TurnOnArgs, view: CoordinatorView, failAt: Option<nat>)
      returns (ok: bool, sent: seq<Command>)
      modifies this
      ensures var r := TurnOnRun(config, old(State()), args, view, failAt);
              State() == r.state && sent == r.sent && ok == !r.raised
    {
      sent := [];
      ghost var s := State();
      ghost var r1 := BrightnessRun(config, Run(s, [], false), args, failAt);
      ok := true;
      if args.brightness.Some? {
        sent, ok := Dispatch(sent, SetBrightness(config.toNative(args.brightness.value)), failAt);
        if !ok {
          return;
        }
      }
      sent, ok := TurnOnColorStep(args, view, sent, failAt);
      ghost var r2 := ColorRun(config, r1, args, view, failAt);
      if !ok {
        return;
      }
      ghost var r3 := PowerRun(r2, args, view, failAt);
      if !IsOn(State(), view) || args.IsEmpty() {
        sent, ok := Dispatch(sent, TurnOn, failAt);
        if !ok {
          return;
        }
      }
      WriteCacheAfterTurnOn(args);
      assert TurnOnRun(config, s, args, view, failAt) == r3.(state := State());
    }

    /** The cache writes that end a successful `async_turn_on`. */
    method WriteCacheAfterTurnOn(args: TurnOnArgs)
      modifies this
      ensures State() == old(State()).(cache := CacheAfterTurnOn(config, old(State()).cache, args))
    {
      if args.brightness.Some? {
        cachedBrightness := config.toNative(args.brightness.value);
      }
      cachedOn := true;
      if args.rgbColor.Some? {
        cachedRgbColor := args.rgbColor;
        cachedTemperatureColor := None;
        cachedScene := None;
      } else if args.colorTempKelvin.Some? {
        cachedTemperatureColor := args.colorTempKelvin;
        cachedRgbColor := None;
        cachedScene := None;
      } else if args.effect.Some? && args.effect.value != NoneScene {
        cachedScene := args.effect;
      }
    }

    /** `async_turn_off`; a raised call is caught and logged. */
    method AsyncTurnOff(view: CoordinatorView, failAt: Option<nat>) returns (outcome: Outcome, sent: seq<Command>)
      modifies this
      ensures var r := TurnOffSpec(old(State()), view, failAt);
              State() == r.state && sent == r.sent && outcome == r.outcome
    {
      sent := [];
      if !view.online {
        outcome := Offline;
        return;
      }
      var ok;
      sent, ok := Dispatch(sent, TurnOff, failAt);
      if !ok {
        outcome := Failed;
        return;
      }
      cachedOn := false;
      outcome := Done;
    }
  }
}
