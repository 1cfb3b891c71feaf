/**
 * The coordinator as the light entity sees it, an abstract collaborator:
 *  - an availability flag (`is_device_online`),
 *  - an optional live device object whose attributes may be missing (`get_device_by_fingerprint`),
 *  - the cached snapshot it hands out (`get_cached_device_state`),
 *  - command calls (`turn_on`, `set_brightness`, ...) that either return or raise.
 * Which call raises is an input: `failAt` is the index, counted from 0 within one
 * entity operation, of the first coordinator call that raises, or None when none does.
 */
module Coordinator {
  import opened Wrappers
  import opened DeviceApi

  /** An attribute read with `getattr(obj, name, default)`: either missing or present. */
  datatype Attr<+T> = Missing | Present(value: T) {
    function GetOr(default: T): T {
      match this
      case Present(v) => v
      case Missing => default
    }
  }

  /** The attributes of the live device object that the light reads. */
  datatype LiveView = LiveView(
    on: Attr<bool>,
    brightness: Attr<int>,
    rgbColor: Attr<Option<Rgb>>,
    temperatureColor: Attr<Option<int>>)

  /** What the coordinator reports about one fingerprint at the moment of a call. */
  datatype CoordinatorView = CoordinatorView(online: bool, live: Option<LiveView>)

  /**
   * The dictionary returned by `get_cached_device_state`: the five keys the light reads
   * (None = key absent) and the names of any other keys present (`online`, `sku`, ...).
   */
  datatype CachedState = CachedState(
    on: Option<bool>,
    brightness: Option<int>,
    rgbColor: Option<Rgb>,
    temperatureColor: Option<int>,
    scene: Option<string>,
    otherKeys: set<string>)
  {
    /** Python truthiness of the dictionary: it has at least one key. */
    predicate IsTruthy() {
      on.Some? || brightness.Some? || rgbColor.Some? || temperatureColor.Some? || scene.Some? || otherKeys != {}
    }
  }

  /** The coordinator calls a light can make, with their arguments. */
  datatype Command =
    | TurnOn
    | TurnOff
    | SetBrightness(level: int)
    | SetRgbColor(color: Rgb)
    | SetTemperature(kelvin: Option<int>)
    | SetScene(scene: string)

  /** The commands sent when the calls of `plan` are made in order until the one at `failAt` raises. */
  function SentUnder(plan: seq<Command>, failAt: Option<nat>): (sent: seq<Command>)
    ensures |sent| <= |plan| && sent == plan[..|sent|]
    ensures RaisesUnder(plan, failAt) ==> |sent| == failAt.value + 1
    ensures !RaisesUnder(plan, failAt) ==> sent == plan
  {
    if RaisesUnder(plan, failAt) then plan[..failAt.value + 1] else plan
  }

  /** Whether one of the calls of `plan` raises. */
  predicate RaisesUnder(plan: seq<Command>, failAt: Option<nat>) {
    failAt.Some? && failAt.value < |plan|
  }

  /**
   * An entity operation in progress: the entity's state, the commands sent so far and
   * whether one of them raised (after which nothing else happens).
   */
  datatype Run<S> = Run(state: S, sent: seq<Command>, raised: bool)

  /** The run has made exactly the calls of `plan`, stopping at the first that raises. */
  predicate Follows<S>(r: Run<S>, plan: seq<Command>, failAt: Option<nat>) {
    r.sent == SentUnder(plan, failAt) && r.raised == RaisesUnder(plan, failAt)
  }

  /** `await coordinator.<cmd>(...)`: skipped once a call has raised; otherwise sent, and raising if it is call `failAt`. */
  function Await<S>(r: Run<S>, cmd: Command, failAt: Option<nat>): (r': Run<S>)
    ensures r'.state == r.state
    ensures r.raised ==> r' == r
    ensures !r.raised ==> r'.sent == r.sent + [cmd] && (r'.raised <==> failAt == Some(|r.sent|))
  {
    if r.raised then r else Run(r.state, r.sent + [cmd], failAt == Some(|r.sent|))
  }

  /** A state update that happens only if no earlier call raised. */
  function Then<S>(r: Run<S>, s: S): (r': Run<S>)
    ensures r'.sent == r.sent && r'.raised == r.raised
    ensures r.raised ==> r' == r
    ensures !r.raised ==> r'.state == s
  {
    if r.raised then r else r.(state := s)
  }

  /** Awaiting one more call extends the plan that the run follows by that call. */
  lemma AwaitFollows<S>(r: Run<S>, plan: seq<Command>, cmd: Command, failAt: Option<nat>)
    requires Follows(r, plan, failAt)
    ensures Follows(Await(r, cmd, failAt), plan + [cmd], failAt)
  {
    var p := plan + [cmd];
    if r.raised {
      assert p[..failAt.value + 1] == plan[..failAt.value + 1];
    } else {
      assert p[..|plan| + 1] == p;
    }
  }

  /** The coordinator call itself: `cmd` is sent, and it raises iff it is call number `failAt`. */
  method Dispatch(sent: seq<Command>, cmd: Command, failAt: Option<nat>) returns (sent': seq<Command>, ok: bool)
    ensures sent' == sent + [cmd]
    ensures ok <==> failAt != Some(|sent|)
  {
    sent' := sent + [cmd];
    ok := failAt != Some(|sent|);
  }
}
