/** The `ObjectLightOnOff` script: a retriggerable fade of the object's
    scriptable light between its start-up value ("on") and black at zero
    intensity ("off"), gated by enable/disable events and driven by a loop
    that wakes every 0.1 s.

    The script's fields become an immutable `Engine` record and each handler
    a pure transition. The on/off handlers registered (`subscriptions !=
    null`) are the flag `subscribed`; the interpolation coroutine existing
    (`interpolationCoroutine != null`) is the flag `looping`; one wake-up of
    the loop is `Interpolate`. */
module LightOnOff {
  import opened Options
  import opened Colors

  /** `deltaTime`, the loop's period in seconds. */
  const DeltaTime: real := 0.1

  /** The editor properties the transitions read. The event-name lists are
      only handed to the host's subscription helper and do not appear here. */
  datatype Config = Config(
    turnOnFadeTime: real,
    turnOffFadeTime: real,
    turnOffAtStart: bool,
    startEnabled: bool)

  /** At least one direction fades rather than switching instantly. */
  predicate HasFadeTime(c: Config) {
    c.turnOnFadeTime > 0.0 || c.turnOffFadeTime > 0.0
  }

  /** The interpolation fields: value at fade start, value at fade end,
      seconds left, total seconds, and whether a fade is under way. */
  datatype Fade = Fade(
    previous: Light,
    target: Light,
    time: real,
    duration: real,
    active: bool)

  /** The fields as the script object is constructed. */
  const NoFade: Fade := Fade(Unassigned, Unassigned, 0.0, 0.0, false)

  /** Time never leaves `[0, duration]`, and a fade under way has time left:
      so while active `0 < time <= duration` and the division in the loop
      body is by a positive number. */
  predicate FadeOk(f: Fade) {
    0.0 <= f.time <= f.duration && (f.active ==> f.time > 0.0)
  }

  /** A script that found its light. `lights` are the current values of the
      lights the script controls; `initial` is the "on" value. */
  datatype Engine = Engine(
    config: Config,
    lights: seq<Light>,
    initial: Light,
    subscribed: bool,
    looping: bool,
    fade: Fade)

  /** `Inert`: initialisation found no scriptable light, logged an error and
      registered no handler at all, so no event ever reaches the script. */
  datatype Script = Inert | Ready(engine: Engine)

  /** What the host reports for each light component of the object. */
  datatype LightComponent = LightComponent(scriptable: bool, value: Light)

  /** The events a running script can receive: enable, disable, turn on,
      turn off (any of the names configured for each) and a loop wake-up. */
  datatype Event = Enable | Disable | TurnOn | TurnOff | Tick

  /** What holds of every engine the script can reach. */
  predicate Inv(e: Engine) {
    && |e.lights| == 1
    && FadeOk(e.fade)
    && e.looping == (e.subscribed && HasFadeTime(e.config))
  }

  /** The value the script reads back from its first light. */
  function Current(e: Engine): Light
    requires |e.lights| > 0
  {
    e.lights[0]
  }

  /** Every light in `lights` shows `v`. */
  predicate AllShow(lights: seq<Light>, v: Light) {
    forall i :: 0 <= i < |lights| ==> lights[i] == v
  }

  /** `SetColorAndIntensityOfAllLights`: each light in turn is given `v`. */
  function SetAll(lights: seq<Light>, v: Light): (r: seq<Light>)
    ensures |r| == |lights|
    ensures AllShow(r, v)
  {
    if |lights| == 0 then []
    else [v] + SetAll(lights[1..], v)
  }

  /** A write changes the lights and nothing else. */
  function Write(e: Engine, v: Light): (r: Engine)
    ensures |r.lights| == |e.lights| && AllShow(r.lights, v)
    ensures r.(lights := e.lights) == e
  {
    e.(lights := SetAll(e.lights, v))
  }

  /** `k` is the first scriptable component. */
  predicate FirstScriptableAt(cs: seq<LightComponent>, k: int) {
    && 0 <= k < |cs|
    && cs[k].scriptable
    && forall j :: 0 <= j < k ==> !cs[j].scriptable
  }

  /** The search loop of `SimpleInit`, which stops at the first scriptable
      light. */
  function FirstScriptable(cs: seq<LightComponent>): (k: Option<nat>)
    ensures k.Some? ==> FirstScriptableAt(cs, k.value)
    ensures k.None? ==> forall j :: 0 <= j < |cs| ==> !cs[j].scriptable
  {
    if |cs| == 0 then None
    else if cs[0].scriptable then Some(0)
    else
      match FirstScriptable(cs[1..])
      case None => None
      case Some(k) => Some(k + 1)
  }

  /** `SimpleInit`. The script keeps only the first scriptable light; with
      none it stays inert. Otherwise it records that light's value as "on",
      writes "off" if asked to, and enables itself if asked to. */
  function Init(cfg: Config, cs: seq<LightComponent>): (r: Script)
    ensures r.Inert? <==> forall j :: 0 <= j < |cs| ==> !cs[j].scriptable
    ensures r.Ready? ==> exists k :: FirstScriptableAt(cs, k) && r.engine.initial == cs[k].value
    ensures r.Ready? ==> Inv(r.engine) && r.engine.config == cfg
    ensures r.Ready? ==> |r.engine.lights| == 1
    ensures r.Ready? && cfg.turnOffAtStart ==> r.engine.lights == [Off]
    ensures r.Ready? && !cfg.turnOffAtStart ==> r.engine.lights == [r.engine.initial]
    ensures r.Ready? ==> r.engine.subscribed == cfg.startEnabled
    ensures r.Ready? ==> (r.engine.looping <==> cfg.startEnabled && HasFadeTime(cfg))
    ensures r.Ready? ==> !r.engine.fade.active
    ensures r.Ready? && r.engine.looping ==>
      r.engine.fade.previous == r.engine.lights[0] && r.engine.fade.target == r.engine.lights[0]
  {
    match FirstScriptable(cs)
    case None => Inert
    case Some(k) =>
      var lights := [cs[k].value];
      var e := Engine(cfg, lights, lights[0], false, false, NoFade);
      var e1 := if cfg.turnOffAtStart then Write(e, Off) else e;
      assert e1.lights == [if cfg.turnOffAtStart then Off else cs[k].value];
      Ready(if cfg.startEnabled then Subscribe(e1) else e1)
  }

  /** `StartInterpolation`: start the loop unless it already runs or no
      direction fades; a fresh loop starts from a settled fade at the light's
      current value. */
  function StartInterpolation(e: Engine): (r: Engine)
    requires |e.lights| > 0
    ensures r.looping <==> e.looping || HasFadeTime(e.config)
    ensures e.looping || !HasFadeTime(e.config) ==> r == e
    ensures !e.looping && HasFadeTime(e.config) ==>
      && r.fade.previous == Current(e) && r.fade.target == Current(e)
      && r.fade.time == 0.0 && r.fade.duration == 0.0 && !r.fade.active
    ensures r.(looping := e.looping, fade := e.fade) == e
  {
    if !e.looping && HasFadeTime(e.config) then
      var now := Current(e);
      e.(fade := Fade(now, now, 0.0, 0.0, false), looping := true)
    else
      e
  }

  /** `StopInterpolation`: abort the loop if it runs. */
  function StopInterpolation(e: Engine): (r: Engine)
    ensures !r.looping
    ensures r.(looping := e.looping) == e
  {
    if e.looping then e.(looping := false) else e
  }

  /** `Subscribe`, the enable handler: register the on/off handlers unless
      they are registered, then start the loop if some direction fades. */
  function Subscribe(e: Engine): (r: Engine)
    requires |e.lights| > 0
    ensures r.subscribed
    ensures r.looping <==> e.looping || HasFadeTime(e.config)
    ensures e.subscribed && e.looping ==> r == e
    ensures !e.looping && HasFadeTime(e.config) ==>
      && r.fade.previous == Current(e) && r.fade.target == Current(e)
      && r.fade.time == 0.0 && r.fade.duration == 0.0 && !r.fade.active
    ensures e.looping || !HasFadeTime(e.config) ==> r.fade == e.fade
    ensures r.(subscribed := e.subscribed, looping := e.looping, fade := e.fade) == e
  {
    var e1 := if !e.subscribed then e.(subscribed := true) else e;
    if HasFadeTime(e.config) then StartInterpolation(e1) else e1
  }

  /** `Unsubscribe`, the disable handler: drop the on/off handlers and stop
      the loop. */
  function Unsubscribe(e: Engine): (r: Engine)
    ensures !r.subscribed && !r.looping
    ensures r.(subscribed := e.subscribed, looping := e.looping) == e
  {
    var e1 := if e.subscribed then e.(subscribed := false) else e;
    StopInterpolation(e1)
  }

  /** The body shared by the two trigger handlers: with a positive fade time,
      start a fade from the light's current value to `target`; otherwise
      cancel any fade and write `target` at once. */
  function Trigger(e: Engine, target: Light, fadeTime: real): (r: Engine)
    requires |e.lights| > 0
    ensures fadeTime > 0.0 ==>
      && r.fade == Fade(Current(e), target, fadeTime, fadeTime, true)
      && r.lights == e.lights
    ensures fadeTime <= 0.0 ==>
      && !r.fade.active
      && r.fade.(active := e.fade.active) == e.fade
      && |r.lights| == |e.lights| && AllShow(r.lights, target)
    ensures r.(lights := e.lights, fade := e.fade) == e
  {
    if fadeTime > 0.0 then
      e.(fade := Fade(Current(e), target, fadeTime, fadeTime, true))
    else
      Write(e.(fade := e.fade.(active := false)), target)
  }

  /** The turn-on handler: fade, or switch, to the start-up value. */
  function OnTurnOn(e: Engine): (r: Engine)
    requires |e.lights| > 0
    ensures e.config.turnOnFadeTime > 0.0 ==>
      && r.fade.active && r.fade.previous == Current(e) && r.fade.target == e.initial
      && r.fade.time == e.config.turnOnFadeTime && r.fade.duration == e.config.turnOnFadeTime
      && r.lights == e.lights
    ensures e.config.turnOnFadeTime <= 0.0 ==>
      !r.fade.active && |r.lights| == |e.lights| && AllShow(r.lights, e.initial)
    ensures r.(lights := e.lights, fade := e.fade) == e
  {
    Trigger(e, e.initial, e.config.turnOnFadeTime)
  }

  /** The turn-off handler: fade, or switch, to black at zero intensity. */
  function OnTurnOff(e: Engine): (r: Engine)
    requires |e.lights| > 0
    ensures e.config.turnOffFadeTime > 0.0 ==>
      && r.fade.active && r.fade.previous == Current(e) && r.fade.target == Off
      && r.fade.time == e.config.turnOffFadeTime && r.fade.duration == e.config.turnOffFadeTime
      && r.lights == e.lights
    ensures e.config.turnOffFadeTime <= 0.0 ==>
      !r.fade.active && |r.lights| == |e.lights| && AllShow(r.lights, Off)
    ensures r.(lights := e.lights, fade := e.fade) == e
  {
    Trigger(e, Off, e.config.turnOffFadeTime)
  }

  /** The larger of two reals (`Math.Max`). */
  function Max(x: real, y: real): (m: real)
    ensures m >= x && m >= y
    ensures m == x || m == y
  {
    if x >= y then x else y
  }

  /** One wake-up of `InterpolateLightColor`. An idle fade does nothing.
      Otherwise the time left drops by one period, stopping at zero, and
      every light is given `previous * t + target * (1 - t)` with
      `t = time / duration`; the fade stays active while time is left. */
  function Interpolate(e: Engine): (r: Engine)
    requires FadeOk(e.fade)
    ensures FadeOk(r.fade)
    ensures !e.fade.active ==> r == e
    ensures e.fade.active ==>
      && r.fade.previous == e.fade.previous
      && r.fade.target == e.fade.target
      && r.fade.duration == e.fade.duration
      && 0.0 <= r.fade.time < e.fade.time
      && (e.fade.time > DeltaTime ==> r.fade.time == e.fade.time - DeltaTime)
      && (e.fade.time <= DeltaTime ==> r.fade.time == 0.0)
      && (r.fade.active <==> r.fade.time > 0.0)
      && |r.lights| == |e.lights|
      && AllShow(r.lights, Blend(e.fade.previous, e.fade.target, r.fade.time / e.fade.duration))
      && (forall i :: 0 <= i < |r.lights| ==> Within(r.lights[i], e.fade.previous, e.fade.target))
      && (!r.fade.active ==> AllShow(r.lights, e.fade.target))
    ensures r.(lights := e.lights, fade := e.fade) == e
  {
    if !e.fade.active then
      e
    else
      var f := e.fade;
      var time := Max(f.time - DeltaTime, 0.0);
      var t := time / f.duration;
      assert 0.0 <= t <= 1.0;
      var v := Blend(f.previous, f.target, t);
      var e1 := Write(e, v);
      e1.(fade := f.(time := time, active := time > 0.0))
  }

  /** One event delivered to the script. Turn-on and turn-off reach the
      script only while the handlers are registered, wake-ups only while the
      loop runs; an inert script receives nothing. */
  function Step(s: Script, ev: Event): (r: Script)
    requires s.Ready? ==> Inv(s.engine)
    ensures r.Ready? <==> s.Ready?
    ensures r.Ready? ==> Inv(r.engine)
    ensures r.Ready? ==> r.engine.config == s.engine.config && r.engine.initial == s.engine.initial
    ensures s.Ready? && ev == Tick && !s.engine.looping ==> r == s
    ensures s.Ready? && (ev == TurnOn || ev == TurnOff) && !s.engine.subscribed ==> r == s
  {
    match s
    case Inert => Inert
    case Ready(e) =>
      Ready(
        match ev
        case Enable => Subscribe(e)
        case Disable => Unsubscribe(e)
        case TurnOn => if e.subscribed then OnTurnOn(e) else e
        case TurnOff => if e.subscribed then OnTurnOff(e) else e
        case Tick => if e.looping then Interpolate(e) else e)
  }

  /** The script after a run of events. */
  function Run(s: Script, evs: seq<Event>): (r: Script)
    requires s.Ready? ==> Inv(s.engine)
    ensures r.Ready? <==> s.Ready?
    ensures r.Ready? ==> Inv(r.engine)
    decreases |evs|
  {
    if |evs| == 0 then s else Run(Step(s, evs[0]), evs[1..])
  }

  /** `n` wake-ups of the loop. */
  function Ticks(e: Engine, n: nat): (r: Engine)
    requires FadeOk(e.fade)
    ensures FadeOk(r.fade)
    ensures |r.lights| == |e.lights|
    ensures r.fade.previous == e.fade.previous && r.fade.target == e.fade.target
    ensures r.fade.duration == e.fade.duration
  {
    if n == 0 then e else Interpolate(Ticks(e, n - 1))
  }

  /** The number of wake-ups a fade of `d` seconds takes: the least `n`
      with `n * 0.1 >= d`, that is `ceil(d / 0.1)`. */
  function TicksToFinish(d: real): (n: nat)
    requires d > 0.0
    ensures n >= 1
    ensures ((n - 1) as real) * DeltaTime < d <= (n as real) * DeltaTime
  {
    var q := (d * 10.0).Floor;
    if (q as real) == d * 10.0 then q else q + 1
  }

  /** Enabling twice is enabling once. */
  lemma SubscribeIdempotent(e: Engine)
    requires |e.lights| > 0
    ensures Subscribe(Subscribe(e)) == Subscribe(e)
  {
  }

  /** Disabling twice is disabling once. */
  lemma UnsubscribeIdempotent(e: Engine)
    ensures Unsubscribe(Unsubscribe(e)) == Unsubscribe(e)
  {
  }

  /** On every reachable engine, after an enable the loop runs exactly when
      some direction fades, and a repeated enable changes nothing. */
  lemma EnableGating(e: Engine)
    requires Inv(e)
    ensures var r := Step(Ready(e), Enable).engine;
      && r.subscribed
      && (r.looping <==> HasFadeTime(e.config))
      && Step(Ready(r), Enable) == Ready(r)
  {
  }

  /** After a disable no handler is registered and the loop is stopped; a
      second disable changes nothing. */
  lemma DisableGating(e: Engine)
    requires Inv(e)
    ensures var r := Step(Ready(e), Disable).engine;
      && !r.subscribed && !r.looping
      && Step(Ready(r), Disable) == Ready(r)
  {
  }

  /** `HasFadeTime` gates the loop for good: whatever events arrive, the
      configuration stays as it was and the loop runs exactly while the
      handlers are registered and some direction fades. A script whose two
      fades are both instant never starts it. */
  lemma {:induction false} LoopIffFading(s: Script, evs: seq<Event>)
    requires s.Ready? ==> Inv(s.engine)
    ensures var r := Run(s, evs);
      r.Ready? ==>
        && r.engine.config == s.engine.config
        && (r.engine.looping <==> r.engine.subscribed && HasFadeTime(s.engine.config))
    decreases |evs|
  {
    if |evs| > 0 {
      LoopIffFading(Step(s, evs[0]), evs[1..]);
    }
  }

  /** A disabled script ignores everything but an enable: the lights stay
      frozen at the last value written, whatever fade was under way. */
  lemma {:induction false} DisabledIsQuiescent(e: Engine, evs: seq<Event>)
    requires Inv(e) && !e.subscribed
    requires forall i :: 0 <= i < |evs| ==> evs[i] != Enable
    ensures Run(Ready(e), evs) == Ready(e)
    decreases |evs|
  {
    if |evs| > 0 {
      assert Step(Ready(e), evs[0]) == Ready(e);
      DisabledIsQuiescent(e, evs[1..]);
    }
  }

  /** While time is left after `k` wake-ups, each wake-up has taken exactly
      one period off the time and the fade is still under way. */
  lemma {:induction false} Countdown(e: Engine, k: nat)
    requires FadeOk(e.fade) && e.fade.active
    requires (k as real) * DeltaTime < e.fade.time
    ensures Ticks(e, k).fade == e.fade.(time := e.fade.time - (k as real) * DeltaTime)
  {
    if k > 0 {
      Countdown(e, k - 1);
    }
  }

  /** A fade under way with `d` seconds left is still under way after
      `ceil(d / 0.1) - 1` wake-ups and over after `ceil(d / 0.1)`, and the
      last wake-up writes exactly the target. */
  lemma FadeCompletes(e: Engine)
    requires FadeOk(e.fade) && e.fade.active
    ensures var n := TicksToFinish(e.fade.time);
      && Ticks(e, n - 1).fade.active
      && !Ticks(e, n).fade.active
      && Ticks(e, n).fade.time == 0.0
      && AllShow(Ticks(e, n).lights, e.fade.target)
  {
    var n := TicksToFinish(e.fade.time);
    Countdown(e, n - 1);
  }

  /** A two-second fade takes twenty wake-ups. */
  lemma TwoSecondFade()
    ensures TicksToFinish(2.0) == 20
  {
  }

  /** Turning on an enabled script with a positive fade time reaches the
      start-up value exactly, after `ceil(turnOnFadeTime / 0.1)` wake-ups,
      starting from whatever the light showed when the event arrived. */
  lemma TurnOnLandsOnInitial(e: Engine)
    requires Inv(e) && e.subscribed && e.config.turnOnFadeTime > 0.0
    ensures var f := Step(Ready(e), TurnOn).engine;
      && f.looping
      && f.fade.previous == Current(e)
      && f.lights == e.lights
      && var n := TicksToFinish(e.config.turnOnFadeTime);
         Ticks(f, n).lights == [e.initial] && !Ticks(f, n).fade.active
  {
    var f := Step(Ready(e), TurnOn).engine;
    FadeCompletes(f);
    var n := TicksToFinish(e.config.turnOnFadeTime);
    var g := Ticks(f, n);
    assert |g.lights| == 1 && g.lights[0] == e.initial;
  }

  /** Turning off with a zero fade time cancels a fade in flight but leaves
      its time behind: a settled fade with time left is reachable. */
  lemma ZeroFadeKeepsTime()
    ensures var cfg := Config(0.0, 1.0, false, true);
      var c := LightComponent(true, Light(Color(1.0, 1.0, 1.0, 1.0), 1.0));
      var s := Run(Init(cfg, [c]), [TurnOff, TurnOn]);
      s.Ready? && !s.engine.fade.active && s.engine.fade.time == 1.0
  {
    var cfg := Config(0.0, 1.0, false, true);
    var c := LightComponent(true, Light(Color(1.0, 1.0, 1.0, 1.0), 1.0));
    var s0 := Init(cfg, [c]);
    assert s0.Ready? && s0.engine.subscribed;
    var s1 := Step(s0, TurnOff);
    assert s1.engine.fade.time == 1.0 && s1.engine.fade.active;
    var s2 := Step(s1, TurnOn);
    assert [TurnOff, TurnOn][1..] == [TurnOn];
    assert Run(s0, [TurnOff, TurnOn]) == Run(s1, [TurnOn]);
    assert Run(s1, [TurnOn]) == Run(s2, []);
  }
}
