/** One sound source of a scene: its configuration, the audio commands it sends
    to its player, and the cache that keeps it from re-fading its volume when
    the listener only turns their head.

    The state of a sound is described twice: as the value `SoundState`, on which
    the step functions `AfterPan`, `AfterVolume`, `AfterPlay`, ... say what each
    handler does, and as the class `Sound`, whose methods update its fields in
    place and are proved to follow those step functions. */
module SoundSource {
  import opened Spatial

  datatype Option<T> = None | Some(value: T)

  /** A point on the map, in degrees. */
  datatype LatLng = LatLng(lat: real, lng: real)

  /** One entry of the scene's `sounds` list: where the sound is, its linear
      amplitude `db` and the silence `pause` (ms) between repetitions. */
  datatype SoundData = SoundData(name: string, position: LatLng, db: real, pause: real)

  /** The trigonometry the model does not compute: atan2(y, x) in degrees and
      the great-circle distance in metres. */
  datatype Geometry = Geometry(atan2Degrees: (real, real) -> real, metres: (LatLng, LatLng) -> real)

  /** A call made on the sound's audio player. */
  datatype Command =
    | Play
    | Pause
    | Stop
    | Pos3d(x: real, y: real, z: real)
    | Filter(hz: real)
    | Fade(from: real, to: real, ms: int)
    | ReplayAfter(ms: int)  // a timer that will play the sound again after `ms`

  /** Duration of every volume fade caused by movement. */
  const FadeMs: int := 500

  /** Everything about a sound that its handlers change. */
  datatype SoundState = SoundState(
    vol: real,
    prevVolume: real,
    prevUserPosition: Option<LatLng>,
    endHandlers: nat,        // how many 'end' handlers that pause and replay are registered
    commands: seq<Command>)  // every command sent to the player, oldest first

  function Initial(): SoundState {
    SoundState(0.0, 0.0, None, 0, [])
  }

  // ---------------------------------------------------------------------------
  // Geometry of one sound against the listener

  /** The raw bearing of the sound seen from `here`: atan2 of the longitude
      difference over the latitude difference. */
  function Bearing(data: SoundData, here: LatLng, geo: Geometry): real {
    geo.atan2Degrees(data.position.lng - here.lng, data.position.lat - here.lat)
  }

  /** The bearing depends only on where the sound lies relative to the listener:
      shifting both by the same offset leaves it unchanged. */
  lemma BearingDependsOnOffset(data: SoundData, here: LatLng, dLat: real, dLng: real, geo: Geometry)
    ensures var shifted := data.(position := LatLng(data.position.lat + dLat, data.position.lng + dLng));
      Bearing(shifted, LatLng(here.lat + dLat, here.lng + dLng), geo) == Bearing(data, here, geo)
  {
  }

  function DistanceTo(data: SoundData, here: LatLng, geo: Geometry): real {
    geo.metres(data.position, here)
  }

  /** The millisecond count `parseInt` reads from a pause: its integer part,
      truncated toward zero. */
  function WholeMs(pause: real): (ms: int)
    ensures Abs(ms as real) <= Abs(pause) < Abs(ms as real) + 1.0
    ensures ms > 0 ==> pause > 0.0
    ensures ms < 0 ==> pause < 0.0
  {
    if pause >= 0.0 then pause.Floor else -((-pause).Floor)
  }

  // ---------------------------------------------------------------------------
  // The fades a command log holds

  /** The fade commands of a log, in the order they were sent. */
  function Fades(cmds: seq<Command>): (fs: seq<Command>)
    ensures |fs| <= |cmds|
  {
    if cmds == [] then []
    else (if cmds[0].Fade? then [cmds[0]] else []) + Fades(cmds[1..])
  }

  lemma {:induction false} FadesAppend(a: seq<Command>, b: seq<Command>)
    ensures Fades(a + b) == Fades(a) + Fades(b)
  {
    if a == [] {
      assert a + b == b;
    } else {
      var head := if a[0].Fade? then [a[0]] else [];
      assert (a + b)[0] == a[0];
      assert (a + b)[1..] == a[1..] + b;
      FadesAppend(a[1..], b);
      calc {
        Fades(a + b);
        head + Fades(a[1..] + b);
        head + (Fades(a[1..]) + Fades(b));
        (head + Fades(a[1..])) + Fades(b);
        Fades(a) + Fades(b);
      }
    }
  }

  /** Commands that are not fades leave the fades of a log as they were. */
  lemma AppendNoFades(a: seq<Command>, b: seq<Command>)
    requires forall i :: 0 <= i < |b| ==> !b[i].Fade?
    ensures Fades(a + b) == Fades(a)
  {
    FadesAppend(a, b);
    NoFades(b);
  }

  lemma {:induction false} NoFades(b: seq<Command>)
    requires forall i :: 0 <= i < |b| ==> !b[i].Fade?
    ensures Fades(b) == []
  {
    if b != [] {
      assert !b[0].Fade?;
      NoFades(b[1..]);
    }
  }

  /** Appending one fade appends it to the fades of the log. */
  lemma OneFade(a: seq<Command>, fade: Command)
    requires fade.Fade?
    ensures Fades(a + [fade]) == Fades(a) + [fade]
  {
    FadesAppend(a, [fade]);
    assert [fade][1..] == [];
  }

  /** The fades form one unbroken chain from `start` to `end`: each lasts
      FadeMs and begins at the volume the previous one ended at. */
  ghost predicate FadeChain(fs: seq<Command>, start: real, end: real) {
    if fs == [] then start == end
    else
      fs[0].Fade? && fs[0].from == start && fs[0].ms == FadeMs
      && FadeChain(fs[1..], fs[0].to, end)
  }

  lemma {:induction false} FadeChainExtend(fs: seq<Command>, start: real, end: real, v: real)
    requires FadeChain(fs, start, end)
    ensures FadeChain(fs + [Fade(end, v, FadeMs)], start, v)
  {
    if fs == [] {
      assert FadeChain([Fade(end, v, FadeMs)][1..], v, v);
    } else {
      assert (fs + [Fade(end, v, FadeMs)])[1..] == fs[1..] + [Fade(end, v, FadeMs)];
      FadeChainExtend(fs[1..], fs[0].to, end, v);
    }
  }

  /** What every reachable state of a sound satisfies: the cached volume is the
      one last faded to, the fades chain from silence up to it, no fade was sent
      before a position was known, end handlers only for a nonzero pause, and
      for a non-negative amplitude the volume is within [0, 1]. */
  ghost predicate Consistent(s: SoundState, data: SoundData) {
    s.vol == s.prevVolume
    && FadeChain(Fades(s.commands), 0.0, s.vol)
    && (s.prevUserPosition.None? ==> Fades(s.commands) == [])
    && (s.endHandlers > 0 ==> data.pause != 0.0)
    && (data.db >= 0.0 ==> 0.0 <= s.vol <= 1.0)
  }

  lemma InitialConsistent(data: SoundData)
    ensures Consistent(Initial(), data)
  {
    assert Fades([]) == [];
  }

  // ---------------------------------------------------------------------------
  // Handlers as steps on the state

  /** updatePan: the pan position and the filter cutoff for the sound's angle
      relative to the listener's heading. */
  function PanCommands(bearing: real, heading: real): (cs: seq<Command>)
    ensures |cs| == 2 && cs[0].Pos3d? && cs[1].Filter?
    ensures cs[0].y == 1.0 && cs[0].z == 1.0
    ensures -180.0 < bearing <= 180.0 && 0.0 <= heading < 360.0 ==>
      -1.0 <= cs[0].x <= 1.0 && DirectlyBehindHz <= cs[1].hz <= FullOpenHz
  {
    var angle := RelativeAngle(bearing, heading);
    [Pos3d(Pan(angle), 1.0, 1.0), Filter(Cutoff(angle))]
  }

  /** updatePan as a step: the pan and filter commands are sent, nothing else changes. */
  function AfterPan(s: SoundState, bearing: real, heading: real): (t: SoundState)
    ensures |t.commands| == |s.commands| + 2 && t.commands[..|s.commands|] == s.commands
    ensures t.commands[|s.commands|].Pos3d? && t.commands[|s.commands| + 1].Filter?
    ensures Fades(t.commands) == Fades(s.commands)
    ensures t.vol == s.vol && t.prevVolume == s.prevVolume
    ensures t.prevUserPosition == s.prevUserPosition && t.endHandlers == s.endHandlers
  {
    AppendNoFades(s.commands, PanCommands(bearing, heading));
    s.(commands := s.commands + PanCommands(bearing, heading))
  }

  /** The listener at `here` differs from the cached position in latitude or
      longitude (always so while no position is cached). */
  predicate Moved(s: SoundState, here: LatLng): (m: bool)
    ensures m <==> s.prevUserPosition != Some(here)
  {
    match s.prevUserPosition
    case None => true
    case Some(p) => here.lat != p.lat || here.lng != p.lng
  }

  /** updateVolume: when the listener moved, fade from the cached volume to the
      volume at the new distance and cache both; otherwise change nothing. */
  function AfterVolume(s: SoundState, data: SoundData, here: LatLng, distance: real): (t: SoundState)
    requires Moved(s, here) ==> distance != 0.0
    ensures !Moved(t, here) && t.prevUserPosition == Some(here)
    ensures t.endHandlers == s.endHandlers
    ensures !Moved(s, here) ==> t == s
    ensures Moved(s, here) ==>
      var fade := Fade(s.prevVolume, Volume(distance, data.db), FadeMs);
      t.vol == t.prevVolume == Volume(distance, data.db)
      && t.commands == s.commands + [fade]
      && Fades(t.commands) == Fades(s.commands) + [fade]
  {
    if Moved(s, here) then
      var v := Volume(distance, data.db);
      OneFade(s.commands, Fade(s.prevVolume, v, FadeMs));
      s.(vol := v, prevVolume := v, prevUserPosition := Some(here),
         commands := s.commands + [Fade(s.prevVolume, v, FadeMs)])
    else s
  }

  /** onUserMovement: pan and filter always, volume only on a change of position. */
  function AfterMovement(s: SoundState, data: SoundData, here: LatLng, heading: real, geo: Geometry): (t: SoundState)
    requires Moved(s, here) ==> DistanceTo(data, here, geo) != 0.0
    ensures t.prevUserPosition == Some(here) && t.endHandlers == s.endHandlers
    ensures |t.commands| == |s.commands| + (if Moved(s, here) then 3 else 2)
    ensures t.commands[..|s.commands|] == s.commands
    ensures |Fades(t.commands)| == |Fades(s.commands)| + (if Moved(s, here) then 1 else 0)
    ensures Moved(s, here) ==> t.vol == t.prevVolume == Volume(DistanceTo(data, here, geo), data.db)
    ensures !Moved(s, here) ==> t.vol == s.vol && t.prevVolume == s.prevVolume
  {
    var panned := AfterPan(s, Bearing(data, here, geo), heading);
    var t := AfterVolume(panned, data, here, DistanceTo(data, here, geo));
    assert t.commands[..|s.commands|] == panned.commands[..|s.commands|];
    t
  }

  /** playSound: play, and register one more pause-and-replay handler for a
      nonzero pause (every call registers another). */
  function AfterPlay(s: SoundState, data: SoundData): (t: SoundState)
    ensures t.endHandlers == s.endHandlers + (if data.pause != 0.0 then 1 else 0)
    ensures t.commands == s.commands + [Play]
    ensures Consistent(s, data) ==> (t.endHandlers > 0 <==> data.pause != 0.0)
  {
    s.(commands := s.commands + [Play], endHandlers := if data.pause != 0.0 then s.endHandlers + 1 else s.endHandlers)
  }

  /** What `n` registered 'end' handlers send when the clip ends: each pauses
      the player and schedules a replay after `ms`. */
  function Replays(n: nat, ms: int): (cs: seq<Command>)
    ensures |cs| == 2 * n
    ensures forall i :: 0 <= i < |cs| ==> cs[i] == if i % 2 == 0 then Pause else ReplayAfter(ms)
  {
    if n == 0 then [] else Replays(n - 1, ms) + [Pause, ReplayAfter(ms)]
  }

  /** The clip ended: every registered handler pauses and schedules a replay. */
  function AfterClipEnd(s: SoundState, data: SoundData): (t: SoundState)
    ensures |t.commands| == |s.commands| + 2 * s.endHandlers && t.commands[..|s.commands|] == s.commands
    ensures Fades(t.commands) == Fades(s.commands)
    ensures s.endHandlers == 0 ==> t == s
    ensures t.(commands := s.commands) == s
  {
    var replays := Replays(s.endHandlers, WholeMs(data.pause));
    AppendNoFades(s.commands, replays);
    assert s.commands + [] == s.commands;
    s.(commands := s.commands + replays)
  }

  /** stopSound: the stop command is sent, nothing else changes. */
  function AfterStop(s: SoundState): (t: SoundState)
    ensures |t.commands| == |s.commands| + 1 && t.commands[..|s.commands|] == s.commands
    ensures t.commands[|s.commands|] == Stop
    ensures Fades(t.commands) == Fades(s.commands)
    ensures t.(commands := s.commands) == s
  {
    AppendNoFades(s.commands, [Stop]);
    s.(commands := s.commands + [Stop])
  }

  // ---------------------------------------------------------------------------
  // Properties of the handlers

  /** A move to a new position sends exactly one fade, 500 ms long, from the
      cached volume to the volume at the new distance, and caches the position. */
  lemma MovementFadesOnce(s: SoundState, data: SoundData, here: LatLng, heading: real, geo: Geometry)
    requires Moved(s, here)
    requires DistanceTo(data, here, geo) != 0.0
    ensures var t := AfterMovement(s, data, here, heading, geo);
      var fade := Fade(s.prevVolume, Volume(DistanceTo(data, here, geo), data.db), FadeMs);
      t.commands == s.commands + PanCommands(Bearing(data, here, geo), heading) + [fade]
      && Fades(t.commands) == Fades(s.commands) + [fade]
      && t.prevUserPosition == Some(here)
      && t.vol == t.prevVolume == Volume(DistanceTo(data, here, geo), data.db)
  {
    var bearing := Bearing(data, here, geo);
    var v := Volume(DistanceTo(data, here, geo), data.db);
    var panned := AfterPan(s, bearing, heading);
    AppendNoFades(s.commands, PanCommands(bearing, heading));
    FadesAppend(panned.commands, [Fade(s.prevVolume, v, FadeMs)]);
    assert Fades([Fade(s.prevVolume, v, FadeMs)]) == [Fade(s.prevVolume, v, FadeMs)] by {
      assert [Fade(s.prevVolume, v, FadeMs)][1..] == [];
    }
  }

  /** Turning without moving updates pan and filter but sends no fade and
      leaves the volume cache alone. */
  lemma HeadingOnlyNoFade(s: SoundState, data: SoundData, here: LatLng, heading: real, geo: Geometry)
    requires !Moved(s, here)
    ensures var t := AfterMovement(s, data, here, heading, geo);
      t.commands == s.commands + PanCommands(Bearing(data, here, geo), heading)
      && Fades(t.commands) == Fades(s.commands)
      && t.vol == s.vol && t.prevVolume == s.prevVolume && t.prevUserPosition == s.prevUserPosition
  {
    AppendNoFades(s.commands, PanCommands(Bearing(data, here, geo), heading));
  }

  /** The volume update is idempotent: a second update at the same position
      changes nothing, whatever distance it is given. */
  lemma VolumeUpdateIdempotent(s: SoundState, data: SoundData, here: LatLng, d1: real, d2: real)
    requires Moved(s, here) ==> d1 != 0.0
    ensures AfterVolume(AfterVolume(s, data, here, d1), data, here, d2) == AfterVolume(s, data, here, d1)
  {
  }

  /** Two movement events at the same position send only the first one's fade. */
  lemma RepeatedPositionFadesOnce(s: SoundState, data: SoundData, here: LatLng, h1: real, h2: real, geo: Geometry)
    requires Moved(s, here) ==> DistanceTo(data, here, geo) != 0.0
    ensures var t := AfterMovement(s, data, here, h1, geo);
      Fades(AfterMovement(t, data, here, h2, geo).commands) == Fades(t.commands)
  {
    var t := AfterMovement(s, data, here, h1, geo);
    HeadingOnlyNoFade(t, data, here, h2, geo);
  }

  /** A sound with zero pause uses native looping only: its clip end sends no
      pause and schedules no replay, even after it was played. */
  lemma ZeroPauseNeverPauses(s: SoundState, data: SoundData)
    requires Consistent(s, data)
    requires data.pause == 0.0
    ensures AfterClipEnd(s, data) == s
    ensures AfterClipEnd(AfterPlay(s, data), data) == AfterPlay(s, data)
  {
  }

  /** A played sound with a nonzero pause answers each clip end with a pause and
      a replay after the whole milliseconds of its pause, once per registered
      handler, and playing registers one more. */
  lemma NonzeroPauseReplays(s: SoundState, data: SoundData)
    requires data.pause != 0.0
    ensures var p := AfterPlay(s, data);
      p.endHandlers == s.endHandlers + 1
      && AfterClipEnd(p, data).commands == p.commands + Replays(p.endHandlers, WholeMs(data.pause))
  {
  }

  /** `k` calls of playSound in a row. */
  function PlayTimes(s: SoundState, data: SoundData, k: nat): SoundState {
    if k == 0 then s else AfterPlay(PlayTimes(s, data, k - 1), data)
  }

  /** Every call of playSound on a sound with a nonzero pause registers another
      handler, so after `k` plays from the initial state a clip end sends `k`
      pauses and `k` replays; with a zero pause it sends nothing. */
  lemma {:induction false} PlayingAgainAddsHandlers(data: SoundData, k: nat)
    ensures PlayTimes(Initial(), data, k).endHandlers == if data.pause != 0.0 then k else 0
    ensures var p := PlayTimes(Initial(), data, k);
      |AfterClipEnd(p, data).commands| == |p.commands| + (if data.pause != 0.0 then 2 * k else 0)
  {
    if k > 0 {
      PlayingAgainAddsHandlers(data, k - 1);
    }
  }

  // Every handler keeps a consistent state consistent.

  lemma PanKeepsConsistent(s: SoundState, data: SoundData, bearing: real, heading: real)
    requires Consistent(s, data)
    ensures Consistent(AfterPan(s, bearing, heading), data)
  {
    AppendNoFades(s.commands, PanCommands(bearing, heading));
  }

  lemma VolumeKeepsConsistent(s: SoundState, data: SoundData, here: LatLng, distance: real)
    requires Consistent(s, data)
    requires Moved(s, here) ==> distance != 0.0
    ensures Consistent(AfterVolume(s, data, here, distance), data)
  {
    if Moved(s, here) {
      var v := Volume(distance, data.db);
      var fade := Fade(s.prevVolume, v, FadeMs);
      FadesAppend(s.commands, [fade]);
      assert Fades([fade]) == [fade] by {
        assert [fade][1..] == [];
      }
      FadeChainExtend(Fades(s.commands), 0.0, s.vol, v);
    }
  }

  lemma MovementKeepsConsistent(s: SoundState, data: SoundData, here: LatLng, heading: real, geo: Geometry)
    requires Consistent(s, data)
    requires Moved(s, here) ==> DistanceTo(data, here, geo) != 0.0
    ensures Consistent(AfterMovement(s, data, here, heading, geo), data)
  {
    var panned := AfterPan(s, Bearing(data, here, geo), heading);
    PanKeepsConsistent(s, data, Bearing(data, here, geo), heading);
    VolumeKeepsConsistent(panned, data, here, DistanceTo(data, here, geo));
  }

  lemma PlayKeepsConsistent(s: SoundState, data: SoundData)
    requires Consistent(s, data)
    ensures Consistent(AfterPlay(s, data), data)
  {
    AppendNoFades(s.commands, [Play]);
  }

  lemma ClipEndKeepsConsistent(s: SoundState, data: SoundData)
    requires Consistent(s, data)
    ensures Consistent(AfterClipEnd(s, data), data)
  {
    AppendNoFades(s.commands, [Pause, ReplayAfter(WholeMs(data.pause))]);
  }

  lemma StopKeepsConsistent(s: SoundState, data: SoundData)
    requires Consistent(s, data)
    ensures Consistent(AfterStop(s), data)
  {
    AppendNoFades(s.commands, [Stop]);
  }

  // ---------------------------------------------------------------------------
  // The sound object

  class Sound {
    const data: SoundData
    /** Whether native looping was requested when the player was created. */
    const loop: bool
    var vol: real
    var prevVolume: real
    var prevUserPosition: Option<LatLng>
    /** The 'end' handlers registered by playSound so far. */
    var endHandlers: nat
    var commands: seq<Command>

    function State(): SoundState
      reads this
    {
      SoundState(vol, prevVolume, prevUserPosition, endHandlers, commands)
    }

    ghost predicate Valid()
      reads this
    {
      (loop <==> data.pause == 0.0) && Consistent(State(), data)
    }

    /** Creates the sound and its player: native looping exactly when the pause is zero. */
    constructor (data: SoundData)
      ensures this.data == data
      ensures Valid() && State() == Initial()
      ensures loop <==> data.pause == 0.0
    {
      this.data := data;
      loop := data.pause == 0.0;
      vol, prevVolume := 0.0, 0.0;
      prevUserPosition := None;
      endHandlers := 0;
      commands := [];
      new;
      InitialConsistent(data);
    }

    /** Plays the sound; with a nonzero pause it also registers one more handler
        that pauses on each clip end and replays after the pause. */
    method PlaySound()
      requires Valid()
      modifies this
      ensures Valid()
      ensures State() == AfterPlay(old(State()), data)
      ensures endHandlers > 0 <==> data.pause != 0.0
      ensures loop ==> endHandlers == 0
    {
      PlayKeepsConsistent(State(), data);
      commands := commands + [Play];
      if data.pause != 0.0 {
        endHandlers := endHandlers + 1;
      }
    }

    method StopSound()
      requires Valid()
      modifies this
      ensures Valid()
      ensures State() == AfterStop(old(State()))
    {
      StopKeepsConsistent(State(), data);
      commands := commands + [Stop];
    }

    /** The player reached the end of the clip. */
    method ClipEnded()
      requires Valid()
      modifies this
      ensures Valid()
      ensures State() == AfterClipEnd(old(State()), data)
      ensures loop ==> State() == old(State())
    {
      ClipEndKeepsConsistent(State(), data);
      ghost var before := State();
      var ms := WholeMs(data.pause);
      var i := 0;
      while i < endHandlers
        invariant 0 <= i <= endHandlers
        invariant State() == before.(commands := before.commands + Replays(i, ms))
      {
        commands := commands + [Pause, ReplayAfter(ms)];
        i := i + 1;
      }
    }

    method UpdatePan(here: LatLng, heading: real, geo: Geometry)
      requires Valid()
      modifies this
      ensures Valid()
      ensures State() == AfterPan(old(State()), Bearing(data, here, geo), heading)
    {
      var yDiff := data.position.lng - here.lng;
      var xDiff := data.position.lat - here.lat;
      var angle := geo.atan2Degrees(yDiff, xDiff);
      ghost var before := State();
      ghost var bearing := angle;
      PanKeepsConsistent(before, data, bearing, heading);

      angle := angle - heading;
      if angle < -180.0 {
        angle := angle + 360.0;
      } else if angle > 180.0 {
        angle := angle - 360.0;
      }
      assert angle == RelativeAngle(bearing, heading);

      var panPosition := angle / 90.0;
      if Abs(panPosition) > 1.0 {
        var x := Abs(panPosition) - 1.0;
        panPosition := if panPosition > 0.0 then 1.0 - x else -1.0 + x;
      }
      assert panPosition == Pan(angle);
      commands := commands + [Pos3d(panPosition, 1.0, 1.0)];

      var freq := FullOpenHz;
      if Abs(angle) > 90.0 {
        freq := freq - (Abs(angle) - 90.0) * HzPerDegreeBehind;
      }
      assert freq == Cutoff(angle);
      commands := commands + [Filter(freq)];
      assert commands == before.commands + PanCommands(bearing, heading);
      assert State() == AfterPan(before, bearing, heading);
    }

    method UpdateVolume(here: LatLng, geo: Geometry)
      requires Valid()
      requires Moved(State(), here) ==> DistanceTo(data, here, geo) != 0.0
      modifies this
      ensures Valid()
      ensures State() == AfterVolume(old(State()), data, here, DistanceTo(data, here, geo))
      ensures prevVolume == vol && prevUserPosition == Some(here)
    {
      ghost var before := State();
      VolumeKeepsConsistent(before, data, here, DistanceTo(data, here, geo));
      var moved := match prevUserPosition
        case None => true
        case Some(p) => here.lat != p.lat || here.lng != p.lng;
      if moved {
        var distance := geo.metres(data.position, here);
        vol := Volume(distance, data.db);
        commands := commands + [Fade(prevVolume, vol, FadeMs)];
        prevVolume := vol;
        prevUserPosition := Some(here);
      }
      assert State() == AfterVolume(before, data, here, DistanceTo(data, here, geo));
    }

    method OnUserMovement(here: LatLng, heading: real, geo: Geometry)
      requires Valid()
      requires Moved(State(), here) ==> DistanceTo(data, here, geo) != 0.0
      modifies this
      ensures Valid()
      ensures State() == AfterMovement(old(State()), data, here, heading, geo)
    {
      UpdatePan(here, heading, geo);
      UpdateVolume(here, geo);
    }
  }
}
