/** The spatial-audio decision the renderer takes for every other player on each snapshot:
    the main gain, the camera bleed, the routing targets of the three gain nodes and the
    panner position; and the small derivations of the local player, the other players and
    the record of who is dead. */
module Voice {
  import opened JsNumber
  import opened GameModel
  import opened ShipGeometry

  /** `distSq`: the squared distance, NaN when a coordinate is not a number. */
  function DistSq(x0: JsNum, y0: JsNum, x1: JsNum, y1: JsNum): (d: JsNum)
    ensures d.Num? <==> x0.Num? && y0.Num? && x1.Num? && y1.Num?
    ensures d.Num? ==> d.v >= 0.0
  {
    var dx := Minus(x0, x1);
    var dy := Minus(y0, y1);
    SquareNonNeg(dx);
    SquareNonNeg(dy);
    Plus(Times(dx, dx), Times(dy, dy))
  }

  lemma SquareNonNeg(a: JsNum)
    ensures a.Num? ==> a.v * a.v >= 0.0
  {
    if a.Num? && a.v < 0.0 {
      assert a.v * a.v == (-a.v) * (-a.v);
    }
  }

  /** The distance does not depend on the order of the two points. */
  lemma DistSqSymmetric(x0: JsNum, y0: JsNum, x1: JsNum, y1: JsNum)
    ensures DistSq(x0, y0, x1, y1) == DistSq(x1, y1, x0, y0)
  {
    if x0.Num? && y0.Num? && x1.Num? && y1.Num? {
      assert (x0.v - x1.v) * (x0.v - x1.v) == (x1.v - x0.v) * (x1.v - x0.v);
      assert (y0.v - y1.v) * (y0.v - y1.v) == (y1.v - y0.v) * (y1.v - y0.v);
    }
  }

  /** `6 * 6`: the squared hearing range. */
  const MaxDist: real := 36.0

  /** `r * r` with `r = 3`: the squared range of a camera. */
  const CameraRange: real := 9.0

  /** The geometry of the three maps. Their data files are not part of this model. */
  datatype Maps = Maps(theSkeld: Ship, miraHq: Ship, polus: Ship)

  /** The `switch (state.map)` with strict equality: the map's geometry, or the empty map for
      any other value. */
  function MapShip(mapType: JsNum, maps: Maps): (ship: Ship)
    ensures !(StrictEq(mapType, Num(MapSkeld)) || StrictEq(mapType, Num(MapMiraHq)) || StrictEq(mapType, Num(MapPolus)))
      ==> ship == EmptyShip()
  {
    if StrictEq(mapType, Num(MapSkeld)) then maps.theSkeld
    else if StrictEq(mapType, Num(MapMiraHq)) then maps.miraHq
    else if StrictEq(mapType, Num(MapPolus)) then maps.polus
    else EmptyShip()
  }

  /** The squared distance between the local player and the other one. */
  function PlayerDist(me: Player, other: Player): JsNum {
    DistSq(me.x, me.y, other.x, other.y)
  }

  /** The gain during TASKS, for a living other player outside a vent. */
  function TasksGain(state: AmongUsState, me: Player, other: Player, ship: Ship): (g: real)
    ensures g == 0.0 || g == 0.5 || g == 1.0
  {
    if Gt(PlayerDist(me, other), Num(MaxDist)) then 0.0
    else if me.isDead then 1.0
    else if state.isCommsSabotaged then 0.0
    else 1.0 - Blocked(ship, state.openDoors, me.x, me.y, other.x, other.y)
  }

  /** The main gain `g`: the first matching case of the phase and the two players' flags. */
  function Gain(state: AmongUsState, me: Player, other: Player, maps: Maps): (g: real)
    ensures g == 0.0 || g == 0.5 || g == 1.0
  {
    if state.gameState == LOBBY then 1.0
    else if state.gameState == MENU then 0.0
    else if other.inVent then 0.0
    else if other.isDead then (if me.isDead && Le(PlayerDist(me, other), Num(MaxDist)) then 1.0 else 0.0)
    else if state.gameState == DISCUSSION then 1.0
    else if state.gameState == TASKS then TasksGain(state, me, other, MapShip(state.mapType, maps))
    else 1.0
  }

  /** `cam[k]`: the coordinate, or `undefined` when the entry is shorter. */
  function CamCoord(cam: seq<real>, k: nat): JsNum {
    if k < |cam| then Num(cam[k]) else Undefined
  }

  /** The squared distance from a camera to the other player. */
  function CamDist(cam: seq<real>, other: Player): JsNum {
    DistSq(CamCoord(cam, 0), CamCoord(cam, 1), other.x, other.y)
  }

  /** Camera i is shown when its bit of `viewingCameras & (1 << i)` is set (the shift uses
      i mod 32, and -1 shows every camera) and the other player is strictly within its range. */
  predicate CameraSees(cams: seq<seq<real>>, viewing: Mask, i: nat, other: Player)
    requires i < |cams|
  {
    viewing[i % 32] && Lt(CamDist(cams[i], other), Num(CameraRange))
  }

  /** The camera loop from camera i: the first camera that sees the other player. */
  function FirstCamera(cams: seq<seq<real>>, viewing: Mask, other: Player, i: nat): (c: Option<nat>)
    requires i <= |cams|
    ensures c.Some? ==> i <= c.value < |cams| && CameraSees(cams, viewing, c.value, other)
    ensures c.Some? ==> forall j :: i <= j < c.value ==> !CameraSees(cams, viewing, j, other)
    ensures c.None? <==> forall j :: i <= j < |cams| ==> !CameraSees(cams, viewing, j, other)
    decreases |cams| - i
  {
    if i == |cams| then None
    else if CameraSees(cams, viewing, i, other) then Some(i)
    else FirstCamera(cams, viewing, other, i + 1)
  }

  /** The guard of the camera loop: the other player is not fully heard, comms work, and the
      local player is watching some camera. */
  predicate ScanCameras(state: AmongUsState, g: real) {
    g < 1.0 && !state.isCommsSabotaged && state.viewingCameras != NoBits()
  }

  /** Whether the decision reaches the TASKS branch of the gain chain. */
  predicate InTasksBranch(state: AmongUsState, other: Player) {
    state.gameState == TASKS && !other.inVent && !other.isDead
  }

  /** The camera the loop selects, if it runs. */
  function SelectedCamera(state: AmongUsState, me: Player, other: Player, maps: Maps): Option<nat> {
    if InTasksBranch(state, other) && ScanCameras(state, Gain(state, me, other, maps))
    then FirstCamera(MapShip(state.mapType, maps).cameras, state.viewingCameras, other, 0)
    else None
  }

  /** `1 - Math.sqrt(dist) / r` for the selected camera, 0 when none is selected. The square
      root is a parameter. */
  function CamsGain(ship: Ship, camera: Option<nat>, other: Player, sqrt: real -> real): real {
    if camera.None? || camera.value >= |ship.cameras| then 0.0
    else
      var d := CamDist(ship.cameras[camera.value], other);
      if d.Num? then 1.0 - sqrt(d.v) / 3.0 else 0.0
  }

  /** `Math.sqrt` on a number: NaN for NaN, `undefined` or a negative number. */
  function JsSqrt(d: JsNum, sqrt: real -> real): JsNum {
    if d.Num? && d.v >= 0.0 then Num(sqrt(d.v)) else NaN
  }

  /** The panner position before sanitising. */
  function PanPos(state: AmongUsState, stereo: bool, me: Player, other: Player, sqrt: real -> real): (JsNum, JsNum) {
    if state.gameState == DISCUSSION || state.gameState == LOBBY then (Num(0.0), Num(0.0))
    else if stereo then (Minus(other.x, me.x), Minus(other.y, me.y))
    else (Num(0.0), JsSqrt(PlayerDist(me, other), sqrt))
  }

  /** `Math.min(999, Math.max(-999, v))` on a number. */
  function Clamp999(v: real): (r: real)
    ensures -999.0 <= r <= 999.0
    ensures -999.0 <= v <= 999.0 ==> r == v
  {
    var lo := if -999.0 >= v then -999.0 else v;
    if 999.0 <= lo then 999.0 else lo
  }

  /** One coordinate of the panner position: NaN becomes 999, then the value is clamped to
      [-999, 999]. */
  function Sanitise(c: JsNum): (r: real)
    ensures -999.0 <= r <= 999.0
    ensures IsNaN(c) ==> r == 999.0
    ensures c.Num? && -999.0 <= c.v <= 999.0 ==> r == c.v
    ensures c.Num? && c.v > 999.0 ==> r == 999.0
    ensures c.Num? && c.v < -999.0 ==> r == -999.0
  {
    Clamp999(if IsNaN(c) then 999.0 else c.v)
  }

  datatype Pan = Pan(x: real, y: real)

  /** The writes `calculateVoiceAudio` makes: `g` and `gCams`, the selected camera, the targets
      set on the camera, muffled and main gain nodes (`None` where no target is set), the
      panner position (`None` where it is not written) and its z coordinate. */
  datatype VoiceAudio = VoiceAudio(
    g: real,
    gCams: real,
    camera: Option<nat>,
    camsTarget: Option<real>,
    muffledTarget: Option<real>,
    mainTarget: real,
    position: Option<Pan>,
    positionZ: real)

  /** The target set on the camera gain node, given its current value. */
  function CamsTarget(gCams: real, camsNow: real): Option<real> {
    if gCams != 0.0 && camsNow < 1.0 then Some(1.0)
    else if gCams == 0.0 && camsNow > 0.0 then Some(0.0)
    else None
  }

  /** The target set on the muffled gain node, given its current value. */
  function MuffledTarget(g: real, muffledNow: real): Option<real> {
    if g == 0.5 then Some(1.0) else if muffledNow > 0.0 then Some(0.0) else None
  }

  /** The target set on the main gain node. */
  function MainTarget(g: real): real {
    if g == 0.5 then 0.0 else g
  }

  /** The whole decision of `calculateVoiceAudio`, given the current values of the camera and
      muffled gain nodes. */
  function Decide(state: AmongUsState, stereo: bool, me: Player, other: Player, maps: Maps,
                  camsNow: real, muffledNow: real, sqrt: real -> real): VoiceAudio
  {
    var g := Gain(state, me, other, maps);
    var camera := SelectedCamera(state, me, other, maps);
    var gCams := CamsGain(MapShip(state.mapType, maps), camera, other, sqrt);
    var pan := PanPos(state, stereo, me, other, sqrt);
    VoiceAudio(g, gCams, camera, CamsTarget(gCams, camsNow), MuffledTarget(g, muffledNow), MainTarget(g),
      if g > 0.0 then Some(Pan(Sanitise(pan.0), Sanitise(pan.1))) else None, -0.5)
  }

  /** The camera loop of `calculateVoiceAudio`, with its `continue` and `break`. */
  method ScanLoop(cams: seq<seq<real>>, viewing: Mask, other: Player, sqrt: real -> real)
    returns (camera: Option<nat>, gCams: real)
    ensures camera == FirstCamera(cams, viewing, other, 0)
    ensures camera.None? ==> gCams == 0.0
    ensures camera.Some? ==> gCams == 1.0 - sqrt(CamDist(cams[camera.value], other).v) / 3.0
  {
    camera, gCams := None, 0.0;
    var i := 0;
    while i < |cams|
      invariant 0 <= i <= |cams|
      invariant FirstCamera(cams, viewing, other, i) == FirstCamera(cams, viewing, other, 0)
      decreases |cams| - i
    {
      if !viewing[i % 32] {
        i := i + 1;
        continue;
      }
      var cam := cams[i];
      var dist := DistSq(CamCoord(cam, 0), CamCoord(cam, 1), other.x, other.y);
      if Lt(dist, Num(CameraRange)) {
        gCams := 1.0 - sqrt(dist.v) / 3.0;
        camera := Some(i);
        break;
      }
      i := i + 1;
    }
  }

  /** The gain chain of `calculateVoiceAudio`, with the camera loop in its TASKS branch. */
  method GainAndCameras(state: AmongUsState, me: Player, other: Player, maps: Maps, sqrt: real -> real)
    returns (g: real, camera: Option<nat>, gCams: real)
    ensures g == Gain(state, me, other, maps)
    ensures camera == SelectedCamera(state, me, other, maps)
    ensures gCams == CamsGain(MapShip(state.mapType, maps), camera, other, sqrt)
  {
    var dist := DistSq(me.x, me.y, other.x, other.y);
    gCams, camera := 0.0, None;
    if state.gameState == LOBBY {
      g := 1.0;
    } else if state.gameState == MENU {
      g := 0.0;
    } else if other.inVent {
      g := 0.0;
    } else if other.isDead {
      g := if me.isDead && Le(dist, Num(MaxDist)) then 1.0 else 0.0;
    } else if state.gameState == DISCUSSION {
      g := 1.0;
    } else if state.gameState == TASKS {
      var ship := MapShip(state.mapType, maps);
      if Gt(dist, Num(MaxDist)) {
        g := 0.0;
      } else if me.isDead {
        g := 1.0;
      } else if state.isCommsSabotaged {
        g := 0.0;
      } else {
        g := 1.0 - Blocked(ship, state.openDoors, me.x, me.y, other.x, other.y);
      }
      if g < 1.0 && !state.isCommsSabotaged && state.viewingCameras != NoBits() {
        camera, gCams := ScanLoop(ship.cameras, state.viewingCameras, other, sqrt);
      }
    } else {
      g := 1.0;
    }
  }

  /** The in-place sanitising of the panner position: NaN to 999, then the clamp. */
  method SanitisePan(panPos: array<JsNum>)
    requires panPos.Length == 2
    modifies panPos
    ensures panPos[0] == Num(Sanitise(old(panPos[0]))) && panPos[1] == Num(Sanitise(old(panPos[1])))
  {
    if IsNaN(panPos[0]) {
      panPos[0] := Num(999.0);
    }
    if IsNaN(panPos[1]) {
      panPos[1] := Num(999.0);
    }
    panPos[0] := Num(Clamp999(panPos[0].v));
    panPos[1] := Num(Clamp999(panPos[1].v));
  }

  /** `calculateVoiceAudio`: the panner position, the gain chain and camera loop, the routing
      writes, and the sanitised position for an audible player. */
  method CalculateVoiceAudio(state: AmongUsState, stereo: bool, me: Player, other: Player, maps: Maps,
                             camsNow: real, muffledNow: real, sqrt: real -> real)
    returns (a: VoiceAudio)
    ensures a == Decide(state, stereo, me, other, maps, camsNow, muffledNow, sqrt)
  {
    var panPos := new JsNum[2];
    var dist := DistSq(me.x, me.y, other.x, other.y);
    if state.gameState == DISCUSSION || state.gameState == LOBBY {
      panPos[0], panPos[1] := Num(0.0), Num(0.0);
    } else if stereo {
      panPos[0], panPos[1] := Minus(other.x, me.x), Minus(other.y, me.y);
    } else {
      panPos[0], panPos[1] := Num(0.0), JsSqrt(dist, sqrt);
    }
    ghost var pan := PanPos(state, stereo, me, other, sqrt);
    assert panPos[0] == pan.0 && panPos[1] == pan.1;
    var g, camera, gCams := GainAndCameras(state, me, other, maps, sqrt);
    var camsTarget: Option<real> := None;
    if gCams != 0.0 && camsNow < 1.0 {
      camsTarget := Some(1.0);
    } else if gCams == 0.0 && camsNow > 0.0 {
      camsTarget := Some(0.0);
    }
    var muffledTarget: Option<real> := None;
    var mainTarget: real;
    if g == 0.5 {
      muffledTarget := Some(1.0);
      mainTarget := 0.0;
    } else {
      if muffledNow > 0.0 {
        muffledTarget := Some(0.0);
      }
      mainTarget := g;
    }
    var position: Option<Pan> := None;
    if g > 0.0 {
      SanitisePan(panPos);
      position := Some(Pan(panPos[0].v, panPos[1].v));
    }
    a := VoiceAudio(g, gCams, camera, camsTarget, muffledTarget, mainTarget, position, -0.5);
  }

  // ---------------------------------------------------------------------------------------
  // Properties of the decision
  // ---------------------------------------------------------------------------------------

  /** Some wall segment of the map crosses the sight line between the two players. */
  predicate WallBetween(ship: Ship, me: Player, other: Player) {
    Intersects(ship.points, ship.walls, me.x, me.y, other.x, other.y) != 0.0
  }

  /** Some window segment of the map crosses the sight line between the two players. */
  predicate WindowBetween(ship: Ship, me: Player, other: Player) {
    Intersects(ship.points, ship.windows, me.x, me.y, other.x, other.y) != 0.0
  }

  /** The half gain occurs exactly in TASKS, for a living player in range, heard by a living
      player with working comms, through a window and no wall. */
  lemma HalfGainBehindWindow(state: AmongUsState, me: Player, other: Player, maps: Maps)
    ensures var ship := MapShip(state.mapType, maps);
      Gain(state, me, other, maps) == 0.5 <==>
        && InTasksBranch(state, other)
        && !Gt(PlayerDist(me, other), Num(MaxDist))
        && !me.isDead && !state.isCommsSabotaged
        && !WallBetween(ship, me, other) && WindowBetween(ship, me, other)
  {
  }

  /** In TASKS nobody out of range is heard, dead or alive. */
  lemma FarSilentInTasks(state: AmongUsState, me: Player, other: Player, maps: Maps)
    requires state.gameState == TASKS && Gt(PlayerDist(me, other), Num(MaxDist))
    ensures Gain(state, me, other, maps) == 0.0
  {
  }

  /** Sabotaged comms silence every player for a living listener in TASKS, impostors
      included. */
  lemma CommsSilenceInTasks(state: AmongUsState, me: Player, other: Player, maps: Maps)
    requires state.gameState == TASKS && state.isCommsSabotaged && !me.isDead
    ensures Gain(state, me, other, maps) == 0.0
    ensures Gain(state, me, other.(isImpostor := !other.isImpostor), maps) == 0.0
  {
  }

  /** Outside the lobby, a dead player is heard only by a dead listener in range, and a player
      in a vent is never heard. */
  lemma GhostsAndVents(state: AmongUsState, me: Player, other: Player, maps: Maps)
    requires state.gameState != LOBBY
    ensures other.inVent ==> Gain(state, me, other, maps) == 0.0
    ensures other.isDead && !other.inVent ==>
      (Gain(state, me, other, maps) == 1.0 <==>
        state.gameState != MENU && me.isDead && Le(PlayerDist(me, other), Num(MaxDist)))
  {
  }

  /** Nothing attenuates a living player in a meeting, at any distance or through any wall. */
  lemma DiscussionHearsLiving(state: AmongUsState, me: Player, other: Player, maps: Maps)
    requires state.gameState == DISCUSSION && !other.inVent && !other.isDead
    ensures Gain(state, me, other, maps) == 1.0
  {
  }

  /** A living listener in TASKS hears a living player in range exactly when no wall, window
      or closed door is in between. */
  lemma FullGainInTasks(state: AmongUsState, me: Player, other: Player, maps: Maps)
    requires InTasksBranch(state, other) && !Gt(PlayerDist(me, other), Num(MaxDist))
    requires !me.isDead && !state.isCommsSabotaged
    ensures var ship := MapShip(state.mapType, maps);
      Gain(state, me, other, maps) == 1.0 <==>
        Blocked(ship, state.openDoors, me.x, me.y, other.x, other.y) == 0.0
  {
  }

  /** A camera is selected only in TASKS, for a player not fully heard, with working comms and
      some camera watched; it is the first watched camera that sees the player, and none is
      selected only when no watched camera does. */
  lemma CameraSelection(state: AmongUsState, me: Player, other: Player, maps: Maps)
    ensures var cams := MapShip(state.mapType, maps).cameras;
      var c := SelectedCamera(state, me, other, maps);
      && (c.Some? ==>
           && InTasksBranch(state, other) && ScanCameras(state, Gain(state, me, other, maps))
           && c.value < |cams| && CameraSees(cams, state.viewingCameras, c.value, other)
           && forall j :: 0 <= j < c.value ==> !CameraSees(cams, state.viewingCameras, j, other))
      && (InTasksBranch(state, other) && ScanCameras(state, Gain(state, me, other, maps)) ==>
           (c.None? <==> forall j :: 0 <= j < |cams| ==> !CameraSees(cams, state.viewingCameras, j, other)))
  {
  }

  /** The square root maps the camera range [0, 9) into [0, 3). */
  ghost predicate SqrtBelowThree(sqrt: real -> real) {
    forall x :: 0.0 <= x < 9.0 ==> 0.0 <= sqrt(x) < 3.0
  }

  /** For a square root that maps [0, 9) into [0, 3), the camera bleed is nonzero exactly when
      a camera is selected, and lies in (0, 1]. */
  lemma BleedIffCamera(state: AmongUsState, me: Player, other: Player, maps: Maps, sqrt: real -> real)
    requires SqrtBelowThree(sqrt)
    ensures var c := SelectedCamera(state, me, other, maps);
      var gCams := CamsGain(MapShip(state.mapType, maps), c, other, sqrt);
      (gCams != 0.0 <==> c.Some?) && 0.0 <= gCams <= 1.0
  {
    var ship := MapShip(state.mapType, maps);
    var c := SelectedCamera(state, me, other, maps);
    CameraSelection(state, me, other, maps);
    if c.Some? {
      var d := CamDist(ship.cameras[c.value], other);
      assert d.Num? && 0.0 <= d.v < 9.0;
      assert 0.0 <= sqrt(d.v) < 3.0;
    }
  }

  /** Routing: the camera node is raised to 1, not to the bleed value, when a camera is
      selected and it is below 1; it is lowered to 0 when none is selected and it is above 0;
      the muffled node carries the voice exactly at the half gain, and then the main node is
      silenced; otherwise the main node goes to g. */
  lemma Routing(state: AmongUsState, stereo: bool, me: Player, other: Player, maps: Maps,
                camsNow: real, muffledNow: real, sqrt: real -> real)
    requires SqrtBelowThree(sqrt)
    ensures var a := Decide(state, stereo, me, other, maps, camsNow, muffledNow, sqrt);
      && (a.camsTarget == Some(1.0) <==> a.camera.Some? && camsNow < 1.0)
      && (a.camsTarget == Some(0.0) <==> a.camera.None? && camsNow > 0.0)
      && (a.muffledTarget == Some(1.0) <==> a.g == 0.5)
      && (a.muffledTarget == Some(0.0) <==> a.g != 0.5 && muffledNow > 0.0)
      && a.mainTarget == (if a.g == 0.5 then 0.0 else a.g)
      && a.positionZ == -0.5
  {
    BleedIffCamera(state, me, other, maps, sqrt);
  }

  /** The panner is written only for an audible player. Its coordinates always lie in
      [-999, 999]; they are 0 in a meeting or the lobby; in stereo they are the offset from
      the listener when that is a number within range, and 999 where it is not a number; in
      mono the first is 0. */
  lemma PanLaw(state: AmongUsState, stereo: bool, me: Player, other: Player, maps: Maps,
               camsNow: real, muffledNow: real, sqrt: real -> real)
    ensures var a := Decide(state, stereo, me, other, maps, camsNow, muffledNow, sqrt);
      && (a.position.Some? <==> a.g > 0.0)
      && (a.position.Some? ==>
           && -999.0 <= a.position.value.x <= 999.0 && -999.0 <= a.position.value.y <= 999.0
           && (state.gameState == DISCUSSION || state.gameState == LOBBY ==> a.position.value == Pan(0.0, 0.0))
           && (state.gameState != DISCUSSION && state.gameState != LOBBY ==>
                && (stereo && other.x.Num? && me.x.Num? && -999.0 <= other.x.v - me.x.v <= 999.0 ==>
                      a.position.value.x == other.x.v - me.x.v)
                && (stereo && (!other.x.Num? || !me.x.Num?) ==> a.position.value.x == 999.0)
                && (!stereo ==> a.position.value.x == 0.0)
                && (stereo ==> a.position.value.y == Sanitise(Minus(other.y, me.y)))
                && (!stereo ==> a.position.value.y == Sanitise(JsSqrt(PlayerDist(me, other), sqrt)))))
  {
  }

  /** In the lobby every player is heard in full and centred. */
  lemma LobbyHearsAll(state: AmongUsState, stereo: bool, me: Player, other: Player, maps: Maps,
                      camsNow: real, muffledNow: real, sqrt: real -> real)
    requires state.gameState == LOBBY
    ensures var a := Decide(state, stereo, me, other, maps, camsNow, muffledNow, sqrt);
      a.g == 1.0 && a.mainTarget == 1.0 && a.camera.None? && a.position == Some(Pan(0.0, 0.0))
  {
  }

  // ---------------------------------------------------------------------------------------
  // The players the renderer talks to
  // ---------------------------------------------------------------------------------------

  /** `players.find(p => p.isLocal)`. */
  function FirstLocal(players: seq<Player>): (p: Option<Player>)
    ensures p.Some? ==>
      exists i :: 0 <= i < |players| && players[i] == p.value && players[i].isLocal &&
        forall j :: 0 <= j < i ==> !players[j].isLocal
    ensures p.None? <==> forall i :: 0 <= i < |players| ==> !players[i].isLocal
  {
    if players == [] then None
    else if players[0].isLocal then Some(players[0])
    else
      var p := FirstLocal(players[1..]);
      assert forall i :: 1 <= i < |players| ==> players[i] == players[1..][i - 1];
      p
  }

  /** `myPlayer`: the first local player of the current snapshot. `None` stands for the state
      before any snapshot arrived, which has no players. */
  function MyPlayer(state: Option<AmongUsState>): (p: Option<Player>)
    ensures p.Some? ==> state.Some? && p.value in state.value.players && p.value.isLocal
    ensures p.None? <==> state.None? || forall q :: q in state.value.players ==> !q.isLocal
  {
    if state.None? then None else FirstLocal(state.value.players)
  }

  /** `players.filter(p => !p.isLocal)`. */
  function NonLocal(players: seq<Player>): (r: seq<Player>)
    ensures |r| <= |players|
  {
    if players == [] then []
    else (if players[0].isLocal then [] else [players[0]]) + NonLocal(players[1..])
  }

  /** The filter keeps exactly the non-local players. */
  lemma {:induction false} NonLocalMembers(players: seq<Player>)
    ensures forall p :: p in NonLocal(players) <==> p in players && !p.isLocal
  {
    if players != [] {
      NonLocalMembers(players[1..]);
      assert forall p :: p in players <==> p == players[0] || p in players[1..];
    }
  }

  /** Filtering keeps the order: the filter of a concatenation is the concatenation of the
      filters. */
  lemma {:induction false} NonLocalAppend(a: seq<Player>, b: seq<Player>)
    ensures NonLocal(a + b) == NonLocal(a) + NonLocal(b)
  {
    if a == [] {
      assert a + b == b;
    } else {
      assert (a + b)[0] == a[0];
      assert (a + b)[1..] == a[1..] + b;
      NonLocalAppend(a[1..], b);
      var head := if a[0].isLocal then [] else [a[0]];
      assert NonLocal(a + b) == head + (NonLocal(a[1..]) + NonLocal(b));
      assert NonLocal(a) == head + NonLocal(a[1..]);
    }
  }

  /** `otherPlayers`: nobody before a snapshot, in the menu or without a local player;
      otherwise every non-local player, in order. */
  function OtherPlayers(state: Option<AmongUsState>): (r: seq<Player>)
    ensures state.None? || state.value.lobbyCode == "MENU" || MyPlayer(state).None? ==> r == []
    ensures state.Some? && state.value.lobbyCode != "MENU" && MyPlayer(state).Some? ==>
      forall p :: p in r <==> p in state.value.players && !p.isLocal
    ensures forall p :: p in r ==> !p.isLocal
  {
    if state.None? || state.value.lobbyCode == "MENU" || MyPlayer(state).None? then []
    else
      NonLocalMembers(state.value.players);
      NonLocal(state.value.players)
  }

  /** Whether a player's voice entry marks it dead: `isDead || disconnected`. */
  predicate Gone(p: Player) {
    p.isDead || p.disconnected
  }

  /** The ids of some players. */
  function Ids(players: seq<Player>): set<real> {
    set p | p in players :: p.id
  }

  /** The loop `old[player.id] = player.isDead || player.disconnected`, player by player. */
  function MarkGone(otherDead: map<real, bool>, players: seq<Player>): map<real, bool>
    decreases |players|
  {
    if players == [] then otherDead
    else MarkGone(otherDead[players[0].id := Gone(players[0])], players[1..])
  }

  /** The effect on a phase change: cleared in the lobby, untouched in TASKS and before any
      snapshot, and otherwise every current player's entry (re)written. */
  function OtherDeadAfter(otherDead: map<real, bool>, state: Option<AmongUsState>): map<real, bool> {
    if state.None? then otherDead
    else if state.value.gameState == LOBBY then map[]
    else if state.value.gameState == TASKS then otherDead
    else MarkGone(otherDead, state.value.players)
  }

  /** The `otherDead` effect, with its loop over the players. */
  method UpdateOtherDead(otherDead: map<real, bool>, state: Option<AmongUsState>) returns (r: map<real, bool>)
    ensures r == OtherDeadAfter(otherDead, state)
  {
    if state.Some? && state.value.gameState == LOBBY {
      r := map[];
    } else if state.Some? && state.value.gameState != TASKS {
      var players := state.value.players;
      r := otherDead;
      for i := 0 to |players|
        invariant MarkGone(r, players[i..]) == MarkGone(otherDead, players)
      {
        assert players[i..][1..] == players[i + 1..];
        r := r[players[i].id := Gone(players[i])];
      }
    } else {
      r := otherDead;
    }
  }

  /** Marking keeps every key and adds the players' ids. */
  lemma {:induction false} MarkGoneKeys(otherDead: map<real, bool>, players: seq<Player>)
    ensures MarkGone(otherDead, players).Keys == otherDead.Keys + Ids(players)
    decreases |players|
  {
    if players != [] {
      var rest := players[1..];
      MarkGoneKeys(otherDead[players[0].id := Gone(players[0])], rest);
      assert Ids(players) == {players[0].id} + Ids(rest) by {
        assert forall p :: p in players <==> p == players[0] || p in rest;
      }
    }
  }

  /** Marking keeps the entry of every id that is not a player's. */
  lemma {:induction false} MarkGoneKeeps(otherDead: map<real, bool>, players: seq<Player>, k: real)
    requires k in otherDead && k !in Ids(players)
    ensures k in MarkGone(otherDead, players) && MarkGone(otherDead, players)[k] == otherDead[k]
    decreases |players|
  {
    if players != [] {
      var rest := players[1..];
      assert players[0] in players;
      assert k !in Ids(rest) by {
        assert forall p :: p in rest ==> p in players;
      }
      MarkGoneKeeps(otherDead[players[0].id := Gone(players[0])], rest, k);
    }
  }

  /** Once a player's entry is written, the later players leave it alone unless they share
      its id. */
  lemma MarkGoneLast(otherDead: map<real, bool>, players: seq<Player>, i: nat)
    requires i < |players|
    requires forall j :: i < j < |players| ==> players[j].id != players[i].id
    ensures players[i].id in MarkGone(otherDead, players)
    ensures MarkGone(otherDead, players)[players[i].id] == Gone(players[i])
    decreases i
  {
    var rest := players[1..];
    var m := otherDead[players[0].id := Gone(players[0])];
    if i > 0 {
      assert players[i] == rest[i - 1];
      assert forall j :: i - 1 < j < |rest| ==> rest[j] == players[j + 1];
      MarkGoneLast(m, rest, i - 1);
    } else {
      assert players[0].id !in Ids(rest) by {
        forall p | p in rest
          ensures p.id != players[0].id
        {
          var j :| 0 <= j < |rest| && rest[j] == p;
          assert players[j + 1] == p;
        }
      }
      MarkGoneKeeps(m, rest, players[0].id);
    }
  }

  /** In the lobby the record is cleared; in a meeting or the menu every current player with
      a unique id is marked dead or alive from its flags, and every other entry is kept. */
  lemma OtherDeadLaw(otherDead: map<real, bool>, state: AmongUsState)
    ensures state.gameState == LOBBY ==> OtherDeadAfter(otherDead, Some(state)) == map[]
    ensures state.gameState == TASKS ==> OtherDeadAfter(otherDead, Some(state)) == otherDead
    ensures state.gameState != LOBBY && state.gameState != TASKS ==>
      var r := OtherDeadAfter(otherDead, Some(state));
      var ps := state.players;
      && r.Keys == otherDead.Keys + Ids(ps)
      && (forall k :: k in otherDead && (forall p :: p in ps ==> p.id != k) ==> r[k] == otherDead[k])
      && (forall i :: 0 <= i < |ps| && (forall j :: i < j < |ps| ==> ps[j].id != ps[i].id) ==>
            r[ps[i].id] == Gone(ps[i]))
  {
    if state.gameState != LOBBY && state.gameState != TASKS {
      var ps := state.players;
      MarkGoneKeys(otherDead, ps);
      forall k | k in otherDead && (forall p :: p in ps ==> p.id != k)
        ensures OtherDeadAfter(otherDead, Some(state))[k] == otherDead[k]
      {
        MarkGoneKeeps(otherDead, ps, k);
      }
      forall i | 0 <= i < |ps| && (forall j :: i < j < |ps| ==> ps[j].id != ps[i].id)
        ensures OtherDeadAfter(otherDead, Some(state))[ps[i].id] == Gone(ps[i])
      {
        MarkGoneLast(otherDead, ps, i);
      }
    }
  }
}
