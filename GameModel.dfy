/** The values the reader produces and the renderer consumes: the game phase, the decoded
    players, the per-tick state snapshot, and the table of offsets into the game's memory. */
module GameModel {
  import opened JsNumber

  datatype Option<T> = None | Some(value: T)

  datatype GameState = LOBBY | TASKS | DISCUSSION | MENU | UNKNOWN

  /** The map identifiers: THE_SKELD 0, MIRA_HQ 1, POLUS 2, UNKNOWN 3. */
  const MapSkeld: real := 0.0
  const MapMiraHq: real := 1.0
  const MapPolus: real := 2.0
  const MapUnknown: real := 3.0

  /** One decoded player. Positions are read without a default, so they may be `undefined`. */
  datatype Player = Player(
    ptr: real,
    id: real,
    name: string,
    colorId: real, hatId: real, petId: real, skinId: real,
    disconnected: bool,
    isImpostor: bool,
    isDead: bool,
    taskPtr: real,
    objectPtr: real,
    isLocal: bool,
    x: JsNum, y: JsNum,
    inVent: bool)

  /** The snapshot sent to the renderer each tick. The door and camera masks are JavaScript's
      signed 32-bit results, given by their 32 bits (all ones is -1). */
  datatype AmongUsState = AmongUsState(
    gameState: GameState,
    oldGameState: GameState,
    lobbyCode: string,
    mapType: JsNum,
    openDoors: Mask,
    isCommsSabotaged: bool,
    viewingCameras: Mask,
    players: seq<Player>)

  /** Offset chains into a player's game object. */
  datatype PlayerOffsets = PlayerOffsets(
    offsets: seq<real>,
    isLocal: seq<real>,
    localX: seq<real>, localY: seq<real>,
    remoteX: seq<real>, remoteY: seq<real>,
    inVent: seq<real>)

  /** The version-specific offsets: chains (lists of offsets) and single numbers
      (offsets and system/type identifiers). */
  datatype Offsets = Offsets(
    meetingHud: seq<real>,
    meetingHudCachePtr: seq<real>,
    meetingHudState: seq<real>,
    gameState: seq<real>,
    ship: seq<real>,
    mapType: seq<real>,
    allDoorsPtr: seq<real>,
    plainDoorIsOpen: real,
    systemsPtr: seq<real>,
    commsSystemType: real,
    deconSystemType: real,
    hudOverrideSystemDefIndex: real,
    hudOverrideSystemIsActive: seq<real>,
    hqHudSystemDefIndex: real,
    hqHudSystemCompletedCount: seq<real>,
    upperManualDoor: real,
    lowerManualDoor: real,
    manualDoorDefIndex: real,
    manualDoorIsOpen: real,
    minigame: seq<real>,
    minigameClosingState: seq<real>,
    surveillanceDefIndex: real,
    polusSurveillanceDefIndex: real,
    polusSurveillanceCurrentCamera: seq<real>,
    allPlayersPtr: seq<real>,
    allPlayers: seq<real>,
    playerCount: seq<real>,
    playerAddrPtr: real,
    exiledPlayerId: seq<real>,
    gameCode: seq<real>,
    player: PlayerOffsets)
}
