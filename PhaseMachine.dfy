/** The per-tick game-phase classifier of the reader loop, as a pure transition on the
    classifier's own state: the raw-phase table, the "exile ends the game" latch, the
    MENU→LOBBY debounce countdown and the lobby-code update rule. */
module PhaseMachine {
  import opened JsNumber
  import opened GameModel
  import opened LobbyCode

  /** The countdown a MENU→LOBBY change is held for, and its reset value. */
  const MenuHoldTicks: int := 20

  /** The reader's classifier fields. `oldGameState` is the phase of the previous tick. */
  datatype Classifier = Classifier(
    menuUpdateTimer: int,
    lastPlayerPtr: JsNum,
    exileCausesEnd: bool,
    oldGameState: GameState,
    gameCode: string)

  /** The fields as a fresh reader holds them. */
  const Initial: Classifier := Classifier(MenuHoldTicks, Num(0.0), false, UNKNOWN, "MENU")

  /** What one tick reads from the game that the classifier depends on. */
  datatype Observation = Observation(
    rawPhase: JsNum,          // the game's own phase code
    meetingHudState: JsNum,   // 4 when there is no meeting HUD
    impostors: nat,           // living, named, connected, not exiled impostors
    crewmates: nat,           // the same for the crew
    allPlayers: JsNum,        // the player list pointer
    playerCount: nat,         // how many players were decoded
    anyLocal: bool,           // whether one of them is the local player
    code: JsNum)              // the game-code integer

  /** The switch on the raw phase code (strict equality): the phase and the new latch. */
  function PhaseTable(raw: JsNum, hudState: JsNum, latched: bool): (GameState, bool) {
    if StrictEq(raw, Num(0.0)) then (MENU, false)
    else if StrictEq(raw, Num(1.0)) || StrictEq(raw, Num(3.0)) then (LOBBY, false)
    else if latched then (LOBBY, true)
    else if Lt(hudState, Num(4.0)) then (DISCUSSION, false)
    else (TASKS, false)
  }

  /** A raw code the table sends to MENU or LOBBY unconditionally. */
  predicate Settled(raw: JsNum) {
    StrictEq(raw, Num(0.0)) || StrictEq(raw, Num(1.0)) || StrictEq(raw, Num(3.0))
  }

  /** The end-of-game test applied after an exile: no impostor left, or as many as crew. */
  predicate ExileEnds(impostors: nat, crewmates: nat) {
    impostors == 0 || impostors >= crewmates
  }

  /** The phase after the exile refinement, before the debounce. */
  function RefinedPhase(c: Classifier, o: Observation): GameState {
    var (p, _) := PhaseTable(o.rawPhase, o.meetingHudState, c.exileCausesEnd);
    if c.oldGameState == DISCUSSION && p == TASKS && ExileEnds(o.impostors, o.crewmates) then LOBBY else p
  }

  /** The latch after the table and the exile refinement. */
  function NextLatch(c: Classifier, o: Observation): bool {
    var (p, latch) := PhaseTable(o.rawPhase, o.meetingHudState, c.exileCausesEnd);
    if c.oldGameState == DISCUSSION && p == TASKS && ExileEnds(o.impostors, o.crewmates) then true else latch
  }

  /** The debounce: a LOBBY reading straight after MENU is held back while the countdown
      runs and the player list looks stale (same pointer, a single player, or nobody local). */
  predicate Holds(c: Classifier, o: Observation) {
    c.oldGameState == MENU && RefinedPhase(c, o) == LOBBY && c.menuUpdateTimer > 0 &&
    (StrictEq(c.lastPlayerPtr, o.allPlayers) || o.playerCount == 1 || !o.anyLocal)
  }

  /** The lobby-code rule: a truthy code read in LOBBY replaces the code, TASKS and
      DISCUSSION keep it, any other phase shows "MENU". */
  function NextCode(phase: GameState, code: JsNum, current: string): string {
    if phase == LOBBY then (if Truthy(code) then IntToGameCode(code.v) else current)
    else if phase != TASKS && phase != DISCUSSION then "MENU"
    else current
  }

  /** One tick. The new `oldGameState` is the phase this tick reports. */
  function Step(c: Classifier, o: Observation): Classifier {
    var hold := Holds(c, o);
    var phase := if hold then MENU else RefinedPhase(c, o);
    Classifier(
      if hold then c.menuUpdateTimer - 1 else MenuHoldTicks,
      o.allPlayers,
      NextLatch(c, o),
      phase,
      NextCode(phase, o.code, c.gameCode))
  }

  /** The phases reported by consecutive ticks. */
  function Phases(c: Classifier, obs: seq<Observation>): seq<GameState>
    decreases |obs|
  {
    if obs == [] then [] else [Step(c, obs[0]).oldGameState] + Phases(Step(c, obs[0]), obs[1..])
  }

  /** The classifier after consecutive ticks. */
  function Final(c: Classifier, obs: seq<Observation>): Classifier
    decreases |obs|
  {
    if obs == [] then c else Final(Step(c, obs[0]), obs[1..])
  }

  /** Every tick of the run is held by the debounce. */
  predicate HeldRun(c: Classifier, obs: seq<Observation>)
    decreases |obs|
  {
    obs == [] || (Holds(c, obs[0]) && HeldRun(Step(c, obs[0]), obs[1..]))
  }

  // ---------------------------------------------------------------- one tick

  /** The raw phase table: code 0 is MENU, codes 1 and 3 are LOBBY (both clear the latch,
      and both are reported as is unless the debounce holds LOBBY at MENU); any other code
      is LOBBY while latched, else DISCUSSION while a meeting HUD is below state 4, else
      TASKS (which an end-of-game exile turns into LOBBY). A tick never reports UNKNOWN. */
  lemma PhaseTableLaw(c: Classifier, o: Observation)
    ensures Step(c, o).oldGameState != UNKNOWN
    ensures StrictEq(o.rawPhase, Num(0.0)) ==> Step(c, o).oldGameState == MENU && !Step(c, o).exileCausesEnd
    ensures StrictEq(o.rawPhase, Num(1.0)) || StrictEq(o.rawPhase, Num(3.0)) ==>
      Step(c, o).oldGameState == (if Holds(c, o) then MENU else LOBBY) && !Step(c, o).exileCausesEnd
    ensures !Settled(o.rawPhase) && c.oldGameState != MENU ==>
      Step(c, o).oldGameState ==
        (if c.exileCausesEnd then LOBBY
         else if Lt(o.meetingHudState, Num(4.0)) then DISCUSSION
         else if c.oldGameState == DISCUSSION && ExileEnds(o.impostors, o.crewmates) then LOBBY
         else TASKS)
  {
  }

  /** The exile latch: straight after DISCUSSION, a TASKS reading with no impostor left or
      at least as many impostors as crew reports LOBBY and sets the latch; with fewer
      impostors than crew (and at least one) it reports TASKS and leaves the latch clear. */
  lemma ExileLatch(c: Classifier, o: Observation)
    requires c.oldGameState == DISCUSSION && !c.exileCausesEnd
    requires !Settled(o.rawPhase) && !Lt(o.meetingHudState, Num(4.0))
    ensures Step(c, o).exileCausesEnd <==> ExileEnds(o.impostors, o.crewmates)
    ensures Step(c, o).oldGameState == (if ExileEnds(o.impostors, o.crewmates) then LOBBY else TASKS)
  {
  }

  /** Once set, the latch reports LOBBY and stays set for every tick whose raw code is
      neither 0, 1 nor 3 (the debounce cannot interfere: the previous phase is not MENU). */
  lemma {:induction false} LatchSticky(c: Classifier, obs: seq<Observation>)
    requires c.exileCausesEnd && c.oldGameState != MENU
    requires forall k :: 0 <= k < |obs| ==> !Settled(obs[k].rawPhase)
    ensures forall k :: 0 <= k < |Phases(c, obs)| ==> Phases(c, obs)[k] == LOBBY
    ensures |Phases(c, obs)| == |obs|
    ensures Final(c, obs).exileCausesEnd
    decreases |obs|
  {
    if obs != [] {
      var d := Step(c, obs[0]);
      assert d.oldGameState == LOBBY && d.exileCausesEnd;
      LatchSticky(d, obs[1..]);
      assert forall k :: 0 <= k < |obs[1..]| ==> obs[1..][k] == obs[k + 1];
      assert Phases(c, obs) == [LOBBY] + Phases(d, obs[1..]);
    }
  }

  /** The countdown stays between 0 and its reset value 20; a held tick lowers it by one,
      any other tick resets it; the player-list pointer is always recorded. */
  lemma Countdown(c: Classifier, o: Observation)
    requires 0 <= c.menuUpdateTimer <= MenuHoldTicks
    ensures 0 <= Step(c, o).menuUpdateTimer <= MenuHoldTicks
    ensures Step(c, o).menuUpdateTimer == if Holds(c, o) then c.menuUpdateTimer - 1 else MenuHoldTicks
    ensures Holds(c, o) <==> Step(c, o).oldGameState == MENU && RefinedPhase(c, o) == LOBBY
    ensures Step(c, o).lastPlayerPtr == o.allPlayers
  {
  }

  /** A run in which every tick is held is no longer than the countdown it started from,
      and leaves the countdown lowered by its length. */
  lemma {:induction false} HoldsAtMost(c: Classifier, obs: seq<Observation>)
    requires c.menuUpdateTimer >= 0
    requires HeldRun(c, obs)
    ensures |obs| <= c.menuUpdateTimer
    ensures Final(c, obs).menuUpdateTimer == c.menuUpdateTimer - |obs|
    ensures forall k :: 0 <= k < |Phases(c, obs)| ==> Phases(c, obs)[k] == MENU
    ensures |Phases(c, obs)| == |obs|
    decreases |obs|
  {
    if obs != [] {
      var d := Step(c, obs[0]);
      HoldsAtMost(d, obs[1..]);
      assert Phases(c, obs) == [MENU] + Phases(d, obs[1..]);
    }
  }

  /** The same observation n times over. */
  function Repeat(o: Observation, n: nat): (r: seq<Observation>)
    ensures |r| == n && forall k :: 0 <= k < n ==> r[k] == o
  {
    if n == 0 then [] else [o] + Repeat(o, n - 1)
  }

  /** The debounce in action: with the game in MENU, a steady lobby reading whose player
      pointer has not moved is held at MENU for as many ticks as the countdown shows, and
      the next tick reports LOBBY. */
  lemma {:induction false} DebounceReleases(c: Classifier, o: Observation)
    requires c.oldGameState == MENU && 0 <= c.menuUpdateTimer <= MenuHoldTicks
    requires o.rawPhase == Num(1.0) && o.allPlayers.Num? && c.lastPlayerPtr == o.allPlayers
    ensures Phases(c, Repeat(o, c.menuUpdateTimer + 1)) ==
      seq(c.menuUpdateTimer, _ => MENU) + [LOBBY]
    decreases c.menuUpdateTimer
  {
    var d := Step(c, o);
    if c.menuUpdateTimer == 0 {
      assert Repeat(o, 1) == [o];
      assert Phases(c, [o]) == [d.oldGameState] + Phases(d, []);
    } else {
      assert Holds(c, o);
      DebounceReleases(d, o);
      assert Repeat(o, c.menuUpdateTimer + 1)[1..] == Repeat(o, d.menuUpdateTimer + 1);
      assert seq(c.menuUpdateTimer, _ => MENU) + [LOBBY] == [MENU] + (seq(d.menuUpdateTimer, _ => MENU) + [LOBBY]);
    }
  }

  /** From a fresh reader in MENU (countdown 20) a stale lobby reading is reported as MENU
      for exactly 20 ticks; the 21st reports LOBBY. */
  lemma TwentyTickHold(o: Observation, last: real)
    requires o.rawPhase == Num(1.0) && o.allPlayers == Num(last)
    ensures var c := Classifier(MenuHoldTicks, Num(last), false, MENU, "MENU");
      Phases(c, Repeat(o, 21)) == seq(20, _ => MENU) + [LOBBY]
  {
    DebounceReleases(Classifier(MenuHoldTicks, Num(last), false, MENU, "MENU"), o);
  }

  /** The lobby code: a truthy code read in LOBBY becomes the decoded six letters, a zero
      code in LOBBY keeps the previous text, TASKS and DISCUSSION keep it, and MENU shows
      "MENU". */
  lemma LobbyCodeRule(c: Classifier, o: Observation)
    ensures var d := Step(c, o);
      && (d.oldGameState == LOBBY && Truthy(o.code) ==> d.gameCode == IntToGameCode(o.code.v))
      && (d.oldGameState == LOBBY && !Truthy(o.code) ==> d.gameCode == c.gameCode)
      && (d.oldGameState in {TASKS, DISCUSSION} ==> d.gameCode == c.gameCode)
      && (d.oldGameState == MENU ==> d.gameCode == "MENU")
  {
  }

  /** Run composition: the phases of a run split at any tick are the phases of its two parts,
      the second started from the classifier the first leaves. */
  lemma {:induction false} PhasesSplit(c: Classifier, obs: seq<Observation>, k: nat)
    requires k <= |obs|
    ensures Phases(c, obs) == Phases(c, obs[..k]) + Phases(Final(c, obs[..k]), obs[k..])
    decreases k
  {
    if k > 0 {
      var d := Step(c, obs[0]);
      PhasesSplit(d, obs[1..], k - 1);
      assert obs[1..][..k - 1] == obs[..k][1..];
      assert obs[1..][k - 1..] == obs[k..];
    }
  }
}
