/** `GameManager`: the pre-race countdown, the scoreboard the manager
    refreshes every frame from the players in the scene, and the dispatch
    of the two race events. Photon calls are not modelled: the events the
    manager raises are appended to `raised`, and the room is a small object
    with the two flags `Start` clears. */
module Race {
  import opened UnityMath

  newtype byte = x: int | 0 <= x < 256

  /** The event raised when the countdown runs out; it enables controls. */
  const StartRaceEventCode: byte := 1
  /** The event raised when the room fills; it starts the countdown display. */
  const CountdownStartEventCode: byte := 2
  /** Seconds between the room filling and the race starting. */
  const CountdownSeconds: real := 6.0

  // ---------------------------------------------------------------------
  // Countdown

  /** The two fields the countdown reads and writes. */
  datatype Countdown = Countdown(isGame: bool, remaining: real)

  /** One frame of the countdown: while a game is pending and time remains,
      take off the frame time; when that exhausts it, fire the start-race
      event and end the pending game. The second component says whether the
      event fired. */
  function Tick(c: Countdown, dt: real): (r: (Countdown, bool))
    ensures !(c.isGame && c.remaining > 0.0) ==> r == (c, false)
    ensures c.isGame && c.remaining > 0.0 ==> r.0.remaining == c.remaining - dt
    ensures r.1 <==> c.isGame && c.remaining > 0.0 && c.remaining - dt <= 0.0
    ensures r.0.isGame <==> c.isGame && !r.1
  {
    if c.isGame && c.remaining > 0.0 then
      var remaining := c.remaining - dt;
      if remaining <= 0.0 then (Countdown(false, remaining), true)
      else (Countdown(true, remaining), false)
    else (c, false)
  }

  /** How many times the start-race event fires over a run of frames. */
  function Fires(c: Countdown, dts: seq<real>): nat
    decreases |dts|
  {
    if |dts| == 0 then 0
    else (if Tick(c, dts[0]).1 then 1 else 0) + Fires(Tick(c, dts[0]).0, dts[1..])
  }

  function Sum(dts: seq<real>): real {
    if |dts| == 0 then 0.0 else dts[0] + Sum(dts[1..])
  }

  predicate AllNonNegative(dts: seq<real>) {
    forall i :: 0 <= i < |dts| ==> 0.0 <= dts[i]
  }

  /** Without a pending game nothing fires and nothing changes. */
  lemma {:induction false} NoGameNoFire(c: Countdown, dts: seq<real>)
    requires !c.isGame
    ensures Fires(c, dts) == 0
    decreases |dts|
  {
    if |dts| > 0 {
      NoGameNoFire(Tick(c, dts[0]).0, dts[1..]);
    }
  }

  /** Whatever the frame times, the start-race event fires at most once. */
  lemma {:induction false} FiresAtMostOnce(c: Countdown, dts: seq<real>)
    ensures Fires(c, dts) <= 1
    decreases |dts|
  {
    if |dts| > 0 {
      var next := Tick(c, dts[0]).0;
      if Tick(c, dts[0]).1 {
        NoGameNoFire(next, dts[1..]);
      } else {
        FiresAtMostOnce(next, dts[1..]);
      }
    }
  }

  lemma {:induction false} SumNonNegative(dts: seq<real>)
    requires AllNonNegative(dts)
    ensures 0.0 <= Sum(dts)
  {
    if |dts| > 0 {
      SumNonNegative(dts[1..]);
    }
  }

  /** Once the frame times add up to the remaining time, the event has
      fired, exactly once. */
  lemma {:induction false} FiresOnceWhenElapsed(c: Countdown, dts: seq<real>)
    requires c.isGame && c.remaining > 0.0
    requires AllNonNegative(dts)
    requires c.remaining <= Sum(dts)
    ensures Fires(c, dts) == 1
    decreases |dts|
  {
    var next := Tick(c, dts[0]).0;
    if Tick(c, dts[0]).1 {
      NoGameNoFire(next, dts[1..]);
    } else {
      FiresOnceWhenElapsed(next, dts[1..]);
    }
  }

  /** Before the frame times add up to the remaining time, the event has
      not fired. */
  lemma {:induction false} NoFireBeforeElapsed(c: Countdown, dts: seq<real>)
    requires AllNonNegative(dts)
    requires Sum(dts) < c.remaining
    ensures Fires(c, dts) == 0
    decreases |dts|
  {
    if |dts| > 0 {
      var next := Tick(c, dts[0]).0;
      SumNonNegative(dts[1..]);
      if c.isGame && c.remaining > 0.0 {
        NoFireBeforeElapsed(next, dts[1..]);
      } else {
        NoGameNoFire(c, dts);
      }
    }
  }

  /** With frame times that never run backwards, a pending countdown fires
      the start-race event exactly when the elapsed time reaches it. */
  lemma FiresIffElapsed(c: Countdown, dts: seq<real>)
    requires c.isGame && c.remaining > 0.0
    requires AllNonNegative(dts)
    ensures Fires(c, dts) == 1 <==> c.remaining <= Sum(dts)
  {
    if c.remaining <= Sum(dts) {
      FiresOnceWhenElapsed(c, dts);
    } else {
      NoFireBeforeElapsed(c, dts);
    }
  }

  /** A full room arms a six-second countdown: the race starts once six
      seconds of frames have passed, and never twice. */
  lemma RaceStartsAfterCountdown(dts: seq<real>)
    requires AllNonNegative(dts)
    ensures Fires(Countdown(true, CountdownSeconds), dts) == 1 <==> CountdownSeconds <= Sum(dts)
    ensures Fires(Countdown(true, CountdownSeconds), dts) <= 1
  {
    FiresIffElapsed(Countdown(true, CountdownSeconds), dts);
    FiresAtMostOnce(Countdown(true, CountdownSeconds), dts);
  }

  // ---------------------------------------------------------------------
  // Scoreboard

  /** A player's score table, as the player manager reports it. */
  type Score = map<string, string>

  /** One player object in the scene: its id (`None` for null) and score. */
  datatype PlayerEntry = PlayerEntry(id: Option<string>, score: Score)

  /** The guard `!string.IsNullOrEmpty(playerID)`. */
  predicate HasId(p: PlayerEntry) {
    p.id.Some? && p.id.value != ""
  }

  /** The scoreboard after upserting the players in scene order, skipping
      those without an id. */
  function Upserted(board: map<string, Score>, players: seq<PlayerEntry>): (r: map<string, Score>)
    ensures board.Keys <= r.Keys
  {
    if |players| == 0 then board
    else
      var last := players[|players| - 1];
      var b := Upserted(board, players[..|players| - 1]);
      if HasId(last) then b[last.id.value := last.score] else b
  }

  /** A player with an id whose id no later player shares ends up on the
      board with its score: the latest score wins. */
  lemma {:induction false} UpsertLatestWins(board: map<string, Score>, players: seq<PlayerEntry>, j: nat)
    requires j < |players| && HasId(players[j])
    requires forall l :: j < l < |players| ==> players[l].id != players[j].id
    ensures players[j].id.value in Upserted(board, players)
    ensures Upserted(board, players)[players[j].id.value] == players[j].score
  {
    if j < |players| - 1 {
      var front := players[..|players| - 1];
      assert forall l :: j < l < |front| ==> front[l] == players[l];
      UpsertLatestWins(board, front, j);
    }
  }

  /** A key no player with an id carries keeps its entry, or its absence. */
  lemma {:induction false} UpsertUntouched(board: map<string, Score>, players: seq<PlayerEntry>, k: string)
    requires forall j :: 0 <= j < |players| && HasId(players[j]) ==> players[j].id.value != k
    ensures k in Upserted(board, players) <==> k in board
    ensures k in board ==> Upserted(board, players)[k] == board[k]
  {
    if |players| > 0 {
      var front := players[..|players| - 1];
      assert forall j :: 0 <= j < |front| ==> front[j] == players[j];
      UpsertUntouched(board, front, k);
    }
  }

  /** The empty id is never inserted. */
  lemma EmptyIdNeverInserted(board: map<string, Score>, players: seq<PlayerEntry>)
    ensures "" in Upserted(board, players) <==> "" in board
  {
    UpsertUntouched(board, players, "");
  }

  // ---------------------------------------------------------------------
  // Events

  /** What `OnEvent` does for a code. */
  datatype EventAction = EnableControls | BeginCountdown | NoAction

  function Dispatch(code: byte): (r: EventAction)
    ensures r == EnableControls <==> code == StartRaceEventCode
    ensures r == BeginCountdown <==> code == CountdownStartEventCode
  {
    match code
    case 1 => EnableControls
    case 2 => BeginCountdown
    case _ => NoAction
  }

  /** The two codes the manager raises are told apart by every receiver:
      the countdown's event enables controls and the room-full event
      starts the display. */
  lemma RaisedEventsDispatch()
    ensures Dispatch(StartRaceEventCode) == EnableControls
    ensures Dispatch(CountdownStartEventCode) == BeginCountdown
    ensures StartRaceEventCode != CountdownStartEventCode
  {
  }

  // ---------------------------------------------------------------------
  // The objects

  /** The Photon room: its two listing flags and its occupancy. */
  class Room {
    var isOpen: bool
    var isVisible: bool
    const playerCount: nat
    const maxPlayers: nat

    constructor (playerCount: nat, maxPlayers: nat)
      ensures isOpen && isVisible
      ensures this.playerCount == playerCount && this.maxPlayers == maxPlayers
    {
      this.playerCount := playerCount;
      this.maxPlayers := maxPlayers;
      isOpen := true;
      isVisible := true;
    }
  }

  class GameManager {
    var isGame: bool
    var startCountdown: real
    var completedRaceIDs: Option<seq<string>>
    var scoreboard: map<string, Score>
    /** `PlayerController.CONTROLS_ENABLED`, which `OnEvent` sets. */
    var controlsEnabled: bool
    /** The value the local player's display was told to count down from. */
    var countdownDisplay: Option<real>
    /** The events raised so far, oldest first. */
    var raised: seq<byte>

    /** Field initialisers; `completedRaceIDs` stays null until `Start`
        allocates it. */
    constructor ()
      ensures !isGame && startCountdown == 0.0 && completedRaceIDs.None?
      ensures scoreboard == map[] && !controlsEnabled && countdownDisplay.None? && raised == []
    {
      isGame := false;
      startCountdown := 0.0;
      completedRaceIDs := None;
      scoreboard := map[];
      controlsEnabled := false;
      countdownDisplay := None;
      raised := [];
    }

    /** `Start`: arm the countdown; when the room is full, begin the game,
        raise the countdown event once and close and hide the room. */
    method Start(room: Room)
      modifies this, room
      ensures startCountdown == CountdownSeconds && completedRaceIDs == Some([])
      ensures isGame <==> old(isGame) || room.playerCount == room.maxPlayers
      ensures room.playerCount == room.maxPlayers ==>
        && raised == old(raised) + [CountdownStartEventCode]
        && !room.isOpen && !room.isVisible
      ensures room.playerCount != room.maxPlayers ==>
        raised == old(raised) && room.isOpen == old(room.isOpen) && room.isVisible == old(room.isVisible)
      ensures scoreboard == old(scoreboard) && controlsEnabled == old(controlsEnabled)
      ensures countdownDisplay == old(countdownDisplay)
    {
      startCountdown := CountdownSeconds;
      completedRaceIDs := Some([]);
      if room.playerCount == room.maxPlayers {
        isGame := true;
        raised := raised + [CountdownStartEventCode];
        room.isOpen := false;
        room.isVisible := false;
      }
    }

    /** `Update`: one countdown tick, then the scoreboard refresh over the
        players in scene order. */
    method Update(dt: real, players: seq<PlayerEntry>)
      modifies this`isGame, this`startCountdown, this`raised, this`scoreboard
      ensures Countdown(isGame, startCountdown) == Tick(Countdown(old(isGame), old(startCountdown)), dt).0
      ensures raised == old(raised) +
        (if Tick(Countdown(old(isGame), old(startCountdown)), dt).1 then [StartRaceEventCode] else [])
      ensures scoreboard == Upserted(old(scoreboard), players)
    {
      TickCountdown(dt);
      RefreshScoreboard(players);
    }

    /** The countdown part of `Update`. */
    method TickCountdown(dt: real)
      modifies this`isGame, this`startCountdown, this`raised
      ensures Countdown(isGame, startCountdown) == Tick(Countdown(old(isGame), old(startCountdown)), dt).0
      ensures raised == old(raised) +
        (if Tick(Countdown(old(isGame), old(startCountdown)), dt).1 then [StartRaceEventCode] else [])
    {
      if isGame && startCountdown > 0.0 {
        startCountdown := startCountdown - dt;
        if startCountdown <= 0.0 {
          raised := raised + [StartRaceEventCode];
          isGame := false;
        }
      }
    }

    /** The scoreboard part of `Update`: each player with an id overwrites
        its entry. */
    method RefreshScoreboard(players: seq<PlayerEntry>)
      modifies this`scoreboard
      ensures scoreboard == Upserted(old(scoreboard), players)
    {
      var i := 0;
      while i < |players|
        invariant 0 <= i <= |players|
        invariant scoreboard == Upserted(old(scoreboard), players[..i])
      {
        var p := players[i];
        if p.id.Some? && p.id.value != "" {
          scoreboard := scoreboard[p.id.value := p.score];
        }
        assert players[..i + 1][..i] == players[..i];
        i := i + 1;
      }
      assert players[..i] == players;
    }

    /** `OnEvent`: code 1 enables controls, code 2 starts the local
        player's countdown display from the current countdown, any other
        code does nothing. Code 2 with no local player dereferences null
        and aborts, reported as `fault`. */
    method OnEvent(code: byte, hasLocalPlayer: bool) returns (fault: bool)
      modifies this`controlsEnabled, this`countdownDisplay
      ensures fault <==> Dispatch(code) == BeginCountdown && !hasLocalPlayer
      ensures controlsEnabled == (old(controlsEnabled) || Dispatch(code) == EnableControls)
      ensures countdownDisplay ==
        (if Dispatch(code) == BeginCountdown && hasLocalPlayer then Some(startCountdown) else old(countdownDisplay))
    {
      fault := false;
      match code {
        case 1 =>
          controlsEnabled := true;
        case 2 =>
          if hasLocalPlayer {
            countdownDisplay := Some(startCountdown);
          } else {
            fault := true;
          }
        case _ =>
      }
    }
  }
}
