/** The game's screens (src/gameplay/gamestate.go): the lobby, where every
    player picks a character and declares ready, and the play screen. The
    lobby's loading of the character list from its JSON file, the
    controller setup and all drawing are not part of this model; clock
    readings are parameters. */
module GameState {
  import opened Common
  import opened Input
  import opened Graphics
  import opened Menu

  /** What a screen hands over when it is done: the play screen, built for
      these sprites. */
  datatype NextState = Play(spriteIds: seq<SpriteID>)

  /** One player's lobby panel, in the variant declared beside the lobby:
      it keeps no name of its own (the name is looked up when drawn). */
  class PlayerData {
    const id: nat
    const tiles: seq<PlayerTile>
    const pi: PlayerInput
    var im: Image
    var curIdx: int
    var readyForStart: bool
    var lastChange: int
    var lastChangeStart: int
    const changeDelayMs: int

    /** The selection is an entry of the list and the sprite shown is its. */
    ghost predicate Valid()
      reads this
    {
      0 <= curIdx < |tiles| && im == GetSpriteImage(tiles[curIdx].id)
    }

    function Sel(): Selection
      reads this
    {
      Selection(curIdx, readyForStart, lastChange, lastChangeStart)
    }

    /** A new panel shows the first character, not ready, with the 300 ms
        delay; the list must not be empty, as Go indexes entry 0. */
    constructor NewPlayerData(id: nat, tiles: seq<PlayerTile>, pi: PlayerInput)
      requires |tiles| > 0
      ensures Valid()
      ensures this.id == id && this.tiles == tiles && this.pi == pi
      ensures curIdx == 0 && !readyForStart && lastChange == 0 && lastChangeStart == 0
      ensures changeDelayMs == ChangeDelayMs
    {
      this.id := id;
      this.tiles := tiles;
      this.pi := pi;
      im := GetSpriteImage(tiles[0].id);
      curIdx := 0;
      readyForStart := false;
      lastChange := 0;
      lastChangeStart := 0;
      changeDelayMs := ChangeDelayMs;
    }

    /** One update at clock reading `now`: the selection takes one `Step`
        on the first axis and the X button; the sprite follows the entry. */
    method Update(now: int)
      requires Valid()
      modifies this
      ensures Valid()
      ensures Sel() == Step(old(Sel()), |tiles|, changeDelayMs, now, pi.GetAxes().0, pi.IsButtonPressed(JoyConX))
    {
      var axes := pi.GetAxes();
      var cycle := axes.0;
      if cycle != 0.0 {
        if changeDelayMs < now - lastChange {
          if cycle > 0.0 {
            curIdx := curIdx + 1;
            if curIdx >= |tiles| {
              curIdx := 0;
            }
          } else {
            curIdx := curIdx - 1;
            if curIdx < 0 {
              curIdx := |tiles| - 1;
            }
          }
          im := GetSpriteImage(tiles[curIdx].id);
          lastChange := now;
        }
      }
      if pi.IsButtonPressed(JoyConX) {
        if changeDelayMs < now - lastChangeStart {
          readyForStart := !readyForStart;
          lastChangeStart := now;
        }
      }
    }
  }

  /** The lobby: one panel per controller over a shared character list. */
  class MenuState {
    const playerTileIds: seq<PlayerTile>
    const playerData: seq<PlayerData>
    var readyForNextState: bool

    /** Panels are distinct objects, each valid over the lobby's list. */
    ghost predicate Valid()
      reads this, playerData
    {
      (forall i, j :: 0 <= i < j < |playerData| ==> playerData[i] != playerData[j]) &&
      (forall i :: 0 <= i < |playerData| ==> playerData[i].Valid() && playerData[i].tiles == playerTileIds)
    }

    /** The lobby after loading: the caller supplies the panels it built. */
    constructor (playerTileIds: seq<PlayerTile>, playerData: seq<PlayerData>)
      ensures this.playerTileIds == playerTileIds && this.playerData == playerData
      ensures !readyForNextState
    {
      this.playerTileIds := playerTileIds;
      this.playerData := playerData;
      readyForNextState := false;
    }

    /** The character sprites handed to the play screen: every entry of the
        list, in order (not the entries the players picked). */
    function SpriteIds(): (ids: seq<SpriteID>)
      reads this
      ensures |ids| == |playerTileIds|
      ensures forall i :: 0 <= i < |ids| ==> ids[i] == playerTileIds[i].id
    {
      seq(|playerTileIds|, i requires 0 <= i < |playerTileIds| reads this => playerTileIds[i].id)
    }

    /** Nothing until the lobby is ready; then the play screen. */
    method GetNextState() returns (next: Option<NextState>)
      ensures !readyForNextState ==> next == None
      ensures readyForNextState ==> next == Some(Play(SpriteIds()))
    {
      if readyForNextState {
        var spriteIds: seq<SpriteID> := [];
        var i := 0;
        while i < |playerTileIds|
          invariant 0 <= i <= |playerTileIds|
          invariant spriteIds == SpriteIds()[..i]
        {
          spriteIds := spriteIds + [playerTileIds[i].id];
          i := i + 1;
        }
        assert SpriteIds()[..i] == SpriteIds();
        return Some(Play(spriteIds));
      }
      return None;
    }

    /** Every panel updates, panel `i` at clock reading `nows[i]`; once all
        panels are ready afterwards the lobby is ready for good. */
    method Update(nows: seq<int>)
      requires Valid() && |nows| == |playerData|
      modifies this, set pd | pd in playerData
      ensures Valid()
      ensures forall i :: 0 <= i < |playerData| ==>
        playerData[i].Sel() == Step(old(playerData[i].Sel()), |playerTileIds|, playerData[i].changeDelayMs,
                                    nows[i], playerData[i].pi.GetAxes().0, playerData[i].pi.IsButtonPressed(JoyConX))
      ensures readyForNextState <==>
        old(readyForNextState) || forall i :: 0 <= i < |playerData| ==> playerData[i].readyForStart
    {
      var isEveryoneReady := true;
      var i := 0;
      while i < |playerData|
        invariant 0 <= i <= |playerData|
        invariant Valid()
        invariant readyForNextState == old(readyForNextState)
        invariant forall j :: 0 <= j < i ==>
          playerData[j].Sel() == Step(old(playerData[j].Sel()), |playerTileIds|, playerData[j].changeDelayMs,
                                      nows[j], playerData[j].pi.GetAxes().0, playerData[j].pi.IsButtonPressed(JoyConX))
        invariant forall j :: i <= j < |playerData| ==> unchanged(playerData[j])
        invariant isEveryoneReady <==> forall j :: 0 <= j < i ==> playerData[j].readyForStart
      {
        var pd := playerData[i];
        pd.Update(nows[i]);
        if !pd.readyForStart {
          isEveryoneReady := false;
        }
        i := i + 1;
      }
      if isEveryoneReady {
        readyForNextState := true;
      }
    }
  }

  /** The play screen never hands over to another screen. */
  class PlayState {
    constructor ()
    {
    }

    method GetNextState() returns (next: Option<NextState>)
      ensures next == None
    {
      return None;
    }
  }
}
