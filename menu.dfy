/** Character selection on the lobby screen (src/gameplay/menu.go): each
    player cycles through the list of selectable characters with the stick
    and toggles "ready" with X, both debounced against the clock. The
    colour chosen at random and all drawing are not part of this model;
    the clock is a parameter. */
module Menu {
  import opened Input
  import opened Graphics

  /** One selectable character: its sprite and its display name. */
  datatype PlayerTile = PlayerTile(id: SpriteID, name: string)

  /** The debounce delay of both selection inputs. */
  const ChangeDelayMs: int := 300

  /** An input is taken only once more than `delayMs` has passed since it
      was last taken. */
  predicate Debounced(delayMs: int, now: int, last: int)
  {
    delayMs < now - last
  }

  /** The entry one step along a list of `n` entries: forward for a
      positive axis, backward otherwise, wrapping at both ends. */
  function CycleIndex(cur: int, n: int, cycle: real): (r: int)
    requires 0 <= cur < n
    ensures 0 <= r < n
    ensures cycle > 0.0 ==> r == (cur + 1) % n
    ensures cycle <= 0.0 ==> r == (cur - 1 + n) % n
  {
    if cycle > 0.0 then
      if cur + 1 >= n then 0 else cur + 1
    else
      if cur - 1 < 0 then n - 1 else cur - 1
  }

  /** A step forward and a step backward undo each other. */
  lemma CycleInverse(cur: int, n: int)
    requires 0 <= cur < n
    ensures CycleIndex(CycleIndex(cur, n, 1.0), n, -1.0) == cur
    ensures CycleIndex(CycleIndex(cur, n, -1.0), n, 1.0) == cur
  {
  }

  /** The part of a player's lobby state that `Update` changes. */
  datatype Selection = Selection(curIdx: int, readyForStart: bool, lastChange: int, lastChangeStart: int)

  /** One update of a selection over `n` characters at clock reading `now`,
      with stick axis `cycle` and X held or not. */
  function Step(s: Selection, n: int, delayMs: int, now: int, cycle: real, xPressed: bool): (r: Selection)
    requires 0 <= s.curIdx < n
    ensures 0 <= r.curIdx < n
  {
    var s1 :=
      if cycle != 0.0 && Debounced(delayMs, now, s.lastChange) then
        s.(curIdx := CycleIndex(s.curIdx, n, cycle), lastChange := now)
      else s;
    if xPressed && Debounced(delayMs, now, s1.lastChangeStart) then
      s1.(readyForStart := !s1.readyForStart, lastChangeStart := now)
    else s1
  }

  /** The index moves, one step in the stick's direction, exactly when the
      stick is off centre and the debounce delay has passed; the change
      time is then the current one. */
  lemma StepCycles(s: Selection, n: int, delayMs: int, now: int, cycle: real, xPressed: bool)
    requires 0 <= s.curIdx < n
    ensures var r := Step(s, n, delayMs, now, cycle, xPressed);
      if cycle != 0.0 && Debounced(delayMs, now, s.lastChange) then
        r.curIdx == CycleIndex(s.curIdx, n, cycle) && r.lastChange == now
      else
        r.curIdx == s.curIdx && r.lastChange == s.lastChange
  {
  }

  /** Ready flips exactly when X is held and the debounce delay has passed
      since the last flip; the flip time is then the current one. */
  lemma StepToggles(s: Selection, n: int, delayMs: int, now: int, cycle: real, xPressed: bool)
    requires 0 <= s.curIdx < n
    ensures var r := Step(s, n, delayMs, now, cycle, xPressed);
      (r.readyForStart != s.readyForStart <==> xPressed && Debounced(delayMs, now, s.lastChangeStart)) &&
      (r.readyForStart != s.readyForStart ==> r.lastChangeStart == now) &&
      (r.readyForStart == s.readyForStart ==> r.lastChangeStart == s.lastChangeStart)
  {
  }

  /** Debouncing at work: after a change, no further change happens until
      more than the delay has passed, whatever the inputs. */
  lemma {:induction false} StepRateLimited(s: Selection, n: int, delayMs: int, now1: int, now2: int,
                                           cycle1: real, cycle2: real, x1: bool, x2: bool)
    requires 0 <= s.curIdx < n && 0 <= delayMs
    requires now2 - now1 <= delayMs
    ensures var r1 := Step(s, n, delayMs, now1, cycle1, x1);
      var r2 := Step(r1, n, delayMs, now2, cycle2, x2);
      (r1.lastChange != s.lastChange ==> r2.curIdx == r1.curIdx) &&
      (r1.readyForStart != s.readyForStart ==> r2.readyForStart == r1.readyForStart)
  {
    var r1 := Step(s, n, delayMs, now1, cycle1, x1);
    StepCycles(s, n, delayMs, now1, cycle1, x1);
    StepToggles(s, n, delayMs, now1, cycle1, x1);
    StepCycles(r1, n, delayMs, now2, cycle2, x2);
    StepToggles(r1, n, delayMs, now2, cycle2, x2);
  }

  /** One player's lobby panel. `tiles` is the lobby's character list,
      which nothing changes once the lobby is built. */
  class PlayerData {
    const id: nat
    const tiles: seq<PlayerTile>
    const pi: PlayerInput
    var im: Image
    var name: string
    var curIdx: int
    var readyForStart: bool
    var lastChange: int
    var lastChangeStart: int
    const changeDelayMs: int

    /** The selection is an entry of the list, and the sprite and name
        shown are that entry's. */
    ghost predicate Valid()
      reads this
    {
      0 <= curIdx < |tiles| &&
      im == GetSpriteImage(tiles[curIdx].id) && name == tiles[curIdx].name
    }

    function Sel(): Selection
      reads this
    {
      Selection(curIdx, readyForStart, lastChange, lastChangeStart)
    }

    /** A new panel shows the first character, not ready, with the 300 ms
        delay. Go indexes entry 0 here, so the list must not be empty. */
    constructor NewPlayerData(id: nat, tiles: seq<PlayerTile>, pi: PlayerInput)
      requires |tiles| > 0
      ensures Valid()
      ensures this.id == id && this.tiles == tiles && this.pi == pi
      ensures curIdx == 0 && !readyForStart && lastChange == 0 && lastChangeStart == 0
      ensures changeDelayMs == ChangeDelayMs
    {
      this.id := id;
      this.tiles := tiles;
      this.pi := pi;
      im := GetSpriteImage(tiles[0].id);
      name := tiles[0].name;
      curIdx := 0;
      readyForStart := false;
      lastChange := 0;
      lastChangeStart := 0;
      changeDelayMs := ChangeDelayMs;
    }

    /** One update at clock reading `now`: the selection takes one `Step`
        on the controller's first axis and X button, and the sprite and
        name follow the new entry. */
    method Update(now: int)
      requires Valid()
      modifies this
      ensures Valid()
      ensures Sel() == Step(old(Sel()), |tiles|, changeDelayMs, now, pi.GetAxes().0, pi.IsButtonPressed(JoyConX))
    {
      var axes := pi.GetAxes();
      var cycle := axes.0;
      if cycle != 0.0 {
        if changeDelayMs < now - lastChange {
          if cycle > 0.0 {
            curIdx := curIdx + 1;
            if curIdx >= |tiles| {
              curIdx := 0;
            }
          } else {
            curIdx := curIdx - 1;
            if curIdx < 0 {
              curIdx := |tiles| - 1;
            }
          }
          im := GetSpriteImage(tiles[curIdx].id);
          name := tiles[curIdx].name;
          lastChange := now;
        }
      }
      if pi.IsButtonPressed(JoyConX) {
        if changeDelayMs < now - lastChangeStart {
          readyForStart := !readyForStart;
          lastChangeStart := now;
        }
      }
    }
  }
}
