/** A player's controller as the game sees it (src/input/input.go): the
    button masks, the dead-zone filter applied to each new controller
    reading, and the queries players make of the stored state. Device
    search, pairing and the goroutine that feeds readings in are not part
    of this model; neither is the mutex around each access. */
module Input {

  /** The buttons, in the order of their `iota` constants. */
  datatype JoyConButton =
    | JoyConHome | JoyConSign | JoyConStick | JoyConX | JoyConY | JoyConA | JoyConB
    | JoyConSideTrigger | JoyConSideBumper | JoyConTriggerLeft | JoyConTriggerRight

  /** Every button. */
  const AllButtons: seq<JoyConButton> :=
    [JoyConHome, JoyConSign, JoyConStick, JoyConX, JoyConY, JoyConA, JoyConB,
     JoyConSideTrigger, JoyConSideBumper, JoyConTriggerLeft, JoyConTriggerRight]

  /** The two bits a button may set: one for a left and one for a right
      controller. */
  datatype Pair = Pair(X: bv32, Y: bv32)

  const MaskMap: map<JoyConButton, Pair> := map[
    JoyConHome         := Pair(0x2000, 0x1000),
    JoyConSign         := Pair(0x100, 0x200),
    JoyConStick        := Pair(0x800, 0x400),
    JoyConX            := Pair(0x4, 0x20000),
    JoyConY            := Pair(0x1, 0x80000),
    JoyConA            := Pair(0x8, 0x40000),
    JoyConB            := Pair(0x2, 0x10000),
    JoyConSideTrigger  := Pair(0x800000, 0x80),
    JoyConSideBumper   := Pair(0x40, 0x400000),
    JoyConTriggerLeft  := Pair(0x200000, 0x20),
    JoyConTriggerRight := Pair(0x100000, 0x10)
  ]

  /** The masks of each button, case by case; `MaskLookup` shows they are
      the entries of `MaskMap`. */
  function MaskOf(b: JoyConButton): Pair
  {
    match b
    case JoyConHome => Pair(0x2000, 0x1000)
    case JoyConSign => Pair(0x100, 0x200)
    case JoyConStick => Pair(0x800, 0x400)
    case JoyConX => Pair(0x4, 0x20000)
    case JoyConY => Pair(0x1, 0x80000)
    case JoyConA => Pair(0x8, 0x40000)
    case JoyConB => Pair(0x2, 0x10000)
    case JoyConSideTrigger => Pair(0x800000, 0x80)
    case JoyConSideBumper => Pair(0x40, 0x400000)
    case JoyConTriggerLeft => Pair(0x200000, 0x20)
    case JoyConTriggerRight => Pair(0x100000, 0x10)
  }

  /** A Go map lookup: the entry, or the zero pair for a missing key. */
  function MaskEntry(b: JoyConButton): Pair
  {
    if b in MaskMap then MaskMap[b] else Pair(0, 0)
  }

  /** Every button has an entry, and it is the button's masks. */
  lemma MaskLookup(b: JoyConButton)
    ensures b in MaskMap
    ensures MaskEntry(b) == MaskOf(b)
  {
  }

  /** Whether a button word reports `b` pressed: either of its bits is set. */
  predicate Pressed(buttons: bv32, b: JoyConButton)
  {
    MaskOf(b).X & buttons != 0 || MaskOf(b).Y & buttons != 0
  }

  predicate IsSingleBit(m: bv32)
  {
    m != 0 && m & (m - 1) == 0
  }

  /** Every button has an entry, and its two masks are distinct single bits. */
  lemma MasksAreSingleBits(b: JoyConButton)
    ensures b in MaskMap
    ensures IsSingleBit(MaskOf(b).X) && IsSingleBit(MaskOf(b).Y)
    ensures MaskOf(b).X != MaskOf(b).Y
  {
  }

  /** Different buttons never share a bit, so all 22 masks are distinct. */
  lemma MasksAreDisjoint(b: JoyConButton, c: JoyConButton)
    requires b != c
    ensures (MaskOf(b).X | MaskOf(b).Y) & (MaskOf(c).X | MaskOf(c).Y) == 0
  {
  }

  /** A word holding exactly one of b's bits reports b pressed and no other
      button. */
  lemma {:induction false} OneBitPressesOneButton(b: JoyConButton, c: JoyConButton, leftBit: bool)
    ensures Pressed(if leftBit then MaskOf(b).X else MaskOf(b).Y, c) <==> b == c
  {
    MasksAreSingleBits(b);
    if b != c {
      MasksAreDisjoint(b, c);
    }
  }

  /** With no bit set, nothing is pressed. */
  lemma NothingPressed(b: JoyConButton)
    ensures !Pressed(0, b)
  {
  }

  /** The dead-zone filter: a reading of magnitude above 10 or below 0.1
      becomes 0; any other reading passes unchanged. */
  function Deadzone(v: real): (r: real)
    ensures r == v || r == 0.0
    ensures r == 0.0 || (0.1 <= r <= 10.0 || -10.0 <= r <= -0.1)
    ensures (0.1 <= v <= 10.0 || -10.0 <= v <= -0.1) ==> r == v
  {
    var magnitude := if v < 0.0 then -v else v;
    if magnitude > 10.0 || magnitude < 0.1 then 0.0 else v
  }

  /** A stick reading from the controller library. */
  datatype Stick = Stick(X: real, Y: real)

  /** One reading from the controller library. */
  datatype JoyConState = JoyConState(LeftAdj: Stick, RightAdj: Stick, Buttons: bv32)

  /** The latest filtered reading of one controller. */
  class PlayerInput {
    const id: nat
    const isLeft: bool
    var xAxis: real
    var yAxis: real
    var buttons: bv32

    /** The struct literal built when a controller is paired. */
    constructor (id: nat, isLeft: bool)
      ensures this.id == id && this.isLeft == isLeft
      ensures xAxis == 0.0 && yAxis == 0.0 && buttons == 0
    {
      this.id := id;
      this.isLeft := isLeft;
      xAxis, yAxis, buttons := 0.0, 0.0, 0;
    }

    /** Stores a reading: a left controller's stick is negated, a right
        controller's is taken as it is; each axis then goes through the dead
        zone, and the button word is copied. */
    method SetControlState(state: JoyConState)
      modifies this
      ensures xAxis == Deadzone(if isLeft then -state.LeftAdj.X else state.RightAdj.X)
      ensures yAxis == Deadzone(if isLeft then -state.LeftAdj.Y else state.RightAdj.Y)
      ensures buttons == state.Buttons
      ensures GetAxes() == (xAxis, yAxis)
    {
      if isLeft {
        xAxis := -state.LeftAdj.X;
        yAxis := -state.LeftAdj.Y;
      } else {
        xAxis := state.RightAdj.X;
        yAxis := state.RightAdj.Y;
      }
      xAxis := Deadzone(xAxis);
      yAxis := Deadzone(yAxis);
      buttons := state.Buttons;
    }

    /** The stored axes, unchanged. */
    function GetAxes(): (real, real)
      reads this
    {
      (xAxis, yAxis)
    }

    predicate IsButtonPressed(b: JoyConButton)
      reads this
    {
      Pressed(buttons, b)
    }

    /** The query as the lookup performs it: the button's entry of the mask
        map (the zero pair were it missing), either bit set in the word. */
    lemma PressedByMaskMap(b: JoyConButton)
      ensures IsButtonPressed(b) <==> (MaskEntry(b).X & buttons != 0 || MaskEntry(b).Y & buttons != 0)
    {
      MaskLookup(b);
    }
  }
}
