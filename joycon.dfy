/** The early controller experiment (spike/joycon.go): a button constant is
    the number of the bit the controller sets while it is held. Device
    search, registration and the logging loop are not part of this model. */
module JoyCon {

  /** A button is named by a bit number (Go: `type JoyConButton uint32`). */
  type JoyConButton = bv32

  const JoyConHome: JoyConButton := 13
  const JoyConSign: JoyConButton := 8
  const JoyConStick: JoyConButton := 11
  const JoyConX: JoyConButton := 16
  const JoyConY: JoyConButton := 18
  const JoyConA: JoyConButton := 19
  const JoyConB: JoyConButton := 17
  const JoyConSideTrigger: JoyConButton := 23
  const JoyConSideBumper: JoyConButton := 22
  const JoyConTriggerLeft: JoyConButton := 21
  const JoyConTriggerRight: JoyConButton := 20

  const AllButtons: seq<JoyConButton> :=
    [JoyConHome, JoyConSign, JoyConStick, JoyConX, JoyConY, JoyConA, JoyConB,
     JoyConSideTrigger, JoyConSideBumper, JoyConTriggerLeft, JoyConTriggerRight]

  /** The eleven constants are distinct bit positions between 8 and 23. */
  lemma ButtonsAreDistinctBits()
    ensures |AllButtons| == 11
    ensures forall i :: 0 <= i < |AllButtons| ==> 8 <= AllButtons[i] <= 23
    ensures forall i, j :: 0 <= i < j < |AllButtons| ==> AllButtons[i] != AllButtons[j]
  {
  }

  /** The mask 2^button. */
  function Mask(button: JoyConButton): bv32
    requires button < 32
  {
    (1 as bv32) << button
  }

  datatype JoyConInput = JoyConInput(id: int, xAxis: real, yAxis: real, buttons: bv32)
  {
    predicate ButtonPressed(button: JoyConButton)
      requires button < 32
    {
      Mask(button) & buttons != 0
    }
  }

  /** Bit number `b` of a word. */
  predicate BitSet(w: bv32, b: JoyConButton)
    requires b < 32
  {
    (w >> b) & 1 == 1
  }

  /** `ButtonPressed(b)` holds exactly when bit `b` of the word is set. */
  lemma PressedIffBitSet(inp: JoyConInput, b: JoyConButton)
    requires b < 32
    ensures inp.ButtonPressed(b) <==> BitSet(inp.buttons, b)
  {
  }

  /** With no bit set, no button reports pressed. */
  lemma NothingPressed(inp: JoyConInput, b: JoyConButton)
    requires b < 32 && inp.buttons == 0
    ensures !inp.ButtonPressed(b)
  {
  }

  /** Setting any other bit does not change the answer. */
  lemma OtherBitSetIrrelevant(inp: JoyConInput, b: JoyConButton, c: JoyConButton)
    requires b < 32 && c < 32 && b != c
    ensures inp.(buttons := inp.buttons | Mask(c)).ButtonPressed(b) == inp.ButtonPressed(b)
  {
  }

  /** Clearing any other bit does not change the answer. */
  lemma OtherBitClearedIrrelevant(inp: JoyConInput, b: JoyConButton, c: JoyConButton)
    requires b < 32 && c < 32 && b != c
    ensures inp.(buttons := inp.buttons & !Mask(c)).ButtonPressed(b) == inp.ButtonPressed(b)
  {
  }
}
