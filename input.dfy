/** The button input core: an active-low status byte read from the
    keyboard controller (a bit is 0 while its button is held), the last
    byte before it for edge detection, and the registrations of custom
    buttons. */
module Input {
  import opened Ints
  import opened Wrappers

  // ------------------------------------------------------------- buttons

  /** The eight buttons of the GameBoy-style controller. */
  datatype Button = Start | Select | A | B | Right | Left | Down | Up

  /** `GbfButtonMask`: the status bit of each button. */
  function Mask(b: Button): (m: bv8)
    ensures m != 0 && m & (m - 1) == 0
  {
    match b
    case Start => 0x80 case Select => 0x40 case B => 0x20 case A => 0x10
    case Right => 0x08 case Left => 0x04 case Down => 0x02 case Up => 0x01
  }

  /** Every button has a bit of its own, and the eight bits make up the
      whole byte. */
  lemma MasksAreBits(b: Button, c: Button)
    ensures Mask(b) != 0 && Mask(b) & (Mask(b) - 1) == 0
    ensures b != c ==> Mask(b) & Mask(c) == 0
    ensures Mask(Start) | Mask(Select) | Mask(A) | Mask(B) | Mask(Right) | Mask(Left) | Mask(Down) | Mask(Up) == 0xFF
  {
  }

  /** `checkPressedButton` on a status byte: the button's bit is 0. */
  predicate Held(status: bv8, m: bv8)
    ensures status == 0xFF ==> (Held(status, m) <==> m == 0)
  {
    status & m == 0
  }

  /** An edge on one status source: the bit is 0 now and was 1 before. */
  predicate Edge(current: bv8, last: bv8, m: bv8)
    ensures Edge(current, last, m) ==> Held(current, m) && !Held(last, m)
  {
    current & m == 0 && last & m != 0
  }

  /** The edge test of `t2kNowPressedAnyButton` on one status source. */
  predicate AnyEdge(current: bv8, last: bv8)
  {
    Edge(current, last, Mask(Start)) || Edge(current, last, Mask(Select))
    || Edge(current, last, Mask(A)) || Edge(current, last, Mask(B))
    || Edge(current, last, Mask(Left)) || Edge(current, last, Mask(Right))
    || Edge(current, last, Mask(Up)) || Edge(current, last, Mask(Down))
  }

  /** Some button went down exactly when some bit went from 1 to 0. */
  lemma AnyEdgeBits(current: bv8, last: bv8)
    ensures AnyEdge(current, last) <==> !current & last != 0
  {
  }

  /** A button whose bit did not change has no edge, and one with an edge
      is held. */
  lemma EdgeHeld(current: bv8, last: bv8, m: bv8)
    ensures current == last ==> !Edge(current, last, m)
    ensures Edge(current, last, m) ==> Held(current, m)
  {
  }

  // ------------------------------------------------------ custom buttons

  /** `T2K_CustomHwType` and `T2K_CustomCkbType`: the value of each
      custom button type. The values for A and B are the GameBoy masks of
      B and A. */
  function CustomType(i: int): (t: int)
    requires 0 <= i < 8
  {
    [0x80, 0x40, 0x20, 0x10, 0x08, 0x04, 0x02, 0x01][i]
  }

  /** The switch of `t2kRegisterCutomHW`, `t2kRemoveCustomHW` and
      `t2kRegisterCutomCKB`: the slot of a custom button type, or nothing
      for a value that is no type. */
  function CustomIndex(t: int): (r: Option<int>)
    ensures r.Some? ==> 0 <= r.value < 8
  {
    if t == 0x80 then Some(0) else if t == 0x40 then Some(1)
    else if t == 0x20 then Some(2) else if t == 0x10 then Some(3)
    else if t == 0x08 then Some(4) else if t == 0x04 then Some(5)
    else if t == 0x02 then Some(6) else if t == 0x01 then Some(7)
    else None
  }

  /** The types and the slots are in one-to-one correspondence. */
  lemma CustomIndexBijective(t: int, i: int)
    requires 0 <= i < 8
    ensures CustomIndex(CustomType(i)) == Some(i)
    ensures CustomIndex(t) == Some(i) <==> t == CustomType(i)
  {
  }

  /** A custom type is a single bit of a byte. */
  lemma CustomTypeIsBit(t: int)
    requires CustomIndex(t).Some?
    ensures 0 < t < 0x100 && (t as bv8) & ((t as bv8) - 1) == 0
  {
  }

  // --------------------------------------------------------------- state

  /** The native buttons A, B and C of the device. */
  datatype NativeButton = NativeA | NativeB | NativeC

  /** The input globals of `t2kICore.cpp`. */
  class InputState {
    var lastStatus: bv8
    var currentStatus: bv8
    var lastNative: seq<bool>
    var currentNative: seq<bool>
    var useCustomHW: bv8
    var lastStatusCustomHW: bv8
    var currentStatusCustomHW: bv8
    const customHwGpioPin: array<int>
    const customHwInputType: array<bool>
    var currentStatusCardKey: bv8
    var lastStatusCardKey: bv8
    var useCustomCKB: bv8
    const customCKBI2CVal: array<uint8>
    const customCKBInputType: array<bool>

    /** The shapes of the state, and the statuses nothing in the input core
        ever writes: the native buttons stay released, and the custom and
        card keyboard statuses stay all released. */
    predicate Valid()
      reads this
    {
      |lastNative| == 3 && |currentNative| == 3
      && customHwGpioPin.Length == 8 && customHwInputType.Length == 8
      && customCKBI2CVal.Length == 8 && customCKBInputType.Length == 8
      && customHwInputType != customCKBInputType
      && lastNative == currentNative == [false, false, false]
      && lastStatusCustomHW == currentStatusCustomHW == 0xFF
      && lastStatusCardKey == currentStatusCardKey == 0xFF
    }

    /** The globals' initial values: all released, no custom buttons, no
        pins, all card keyboard values 255. */
    constructor ()
      ensures Valid()
      ensures lastStatus == currentStatus == 0xFF
      ensures useCustomHW == 0 && useCustomCKB == 0
      ensures customHwGpioPin[..] == seq(8, _ => -1)
      ensures customHwInputType[..] == seq(8, _ => false)
      ensures customCKBI2CVal[..] == seq(8, _ => 255)
      ensures customCKBInputType[..] == seq(8, _ => false)
    {
      lastStatus, currentStatus := 0xFF, 0xFF;
      lastNative, currentNative := [false, false, false], [false, false, false];
      useCustomHW := 0;
      lastStatusCustomHW, currentStatusCustomHW := 0xFF, 0xFF;
      customHwGpioPin := new int[8] (_ => -1);
      customHwInputType := new bool[8] (_ => false);
      currentStatusCardKey, lastStatusCardKey := 0xFF, 0xFF;
      useCustomCKB := 0;
      customCKBI2CVal := new uint8[8] (_ => 255);
      customCKBInputType := new bool[8] (_ => false);
    }

    // ---------------------------------------------------------- queries

    /** `t2kIsPressedStart` ... `t2kIsPressedDown`: the main status only,
        the custom sources being commented out. */
    predicate IsPressed(b: Button)
      reads this
      ensures currentStatus == 0xFF ==> !IsPressed(b)
    {
      Held(currentStatus, Mask(b))
    }

    /** `nowPressed`: an edge on the main status, or on the custom or the
        card keyboard status while any of those is registered. */
    predicate NowPressed(b: Button)
      reads this
      ensures NowPressed(b) ==> IsPressed(b) || Held(currentStatusCustomHW, Mask(b)) || Held(currentStatusCardKey, Mask(b))
      ensures useCustomHW == 0 && useCustomCKB == 0 ==> (NowPressed(b) <==> Edge(currentStatus, lastStatus, Mask(b)))
    {
      Edge(currentStatus, lastStatus, Mask(b))
      || (useCustomHW != 0 && Edge(currentStatusCustomHW, lastStatusCustomHW, Mask(b)))
      || (useCustomCKB != 0 && Edge(currentStatusCardKey, lastStatusCardKey, Mask(b)))
    }

    /** `t2kNowPressedAnyButton`. */
    predicate NowPressedAnyButton()
      reads this
      ensures NowPressedAnyButton() <==> exists b: Button :: NowPressed(b)
    {
      NowPressed(Start) || NowPressed(Select) || NowPressed(A) || NowPressed(B)
      || NowPressed(Left) || NowPressed(Right) || NowPressed(Up) || NowPressed(Down)
    }

    function NativeIndex(n: NativeButton): (i: int)
      ensures 0 <= i < 3
    {
      match n case NativeA => 0 case NativeB => 1 case NativeC => 2
    }

    /** `t2kIsPressedNativeButtonA` ... `C`. */
    predicate IsPressedNative(n: NativeButton)
      requires Valid()
      reads this
    {
      currentNative[NativeIndex(n)]
    }

    /** `t2kNowPressedNativeButtonA` ... `C`: pressed now, not before. */
    predicate NowPressedNative(n: NativeButton)
      requires Valid()
      reads this
      ensures NowPressedNative(n) ==> IsPressedNative(n)
    {
      currentNative[NativeIndex(n)] && !lastNative[NativeIndex(n)]
    }

    /** The custom sources never see an edge, since nothing writes their
        statuses: a button is now pressed exactly when its bit of the main
        status went from 1 to 0, and some button is exactly when some bit
        did. A button now pressed is held. */
    lemma NowPressedMain(b: Button)
      requires Valid()
      ensures NowPressed(b) <==> Edge(currentStatus, lastStatus, Mask(b))
      ensures NowPressed(b) ==> IsPressed(b)
    {
      assert !Edge(0xFF, 0xFF, Mask(b));
      EdgeHeld(currentStatus, lastStatus, Mask(b));
    }

    lemma NowPressedAnyMain()
      requires Valid()
      ensures NowPressedAnyButton() <==> !currentStatus & lastStatus != 0
    {
      NowPressedMain(Start); NowPressedMain(Select); NowPressedMain(A); NowPressedMain(B);
      NowPressedMain(Left); NowPressedMain(Right); NowPressedMain(Up); NowPressedMain(Down);
      AnyEdgeBits(currentStatus, lastStatus);
    }

    /** The native buttons are never pressed, as nothing writes them. */
    lemma NativeReleased(n: NativeButton)
      requires Valid()
      ensures !IsPressedNative(n) && !NowPressedNative(n)
    {
    }

    // -------------------------------------------------------- updates

    /** `t2kInputUpdate`: the current status becomes the last one; then
        the byte read from the keyboard controller, if the interrupt line
        is low and a byte came, becomes the current one. */
    method InputUpdate(read: Option<bv8>)
      requires Valid()
      modifies this
      ensures Valid()
      ensures lastStatus == old(currentStatus)
      ensures currentStatus == if read.Some? then read.value else old(currentStatus)
      ensures useCustomHW == old(useCustomHW) && useCustomCKB == old(useCustomCKB)
    {
      lastStatus := currentStatus;
      if read.Some? {
        currentStatus := read.value;
      }
    }

    /** `t2kRegisterCutomHW`: an unknown type changes nothing and fails;
        a known one sets its bit of the used set and records the pin and
        the input type in its slot. */
    method RegisterCustomHW(t: int, gpioPinNo: int, onType: bool) returns (ok: bool)
      requires Valid()
      modifies this, customHwGpioPin, customHwInputType
      ensures Valid()
      ensures ok == CustomIndex(t).Some?
      ensures !ok ==> (useCustomHW == old(useCustomHW)
        && customHwGpioPin[..] == old(customHwGpioPin[..]) && customHwInputType[..] == old(customHwInputType[..]))
      ensures ok ==> (useCustomHW == old(useCustomHW) | t as bv8
        && customHwGpioPin[..] == old(customHwGpioPin[..])[CustomIndex(t).value := gpioPinNo]
        && customHwInputType[..] == old(customHwInputType[..])[CustomIndex(t).value := onType])
      ensures lastStatus == old(lastStatus) && currentStatus == old(currentStatus) && useCustomCKB == old(useCustomCKB)
      ensures customCKBI2CVal[..] == old(customCKBI2CVal[..]) && customCKBInputType[..] == old(customCKBInputType[..])
    {
      var index := CustomIndex(t);
      if index.None? {
        return false;
      }
      useCustomHW := useCustomHW | t as bv8;
      customHwGpioPin[index.value] := gpioPinNo;
      customHwInputType[index.value] := onType;
      ok := true;
    }

    /** `t2kRemoveCustomHW`: an unknown type changes nothing and fails; a
        known one clears its bit of the used set and its pin, and leaves
        its input type as it was. */
    method RemoveCustomHW(t: int) returns (ok: bool)
      requires Valid()
      modifies this, customHwGpioPin
      ensures Valid()
      ensures ok == CustomIndex(t).Some?
      ensures !ok ==> useCustomHW == old(useCustomHW) && customHwGpioPin[..] == old(customHwGpioPin[..])
      ensures ok ==> (useCustomHW == old(useCustomHW) & !(t as bv8)
        && customHwGpioPin[..] == old(customHwGpioPin[..])[CustomIndex(t).value := -1])
      ensures lastStatus == old(lastStatus) && currentStatus == old(currentStatus) && useCustomCKB == old(useCustomCKB)
      ensures customCKBI2CVal[..] == old(customCKBI2CVal[..]) && customCKBInputType[..] == old(customCKBInputType[..])
    {
      var index := CustomIndex(t);
      if index.None? {
        return false;
      }
      useCustomHW := useCustomHW & !(t as bv8);
      customHwGpioPin[index.value] := -1;
      ok := true;
    }

    /** `t2kRegisterCutomCKB`: as `t2kRegisterCutomHW`, for the card
        keyboard; the key value is stored as uint8. */
    method RegisterCustomCKB(t: int, i2cVal: int, onType: bool) returns (ok: bool)
      requires Valid()
      modifies this, customCKBI2CVal, customCKBInputType
      ensures Valid()
      ensures ok == CustomIndex(t).Some?
      ensures !ok ==> (useCustomCKB == old(useCustomCKB)
        && customCKBI2CVal[..] == old(customCKBI2CVal[..]) && customCKBInputType[..] == old(customCKBInputType[..]))
      ensures ok ==> (useCustomCKB == old(useCustomCKB) | t as bv8
        && customCKBI2CVal[..] == old(customCKBI2CVal[..])[CustomIndex(t).value := ToUint8(i2cVal)]
        && customCKBInputType[..] == old(customCKBInputType[..])[CustomIndex(t).value := onType])
      ensures lastStatus == old(lastStatus) && currentStatus == old(currentStatus) && useCustomHW == old(useCustomHW)
      ensures customHwGpioPin[..] == old(customHwGpioPin[..]) && customHwInputType[..] == old(customHwInputType[..])
    {
      var index := CustomIndex(t);
      if index.None? {
        return false;
      }
      useCustomCKB := useCustomCKB | t as bv8;
      customCKBI2CVal[index.value] := ToUint8(i2cVal);
      customCKBInputType[index.value] := onType;
      ok := true;
    }
  }

  /** Registering a custom type and then removing it leaves its bit clear
      and the other bits as they were before. */
  lemma RegisterRemoveBits(used: bv8, t: int)
    requires CustomIndex(t).Some?
    ensures (used | t as bv8) & !(t as bv8) == used & !(t as bv8)
    ensures (used | t as bv8) & (t as bv8) != 0
  {
  }

  /** After an update without a new byte no button is now pressed; after
      one with byte s a button is now pressed exactly when its bit is 0 in
      s and was 1 in the byte before. */
  lemma UpdateEdges(before: bv8, read: Option<bv8>, b: Button)
    ensures var current := if read.Some? then read.value else before;
      (read.None? ==> !Edge(current, before, Mask(b)))
      && (read.Some? ==> (Edge(current, before, Mask(b)) <==> read.value & Mask(b) == 0 && before & Mask(b) != 0))
  {
  }
}
