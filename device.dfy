/**
 * The virtual mouse and keyboard of the Rust implementation: each operation writes a
 * fixed recipe of input events to its uinput device. Every operation is specified by
 * its write program (module InputEvents): the events it writes, in order, and which of
 * the writes end the operation when they fail.
 */
module Device {
  import opened Wrappers
  import opened Text
  import opened Seqs
  import opened InputEvents
  import opened KeyMap

  /** Rust's `u32`. */
  type U32 = x: int | 0 <= x < 0x1_0000_0000

  /** `x as i32` for a `u32`: the same 32 bits read as two's complement. */
  function U32AsI32(x: U32): (v: int)
    ensures I32Min <= v <= I32Max
    ensures x <= I32Max ==> v == x
    ensures x > I32Max ==> v == x - 0x1_0000_0000
  {
    if x <= I32Max then x else x - 0x1_0000_0000
  }

  /** The `i32` that wrapping arithmetic leaves for the exact value `v`. */
  function WrapI32(v: int): (w: int)
    ensures I32Min <= w <= I32Max
    ensures (w - v) % 0x1_0000_0000 == 0
    ensures I32Min <= v <= I32Max ==> w == v
  {
    (v - I32Min) % 0x1_0000_0000 + I32Min
  }

  datatype DeviceError =
    | UnknownKeyName(part: string)
    | WriteFailed(fault: Fault)
    | InvalidScrollDirection(direction: string)
    | DeviceNotFound(name: string)
    | XInputFailed

  /** The error a failed write surfaces as. */
  function FaultOutcome(f: Option<Fault>): Outcome<DeviceError>
  {
    if f.Some? then Fail(WriteFailed(f.value)) else Pass
  }

  /** The write failure an outcome reports, if it reports one. */
  function FaultOf(r: Outcome<DeviceError>): Option<Fault>
  {
    if r.Fail? && r.error.WriteFailed? then Some(r.error.fault) else None
  }

  /** The device went from `before` to `after` by running `p`, and `r` reports how that ended. */
  ghost predicate Done(fault: FaultOracle, before: DeviceState, p: seq<Step>, after: DeviceState, r: Outcome<DeviceError>)
  {
    Transition(fault, before, p, after, FaultOf(r)) && r == FaultOutcome(FaultOf(r))
  }

  /** `d` went from `before` to its present state by running `p`, and `r` reports how that ended. */
  ghost predicate Ran(d: VirtualDevice, before: DeviceState, p: seq<Step>, r: Outcome<DeviceError>)
    reads d
  {
    Done(d.fault, before, p, d.State(), r)
  }

  /** A step that passed, followed by a second one, is their concatenation. */
  lemma DoneThen(fault: FaultOracle, s0: DeviceState, p: seq<Step>, s1: DeviceState, q: seq<Step>, s2: DeviceState, r: Outcome<DeviceError>)
    requires Done(fault, s0, p, s1, Pass) && Done(fault, s1, q, s2, r)
    ensures Done(fault, s0, p + q, s2, r)
  {
    TransitionThen(fault, s0, p, s1, q, s2, FaultOf(r));
  }

  /** A step that failed ends every program that starts with it, `?` style. */
  lemma DoneStop(fault: FaultOracle, s0: DeviceState, p: seq<Step>, s1: DeviceState, q: seq<Step>, r: Outcome<DeviceError>)
    requires Done(fault, s0, p, s1, r) && r.Fail?
    ensures Done(fault, s0, p + q, s1, r)
  {
    TransitionStop(fault, s0, p, s1, q, r.error.fault);
  }

  /** `device.send(event, value)?`: a write whose failure ends the operation. */
  method Send(d: VirtualDevice, e: Event) returns (r: Outcome<DeviceError>)
    modifies d
    ensures Ran(d, old(d.State()), [Must(e)], r)
  {
    var f := d.Write(e);
    r := FaultOutcome(f);
  }

  /** `let _ = device.send(event, value)`: a write whose failure is discarded. */
  method SendIgnoringResult(d: VirtualDevice, e: Event)
    modifies d
    ensures Done(d.fault, old(d.State()), [Try(e)], d.State(), Pass)
  {
    var _ := d.Write(e);
  }

  // ---------------------------------------------------------------------------------
  // Scroll directions

  datatype ScrollDirection = Up | Down | Right | Left

  /** `ScrollDirection::from_str`: exactly the four lowercase names. */
  function ScrollDirectionFromStr(direction: string): Result<ScrollDirection, DeviceError>
  {
    if direction == "up" then Success(Up)
    else if direction == "down" then Success(Down)
    else if direction == "right" then Success(Right)
    else if direction == "left" then Success(Left)
    else Failure(InvalidScrollDirection(direction))
  }

  function ScrollDirectionName(d: ScrollDirection): string
  {
    match d
    case Up => "up"
    case Down => "down"
    case Right => "right"
    case Left => "left"
  }

  /** Each direction is read back from its name, and nothing else is read as a direction. */
  lemma ScrollDirectionNames(direction: string, d: ScrollDirection)
    ensures ScrollDirectionFromStr(ScrollDirectionName(d)) == Success(d)
    ensures ScrollDirectionFromStr(direction).Success? <==> direction in ["up", "down", "right", "left"]
    ensures ScrollDirectionFromStr(direction).Success? ==> ScrollDirectionName(ScrollDirectionFromStr(direction).value) == direction
    ensures ScrollDirectionFromStr(direction).Failure? ==> ScrollDirectionFromStr(direction).error == InvalidScrollDirection(direction)
  {
  }

  /** `ScrollDirection::multiplier`. */
  function Multiplier(d: ScrollDirection): int
  {
    match d
    case Up => 1
    case Down => -1
    case Right => 1
    case Left => -1
  }

  /** The wheel a direction turns. */
  function WheelOf(d: ScrollDirection): WheelAxis
  {
    match d
    case Up => Vertical
    case Down => Vertical
    case Right => Horizontal
    case Left => Horizontal
  }

  /** Up and right count positive, down and left negative; up/down turn the vertical wheel. */
  lemma DirectionSigns(d: ScrollDirection)
    ensures Multiplier(d) == 1 <==> d == Up || d == Right
    ensures Multiplier(d) == -1 <==> d == Down || d == Left
    ensures WheelOf(d) == Vertical <==> d == Up || d == Down
  {
  }

  // ---------------------------------------------------------------------------------
  // Mouse recipes

  datatype MouseButton = LeftButton | RightButton | MiddleButton

  function ButtonCode(b: MouseButton): Button
  {
    match b
    case LeftButton => BtnLeft
    case RightButton => BtnRight
    case MiddleButton => BtnMiddle
  }

  /** `mouse_move`: X, then Y, then a synchronisation report. */
  function MoveProgram(x: U32, y: U32): seq<Step>
  {
    [Must(AbsX(U32AsI32(x))), Must(AbsY(U32AsI32(y))), Must(Sync)]
  }

  /** `mouse_button_down`: the button write's result is discarded; only the sync can fail. */
  function ButtonDownProgram(b: MouseButton): seq<Step>
  {
    [Try(BtnDown(ButtonCode(b))), Must(Sync)]
  }

  function ButtonUpProgram(b: MouseButton): seq<Step>
  {
    [Try(BtnUp(ButtonCode(b))), Must(Sync)]
  }

  function ClickProgram(b: MouseButton): seq<Step>
  {
    ButtonDownProgram(b) + ButtonUpProgram(b)
  }

  function ClickDragProgram(b: MouseButton, x: U32, y: U32): seq<Step>
  {
    ButtonDownProgram(b) + MoveProgram(x, y) + ButtonUpProgram(b)
  }

  function DoubleClickProgram(): seq<Step>
  {
    ClickProgram(LeftButton) + ClickProgram(LeftButton)
  }

  function TripleClickProgram(): seq<Step>
  {
    ClickProgram(LeftButton) + ClickProgram(LeftButton) + ClickProgram(LeftButton)
  }

  /** `scroll`: one wheel report of `amount as i32 * multiplier` (wrapping), then a sync. */
  function ScrollProgram(d: ScrollDirection, amount: U32): seq<Step>
  {
    [Must(Wheel(WheelOf(d), WrapI32(U32AsI32(amount) * Multiplier(d)))), Must(Sync)]
  }

  /** A scroll by an amount that fits in an `i32` is one wheel report of exactly that amount, signed by the direction. */
  lemma ScrollEvents(d: ScrollDirection, amount: U32)
    requires amount <= I32Max
    ensures Events(ScrollProgram(d, amount)) == [Wheel(WheelOf(d), amount * Multiplier(d)), Sync]
  {
  }

  /** The cast makes an amount of 2^32 - 1 a scroll by one step the other way. */
  lemma ScrollWrapsAboveI32(d: ScrollDirection)
    ensures Events(ScrollProgram(d, 0xFFFF_FFFF)) == [Wheel(WheelOf(d), -Multiplier(d)), Sync]
  {
  }

  lemma {:induction false} EventsAppend(p: seq<Step>, q: seq<Step>)
    ensures Events(p + q) == Events(p) + Events(q)
  {
    if p == [] {
      assert p + q == q;
    } else {
      assert (p + q)[1..] == p[1..] + q;
      EventsAppend(p[1..], q);
    }
  }

  /** A click presses its button, syncs, releases the same button and syncs again. */
  lemma ClickEvents(b: MouseButton)
    ensures Events(ClickProgram(b)) == [BtnDown(ButtonCode(b)), Sync, BtnUp(ButtonCode(b)), Sync]
  {
  }

  /** A click presses and releases its own button once each, and no other button. */
  lemma ClickCounts(b: MouseButton, other: Button)
    ensures multiset(Events(ClickProgram(b)))[BtnDown(ButtonCode(b))] == 1
    ensures multiset(Events(ClickProgram(b)))[BtnUp(ButtonCode(b))] == 1
    ensures other != ButtonCode(b) ==>
      multiset(Events(ClickProgram(b)))[BtnDown(other)] == 0 && multiset(Events(ClickProgram(b)))[BtnUp(other)] == 0
  {
    var c := ButtonCode(b);
    ClickEvents(b);
    assert multiset(Events(ClickProgram(b))) == multiset{BtnDown(c), Sync, BtnUp(c), Sync};
  }

  /** A double click is two left clicks and a triple click three: as many presses as releases. */
  lemma MultiClickCounts()
    ensures multiset(Events(DoubleClickProgram()))[BtnDown(BtnLeft)] == 2
    ensures multiset(Events(DoubleClickProgram()))[BtnUp(BtnLeft)] == 2
    ensures multiset(Events(TripleClickProgram()))[BtnDown(BtnLeft)] == 3
    ensures multiset(Events(TripleClickProgram()))[BtnUp(BtnLeft)] == 3
  {
    var c := ClickProgram(LeftButton);
    ClickCounts(LeftButton, BtnLeft);
    EventsAppend(c, c);
    EventsAppend(c + c, c);
  }

  /** A drag is a press, then a move to the target, then a release of the same button. */
  lemma ClickDragEvents(b: MouseButton, x: U32, y: U32)
    ensures Events(ClickDragProgram(b, x, y))
         == [BtnDown(ButtonCode(b)), Sync, AbsX(U32AsI32(x)), AbsY(U32AsI32(y)), Sync, BtnUp(ButtonCode(b)), Sync]
  {
  }

  /**
   * A failed button write is not reported: the button report may be lost while the
   * operation still ends well.
   */
  lemma ButtonWriteFailureIgnored(b: MouseButton, fault: FaultOracle, w: nat)
    requires fault(w).Some? && fault(w + 1).None?
    ensures Exec(ButtonDownProgram(b), fault, w) == Run([Sync], None, w + 2)
  {
  }

  /** A failed sync ends the click before the release is written. */
  lemma ClickStopsAtFailedSync(b: MouseButton, fault: FaultOracle, w: nat)
    requires fault(w).None? && fault(w + 1).Some?
    ensures Exec(ClickProgram(b), fault, w) == Run([BtnDown(ButtonCode(b))], fault(w + 1), w + 2)
  {
    ExecAppend(ButtonDownProgram(b), ButtonUpProgram(b), fault, w);
  }

  /** The virtual mouse (`MouseDevice`). */
  class MouseDevice {
    const id: int
    const name: string
    const device: VirtualDevice

    constructor (id: int, name: string, device: VirtualDevice)
      ensures this.id == id && this.name == name && this.device == device
    {
      this.id := id;
      this.name := name;
      this.device := device;
    }

    method MouseMove(x: U32, y: U32) returns (r: Outcome<DeviceError>)
      modifies device
      ensures Ran(device, old(device.State()), MoveProgram(x, y), r)
    {
      ghost var s0 := device.State();
      ghost var px, py, ps := [Must(AbsX(U32AsI32(x)))], [Must(AbsY(U32AsI32(y)))], [Must(Sync)];
      assert MoveProgram(x, y) == px + py + ps;
      r := Send(device, AbsX(U32AsI32(x)));
      if r.Fail? {
        DoneStop(device.fault, s0, px, device.State(), py + ps, r);
        assert px + (py + ps) == px + py + ps;
        return;
      }
      ghost var s1 := device.State();
      r := Send(device, AbsY(U32AsI32(y)));
      DoneThen(device.fault, s0, px, s1, py, device.State(), r);
      if r.Fail? {
        DoneStop(device.fault, s0, px + py, device.State(), ps, r);
        return;
      }
      ghost var s2 := device.State();
      r := Send(device, Sync);
      DoneThen(device.fault, s0, px + py, s2, ps, device.State(), r);
    }

    method Scroll(direction: ScrollDirection, amount: U32) returns (r: Outcome<DeviceError>)
      modifies device
      ensures Ran(device, old(device.State()), ScrollProgram(direction, amount), r)
    {
      ghost var s0 := device.State();
      var value := WrapI32(U32AsI32(amount) * Multiplier(direction));
      ghost var pw, ps := [Must(Wheel(WheelOf(direction), value))], [Must(Sync)];
      assert ScrollProgram(direction, amount) == pw + ps;
      r := Send(device, Wheel(WheelOf(direction), value));
      if r.Fail? {
        DoneStop(device.fault, s0, pw, device.State(), ps, r);
        return;
      }
      ghost var s1 := device.State();
      r := Send(device, Sync);
      DoneThen(device.fault, s0, pw, s1, ps, device.State(), r);
    }

    /** `mouse_button_down`: the write of the button is not checked. */
    method MouseButtonDown(b: MouseButton) returns (r: Outcome<DeviceError>)
      modifies device
      ensures Ran(device, old(device.State()), ButtonDownProgram(b), r)
    {
      ghost var s0 := device.State();
      SendIgnoringResult(device, BtnDown(ButtonCode(b)));
      ghost var s1 := device.State();
      r := Send(device, Sync);
      DoneThen(device.fault, s0, [Try(BtnDown(ButtonCode(b)))], s1, [Must(Sync)], device.State(), r);
    }

    method MouseButtonUp(b: MouseButton) returns (r: Outcome<DeviceError>)
      modifies device
      ensures Ran(device, old(device.State()), ButtonUpProgram(b), r)
    {
      ghost var s0 := device.State();
      SendIgnoringResult(device, BtnUp(ButtonCode(b)));
      ghost var s1 := device.State();
      r := Send(device, Sync);
      DoneThen(device.fault, s0, [Try(BtnUp(ButtonCode(b)))], s1, [Must(Sync)], device.State(), r);
    }

    method MouseDown(b: MouseButton) returns (r: Outcome<DeviceError>)
      modifies device
      ensures Ran(device, old(device.State()), ButtonDownProgram(b), r)
    {
      r := MouseButtonDown(b);
    }

    method MouseUp(b: MouseButton) returns (r: Outcome<DeviceError>)
      modifies device
      ensures Ran(device, old(device.State()), ButtonUpProgram(b), r)
    {
      r := MouseButtonUp(b);
    }

    method Click(b: MouseButton) returns (r: Outcome<DeviceError>)
      modifies device
      ensures Ran(device, old(device.State()), ClickProgram(b), r)
    {
      ghost var s0 := device.State();
      r := MouseButtonDown(b);
      if r.Fail? {
        DoneStop(device.fault, s0, ButtonDownProgram(b), device.State(), ButtonUpProgram(b), r);
        return;
      }
      ghost var s1 := device.State();
      r := MouseButtonUp(b);
      DoneThen(device.fault, s0, ButtonDownProgram(b), s1, ButtonUpProgram(b), device.State(), r);
    }

    method ClickDrag(b: MouseButton, x: U32, y: U32) returns (r: Outcome<DeviceError>)
      modifies device
      ensures Ran(device, old(device.State()), ClickDragProgram(b, x, y), r)
    {
      ghost var s0 := device.State();
      ghost var pd, pm, pu := ButtonDownProgram(b), MoveProgram(x, y), ButtonUpProgram(b);
      r := MouseButtonDown(b);
      if r.Fail? {
        DoneStop(device.fault, s0, pd, device.State(), pm + pu, r);
        assert pd + (pm + pu) == pd + pm + pu;
        return;
      }
      ghost var s1 := device.State();
      r := MouseMove(x, y);
      DoneThen(device.fault, s0, pd, s1, pm, device.State(), r);
      if r.Fail? {
        DoneStop(device.fault, s0, pd + pm, device.State(), pu, r);
        return;
      }
      ghost var s2 := device.State();
      r := MouseButtonUp(b);
      DoneThen(device.fault, s0, pd + pm, s2, pu, device.State(), r);
    }

    /** `left_click` of the environments: a click of the left button. */
    method LeftClick() returns (r: Outcome<DeviceError>)
      modifies device
      ensures Ran(device, old(device.State()), ClickProgram(LeftButton), r)
    {
      r := Click(LeftButton);
    }

    /** `right_click` of the environments: a click of the right button. */
    method RightClick() returns (r: Outcome<DeviceError>)
      modifies device
      ensures Ran(device, old(device.State()), ClickProgram(RightButton), r)
    {
      r := Click(RightButton);
    }

    method DoubleClick() returns (r: Outcome<DeviceError>)
      modifies device
      ensures Ran(device, old(device.State()), DoubleClickProgram(), r)
    {
      ghost var s0 := device.State();
      ghost var c := ClickProgram(LeftButton);
      r := Click(LeftButton);
      if r.Fail? {
        DoneStop(device.fault, s0, c, device.State(), c, r);
        return;
      }
      ghost var s1 := device.State();
      r := Click(LeftButton);
      DoneThen(device.fault, s0, c, s1, c, device.State(), r);
    }

    method TripleClick() returns (r: Outcome<DeviceError>)
      modifies device
      ensures Ran(device, old(device.State()), TripleClickProgram(), r)
    {
      ghost var s0 := device.State();
      ghost var c := ClickProgram(LeftButton);
      r := Click(LeftButton);
      if r.Fail? {
        DoneStop(device.fault, s0, c, device.State(), c + c, r);
        assert c + (c + c) == c + c + c;
        return;
      }
      ghost var s1 := device.State();
      r := Click(LeftButton);
      DoneThen(device.fault, s0, c, s1, c, device.State(), r);
      if r.Fail? {
        DoneStop(device.fault, s0, c + c, device.State(), c, r);
        return;
      }
      ghost var s2 := device.State();
      r := Click(LeftButton);
      DoneThen(device.fault, s0, c + c, s2, c, device.State(), r);
    }
  }

  // ---------------------------------------------------------------------------------
  // Keyboard recipes

  /** Every key pressed in order, then released in the reverse order. */
  function PressProgram(keys: seq<Key>): seq<Step>
  {
    DownAll(keys) + UpAll(Reverse(keys))
  }

  /** What `type_text` writes for one character's keys: modifiers down, the last key down and up, modifiers up in reverse. */
  function CharProgram(keys: seq<Key>): seq<Step>
  {
    if keys == [] then []
    else
      var mods := keys[..|keys| - 1];
      var main := keys[|keys| - 1];
      DownAll(mods) + KeyDownWrite(main) + KeyUpWrite(main) + UpAll(Reverse(mods))
  }

  /** What `type_text` writes for each character, with `upper` saying which characters outside ASCII are uppercase. */
  function CharSteps(upper: CaseTable): char -> seq<Step>
  {
    c => CharProgram(CharToKeys(c, upper))
  }

  /** What typing `text` writes when character `c` is written as `stepsOf(c)`. */
  function TypeWith(text: string, stepsOf: char -> seq<Step>): seq<Step>
  {
    if text == [] then []
    else TypeWith(text[..|text| - 1], stepsOf) + stepsOf(text[|text| - 1])
  }

  /** What `type_text` writes for `text`, one character after the other. */
  function TypeProgram(text: string, upper: CaseTable): seq<Step>
  {
    TypeWith(text, CharSteps(upper))
  }

  /** Typing one character is pressing its keys as a chord: the same discipline as `press_key`. */
  lemma {:induction false} CharProgramIsChord(keys: seq<Key>)
    ensures CharProgram(keys) == PressProgram(keys)
  {
    if keys != [] {
      var mods := keys[..|keys| - 1];
      var main := keys[|keys| - 1];
      assert keys == mods + [main];
      DownAllAppend(mods, [main]);
      ReverseAppend(mods, [main]);
      assert Reverse([main]) == [main];
      UpAllAppend([main], Reverse(mods));
      assert DownAll([main]) == KeyDownWrite(main);
      assert UpAll([main]) == KeyUpWrite(main);
    }
  }

  /** The key `i` of a chord goes down at event `2i`; the releases come after all presses, last key first. */
  lemma PressEvents(keys: seq<Key>, i: nat)
    requires i < |keys|
    ensures |Events(PressProgram(keys))| == 4 * |keys|
    ensures Events(PressProgram(keys))[2 * i] == KeyDown(keys[i])
    ensures Events(PressProgram(keys))[2 * |keys| + 2 * i] == KeyUp(keys[|keys| - 1 - i])
    ensures Events(PressProgram(keys))[2 * i + 1] == Sync && Events(PressProgram(keys))[2 * |keys| + 2 * i + 1] == Sync
  {
    EventsAppend(DownAll(keys), UpAll(Reverse(keys)));
    DownAllEvents(keys, i);
    UpAllEvents(Reverse(keys), i);
    ReverseAt(keys, i);
  }

  lemma {:induction false} TypeWithAppend(a: string, b: string, stepsOf: char -> seq<Step>)
    ensures TypeWith(a + b, stepsOf) == TypeWith(a, stepsOf) + TypeWith(b, stepsOf)
    decreases |b|
  {
    if b == [] {
      assert a + b == a;
    } else {
      var b', c := b[..|b| - 1], b[|b| - 1];
      assert a + b == (a + b') + [c];
      assert (a + b)[..|a + b| - 1] == a + b';
      assert (a + b)[|a + b| - 1] == c;
      assert TypeWith(a + b, stepsOf) == TypeWith(a + b', stepsOf) + stepsOf(c);
      assert TypeWith(b, stepsOf) == TypeWith(b', stepsOf) + stepsOf(c);
      TypeWithAppend(a, b', stepsOf);
      var x, y := TypeWith(a, stepsOf), TypeWith(b', stepsOf);
      assert (x + y) + stepsOf(c) == x + (y + stepsOf(c));
    }
  }

  /** Typing is concatenative: typing `a + b` types `a`, then `b`. */
  lemma TypeProgramAppend(a: string, b: string, upper: CaseTable)
    ensures TypeProgram(a + b, upper) == TypeProgram(a, upper) + TypeProgram(b, upper)
  {
    TypeWithAppend(a, b, CharSteps(upper));
  }

  /** Typing one more character appends that character's write program. */
  lemma TypeProgramStep(text: string, i: nat, upper: CaseTable)
    requires i < |text|
    ensures TypeProgram(text[..i + 1], upper) == TypeProgram(text[..i], upper) + CharSteps(upper)(text[i])
  {
    assert text[..i + 1][..i] == text[..i];
  }

  lemma TypeWithSplit(text: string, i: nat, stepsOf: char -> seq<Step>)
    requires i < |text|
    ensures TypeWith(text, stepsOf) == TypeWith(text[..i], stepsOf) + (stepsOf(text[i]) + TypeWith(text[i + 1..], stepsOf))
  {
    var head, rest := text[..i + 1], text[i + 1..];
    assert text == head + rest;
    TypeWithAppend(head, rest, stepsOf);
    assert TypeWith(text, stepsOf) == TypeWith(head, stepsOf) + TypeWith(rest, stepsOf);
    TypeWithLast(head, stepsOf);
    assert head[..|head| - 1] == text[..i];
    SeqAssoc(TypeWith(text[..i], stepsOf), stepsOf(text[i]), TypeWith(rest, stepsOf));
  }

  lemma SeqAssoc(a: seq<Step>, b: seq<Step>, c: seq<Step>)
    ensures (a + b) + c == a + (b + c)
  {
  }

  lemma TypeWithLast(text: string, stepsOf: char -> seq<Step>)
    requires text != []
    ensures TypeWith(text, stepsOf) == TypeWith(text[..|text| - 1], stepsOf) + stepsOf(text[|text| - 1])
  {
  }

  /** Typing `text` is typing what precedes character `i`, then character `i`, then the rest. */
  lemma TypeProgramSplit(text: string, i: nat, upper: CaseTable)
    requires i < |text|
    ensures TypeProgram(text, upper)
         == TypeProgram(text[..i], upper) + (CharSteps(upper)(text[i]) + TypeProgram(text[i + 1..], upper))
  {
    TypeWithSplit(text, i, CharSteps(upper));
  }

  lemma TypeWithSkips(a: string, c: char, b: string, stepsOf: char -> seq<Step>)
    requires stepsOf(c) == []
    ensures TypeWith(a + [c] + b, stepsOf) == TypeWith(a + b, stepsOf)
  {
    TypeWithAppend(a + [c], b, stepsOf);
    TypeWithAppend(a, [c], stepsOf);
    TypeWithAppend(a, b, stepsOf);
    assert TypeWith([c], stepsOf) == TypeWith([], stepsOf) + stepsOf(c);
  }

  /** A character with no keys writes nothing; the characters after it are still typed. */
  lemma TypeSkipsUnmapped(a: string, c: char, b: string, upper: CaseTable)
    requires CharToKeys(c, upper) == []
    ensures TypeProgram(a + [c] + b, upper) == TypeProgram(a + b, upper)
  {
    assert CharSteps(upper)(c) == [];
    TypeWithSkips(a, c, b, CharSteps(upper));
  }

  /** The virtual keyboard (`KeyboardDevice`). */
  class KeyboardDevice {
    const id: int
    const name: string
    const device: VirtualDevice

    constructor (id: int, name: string, device: VirtualDevice)
      ensures this.id == id && this.name == name && this.device == device
    {
      this.id := id;
      this.name := name;
      this.device := device;
    }

    method KeyDown(key: Key) returns (r: Outcome<DeviceError>)
      modifies device
      ensures Ran(device, old(device.State()), KeyDownWrite(key), r)
    {
      ghost var s0 := device.State();
      r := Send(device, InputEvents.KeyDown(key));
      if r.Fail? {
        DoneStop(device.fault, s0, [Must(InputEvents.KeyDown(key))], device.State(), [Must(Sync)], r);
        return;
      }
      ghost var s1 := device.State();
      r := Send(device, Sync);
      DoneThen(device.fault, s0, [Must(InputEvents.KeyDown(key))], s1, [Must(Sync)], device.State(), r);
    }

    method KeyUp(key: Key) returns (r: Outcome<DeviceError>)
      modifies device
      ensures Ran(device, old(device.State()), KeyUpWrite(key), r)
    {
      ghost var s0 := device.State();
      r := Send(device, InputEvents.KeyUp(key));
      if r.Fail? {
        DoneStop(device.fault, s0, [Must(InputEvents.KeyUp(key))], device.State(), [Must(Sync)], r);
        return;
      }
      ghost var s1 := device.State();
      r := Send(device, Sync);
      DoneThen(device.fault, s0, [Must(InputEvents.KeyUp(key))], s1, [Must(Sync)], device.State(), r);
    }

    /** `key_down` on each key in order, stopping at the first failure. */
    method KeysDown(keys: seq<Key>) returns (r: Outcome<DeviceError>)
      modifies device
      ensures Ran(device, old(device.State()), DownAll(keys), r)
    {
      ghost var s0 := device.State();
      TransitionEmpty(device.fault, s0);
      var i := 0;
      while i < |keys|
        invariant 0 <= i <= |keys|
        invariant Done(device.fault, s0, DownAll(keys[..i]), device.State(), Pass)
      {
        ghost var s1 := device.State();
        r := KeyDown(keys[i]);
        DoneThen(device.fault, s0, DownAll(keys[..i]), s1, KeyDownWrite(keys[i]), device.State(), r);
        if r.Fail? {
          DoneStop(device.fault, s0, DownAll(keys[..i]) + KeyDownWrite(keys[i]), device.State(), DownAll(keys[i + 1..]), r);
          DownAllSplit(keys, i);
          return;
        }
        DownAllStep(keys, i);
        i := i + 1;
      }
      assert keys[..i] == keys;
      r := Pass;
    }

    /** `key_up` on each key in order, stopping at the first failure. */
    method KeysUp(keys: seq<Key>) returns (r: Outcome<DeviceError>)
      modifies device
      ensures Ran(device, old(device.State()), UpAll(keys), r)
    {
      ghost var s0 := device.State();
      TransitionEmpty(device.fault, s0);
      var i := 0;
      while i < |keys|
        invariant 0 <= i <= |keys|
        invariant Done(device.fault, s0, UpAll(keys[..i]), device.State(), Pass)
      {
        ghost var s1 := device.State();
        r := KeyUp(keys[i]);
        DoneThen(device.fault, s0, UpAll(keys[..i]), s1, KeyUpWrite(keys[i]), device.State(), r);
        if r.Fail? {
          DoneStop(device.fault, s0, UpAll(keys[..i]) + KeyUpWrite(keys[i]), device.State(), UpAll(keys[i + 1..]), r);
          UpAllSplit(keys, i);
          return;
        }
        UpAllStep(keys, i);
        i := i + 1;
      }
      assert keys[..i] == keys;
      r := Pass;
    }

    /** `for key in keys.iter().rev() { self.key_up(*key)?; }`: the keys released last one first. */
    method KeysUpReversed(keys: seq<Key>) returns (r: Outcome<DeviceError>)
      modifies device
      ensures Ran(device, old(device.State()), UpAll(Reverse(keys)), r)
    {
      r := KeysUp(Reverse(keys));
    }

    /** Presses the keys in order, then releases them in reverse. */
    method Chord(keys: seq<Key>) returns (r: Outcome<DeviceError>)
      modifies device
      ensures Ran(device, old(device.State()), PressProgram(keys), r)
    {
      ghost var s0 := device.State();
      r := KeysDown(keys);
      if r.Fail? {
        DoneStop(device.fault, s0, DownAll(keys), device.State(), UpAll(Reverse(keys)), r);
        return;
      }
      ghost var s1 := device.State();
      r := KeysUpReversed(keys);
      DoneThen(device.fault, s0, DownAll(keys), s1, UpAll(Reverse(keys)), device.State(), r);
    }

    /**
     * `press_key`: the combination is parsed before anything is written, so a name
     * that is no key leaves the device untouched.
     */
    method PressKey(keyCombination: string) returns (r: Outcome<DeviceError>)
      modifies device
      ensures ParseCombination(keyCombination).Failure? ==>
        r == Fail(UnknownKeyName(ParseCombination(keyCombination).error.part)) && device.State() == old(device.State())
      ensures ParseCombination(keyCombination).Success? ==>
        Ran(device, old(device.State()), PressProgram(ParseCombination(keyCombination).value), r)
    {
      var parsed := ParseKeyCombination(keyCombination);
      if parsed.Failure? {
        return Fail(UnknownKeyName(parsed.error.part));
      }
      r := Chord(parsed.value);
    }

    /**
     * `hold_key`: as `press_key`, with the keys held for `duration` between pressing and
     * releasing; the wait itself writes nothing.
     */
    method HoldKey(keyCombination: string, duration: nat) returns (r: Outcome<DeviceError>)
      modifies device
      ensures ParseCombination(keyCombination).Failure? ==>
        r == Fail(UnknownKeyName(ParseCombination(keyCombination).error.part)) && device.State() == old(device.State())
      ensures ParseCombination(keyCombination).Success? ==>
        Ran(device, old(device.State()), PressProgram(ParseCombination(keyCombination).value), r)
    {
      var parsed := ParseKeyCombination(keyCombination);
      if parsed.Failure? {
        return Fail(UnknownKeyName(parsed.error.part));
      }
      var keys := parsed.value;
      ghost var s0 := device.State();
      r := KeysDown(keys);
      if r.Fail? {
        DoneStop(device.fault, s0, DownAll(keys), device.State(), UpAll(Reverse(keys)), r);
        return;
      }
      ghost var s1 := device.State();
      r := KeysUpReversed(keys);
      DoneThen(device.fault, s0, DownAll(keys), s1, UpAll(Reverse(keys)), device.State(), r);
    }

    /** The body of `type_text`'s loop for a character whose keys are `keys`. */
    method TypeKeys(keys: seq<Key>) returns (r: Outcome<DeviceError>)
      modifies device
      ensures Ran(device, old(device.State()), CharProgram(keys), r)
    {
      ghost var s0 := device.State();
      if keys == [] {
        TransitionEmpty(device.fault, s0);
        return Pass;
      }
      var mods := keys[..|keys| - 1];
      var main := keys[|keys| - 1];
      ghost var p1 := DownAll(mods);
      ghost var p2 := p1 + KeyDownWrite(main);
      ghost var p3 := p2 + KeyUpWrite(main);
      ghost var p4 := UpAll(Reverse(mods));
      assert p3 + p4 == CharProgram(keys);
      r := KeysDown(mods);
      if r.Fail? {
        DoneStop(device.fault, s0, p1, device.State(), KeyDownWrite(main) + KeyUpWrite(main) + p4, r);
        assert p1 + (KeyDownWrite(main) + KeyUpWrite(main) + p4) == p3 + p4;
        return;
      }
      ghost var s1 := device.State();
      r := KeyDown(main);
      DoneThen(device.fault, s0, p1, s1, KeyDownWrite(main), device.State(), r);
      if r.Fail? {
        DoneStop(device.fault, s0, p2, device.State(), KeyUpWrite(main) + p4, r);
        assert p2 + (KeyUpWrite(main) + p4) == p3 + p4;
        return;
      }
      ghost var s2 := device.State();
      r := KeyUp(main);
      DoneThen(device.fault, s0, p2, s2, KeyUpWrite(main), device.State(), r);
      if r.Fail? {
        DoneStop(device.fault, s0, p3, device.State(), p4, r);
        return;
      }
      ghost var s3 := device.State();
      r := KeysUpReversed(mods);
      DoneThen(device.fault, s0, p3, s3, p4, device.State(), r);
    }

    /**
     * `type_text`: each character in turn is typed as the keys `char_to_keys` gives it;
     * characters without keys are skipped. `upper` says which characters outside ASCII
     * are uppercase.
     */
    method TypeText(text: string, upper: CaseTable) returns (r: Outcome<DeviceError>)
      modifies device
      ensures Ran(device, old(device.State()), TypeProgram(text, upper), r)
    {
      ghost var s0 := device.State();
      TransitionEmpty(device.fault, s0);
      var i := 0;
      while i < |text|
        invariant 0 <= i <= |text|
        invariant Done(device.fault, s0, TypeProgram(text[..i], upper), device.State(), Pass)
      {
        var keys := CharToKeys(text[i], upper);
        ghost var s1 := device.State();
        r := TypeKeys(keys);
        assert CharSteps(upper)(text[i]) == CharProgram(keys);
        TypeProgramStep(text, i, upper);
        if r.Fail? {
          DoneStop(device.fault, s1, CharProgram(keys), device.State(), TypeProgram(text[i + 1..], upper), r);
          DoneThen(device.fault, s0, TypeProgram(text[..i], upper), s1, CharProgram(keys) + TypeProgram(text[i + 1..], upper), device.State(), r);
          TypeProgramSplit(text, i, upper);
          return;
        }
        DoneThen(device.fault, s0, TypeProgram(text[..i], upper), s1, CharProgram(keys), device.State(), r);
        i := i + 1;
      }
      assert text[..i] == text;
      r := Pass;
    }
  }
}
