/**
 * The single-window environment of the Rust implementation: the agent sees and acts on
 * one X11 window. Coordinates are relative to the window, checked against its
 * geometry as the X server reports it at the moment of the call and then offset by the
 * window's origin; the window is kept above all others while the environment lives.
 */
module SingleWindow {
  import opened Wrappers
  import opened InputEvents
  import opened Device
  import opened KeyMap
  import opened Text
  import Agent

  /** X11's `i16` and `u16`, the types of a window's origin and size. */
  type I16 = x: int | -0x8000 <= x < 0x8000
  type U16 = x: int | 0 <= x < 0x1_0000

  datatype Geometry = Geometry(x: I16, y: I16, width: U16, height: U16)

  // ---------------------------------------------------------------- the X connection

  datatype AtomName = NetWmStateAbove | NetWmState | NetWmName | Utf8String

  datatype EventMaskBit = SubstructureRedirect | SubstructureNotify

  /** A 32-bit-format client message: a window, a message type and five data words. */
  datatype ClientMessage = ClientMessage(format: nat, window: U32, messageType: U32, data: seq<U32>)

  /** The requests the environment sends to the X server. */
  datatype XRequest =
    | InternAtom(name: AtomName)
    | SendEvent(propagate: bool, destination: U32, mask: set<EventMaskBit>, message: ClientMessage)
    | Flush
    | GetGeometry(window: U32)
    | GetProperty(window: U32, property: U32, propertyType: U32, offset: nat, length: nat)

  /**
   * What the server answers: an error, an atom, a bare acknowledgement, a geometry, or a
   * property value that either is valid UTF-8 (`Some`) or is not (`None`).
   */
  datatype XAnswer = Refused | Atom(atom: U32) | Done | Shape(geometry: Geometry) | Property(text: Option<string>)

  /** The `m`-th answer; a server that has gone away refuses everything. */
  function AnswerAt(answers: seq<XAnswer>, m: nat): XAnswer
  {
    if m < |answers| then answers[m] else Refused
  }

  /** The connection to the X server: the log of requests sent, answered from a script. */
  class XConnection {
    var log: seq<XRequest>
    const answers: seq<XAnswer>
    /** The root window of the first screen. */
    const root: U32

    constructor (answers: seq<XAnswer>, root: U32)
      ensures log == [] && this.answers == answers && this.root == root
    {
      log := [];
      this.answers := answers;
      this.root := root;
    }

    method Request(q: XRequest) returns (a: XAnswer)
      modifies this
      ensures log == old(log) + [q]
      ensures a == AnswerAt(answers, |old(log)|)
    {
      a := AnswerAt(answers, |log|);
      log := log + [q];
    }
  }

  datatype EnvError =
    | XFailed(request: XRequest)
    | NameUndecodable
    | OutOfWindow(x: U32, y: U32, width: U16, height: U16)
    | DeviceFailed(error: DeviceError)
    | CaptureFailed

  /** A device outcome as the environment reports it. */
  function Lift(r: Outcome<DeviceError>): (l: Outcome<EnvError>)
    ensures l.Pass? <==> r.Pass?
  {
    if r.Fail? then Fail(DeviceFailed(r.error)) else Pass
  }

  /** What a series of requests sent and how it ended. */
  datatype XRun<T> = XRun(requests: seq<XRequest>, result: Result<T, EnvError>)

  // ---------------------------------------------------------------- always on top

  const AboveMask: set<EventMaskBit> := {SubstructureRedirect, SubstructureNotify}

  /** The data words of a `_NET_WM_STATE` message: add (1) or remove (0) the `above` state. */
  function OnTopWords(onTop: bool, above: U32): seq<U32>
  {
    [if onTop then 1 else 0, above, 0, 1, 0]
  }

  /**
   * `set_always_on_top` for the window `window` (single_window.rs, lines 35-66): intern
   * the two atoms, send the client message to the root window and flush; the first
   * request that fails is the error.
   */
  function OnTopRun(answers: seq<XAnswer>, m: nat, window: U32, root: U32, onTop: bool): XRun<()>
  {
    var above := AnswerAt(answers, m);
    if !above.Atom? then XRun([InternAtom(NetWmStateAbove)], Failure(XFailed(InternAtom(NetWmStateAbove))))
    else
      var state := AnswerAt(answers, m + 1);
      var interned := [InternAtom(NetWmStateAbove), InternAtom(NetWmState)];
      if !state.Atom? then XRun(interned, Failure(XFailed(InternAtom(NetWmState))))
      else
        var send := SendEvent(false, root, AboveMask, ClientMessage(32, window, state.atom, OnTopWords(onTop, above.atom)));
        if !AnswerAt(answers, m + 2).Done? then XRun(interned + [send], Failure(XFailed(send)))
        else if !AnswerAt(answers, m + 3).Done? then XRun(interned + [send, Flush], Failure(XFailed(Flush)))
        else XRun(interned + [send, Flush], Success(()))
  }

  /**
   * The `above` state is asked for with the words `[action, ABOVE, 0, 1, 0]`, the action
   * being 1 exactly to add it, sent to the root window with the substructure masks and
   * flushed; the request succeeds exactly when all four requests do, and a failure is
   * the last request sent.
   */
  lemma OnTopMessage(answers: seq<XAnswer>, m: nat, window: U32, root: U32, onTop: bool)
    ensures var run := OnTopRun(answers, m, window, root, onTop);
      && 1 <= |run.requests| <= 4
      && run.requests[0] == InternAtom(NetWmStateAbove)
      && (run.result.Failure? ==>
            run.result.error == XFailed(run.requests[|run.requests| - 1]))
      && (run.result.Success? <==>
            AnswerAt(answers, m).Atom? && AnswerAt(answers, m + 1).Atom?
            && AnswerAt(answers, m + 2).Done? && AnswerAt(answers, m + 3).Done?)
      && (run.result.Success? ==>
            && run.requests[1] == InternAtom(NetWmState)
            && run.requests[3] == Flush
            && var message := run.requests[2].message;
            && run.requests[2] == SendEvent(false, root, AboveMask, message)
            && message.format == 32 && message.window == window
            && message.messageType == AnswerAt(answers, m + 1).atom
            && |message.data| == 5
            && (message.data[0] == 1 <==> onTop) && (message.data[0] == 0 <==> !onTop)
            && message.data[1] == AnswerAt(answers, m).atom
            && message.data[2..] == [0, 1, 0])
  {
  }

  // ---------------------------------------------------------------- window queries

  /** The geometry request and its answer. */
  function GeometryRun(answers: seq<XAnswer>, m: nat, window: U32): XRun<Geometry>
  {
    var a := AnswerAt(answers, m);
    XRun([GetGeometry(window)], if a.Shape? then Success(a.geometry) else Failure(XFailed(GetGeometry(window))))
  }

  /** `get_xwindow_name` (lines 68-88): `_NET_WM_NAME` read as UTF-8 text, at most 1024 units long. */
  function NameRun(answers: seq<XAnswer>, m: nat, window: U32): XRun<string>
  {
    var name := AnswerAt(answers, m);
    if !name.Atom? then XRun([InternAtom(NetWmName)], Failure(XFailed(InternAtom(NetWmName))))
    else
      var utf8 := AnswerAt(answers, m + 1);
      if !utf8.Atom? then XRun([InternAtom(NetWmName), InternAtom(Utf8String)], Failure(XFailed(InternAtom(Utf8String))))
      else
        var get := GetProperty(window, name.atom, utf8.atom, 0, 1024);
        var value := AnswerAt(answers, m + 2);
        var requests := [InternAtom(NetWmName), InternAtom(Utf8String), get];
        if !value.Property? then XRun(requests, Failure(XFailed(get)))
        else if value.text.None? then XRun(requests, Failure(NameUndecodable))
        else XRun(requests, Success(value.text.value))
  }

  const UnknownWindowName: string := "Unknown window name"

  /** `name` (lines 93-99): the window's name, or a fixed text whenever it cannot be read. */
  function WindowName(answers: seq<XAnswer>, m: nat, window: U32): (name: string)
    ensures NameRun(answers, m, window).result.Failure? ==> name == UnknownWindowName
    ensures NameRun(answers, m, window).result.Success? ==> name == NameRun(answers, m, window).result.value
    ensures (AnswerAt(answers, m).Atom? && AnswerAt(answers, m + 1).Atom?
             && AnswerAt(answers, m + 2).Property? && AnswerAt(answers, m + 2).text.Some?) ==>
            name == AnswerAt(answers, m + 2).text.value
    ensures !AnswerAt(answers, m).Atom? ==> name == UnknownWindowName
  {
    var run := NameRun(answers, m, window);
    if run.result.Success? then run.result.value else UnknownWindowName
  }

  /** `geom.x as u32`: an `i16` sign-extended and read as `u32`. */
  function OriginAsU32(v: I16): (u: U32)
    ensures v >= 0 ==> u == v
    ensures v < 0 ==> u == v + 0x1_0000_0000
  {
    if v >= 0 then v else v + 0x1_0000_0000
  }

  /** `a + b` on `u32`, wrapping as a release build does. */
  function AddU32(a: U32, b: U32): (s: U32)
    ensures (s - (a + b)) % 0x1_0000_0000 == 0
  {
    (a + b) % 0x1_0000_0000
  }

  /**
   * Where `mouse_move(x, y)` puts the pointer (lines 127-131): a point outside the
   * window is refused, one inside it is offset by the window's origin.
   */
  function MoveTarget(g: Geometry, x: U32, y: U32): (r: Result<(U32, U32), EnvError>)
    ensures r.Success? <==> x < g.width && y < g.height
    ensures r.Failure? ==> r.error == OutOfWindow(x, y, g.width, g.height)
  {
    if x >= g.width || y >= g.height then Failure(OutOfWindow(x, y, g.width, g.height))
    else Success((AddU32(OriginAsU32(g.x), x), AddU32(OriginAsU32(g.y), y)))
  }

  /**
   * The absolute position the device is given is the window's origin plus the point,
   * also for a window whose origin lies left of or above the screen: the wrapped sum,
   * read back as `i32` by the device, is the exact one.
   */
  lemma MoveTargetOffset(g: Geometry, x: U32, y: U32)
    requires x < g.width && y < g.height
    ensures var p := MoveTarget(g, x, y).value;
      U32AsI32(p.0) == g.x + x && U32AsI32(p.1) == g.y + y
    ensures var p := MoveTarget(g, x, y).value;
      Events(MoveProgram(p.0, p.1)) == [AbsX(g.x + x), AbsY(g.y + y), Sync]
  {
    WrapOffset(g.x, x);
    WrapOffset(g.y, y);
  }

  lemma WrapOffset(o: I16, v: U32)
    requires v < 0x1_0000
    ensures U32AsI32(AddU32(OriginAsU32(o), v)) == o + v
  {
    if o < 0 && o + v < 0 {
      assert AddU32(OriginAsU32(o), v) == o + v + 0x1_0000_0000;
    } else if o < 0 {
      assert AddU32(OriginAsU32(o), v) == o + v;
    }
  }

  datatype Rect = Rect(x: U32, y: U32, width: U32, height: U32)

  /** The rectangle the screenshot crops the monitor's image to (line 117). */
  function CropRect(g: Geometry): (r: Rect)
    ensures r.width == g.width && r.height == g.height
    ensures g.x >= 0 && g.y >= 0 ==> r == Rect(g.x, g.y, g.width, g.height)
  {
    Rect(OriginAsU32(g.x), OriginAsU32(g.y), g.width, g.height)
  }

  /** A screenshot of the window: the monitor's image and the part of it that is the window. */
  datatype Cropped = Cropped(monitor: Agent.Picture, region: Rect)

  // ---------------------------------------------------------------- the environment

  class SingleWindowEnvironment {
    const conn: XConnection
    const mouse: MouseDevice
    const keyboard: KeyboardDevice
    const windowId: U32

    constructor (conn: XConnection, mouse: MouseDevice, keyboard: KeyboardDevice, windowId: U32)
      ensures this.conn == conn && this.mouse == mouse && this.keyboard == keyboard && this.windowId == windowId
    {
      this.conn := conn;
      this.mouse := mouse;
      this.keyboard := keyboard;
      this.windowId := windowId;
    }

    method SetAlwaysOnTop(onTop: bool) returns (r: Outcome<EnvError>)
      modifies conn
      ensures var run := OnTopRun(conn.answers, |old(conn.log)|, windowId, conn.root, onTop);
        conn.log == old(conn.log) + run.requests && r == (if run.result.Success? then Pass else Fail(run.result.error))
    {
      var above := conn.Request(InternAtom(NetWmStateAbove));
      if !above.Atom? {
        return Fail(XFailed(InternAtom(NetWmStateAbove)));
      }
      var state := conn.Request(InternAtom(NetWmState));
      if !state.Atom? {
        return Fail(XFailed(InternAtom(NetWmState)));
      }
      var send := SendEvent(false, conn.root, AboveMask, ClientMessage(32, windowId, state.atom, OnTopWords(onTop, above.atom)));
      var sent := conn.Request(send);
      if !sent.Done? {
        return Fail(XFailed(send));
      }
      var flushed := conn.Request(Flush);
      if !flushed.Done? {
        return Fail(XFailed(Flush));
      }
      r := Pass;
    }

    /** `Drop` (lines 155-158): retract the `above` state; an error is ignored. */
    method Drop()
      modifies conn
      ensures conn.log == old(conn.log) + OnTopRun(conn.answers, |old(conn.log)|, windowId, conn.root, false).requests
    {
      var _ := SetAlwaysOnTop(false);
    }

    method Name() returns (name: string)
      modifies conn
      ensures conn.log == old(conn.log) + NameRun(conn.answers, |old(conn.log)|, windowId).requests
      ensures name == WindowName(conn.answers, |old(conn.log)|, windowId)
    {
      var nameAtom := conn.Request(InternAtom(NetWmName));
      if !nameAtom.Atom? {
        return UnknownWindowName;
      }
      var utf8 := conn.Request(InternAtom(Utf8String));
      if !utf8.Atom? {
        return UnknownWindowName;
      }
      var value := conn.Request(GetProperty(windowId, nameAtom.atom, utf8.atom, 0, 1024));
      if value.Property? && value.text.Some? {
        name := value.text.value;
      } else {
        name := UnknownWindowName;
      }
    }

    /** The window's geometry, asked afresh. */
    method QueryGeometry() returns (r: Result<Geometry, EnvError>)
      modifies conn
      ensures var run := GeometryRun(conn.answers, |old(conn.log)|, windowId);
        conn.log == old(conn.log) + run.requests && r == run.result
    {
      var a := conn.Request(GetGeometry(windowId));
      r := if a.Shape? then Success(a.geometry) else Failure(XFailed(GetGeometry(windowId)));
    }

    method Width() returns (r: Result<U32, EnvError>)
      modifies conn
      ensures var run := GeometryRun(conn.answers, |old(conn.log)|, windowId);
        && conn.log == old(conn.log) + [GetGeometry(windowId)]
        && r == if run.result.Success? then Success(run.result.value.width as U32) else Failure(run.result.error)
    {
      var g := QueryGeometry();
      r := if g.Success? then Success(g.value.width as U32) else Failure(g.error);
    }

    method Height() returns (r: Result<U32, EnvError>)
      modifies conn
      ensures var run := GeometryRun(conn.answers, |old(conn.log)|, windowId);
        && conn.log == old(conn.log) + [GetGeometry(windowId)]
        && r == if run.result.Success? then Success(run.result.value.height as U32) else Failure(run.result.error)
    {
      var g := QueryGeometry();
      r := if g.Success? then Success(g.value.height as U32) else Failure(g.error);
    }

    /**
     * `screenshot` (lines 112-123): the geometry is asked first, then the monitor is
     * captured (`capture` is what the capture returns), and the image is cropped to the
     * window's rectangle.
     */
    method Screenshot(capture: Option<Agent.Picture>) returns (r: Result<Cropped, EnvError>)
      modifies conn
      ensures var run := GeometryRun(conn.answers, |old(conn.log)|, windowId);
        && conn.log == old(conn.log) + [GetGeometry(windowId)]
        && (run.result.Failure? ==> r == Failure(run.result.error))
        && (run.result.Success? && capture.None? ==> r == Failure(CaptureFailed))
        && (run.result.Success? && capture.Some? ==> r == Success(Cropped(capture.value, CropRect(run.result.value))))
    {
      var g := QueryGeometry();
      if g.Failure? {
        return Failure(g.error);
      }
      if capture.None? {
        return Failure(CaptureFailed);
      }
      r := Success(Cropped(capture.value, CropRect(g.value)));
    }

    /**
     * `mouse_move(x, y)` with `x` and `y` relative to the window: the geometry is asked
     * afresh; a point outside the window is an error that writes nothing, a point inside
     * it moves the pointer to the window's origin plus the point.
     */
    method MouseMove(x: U32, y: U32) returns (r: Outcome<EnvError>)
      modifies conn, mouse.device
      ensures conn.log == old(conn.log) + [GetGeometry(windowId)]
      ensures var run := GeometryRun(conn.answers, |old(conn.log)|, windowId);
        && (run.result.Failure? ==> r == Fail(run.result.error) && mouse.device.State() == old(mouse.device.State()))
        && (run.result.Success? && MoveTarget(run.result.value, x, y).Failure? ==>
              r == Fail(MoveTarget(run.result.value, x, y).error) && mouse.device.State() == old(mouse.device.State()))
        && (run.result.Success? && MoveTarget(run.result.value, x, y).Success? ==>
              var p := MoveTarget(run.result.value, x, y).value;
              exists d :: Ran(mouse.device, old(mouse.device.State()), MoveProgram(p.0, p.1), d) && r == Lift(d))
    {
      var g := QueryGeometry();
      if g.Failure? {
        return Fail(g.error);
      }
      var target := MoveTarget(g.value, x, y);
      if target.Failure? {
        return Fail(target.error);
      }
      var d := mouse.MouseMove(target.value.0, target.value.1);
      r := Lift(d);
    }

    method LeftClick() returns (r: Outcome<EnvError>)
      modifies mouse.device
      ensures exists d :: Ran(mouse.device, old(mouse.device.State()), ClickProgram(LeftButton), d) && r == Lift(d)
    {
      var d := mouse.LeftClick();
      r := Lift(d);
    }

    method RightClick() returns (r: Outcome<EnvError>)
      modifies mouse.device
      ensures exists d :: Ran(mouse.device, old(mouse.device.State()), ClickProgram(RightButton), d) && r == Lift(d)
    {
      var d := mouse.RightClick();
      r := Lift(d);
    }

    method DoubleClick() returns (r: Outcome<EnvError>)
      modifies mouse.device
      ensures exists d :: Ran(mouse.device, old(mouse.device.State()), DoubleClickProgram(), d) && r == Lift(d)
    {
      var d := mouse.DoubleClick();
      r := Lift(d);
    }

    method TypeText(text: string, upper: CaseTable) returns (r: Outcome<EnvError>)
      modifies keyboard.device
      ensures exists d :: Ran(keyboard.device, old(keyboard.device.State()), TypeProgram(text, upper), d) && r == Lift(d)
    {
      var d := keyboard.TypeText(text, upper);
      r := Lift(d);
    }

    method PressKey(keyCombination: string) returns (r: Outcome<EnvError>)
      modifies keyboard.device
      ensures ParseCombination(keyCombination).Failure? ==>
        r == Fail(DeviceFailed(UnknownKeyName(ParseCombination(keyCombination).error.part)))
        && keyboard.device.State() == old(keyboard.device.State())
      ensures ParseCombination(keyCombination).Success? ==>
        exists d :: Ran(keyboard.device, old(keyboard.device.State()), PressProgram(ParseCombination(keyCombination).value), d) && r == Lift(d)
    {
      var d := keyboard.PressKey(keyCombination);
      r := Lift(d);
    }
  }

  /**
   * `create` (lines 19-33): the environment asks for its window to be kept above the
   * others. When that fails the environment is dropped on the way out, which asks for
   * the `above` state to be removed again.
   */
  method Create(conn: XConnection, mouse: MouseDevice, keyboard: KeyboardDevice, windowId: U32)
    returns (r: Result<SingleWindowEnvironment, EnvError>)
    modifies conn
    ensures var acquire := OnTopRun(conn.answers, |old(conn.log)|, windowId, conn.root, true);
      && (acquire.result.Success? ==>
            && r.Success? && fresh(r.value)
            && r.value.conn == conn && r.value.mouse == mouse && r.value.keyboard == keyboard && r.value.windowId == windowId
            && conn.log == old(conn.log) + acquire.requests)
      && (acquire.result.Failure? ==>
            && r == Failure(acquire.result.error)
            && conn.log == old(conn.log) + acquire.requests
               + OnTopRun(conn.answers, |old(conn.log)| + |acquire.requests|, windowId, conn.root, false).requests)
  {
    var env := new SingleWindowEnvironment(conn, mouse, keyboard, windowId);
    var acquired := env.SetAlwaysOnTop(true);
    if acquired.Fail? {
      env.Drop();
      return Failure(acquired.error);
    }
    r := Success(env);
  }
}
