/**
 * The earlier Python implementation of the input layer (python/mpx.py): screen and
 * device discovery from the text of `xdpyinfo` and `xinput list --short`, the virtual
 * mouse and keyboard writes of `MPXEnvironment`, and the window-relative geometry and
 * always-on-top handling of `WindowMPXEnvironment`.
 *
 * The devices are the `VirtualDevice`s of the Rust model: an `evdev.UInput` write or
 * `syn` is one device write, and a write that fails raises, so every write here is a
 * `Must` step. Subprocesses and X server queries are inputs of the operations that use
 * them.
 */
module PyMpx {
  import opened Wrappers
  import opened Text
  import opened Seqs
  import opened InputEvents
  import opened PyText
  import Device
  import KeyMap
  import XInput
  import SingleWindow

  // ---------------------------------------------------------------------------------
  // Exceptions

  /** The Python exceptions the modelled code raises or lets through. */
  datatype PyError =
    | RuntimeError(message: string)
    | ValueError(message: string)
    | AttributeError(name: string)
    | SubprocessError
    | OSError
    | KeyboardInterrupt

  /** What a failed device write raises: an `OSError` from the kernel, or a `KeyboardInterrupt` taken during it. */
  function RaiseOf(f: Fault): PyError
  {
    if f == IoError then OSError else KeyboardInterrupt
  }

  function Raised(f: Option<Fault>): Outcome<PyError>
  {
    if f.Some? then Fail(RaiseOf(f.value)) else Pass
  }

  /** The device fault an outcome reports, if it reports one. */
  function FaultIn(r: Outcome<PyError>): Option<Fault>
  {
    if r == Fail(OSError) then Some(IoError) else if r == Fail(KeyboardInterrupt) then Some(Interrupt) else None
  }

  /** The device went from `before` to `after` by running `p`, and `r` is how that ended. */
  ghost predicate Wrote(fault: FaultOracle, before: DeviceState, p: seq<Step>, after: DeviceState, r: Outcome<PyError>)
  {
    Transition(fault, before, p, after, FaultIn(r)) && r == Raised(FaultIn(r))
  }

  lemma WroteThen(fault: FaultOracle, s0: DeviceState, p: seq<Step>, s1: DeviceState, q: seq<Step>, s2: DeviceState, r: Outcome<PyError>)
    requires Wrote(fault, s0, p, s1, Pass) && Wrote(fault, s1, q, s2, r)
    ensures Wrote(fault, s0, p + q, s2, r)
  {
    TransitionThen(fault, s0, p, s1, q, s2, FaultIn(r));
  }

  lemma WroteStop(fault: FaultOracle, s0: DeviceState, p: seq<Step>, s1: DeviceState, q: seq<Step>, r: Outcome<PyError>)
    requires Wrote(fault, s0, p, s1, r) && r.Fail?
    ensures Wrote(fault, s0, p + q, s1, r)
  {
    TransitionStop(fault, s0, p, s1, q, FaultIn(r).value);
  }

  /** One `ui.write(...)` or `ui.syn()`; an exception it raises ends the calling operation. */
  method Emit(d: VirtualDevice, e: Event) returns (r: Outcome<PyError>)
    modifies d
    ensures Wrote(d.fault, old(d.State()), [Must(e)], d.State(), r)
  {
    var f := d.Write(e);
    r := Raised(f);
  }

  /** `ui.write(...)` followed by `ui.syn()`. */
  method EmitSynced(d: VirtualDevice, e: Event) returns (r: Outcome<PyError>)
    modifies d
    ensures Wrote(d.fault, old(d.State()), [Must(e), Must(Sync)], d.State(), r)
  {
    ghost var s0 := d.State();
    r := Emit(d, e);
    ghost var s1 := d.State();
    if r.Fail? {
      WroteStop(d.fault, s0, [Must(e)], s1, [Must(Sync)], r);
      return;
    }
    r := Emit(d, Sync);
    WroteThen(d.fault, s0, [Must(e)], s1, [Must(Sync)], d.State(), r);
  }

  // ---------------------------------------------------------------------------------
  // Screen resolution (python/mpx.py, lines 14-26)

  /** A finished child process: its exit status and what it wrote to standard output. */
  datatype Completed = Completed(returncode: int, stdout: string)

  const NoResolution: string := "Could not detect screen resolution"

  /**
   * `get_screen_resolution`, given what running `xdpyinfo` gave: the first
   * `dimensions:\s+(\d+)x(\d+)` match, whatever the exit status. A missing match and a
   * `SubprocessError` both become `RuntimeError("Could not detect screen resolution")`;
   * any other exception passes through.
   */
  function ScreenResolution(run: Result<Completed, PyError>): (r: Result<(nat, nat), PyError>)
    ensures r.Success? <==> run.Success? && Search(run.value.stdout, Dimensions).Some?
    ensures r.Success? ==> Search(run.value.stdout, Dimensions) == Some([r.value.0, r.value.1])
    ensures r.Failure? && (run.Success? || run.error == SubprocessError) ==> r.error == RuntimeError(NoResolution)
    ensures run.Failure? && run.error != SubprocessError ==> r == Failure(run.error)
  {
    match run
    case Failure(e) => if e == SubprocessError then Failure(RuntimeError(NoResolution)) else Failure(e)
    case Success(completed) =>
      match Search(completed.stdout, Dimensions)
      case None => Failure(RuntimeError(NoResolution))
      case Some(groups) => Success((groups[0], groups[1]))
  }

  /** The exit status of `xdpyinfo` plays no part: only its output is read. */
  lemma ResolutionIgnoresStatus(a: int, b: int, stdout: string)
    ensures ScreenResolution(Success(Completed(a, stdout))) == ScreenResolution(Success(Completed(b, stdout)))
  {
  }

  /**
   * A `dimensions:` line after text that does not itself hold the keyword gives the
   * width and height it spells, followed by anything that does not continue the number.
   */
  lemma ResolutionOfDimensionsLine(status: int, pre: string, width: nat, height: nat, gap: string, rest: string)
    requires !Contains(pre + "dimensions", "dimensions:")
    requires gap != [] && forall j :: 0 <= j < |gap| ==> IsPySpace(gap[j])
    requires rest == [] || !IsAsciiDigit(rest[0])
    ensures var out := pre + "dimensions:" + gap + DecimalString(width) + "x" + DecimalString(height) + rest;
      ScreenResolution(Success(Completed(status, out))) == Success((width, height))
  {
    DimensionsAfter(pre, width, height, gap, rest);
  }

  /** Output without the keyword `dimensions:` fails with the resolution error. */
  lemma ResolutionNeedsKeyword(status: int, out: string)
    requires !Contains(out, "dimensions:")
    ensures ScreenResolution(Success(Completed(status, out))) == Failure(RuntimeError(NoResolution))
  {
    NoMatchWithoutKeyword(out, Dimensions);
  }

  // ---------------------------------------------------------------------------------
  // Device ids (python/mpx.py, lines 29-42)

  const XInputFailed: string := "Failed to run xinput"

  /** A line names the device: in its first tab-separated field (exact mode), or anywhere. */
  predicate NamesDevice(line: string, name: string, exact: bool)
  {
    if exact then Contains(Split(line, '\t')[0], name) else Contains(line, name)
  }

  /** A line `get_device_id` returns from: it names the device and holds `id=(\d+)`. */
  predicate IsIdLine(line: string, name: string, exact: bool)
  {
    NamesDevice(line, name, exact) && Search(line, DeviceId).Some?
  }

  function IdLine(name: string, exact: bool): string -> bool
  {
    line => IsIdLine(line, name, exact)
  }

  /** The id on the first line that names the device and holds an id. */
  function DeviceIdIn(lines: seq<string>, name: string, exact: bool): (id: Option<nat>)
    ensures id.None? <==> forall i :: 0 <= i < |lines| ==> !IsIdLine(lines[i], name, exact)
    ensures id.Some? ==>
              exists i :: 0 <= i < |lines| && IsIdLine(lines[i], name, exact) &&
                Search(lines[i], DeviceId) == Some([id.value]) && (forall j :: 0 <= j < i ==> !IsIdLine(lines[j], name, exact))
  {
    var i := XInput.FirstWhere(lines, IdLine(name, exact));
    if i == |lines| then None else Some(Search(lines[i], DeviceId).value[0])
  }

  /**
   * `get_device_id`, given what running `xinput list --short` under `check_output`
   * gave: a non-zero exit status is `RuntimeError("Failed to run xinput")`, an exception
   * from starting the process passes through, and otherwise the id of the first line
   * that names the device and holds an id, if there is one.
   */
  function DeviceIdResult(run: Result<Completed, PyError>, name: string, exact: bool): (r: Result<Option<nat>, PyError>)
    ensures r.Success? <==> run.Success? && run.value.returncode == 0
    ensures r.Success? ==> r.value == DeviceIdIn(PySplitLines(run.value.stdout), name, exact)
    ensures run.Success? && run.value.returncode != 0 ==> r == Failure(RuntimeError(XInputFailed))
    ensures run.Failure? ==> r == Failure(run.error)
  {
    match run
    case Failure(e) => Failure(e)
    case Success(completed) =>
      if completed.returncode != 0 then Failure(RuntimeError(XInputFailed))
      else Success(DeviceIdIn(PySplitLines(completed.stdout), name, exact))
  }

  /** The loop of `get_device_id`: the first line that names the device and holds an id returns it. */
  method GetDeviceId(run: Result<Completed, PyError>, name: string, exact: bool) returns (r: Result<Option<nat>, PyError>)
    ensures r == DeviceIdResult(run, name, exact)
  {
    if run.Failure? {
      return Failure(run.error);
    }
    if run.value.returncode != 0 {
      return Failure(RuntimeError(XInputFailed));
    }
    var id := ScanLines(PySplitLines(run.value.stdout), name, exact);
    return Success(id);
  }

  /** The `for line in output.splitlines()` loop of `get_device_id`, with its early return. */
  method ScanLines(lines: seq<string>, name: string, exact: bool) returns (id: Option<nat>)
    ensures id == DeviceIdIn(lines, name, exact)
  {
    var i := 0;
    while i < |lines|
      invariant i <= |lines|
      invariant forall j :: 0 <= j < i ==> !IsIdLine(lines[j], name, exact)
    {
      var line := lines[i];
      if NamesDevice(line, name, exact) {
        var found := Search(line, DeviceId);
        if found.Some? {
          FirstIdLine(lines, i, name, exact);
          return Some(found.value[0]);
        }
      }
      NotIdLine(line, name, exact);
      i := i + 1;
    }
    NoIdLine(lines, name, exact);
    return None;
  }

  lemma NotIdLine(line: string, name: string, exact: bool)
    requires !NamesDevice(line, name, exact) || Search(line, DeviceId).None?
    ensures !IsIdLine(line, name, exact)
  {
  }

  lemma NoIdLine(lines: seq<string>, name: string, exact: bool)
    requires forall j :: 0 <= j < |lines| ==> !IsIdLine(lines[j], name, exact)
    ensures DeviceIdIn(lines, name, exact) == None
  {
  }

  lemma FirstIdLine(lines: seq<string>, i: nat, name: string, exact: bool)
    requires i < |lines| && IsIdLine(lines[i], name, exact)
    requires forall j :: 0 <= j < i ==> !IsIdLine(lines[j], name, exact)
    ensures Search(lines[i], DeviceId).Some? && DeviceIdIn(lines, name, exact) == Some(Search(lines[i], DeviceId).value[0])
  {
    assert XInput.FirstWhere(lines, IdLine(name, exact)) == i;
  }

  /** The first field of a line is everything before its first tab. */
  lemma {:induction false} FirstField(field: string, rest: string)
    requires '\t' !in field
    ensures Split(field + "\t" + rest, '\t')[0] == field
    decreases |field|
  {
    var s := field + "\t" + rest;
    if field == [] {
      assert s[0] == '\t';
    } else {
      assert s[1..] == field[1..] + "\t" + rest;
      FirstField(field[1..], rest);
    }
  }

  /** In exact mode only the first field counts: a name after the tab is not a match. */
  lemma ExactMatchesFirstField(field: string, rest: string, name: string)
    requires '\t' !in field
    ensures NamesDevice(field + "\t" + rest, name, true) <==> Contains(field, name)
  {
    FirstField(field, rest);
  }

  /**
   * A line of the form `<field>\t... id=<n>...` whose first field holds the name, after
   * lines none of which counts, gives `n`; `id=` must not occur earlier on the line.
   */
  lemma DeviceIdFromListing(before: seq<string>, field: string, pre: string, n: nat, rest: string, after: seq<string>, name: string)
    requires forall j :: 0 <= j < |before| ==> !IsIdLine(before[j], name, true)
    requires '\t' !in field && Contains(field, name)
    requires !Contains(field + "\t" + pre + "id", "id=")
    requires rest == [] || !IsAsciiDigit(rest[0])
    ensures DeviceIdIn(before + [field + "\t" + pre + "id=" + DecimalString(n) + rest] + after, name, true) == Some(n)
  {
    var line := field + "\t" + pre + "id=" + DecimalString(n) + rest;
    var lines := before + [line] + after;
    assert line == field + "\t" + (pre + "id=" + DecimalString(n) + rest);
    ExactMatchesFirstField(field, pre + "id=" + DecimalString(n) + rest, name);
    assert line == (field + "\t" + pre) + "id=" + DecimalString(n) + rest;
    DeviceIdAfter(field + "\t" + pre, n, rest);
    assert lines[|before|] == line;
    assert IsIdLine(lines[|before|], name, true);
    forall j | 0 <= j < |before|
      ensures !IsIdLine(lines[j], name, true)
    {
      assert lines[j] == before[j];
    }
    FirstIdLine(lines, |before|, name, true);
  }

  /** A line that names the device but holds no id is passed over. */
  lemma LineWithoutIdSkipped(line: string, lines: seq<string>, name: string, exact: bool)
    requires Search(line, DeviceId).None?
    ensures DeviceIdIn([line] + lines, name, exact) == DeviceIdIn(lines, name, exact)
  {
    var all := [line] + lines;
    assert all[1..] == lines;
  }
  // ---------------------------------------------------------------------------------
  // Key names (python/mpx.py, lines 328-398)

  /** How `keypress` treats one key name: press a key, warn and skip it, or raise. */
  datatype KeyChoice = Press(key: Key) | Unhandled | Raises(error: PyError)

  /**
   * What Python's Unicode tables decide outside ASCII, which is not written out here:
   * which characters `str.isupper` accepts, the key `getattr(e, 'KEY_' + c.upper(), None)`
   * finds for a character, and how `keypress` treats a name whose lowercase form holds a
   * character outside ASCII in a position where `isalnum`, `isalpha`, `isdigit` or `int`
   * would look at it.
   */
  datatype Unicode = Unicode(isUpper: CaseTable, typedKey: char -> Option<Key>, keyChoice: string -> KeyChoice)

  /** The `key_mapping` table of `keypress`. */
  const KeyMapping: map<string, Key> := map[
    "ctrl" := LeftControl, "alt" := LeftAlt, "shift" := LeftShift, "super" := LeftMeta,
    "tab" := Tab, "enter" := Enter, "space" := Space, "backspace" := BackSpace,
    "escape" := Esc, "delete" := Delete, "home" := Home, "end" := End,
    "pageup" := PageUp, "pagedown" := PageDown,
    "up" := ArrowUp, "down" := ArrowDown, "left" := ArrowLeft, "right" := ArrowRight]

  /** The `special_chars` table of `keypress`. */
  const SpecialChars: map<char, Key> := map[
    '.' := Dot, ',' := Comma, ';' := SemiColon, '\'' := Apostrophe, '[' := LeftBrace,
    ']' := RightBrace, '\\' := Backslash, '-' := Minus, '=' := Equal, '/' := Slash]

  predicate IsAscii(s: string)
  {
    forall i :: 0 <= i < |s| ==> s[i] < '\U{0080}'
  }

  /** A one-character ASCII name: a letter, a digit or one of `.,;'[]\-=/`, else a warning. */
  function CharChoice(c: char): KeyChoice
  {
    if 'a' <= c <= 'z' then Press(Letter((c as int - 32) as char))
    else if IsAsciiDigit(c) then Press(Digit(DigitValue(c)))
    else if c in SpecialChars then Press(SpecialChars[c])
    else Unhandled
  }

  /**
   * `key.startswith('f') and key[1:].isdigit() and 1 <= int(key[1:]) <= 12`, then
   * `getattr(e, f'KEY_F{key[1:]}')`: only the plain spelling of the number names a key,
   * so a leading zero raises `AttributeError`.
   */
  function FunctionKeyChoice(digits: string): KeyChoice
  {
    if digits == [] || !AllAsciiDigits(digits) then Unhandled
    else
      var v := DecimalValue(digits);
      if !(1 <= v <= 12) then Unhandled
      else if digits == DecimalString(v) then Press(F(v))
      else Raises(AttributeError("KEY_F" + digits))
  }

  /** How `keypress` treats the name `key`, which it lowercases first. */
  function ChoiceOf(key: string, u: Unicode): KeyChoice
  {
    var k := RustLower(key);
    if |k| >= 1 && !IsAscii(k) && (|k| == 1 || k[0] == 'f') then u.keyChoice(key)
    else if |k| == 1 then CharChoice(k[0])
    else if k in KeyMapping then Press(KeyMapping[k])
    else if |k| > 1 && k[0] == 'f' then FunctionKeyChoice(k[1..])
    else Unhandled
  }

  /** A name of at least two lowercase ASCII letters that does not start with `f`. */
  predicate PlainName(k: string)
  {
    |k| >= 2 && k[0] != 'f' && forall i :: 0 <= i < |k| ==> 'a' <= k[i] <= 'z'
  }

  lemma MappingNamesA(k: string)
    requires k == "ctrl" || k == "alt" || k == "shift" || k == "super" || k == "tab" || k == "enter"
    ensures PlainName(k)
  {
  }

  lemma MappingNamesB(k: string)
    requires k == "space" || k == "backspace" || k == "escape" || k == "delete" || k == "home" || k == "end"
    ensures PlainName(k)
  {
  }

  lemma MappingNamesC(k: string)
    requires k == "pageup" || k == "pagedown" || k == "up" || k == "down" || k == "left" || k == "right"
    ensures PlainName(k)
  {
  }

  /** Every name of `key_mapping` is lowercase ASCII, longer than one character, and not an `f` name. */
  lemma MappingNames(k: string)
    requires k in KeyMapping
    ensures PlainName(k)
  {
    if k == "ctrl" || k == "alt" || k == "shift" || k == "super" || k == "tab" || k == "enter" {
      MappingNamesA(k);
    } else if k == "space" || k == "backspace" || k == "escape" || k == "delete" || k == "home" || k == "end" {
      MappingNamesB(k);
    } else {
      MappingNamesC(k);
    }
  }

  lemma PlainNameFacts(k: string)
    requires PlainName(k)
    ensures IsAscii(k) && RustLower(k) == k
  {
    RustLowerOfLowercase(k);
  }

  /** A `key_mapping` name, in any ASCII case, presses its key. */
  lemma MappedNamePressed(key: string, u: Unicode)
    requires RustLower(key) in KeyMapping
    ensures ChoiceOf(key, u) == Press(KeyMapping[RustLower(key)])
  {
    MappingNames(RustLower(key));
    PlainNameFacts(RustLower(key));
  }

  /** A single ASCII letter, digit or listed punctuation character presses its key; its case does not matter. */
  lemma SingleCharacterPressed(c: char, u: Unicode)
    requires c < '\U{0080}'
    ensures ChoiceOf([c], u) == CharChoice(AsciiLower(c))
    ensures 'A' <= c <= 'Z' ==> ChoiceOf([c], u) == Press(Letter(c))
  {
    assert RustLower([c]) == [AsciiLower(c)];
  }

  /** No key of `key_mapping` starts with `f`, so `f` names reach the function-key branch. */
  lemma FunctionNameNotMapped(k: string)
    requires |k| >= 1 && k[0] == 'f'
    ensures k !in KeyMapping
  {
    if k in KeyMapping {
      MappingNames(k);
      assert false;
    }
  }

  /** The lowercase form of an `f` or `F` followed by ASCII digits. */
  lemma FunctionNameLower(upper: bool, digits: string)
    requires AllAsciiDigits(digits)
    ensures var key := [if upper then 'F' else 'f'] + digits;
      RustLower(key) == "f" + digits && IsAscii(RustLower(key))
  {
    var key := [if upper then 'F' else 'f'] + digits;
    var k := RustLower(key);
    assert forall i :: 0 < i < |key| ==> key[i] == digits[i - 1];
    assert k == "f" + digits;
  }

  /** `f1` to `f12`, in either case and spelt without leading zeros, press the function key. */
  lemma FunctionKeyPressed(upper: bool, n: nat, u: Unicode)
    requires 1 <= n <= 12
    ensures ChoiceOf([if upper then 'F' else 'f'] + DecimalString(n), u) == Press(F(n))
  {
    FunctionNameLower(upper, DecimalString(n));
    FunctionNameNotMapped("f" + DecimalString(n));
    DecimalRoundTrip(n);
    assert ("f" + DecimalString(n))[1..] == DecimalString(n);
  }

  /** A function-key number with a leading zero passes the range check, then names no key. */
  lemma FunctionKeyLeadingZero(n: nat, u: Unicode)
    requires 1 <= n <= 9
    ensures ChoiceOf("f0" + DecimalString(n), u) == Raises(AttributeError("KEY_F0" + DecimalString(n)))
  {
    var digits := "0" + DecimalString(n);
    assert "f0" + DecimalString(n) == [(if false then 'F' else 'f')] + digits;
    FunctionNameLower(false, digits);
    FunctionNameNotMapped("f" + digits);
    assert ("f" + digits)[1..] == digits;
    assert DecimalString(n) == [('0' as int + n) as char];
    assert DecimalValue(digits) == n by {
      assert digits[..|digits| - 1] == "0";
      assert DecimalValue("0") == 0;
      assert digits[|digits| - 1] == DecimalString(n)[0];
    }
    assert "KEY_F" + digits == "KEY_F0" + DecimalString(n);
  }

  /** A function-key number above 12 is only warned about. */
  lemma FunctionKeyOutOfRange(n: nat, u: Unicode)
    requires n == 0 || n > 12
    ensures ChoiceOf("f" + DecimalString(n), u) == Unhandled
  {
    assert "f" + DecimalString(n) == [(if false then 'F' else 'f')] + DecimalString(n);
    FunctionNameLower(false, DecimalString(n));
    FunctionNameNotMapped("f" + DecimalString(n));
    assert ("f" + DecimalString(n))[1..] == DecimalString(n);
    DecimalRoundTrip(n);
  }

  /** A lone space is not alphanumeric and not listed, so it is only warned about; the Rust table takes it as Space. */
  lemma LoneSpaceUnhandled(u: Unicode)
    ensures ChoiceOf(" ", u) == Unhandled && KeyMap.KeyByName(" ") == Some(Space)
  {
    SingleCharacterPressed(' ', u);
  }

  /** `ChoiceOf` as the table the `keypress` loop consults. */
  function Choices(u: Unicode): string -> KeyChoice
  {
    name => ChoiceOf(name, u)
  }

  // ---------------------------------------------------------------------------------
  // Keypress (python/mpx.py, lines 349-408)

  /** The keys `keypress` means to press, and the exception that ends the list early, if any. */
  datatype Plan = Plan(keys: seq<Key>, stop: Option<PyError>)

  /** The plan after one more name: its key is added, or its exception ends the list. */
  function PlanStep(p: Plan, name: string, choices: string -> KeyChoice): Plan
  {
    if p.stop.Some? then p
    else match choices(name)
      case Press(k) => Plan(p.keys + [k], None)
      case Unhandled => p
      case Raises(e) => Plan(p.keys, Some(e))
  }

  function KeyPlan(names: seq<string>, choices: string -> KeyChoice): (p: Plan)
    decreases |names|
  {
    if names == [] then Plan([], None)
    else PlanStep(KeyPlan(names[..|names| - 1], choices), names[|names| - 1], choices)
  }

  /**
   * Where the `try` block of `keypress` stands after some names: the keys it has pressed
   * (each down event and its `syn` accepted), the events the device accepted, the writes
   * it made, and the exception that left the block, if one did.
   */
  datatype Pressing = Pressing(pressed: seq<Key>, emitted: seq<Event>, writes: nat, error: Option<PyError>)

  /** One name of the `for` loop, unless an exception has already left the block. */
  function PressStep(b: Pressing, name: string, choices: string -> KeyChoice, fault: FaultOracle): Pressing
  {
    if b.error.Some? then b
    else match choices(name)
      case Press(k) =>
        var run := Exec(KeyDownWrite(k), fault, b.writes);
        if run.fault.None? then Pressing(b.pressed + [k], b.emitted + run.emitted, run.writes, None)
        else Pressing(b.pressed, b.emitted + run.emitted, run.writes, Some(RaiseOf(run.fault.value)))
      case Unhandled => b
      case Raises(e) => Pressing(b.pressed, b.emitted, b.writes, Some(e))
  }

  function PressPhase(names: seq<string>, choices: string -> KeyChoice, fault: FaultOracle, w: nat): (s: Pressing)
    decreases |names|
  {
    if names == [] then Pressing([], [], w, None)
    else PressStep(PressPhase(names[..|names| - 1], choices, fault, w), names[|names| - 1], choices, fault)
  }

  /** What `keypress` did: the events the device accepted, the writes made, and how it ended. */
  datatype Keypressed = Keypressed(emitted: seq<Event>, writes: nat, result: Outcome<PyError>)

  /**
   * `keypress`: the `try` block, then the `finally` block releasing the pressed keys
   * last one first. An exception from the release replaces the one from the `try` block.
   */
  function KeypressRun(names: seq<string>, choices: string -> KeyChoice, fault: FaultOracle, w: nat): Keypressed
  {
    var press := PressPhase(names, choices, fault, w);
    var release := Exec(UpAll(Reverse(press.pressed)), fault, press.writes);
    Keypressed(press.emitted + release.emitted, release.writes,
      if release.fault.Some? then Fail(RaiseOf(release.fault.value))
      else if press.error.Some? then Fail(press.error.value)
      else Pass)
  }

  /** Once the `try` block has raised, the names after it change nothing. */
  lemma {:induction false} PressPhaseStays(names: seq<string>, i: nat, choices: string -> KeyChoice, fault: FaultOracle, w: nat)
    requires i <= |names| && PressPhase(names[..i], choices, fault, w).error.Some?
    ensures PressPhase(names, choices, fault, w) == PressPhase(names[..i], choices, fault, w)
    decreases |names| - i
  {
    if i < |names| {
      assert names[..i + 1][..i] == names[..i];
      PressPhaseStays(names, i + 1, choices, fault, w);
    } else {
      assert names[..i] == names;
    }
  }

  /** The `try` block, `for key in keys:`: presses each recognised key, stopping at the first exception. */
  method PressKeys(d: VirtualDevice, names: seq<string>, choices: string -> KeyChoice) returns (pressed: seq<Key>, failure: Option<PyError>)
    modifies d
    ensures var ph := PressPhase(names, choices, d.fault, old(d.writes));
      && d.trace == old(d.trace) + ph.emitted && d.writes == ph.writes && d.closes == old(d.closes)
      && pressed == ph.pressed && failure == ph.error
  {
    pressed, failure := [], None;
    ghost var w0 := d.writes;
    var i := 0;
    while i < |names| && failure.None?
      invariant i <= |names|
      invariant var ph := PressPhase(names[..i], choices, d.fault, w0);
        && d.trace == old(d.trace) + ph.emitted && d.writes == ph.writes && d.closes == old(d.closes)
        && pressed == ph.pressed && failure == ph.error
    {
      assert names[..i + 1][..i] == names[..i];
      pressed, failure := PressName(d, names[i], choices, pressed, PressPhase(names[..i], choices, d.fault, w0), old(d.trace));
      i := i + 1;
    }
    if i < |names| {
      PressPhaseStays(names, i, choices, d.fault, w0);
    } else {
      assert names[..i] == names;
    }
  }

  /** The body of the `for` loop for one name. */
  method PressName(d: VirtualDevice, name: string, choices: string -> KeyChoice, held: seq<Key>, ghost b: Pressing, ghost t0: seq<Event>)
    returns (pressed: seq<Key>, failure: Option<PyError>)
    requires b.error.None? && b.pressed == held && d.trace == t0 + b.emitted && d.writes == b.writes
    modifies d
    ensures var n := PressStep(b, name, choices, d.fault);
      && d.trace == t0 + n.emitted && d.writes == n.writes && d.closes == old(d.closes)
      && pressed == n.pressed && failure == n.error
  {
    pressed, failure := held, None;
    match choices(name) {
      case Press(k) =>
        var r := EmitSynced(d, KeyDown(k));
        assert t0 + b.emitted + Exec(KeyDownWrite(k), d.fault, b.writes).emitted
          == t0 + (b.emitted + Exec(KeyDownWrite(k), d.fault, b.writes).emitted);
        if r.Pass? {
          pressed := pressed + [k];
        } else {
          failure := Some(r.error);
        }
      case Unhandled =>
      case Raises(e) =>
        failure := Some(e);
    }
  }

  /** The `finally` block: `for key_code in reversed(pressed_keys)`, each key up and a `syn`. */
  method ReleaseReversed(d: VirtualDevice, pressed: seq<Key>) returns (r: Outcome<PyError>)
    modifies d
    ensures Wrote(d.fault, old(d.State()), UpAll(Reverse(pressed)), d.State(), r)
  {
    var keys := Reverse(pressed);
    ghost var s0 := d.State();
    TransitionEmpty(d.fault, s0);
    r := Pass;
    var i := 0;
    while i < |keys|
      invariant i <= |keys| && r == Pass
      invariant Wrote(d.fault, s0, UpAll(keys[..i]), d.State(), Pass)
    {
      ghost var s1 := d.State();
      r := EmitSynced(d, KeyUp(keys[i]));
      WroteThen(d.fault, s0, UpAll(keys[..i]), s1, KeyUpWrite(keys[i]), d.State(), r);
      if r.Fail? {
        WroteStop(d.fault, s0, UpAll(keys[..i]) + KeyUpWrite(keys[i]), d.State(), UpAll(keys[i + 1..]), r);
        UpAllSplit(keys, i);
        return;
      }
      UpAllStep(keys, i);
      i := i + 1;
    }
    assert keys[..i] == keys;
  }
  // ---------------------------------------------------------------------------------
  // What keypress guarantees

  /** The keys planned for a list of names extend the keys planned for any prefix of it. */
  lemma {:induction false} KeyPlanGrows(names: seq<string>, i: nat, choices: string -> KeyChoice)
    requires i <= |names|
    ensures var small, big := KeyPlan(names[..i], choices), KeyPlan(names, choices);
      |small.keys| <= |big.keys| && small.keys == big.keys[..|small.keys|]
      && (small.stop.Some? ==> big == small)
    decreases |names| - i
  {
    if i == |names| {
      assert names[..i] == names;
    } else {
      KeyPlanGrows(names[..|names| - 1], i, choices);
      assert names[..|names| - 1][..i] == names[..i];
    }
  }

  /** Pressing one key more adds its down event and a sync. */
  lemma DownOneMore(keys: seq<Key>, k: Key)
    ensures Events(DownAll(keys + [k])) == Events(DownAll(keys)) + [KeyDown(k), Sync]
  {
    DownAllAppend(keys, [k]);
    assert DownAll([k]) == KeyDownWrite(k) + DownAll([]);
    Device.EventsAppend(DownAll(keys), KeyDownWrite(k));
  }

  /** The three ways a key press with its `syn` can end. */
  lemma ExecKeyDown(k: Key, fault: FaultOracle, v: nat)
    ensures Exec(KeyDownWrite(k), fault, v)
      == if fault(v).Some? then Run([], fault(v), v + 1)
         else if fault(v + 1).Some? then Run([KeyDown(k)], fault(v + 1), v + 2)
         else Run([KeyDown(k), Sync], None, v + 2)
  {
    var p := KeyDownWrite(k);
    assert p[1..] == [Must(Sync)] && p[1..][1..] == [];
    assert Exec([], fault, v + 2) == Run([], None, v + 2);
    var tail := Exec([Must(Sync)], fault, v + 1);
    assert tail == if fault(v + 1).Some? then Run([], fault(v + 1), v + 2) else Run([Sync], None, v + 2);
  }

  /** A key pressed when neither of its writes fails. */
  lemma PressStepFaultFree(b: Pressing, name: string, choices: string -> KeyChoice, fault: FaultOracle, k: Key)
    requires b.error.None? && choices(name) == Press(k)
    requires fault(b.writes).None? && fault(b.writes + 1).None?
    ensures PressStep(b, name, choices, fault) == Pressing(b.pressed + [k], b.emitted + [KeyDown(k), Sync], b.writes + 2, None)
  {
    ExecKeyDown(k, fault, b.writes);
  }

  /**
   * With no failing write, the `try` block presses exactly the planned keys, in order,
   * each followed by a `syn`, and leaves with the planned exception.
   */
  lemma {:induction false} PressPhaseFaultFree(names: seq<string>, choices: string -> KeyChoice, fault: FaultOracle, w: nat)
    requires NoFaults(fault, w, 2 * |KeyPlan(names, choices).keys|)
    ensures var plan := KeyPlan(names, choices);
      PressPhase(names, choices, fault, w) == Pressing(plan.keys, Events(DownAll(plan.keys)), w + 2 * |plan.keys|, plan.stop)
    decreases |names|
  {
    if names != [] {
      var pre, name := names[..|names| - 1], names[|names| - 1];
      var small := KeyPlan(pre, choices);
      KeyPlanGrows(names, |names| - 1, choices);
      PressPhaseFaultFree(pre, choices, fault, w);
      if small.stop.None? && choices(name).Press? {
        var k := choices(name).key;
        var v := w + 2 * |small.keys|;
        assert fault(v).None? && fault(v + 1).None?;
        PressStepFaultFree(PressPhase(pre, choices, fault, w), name, choices, fault, k);
        DownOneMore(small.keys, k);
      }
    }
  }

  /** With no failing write, `keypress` presses the planned keys in order and releases them in reverse. */
  lemma KeypressFaultFree(names: seq<string>, choices: string -> KeyChoice, fault: FaultOracle, w: nat)
    requires NoFaults(fault, w, 4 * |KeyPlan(names, choices).keys|)
    ensures var plan := KeyPlan(names, choices);
      KeypressRun(names, choices, fault, w) == Keypressed(Events(Device.PressProgram(plan.keys)), w + 4 * |plan.keys|,
        if plan.stop.Some? then Fail(plan.stop.value) else Pass)
  {
    var plan := KeyPlan(names, choices);
    var n := |plan.keys|;
    assert NoFaults(fault, w, 2 * n);
    PressPhaseFaultFree(names, choices, fault, w);
    assert NoFaults(fault, w + 2 * n, 2 * n);
    KeypressReleasesPressed(names, choices, fault, w);
    Device.EventsAppend(DownAll(plan.keys), UpAll(Reverse(plan.keys)));
  }

  /**
   * Where the `try` block can stand, whatever the device does: it has pressed a prefix of
   * the planned keys, the device saw those presses and at most the down event of the next
   * planned key, and when nothing was raised every planned key was pressed.
   */
  ghost predicate PressShape(s: Pressing, plan: Plan)
  {
    && |s.pressed| <= |plan.keys| && s.pressed == plan.keys[..|s.pressed|]
    && (|| s.emitted == Events(DownAll(s.pressed))
        || (|s.pressed| < |plan.keys| && s.emitted == Events(DownAll(s.pressed)) + [KeyDown(plan.keys[|s.pressed|])]))
    && (s.error.None? ==> s.pressed == plan.keys && plan.stop.None?)
  }

  lemma {:induction false} PressPhaseShape(names: seq<string>, choices: string -> KeyChoice, fault: FaultOracle, w: nat)
    ensures PressShape(PressPhase(names, choices, fault, w), KeyPlan(names, choices))
    decreases |names|
  {
    if names != [] {
      var pre := names[..|names| - 1];
      PressPhaseShape(pre, choices, fault, w);
      PressShapeStep(PressPhase(pre, choices, fault, w), KeyPlan(pre, choices), names[|names| - 1], choices, fault);
    }
  }

  /** One more name keeps the `try` block where it can stand. */
  lemma PressShapeStep(b: Pressing, p: Plan, name: string, choices: string -> KeyChoice, fault: FaultOracle)
    requires PressShape(b, p)
    ensures PressShape(PressStep(b, name, choices, fault), PlanStep(p, name, choices))
  {
    var plan := PlanStep(p, name, choices);
    assert |p.keys| <= |plan.keys| && p.keys == plan.keys[..|p.keys|];
    if b.error.None? {
      if choices(name).Press? {
        var k := choices(name).key;
        ExecKeyDown(k, fault, b.writes);
        DownOneMore(b.pressed, k);
        assert plan.keys == b.pressed + [k];
      }
    } else {
      assert plan.keys[..|p.keys|][..|b.pressed|] == plan.keys[..|b.pressed|];
    }
  }

  /**
   * The `finally` block releases exactly the keys the `try` block pressed, last one
   * first: when none of its own writes fails, the device sees the presses and then
   * their releases in reverse, and `keypress` raises what the `try` block raised.
   */
  lemma KeypressReleasesPressed(names: seq<string>, choices: string -> KeyChoice, fault: FaultOracle, w: nat)
    requires var press := PressPhase(names, choices, fault, w); NoFaults(fault, press.writes, 2 * |press.pressed|)
    ensures var press := PressPhase(names, choices, fault, w);
      && PressShape(press, KeyPlan(names, choices))
      && KeypressRun(names, choices, fault, w) == Keypressed(press.emitted + Events(UpAll(Reverse(press.pressed))),
        press.writes + 2 * |press.pressed|, if press.error.Some? then Fail(press.error.value) else Pass)
  {
    var press := PressPhase(names, choices, fault, w);
    PressPhaseShape(names, choices, fault, w);
    ExecFaultFree(UpAll(Reverse(press.pressed)), fault, press.writes);
  }

  /** A name `keypress` only warns about is as good as absent: nothing is pressed or released for it. */
  lemma {:induction false} UnhandledNameIgnored(a: seq<string>, name: string, b: seq<string>, choices: string -> KeyChoice, fault: FaultOracle, w: nat)
    requires choices(name) == Unhandled
    ensures PressPhase(a + [name] + b, choices, fault, w) == PressPhase(a + b, choices, fault, w)
    ensures KeypressRun(a + [name] + b, choices, fault, w) == KeypressRun(a + b, choices, fault, w)
    decreases |b|
  {
    var x, y := a + [name] + b, a + b;
    if b == [] {
      assert x[..|x| - 1] == a && y == a;
    } else {
      UnhandledNameIgnored(a, name, b[..|b| - 1], choices, fault, w);
      assert x[..|x| - 1] == a + [name] + b[..|b| - 1];
      assert y[..|y| - 1] == a + b[..|b| - 1];
      assert x[|x| - 1] == y[|y| - 1];
    }
  }

  /** A name that raises ends the `try` block there: the names after it are never looked at. */
  lemma RaisingNameStops(a: seq<string>, name: string, b: seq<string>, choices: string -> KeyChoice, fault: FaultOracle, w: nat)
    requires PressPhase(a, choices, fault, w).error.None? && choices(name).Raises?
    ensures var before := PressPhase(a, choices, fault, w);
      PressPhase(a + [name] + b, choices, fault, w) == before.(error := Some(choices(name).error))
  {
    var x := a + [name] + b;
    assert x[..|a| + 1] == a + [name];
    assert (a + [name])[..|a|] == a;
    PressPhaseStays(x, |a| + 1, choices, fault, w);
  }

  // ---------------------------------------------------------------------------------
  // type

  /**
   * The key `type` taps for `c`: `KEY_<c.upper()>` when ecodes has it (the ASCII letters
   * and digits, and whatever `typedKey` says outside ASCII), then space, newline, tab
   * and full stop; every other character has no key.
   */
  function TypedKey(c: char, u: Unicode): (k: Option<Key>)
    ensures c < '\U{0080}' ==>
      (k.Some? <==> 'a' <= c <= 'z' || 'A' <= c <= 'Z' || IsAsciiDigit(c) || c == ' ' || c == '\n' || c == '\t' || c == '.')
  {
    if 'a' <= c <= 'z' then Some(Letter((c as int - 32) as char))
    else if 'A' <= c <= 'Z' then Some(Letter(c))
    else if IsAsciiDigit(c) then Some(Digit(DigitValue(c)))
    else if c >= '\U{0080}' then u.typedKey(c)
    else if c == ' ' then Some(Space)
    else if c == '\n' then Some(Enter)
    else if c == '\t' then Some(Tab)
    else if c == '.' then Some(Dot)
    else None
  }

  /** What `type` writes for one character: shift around the tap when `c.isupper()`. */
  function PyCharSteps(c: char, u: Unicode): seq<Step>
  {
    var shift := IsUppercase(c, u.isUpper);
    (if shift then KeyDownWrite(LeftShift) else [])
    + (match TypedKey(c, u) case Some(k) => KeyDownWrite(k) + KeyUpWrite(k) case None => [])
    + (if shift then KeyUpWrite(LeftShift) else [])
  }

  function PySteps(u: Unicode): char -> seq<Step>
  {
    c => PyCharSteps(c, u)
  }

  /** What `type` writes for `text`, one character after the other. */
  function PyTypeProgram(text: string, u: Unicode): seq<Step>
  {
    Device.TypeWith(text, PySteps(u))
  }

  /** The characters both implementations type the same way. */
  predicate CommonlyTyped(c: char)
  {
    'a' <= c <= 'z' || 'A' <= c <= 'Z' || IsAsciiDigit(c) || c == ' ' || c == '.' || c == '\n'
  }

  lemma CharProgramSingle(k: Key)
    ensures Device.CharProgram([k]) == KeyDownWrite(k) + KeyUpWrite(k)
  {
    assert [k][..0] == [];
    assert DownAll([]) == [] && Reverse<Key>([]) == [] && UpAll([]) == [];
  }

  lemma CharProgramShifted(k: Key)
    ensures Device.CharProgram([LeftShift, k]) == KeyDownWrite(LeftShift) + (KeyDownWrite(k) + KeyUpWrite(k)) + KeyUpWrite(LeftShift)
  {
    assert [LeftShift, k][..1] == [LeftShift];
    assert DownAll([LeftShift]) == KeyDownWrite(LeftShift) + DownAll([]);
    assert Reverse([LeftShift]) == [LeftShift];
    assert UpAll([LeftShift]) == KeyUpWrite(LeftShift) + UpAll([]);
  }

  /** On the ASCII letters, the digits, space, full stop and newline, `type` writes what the Rust `type_text` writes. */
  lemma CharAgreesWithRust(c: char, u: Unicode)
    requires CommonlyTyped(c)
    ensures PyCharSteps(c, u) == Device.CharProgram(KeyMap.CharToKeys(c, u.isUpper))
  {
    var k := TypedKey(c, u).value;
    if 'A' <= c <= 'Z' {
      KeyMap.CharToKeysCases(c, u.isUpper);
      CharProgramShifted(k);
    } else {
      assert !IsUppercase(c, u.isUpper);
      assert KeyMap.CharToKeys(c, u.isUpper) == KeyMap.BaseKeys(c) == [k];
      CharProgramSingle(k);
    }
  }

  /** A text made of such characters is typed the same way by both. */
  lemma {:induction false} TextAgreesWithRust(text: string, u: Unicode)
    requires forall i :: 0 <= i < |text| ==> CommonlyTyped(text[i])
    ensures PyTypeProgram(text, u) == Device.TypeProgram(text, u.isUpper)
  {
    if text != [] {
      var init := text[..|text| - 1];
      assert forall i :: 0 <= i < |init| ==> init[i] == text[i];
      TextAgreesWithRust(init, u);
      CharAgreesWithRust(text[|text| - 1], u);
    }
  }

  /**
   * Where they part: `type` taps tab and has nothing for `:`, `;`, `-`, `_`, `,`, `/`
   * and `?`, which the Rust table types and where it has nothing for tab.
   */
  lemma TypedDifferently(u: Unicode)
    ensures PyCharSteps('\t', u) == KeyDownWrite(Tab) + KeyUpWrite(Tab) && KeyMap.CharToKeys('\t', u.isUpper) == []
    ensures forall c :: c in ":;-_,/?" ==> PyCharSteps(c, u) == [] && KeyMap.CharToKeys(c, u.isUpper) != []
  {
    forall c | c in ":;-_,/?"
      ensures PyCharSteps(c, u) == [] && KeyMap.CharToKeys(c, u.isUpper) != []
    {
      assert c == ':' || c == ';' || c == '-' || c == '_' || c == ',' || c == '/' || c == '?';
    }
  }

  /** An uppercase character with no key still presses and releases shift. */
  lemma UppercaseWithoutKey(c: char, u: Unicode)
    requires IsUppercase(c, u.isUpper) && TypedKey(c, u).None?
    ensures PyCharSteps(c, u) == KeyDownWrite(LeftShift) + KeyUpWrite(LeftShift)
  {
  }

  /** Any other character without a key writes nothing; the characters after it are still typed. */
  lemma UnhandledCharacterSkipped(a: string, c: char, b: string, u: Unicode)
    requires !IsUppercase(c, u.isUpper) && TypedKey(c, u).None?
    ensures PyTypeProgram(a + [c] + b, u) == PyTypeProgram(a + b, u)
  {
    Device.TypeWithSkips(a, c, b, PySteps(u));
  }

  /** `_keypress`: press, sync, release, sync. */
  method Tap(d: VirtualDevice, k: Key) returns (r: Outcome<PyError>)
    modifies d
    ensures Wrote(d.fault, old(d.State()), KeyDownWrite(k) + KeyUpWrite(k), d.State(), r)
  {
    ghost var s0 := d.State();
    r := EmitSynced(d, KeyDown(k));
    ghost var s1 := d.State();
    if r.Fail? {
      WroteStop(d.fault, s0, KeyDownWrite(k), s1, KeyUpWrite(k), r);
      return;
    }
    r := EmitSynced(d, KeyUp(k));
    WroteThen(d.fault, s0, KeyDownWrite(k), s1, KeyUpWrite(k), d.State(), r);
  }

  /** The body of `type`'s loop for one character. */
  method TypeChar(d: VirtualDevice, c: char, u: Unicode) returns (r: Outcome<PyError>)
    modifies d
    ensures Wrote(d.fault, old(d.State()), PyCharSteps(c, u), d.State(), r)
  {
    ghost var s0 := d.State();
    var shift := IsUppercase(c, u.isUpper);
    ghost var down := if shift then KeyDownWrite(LeftShift) else [];
    ghost var tap := match TypedKey(c, u) case Some(k) => KeyDownWrite(k) + KeyUpWrite(k) case None => [];
    ghost var up := if shift then KeyUpWrite(LeftShift) else [];
    assert PyCharSteps(c, u) == down + tap + up;
    if shift {
      r := EmitSynced(d, KeyDown(LeftShift));
      if r.Fail? {
        WroteStop(d.fault, s0, down, d.State(), tap + up, r);
        assert down + tap + up == down + (tap + up);
        return;
      }
    } else {
      TransitionEmpty(d.fault, s0);
    }
    ghost var s1 := d.State();
    var key := TypedKey(c, u);
    if key.Some? {
      r := Tap(d, key.value);
    } else {
      r := Pass;
      TransitionEmpty(d.fault, s1);
    }
    WroteThen(d.fault, s0, down, s1, tap, d.State(), r);
    ghost var s2 := d.State();
    if r.Fail? {
      WroteStop(d.fault, s0, down + tap, s2, up, r);
      return;
    }
    if shift {
      r := EmitSynced(d, KeyUp(LeftShift));
    } else {
      TransitionEmpty(d.fault, s2);
    }
    WroteThen(d.fault, s0, down + tap, s2, up, d.State(), r);
  }

  /** `type`: every character in turn; the first write that raises ends it. */
  method TypeText(d: VirtualDevice, text: string, u: Unicode) returns (r: Outcome<PyError>)
    modifies d
    ensures Wrote(d.fault, old(d.State()), PyTypeProgram(text, u), d.State(), r)
  {
    ghost var s0 := d.State();
    TransitionEmpty(d.fault, s0);
    r := Pass;
    var i := 0;
    while i < |text|
      invariant 0 <= i <= |text|
      invariant Wrote(d.fault, s0, PyTypeProgram(text[..i], u), d.State(), Pass) && r == Pass
    {
      ghost var s1 := d.State();
      r := TypeChar(d, text[i], u);
      assert PySteps(u)(text[i]) == PyCharSteps(text[i], u);
      Device.TypeWithSplit(text, i, PySteps(u));
      if r.Fail? {
        WroteStop(d.fault, s1, PyCharSteps(text[i], u), d.State(), Device.TypeWith(text[i + 1..], PySteps(u)), r);
        WroteThen(d.fault, s0, PyTypeProgram(text[..i], u), s1, PyCharSteps(text[i], u) + Device.TypeWith(text[i + 1..], PySteps(u)), d.State(), r);
        return;
      }
      WroteThen(d.fault, s0, PyTypeProgram(text[..i], u), s1, PyCharSteps(text[i], u), d.State(), r);
      assert text[..i + 1][..i] == text[..i];
      i := i + 1;
    }
    assert text[..i] == text;
  }

  // ---------------------------------------------------------------------------------
  // The mouse

  /** `move_to`: X, then Y, then a sync. */
  function MoveSteps(x: int, y: int): seq<Step>
  {
    [Must(AbsX(x)), Must(AbsY(y)), Must(Sync)]
  }

  /** `left_click` and `right_click`: press, sync, release, sync. */
  function ClickSteps(b: Button): seq<Step>
  {
    [Must(BtnDown(b)), Must(Sync), Must(BtnUp(b)), Must(Sync)]
  }

  /** The wheel part of `scroll` as written: each non-zero amount is written negated. */
  function WheelSteps(scrollX: int, scrollY: int): seq<Step>
  {
    (if scrollX != 0 then [Must(Wheel(Horizontal, -scrollX)), Must(Sync)] else [])
    + (if scrollY != 0 then [Must(Wheel(Vertical, -scrollY)), Must(Sync)] else [])
  }

  /**
   * The wheel writes the docstring of `scroll` asks for: a positive `scroll_x`
   * turns the horizontal wheel right (positive `REL_HWHEEL`), a positive `scroll_y`
   * turns the vertical wheel down (negative `REL_WHEEL`).
   */
  function IntendedWheelSteps(scrollX: int, scrollY: int): seq<Step>
  {
    (if scrollX != 0 then [Must(Wheel(Horizontal, scrollX)), Must(Sync)] else [])
    + (if scrollY != 0 then [Must(Wheel(Vertical, -scrollY)), Must(Sync)] else [])
  }

  /** The `(scroll_x, scroll_y)` the docstring gives for `n` notches in direction `d`. */
  function DocumentedAmounts(d: Device.ScrollDirection, n: int): (int, int)
  {
    match d
    case Right => (n, 0)
    case Left => (-n, 0)
    case Down => (0, n)
    case Up => (0, -n)
  }

  /** The intended writes are the Rust `scroll` of the same direction and amount. */
  lemma IntendedWheelIsRustScroll(d: Device.ScrollDirection, n: Device.U32)
    requires 0 < n <= I32Max
    ensures IntendedWheelSteps(DocumentedAmounts(d, n).0, DocumentedAmounts(d, n).1) == Device.ScrollProgram(d, n)
  {
    assert Device.U32AsI32(n) == n;
    assert Device.WrapI32(n * Device.Multiplier(d)) == n * Device.Multiplier(d);
  }

  /** As written, scrolling right turns the wheel the way the Rust `scroll` turns it for left, and the other way round. */
  lemma WheelAsWrittenSwapsRightAndLeft(d: Device.ScrollDirection, n: Device.U32)
    requires 0 < n <= I32Max
    ensures WheelSteps(DocumentedAmounts(d, n).0, DocumentedAmounts(d, n).1)
      == Device.ScrollProgram(match d case Right => Device.Left case Left => Device.Right case _ => d, n)
  {
    var e := match d case Right => Device.Left case Left => Device.Right case _ => d;
    assert Device.U32AsI32(n) == n;
    assert Device.WrapI32(n * Device.Multiplier(e)) == n * Device.Multiplier(e);
  }

  /** The absolute axes of the virtual mouse: `AbsInfo(value, min, max, fuzz, flat, resolution)`. */
  datatype AbsInfo = AbsInfo(value: int, minimum: int, maximum: int, fuzz: int, flat: int, resolution: int)

  /** The `EV_ABS` capabilities `__enter__` gives the mouse for a screen of `width` by `height`. */
  function MouseAxes(width: nat, height: nat): (AbsInfo, AbsInfo)
  {
    (AbsInfo(0, 0, width - 1, 0, 0, 0), AbsInfo(0, 0, height - 1, 0, 0, 0))
  }

  /** Every pixel of the screen is a position on the axes, and nothing else is. */
  lemma MouseAxesSpanScreen(width: nat, height: nat, x: int, y: int)
    ensures var (ax, ay) := MouseAxes(width, height);
      (ax.minimum <= x <= ax.maximum && ay.minimum <= y <= ay.maximum) <==> (0 <= x < width && 0 <= y < height)
  {
  }

  // ---------------------------------------------------------------------------------
  // get_window_info

  /** A window's place on the screen and its size. */
  datatype WindowInfo = WindowInfo(x: int, y: int, width: nat, height: nat)

  /**
   * What the X server answers while `get_window_info` climbs from a window to the
   * root: the geometry of each window it asks about (`None` when `get_geometry`
   * raises `XError`) and the parents `query_tree` names, in order, until it raises.
   */
  datatype WindowTree = WindowTree(root: nat, geometryOf: nat -> Option<SingleWindow.Geometry>, parents: seq<nat>)

  function WindowInfoError(windowId: nat): PyError
  {
    RuntimeError("Could not get window information for window " + DecimalString(windowId))
  }

  /** The loop of `get_window_info` from the `k`-th parent on, with the offset summed so far. */
  function Climb(tree: WindowTree, k: nat, x: int, y: int): Option<(int, int)>
    decreases |tree.parents| - k
  {
    if k >= |tree.parents| then None
    else if tree.parents[k] == tree.root then Some((x, y))
    else match tree.geometryOf(tree.parents[k])
      case None => None
      case Some(g) => Climb(tree, k + 1, x + g.x, y + g.y)
  }

  /** `get_window_info`, as a value. */
  function WindowInfoOf(windowId: nat, tree: WindowTree): (r: Result<WindowInfo, PyError>)
    ensures r.Failure? ==> r.error == WindowInfoError(windowId)
    ensures r.Success? ==>
      && tree.geometryOf(windowId).Some?
      && r.value.width == tree.geometryOf(windowId).value.width
      && r.value.height == tree.geometryOf(windowId).value.height
  {
    match tree.geometryOf(windowId)
    case None => Failure(WindowInfoError(windowId))
    case Some(g) =>
      match Climb(tree, 0, g.x, g.y)
      case None => Failure(WindowInfoError(windowId))
      case Some(p) => Success(WindowInfo(p.0, p.1, g.width, g.height))
  }

  /** `get_window_info`: the window's own offset plus that of every ancestor below the root. */
  method GetWindowInfo(windowId: nat, tree: WindowTree) returns (r: Result<WindowInfo, PyError>)
    ensures r == WindowInfoOf(windowId, tree)
  {
    var geometry := tree.geometryOf(windowId);
    if geometry.None? || |tree.parents| == 0 {
      return Failure(WindowInfoError(windowId));
    }
    var g := geometry.value;
    var absX, absY := g.x, g.y;
    var k := 0;
    var parent := tree.parents[0];
    while parent != tree.root
      invariant k < |tree.parents| && parent == tree.parents[k]
      invariant Climb(tree, k, absX, absY) == Climb(tree, 0, g.x, g.y)
      decreases |tree.parents| - k
    {
      var parentGeometry := tree.geometryOf(parent);
      if parentGeometry.None? || k + 1 == |tree.parents| {
        return Failure(WindowInfoError(windowId));
      }
      absX, absY := absX + parentGeometry.value.x, absY + parentGeometry.value.y;
      k := k + 1;
      parent := tree.parents[k];
    }
    return Success(WindowInfo(absX, absY, g.width, g.height));
  }

  function SumX(gs: seq<SingleWindow.Geometry>): int
  {
    if gs == [] then 0 else gs[0].x + SumX(gs[1..])
  }

  function SumY(gs: seq<SingleWindow.Geometry>): int
  {
    if gs == [] then 0 else gs[0].y + SumY(gs[1..])
  }

  /** The ancestors below the root are `parents[..|gs|]`, with geometries `gs`, and the root follows them. */
  predicate ChainOf(tree: WindowTree, gs: seq<SingleWindow.Geometry>)
  {
    && |gs| < |tree.parents| && tree.parents[|gs|] == tree.root
    && forall i :: 0 <= i < |gs| ==> tree.parents[i] != tree.root && tree.geometryOf(tree.parents[i]) == Some(gs[i])
  }

  lemma {:induction false} ClimbSums(tree: WindowTree, gs: seq<SingleWindow.Geometry>, k: nat, x: int, y: int)
    requires ChainOf(tree, gs) && k <= |gs|
    ensures Climb(tree, k, x, y) == Some((x + SumX(gs[k..]), y + SumY(gs[k..])))
    decreases |gs| - k
  {
    if k < |gs| {
      assert gs[k..][0] == gs[k] && gs[k..][1..] == gs[k + 1..];
      ClimbSums(tree, gs, k + 1, x + gs[k].x, y + gs[k].y);
    }
  }

  /** A window whose ancestors all answer is found at its own offset plus the sum of theirs. */
  lemma WindowOriginIsSum(windowId: nat, tree: WindowTree, gs: seq<SingleWindow.Geometry>)
    requires tree.geometryOf(windowId).Some? && ChainOf(tree, gs)
    ensures var g := tree.geometryOf(windowId).value;
      WindowInfoOf(windowId, tree) == Success(WindowInfo(g.x + SumX(gs), g.y + SumY(gs), g.width, g.height))
  {
    var g := tree.geometryOf(windowId).value;
    ClimbSums(tree, gs, 0, g.x, g.y);
    assert gs[0..] == gs;
  }

  /** If the root never appears among the parents, the window is not found. */
  lemma {:induction false} RootNeverReached(tree: WindowTree, k: nat, x: int, y: int)
    requires forall i :: 0 <= i < |tree.parents| ==> tree.parents[i] != tree.root
    ensures Climb(tree, k, x, y) == None
    decreases |tree.parents| - k
  {
    if k < |tree.parents| {
      match tree.geometryOf(tree.parents[k])
      case None =>
      case Some(g) => RootNeverReached(tree, k + 1, x + g.x, y + g.y);
    }
  }

  /** The screenshot's crop box, `(left, top, right, bottom)`. */
  datatype CropBox = CropBox(left: int, top: int, right: int, bottom: int)

  // ---------------------------------------------------------------------------------
  // Always on top

  /** The root window and the two atoms the X server interns for `_NET_WM_STATE` and `_NET_WM_STATE_ABOVE`. */
  datatype Atoms = Atoms(root: Device.U32, state: Device.U32, above: Device.U32)

  /** `set_window_always_on_top`: intern the state atom, then the above atom, send the client message to the root, sync. */
  function OnTopRequests(a: Atoms, window: Device.U32, onTop: bool): seq<SingleWindow.XRequest>
  {
    [ SingleWindow.InternAtom(SingleWindow.NetWmState), SingleWindow.InternAtom(SingleWindow.NetWmStateAbove),
      SingleWindow.SendEvent(false, a.root, SingleWindow.AboveMask,
        SingleWindow.ClientMessage(32, window, a.state, SingleWindow.OnTopWords(onTop, a.above))),
      SingleWindow.Flush ]
  }

  /**
   * How a window manager following the Extended Window Manager Hints applies one
   * request to the `above` state of `window`: a `_NET_WM_STATE` client message sent to
   * the root with the substructure masks removes (0), adds (1) or toggles (2) the state
   * named in its second or third word; every other request leaves it alone.
   */
  function AboveAfterRequest(above: bool, q: SingleWindow.XRequest, a: Atoms, window: Device.U32): bool
  {
    if q.SendEvent? && q.destination == a.root && q.mask == SingleWindow.AboveMask
      && q.message.window == window && q.message.messageType == a.state && |q.message.data| >= 3
      && (q.message.data[1] == a.above || q.message.data[2] == a.above)
    then
      var action := q.message.data[0];
      if action == 0 then false else if action == 1 then true else if action == 2 then !above else above
    else above
  }

  /** The `above` state after a window manager has handled `requests` in order. */
  function AboveAfter(above: bool, requests: seq<SingleWindow.XRequest>, a: Atoms, window: Device.U32): bool
    decreases |requests|
  {
    if requests == [] then above
    else AboveAfter(AboveAfterRequest(above, requests[0], a, window), requests[1..], a, window)
  }

  lemma {:induction false} AboveAfterAppend(above: bool, p: seq<SingleWindow.XRequest>, q: seq<SingleWindow.XRequest>, a: Atoms, window: Device.U32)
    ensures AboveAfter(above, p + q, a, window) == AboveAfter(AboveAfter(above, p, a, window), q, a, window)
    decreases |p|
  {
    if p == [] {
      assert p + q == q;
    } else {
      assert (p + q)[0] == p[0] && (p + q)[1..] == p[1..] + q;
      AboveAfterAppend(AboveAfterRequest(above, p[0], a, window), p[1..], q, a, window);
    }
  }

  /** Whatever the window's state was, the requests leave it on top exactly when `onTop` asks. */
  lemma OnTopTakesEffect(above: bool, a: Atoms, window: Device.U32, onTop: bool)
    ensures AboveAfter(above, OnTopRequests(a, window, onTop), a, window) == onTop
  {
    var p := OnTopRequests(a, window, onTop);
    assert AboveAfter(above, p, a, window) == AboveAfter(above, p[1..], a, window);
    assert AboveAfter(above, p[1..], a, window) == AboveAfter(above, p[2..], a, window);
    assert AboveAfter(above, p[2..], a, window) == AboveAfter(onTop, p[3..], a, window);
    assert AboveAfter(onTop, p[3..], a, window) == AboveAfter(onTop, [], a, window);
  }

  /** Requests to another window leave this one alone. */
  lemma OnTopOfOtherWindow(above: bool, a: Atoms, window: Device.U32, other: Device.U32, onTop: bool)
    requires other != window
    ensures AboveAfter(above, OnTopRequests(a, other, onTop), a, window) == above
  {
    var p := OnTopRequests(a, other, onTop);
    assert AboveAfter(above, p, a, window) == AboveAfter(above, p[1..], a, window);
    assert AboveAfter(above, p[1..], a, window) == AboveAfter(above, p[2..], a, window);
    assert AboveAfter(above, p[2..], a, window) == AboveAfter(above, p[3..], a, window);
    assert AboveAfter(above, p[3..], a, window) == AboveAfter(above, [], a, window);
  }

  /** The message is the one the Rust `set_always_on_top` sends when the server interns the same atoms. */
  lemma OnTopMessageAsInRust(answers: seq<SingleWindow.XAnswer>, m: nat, window: Device.U32, root: Device.U32, onTop: bool)
    requires SingleWindow.OnTopRun(answers, m, window, root, onTop).result.Success?
    ensures var a := Atoms(root, SingleWindow.AnswerAt(answers, m + 1).atom, SingleWindow.AnswerAt(answers, m).atom);
      SingleWindow.OnTopRun(answers, m, window, root, onTop).requests[2..] == OnTopRequests(a, window, onTop)[2..]
  {
  }

  /** The X display: the requests sent to it, and what it interns the atoms as. */
  class PyDisplay {
    var log: seq<SingleWindow.XRequest>
    const atoms: Atoms

    constructor (atoms: Atoms)
      ensures log == [] && this.atoms == atoms
    {
      log := [];
      this.atoms := atoms;
    }

    method SetWindowAlwaysOnTop(window: Device.U32, onTop: bool)
      modifies this
      ensures log == old(log) + OnTopRequests(atoms, window, onTop)
    {
      log := log + [SingleWindow.InternAtom(SingleWindow.NetWmState), SingleWindow.InternAtom(SingleWindow.NetWmStateAbove)];
      var message := SingleWindow.ClientMessage(32, window, atoms.state, SingleWindow.OnTopWords(onTop, atoms.above));
      log := log + [SingleWindow.SendEvent(false, atoms.root, SingleWindow.AboveMask, message)];
      log := log + [SingleWindow.Flush];
    }
  }

  /** `_was_always_on_top`: the window's `_NET_WM_STATE` property is there and holds the above atom. */
  predicate WasAbove(states: Option<seq<Device.U32>>, a: Atoms)
  {
    states.Some? && a.above in states.value
  }

  /** The requests of a whole `with WindowMPXEnvironment(...)` session: on top at the start, removed at the end unless it was there before. */
  function SessionRequests(a: Atoms, window: Device.U32, wasOnTop: bool): seq<SingleWindow.XRequest>
  {
    OnTopRequests(a, window, true) + (if wasOnTop then [] else OnTopRequests(a, window, false))
  }

  /** When the property reports the window's state, the session leaves it as it found it. */
  lemma SessionRestoresOnTop(above: bool, states: Option<seq<Device.U32>>, a: Atoms, window: Device.U32)
    requires WasAbove(states, a) == above
    ensures AboveAfter(above, SessionRequests(a, window, WasAbove(states, a)), a, window) == above
  {
    AboveAfterAppend(above, OnTopRequests(a, window, true), if above then [] else OnTopRequests(a, window, false), a, window);
    OnTopTakesEffect(above, a, window, true);
    OnTopTakesEffect(true, a, window, false);
  }

  /**
   * The window is set on top before the parent's `__enter__` runs; when that raises,
   * `with` never calls `__exit__`, and a window that was not on top stays there.
   */
  lemma FailedEnterLeavesOnTop(a: Atoms, window: Device.U32)
    ensures AboveAfter(false, OnTopRequests(a, window, true), a, window)
  {
    OnTopTakesEffect(false, a, window, true);
  }

  // ---------------------------------------------------------------------------------
  // Setting up and tearing down the MPX devices

  const MouseName: string := "CoX Mouse Device"
  const KeyboardName: string := "CoX Keyboard Device"
  const MasterPointerName: string := "CoX pointer"
  const MasterKeyboardName: string := "CoX keyboard"

  /** What the programs `MPXEnvironment.__enter__` runs report, in the order it runs them. */
  datatype Setup = Setup(
    xdpyinfo: Result<Completed, PyError>,
    mouseListing: Result<Completed, PyError>,
    keyboardListing: Result<Completed, PyError>,
    createMaster: int,
    pointerListing: Result<Completed, PyError>,
    masterKeyboardListing: Result<Completed, PyError>,
    attachMouse: int,
    attachKeyboard: int)

  /** `str` of a device id that `get_device_id` may not have found. */
  function IdArgument(id: Option<nat>): string
  {
    match id
    case Some(n) => DecimalString(n)
    case None => "None"
  }

  function ReattachCommand(device: nat, master: Option<nat>): seq<string>
  {
    ["xinput", "reattach", DecimalString(device), IdArgument(master)]
  }

  const CreateMasterCommand: seq<string> := ["xinput", "create-master", "CoX"]

  /** What a successful `__enter__` leaves behind: the screen the mouse axes span and the master device ids. */
  datatype Attached = Attached(screen: (nat, nat), masterPointer: Option<nat>, masterKeyboard: Option<nat>)

  /** The commands `__enter__` ran that change the devices, and how it ended. */
  datatype Entered = Entered(commands: seq<seq<string>>, result: Result<Attached, PyError>)

  /**
   * `MPXEnvironment.__enter__` once the devices exist, given the screen resolution, what
   * `get_device_id` returned for the virtual mouse, the virtual keyboard, the master
   * pointer and the master keyboard, and the exit codes of `xinput create-master` and
   * the two `xinput reattach` runs: the checks, in the order of the source.
   */
  function EnterWith(screen: Result<(nat, nat), PyError>, mouse: Result<Option<nat>, PyError>, keyboard: Result<Option<nat>, PyError>,
                     createMaster: int, pointer: Result<Option<nat>, PyError>, masterKeyboard: Result<Option<nat>, PyError>,
                     attachMouse: int, attachKeyboard: int): (e: Entered)
    ensures e.result.Success? <==>
      && screen.Success? && mouse.Success? && mouse.value.Some? && keyboard.Success? && keyboard.value.Some?
      && createMaster == 0 && pointer.Success? && masterKeyboard.Success? && attachMouse == 0 && attachKeyboard == 0
    ensures e.result.Success? ==>
      && e.result.value == Attached(screen.value, pointer.value, masterKeyboard.value)
      && e.commands == [CreateMasterCommand, ReattachCommand(mouse.value.value, pointer.value), ReattachCommand(keyboard.value.value, masterKeyboard.value)]
    ensures e.commands != [] ==> e.commands[0] == CreateMasterCommand
    ensures e.commands == [] <==> !(screen.Success? && mouse.Success? && mouse.value.Some? && keyboard.Success? && keyboard.value.Some?)
    ensures screen.Failure? ==> e.result == Failure(screen.error)
    ensures screen.Success? && mouse == Success(None) ==> e.result == Failure(RuntimeError("Could not find device ID for 'CoX Mouse Device'"))
    ensures createMaster != 0 && e.commands != [] ==> e.result == Failure(RuntimeError("Failed to create MPX master device"))
  {
    match screen
    case Failure(err) => Entered([], Failure(err))
    case Success(size) =>
      match mouse
      case Failure(err) => Entered([], Failure(err))
      case Success(None) => Entered([], Failure(RuntimeError("Could not find device ID for 'CoX Mouse Device'")))
      case Success(Some(mouseId)) =>
        match keyboard
        case Failure(err) => Entered([], Failure(err))
        case Success(None) => Entered([], Failure(RuntimeError("Could not find device ID for 'CoX Keyboard Device'")))
        case Success(Some(keyboardId)) =>
          if createMaster != 0 then Entered([CreateMasterCommand], Failure(RuntimeError("Failed to create MPX master device")))
          else AttachWith(size, mouseId, keyboardId, pointer, masterKeyboard, attachMouse, attachKeyboard)
  }

  /** The second half of `__enter__`: find the master devices and reattach the virtual ones to them. */
  function AttachWith(screen: (nat, nat), mouse: nat, keyboard: nat, pointer: Result<Option<nat>, PyError>,
                      masterKeyboard: Result<Option<nat>, PyError>, attachMouse: int, attachKeyboard: int): (e: Entered)
    ensures e.result.Success? <==> pointer.Success? && masterKeyboard.Success? && attachMouse == 0 && attachKeyboard == 0
    ensures e.result.Success? ==>
      && e.result.value == Attached(screen, pointer.value, masterKeyboard.value)
      && e.commands == [CreateMasterCommand, ReattachCommand(mouse, pointer.value), ReattachCommand(keyboard, masterKeyboard.value)]
    ensures e.commands != [] && e.commands[0] == CreateMasterCommand
  {
    match pointer
    case Failure(err) => Entered([CreateMasterCommand], Failure(err))
    case Success(pointerId) =>
      match masterKeyboard
      case Failure(err) => Entered([CreateMasterCommand], Failure(err))
      case Success(masterKeyboardId) =>
        var reattachMouse := ReattachCommand(mouse, pointerId);
        if attachMouse != 0 then
          Entered([CreateMasterCommand, reattachMouse], Failure(RuntimeError("Failed to attach virtual mouse to MPX master device")))
        else
          var commands := [CreateMasterCommand, reattachMouse, ReattachCommand(keyboard, masterKeyboardId)];
          if attachKeyboard != 0 then
            Entered(commands, Failure(RuntimeError("Failed to attach virtual keyboard to MPX master device")))
          else Entered(commands, Success(Attached(screen, pointerId, masterKeyboardId)))
  }

  /** `__enter__` from what the programs it runs report. */
  function EnterRun(s: Setup): Entered
  {
    EnterWith(ScreenResolution(s.xdpyinfo), DeviceIdResult(s.mouseListing, MouseName, true),
      DeviceIdResult(s.keyboardListing, KeyboardName, true), s.createMaster,
      DeviceIdResult(s.pointerListing, MasterPointerName, true),
      DeviceIdResult(s.masterKeyboardListing, MasterKeyboardName, true), s.attachMouse, s.attachKeyboard)
  }

  /** No master device is created unless both virtual devices were found. */
  lemma NoMasterWithoutDevices(s: Setup)
    requires DeviceIdResult(s.mouseListing, MouseName, true) == Success(None)
      || DeviceIdResult(s.keyboardListing, KeyboardName, true) == Success(None)
    ensures EnterRun(s).commands == [] && EnterRun(s).result.Failure?
  {
  }

  /** A master pointer `get_device_id` did not find is passed to `xinput reattach` as the word `None`. */
  lemma MissingMasterPassedAsNone(screen: Result<(nat, nat), PyError>, mouse: nat, keyboard: Result<Option<nat>, PyError>,
                                  masterKeyboard: Result<Option<nat>, PyError>, attachMouse: int, attachKeyboard: int)
    requires EnterWith(screen, Success(Some(mouse)), keyboard, 0, Success(None), masterKeyboard, attachMouse, attachKeyboard).result.Success?
    ensures EnterWith(screen, Success(Some(mouse)), keyboard, 0, Success(None), masterKeyboard, attachMouse, attachKeyboard).commands[1]
      == ["xinput", "reattach", DecimalString(mouse), "None"]
  {
  }

  // ---------------------------------------------------------------------------------
  // The environments

  const RemoveMasterFailed: string := "Failed to remove MPX master device"

  /** The command `__exit__` runs to remove the master device, named by its pointer's id. */
  function RemoveMasterCommand(master: Option<nat>): seq<string>
  {
    ["xinput", "remove-master", IdArgument(master)]
  }

  /**
   * `__exit__` removes the master device the virtual mouse was reattached to: after a
   * successful `__enter__` (whatever its programs reported), the id given to
   * `remove-master` is the one the mouse's `reattach` got.
   */
  lemma ExitRemovesAttachedMaster(screen: Result<(nat, nat), PyError>, mouse: Result<Option<nat>, PyError>,
                                   keyboard: Result<Option<nat>, PyError>, createMaster: int, pointer: Result<Option<nat>, PyError>,
                                   masterKeyboard: Result<Option<nat>, PyError>, attachMouse: int, attachKeyboard: int)
    requires EnterWith(screen, mouse, keyboard, createMaster, pointer, masterKeyboard, attachMouse, attachKeyboard).result.Success?
    ensures var e := EnterWith(screen, mouse, keyboard, createMaster, pointer, masterKeyboard, attachMouse, attachKeyboard);
      |e.commands| == 3 && RemoveMasterCommand(e.result.value.masterPointer)[2] == e.commands[1][3]
  {
  }

  /**
   * `MPXEnvironment`, and `WindowMPXEnvironment` when `window` holds the window's id and
   * the place `get_window_info` found for it when the environment was made.
   */
  class MPXEnvironment {
    const mouseUi: VirtualDevice
    const keyboardUi: VirtualDevice
    const display: PyDisplay
    const window: Option<(Device.U32, WindowInfo)>
    var width: nat
    var height: nat
    var wasOnTop: bool
    /** What `__enter__` set up, once it has succeeded. */
    var attached: Option<Attached>
    /** The `xinput` commands `__enter__` and `__exit__` have run, in order. */
    var commands: seq<seq<string>>

    constructor (mouseUi: VirtualDevice, keyboardUi: VirtualDevice, display: PyDisplay,
                 window: Option<(Device.U32, WindowInfo)>, width: nat, height: nat)
      ensures this.mouseUi == mouseUi && this.keyboardUi == keyboardUi && this.display == display
      ensures this.window == window && this.width == width && this.height == height
      ensures !wasOnTop && attached.None? && commands == []
    {
      this.mouseUi, this.keyboardUi, this.display := mouseUi, keyboardUi, display;
      this.window, this.width, this.height := window, width, height;
      wasOnTop, attached, commands := false, None, [];
    }

    /** Where a point given to the environment lies on the screen: shifted by the window's origin. */
    function ToScreen(x: int, y: int): (int, int)
    {
      match window
      case None => (x, y)
      case Some((_, info)) => (x + info.x, y + info.y)
    }

    /** `move_to`: window-relative coordinates become screen coordinates. */
    method MoveTo(x: int, y: int) returns (r: Outcome<PyError>)
      modifies mouseUi
      ensures Wrote(mouseUi.fault, old(mouseUi.State()), MoveSteps(ToScreen(x, y).0, ToScreen(x, y).1), mouseUi.State(), r)
    {
      var (screenX, screenY) := ToScreen(x, y);
      ghost var s0 := mouseUi.State();
      r := Emit(mouseUi, AbsX(screenX));
      ghost var s1 := mouseUi.State();
      if r.Fail? {
        WroteStop(mouseUi.fault, s0, [Must(AbsX(screenX))], s1, [Must(AbsY(screenY)), Must(Sync)], r);
        return;
      }
      r := EmitSynced(mouseUi, AbsY(screenY));
      WroteThen(mouseUi.fault, s0, [Must(AbsX(screenX))], s1, [Must(AbsY(screenY)), Must(Sync)], mouseUi.State(), r);
    }

    method ButtonClick(b: Button) returns (r: Outcome<PyError>)
      modifies mouseUi
      ensures Wrote(mouseUi.fault, old(mouseUi.State()), ClickSteps(b), mouseUi.State(), r)
    {
      ghost var s0 := mouseUi.State();
      assert ClickSteps(b) == [Must(BtnDown(b)), Must(Sync)] + [Must(BtnUp(b)), Must(Sync)];
      r := EmitSynced(mouseUi, BtnDown(b));
      ghost var s1 := mouseUi.State();
      if r.Fail? {
        WroteStop(mouseUi.fault, s0, [Must(BtnDown(b)), Must(Sync)], s1, [Must(BtnUp(b)), Must(Sync)], r);
        return;
      }
      r := EmitSynced(mouseUi, BtnUp(b));
      WroteThen(mouseUi.fault, s0, [Must(BtnDown(b)), Must(Sync)], s1, [Must(BtnUp(b)), Must(Sync)], mouseUi.State(), r);
    }

    /** `left_click`. */
    method LeftClick() returns (r: Outcome<PyError>)
      modifies mouseUi
      ensures Wrote(mouseUi.fault, old(mouseUi.State()), ClickSteps(BtnLeft), mouseUi.State(), r)
    {
      r := ButtonClick(BtnLeft);
    }

    /** `right_click`. */
    method RightClick() returns (r: Outcome<PyError>)
      modifies mouseUi
      ensures Wrote(mouseUi.fault, old(mouseUi.State()), ClickSteps(BtnRight), mouseUi.State(), r)
    {
      r := ButtonClick(BtnRight);
    }

    /** `double_click`: two left clicks. */
    method DoubleClick() returns (r: Outcome<PyError>)
      modifies mouseUi
      ensures Wrote(mouseUi.fault, old(mouseUi.State()), ClickSteps(BtnLeft) + ClickSteps(BtnLeft), mouseUi.State(), r)
    {
      ghost var s0 := mouseUi.State();
      r := LeftClick();
      ghost var s1 := mouseUi.State();
      if r.Fail? {
        WroteStop(mouseUi.fault, s0, ClickSteps(BtnLeft), s1, ClickSteps(BtnLeft), r);
        return;
      }
      r := LeftClick();
      WroteThen(mouseUi.fault, s0, ClickSteps(BtnLeft), s1, ClickSteps(BtnLeft), mouseUi.State(), r);
    }

    /** `click`: move, then the named button; any other button name is a `ValueError` and nothing is written. */
    method Click(x: int, y: int, button: string) returns (r: Outcome<PyError>)
      modifies mouseUi
      ensures button == "left" ==>
        Wrote(mouseUi.fault, old(mouseUi.State()), MoveSteps(ToScreen(x, y).0, ToScreen(x, y).1) + ClickSteps(BtnLeft), mouseUi.State(), r)
      ensures button == "right" ==>
        Wrote(mouseUi.fault, old(mouseUi.State()), MoveSteps(ToScreen(x, y).0, ToScreen(x, y).1) + ClickSteps(BtnRight), mouseUi.State(), r)
      ensures button != "left" && button != "right" ==>
        r == Fail(ValueError("Invalid button: " + button)) && mouseUi.State() == old(mouseUi.State())
    {
      if button != "left" && button != "right" {
        return Fail(ValueError("Invalid button: " + button));
      }
      var b := if button == "left" then BtnLeft else BtnRight;
      ghost var s0 := mouseUi.State();
      ghost var move := MoveSteps(ToScreen(x, y).0, ToScreen(x, y).1);
      r := MoveTo(x, y);
      ghost var s1 := mouseUi.State();
      if r.Fail? {
        WroteStop(mouseUi.fault, s0, move, s1, ClickSteps(b), r);
        return;
      }
      r := ButtonClick(b);
      WroteThen(mouseUi.fault, s0, move, s1, ClickSteps(b), mouseUi.State(), r);
    }

    /**
     * `scroll`: move, then the horizontal and the vertical wheel, each only when its amount
     * is non-zero, with the signs the code writes (`WheelSteps`; see
     * `WheelAsWrittenSwapsRightAndLeft` for how the horizontal one departs from the docstring).
     */
    method Scroll(x: int, y: int, scrollX: int, scrollY: int) returns (r: Outcome<PyError>)
      modifies mouseUi
      ensures Wrote(mouseUi.fault, old(mouseUi.State()),
        MoveSteps(ToScreen(x, y).0, ToScreen(x, y).1) + WheelSteps(scrollX, scrollY), mouseUi.State(), r)
    {
      ghost var s0 := mouseUi.State();
      ghost var move := MoveSteps(ToScreen(x, y).0, ToScreen(x, y).1);
      ghost var h := if scrollX != 0 then [Must(Wheel(Horizontal, -scrollX)), Must(Sync)] else [];
      ghost var v := if scrollY != 0 then [Must(Wheel(Vertical, -scrollY)), Must(Sync)] else [];
      assert move + WheelSteps(scrollX, scrollY) == move + h + v;
      r := MoveTo(x, y);
      ghost var s1 := mouseUi.State();
      if r.Fail? {
        WroteStop(mouseUi.fault, s0, move, s1, h + v, r);
        assert move + (h + v) == move + h + v;
        return;
      }
      if scrollX != 0 {
        r := EmitSynced(mouseUi, Wheel(Horizontal, -scrollX));
      } else {
        TransitionEmpty(mouseUi.fault, s1);
      }
      WroteThen(mouseUi.fault, s0, move, s1, h, mouseUi.State(), r);
      ghost var s2 := mouseUi.State();
      if r.Fail? {
        WroteStop(mouseUi.fault, s0, move + h, s2, v, r);
        return;
      }
      if scrollY != 0 {
        r := EmitSynced(mouseUi, Wheel(Vertical, -scrollY));
      } else {
        TransitionEmpty(mouseUi.fault, s2);
      }
      WroteThen(mouseUi.fault, s0, move + h, s2, v, mouseUi.State(), r);
    }

    /** `keypress`: the press loop, then the release of what was pressed, last first. */
    method Keypress(names: seq<string>, u: Unicode) returns (r: Outcome<PyError>)
      modifies keyboardUi
      ensures var run := KeypressRun(names, Choices(u), keyboardUi.fault, old(keyboardUi.writes));
        && keyboardUi.trace == old(keyboardUi.trace) + run.emitted && keyboardUi.writes == run.writes
        && keyboardUi.closes == old(keyboardUi.closes) && r == run.result
    {
      var pressed, failure := PressKeys(keyboardUi, names, Choices(u));
      var released := ReleaseReversed(keyboardUi, pressed);
      r := if released.Fail? then released else if failure.Some? then Fail(failure.value) else Pass;
    }

    /** `type`. */
    method Type(text: string, u: Unicode) returns (r: Outcome<PyError>)
      modifies keyboardUi
      ensures Wrote(keyboardUi.fault, old(keyboardUi.State()), PyTypeProgram(text, u), keyboardUi.State(), r)
    {
      r := TypeText(keyboardUi, text, u);
    }

    /**
     * `__enter__`. For a window, first remember whether its `_NET_WM_STATE` property
     * (`states`) holds the above state and put it on top; then `MPXEnvironment.__enter__`.
     */
    method Enter(states: Option<seq<Device.U32>>, s: Setup) returns (r: Outcome<PyError>)
      modifies this, display
      ensures window.Some? ==>
        wasOnTop == WasAbove(states, display.atoms) && display.log == old(display.log) + OnTopRequests(display.atoms, window.value.0, true)
      ensures window.None? ==> wasOnTop == old(wasOnTop) && display.log == old(display.log)
      ensures var run := EnterRun(s);
        && (r.Pass? <==> run.result.Success?)
        && (r.Fail? ==> r.error == run.result.error && attached == old(attached))
        && (r.Pass? ==> attached == Some(run.result.value))
        && commands == old(commands) + run.commands
      ensures width == old(width) && height == old(height)
    {
      if window.Some? {
        RaiseWindow(states);
      }
      r := ParentEnter(EnterRun(s));
    }

    /** Remember whether the window was on top, then put it there. */
    method RaiseWindow(states: Option<seq<Device.U32>>)
      requires window.Some?
      modifies this, display
      ensures wasOnTop == WasAbove(states, display.atoms)
      ensures display.log == old(display.log) + OnTopRequests(display.atoms, window.value.0, true)
      ensures width == old(width) && height == old(height) && attached == old(attached) && commands == old(commands)
    {
      wasOnTop := WasAbove(states, display.atoms);
      display.SetWindowAlwaysOnTop(window.value.0, true);
    }

    /** `MPXEnvironment.__enter__`, ending as `run` says. */
    method ParentEnter(run: Entered) returns (r: Outcome<PyError>)
      modifies this
      ensures r.Pass? <==> run.result.Success?
      ensures r.Fail? ==> r.error == run.result.error && attached == old(attached)
      ensures r.Pass? ==> attached == Some(run.result.value)
      ensures commands == old(commands) + run.commands
      ensures width == old(width) && height == old(height) && wasOnTop == old(wasOnTop)
    {
      commands := commands + run.commands;
      if run.result.Failure? {
        return Fail(run.result.error);
      }
      attached := Some(run.result.value);
      r := Pass;
    }

    /**
     * `__exit__`, which the `with` statement runs only after `__enter__` succeeded: for a
     * window, take it off the top unless it was there before; then close the mouse and
     * the keyboard and run `xinput remove-master` on the master pointer `__enter__` looked
     * up, whose exit code is `removeStatus`.
     */
    method Exit(removeStatus: int) returns (r: Outcome<PyError>)
      requires mouseUi != keyboardUi && attached.Some?
      modifies this, display, mouseUi, keyboardUi
      ensures display.log == old(display.log)
        + (if window.Some? && !wasOnTop then OnTopRequests(display.atoms, window.value.0, false) else [])
      ensures mouseUi.trace == old(mouseUi.trace) && mouseUi.writes == old(mouseUi.writes) && mouseUi.closes == old(mouseUi.closes) + 1
      ensures keyboardUi.trace == old(keyboardUi.trace) && keyboardUi.writes == old(keyboardUi.writes)
      ensures keyboardUi.closes == old(keyboardUi.closes) + 1
      ensures commands == old(commands) + [RemoveMasterCommand(old(attached).value.masterPointer)]
      ensures r == if removeStatus != 0 then Fail(RuntimeError(RemoveMasterFailed)) else Pass
      ensures width == old(width) && height == old(height) && wasOnTop == old(wasOnTop) && attached == old(attached)
    {
      if window.Some? && !wasOnTop {
        display.SetWindowAlwaysOnTop(window.value.0, false);
      }
      mouseUi.Close();
      keyboardUi.Close();
      commands := commands + [RemoveMasterCommand(attached.value.masterPointer)];
      r := if removeStatus != 0 then Fail(RuntimeError(RemoveMasterFailed)) else Pass;
    }

    /**
     * `screenshot`: the whole screen, or for a window the box `get_window_info` reports
     * now (not where the window was when the environment was made).
     */
    method Screenshot(tree: WindowTree) returns (r: Result<Option<CropBox>, PyError>)
      ensures window.None? ==> r == Success(None)
      ensures window.Some? ==>
        && (r.Success? <==> WindowInfoOf(window.value.0, tree).Success?)
        && (r.Failure? ==> r.error == WindowInfoError(window.value.0))
        && (r.Success? ==>
              var info := WindowInfoOf(window.value.0, tree).value;
              && r.value.Some?
              && r.value.value.left == info.x && r.value.value.top == info.y
              && r.value.value.right - r.value.value.left == info.width
              && r.value.value.bottom - r.value.value.top == info.height)
    {
      if window.None? {
        return Success(None);
      }
      var geometry := GetWindowInfo(window.value.0, tree);
      if geometry.Failure? {
        return Failure(geometry.error);
      }
      var g := geometry.value;
      r := Success(Some(CropBox(g.x, g.y, g.x + g.width, g.y + g.height)));
    }
  }

  /** `MPXEnvironment()`: the environment spans the screen `xdpyinfo` reports. */
  method NewMPXEnvironment(xdpyinfo: Result<Completed, PyError>, mouseUi: VirtualDevice, keyboardUi: VirtualDevice, display: PyDisplay)
    returns (r: Result<MPXEnvironment, PyError>)
    ensures ScreenResolution(xdpyinfo).Failure? ==> r == Failure(ScreenResolution(xdpyinfo).error)
    ensures ScreenResolution(xdpyinfo).Success? ==>
      && r.Success? && fresh(r.value) && r.value.window.None?
      && (r.value.width, r.value.height) == ScreenResolution(xdpyinfo).value
      && r.value.mouseUi == mouseUi && r.value.keyboardUi == keyboardUi && r.value.display == display
      && !r.value.wasOnTop && r.value.attached.None? && r.value.commands == []
  {
    var screen := ScreenResolution(xdpyinfo);
    if screen.Failure? {
      return Failure(screen.error);
    }
    var env := new MPXEnvironment(mouseUi, keyboardUi, display, None, screen.value.0, screen.value.1);
    return Success(env);
  }

  /**
   * `WindowMPXEnvironment(window_id)`: the screen resolution is asked for (and its
   * failure raised) as in the parent, then the window's place and size replace it.
   */
  method NewWindowMPXEnvironment(xdpyinfo: Result<Completed, PyError>, windowId: Device.U32, tree: WindowTree,
                                 mouseUi: VirtualDevice, keyboardUi: VirtualDevice, display: PyDisplay)
    returns (r: Result<MPXEnvironment, PyError>)
    ensures ScreenResolution(xdpyinfo).Failure? ==> r == Failure(ScreenResolution(xdpyinfo).error)
    ensures ScreenResolution(xdpyinfo).Success? && WindowInfoOf(windowId, tree).Failure? ==> r == Failure(WindowInfoError(windowId))
    ensures ScreenResolution(xdpyinfo).Success? && WindowInfoOf(windowId, tree).Success? ==>
      var info := WindowInfoOf(windowId, tree).value;
      && r.Success? && fresh(r.value) && r.value.window == Some((windowId, info))
      && r.value.width == info.width && r.value.height == info.height
      && r.value.mouseUi == mouseUi && r.value.keyboardUi == keyboardUi && r.value.display == display
      && !r.value.wasOnTop && r.value.attached.None? && r.value.commands == []
  {
    var screen := ScreenResolution(xdpyinfo);
    if screen.Failure? {
      return Failure(screen.error);
    }
    var info := GetWindowInfo(windowId, tree);
    if info.Failure? {
      return Failure(info.error);
    }
    var env := new MPXEnvironment(mouseUi, keyboardUi, display, Some((windowId, info.value)), info.value.width, info.value.height);
    return Success(env);
  }

  /** A point inside the window is moved to inside the window's rectangle on the screen. */
  lemma WindowPointOnScreen(env: MPXEnvironment, x: int, y: int)
    requires env.window.Some? && 0 <= x < env.window.value.1.width && 0 <= y < env.window.value.1.height
    ensures var info := env.window.value.1;
      info.x <= env.ToScreen(x, y).0 < info.x + info.width && info.y <= env.ToScreen(x, y).1 < info.y + info.height
  {
  }
}
