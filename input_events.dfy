/**
 * The Linux input-event vocabulary that both implementations write to a kernel uinput
 * device (the Rust `uinput` crate and Python's `evdev.UInput`), and the device itself as
 * an append-only trace of the events it accepted.
 *
 * A device operation is described as a write program: a sequence of steps, each one
 * `write(event)` to the device. A `Must` step is a write whose failure ends the operation
 * (Rust's `?`, a Python exception); a `Try` step is a write whose result is discarded.
 * Which writes fail is an oracle of the device: `fault(k)` says what happens to its k-th
 * write.
 */
module InputEvents {
  import opened Wrappers

  type Letter = c: char | 'A' <= c <= 'Z' witness 'A'
  type DigitNumber = n: int | 0 <= n <= 9
  type FunctionNumber = n: int | 1 <= n <= 12 witness 1

  /** Key codes (`KEY_*` in the kernel's input-event-codes). */
  datatype Key =
    | Letter(letter: Letter)
    | Digit(digit: DigitNumber)
    | F(number: FunctionNumber)
    | LeftControl | LeftAlt | LeftShift | LeftMeta
    | Space | Tab | Enter | Esc | BackSpace | Delete | Home | End | PageUp | PageDown | Insert
    | ArrowUp | ArrowDown | ArrowLeft | ArrowRight
    | Dot | Comma | SemiColon | Minus | Slash | Apostrophe | LeftBrace | RightBrace | Backslash | Equal

  /** `BTN_LEFT`, `BTN_RIGHT`, `BTN_MIDDLE`. */
  datatype Button = BtnLeft | BtnRight | BtnMiddle

  /** `REL_HWHEEL` and `REL_WHEEL`. */
  datatype WheelAxis = Horizontal | Vertical

  datatype Event =
    | KeyDown(key: Key)
    | KeyUp(key: Key)
    | BtnDown(button: Button)
    | BtnUp(button: Button)
    | AbsX(x: int)
    | AbsY(y: int)
    | Wheel(axis: WheelAxis, amount: int)
    | Sync

  /** Why a write to the device did not happen: an I/O error, or a keyboard interrupt raised during it. */
  datatype Fault = IoError | Interrupt

  datatype Step = Must(event: Event) | Try(event: Event)

  /** What running a write program did: the events the device accepted, the fault that ended it, the writes used. */
  datatype Run = Run(emitted: seq<Event>, fault: Option<Fault>, writes: nat)

  type FaultOracle = nat -> Option<Fault>

  /** The events a program writes when no write fails. */
  function Events(p: seq<Step>): (es: seq<Event>)
    ensures |es| == |p| && forall i :: 0 <= i < |p| ==> es[i] == p[i].event
  {
    if p == [] then [] else [p[0].event] + Events(p[1..])
  }

  /** Runs `p` on a device whose next write is its `w`-th. */
  function Exec(p: seq<Step>, fault: FaultOracle, w: nat): (r: Run)
    decreases |p|
  {
    if p == [] then Run([], None, w)
    else
      var f := fault(w);
      if f.Some? && p[0].Must? then Run([], f, w + 1)
      else
        var rest := Exec(p[1..], fault, w + 1);
        Run((if f.None? then [p[0].event] else []) + rest.emitted, rest.fault, rest.writes)
  }

  /** Running `q` after `r`, unless `r` already failed. */
  function Then(r: Run, q: seq<Step>, fault: FaultOracle): Run
  {
    if r.fault.Some? then r
    else
      var s := Exec(q, fault, r.writes);
      Run(r.emitted + s.emitted, s.fault, s.writes)
  }

  /** Running a concatenation is running its halves one after the other. */
  lemma {:induction false} ExecAppend(p: seq<Step>, q: seq<Step>, fault: FaultOracle, w: nat)
    ensures Exec(p + q, fault, w) == Then(Exec(p, fault, w), q, fault)
    decreases |p|
  {
    if p == [] {
      assert p + q == q;
    } else {
      assert (p + q)[0] == p[0];
      assert (p + q)[1..] == p[1..] + q;
      var f := fault(w);
      if !(f.Some? && p[0].Must?) {
        ExecAppend(p[1..], q, fault, w + 1);
        var head := if f.None? then [p[0].event] else [];
        var r := Exec(p[1..], fault, w + 1);
        if r.fault.None? {
          var s := Exec(q, fault, r.writes);
          assert head + (r.emitted + s.emitted) == (head + r.emitted) + s.emitted;
        }
      }
    }
  }

  predicate NoFaults(fault: FaultOracle, w: nat, n: nat)
  {
    forall k :: w <= k < w + n ==> fault(k).None?
  }

  /** When none of the writes fails, the device accepts exactly the program's events. */
  lemma {:induction false} ExecFaultFree(p: seq<Step>, fault: FaultOracle, w: nat)
    requires NoFaults(fault, w, |p|)
    ensures Exec(p, fault, w) == Run(Events(p), None, w + |p|)
    decreases |p|
  {
    if p != [] {
      ExecFaultFree(p[1..], fault, w + 1);
    }
  }

  predicate AllMust(p: seq<Step>)
  {
    forall i :: 0 <= i < |p| ==> p[i].Must?
  }

  /**
   * In a program where every failure ends it, the device accepts a prefix of the
   * program's events, all of them when nothing failed.
   */
  lemma {:induction false} ExecMustPrefix(p: seq<Step>, fault: FaultOracle, w: nat)
    requires AllMust(p)
    ensures var r := Exec(p, fault, w);
      && |r.emitted| <= |p| && r.emitted == Events(p)[..|r.emitted|]
      && (r.fault.None? ==> r.emitted == Events(p))
      && (r.fault.Some? ==> |r.emitted| < |p|)
    decreases |p|
  {
    if p != [] {
      ExecMustPrefix(p[1..], fault, w + 1);
    }
  }

  /** Pressing a key: `KEY` down, then a synchronisation report. */
  function KeyDownWrite(k: Key): seq<Step> { [Must(KeyDown(k)), Must(Sync)] }

  function KeyUpWrite(k: Key): seq<Step> { [Must(KeyUp(k)), Must(Sync)] }

  /** Presses every key of `keys`, in order. */
  function DownAll(keys: seq<Key>): (p: seq<Step>)
    ensures |p| == 2 * |keys| && AllMust(p)
  {
    if keys == [] then [] else KeyDownWrite(keys[0]) + DownAll(keys[1..])
  }

  /** Releases every key of `keys`, in order. */
  function UpAll(keys: seq<Key>): (p: seq<Step>)
    ensures |p| == 2 * |keys| && AllMust(p)
  {
    if keys == [] then [] else KeyUpWrite(keys[0]) + UpAll(keys[1..])
  }

  lemma {:induction false} DownAllAppend(a: seq<Key>, b: seq<Key>)
    ensures DownAll(a + b) == DownAll(a) + DownAll(b)
  {
    if a != [] {
      assert (a + b)[1..] == a[1..] + b;
      DownAllAppend(a[1..], b);
    } else {
      assert a + b == b;
    }
  }

  lemma {:induction false} UpAllAppend(a: seq<Key>, b: seq<Key>)
    ensures UpAll(a + b) == UpAll(a) + UpAll(b)
  {
    if a != [] {
      assert (a + b)[1..] == a[1..] + b;
      UpAllAppend(a[1..], b);
    } else {
      assert a + b == b;
    }
  }

  /** Key `i` goes down at step `2i` of `DownAll(keys)`, followed by a sync. */
  lemma {:induction false} DownAllAt(keys: seq<Key>, i: nat)
    requires i < |keys|
    ensures DownAll(keys)[2 * i] == Must(KeyDown(keys[i])) && DownAll(keys)[2 * i + 1] == Must(Sync)
  {
    var p := DownAll(keys);
    assert p == KeyDownWrite(keys[0]) + DownAll(keys[1..]);
    if i > 0 {
      DownAllAt(keys[1..], i - 1);
      assert p[2 * i] == DownAll(keys[1..])[2 * (i - 1)];
      assert p[2 * i + 1] == DownAll(keys[1..])[2 * (i - 1) + 1];
    }
  }

  lemma {:induction false} UpAllAt(keys: seq<Key>, i: nat)
    requires i < |keys|
    ensures UpAll(keys)[2 * i] == Must(KeyUp(keys[i])) && UpAll(keys)[2 * i + 1] == Must(Sync)
  {
    var p := UpAll(keys);
    assert p == KeyUpWrite(keys[0]) + UpAll(keys[1..]);
    if i > 0 {
      UpAllAt(keys[1..], i - 1);
      assert p[2 * i] == UpAll(keys[1..])[2 * (i - 1)];
      assert p[2 * i + 1] == UpAll(keys[1..])[2 * (i - 1) + 1];
    }
  }

  /** The events of `DownAll(keys)`: key `i` goes down at position `2i`, each followed by a sync. */
  lemma DownAllEvents(keys: seq<Key>, i: nat)
    requires i < |keys|
    ensures Events(DownAll(keys))[2 * i] == KeyDown(keys[i])
    ensures Events(DownAll(keys))[2 * i + 1] == Sync
  {
    DownAllAt(keys, i);
  }

  lemma UpAllEvents(keys: seq<Key>, i: nat)
    requires i < |keys|
    ensures Events(UpAll(keys))[2 * i] == KeyUp(keys[i])
    ensures Events(UpAll(keys))[2 * i + 1] == Sync
  {
    UpAllAt(keys, i);
  }

  /** Pressing one key more is the presses so far followed by that key's. */
  lemma DownAllStep(keys: seq<Key>, i: nat)
    requires i < |keys|
    ensures DownAll(keys[..i + 1]) == DownAll(keys[..i]) + KeyDownWrite(keys[i])
  {
    assert keys[..i + 1] == keys[..i] + [keys[i]];
    DownAllAppend(keys[..i], [keys[i]]);
    assert DownAll([keys[i]]) == KeyDownWrite(keys[i]) + DownAll([]);
  }

  lemma UpAllStep(keys: seq<Key>, i: nat)
    requires i < |keys|
    ensures UpAll(keys[..i + 1]) == UpAll(keys[..i]) + KeyUpWrite(keys[i])
  {
    assert keys[..i + 1] == keys[..i] + [keys[i]];
    UpAllAppend(keys[..i], [keys[i]]);
    assert UpAll([keys[i]]) == KeyUpWrite(keys[i]) + UpAll([]);
  }

  /** `DownAll(keys)` around key `i`: the keys before it, key `i`, the keys after it. */
  lemma DownAllSplit(keys: seq<Key>, i: nat)
    requires i < |keys|
    ensures DownAll(keys) == DownAll(keys[..i]) + KeyDownWrite(keys[i]) + DownAll(keys[i + 1..])
  {
    assert keys == keys[..i + 1] + keys[i + 1..];
    DownAllAppend(keys[..i + 1], keys[i + 1..]);
    DownAllStep(keys, i);
  }

  lemma UpAllSplit(keys: seq<Key>, i: nat)
    requires i < |keys|
    ensures UpAll(keys) == UpAll(keys[..i]) + KeyUpWrite(keys[i]) + UpAll(keys[i + 1..])
  {
    assert keys == keys[..i + 1] + keys[i + 1..];
    UpAllAppend(keys[..i + 1], keys[i + 1..]);
    UpAllStep(keys, i);
  }

  /** Snapshot of a device's observable state. */
  datatype DeviceState = DeviceState(trace: seq<Event>, writes: nat, closes: nat)

  /**
   * A device whose writes fail as `fault` says went from `before` to `after` by running
   * `p`, which ended with `f`: the accepted events were appended, nothing else changed.
   */
  ghost predicate Transition(fault: FaultOracle, before: DeviceState, p: seq<Step>, after: DeviceState, f: Option<Fault>)
  {
    var r := Exec(p, fault, before.writes);
    after == DeviceState(before.trace + r.emitted, r.writes, before.closes) && f == r.fault
  }

  /** Running nothing changes nothing. */
  lemma TransitionEmpty(fault: FaultOracle, s: DeviceState)
    ensures Transition(fault, s, [], s, None)
  {
  }

  /** Two programs run one after the other, the first one to its end, are their concatenation. */
  lemma TransitionThen(fault: FaultOracle, s0: DeviceState, p: seq<Step>, s1: DeviceState, q: seq<Step>, s2: DeviceState, f: Option<Fault>)
    requires Transition(fault, s0, p, s1, None) && Transition(fault, s1, q, s2, f)
    ensures Transition(fault, s0, p + q, s2, f)
  {
    ExecAppend(p, q, fault, s0.writes);
  }

  /** A program stopped by a failure is also where any longer program starting with it stops. */
  lemma TransitionStop(fault: FaultOracle, s0: DeviceState, p: seq<Step>, s1: DeviceState, q: seq<Step>, f: Fault)
    requires Transition(fault, s0, p, s1, Some(f))
    ensures Transition(fault, s0, p + q, s1, Some(f))
  {
    ExecAppend(p, q, fault, s0.writes);
  }

  /** A kernel uinput device: the events it accepted, how many writes it saw, how often it was closed. */
  class VirtualDevice {
    var trace: seq<Event>
    var writes: nat
    var closes: nat
    const fault: FaultOracle

    constructor (fault: FaultOracle)
      ensures trace == [] && writes == 0 && closes == 0 && this.fault == fault
    {
      trace, writes, closes := [], 0, 0;
      this.fault := fault;
    }

    function State(): DeviceState
      reads this
    {
      DeviceState(trace, writes, closes)
    }

    /**
     * One `write` (or `syn`) call on the device. As a step whose failure ends the
     * operation it is `Must(e)`; with its failure discarded it is `Try(e)`.
     */
    method Write(e: Event) returns (f: Option<Fault>)
      modifies this
      ensures f == fault(old(writes))
      ensures trace == old(trace) + (if f.None? then [e] else [])
      ensures writes == old(writes) + 1 && closes == old(closes)
      ensures Transition(fault, old(State()), [Must(e)], State(), f)
      ensures Transition(fault, old(State()), [Try(e)], State(), None)
    {
      f := fault(writes);
      if f.None? {
        trace := trace + [e];
      }
      writes := writes + 1;
    }

    method Close()
      modifies this
      ensures trace == old(trace) && writes == old(writes) && closes == old(closes) + 1
    {
      closes := closes + 1;
    }
  }
}
