/**
 * The stand-alone demonstration script mpx.py: it reads the screen size from
 * `xdpyinfo`, creates an absolute virtual mouse whose axes span the screen, moves it
 * through four fixed positions and closes the device whatever happens.
 *
 * The script's own `get_screen_resolution` does not wrap a failing subprocess, unlike
 * the one in python/mpx.py; `ScreenResolution` here keeps the code as written, and the
 * run of the script uses it.
 */
module MpxDemo {
  import opened Wrappers
  import opened InputEvents
  import Text
  import PyMpx

  // ---------------------------------------------------------------------------------
  // Screen resolution (mpx.py, lines 7-16)

  /** `get_screen_resolution` as the script writes it: an exception of `subprocess.run` passes through unchanged. */
  function ScreenResolution(run: Result<PyMpx.Completed, PyMpx.PyError>): (r: Result<(nat, nat), PyMpx.PyError>)
    ensures run.Failure? ==> r == Failure(run.error)
    ensures run.Success? ==> r == PyMpx.ScreenResolution(run)
  {
    match run
    case Failure(e) => Failure(e)
    case Success(_) => PyMpx.ScreenResolution(run)
  }

  /** The script's parse and the wrapping one disagree exactly on a `SubprocessError`, which only the latter turns into the resolution error. */
  lemma SubprocessErrorEscapes(run: Result<PyMpx.Completed, PyMpx.PyError>)
    ensures ScreenResolution(run) != PyMpx.ScreenResolution(run) <==> run == Failure(PyMpx.SubprocessError)
    ensures ScreenResolution(Failure(PyMpx.SubprocessError)) == Failure(PyMpx.SubprocessError)
    ensures PyMpx.ScreenResolution(Failure(PyMpx.SubprocessError)) == Failure(PyMpx.RuntimeError(PyMpx.NoResolution))
  {
  }

  /** A needle longer than the haystack is not in it. */
  lemma {:induction false} ShorterNotContained(haystack: string, needle: string)
    requires |haystack| < |needle|
    ensures !Text.Contains(haystack, needle)
    decreases |haystack|
  {
    if haystack != [] {
      ShorterNotContained(haystack[1..], needle);
    }
  }

  /** A haystack none of whose first `k` characters starts the needle, and too short for a later start, does not contain it. */
  lemma {:induction false} NoStartNotContained(haystack: string, needle: string, k: nat)
    requires needle != [] && |haystack| < k + |needle|
    requires forall i :: 0 <= i < k && i < |haystack| ==> haystack[i] != needle[0]
    ensures !Text.Contains(haystack, needle)
    decreases |haystack|
  {
    if haystack != [] {
      if k == 0 {
        ShorterNotContained(haystack, needle);
      } else {
        assert haystack[0] != needle[0];
        forall i | 0 <= i < k - 1 && i < |haystack[1..]|
          ensures haystack[1..][i] != needle[0]
        {
          assert haystack[1..][i] == haystack[i + 1];
        }
        NoStartNotContained(haystack[1..], needle, k - 1);
      }
    }
  }

  /** The sample `dimensions:    1920x1080` gives 1920 by 1080. */
  lemma SampleDimensions(status: int, out: string)
    requires out == "dimensions:    1920x1080"
    ensures ScreenResolution(Success(PyMpx.Completed(status, out))) == Success((1920, 1080))
  {
    var pre: string := [];
    SampleInParts(out, pre);
    ShorterNotContained(pre + "dimensions", "dimensions:");
    PyMpx.ResolutionOfDimensionsLine(status, pre, 1920, 1080, "    ", []);
  }

  lemma SampleInParts(out: string, pre: string)
    requires out == "dimensions:    1920x1080" && pre == []
    ensures out == pre + "dimensions:" + "    " + Text.DecimalString(1920) + "x" + Text.DecimalString(1080) + []
  {
    DecimalSamples();
    assert "1920" + "x" + "1080" == "1920x1080";
    assert "dimensions:" + "    " == "dimensions:    ";
    assert "dimensions:    " + "1920x1080" == out;
  }

  lemma DecimalSamples()
    ensures Text.DecimalString(1920) == "1920" && Text.DecimalString(1080) == "1080"
  {
  }

  /** The sample `invalid output` has no `dimensions:` and fails with the resolution error. */
  lemma SampleInvalidOutput(status: int)
    ensures ScreenResolution(Success(PyMpx.Completed(status, "invalid output"))) == Failure(PyMpx.RuntimeError(PyMpx.NoResolution))
  {
    var out, keyword := "invalid output", "dimensions:";
    NoStartNotContained(out, keyword, 4);
    PyMpx.ResolutionNeedsKeyword(status, out);
  }

  // ---------------------------------------------------------------------------------
  // The device and its tour (mpx.py, lines 18-45)

  /** The absolute axes `EV_ABS` declares. */
  datatype AbsAxis = AxisX | AxisY

  /** The capabilities handed to `UInput`: the two absolute axes with their ranges, and the keys. */
  datatype Capabilities = Capabilities(abs: seq<(AbsAxis, PyMpx.AbsInfo)>, keys: seq<Button>)

  function DemoCapabilities(width: nat, height: nat): Capabilities
  {
    var (ax, ay) := PyMpx.MouseAxes(width, height);
    Capabilities([(AxisX, ax), (AxisY, ay)], [BtnLeft])
  }

  /** The axes are X then Y, ending one short of the screen's width and height, and the left button is declared. */
  lemma CapabilitiesSpanScreen(width: nat, height: nat)
    ensures var c := DemoCapabilities(width, height);
      && |c.abs| == 2 && c.abs[0].0 == AxisX && c.abs[1].0 == AxisY
      && c.abs[0].1.minimum == 0 && c.abs[0].1.maximum == width - 1
      && c.abs[1].1.minimum == 0 && c.abs[1].1.maximum == height - 1
      && BtnLeft in c.keys
  {
  }

  /** The four positions the mouse visits; `//` on the non-negative size is Dafny's `/`. */
  function Positions(width: nat, height: nat): seq<(int, int)>
  {
    [(100, 100), (width / 2, height / 2), (width - 200, height - 200), (100, 100)]
  }

  /** Every position lies within the axes exactly when the screen is at least 200 pixels each way. */
  lemma PositionsOnScreen(width: nat, height: nat)
    ensures var (ax, ay) := PyMpx.MouseAxes(width, height);
      (forall p :: p in Positions(width, height) ==> ax.minimum <= p.0 <= ax.maximum && ay.minimum <= p.1 <= ay.maximum)
      <==> width >= 200 && height >= 200
  {
    var ps := Positions(width, height);
    if width < 200 {
      assert ps[2] in ps;
    } else if height < 200 {
      assert ps[2] in ps;
    }
  }

  /** The writes of the loop: for each position, X, then Y, then a sync. */
  function Tour(positions: seq<(int, int)>): seq<Step>
    decreases |positions|
  {
    if positions == [] then []
    else
      var p := positions[|positions| - 1];
      Tour(positions[..|positions| - 1]) + PyMpx.MoveSteps(p.0, p.1)
  }

  lemma {:induction false} TourAppend(a: seq<(int, int)>, b: seq<(int, int)>)
    ensures Tour(a + b) == Tour(a) + Tour(b)
    decreases |b|
  {
    if b == [] {
      assert a + b == a;
    } else {
      var init := b[..|b| - 1];
      assert (a + b)[..|a + b| - 1] == a + init;
      TourAppend(a, init);
    }
  }

  /** The writes for position `i` are the three at `3 * i`. */
  lemma {:induction false} TourVisitsInOrder(positions: seq<(int, int)>, i: nat)
    requires i < |positions|
    ensures |Tour(positions)| == 3 * |positions|
    ensures Tour(positions)[3 * i..3 * i + 3] == PyMpx.MoveSteps(positions[i].0, positions[i].1)
    decreases |positions|
  {
    var init := positions[..|positions| - 1];
    if i < |init| {
      TourVisitsInOrder(init, i);
    } else if init != [] {
      TourVisitsInOrder(init, 0);
    }
    assert Tour(positions) == Tour(init) + PyMpx.MoveSteps(positions[|positions| - 1].0, positions[|positions| - 1].1);
    if i < |init| {
      assert init[i] == positions[i];
      assert Tour(positions)[3 * i..3 * i + 3] == Tour(init)[3 * i..3 * i + 3];
    }
  }

  lemma TourSplit(positions: seq<(int, int)>, i: nat)
    requires i < |positions|
    ensures Tour(positions) == Tour(positions[..i]) + (PyMpx.MoveSteps(positions[i].0, positions[i].1) + Tour(positions[i + 1..]))
  {
    var head, rest := positions[..i + 1], positions[i + 1..];
    assert positions == head + rest;
    TourAppend(head, rest);
    assert head[..|head| - 1] == positions[..i] && head[|head| - 1] == positions[i];
  }

  /** The `except KeyboardInterrupt: pass` around the loop: only an interrupt is swallowed. */
  function Interrupted(r: Outcome<PyMpx.PyError>): (s: Outcome<PyMpx.PyError>)
    ensures s.Pass? <==> r.Pass? || r == Fail(PyMpx.KeyboardInterrupt)
    ensures s.Fail? ==> s == r
  {
    if r == Fail(PyMpx.KeyboardInterrupt) then Pass else r
  }

  /** One pass of the loop: X, then Y, then a sync. */
  method MoveOnce(d: VirtualDevice, x: int, y: int) returns (r: Outcome<PyMpx.PyError>)
    modifies d
    ensures PyMpx.Wrote(d.fault, old(d.State()), PyMpx.MoveSteps(x, y), d.State(), r)
  {
    ghost var s0 := d.State();
    r := PyMpx.Emit(d, AbsX(x));
    ghost var s1 := d.State();
    if r.Fail? {
      PyMpx.WroteStop(d.fault, s0, [Must(AbsX(x))], s1, [Must(AbsY(y)), Must(Sync)], r);
      return;
    }
    r := PyMpx.EmitSynced(d, AbsY(y));
    PyMpx.WroteThen(d.fault, s0, [Must(AbsX(x))], s1, [Must(AbsY(y)), Must(Sync)], d.State(), r);
  }

  /** The `for` loop inside the `try`: the first write that raises ends it. */
  method TourDevice(d: VirtualDevice, positions: seq<(int, int)>) returns (r: Outcome<PyMpx.PyError>)
    modifies d
    ensures PyMpx.Wrote(d.fault, old(d.State()), Tour(positions), d.State(), r)
  {
    ghost var s0 := d.State();
    TransitionEmpty(d.fault, s0);
    r := Pass;
    var i := 0;
    while i < |positions|
      invariant 0 <= i <= |positions|
      invariant PyMpx.Wrote(d.fault, s0, Tour(positions[..i]), d.State(), Pass) && r == Pass
    {
      ghost var s1 := d.State();
      var (x, y) := positions[i];
      r := MoveOnce(d, x, y);
      TourSplit(positions, i);
      if r.Fail? {
        PyMpx.WroteStop(d.fault, s1, PyMpx.MoveSteps(x, y), d.State(), Tour(positions[i + 1..]), r);
        PyMpx.WroteThen(d.fault, s0, Tour(positions[..i]), s1, PyMpx.MoveSteps(x, y) + Tour(positions[i + 1..]), d.State(), r);
        return;
      }
      PyMpx.WroteThen(d.fault, s0, Tour(positions[..i]), s1, PyMpx.MoveSteps(x, y), d.State(), r);
      assert positions[..i + 1][..i] == positions[..i];
      i := i + 1;
    }
    assert positions[..i] == positions;
  }

  /**
   * `main` with the resolution taken from `xdpyinfo` by the script's own parse, and the
   * device creation's outcome given: what it asks `UInput` for, and how it ends. Once
   * the device exists, it is closed exactly once, after the tour, whether the tour
   * ended normally, by an interrupt (which `main` swallows) or by another exception
   * (which `main` raises).
   */
  method DemoMain(run: Result<PyMpx.Completed, PyMpx.PyError>, creation: Outcome<PyMpx.PyError>, d: VirtualDevice)
    returns (requested: Option<Capabilities>, r: Outcome<PyMpx.PyError>)
    modifies d
    ensures ScreenResolution(run).Failure? ==>
      requested == None && r == Fail(ScreenResolution(run).error) && d.State() == old(d.State())
    ensures ScreenResolution(run).Success? ==>
      var (width, height) := ScreenResolution(run).value;
      && requested == Some(DemoCapabilities(width, height))
      && (creation.Fail? ==> r == creation && d.State() == old(d.State()))
      && (creation.Pass? ==>
            var tour := Exec(Tour(Positions(width, height)), d.fault, old(d.writes));
            && d.trace == old(d.trace) + tour.emitted && d.writes == tour.writes
            && d.closes == old(d.closes) + 1
            && r == Interrupted(PyMpx.Raised(tour.fault)))
  {
    var resolution := ScreenResolution(run);
    if resolution.Failure? {
      return None, Fail(resolution.error);
    }
    var (width, height) := resolution.value;
    requested := Some(DemoCapabilities(width, height));
    if creation.Fail? {
      return requested, creation;
    }
    var positions := Positions(width, height);
    var toured := TourDevice(d, positions);
    d.Close();
    r := Interrupted(toured);
  }
}
