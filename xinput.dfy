/**
 * XInput master seats (`XInputMaster` in the Rust implementation): a named pair of master
 * pointer and master keyboard that the X server creates on request and lists in the
 * output of `xinput list`, one device per line with an `id=<n>` field.
 */
module XInput {
  import opened Wrappers
  import opened Text
  import opened Device

  /** The `xinput` invocations of this layer: `xinput list` and `xinput create-master <name>`. */
  datatype Command = ListDevices | CreateMasterSeat(seat: string)

  /** What one run of the `xinput` program gave: it could not be started, or it exited. */
  datatype CommandResult = SpawnFailed | Exited(success: bool, stdout: string)

  /** The answers of the X server to the `xinput` runs, in order. */
  type Script = seq<CommandResult>

  /** What the `k`-th run gives: the script's answer, and no answer (a run that cannot start) past its end. */
  function At(script: Script, k: nat): CommandResult
  {
    if k < |script| then script[k] else SpawnFailed
  }

  /**
   * The X server as the `xinput` program sees it. `At(respond, k)` is what the k-th
   * `xinput` run gives; `commands` logs the runs so far.
   */
  class XServer {
    var commands: seq<Command>
    const respond: Script

    constructor (respond: Script)
      ensures commands == [] && this.respond == respond
    {
      commands := [];
      this.respond := respond;
    }

    /** Runs `xinput` once as `command` and returns what it gave. */
    method Run(command: Command) returns (result: CommandResult)
      modifies this
      ensures commands == old(commands) + [command]
      ensures result == At(respond, |old(commands)|)
    {
      result := At(respond, |commands|);
      commands := commands + [command];
    }

    /**
     * `get_device_id_by_name`: the id on the first line of `xinput list` that mentions
     * `name` and carries a readable id; a line whose id cannot be read is passed over.
     */
    method GetDeviceIdByName(name: string) returns (r: Result<int, DeviceError>)
      modifies this
      ensures commands == old(commands) + [ListDevices]
      ensures r == LookupResult(At(respond, |old(commands)|), name)
    {
      var output := Run(ListDevices);
      if output.SpawnFailed? {
        return Failure(XInputFailed);
      }
      var id := FirstIdIn(RustLines(output.stdout), name, IdOnLine);
      if id.Some? {
        return Success(id.value);
      }
      return Failure(DeviceNotFound(name));
    }

    /** `run_xinput`: a run that cannot start or exits unsuccessfully is an error. */
    method RunXInput(command: Command) returns (r: Outcome<DeviceError>)
      modifies this
      ensures commands == old(commands) + [command]
      ensures r == CommandOutcome(At(respond, |old(commands)|))
    {
      var output := Run(command);
      if output.SpawnFailed? || !output.success {
        return Fail(XInputFailed);
      }
      return Pass;
    }

    /**
     * `XInputMaster::create`: looks up the seat's pointer and keyboard; when both are
     * listed the seat is reused, otherwise it is created and looked up again.
     */
    method CreateMaster(name: string) returns (r: Result<Master, DeviceError>)
      modifies this
      ensures commands == old(commands) + CreateCommands(respond, |old(commands)|, name)
      ensures r == CreateResult(respond, |old(commands)|, name)
    {
      ghost var n := |commands|;
      var pointer, keyboard := LookUpSeat(name);
      if pointer.Success? && keyboard.Success? {
        CreateListed(respond, n, name);
        return Success(Master(name, pointer.value, keyboard.value));
      }
      ghost var mid := commands;
      r := CreateAndFetch(name);
      CreateUnlisted(respond, n, name, old(commands), mid, commands);
    }

    /** The two lookups `create` starts with: the seat's pointer, then its keyboard. */
    method LookUpSeat(name: string) returns (pointer: Result<int, DeviceError>, keyboard: Result<int, DeviceError>)
      modifies this
      ensures commands == old(commands) + [ListDevices, ListDevices]
      ensures pointer == LookupResult(At(respond, |old(commands)|), name + " pointer")
      ensures keyboard == LookupResult(At(respond, |old(commands)| + 1), name + " keyboard")
      ensures pointer.Success? && keyboard.Success? <==> SeatListed(respond, |old(commands)|, name)
    {
      pointer := GetDeviceIdByName(name + " pointer");
      keyboard := GetDeviceIdByName(name + " keyboard");
    }

    /** The second half of `create`: `create-master`, then both lookups again, each one `?`. */
    method CreateAndFetch(name: string) returns (r: Result<Master, DeviceError>)
      modifies this
      ensures commands == old(commands) + CreationCommands(respond, |old(commands)|, name)
      ensures r == CreationResult(respond, |old(commands)|, name)
    {
      ghost var m, before := |commands|, commands;
      var created := RunXInput(CreateMasterSeat(name));
      if created.Fail? {
        return Failure(created.error);
      }
      ghost var mid := commands;
      r := FetchMaster(name);
      ghost var rest := FetchCommands(respond, m + 1, name);
      assert |mid| == m + 1 && commands == mid + rest;
      assert mid + rest == before + ([CreateMasterSeat(name)] + rest);
    }

    method FetchMaster(name: string) returns (r: Result<Master, DeviceError>)
      modifies this
      ensures commands == old(commands) + FetchCommands(respond, |old(commands)|, name)
      ensures r == FetchResult(respond, |old(commands)|, name)
    {
      var pointer := GetDeviceIdByName(name + " pointer");
      if pointer.Failure? {
        return Failure(pointer.error);
      }
      var keyboard := GetDeviceIdByName(name + " keyboard");
      if keyboard.Failure? {
        return Failure(keyboard.error);
      }
      return Success(Master(name, pointer.value, keyboard.value));
    }
  }

  /**
   * The loop of `get_device_id_by_name` over the lines of the listing: the first line
   * that mentions `name` and has a readable id gives the answer.
   */
  method FirstIdIn(lines: seq<string>, name: string, idOf: IdReader) returns (id: Option<int>)
    ensures id == FindIdWith(lines, name, idOf)
  {
    var i := 0;
    while i < |lines|
      invariant 0 <= i <= |lines|
      invariant forall j :: 0 <= j < i ==> !Matcher(name, idOf)(lines[j])
    {
      if Contains(lines[i], name) {
        id := idOf(lines[i]);
        if id.Some? {
          assert Matcher(name, idOf)(lines[i]);
          assert FirstWhere(lines, Matcher(name, idOf)) == i;
          return;
        }
      }
      assert !Matcher(name, idOf)(lines[i]);
      i := i + 1;
    }
    return None;
  }

  /** A master seat: its name and the ids of its master pointer and master keyboard. */
  datatype Master = Master(name: string, pointerId: int, keyboardId: int)

  /** The index of the first word of `words` that starts with `prefix`, or `|words|`. */
  function FirstWithPrefix(words: seq<string>, prefix: string): (k: nat)
    ensures k <= |words|
    ensures forall j :: 0 <= j < k ==> !StartsWith(words[j], prefix)
    ensures k < |words| ==> StartsWith(words[k], prefix)
  {
    if words == [] then 0
    else if StartsWith(words[0], prefix) then 0
    else 1 + FirstWithPrefix(words[1..], prefix)
  }

  /** The id a line of `xinput list` gives: from the first `id=` word only, read as an `i32`. */
  function IdOnLine(line: string): (id: Option<int>)
    ensures id.Some? ==> I32Min <= id.value <= I32Max
  {
    var words := SplitWhitespace(line);
    var k := FirstWithPrefix(words, "id=");
    if k == |words| then None else ParseI32(words[k][3..])
  }

  /** How the id of a line is read: `IdOnLine`, as a parameter of the search below. */
  type IdReader = string -> Option<int>

  /** A line counts for `name` when it mentions the name and carries a readable id. */
  function Matcher(name: string, idOf: IdReader): string -> bool
  {
    line => Contains(line, name) && idOf(line).Some?
  }

  /** The index of the first line that `matches`, or `|lines|`. */
  function FirstWhere(lines: seq<string>, matches: string -> bool): (i: nat)
    ensures i <= |lines|
    ensures forall j :: 0 <= j < i ==> !matches(lines[j])
    ensures i < |lines| ==> matches(lines[i])
  {
    if lines == [] then 0
    else if matches(lines[0]) then 0
    else 1 + FirstWhere(lines[1..], matches)
  }

  /** The id given by the first line that counts for `name`. */
  function FindIdWith(lines: seq<string>, name: string, idOf: IdReader): (id: Option<int>)
    ensures id.None? <==> forall i :: 0 <= i < |lines| ==> !Matcher(name, idOf)(lines[i])
  {
    var i := FirstWhere(lines, Matcher(name, idOf));
    if i == |lines| then None else idOf(lines[i])
  }

  function FindId(lines: seq<string>, name: string): Option<int>
  {
    FindIdWith(lines, name, IdOnLine)
  }

  /** What `get_device_id_by_name` gives for one `xinput list` run. */
  function LookupResult(listing: CommandResult, name: string): (r: Result<int, DeviceError>)
    ensures r.Failure? ==> r.error == XInputFailed || r.error == DeviceNotFound(name)
  {
    if listing.SpawnFailed? then Failure(XInputFailed)
    else
      var id := FindId(RustLines(listing.stdout), name);
      if id.Some? then Success(id.value) else Failure(DeviceNotFound(name))
  }

  /** What `run_xinput` gives for one run. */
  function CommandOutcome(result: CommandResult): (r: Outcome<DeviceError>)
    ensures r.Pass? <==> result.Exited? && result.success
  {
    if result.SpawnFailed? || !result.success then Fail(XInputFailed) else Pass
  }

  /** Whether the first two lookups of `create` (runs `n` and `n + 1`) both found the seat. */
  predicate SeatListed(respond: Script, n: nat, name: string)
  {
    LookupResult(At(respond, n), name + " pointer").Success? && LookupResult(At(respond, n + 1), name + " keyboard").Success?
  }

  /** The runs the lookups after `create-master` make, when the first is the `k`-th. */
  function FetchCommands(respond: Script, k: nat, name: string): seq<Command>
  {
    if LookupResult(At(respond, k), name + " pointer").Failure? then [ListDevices] else [ListDevices, ListDevices]
  }

  function FetchResult(respond: Script, k: nat, name: string): Result<Master, DeviceError>
  {
    var pointer := LookupResult(At(respond, k), name + " pointer");
    if pointer.Failure? then Failure(pointer.error)
    else
      var keyboard := LookupResult(At(respond, k + 1), name + " keyboard");
      if keyboard.Failure? then Failure(keyboard.error)
      else Success(Master(name, pointer.value, keyboard.value))
  }

  /** The runs from `create-master` on, when it is the `m`-th. */
  function CreationCommands(respond: Script, m: nat, name: string): seq<Command>
  {
    [CreateMasterSeat(name)] + (if CommandOutcome(At(respond, m)).Fail? then [] else FetchCommands(respond, m + 1, name))
  }

  function CreationResult(respond: Script, m: nat, name: string): Result<Master, DeviceError>
  {
    if CommandOutcome(At(respond, m)).Fail? then Failure(XInputFailed) else FetchResult(respond, m + 1, name)
  }

  /** The `xinput` runs `create` makes when its first run is the `n`-th. */
  function CreateCommands(respond: Script, n: nat, name: string): seq<Command>
  {
    [ListDevices, ListDevices] + (if SeatListed(respond, n, name) then [] else CreationCommands(respond, n + 2, name))
  }

  /** `create` is its two lookups, then, unless both succeeded, the creation. */
  lemma CreateSteps(respond: Script, n: nat, name: string)
    ensures SeatListed(respond, n, name) ==> CreateCommands(respond, n, name) == [ListDevices, ListDevices]
    ensures !SeatListed(respond, n, name) ==>
      && CreateCommands(respond, n, name) == [ListDevices, ListDevices] + CreationCommands(respond, n + 2, name)
      && CreateResult(respond, n, name) == CreationResult(respond, n + 2, name)
  {
  }

  /** A listed seat: the two lookups are all `create` runs, and their ids are the seat's. */
  lemma CreateListed(respond: Script, n: nat, name: string)
    requires SeatListed(respond, n, name)
    ensures CreateCommands(respond, n, name) == [ListDevices, ListDevices]
    ensures CreateResult(respond, n, name)
      == Success(Master(name, LookupResult(At(respond, n), name + " pointer").value, LookupResult(At(respond, n + 1), name + " keyboard").value))
  {
  }

  /** A missing seat: the runs of `create` are the two lookups followed by those of the creation. */
  lemma CreateUnlisted(respond: Script, n: nat, name: string, before: seq<Command>, mid: seq<Command>, after: seq<Command>)
    requires !SeatListed(respond, n, name) && |before| == n
    requires mid == before + [ListDevices, ListDevices]
    requires after == mid + CreationCommands(respond, |mid|, name)
    ensures after == before + CreateCommands(respond, n, name)
    ensures CreateResult(respond, n, name) == CreationResult(respond, |mid|, name)
  {
    CreateSteps(respond, n, name);
    var rest := CreationCommands(respond, n + 2, name);
    assert |mid| == n + 2;
    assert after == (before + [ListDevices, ListDevices]) + rest;
    assert (before + [ListDevices, ListDevices]) + rest == before + ([ListDevices, ListDevices] + rest);
  }

  /** What `create` gives when its first run is the `n`-th. */
  function CreateResult(respond: Script, n: nat, name: string): Result<Master, DeviceError>
  {
    if SeatListed(respond, n, name) then
      Success(Master(name, LookupResult(At(respond, n), name + " pointer").value, LookupResult(At(respond, n + 1), name + " keyboard").value))
    else CreationResult(respond, n + 2, name)
  }

  /**
   * A listed seat is reused without creating anything; otherwise exactly one
   * `create-master` run is made, for `name`, and it comes after both lookups.
   */
  lemma CreateOnlyWhenMissing(respond: Script, n: nat, name: string, seat: string)
    ensures var cs := CreateCommands(respond, n, name);
      && 2 <= |cs| && cs[0] == ListDevices && cs[1] == ListDevices
      && (SeatListed(respond, n, name) ==> |cs| == 2)
      && (!SeatListed(respond, n, name) ==> cs[2] == CreateMasterSeat(name))
      && multiset(cs)[CreateMasterSeat(seat)] == (if !SeatListed(respond, n, name) && seat == name then 1 else 0)
  {
  }

  /** A seat that `create` gives has the ids the listings report for its two masters. */
  lemma CreatedSeatIds(respond: Script, n: nat, name: string)
    requires CreateResult(respond, n, name).Success?
    ensures var m := CreateResult(respond, n, name).value;
      var (pl, kl) := if SeatListed(respond, n, name) then (n, n + 1) else (n + 3, n + 4);
      && m.name == name
      && At(respond, pl).Exited? && Some(m.pointerId) == FindId(RustLines(At(respond, pl).stdout), name + " pointer")
      && At(respond, kl).Exited? && Some(m.keyboardId) == FindId(RustLines(At(respond, kl).stdout), name + " keyboard")
  {
  }

  /** A failed `create-master` run is reported, and no more runs follow it. */
  lemma FailedCreationStops(respond: Script, n: nat, name: string)
    requires !SeatListed(respond, n, name) && (At(respond, n + 2).SpawnFailed? || !At(respond, n + 2).success)
    ensures CreateResult(respond, n, name) == Failure(XInputFailed)
    ensures |CreateCommands(respond, n, name)| == 3
  {
  }

  /** A seat missing from the listing after it was created is an error naming the missing master. */
  lemma StillMissingFails(respond: Script, n: nat, name: string)
    requires !SeatListed(respond, n, name) && CommandOutcome(At(respond, n + 2)).Pass?
    requires At(respond, n + 3).Exited? && FindId(RustLines(At(respond, n + 3).stdout), name + " pointer").None?
    ensures CreateResult(respond, n, name) == Failure(DeviceNotFound(name + " pointer"))
  {
  }

  /** The id on a line is read from its first `id=` word: `id=<n>` gives `n` for any `n` that fits in an `i32`. */
  lemma IdOnLineReadsDecimal(line: string, k: nat, n: nat)
    requires n <= I32Max
    requires k < |SplitWhitespace(line)| && SplitWhitespace(line)[k] == "id=" + DecimalString(n)
    requires forall j :: 0 <= j < k ==> !StartsWith(SplitWhitespace(line)[j], "id=")
    ensures IdOnLine(line) == Some(n)
  {
    var words := SplitWhitespace(line);
    assert StartsWith(words[k], "id=");
    assert FirstWithPrefix(words, "id=") == k;
    assert words[k][3..] == DecimalString(n);
    ParseI32OfDecimal(n);
  }
}
