/** The driver's side of the out-of-band channel to the Permafrost
    service: the sound-font list request sent over the named pipe and the
    classification of its reply, the cached availability probe, the
    read-and-clear PanicRequest value through which Permafrost asks for a
    panic, the mixer command dispatcher and the periodic poll that also
    honours the panic flag of the audio bus.

    The pipe and the registry are not modelled as devices: whether the
    pipe opened, whether the write went through, the chunks the reads
    returned and whether the registry key could be created are arguments;
    the PanicRequest registry value is one cell of the client. Calls into
    the synthesizer are returned as a trace of effects. */
module PermafrostIpc {
  import opened Primitives
  import opened AudioBus

  // ---------------------------------------------------------------------
  // The sound-font list request
  // ---------------------------------------------------------------------

  const RequestTag: string := "PERMAFROST"
  const Separator: char := '|'
  const ErrorPrefix: string := "ERROR|"
  const Nul: char := 0 as char

  /** A possibly-null wide string argument, with null read as "". */
  function OrEmpty(s: Option<string>): string {
    match s
    case None => ""
    case Some(v) => v
  }

  /** The request line: tag, application name, application path and
      process id, joined by '|'. Built by successive appends, as the
      driver builds its std::wstring. */
  method BuildRequest(appName: Option<string>, appPath: Option<string>, pid: uint32) returns (request: string)
    ensures request == Join([RequestTag, OrEmpty(appName), OrEmpty(appPath), NatToString(pid)], Separator)
  {
    request := RequestTag + [Separator];
    request := request + OrEmpty(appName);
    request := request + [Separator];
    request := request + OrEmpty(appPath);
    request := request + [Separator];
    request := request + NatToString(pid);
    assert Join([OrEmpty(appPath), NatToString(pid)], Separator) == OrEmpty(appPath) + [Separator] + NatToString(pid);
  }

  /** When neither the name nor the path contains '|', the service splits
      the request back into exactly the four fields it was built from, and
      the last field reads back as the process id. */
  lemma RequestFieldsRoundTrip(appName: Option<string>, appPath: Option<string>, pid: uint32)
    requires Separator !in OrEmpty(appName) && Separator !in OrEmpty(appPath)
    ensures
      var parts := [RequestTag, OrEmpty(appName), OrEmpty(appPath), NatToString(pid)];
      Fields(Join(parts, Separator), Separator) == parts
      && AllDigits(parts[3]) && DigitsValue(parts[3]) == pid
  {
    var parts := [RequestTag, OrEmpty(appName), OrEmpty(appPath), NatToString(pid)];
    assert forall i :: 0 <= i < |parts| ==> Separator !in parts[i];
    FieldsOfJoin(parts, Separator);
    NatToStringRoundTrip(pid);
  }

  // ---------------------------------------------------------------------
  // The reply
  // ---------------------------------------------------------------------

  /** The C string a char buffer holds: everything before the first NUL. */
  function CString(buffer: string): (s: string)
    ensures s <= buffer && Nul !in s
    ensures |s| < |buffer| ==> buffer[|s|] == Nul
  {
    if buffer == [] || buffer[0] == Nul then [] else [buffer[0]] + CString(buffer[1..])
  }

  /** A buffer without NUL is its own C string. */
  lemma CStringOfPlain(buffer: string)
    requires Nul !in buffer
    ensures CString(buffer) == buffer
  {
  }

  /** The reply assembled from the reads: each read's buffer is appended
      as a C string. */
  function Assembled(chunks: seq<string>): string {
    if chunks == [] then [] else Assembled(chunks[..|chunks| - 1]) + CString(chunks[|chunks| - 1])
  }

  lemma {:induction false} AssembledHasNoNul(chunks: seq<string>)
    ensures Nul !in Assembled(chunks)
  {
    if chunks != [] {
      AssembledHasNoNul(chunks[..|chunks| - 1]);
    }
  }

  /** The read loop's accumulation (`response += buffer`), over the
      buffers the successive reads filled. */
  method AccumulateResponse(chunks: seq<string>) returns (response: string)
    ensures response == Assembled(chunks)
    ensures Nul !in response
  {
    response := "";
    var i := 0;
    while i < |chunks|
      invariant 0 <= i <= |chunks|
      invariant response == Assembled(chunks[..i])
    {
      assert chunks[..i + 1][..i] == chunks[..i];
      response := response + CString(chunks[i]);
      i := i + 1;
    }
    assert chunks[..|chunks|] == chunks;
    AssembledHasNoNul(chunks);
  }

  /** The failure test `response.substr(0, 6) == "ERROR|"`: the reply
      starts with the error prefix (a shorter reply never does). */
  predicate IsErrorReply(response: string)
    ensures IsErrorReply(response) <==> ErrorPrefix <= response
  {
    (if |response| < |ErrorPrefix| then response else response[..|ErrorPrefix|]) == ErrorPrefix
  }

  /** How the driver reads a reply: empty and "ERROR|..." replies are
      failures; any other reply is the list data, converted up to its
      terminator with the terminator removed. */
  function ClassifyResponse(response: string): (data: Option<string>)
    ensures data.None? <==> response == [] || ErrorPrefix <= response
    ensures data.Some? ==> data.value <= response && Nul !in data.value
    ensures data.Some? && Nul !in response ==> data.value == response
  {
    if response == [] then None
    else if IsErrorReply(response) then None
    else
      var converted := CString(response) + [Nul];
      CStringOfPlainIf(response);
      Some(converted[..|converted| - 1])
  }

  lemma CStringOfPlainIf(response: string)
    ensures Nul !in response ==> CString(response) == response
  {
    if Nul !in response {
      CStringOfPlain(response);
    }
  }

  // ---------------------------------------------------------------------
  // Mixer commands
  // ---------------------------------------------------------------------

  const PanicCommand: string := "PANIC"
  const ResetCommand: string := "RESET"
  const GetLevelsCommand: string := "GET_LEVELS"

  /** The calls the dispatcher and the poll make outside this file:
      ResetSynth(SwitchingBufferMode, ModeReset) and
      AudioBus_AcknowledgePanic. */
  datatype Effect =
    | ResetSynth(switchingBufferMode: bool, modeReset: bool)
    | AcknowledgeBusPanic

  /** The effects of ExecutePermafrostMixerCommand: PANIC resets the synth
      without a SysEx reset and acknowledges on a connected bus, RESET
      resets with a SysEx reset, anything else (the empty command and
      GET_LEVELS included) does nothing. */
  function CommandEffects(command: string, busConnected: bool): (effects: seq<Effect>)
    ensures command == PanicCommand ==>
      |effects| == (if busConnected then 2 else 1) && effects[0] == ResetSynth(false, false)
      && (AcknowledgeBusPanic in effects <==> busConnected)
    ensures command == ResetCommand ==> effects == [ResetSynth(false, true)]
    ensures command != PanicCommand && command != ResetCommand ==> effects == []
  {
    if command == [] then []
    else if command == PanicCommand then
      [ResetSynth(false, false)] + (if busConnected then [AcknowledgeBusPanic] else [])
    else if command == ResetCommand then [ResetSynth(false, true)]
    else []
  }

  /** GET_LEVELS is declared as a command but the dispatcher ignores it. */
  lemma GetLevelsIgnored(busConnected: bool)
    ensures CommandEffects(GetLevelsCommand, busConnected) == []
  {
  }

  /** The effects of one poll: the registry command, then, on a connected
      bus whose REQUEST bit the check saw set, a reset and an
      acknowledgement. */
  function PollEffects(command: string, connected: bool, busPanicSeen: bool): seq<Effect> {
    CommandEffects(command, connected)
    + (if connected && busPanicSeen then [ResetSynth(false, false), AcknowledgeBusPanic] else [])
  }

  function CountResets(effects: seq<Effect>): nat {
    if effects == [] then 0
    else CountResets(effects[..|effects| - 1]) + (if effects[|effects| - 1].ResetSynth? then 1 else 0)
  }

  lemma {:induction false} CountResetsAppend(a: seq<Effect>, b: seq<Effect>)
    ensures CountResets(a + b) == CountResets(a) + CountResets(b)
    decreases |b|
  {
    if b == [] {
      assert a + b == a;
    } else {
      CountResetsAppend(a, b[..|b| - 1]);
      assert (a + b)[..|a + b| - 1] == a + b[..|b| - 1];
    }
  }

  /** A poll resets the synthesizer at most twice, and once when the
      registry asked for a panic and the bus check then no longer sees the
      REQUEST bit (which the first acknowledgement cleared). */
  lemma PollResetsBounded(command: string, connected: bool, busPanicSeen: bool)
    ensures CountResets(PollEffects(command, connected, busPanicSeen)) <= 2
    ensures command == PanicCommand && !busPanicSeen ==>
      CountResets(PollEffects(command, connected, busPanicSeen)) == 1
  {
    var a := CommandEffects(command, connected);
    var b := if connected && busPanicSeen then [ResetSynth(false, false), AcknowledgeBusPanic] else [];
    CountResetsAppend(a, b);
    if command == PanicCommand && connected {
      CountResetsAppend([ResetSynth(false, false)], [AcknowledgeBusPanic]);
    }
    if connected && busPanicSeen {
      CountResetsAppend([ResetSynth(false, false)], [AcknowledgeBusPanic]);
    }
  }

  /** The bus Flags word after a poll on a connected bus, given the flags
      before it, whether the registry held a panic, and the outcomes of the
      three lock attempts. */
  function FlagsAfterPoll(flags: bv32, registryPanic: bool,
                          firstAckAcquired: bool, checkAcquired: bool, secondAckAcquired: bool): (r: bv32)
    ensures r == if (registryPanic && firstAckAcquired) || (PanicRequested(flags) && checkAcquired && secondAckAcquired)
                 then WithPanicAcknowledged(flags) else flags
    ensures !registryPanic && !PanicRequested(flags) ==> r == flags
    ensures registryPanic && firstAckAcquired ==> !PanicRequested(r) && PanicAcknowledged(r)
    ensures PanicRequested(flags) && checkAcquired && secondAckAcquired ==>
      !PanicRequested(r) && PanicAcknowledged(r)
  {
    var afterCommand := if registryPanic && firstAckAcquired then WithPanicAcknowledged(flags) else flags;
    if checkAcquired && PanicRequested(afterCommand) && secondAckAcquired
    then WithPanicAcknowledged(afterCommand)
    else afterCommand
  }

  /** A poll changes only the two handshake bits of the Flags word. */
  lemma PollKeepsOtherFlags(flags: bv32, registryPanic: bool,
                            firstAckAcquired: bool, checkAcquired: bool, secondAckAcquired: bool)
    ensures var r := FlagsAfterPoll(flags, registryPanic, firstAckAcquired, checkAcquired, secondAckAcquired);
      r & !HandshakeBits == flags & !HandshakeBits
  {
    var r := FlagsAfterPoll(flags, registryPanic, firstAckAcquired, checkAcquired, secondAckAcquired);
    if r != flags {
      var acked := WithPanicAcknowledged(flags);
      assert r == acked;
    }
  }

  /** When every lock attempt succeeds, a poll on a connected bus settles
      the handshake: REQUEST ends clear, and ACK ends set whenever a panic
      was requested through the bus or through the registry. */
  lemma PollSettlesHandshake(flags: bv32, registryPanic: bool)
    ensures
      var after := FlagsAfterPoll(flags, registryPanic, true, true, true);
      !PanicRequested(after)
      && (PanicRequested(flags) || registryPanic ==> PanicAcknowledged(after))
  {
  }

  // ---------------------------------------------------------------------
  // The client
  // ---------------------------------------------------------------------

  /** The driver's IPC state: the cached availability flag, whether mixer
      integration was initialized, and the PanicRequest value under
      HKCU\Software\OmniMIDI\Mixer (None while the key or the value does
      not exist). */
  class Client {
    var available: bool
    var mixerEnabled: bool
    var panicRequest: Option<uint32>

    /** A panic Permafrost has requested and the driver not yet taken. */
    predicate PanicPending()
      reads this
    {
      panicRequest.Some? && panicRequest.value != 0
    }

    constructor (registryValue: Option<uint32>)
      ensures !available && !mixerEnabled && panicRequest == registryValue
    {
      available := false;
      mixerEnabled := false;
      panicRequest := registryValue;
    }

    /** RequestSoundFontListFromPermafrost. A pipe that does not open marks
        the service unavailable; one that opens marks it available and the
        request is sent. A failed write, an empty reply and an "ERROR|"
        reply fail and leave the caller's list untouched; any other reply
        becomes the list. */
    method RequestSoundFontList(appName: Option<string>, appPath: Option<string>, pid: uint32,
                                pipeOpened: bool, writeSucceeded: bool, chunks: seq<string>,
                                outListData: string)
      returns (ok: bool, listData: string, sent: Option<string>)
      modifies this
      ensures available == pipeOpened
      ensures mixerEnabled == old(mixerEnabled) && panicRequest == old(panicRequest)
      ensures sent.Some? <==> pipeOpened
      ensures sent.Some? ==>
        sent.value == Join([RequestTag, OrEmpty(appName), OrEmpty(appPath), NatToString(pid)], Separator)
      ensures !pipeOpened || !writeSucceeded ==> !ok
      ensures pipeOpened && writeSucceeded ==> (ok <==> ClassifyResponse(Assembled(chunks)).Some?)
      ensures ok ==> listData == Assembled(chunks)
      ensures !ok ==> listData == outListData
    {
      listData := outListData;
      sent := None;
      if !pipeOpened {
        available := false;
        return false, listData, sent;
      }
      available := true;
      var request := BuildRequest(appName, appPath, pid);
      sent := Some(request);
      if !writeSucceeded {
        return false, listData, sent;
      }
      var response := AccumulateResponse(chunks);
      var data := ClassifyResponse(response);
      match data {
        case None =>
          ok := false;
        case Some(v) =>
          listData := v;
          ok := true;
      }
    }

    /** IsPermafrostAvailable: a cached TRUE answers without probing; a
        successful probe sets the cache; a failed one leaves it. */
    method IsAvailable(probeOpened: bool) returns (result: bool, probed: bool)
      modifies this
      ensures probed <==> !old(available)
      ensures result <==> old(available) || probeOpened
      ensures available == result
      ensures mixerEnabled == old(mixerEnabled) && panicRequest == old(panicRequest)
    {
      if available {
        return true, false;
      }
      probed := true;
      if probeOpened {
        available := true;
        return true, probed;
      }
      result := false;
    }

    /** InitializePermafrostMixer: when the key can be opened or created,
        PanicRequest is reset to 0; integration is enabled either way. */
    method InitializeMixer(keyCreated: bool)
      modifies this
      ensures mixerEnabled && available == old(available)
      ensures keyCreated ==> panicRequest == Some(0) && !PanicPending()
      ensures !keyCreated ==> panicRequest == old(panicRequest)
    {
      if keyCreated {
        panicRequest := Some(0);
      }
      mixerEnabled := true;
    }

    /** CheckPermafrostMixerCommand: reads PanicRequest and, when it is
        non-zero, clears it and reports PANIC. A second check with no new
        request therefore reports "". */
    method CheckMixerCommand() returns (command: string)
      modifies this
      ensures command == PanicCommand <==> old(PanicPending())
      ensures command == [] <==> !old(PanicPending())
      ensures !PanicPending()
      ensures old(PanicPending()) ==> panicRequest == Some(0)
      ensures !old(PanicPending()) ==> panicRequest == old(panicRequest)
      ensures available == old(available) && mixerEnabled == old(mixerEnabled)
    {
      command := "";
      match panicRequest {
        case None =>
        case Some(flag) =>
          if flag != 0 {
            command := PanicCommand;
            panicRequest := Some(0);
          }
      }
    }

    /** PollPermafrostMixerCommands, with the outcomes of the three bus
        lock attempts it may make: the acknowledgement of a registry PANIC,
        the REQUEST check, and the acknowledgement after it. */
    method PollMixerCommands(bus: Bus, firstAckAcquired: bool, checkAcquired: bool, secondAckAcquired: bool)
      returns (effects: seq<Effect>)
      requires bus.Valid()
      modifies this, bus
      ensures bus.Valid() && bus.DriverStateKept() && !PanicPending()
      ensures panicRequest == if old(PanicPending()) then Some(0) else old(panicRequest)
      ensures available == old(available) && mixerEnabled == old(mixerEnabled)
      ensures
        var command := if old(PanicPending()) then PanicCommand else "";
        var requestAfterCommand :=
          PanicRequested(old(bus.header.flags))
          && !(command == PanicCommand && old(bus.initialized) && firstAckAcquired);
        effects == PollEffects(command, old(bus.initialized), checkAcquired && requestAfterCommand)
      ensures old(bus.initialized) ==>
        bus.header.flags == FlagsAfterPoll(old(bus.header.flags), old(PanicPending()),
                                           firstAckAcquired, checkAcquired, secondAckAcquired)
      ensures old(bus.initialized) ==> bus.header == old(bus.header).(flags := bus.header.flags)
      ensures !old(bus.initialized) ==> unchanged(bus)
    {
      ghost var connected := bus.initialized;
      ghost var flags0 := bus.header.flags;
      var command := CheckMixerCommand();
      effects := [];
      if command != [] {
        effects := ExecuteMixerCommand(command, bus, firstAckAcquired);
      }
      assert effects == CommandEffects(command, connected);
      ghost var flags1 := bus.header.flags;
      assert flags1 == if command == PanicCommand && connected && firstAckAcquired
                       then WithPanicAcknowledged(flags0) else flags0;
      ghost var requestAfterCommand := PanicRequested(flags1);
      if bus.IsConnected() {
        var requested := bus.CheckPanicRequest(checkAcquired);
        assert requested == (checkAcquired && requestAfterCommand);
        if requested {
          effects := effects + [ResetSynth(false, false)];
          bus.AcknowledgePanic(secondAckAcquired);
          effects := effects + [AcknowledgeBusPanic];
        }
      }
    }
  }

  /** ExecutePermafrostMixerCommand over the audio bus, with the outcome of
      the acknowledgement's lock attempt. */
  method ExecuteMixerCommand(command: string, bus: Bus, ackAcquired: bool) returns (effects: seq<Effect>)
    requires bus.Valid()
    modifies bus
    ensures bus.Valid() && bus.DriverStateKept()
    ensures effects == CommandEffects(command, old(bus.initialized))
    ensures command == PanicCommand && old(bus.initialized) && ackAcquired ==>
      bus.header == old(bus.header).(flags := WithPanicAcknowledged(old(bus.header.flags)))
    ensures !(command == PanicCommand && old(bus.initialized) && ackAcquired) ==> unchanged(bus)
  {
    effects := [];
    if command == [] {
      return;
    }
    if command == PanicCommand {
      effects := effects + [ResetSynth(false, false)];
      if bus.IsConnected() {
        bus.AcknowledgePanic(ackAcquired);
        effects := effects + [AcknowledgeBusPanic];
      }
    } else if command == ResetCommand {
      effects := effects + [ResetSynth(false, true)];
    }
  }
}
