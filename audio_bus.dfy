/** The audio bus: a named shared-memory region holding one status header
    that OmniMIDI writes and Permafrost reads. OmniMIDI publishes its sample
    rate, peak meters, voice counts, latency timestamps and a small flag set
    through which Permafrost requests a panic (all notes off) and OmniMIDI
    acknowledges it.

    The module-level globals of the driver become the fields of `Bus`; the
    mapped header is a `Header` value the methods update field by field.
    Every `WaitForSingleObject` on the bus mutex is an `acquired` argument:
    true when the wait returned WAIT_OBJECT_0, false when it timed out,
    was abandoned or failed. */
module AudioBus {
  import opened Primitives
  import AudioBusLayout

  const BusVersion: uint32 := 2
  const BufferSamples: uint32 := 256
  const NumChannels: nat := AudioBusLayout.NumChannels
  const Magic: string := "OMAB"

  /** AUDIOBUS_FLAG_* bits of the Flags field. */
  const FlagActive: bv32 := 0x0001
  const FlagPanicRequest: bv32 := 0x0002
  const FlagPanicAck: bv32 := 0x0004
  /** The two bits of the panic handshake. */
  const HandshakeBits: bv32 := 0x0006

  /** AUDIOBUS_LEVEL_DECAY: the factor a peak meter falls by per update. */
  const LevelDecay: real := 0.92

  /** One AudioBusChannelInfo entry (the reserved words are always zero). */
  datatype ChannelInfo = ChannelInfo(peakLevelL: real, peakLevelR: real, voiceCount: uint32)

  const SilentChannel: ChannelInfo := ChannelInfo(0.0, 0.0, 0)

  /** The AudioBusHeader record as Permafrost sees it. */
  datatype Header = Header(
    magic: string,
    version: uint32,
    sampleRate: uint32,
    bufferSize: uint32,
    numChannels: uint32,
    flags: bv32,
    writeCounter: uint64,
    timestamp: uint64,
    masterPeakL: real,
    masterPeakR: real,
    totalVoices: uint32,
    cpuUsage: real,
    qpcFrequency: uint64,
    lastMidiEventTime: uint64,
    lastSynthCompleteTime: uint64,
    lastAudioOutputTime: uint64,
    outputBufferLatencyUs: uint32,
    asioInputLatencyUs: uint32,
    currentEngine: uint32,
    channels: seq<ChannelInfo>)

  /** The region after `memset(ptr, 0, size)`. */
  function ZeroedHeader(): (h: Header)
    ensures |h.magic| == 4 && forall i :: 0 <= i < 4 ==> h.magic[i] == 0 as char
    ensures h.version == 0 && h.sampleRate == 0 && h.bufferSize == 0 && h.numChannels == 0
    ensures h.flags == 0 && h.writeCounter == 0 && h.timestamp == 0
    ensures h.masterPeakL == 0.0 && h.masterPeakR == 0.0 && h.totalVoices == 0 && h.cpuUsage == 0.0
    ensures h.qpcFrequency == 0 && h.lastMidiEventTime == 0 && h.lastSynthCompleteTime == 0
      && h.lastAudioOutputTime == 0
    ensures h.outputBufferLatencyUs == 0 && h.asioInputLatencyUs == 0 && h.currentEngine == 0
    ensures |h.channels| == NumChannels
    ensures forall c :: 0 <= c < |h.channels| ==> h.channels[c] == SilentChannel
  {
    Header([0 as char, 0 as char, 0 as char, 0 as char], 0, 0, 0, 0, 0, 0, 0, 0.0, 0.0, 0, 0.0,
           0, 0, 0, 0, 0, 0, 0, seq(NumChannels, c => SilentChannel))
  }

  /** The identification fields Permafrost checks before trusting the rest. */
  predicate Identified(h: Header) {
    h.magic == Magic && h.version == BusVersion && h.bufferSize == BufferSamples
    && h.numChannels as int == NumChannels && |h.channels| == NumChannels
  }

  /** What a successful AudioBus_Create leaves in the region. */
  predicate FreshlyCreated(h: Header, sampleRate: uint32, engine: uint32, tickCount: uint64, frequency: uint64) {
    Identified(h)
    && h.sampleRate == sampleRate && h.currentEngine == engine
    && h.flags == FlagActive
    && h.writeCounter == 0 && h.timestamp == tickCount
    && h.masterPeakL == 0.0 && h.masterPeakR == 0.0 && h.totalVoices == 0 && h.cpuUsage == 0.0
    && h.qpcFrequency == frequency
    && h.lastMidiEventTime == 0 && h.lastSynthCompleteTime == 0 && h.lastAudioOutputTime == 0
    && h.outputBufferLatencyUs == 0 && h.asioInputLatencyUs == 0
    && forall c :: 0 <= c < |h.channels| ==> h.channels[c] == SilentChannel
  }

  // ---------------------------------------------------------------------
  // Peak smoothing (fast attack, slow decay)
  // ---------------------------------------------------------------------

  predicate InUnit(x: real) {
    0.0 <= x <= 1.0
  }

  /** One smoothing step of a stored meter value: a louder input is taken
      at once, otherwise the meter falls by LevelDecay. */
  function Smooth(stored: real, input: real): (next: real)
    ensures input > stored ==> next == input
    ensures input <= stored ==> next == stored * LevelDecay
    ensures 0.0 <= stored ==> LevelDecay * stored <= next
    ensures 0.0 <= stored ==> next <= (if input > stored then input else stored)
  {
    if input > stored then input else stored * LevelDecay
  }

  /** An input no louder than the meter is ignored: the meter decays as
      under silence. So DecayedIsGeometric covers any run of inputs that
      never rises above the meter. */
  lemma SmoothIgnoresQuieterInput(stored: real, input: real)
    requires 0.0 <= stored && input <= stored
    ensures Smooth(stored, input) == Smooth(stored, 0.0)
  {
  }

  /** Inputs in [0, 1] keep a meter in [0, 1]. */
  lemma SmoothInUnit(stored: real, input: real)
    requires InUnit(stored) && InUnit(input)
    ensures InUnit(Smooth(stored, input))
  {
  }

  function Pow(x: real, n: nat): real {
    if n == 0 then 1.0 else x * Pow(x, n - 1)
  }

  /** The meter after n updates with silence (input 0). */
  function Decayed(stored: real, n: nat): real {
    if n == 0 then stored else Smooth(Decayed(stored, n - 1), 0.0)
  }

  /** Under silence a non-negative meter decays geometrically: after n
      updates it holds stored * 0.92^n, never rising and never negative. */
  lemma {:induction false} DecayedIsGeometric(stored: real, n: nat)
    requires 0.0 <= stored
    ensures Decayed(stored, n) == stored * Pow(LevelDecay, n)
    ensures 0.0 <= Decayed(stored, n) <= stored
  {
    if n > 0 {
      DecayedIsGeometric(stored, n - 1);
      var prev := Decayed(stored, n - 1);
      assert Decayed(stored, n) == prev * LevelDecay;
      calc {
        prev * LevelDecay;
        (stored * Pow(LevelDecay, n - 1)) * LevelDecay;
        stored * (LevelDecay * Pow(LevelDecay, n - 1));
      }
    }
  }

  // ---------------------------------------------------------------------
  // The panic handshake on the Flags word
  // ---------------------------------------------------------------------

  predicate PanicRequested(flags: bv32) {
    flags & FlagPanicRequest != 0
  }

  predicate PanicAcknowledged(flags: bv32) {
    flags & FlagPanicAck != 0
  }

  /** Flags after AudioBus_RequestPanic: REQUEST set, ACK cleared. */
  function WithPanicRequested(flags: bv32): (r: bv32)
    ensures PanicRequested(r) && !PanicAcknowledged(r)
    ensures r & !HandshakeBits == flags & !HandshakeBits
  {
    (flags | FlagPanicRequest) & !FlagPanicAck
  }

  /** Flags after AudioBus_AcknowledgePanic: REQUEST cleared, ACK set. */
  function WithPanicAcknowledged(flags: bv32): (r: bv32)
    ensures !PanicRequested(r) && PanicAcknowledged(r)
    ensures r & !HandshakeBits == flags & !HandshakeBits
  {
    (flags & !FlagPanicRequest) | FlagPanicAck
  }

  /** Flags after AudioBus_ClearPanicAck: ACK cleared, every other bit
      (REQUEST included) kept. */
  function WithoutPanicAck(flags: bv32): (r: bv32)
    ensures !PanicAcknowledged(r)
    ensures r & !FlagPanicAck == flags & !FlagPanicAck
  {
    flags & !FlagPanicAck
  }

  /** A full handshake (request, acknowledge, clear the ack) leaves both
      handshake bits clear and every other bit, ACTIVE included, as it was. */
  lemma PanicHandshakeRoundTrip(flags: bv32)
    ensures WithoutPanicAck(WithPanicAcknowledged(WithPanicRequested(flags))) == flags & !HandshakeBits
  {
  }

  // ---------------------------------------------------------------------
  // The voice total
  // ---------------------------------------------------------------------

  /** The exact sum of a sequence of voice counts. */
  function VoiceSum(counts: seq<uint32>): nat {
    if counts == [] then 0 else VoiceSum(counts[..|counts| - 1]) + counts[|counts| - 1]
  }

  lemma VoiceSumAppend(counts: seq<uint32>, i: nat)
    requires i < |counts|
    ensures VoiceSum(counts[..i + 1]) == VoiceSum(counts[..i]) + counts[i]
  {
    assert counts[..i + 1][..i] == counts[..i];
  }

  /** Adding to a value already reduced modulo m is adding modulo m: the
      running DWORD total may wrap at any step and still end at the sum
      modulo 2^32. */
  lemma ModAddLeft(a: int, b: int, m: int)
    requires m > 0
    ensures (a % m + b) % m == (a + b) % m
  {
    var q := a / m;
    var q1 := (a % m + b) / m;
    var q2 := (a + b) / m;
    assert a == q * m + a % m;
    assert a % m + b == q1 * m + (a % m + b) % m;
    assert a + b == q2 * m + (a + b) % m;
    var k := q2 - q - q1;
    assert (a % m + b) % m - (a + b) % m == k * m;
  }

  /** A sum of counts each at most bound is at most |counts| * bound. */
  lemma {:induction false} VoiceSumBound(counts: seq<uint32>, bound: nat)
    requires forall i :: 0 <= i < |counts| ==> counts[i] <= bound
    ensures VoiceSum(counts) <= |counts| * bound
  {
    if counts != [] {
      var n := |counts| - 1;
      VoiceSumBound(counts[..n], bound);
      assert (n + 1) * bound == n * bound + bound;
    }
  }

  /** With fewer than 2^28 voices on each of the 16 channels the DWORD total
      does not wrap: TotalVoices is the exact sum. */
  lemma TotalVoicesExact(counts: seq<uint32>)
    requires |counts| == NumChannels
    requires forall i :: 0 <= i < |counts| ==> counts[i] < 0x1000_0000
    ensures VoiceSum(counts) % Two32 == VoiceSum(counts)
  {
    VoiceSumBound(counts, 0x0FFF_FFFF);
  }

  /** The loop of AudioBus_UpdateAllChannelVoices: each channel's count is
      replaced by the caller's, and the DWORD running total ends at the sum
      of the counts modulo 2^32. */
  method WithVoiceCounts(h: Header, voiceCounts: seq<uint32>) returns (r: Header, total: uint32)
    requires |h.channels| == NumChannels && |voiceCounts| >= NumChannels
    ensures r.(channels := h.channels) == h && |r.channels| == NumChannels
    ensures forall c :: 0 <= c < NumChannels ==> r.channels[c] == h.channels[c].(voiceCount := voiceCounts[c])
    ensures total as int == VoiceSum(voiceCounts[..NumChannels]) % Two32
  {
    r := h;
    total := 0;
    var i := 0;
    while i < NumChannels
      invariant 0 <= i <= NumChannels
      invariant |r.channels| == NumChannels
      invariant r.(channels := h.channels) == h
      invariant total as int == VoiceSum(voiceCounts[..i]) % Two32
      invariant forall c :: 0 <= c < i ==> r.channels[c] == h.channels[c].(voiceCount := voiceCounts[c])
      invariant forall c :: i <= c < NumChannels ==> r.channels[c] == h.channels[c]
    {
      r := r.(channels := r.channels[i := r.channels[i].(voiceCount := voiceCounts[i])]);
      VoiceSumAppend(voiceCounts, i);
      ModAddLeft(VoiceSum(voiceCounts[..i]), voiceCounts[i], Two32);
      total := (total + voiceCounts[i]) % Two32;
      i := i + 1;
    }
  }

  // ---------------------------------------------------------------------
  // The bus
  // ---------------------------------------------------------------------

  /** The driver's audio bus state: the initialized flag, the view of the
      mapped header, the smoothing memory (master and per-channel peaks)
      and the cached performance-counter frequency. The view address is
      non-null exactly while `initialized` holds (every failure path of
      AudioBus_Create leaves it null and AudioBus_Destroy resets both), so
      one flag stands for the `initialized && ptr` guard. */
  class Bus {
    var initialized: bool
    var header: Header
    var masterPeakL: real
    var masterPeakR: real
    var channelPeaksL: array<real>
    var channelPeaksR: array<real>
    var qpcFrequency: uint64

    ghost predicate Valid()
      reads this
    {
      channelPeaksL.Length == NumChannels && channelPeaksR.Length == NumChannels
      && channelPeaksL != channelPeaksR
      && |header.channels| == NumChannels
      && (initialized ==> Identified(header))
    }

    /** Every smoothed meter the driver keeps lies in [0, 1]. */
    ghost predicate PeaksInUnit()
      reads this, channelPeaksL, channelPeaksR
    {
      InUnit(masterPeakL) && InUnit(masterPeakR)
      && (forall c :: 0 <= c < channelPeaksL.Length ==> InUnit(channelPeaksL[c]))
      && (forall c :: 0 <= c < channelPeaksR.Length ==> InUnit(channelPeaksR[c]))
    }

    /** The driver state other than the header is as it was. */
    twostate predicate DriverStateKept()
      reads this
    {
      initialized == old(initialized) && qpcFrequency == old(qpcFrequency)
      && masterPeakL == old(masterPeakL) && masterPeakR == old(masterPeakR)
      && channelPeaksL == old(channelPeaksL) && channelPeaksR == old(channelPeaksR)
    }

    /** AudioBus_IsConnected: a connected bus carries an identified
        header. */
    predicate IsConnected()
      reads this
      ensures IsConnected() && Valid() ==> Identified(header)
    {
      initialized
    }

    /** The static initial state: not initialized, all meters at zero. */
    constructor ()
      ensures Valid() && PeaksInUnit() && !IsConnected()
      ensures header == ZeroedHeader() && qpcFrequency == 0
      ensures masterPeakL == 0.0 && masterPeakR == 0.0
      ensures fresh(channelPeaksL) && fresh(channelPeaksR)
      ensures forall c :: 0 <= c < NumChannels ==> channelPeaksL[c] == 0.0 && channelPeaksR[c] == 0.0
    {
      initialized := false;
      header := ZeroedHeader();
      masterPeakL := 0.0;
      masterPeakR := 0.0;
      channelPeaksL := new real[NumChannels](c => 0.0);
      channelPeaksR := new real[NumChannels](c => 0.0);
      qpcFrequency := 0;
    }

    /** AudioBus_Create. The three Win32 steps (mutex, mapping, view) are
        given as their outcomes; the sample rate and engine come from the
        driver settings, the tick count and frequency from the clocks. An
        already initialized bus is left alone; a failed step leaves the
        bus as it was; success zeroes the region and fills in the header.
        The smoothing memory is not reset. */
    method Create(mutexCreated: bool, mappingCreated: bool, viewMapped: bool,
                  sampleRate: uint32, engine: uint32, tickCount: uint64, frequency: uint64)
      returns (ok: bool)
      requires Valid()
      modifies this
      ensures Valid()
      ensures old(initialized) ==> ok && unchanged(this)
      ensures !old(initialized) ==> (ok <==> mutexCreated && mappingCreated && viewMapped)
      ensures !old(initialized) && !ok ==> unchanged(this)
      ensures !old(initialized) && ok ==>
        IsConnected() && qpcFrequency == frequency
        && FreshlyCreated(header, sampleRate, engine, tickCount, frequency)
      ensures masterPeakL == old(masterPeakL) && masterPeakR == old(masterPeakR)
      ensures channelPeaksL == old(channelPeaksL) && channelPeaksR == old(channelPeaksR)
    {
      if initialized {
        return true;
      }
      if !mutexCreated || !mappingCreated || !viewMapped {
        return false;
      }
      qpcFrequency := frequency;
      var h := ZeroedHeader();
      h := h.(magic := Magic, version := BusVersion, sampleRate := sampleRate,
              bufferSize := BufferSamples, numChannels := NumChannels as uint32,
              flags := FlagActive, writeCounter := 0, timestamp := tickCount);
      h := h.(qpcFrequency := frequency, lastMidiEventTime := 0,
              lastSynthCompleteTime := 0, lastAudioOutputTime := 0,
              outputBufferLatencyUs := 0, asioInputLatencyUs := 0,
              currentEngine := engine);
      ghost var filled := h;
      var i := 0;
      while i < NumChannels
        invariant 0 <= i <= NumChannels
        invariant |h.channels| == NumChannels
        invariant h == filled.(channels := h.channels)
        invariant forall c :: 0 <= c < i ==> h.channels[c] == SilentChannel
      {
        h := h.(channels := h.channels[i := SilentChannel]);
        i := i + 1;
      }
      header := h;
      initialized := true;
      ok := true;
    }

    /** AudioBus_Destroy. The 100 ms wait's result is ignored: Flags is
        cleared regardless, then the view and handles are released. */
    method Destroy()
      requires Valid()
      modifies this
      ensures Valid() && !IsConnected()
      ensures !old(initialized) ==> unchanged(this)
      ensures old(initialized) ==> header == old(header).(flags := 0)
      ensures qpcFrequency == old(qpcFrequency)
      ensures masterPeakL == old(masterPeakL) && masterPeakR == old(masterPeakR)
      ensures channelPeaksL == old(channelPeaksL) && channelPeaksR == old(channelPeaksR)
    {
      if !initialized {
        return;
      }
      header := header.(flags := 0);
      initialized := false;
    }

    /** AudioBus_UpdateLevels. The master meters are smoothed whether or
        not the zero-timeout lock is taken; the header is written only when
        it is, and WriteCounter then advances by one (wrapping at 2^64). */
    method UpdateLevels(masterL: real, masterR: real, totalVoices: uint32, cpuUsage: real,
                        acquired: bool, tickCount: uint64)
      requires Valid()
      modifies this
      ensures Valid()
      ensures !old(initialized) ==> unchanged(this)
      ensures old(initialized) ==>
        masterPeakL == Smooth(old(masterPeakL), masterL)
        && masterPeakR == Smooth(old(masterPeakR), masterR)
      ensures old(initialized) && acquired ==>
        header == old(header).(masterPeakL := masterPeakL, masterPeakR := masterPeakR,
                               totalVoices := totalVoices, cpuUsage := cpuUsage,
                               writeCounter := (old(header.writeCounter) + 1) % Two64,
                               timestamp := tickCount)
      ensures !acquired ==> header == old(header)
      ensures old(PeaksInUnit()) && InUnit(masterL) && InUnit(masterR) ==> PeaksInUnit()
      ensures initialized == old(initialized) && qpcFrequency == old(qpcFrequency)
      ensures channelPeaksL == old(channelPeaksL) && channelPeaksR == old(channelPeaksR)
    {
      if !initialized {
        return;
      }
      if masterL > masterPeakL {
        masterPeakL := masterL;
      } else {
        masterPeakL := masterPeakL * LevelDecay;
      }
      if masterR > masterPeakR {
        masterPeakR := masterR;
      } else {
        masterPeakR := masterPeakR * LevelDecay;
      }
      if acquired {
        header := header.(masterPeakL := masterPeakL, masterPeakR := masterPeakR,
                          totalVoices := totalVoices, cpuUsage := cpuUsage);
        header := header.(writeCounter := (header.writeCounter + 1) % Two64);
        header := header.(timestamp := tickCount);
      }
    }

    /** AudioBus_UpdateChannelVoices: an index outside 0..15 is ignored. */
    method UpdateChannelVoices(channel: int, voiceCount: uint32, acquired: bool)
      requires Valid()
      modifies this
      ensures Valid() && DriverStateKept()
      ensures !old(initialized) || !(0 <= channel < NumChannels) || !acquired ==> unchanged(this)
      ensures old(initialized) && 0 <= channel < NumChannels && acquired ==>
        header == old(header).(channels := old(header.channels)[channel := old(header.channels[channel]).(voiceCount := voiceCount)])
    {
      if !initialized {
        return;
      }
      if channel < 0 || channel >= NumChannels {
        return;
      }
      if acquired {
        header := header.(channels := header.channels[channel := header.channels[channel].(voiceCount := voiceCount)]);
      }
    }

    /** AudioBus_UpdateChannelLevels: an index outside 0..15 is ignored;
        otherwise the channel's two meters are smoothed, and copied into its
        header entry when the lock is taken. */
    method UpdateChannelLevels(channel: int, peakL: real, peakR: real, acquired: bool)
      requires Valid()
      modifies this, channelPeaksL, channelPeaksR
      ensures Valid() && DriverStateKept()
      ensures !old(initialized) || !(0 <= channel < NumChannels) ==>
        unchanged(this) && unchanged(channelPeaksL) && unchanged(channelPeaksR)
      ensures old(initialized) && 0 <= channel < NumChannels ==>
        channelPeaksL[..] == old(channelPeaksL[..])[channel := Smooth(old(channelPeaksL[channel]), peakL)]
        && channelPeaksR[..] == old(channelPeaksR[..])[channel := Smooth(old(channelPeaksR[channel]), peakR)]
      ensures old(initialized) && 0 <= channel < NumChannels && acquired ==>
        header == old(header).(channels := old(header.channels)[channel :=
          old(header.channels[channel]).(peakLevelL := channelPeaksL[channel], peakLevelR := channelPeaksR[channel])])
      ensures !acquired ==> header == old(header)
      ensures old(PeaksInUnit()) && InUnit(peakL) && InUnit(peakR) ==> PeaksInUnit()
    {
      if !initialized {
        return;
      }
      if channel < 0 || channel >= NumChannels {
        return;
      }
      if peakL > channelPeaksL[channel] {
        channelPeaksL[channel] := peakL;
      } else {
        channelPeaksL[channel] := channelPeaksL[channel] * LevelDecay;
      }
      if peakR > channelPeaksR[channel] {
        channelPeaksR[channel] := peakR;
      } else {
        channelPeaksR[channel] := channelPeaksR[channel] * LevelDecay;
      }
      if acquired {
        var entry := header.channels[channel].(peakLevelL := channelPeaksL[channel],
                                               peakLevelR := channelPeaksR[channel]);
        header := header.(channels := header.channels[channel := entry]);
      }
    }

    /** AudioBus_UpdateAllChannelVoices: under the lock, all 16 counts are
        written and TotalVoices becomes their sum in DWORD arithmetic. The
        caller passes (at least) one count per channel. */
    method UpdateAllChannelVoices(voiceCounts: seq<uint32>, acquired: bool)
      requires Valid()
      requires |voiceCounts| >= NumChannels
      modifies this
      ensures Valid() && DriverStateKept()
      ensures !old(initialized) || !acquired ==> unchanged(this)
      ensures old(initialized) && acquired ==>
        (forall c :: 0 <= c < NumChannels ==>
           header.channels[c] == old(header.channels[c]).(voiceCount := voiceCounts[c]))
        && header.totalVoices as int == VoiceSum(voiceCounts[..NumChannels]) % Two32
        && header.(channels := old(header.channels), totalVoices := old(header.totalVoices)) == old(header)
    {
      if !initialized {
        return;
      }
      if acquired {
        var h, total := WithVoiceCounts(header, voiceCounts);
        header := h.(totalVoices := total);
      }
    }

    /** AudioBus_CheckPanicRequest: the REQUEST bit, read under a
        zero-timeout lock; FALSE when not connected or contended. */
    method CheckPanicRequest(acquired: bool) returns (requested: bool)
      ensures requested <==> initialized && acquired && PanicRequested(header.flags)
    {
      requested := false;
      if !initialized {
        return;
      }
      if acquired {
        requested := header.flags & FlagPanicRequest != 0;
      }
    }

    /** AudioBus_AcknowledgePanic (waits without a timeout; a wait that
        does not return WAIT_OBJECT_0 skips the write). */
    method AcknowledgePanic(acquired: bool)
      requires Valid()
      modifies this
      ensures Valid() && DriverStateKept()
      ensures !old(initialized) || !acquired ==> unchanged(this)
      ensures old(initialized) && acquired ==>
        header == old(header).(flags := WithPanicAcknowledged(old(header.flags)))
    {
      if !initialized {
        return;
      }
      if acquired {
        header := header.(flags := WithPanicAcknowledged(header.flags));
      }
    }

    /** AudioBus_ClearPanicAck. */
    method ClearPanicAck(acquired: bool)
      requires Valid()
      modifies this
      ensures Valid() && DriverStateKept()
      ensures !old(initialized) || !acquired ==> unchanged(this)
      ensures old(initialized) && acquired ==>
        header == old(header).(flags := WithoutPanicAck(old(header.flags)))
    {
      if !initialized {
        return;
      }
      if acquired {
        header := header.(flags := WithoutPanicAck(header.flags));
      }
    }

    /** AudioBus_GetFlags: the Flags word, or 0 when not connected or
        contended. */
    method GetFlags(acquired: bool) returns (flags: bv32)
      ensures initialized && acquired ==> flags == header.flags
      ensures !initialized || !acquired ==> flags == 0
    {
      flags := 0;
      if !initialized {
        return;
      }
      if acquired {
        flags := header.flags;
      }
    }

    /** AudioBus_RequestPanic (the companion normally sets the bit itself). */
    method RequestPanic(acquired: bool)
      requires Valid()
      modifies this
      ensures Valid() && DriverStateKept()
      ensures !old(initialized) || !acquired ==> unchanged(this)
      ensures old(initialized) && acquired ==>
        header == old(header).(flags := WithPanicRequested(old(header.flags)))
    {
      if !initialized {
        return;
      }
      if acquired {
        header := header.(flags := WithPanicRequested(header.flags));
      }
    }

    /** AudioBus_SetSampleRate. */
    method SetSampleRate(sampleRate: uint32, acquired: bool)
      requires Valid()
      modifies this
      ensures Valid() && DriverStateKept()
      ensures !old(initialized) || !acquired ==> unchanged(this)
      ensures old(initialized) && acquired ==> header == old(header).(sampleRate := sampleRate)
    {
      if !initialized {
        return;
      }
      if acquired {
        header := header.(sampleRate := sampleRate);
      }
    }

    /** AudioBus_UpdateLatencyInfo. */
    method UpdateLatencyInfo(outputLatencyUs: uint32, asioInputLatencyUs: uint32, engine: uint32, acquired: bool)
      requires Valid()
      modifies this
      ensures Valid() && DriverStateKept()
      ensures !old(initialized) || !acquired ==> unchanged(this)
      ensures old(initialized) && acquired ==>
        header == old(header).(outputBufferLatencyUs := outputLatencyUs,
                               asioInputLatencyUs := asioInputLatencyUs, currentEngine := engine)
    {
      if !initialized {
        return;
      }
      if acquired {
        header := header.(outputBufferLatencyUs := outputLatencyUs,
                          asioInputLatencyUs := asioInputLatencyUs, currentEngine := engine);
      }
    }

    /** AudioBus_RecordMidiEvent: stores the counter reading, without the lock. */
    method RecordMidiEvent(ticks: uint64)
      requires Valid()
      modifies this
      ensures Valid() && DriverStateKept()
      ensures !old(initialized) ==> unchanged(this)
      ensures old(initialized) ==> header == old(header).(lastMidiEventTime := ticks)
    {
      if initialized {
        header := header.(lastMidiEventTime := ticks);
      }
    }

    /** AudioBus_RecordSynthComplete. */
    method RecordSynthComplete(ticks: uint64)
      requires Valid()
      modifies this
      ensures Valid() && DriverStateKept()
      ensures !old(initialized) ==> unchanged(this)
      ensures old(initialized) ==> header == old(header).(lastSynthCompleteTime := ticks)
    {
      if initialized {
        header := header.(lastSynthCompleteTime := ticks);
      }
    }

    /** AudioBus_RecordAudioOutput. */
    method RecordAudioOutput(ticks: uint64)
      requires Valid()
      modifies this
      ensures Valid() && DriverStateKept()
      ensures !old(initialized) ==> unchanged(this)
      ensures old(initialized) ==> header == old(header).(lastAudioOutputTime := ticks)
    {
      if initialized {
        header := header.(lastAudioOutputTime := ticks);
      }
    }

    /** AudioBus_QPCDiffToMicroseconds over the cached frequency (which is
        not reset by Destroy): 0 for an unknown frequency or a reversed
        interval, otherwise the tick difference times 10^6 in ULONGLONG
        arithmetic, divided by the frequency. When the product does not
        wrap, the result is the exact number of whole microseconds; when it
        does, the result counts the wrapped product's whole frequencies and
        falls short of the true quotient. */
    function QPCDiffToMicroseconds(start: uint64, end: uint64): (us: uint64)
      reads this
      ensures qpcFrequency == 0 || end < start ==> us == 0
      ensures qpcFrequency > 0 && start <= end && (end - start) * 1000000 < Two64 ==>
        us * qpcFrequency <= (end - start) * 1000000 < (us + 1) * qpcFrequency
      ensures qpcFrequency > 0 && start <= end ==>
        us * qpcFrequency <= ((end - start) * 1000000) % Two64 < (us + 1) * qpcFrequency
      ensures qpcFrequency > 0 && start <= end && (end - start) * 1000000 >= Two64 ==>
        us * qpcFrequency < (end - start) * 1000000
    {
      if qpcFrequency == 0 then 0
      else if end < start then 0
      else (((end - start) * 1000000) % Two64) / qpcFrequency
    }
  }
}
