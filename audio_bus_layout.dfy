/** The byte layout of the shared-memory status header. The header is
    declared under `#pragma pack(1)`, so every field starts where the
    field declared before it ends. */
module AudioBusLayout {
  import opened Primitives

  const NumChannels: nat := 16

  /** Sizes of the Windows C types in the header. */
  const DwordSize: nat := 4
  const FloatSize: nat := 4
  const UlonglongSize: nat := 8

  /** The fields of the header, in declaration order. */
  datatype HeaderField =
    | Magic | Version | SampleRate | BufferSize | NumChannelsField
    | Flags | WriteCounter | Timestamp
    | MasterPeakL | MasterPeakR | TotalVoices | CpuUsage
    | QpcFrequency | LastMidiEventTime | LastSynthCompleteTime | LastAudioOutputTime
    | OutputBufferLatencyUs | AsioInputLatencyUs | CurrentEngine
    | Reserved | Channels

  /** The fields of one per-channel entry, in declaration order. */
  datatype ChannelField = PeakLevelL | PeakLevelR | VoiceCount | ChannelReserved

  // ---------------------------------------------------------------------
  // Per-channel entry (AudioBusChannelInfo)
  // ---------------------------------------------------------------------

  function ChannelFieldSize(f: ChannelField): nat {
    match f
    case PeakLevelL => FloatSize
    case PeakLevelR => FloatSize
    case VoiceCount => DwordSize
    case ChannelReserved => 2 * DwordSize
  }

  function ChannelIndexOf(f: ChannelField): nat {
    match f
    case PeakLevelL => 0
    case PeakLevelR => 1
    case VoiceCount => 2
    case ChannelReserved => 3
  }

  function PreviousChannelField(f: ChannelField): (p: Option<ChannelField>)
    ensures p.None? <==> ChannelIndexOf(f) == 0
    ensures p.Some? ==> ChannelIndexOf(p.value) + 1 == ChannelIndexOf(f)
  {
    match f
    case PeakLevelL => None
    case PeakLevelR => Some(PeakLevelL)
    case VoiceCount => Some(PeakLevelR)
    case ChannelReserved => Some(VoiceCount)
  }

  /** offsetof(AudioBusChannelInfo, f). */
  function ChannelFieldOffset(f: ChannelField): nat {
    match f
    case PeakLevelL => 0
    case PeakLevelR => 4
    case VoiceCount => 8
    case ChannelReserved => 12
  }

  /** The stride of the Channels array: sizeof(AudioBusChannelInfo). */
  const ChannelEntrySize: nat := 20

  /** The channel entry is packed: the first field is at 0, every other
      field starts where the one declared before it ends, and the last
      one ends at the stride of the Channels array. */
  lemma ChannelEntryPacked(f: ChannelField)
    ensures PreviousChannelField(f).None? ==> ChannelFieldOffset(f) == 0
    ensures PreviousChannelField(f).Some? ==>
      var p := PreviousChannelField(f).value;
      ChannelFieldOffset(f) == ChannelFieldOffset(p) + ChannelFieldSize(p)
    ensures ChannelFieldOffset(f) + ChannelFieldSize(f) <= ChannelEntrySize
    ensures f == ChannelReserved ==> ChannelFieldOffset(f) + ChannelFieldSize(f) == ChannelEntrySize
  {
  }

  // ---------------------------------------------------------------------
  // Header (AudioBusHeader)
  // ---------------------------------------------------------------------

  function FieldSize(f: HeaderField): nat {
    match f
    case Magic => 4
    case Version => DwordSize
    case SampleRate => DwordSize
    case BufferSize => DwordSize
    case NumChannelsField => DwordSize
    case Flags => DwordSize
    case WriteCounter => UlonglongSize
    case Timestamp => UlonglongSize
    case MasterPeakL => FloatSize
    case MasterPeakR => FloatSize
    case TotalVoices => DwordSize
    case CpuUsage => FloatSize
    case QpcFrequency => UlonglongSize
    case LastMidiEventTime => UlonglongSize
    case LastSynthCompleteTime => UlonglongSize
    case LastAudioOutputTime => UlonglongSize
    case OutputBufferLatencyUs => DwordSize
    case AsioInputLatencyUs => DwordSize
    case CurrentEngine => DwordSize
    case Reserved => 16
    case Channels => 320  // NumChannels entries of ChannelEntrySize bytes
  }

  /** Position of a field in the declaration order. */
  function IndexOf(f: HeaderField): (i: nat)
    ensures i <= 20
  {
    match f
    case Magic => 0
    case Version => 1
    case SampleRate => 2
    case BufferSize => 3
    case NumChannelsField => 4
    case Flags => 5
    case WriteCounter => 6
    case Timestamp => 7
    case MasterPeakL => 8
    case MasterPeakR => 9
    case TotalVoices => 10
    case CpuUsage => 11
    case QpcFrequency => 12
    case LastMidiEventTime => 13
    case LastSynthCompleteTime => 14
    case LastAudioOutputTime => 15
    case OutputBufferLatencyUs => 16
    case AsioInputLatencyUs => 17
    case CurrentEngine => 18
    case Reserved => 19
    case Channels => 20
  }

  /** The field declared immediately before f, if any. */
  function Previous(f: HeaderField): (p: Option<HeaderField>)
    ensures p.None? <==> IndexOf(f) == 0
    ensures p.Some? ==> IndexOf(p.value) + 1 == IndexOf(f)
  {
    match f
    case Magic => None
    case Version => Some(Magic)
    case SampleRate => Some(Version)
    case BufferSize => Some(SampleRate)
    case NumChannelsField => Some(BufferSize)
    case Flags => Some(NumChannelsField)
    case WriteCounter => Some(Flags)
    case Timestamp => Some(WriteCounter)
    case MasterPeakL => Some(Timestamp)
    case MasterPeakR => Some(MasterPeakL)
    case TotalVoices => Some(MasterPeakR)
    case CpuUsage => Some(TotalVoices)
    case QpcFrequency => Some(CpuUsage)
    case LastMidiEventTime => Some(QpcFrequency)
    case LastSynthCompleteTime => Some(LastMidiEventTime)
    case LastAudioOutputTime => Some(LastSynthCompleteTime)
    case OutputBufferLatencyUs => Some(LastAudioOutputTime)
    case AsioInputLatencyUs => Some(OutputBufferLatencyUs)
    case CurrentEngine => Some(AsioInputLatencyUs)
    case Reserved => Some(CurrentEngine)
    case Channels => Some(Reserved)
  }

  /** offsetof(AudioBusHeader, f): 116 bytes of scalar fields, then the
      Channels array. */
  function Offset(f: HeaderField): nat {
    match f
    case Magic => 0
    case Version => 4
    case SampleRate => 8
    case BufferSize => 12
    case NumChannelsField => 16
    case Flags => 20
    case WriteCounter => 24
    case Timestamp => 32
    case MasterPeakL => 40
    case MasterPeakR => 44
    case TotalVoices => 48
    case CpuUsage => 52
    case QpcFrequency => 56
    case LastMidiEventTime => 64
    case LastSynthCompleteTime => 72
    case LastAudioOutputTime => 80
    case OutputBufferLatencyUs => 88
    case AsioInputLatencyUs => 92
    case CurrentEngine => 96
    case Reserved => 100
    case Channels => 116
  }

  /** sizeof(AudioBusHeader), which is also the size of the mapped region
      (436 bytes): the end of the last declared field. */
  function HeaderSize(): (size: nat)
    ensures size == 436
  {
    Offset(Channels) + FieldSize(Channels)
  }

  /** The header is packed (`#pragma pack(1)`): the first field is at 0 and
      every other field starts exactly where the one declared before it
      ends, so the offsets above are the ones the compiler lays out. */
  lemma HeaderPacked(f: HeaderField)
    ensures Previous(f).None? ==> Offset(f) == 0
    ensures Previous(f).Some? ==>
      var p := Previous(f).value;
      Offset(f) == Offset(p) + FieldSize(p)
  {
  }

  /** A field declared before another ends no later than the other starts. */
  lemma {:induction false} EndsBefore(f: HeaderField, g: HeaderField)
    requires IndexOf(f) < IndexOf(g)
    ensures Offset(f) + FieldSize(f) <= Offset(g)
    decreases IndexOf(g)
  {
    var p := Previous(g).value;
    HeaderPacked(g);
    if p != f {
      EndsBefore(f, p);
    }
  }

  /** No two fields share a byte, and every field lies inside the region. */
  lemma FieldsDisjoint(f: HeaderField, g: HeaderField)
    requires IndexOf(f) < IndexOf(g)
    ensures Offset(f) + FieldSize(f) <= Offset(g)
    ensures Offset(g) + FieldSize(g) <= HeaderSize()
  {
    EndsBefore(f, g);
    if g != Channels {
      EndsBefore(g, Channels);
    }
  }

  /** Byte offset, in the region, of field f of channel entry c. */
  function ChannelByteOffset(c: nat, f: ChannelField): nat {
    var entry: nat := c * ChannelEntrySize;
    Offset(Channels) + entry + ChannelFieldOffset(f)
  }

  /** The Channels array holds exactly NumChannels entries. */
  lemma ChannelsArraySize()
    ensures FieldSize(Channels) == NumChannels * ChannelEntrySize
  {
  }

  /** Every per-channel field of channels 0..15 lies inside the 436-byte
      region, after all scalar fields. */
  lemma ChannelFieldInRegion(c: nat, f: ChannelField)
    requires c < NumChannels
    ensures Offset(Reserved) + FieldSize(Reserved) <= ChannelByteOffset(c, f)
    ensures ChannelByteOffset(c, f) + ChannelFieldSize(f) <= HeaderSize()
  {
    ChannelEntryPacked(f);
    assert c * ChannelEntrySize <= (NumChannels - 1) * ChannelEntrySize;
  }

  /** The entries of two different channels do not overlap. */
  lemma ChannelEntriesDisjoint(c: nat, d: nat, f: ChannelField, g: ChannelField)
    requires c < d
    ensures ChannelByteOffset(c, f) + ChannelFieldSize(f) <= ChannelByteOffset(d, g)
  {
    ChannelEntryPacked(f);
    assert c * ChannelEntrySize + ChannelEntrySize <= d * ChannelEntrySize by {
      assert d * ChannelEntrySize - c * ChannelEntrySize == (d - c) * ChannelEntrySize;
    }
  }
}
