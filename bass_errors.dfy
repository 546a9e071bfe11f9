/** How the driver reports an error of the BASS audio library (or of its
    ASIO add-on): the code is looked up in three tables (the macro name,
    a description and a suggested fix), classified as fatal or not, logged,
    and, when requested, shown in the external OmniMIDIDialog.exe or, when
    that cannot be launched, in a message box; a fatal error then ends the
    process.

    The numeric values of the BASS_ERROR_* constants come from the public
    BASS 2.4 headers (bass.h, basswasapi.h, bassmidi.h). The process, the
    dialog and the message box are not modelled as side effects: what
    would be logged, shown and whether the process would exit are returned
    as an `ErrorReport`. */
module BassErrors {
  import opened Primitives

  /** The error codes the tables list. */
  datatype BassError =
    | Ok | Mem | FileOpen | Driver | BufLost | Handle | Format | Position | Init | Start | Ssl
    | Already | NoChan | IllType | IllParam | No3D | NoEax | Device | NoPlay | Freq | NotFile
    | NoHw | Empty | NoNet | Create | NoFx | NotAvail | Decode | Dx | Timeout | FileForm
    | Speaker | Version | Codec | Ended | Busy
    | Wasapi | WasapiBuffer | WasapiRaw | WasapiDenied | MidiInclude | Unknown

  /** The BASS_ERROR_* value of each listed error. */
  function Code(e: BassError): int {
    match e
    case Ok => 0
    case Mem => 1
    case FileOpen => 2
    case Driver => 3
    case BufLost => 4
    case Handle => 5
    case Format => 6
    case Position => 7
    case Init => 8
    case Start => 9
    case Ssl => 10
    case Already => 14
    case NoChan => 18
    case IllType => 19
    case IllParam => 20
    case No3D => 21
    case NoEax => 22
    case Device => 23
    case NoPlay => 24
    case Freq => 25
    case NotFile => 27
    case NoHw => 29
    case Empty => 31
    case NoNet => 32
    case Create => 33
    case NoFx => 34
    case NotAvail => 37
    case Decode => 38
    case Dx => 39
    case Timeout => 40
    case FileForm => 41
    case Speaker => 42
    case Version => 43
    case Codec => 44
    case Ended => 45
    case Busy => 46
    case Wasapi => 5000
    case WasapiBuffer => 5001
    case WasapiDenied => 5003
    case WasapiRaw => 5004
    case MidiInclude => 7000
    case Unknown => -1
  }

  /** The listed error a code stands for, if any: the `case` labels of the
      three switches. */
  function Listed(code: int): Option<BassError> {
    match code
    case 0 => Some(Ok)
    case 1 => Some(Mem)
    case 2 => Some(FileOpen)
    case 3 => Some(Driver)
    case 4 => Some(BufLost)
    case 5 => Some(Handle)
    case 6 => Some(Format)
    case 7 => Some(Position)
    case 8 => Some(Init)
    case 9 => Some(Start)
    case 10 => Some(Ssl)
    case 14 => Some(Already)
    case 18 => Some(NoChan)
    case 19 => Some(IllType)
    case 20 => Some(IllParam)
    case 21 => Some(No3D)
    case 22 => Some(NoEax)
    case 23 => Some(Device)
    case 24 => Some(NoPlay)
    case 25 => Some(Freq)
    case 27 => Some(NotFile)
    case 29 => Some(NoHw)
    case 31 => Some(Empty)
    case 32 => Some(NoNet)
    case 33 => Some(Create)
    case 34 => Some(NoFx)
    case 37 => Some(NotAvail)
    case 38 => Some(Decode)
    case 39 => Some(Dx)
    case 40 => Some(Timeout)
    case 41 => Some(FileForm)
    case 42 => Some(Speaker)
    case 43 => Some(Version)
    case 44 => Some(Codec)
    case 45 => Some(Ended)
    case 46 => Some(Busy)
    case 5000 => Some(Wasapi)
    case 5001 => Some(WasapiBuffer)
    case 5003 => Some(WasapiDenied)
    case 5004 => Some(WasapiRaw)
    case 7000 => Some(MidiInclude)
    case -1 => Some(Unknown)
    case _ => None
  }

  /** Every listed error is found again from its code, so no two listed
      errors share a code. */
  lemma ListedCode(e: BassError)
    ensures Listed(Code(e)) == Some(e)
  {
  }

  /** Conversely, the error found for a code has that code. */
  lemma CodeOfListed(code: int)
    ensures Listed(code).Some? ==> Code(Listed(code).value) == code
  {
    if code < 14 {
      CodeOfListedLow(code);
    } else if code < 30 {
      CodeOfListedMiddle(code);
    } else {
      CodeOfListedHigh(code);
    }
  }

  lemma CodeOfListedLow(code: int)
    requires code < 14
    ensures Listed(code).Some? ==> Code(Listed(code).value) == code
  {
  }

  lemma CodeOfListedMiddle(code: int)
    requires 14 <= code < 30
    ensures Listed(code).Some? ==> Code(Listed(code).value) == code
  {
  }

  lemma CodeOfListedHigh(code: int)
    requires 30 <= code
    ensures Listed(code).Some? ==> Code(Listed(code).value) == code
  {
  }

  // ---------------------------------------------------------------------
  // The three tables
  // ---------------------------------------------------------------------

  /** The macro name `#err` that BASS_ERROR_CASE stringifies. */
  function Identifier(e: BassError): string {
    match e
    case Ok => "BASS_OK"
    case Mem => "BASS_ERROR_MEM"
    case FileOpen => "BASS_ERROR_FILEOPEN"
    case Driver => "BASS_ERROR_DRIVER"
    case BufLost => "BASS_ERROR_BUFLOST"
    case Handle => "BASS_ERROR_HANDLE"
    case Format => "BASS_ERROR_FORMAT"
    case Position => "BASS_ERROR_POSITION"
    case Init => "BASS_ERROR_INIT"
    case Start => "BASS_ERROR_START"
    case Ssl => "BASS_ERROR_SSL"
    case Already => "BASS_ERROR_ALREADY"
    case NoChan => "BASS_ERROR_NOCHAN"
    case IllType => "BASS_ERROR_ILLTYPE"
    case IllParam => "BASS_ERROR_ILLPARAM"
    case No3D => "BASS_ERROR_NO3D"
    case NoEax => "BASS_ERROR_NOEAX"
    case Device => "BASS_ERROR_DEVICE"
    case NoPlay => "BASS_ERROR_NOPLAY"
    case Freq => "BASS_ERROR_FREQ"
    case NotFile => "BASS_ERROR_NOTFILE"
    case NoHw => "BASS_ERROR_NOHW"
    case Empty => "BASS_ERROR_EMPTY"
    case NoNet => "BASS_ERROR_NONET"
    case Create => "BASS_ERROR_CREATE"
    case NoFx => "BASS_ERROR_NOFX"
    case NotAvail => "BASS_ERROR_NOTAVAIL"
    case Decode => "BASS_ERROR_DECODE"
    case Dx => "BASS_ERROR_DX"
    case Timeout => "BASS_ERROR_TIMEOUT"
    case FileForm => "BASS_ERROR_FILEFORM"
    case Speaker => "BASS_ERROR_SPEAKER"
    case Version => "BASS_ERROR_VERSION"
    case Codec => "BASS_ERROR_CODEC"
    case Ended => "BASS_ERROR_ENDED"
    case Busy => "BASS_ERROR_BUSY"
    case Wasapi => "BASS_ERROR_WASAPI"
    case WasapiBuffer => "BASS_ERROR_WASAPI_BUFFER"
    case WasapiRaw => "BASS_ERROR_WASAPI_RAW"
    case WasapiDenied => "BASS_ERROR_WASAPI_DENIED"
    case MidiInclude => "BASS_ERROR_MIDI_INCLUDE"
    case Unknown => "BASS_ERROR_UNKNOWN"
  }

  const UnknownName: string := "BASS_ERROR_UNKNOWN"

  /** GetBASSErrorName: the identifier of a listed code, the identifier of
      BASS_ERROR_UNKNOWN for any other. */
  function GetBASSErrorName(code: int): (name: string)
    ensures Listed(code).Some? ==> name == Identifier(Listed(code).value)
    ensures Listed(code).None? ==> name == UnknownName
  {
    match Listed(code)
    case Some(e) => Identifier(e)
    case None => UnknownName
  }

  /** Exactly the unlisted codes and BASS_ERROR_UNKNOWN itself are named
      BASS_ERROR_UNKNOWN. */
  lemma NameIsUnknownExactly(code: int)
    ensures GetBASSErrorName(code) == UnknownName <==> Listed(code).None? || Listed(code) == Some(Unknown)
  {
  }

  /** The description text of each listed error; BASS_ERROR_UNKNOWN has
      no `case` and falls to the default. */
  function Describe(e: BassError): string {
    match e
    case Ok => "No error."
    case Mem => "Out of memory."
    case FileOpen => "Can't open the file."
    case Driver => "No available driver. Device may be in use."
    case BufLost => "Sample buffer was lost."
    case Handle => "Invalid handle."
    case Format => "Sample format not supported by device."
    case Position => "Invalid position (beyond end or not downloaded yet)."
    case Init => "BASS_Init hasn't been called."
    case Start => "BASS_Start hasn't been called."
    case Ssl => "SSL/HTTPS not available."
    case Already => "Already initialized."
    case NoChan => "No free channels available."
    case IllType => "Illegal type specified."
    case IllParam => "Illegal parameter."
    case No3D => "No 3D support."
    case NoEax => "No EAX support."
    case Device => "Invalid device."
    case NoPlay => "Not playing."
    case Freq => "Illegal sample rate."
    case NotFile => "Not a file stream."
    case NoHw => "No hardware voices available."
    case Empty => "MOD has no sequence data."
    case NoNet => "No internet connection."
    case Create => "Couldn't create the file."
    case NoFx => "Effects not available."
    case NotAvail => "Requested data not available."
    case Decode => "Channel is a decoding channel."
    case Dx => "DirectX init failed."
    case Timeout => "Connection timed out."
    case FileForm => "Unsupported file format."
    case Speaker => "Speaker config unavailable."
    case Version => "BASS version mismatch."
    case Codec => "Codec not available."
    case Ended => "Stream has ended."
    case Busy => "Device busy (exclusive mode or not ready)."
    case Wasapi => "WASAPI not available."
    case WasapiBuffer => "Invalid WASAPI buffer size."
    case WasapiRaw => "RAW mode not supported by device APO."
    case WasapiDenied => "WASAPI access denied."
    case MidiInclude => "SFZ #include file not found."
    case Unknown => UnknownDescription
  }

  const UnknownDescription: string := "Unknown error."

  /** GetBASSErrorDescription: total; every code without its own text,
      BASS_ERROR_UNKNOWN included, reads "Unknown error.". */
  function GetBASSErrorDescription(code: int): (description: string)
    ensures description == UnknownDescription <==> Listed(code).None? || Listed(code) == Some(Unknown)
    ensures Listed(code).Some? ==> description == Describe(Listed(code).value)
  {
    match Listed(code)
    case Some(e) => Describe(e)
    case None => UnknownDescription
  }

  const DeviceInUseFix: string :=
    "Another app may have exclusive access to the device. Close other audio apps or check for another OmniMIDI instance."
  const FormatFix: string :=
    "Unsupported audio format. If playback works, ignore this. Otherwise change the frequency in settings."
  const RestartFix: string := "Restart the app. If it keeps happening, report an issue on GitHub."
  const UnknownCauseFix: string := "Unknown cause. Report an issue if this persists."

  /** The errors the fix table has a `case` for. */
  predicate HasOwnFix(e: BassError) {
    match e
    case Ok | Mem | FileOpen | Driver | Busy | BufLost | Format | Freq | NoChan | IllParam | Device
      | NoPlay | Create | NotAvail | Speaker | WasapiBuffer | WasapiRaw | MidiInclude
      | Handle | Init | Already | Version | Wasapi | WasapiDenied => true
    case _ => false
  }

  function Fix(e: BassError): string {
    match e
    case Ok => "Nothing's wrong. You shouldn't see this."
    case Mem => "Not enough memory. Try a smaller SoundFont, or use 64-bit if available."
    case FileOpen => "Check the file exists and the drive is accessible."
    case Driver => DeviceInUseFix
    case Busy => DeviceInUseFix
    case BufLost => "Sound card timed out. Try increasing buffer size or switch devices."
    case Format => FormatFix
    case Freq => FormatFix
    case NoChan => "Can't allocate stream. If VirtualMIDISynth 1.x is installed, remove it."
    case IllParam => "ASIO/WASAPI device may not support a setting. Try disabling it or switch devices."
    case Device => "Device doesn't exist. Check your audio settings."
    case NoPlay => "Driver error - restart the app."
    case Create => "Permission denied or BASS error creating file."
    case NotAvail => "Audio data not ready. Could be a buffer timeout or dead stream. Restart the app."
    case Speaker => "Output unavailable. Make sure nothing has exclusive control."
    case WasapiBuffer => "Buffer size invalid or too small. Try a different value."
    case WasapiRaw => "Device APO doesn't support RAW mode. Try the stock Microsoft HD Audio driver."
    case MidiInclude => "SoundFont may be corrupted. Try a different one."
    case Handle => RestartFix
    case Init => RestartFix
    case Already => RestartFix
    case Version => RestartFix
    case Wasapi => RestartFix
    case WasapiDenied => RestartFix
    case _ => UnknownCauseFix
  }

  /** Only the errors without a `case` of their own get the unknown-cause
      text. */
  lemma FixIsUnknownCauseExactly(e: BassError)
    ensures Fix(e) == UnknownCauseFix <==> !HasOwnFix(e)
  {
  }

  /** GetBASSErrorFix: the unknown-cause text exactly for the codes that
      are unlisted or have no fix of their own. */
  function GetBASSErrorFix(code: int): (fix: string)
    ensures fix == UnknownCauseFix <==> Listed(code).None? || !HasOwnFix(Listed(code).value)
    ensures Listed(code).Some? ==> fix == Fix(Listed(code).value)
  {
    match Listed(code)
    case Some(e) => FixIsUnknownCauseExactly(e); Fix(e)
    case None => UnknownCauseFix
  }

  /** The codes that share a fix text: DRIVER and BUSY; FORMAT and FREQ;
      HANDLE, INIT, ALREADY, VERSION, WASAPI and WASAPI_DENIED. */
  predicate SharesRestartFix(e: BassError) {
    match e
    case Handle | Init | Already | Version | Wasapi | WasapiDenied => true
    case _ => false
  }

  lemma FixGroups(e: BassError)
    ensures Fix(Driver) == Fix(Busy) == DeviceInUseFix
    ensures Fix(Format) == Fix(Freq) == FormatFix
    ensures SharesRestartFix(e) ==> Fix(e) == RestartFix
  {
  }

  // ---------------------------------------------------------------------
  // Fatal errors
  // ---------------------------------------------------------------------

  /** The `isFatal` test of ShowBASSError, on the raw code. Every fatal
      code lies between UNKNOWN and CODEC, BASS_OK excluded. */
  predicate IsFatal(code: int)
    ensures IsFatal(code) ==> Code(Unknown) <= code <= Code(Codec) && code != Code(Ok)
  {
    code == Code(Unknown)
    || (Code(FileOpen) <= code && code <= Code(Ssl))
    || code == Code(IllType)
    || (Code(NoPlay) <= code && code <= Code(NotFile))
    || code == Code(Codec)
  }

  /** The listed errors the test treats as fatal. */
  predicate FatalError(e: BassError) {
    match e
    case Unknown | FileOpen | Driver | BufLost | Handle | Format | Position | Init | Start | Ssl
      | IllType | NoPlay | Freq | NotFile | Codec => true
    case _ => false
  }

  /** A listed error is fatal exactly when it is one of those above. In
      particular FORMAT and FREQ are fatal although their fix says to
      ignore them when playback works. */
  lemma FatalListed(e: BassError)
    ensures IsFatal(Code(e)) <==> FatalError(e)
  {
  }

  /** The ranges also cover one code that no table lists: 26, between
      FREQ and NOTFILE. */
  lemma FatalUnlisted(code: int)
    requires Listed(code).None?
    ensures IsFatal(code) <==> code == 26
  {
  }

  /** The fatal codes are those of the listed fatal errors and the
      unlisted 26. */
  lemma FatalCodes(code: int)
    ensures IsFatal(code) <==> code == 26 || (Listed(code).Some? && FatalError(Listed(code).value))
  {
    match Listed(code)
    case Some(e) =>
      CodeOfListed(code);
      FatalListed(e);
    case None =>
      FatalUnlisted(code);
  }

  /** The success test of CheckBASSError: the code is the one BASS_OK is
      listed under. */
  predicate IsSuccess(code: int)
    ensures IsSuccess(code) <==> Listed(code) == Some(Ok)
  {
    code == Code(Ok)
  }

  lemma SuccessIsNotFatal(code: int)
    ensures IsSuccess(code) ==> !IsFatal(code) && GetBASSErrorName(code) == "BASS_OK"
  {
  }

  // ---------------------------------------------------------------------
  // The dialog command line
  // ---------------------------------------------------------------------

  const Quote: char := '"'

  /** EscapeArg: a null or empty C string becomes `""`, anything else is
      wrapped in double quotes. Quotes inside the argument are copied as
      they are. */
  function EscapeArg(src: Option<string>): (dest: string)
    ensures dest == [Quote] + (if src.Some? then src.value else "") + [Quote]
    ensures |dest| >= 2 && dest[0] == Quote && dest[|dest| - 1] == Quote
  {
    if src.None? || src.value == "" then [Quote, Quote]
    else [Quote] + src.value + [Quote]
  }

  /** Stripping the outer quotes gives the argument back. */
  lemma EscapeArgUnquote(src: Option<string>)
    ensures var dest := EscapeArg(src);
      dest[1..|dest| - 1] == (if src.Some? then src.value else "")
  {
    var s := if src.Some? then src.value else "";
    assert ([Quote] + s + [Quote])[1..|s| + 1] == s;
  }

  /** Because inner quotes are not escaped, two different descriptions and
      fixes can produce the same command-line text: moving `" --fix "`
      from the end of the first value to the start of the second changes
      nothing. */
  lemma EscapeArgAmbiguous(x: string, y: string, z: string)
    ensures
      var inner := [Quote] + " --fix " + [Quote];
      EscapeArg(Some(x + inner + y)) + " --fix " + EscapeArg(Some(z))
        == EscapeArg(Some(x)) + " --fix " + EscapeArg(Some(y + inner + z))
  {
    var q := [Quote];
    var option := " --fix ";
    var inner := q + option + q;
    calc {
      EscapeArg(Some(x + inner + y)) + option + EscapeArg(Some(z));
      q + (x + inner + y) + q + option + (q + z + q);
      q + x + q + option + q + y + q + option + q + z + q;
      q + x + q + option + (q + (y + inner + z) + q);
      EscapeArg(Some(x)) + option + EscapeArg(Some(y + inner + z));
    }
  }

  const FatalFlag: string := " --fatal"

  /** The arguments after the quoted executable path, up to the escaped
      context; they end with the closing quote of the context. */
  function DialogArguments(error: int, engine: string, context: Option<string>,
                           name: string, description: string, fix: string): (args: string)
    ensures |args| >= 1 && args[|args| - 1] == Quote
  {
    var front := " --type error --engine " + EscapeArg(Some(engine))
      + " --code " + IntToString(error)
      + " --name " + EscapeArg(Some(name))
      + " --desc " + EscapeArg(Some(description))
      + " --fix " + EscapeArg(Some(fix))
      + " --context ";
    var last := EscapeArg(context);
    assert (front + last)[|front + last| - 1] == last[|last| - 1];
    front + last
  }

  /** The text between the quoted executable path and the optional fatal
      flag is exactly the arguments, whatever they are. */
  lemma CommandLineMiddle(exePath: string, args: string, fatal: bool)
    ensures var cmd := [Quote] + exePath + [Quote] + args + (if fatal then FatalFlag else "");
      var back := if fatal then |FatalFlag| else 0;
      |exePath| + 2 + back <= |cmd|
      && cmd[|exePath| + 2..|cmd| - back] == args
  {
    MiddleOfAppend([Quote] + exePath + [Quote], args, if fatal then FatalFlag else "");
  }

  /** The command line LaunchDialogExe passes to CreateProcessA: the quoted
      executable path, the arguments and " --fatal" for a fatal error. */
  function DialogCommandLine(exePath: string, error: int, engine: string, context: Option<string>,
                             name: string, description: string, fix: string, fatal: bool): (cmd: string)
    ensures [Quote] + exePath + [Quote] <= cmd
    ensures EndsWith(cmd, FatalFlag) <==> fatal
  {
    var path := [Quote] + exePath + [Quote];
    var body := path + DialogArguments(error, engine, context, name, description, fix);
    var cmd := body + (if fatal then FatalFlag else "");
    PrefixOfAppend(path, DialogArguments(error, engine, context, name, description, fix));
    PrefixOfAppend(body, if fatal then FatalFlag else "");
    if fatal then
      SuffixOfAppend(body, FatalFlag);
      cmd
    else
      assert cmd == body;
      assert cmd[|cmd| - 1] == Quote;
      assert FatalFlag[|FatalFlag| - 1] == 'l';
      cmd
  }

  /** The command line carries DialogArguments unchanged between the
      quoted path and the optional fatal flag, so what the dialog reads
      back from it is DialogArgumentsRoundTrip's pieces. */
  lemma DialogCommandLineMiddle(exePath: string, error: int, engine: string, context: Option<string>,
                                name: string, description: string, fix: string, fatal: bool)
    ensures var cmd := DialogCommandLine(exePath, error, engine, context, name, description, fix, fatal);
      var back := if fatal then |FatalFlag| else 0;
      |exePath| + 2 + back <= |cmd|
      && cmd[|exePath| + 2..|cmd| - back] == DialogArguments(error, engine, context, name, description, fix)
  {
    CommandLineMiddle(exePath, DialogArguments(error, engine, context, name, description, fix), fatal);
  }

  /** DialogArguments split at its quotes: the option labels at even
      positions and the quoted values at odd ones. */
  function DialogArgumentPieces(error: int, engine: string, context: Option<string>,
                                name: string, description: string, fix: string): seq<string> {
    [" --type error --engine ", engine, " --code " + IntToString(error) + " --name ", name,
     " --desc ", description, " --fix ", fix, " --context ", if context.Some? then context.value else "", ""]
  }

  /** Regrouping the arguments around their quotes: each escaped value is
      a quote, the value and a quote. */
  lemma RegroupArguments(l0: string, e: string, l1: string, l2: string, l3: string, nm: string,
                         l4: string, d: string, l5: string, f: string, l6: string, c: string,
                         qe: string, qn: string, qd: string, qf: string, qc: string)
    requires qe == [Quote] + e + [Quote] && qn == [Quote] + nm + [Quote]
    requires qd == [Quote] + d + [Quote] && qf == [Quote] + f + [Quote]
    requires qc == [Quote] + c + [Quote]
    ensures l0 + qe + l1 + l2 + l3 + qn + l4 + qd + l5 + qf + l6 + qc
      == l0 + [Quote] + e + [Quote] + (l1 + l2 + l3) + [Quote] + nm + [Quote] + l4 + [Quote] + d
         + [Quote] + l5 + [Quote] + f + [Quote] + l6 + [Quote] + c + [Quote] + ""
  {
  }

  /** The arguments are the pieces joined with quotes. */
  lemma DialogArgumentsJoined(error: int, engine: string, context: Option<string>,
                              name: string, description: string, fix: string)
    ensures DialogArguments(error, engine, context, name, description, fix)
      == Join(DialogArgumentPieces(error, engine, context, name, description, fix), Quote)
  {
    var p := DialogArgumentPieces(error, engine, context, name, description, fix);
    JoinEleven(p, Quote);
    RegroupArguments(" --type error --engine ", engine, " --code ", IntToString(error), " --name ", name,
                     " --desc ", description, " --fix ", fix, " --context ", p[9],
                     EscapeArg(Some(engine)), EscapeArg(Some(name)), EscapeArg(Some(description)),
                     EscapeArg(Some(fix)), EscapeArg(context));
  }

  /** None of the pieces holds a quote when none of the values does. */
  lemma PiecesHaveNoQuote(error: int, engine: string, context: Option<string>,
                          name: string, description: string, fix: string)
    requires Quote !in engine && Quote !in name && Quote !in description && Quote !in fix
    requires context.Some? ==> Quote !in context.value
    ensures var p := DialogArgumentPieces(error, engine, context, name, description, fix);
      forall i :: 0 <= i < |p| ==> Quote !in p[i]
  {
    assert Quote !in IntToString(error);
  }

  /** Splitting the arguments at their quotes gives back the engine, the
      name, the description, the fix and the context, provided none of them
      holds a quote itself (EscapeArgAmbiguous shows what goes wrong
      otherwise). */
  lemma DialogArgumentsRoundTrip(error: int, engine: string, context: Option<string>,
                                 name: string, description: string, fix: string)
    requires Quote !in engine && Quote !in name && Quote !in description && Quote !in fix
    requires context.Some? ==> Quote !in context.value
    ensures Fields(DialogArguments(error, engine, context, name, description, fix), Quote)
      == DialogArgumentPieces(error, engine, context, name, description, fix)
  {
    var p := DialogArgumentPieces(error, engine, context, name, description, fix);
    DialogArgumentsJoined(error, engine, context, name, description, fix);
    PiecesHaveNoQuote(error, engine, context, name, description, fix);
    FieldsOfJoin(p, Quote);
  }

  // ---------------------------------------------------------------------
  // The message box fallback
  // ---------------------------------------------------------------------

  const ReportLine: string := "\n\nReport issues at github.com/FrozenSnowy/OmniMIDI-Permafrost"
  const AsioHint: string := "\n\nTry changing the ASIO device in the configurator."

  /** _stricmp's folding: ASCII upper-case letters to lower case. */
  function LowerAscii(c: char): char {
    if 'A' <= c <= 'Z' then (c as int + 32) as char else c
  }

  /** _stricmp(a, b) == 0. */
  predicate SameIgnoringCase(a: string, b: string) {
    |a| == |b| && forall i :: 0 <= i < |a| ==> LowerAscii(a[i]) == LowerAscii(b[i])
  }

  /** The "Context:" section, present only for a non-empty context. */
  function ContextSection(context: Option<string>): (section: string)
    ensures section == "" <==> context.None? || context.value == ""
    ensures section != "" ==> section == "\n\nContext: " + context.value
  {
    if context.Some? && context.value != "" then "\n\nContext: " + context.value else ""
  }

  /** The ASIO hint, for the BASSASIO engine (in any letter case) and any
      error but BASS_ERROR_UNKNOWN. */
  function AsioSection(engine: string, error: int): (section: string)
    ensures section != "" <==> SameIgnoringCase(engine, "BASSASIO") && error != Code(Unknown)
    ensures section != "" ==> section == AsioHint
  {
    if SameIgnoringCase(engine, "BASSASIO") && error != Code(Unknown) then AsioHint else ""
  }

  function FallbackTitle(engine: string): string {
    "OmniMIDI - " + engine + " Error"
  }

  /** The first line of the message and the description. */
  function FallbackHead(error: int, engine: string, name: string, description: string): string {
    engine + " error: " + name + " (E" + IntToString(error) + ")\n\n" + description
  }

  function FixSection(fix: string): string {
    "\n\nSuggested fix:\n" + fix
  }

  /** Five sections appended in order: the text starts with the first
      three. */
  lemma SectionsPrefix(a: string, b: string, c: string, d: string, e: string)
    ensures a <= a + b + c + d + e
    ensures a + b + c <= a + b + c + d + e
  {
    var t := a + b + c + d + e;
    assert t == (a + b + c) + (d + e);
    PrefixOfAppend(a + b + c, d + e);
    assert (a + b + c)[..|a|] == a;
  }

  /** Five sections appended in order: the text ends with the last two. */
  lemma SectionsSuffix(a: string, b: string, c: string, d: string, e: string)
    ensures EndsWith(a + b + c + d + e, e)
    ensures EndsWith(a + b + c + d + e, d + e)
  {
    SuffixOfAppend(a + b + c + d, e);
    assert a + b + c + d + e == (a + b + c) + (d + e);
    SuffixOfAppend(a + b + c, d + e);
  }

  /** With the fourth section empty, the text ends with the third and the
      last. */
  lemma SectionsSuffixWithoutFourth(a: string, b: string, c: string, d: string, e: string)
    requires d == []
    ensures EndsWith(a + b + c + d + e, c + e)
  {
    assert a + b + c + d + e == (a + b) + (c + e);
    SuffixOfAppend(a + b, c + e);
  }

  /** The message box text: the head, the context section, the suggested
      fix, the ASIO hint and the report line, in this order. */
  function FallbackText(error: int, engine: string, context: Option<string>,
                        name: string, description: string, fix: string): (text: string)
    ensures FallbackHead(error, engine, name, description) <= text
    ensures FallbackHead(error, engine, name, description) + ContextSection(context) + FixSection(fix) <= text
    ensures |text| == |FallbackHead(error, engine, name, description)| + |ContextSection(context)|
      + |FixSection(fix)| + |AsioSection(engine, error)| + |ReportLine|
    ensures EndsWith(text, ReportLine)
    ensures AsioSection(engine, error) != "" ==> EndsWith(text, AsioHint + ReportLine)
    ensures AsioSection(engine, error) == "" ==> EndsWith(text, FixSection(fix) + ReportLine)
  {
    var head := FallbackHead(error, engine, name, description);
    var asio := AsioSection(engine, error);
    SectionsPrefix(head, ContextSection(context), FixSection(fix), asio, ReportLine);
    SectionsSuffix(head, ContextSection(context), FixSection(fix), asio, ReportLine);
    var text := head + ContextSection(context) + FixSection(fix) + asio + ReportLine;
    if asio == [] then
      SectionsSuffixWithoutFourth(head, ContextSection(context), FixSection(fix), asio, ReportLine);
      text
    else
      text
  }

  /** ShowMessageBoxFallback: the title and the text, the text filled by
      successive appends to the message buffer. */
  method ShowMessageBoxFallback(error: int, engine: string, context: Option<string>,
                                name: string, description: string, fix: string)
    returns (title: string, text: string)
    ensures title == FallbackTitle(engine)
    ensures text == FallbackText(error, engine, context, name, description, fix)
  {
    title := "OmniMIDI - " + engine + " Error";
    text := engine + " error: " + name + " (E" + IntToString(error) + ")\n\n" + description;
    ghost var head := text;
    if context.Some? && context.value != "" {
      text := text + ("\n\nContext: " + context.value);
    }
    assert text == head + ContextSection(context);
    text := text + ("\n\nSuggested fix:\n" + fix);
    assert text == head + (ContextSection(context) + FixSection(fix));
    if SameIgnoringCase(engine, "BASSASIO") && error != Code(Unknown) {
      text := text + AsioHint;
    }
    assert text == head + (ContextSection(context) + FixSection(fix)) + AsioSection(engine, error);
    text := text + ReportLine;
  }

  // ---------------------------------------------------------------------
  // ShowBASSError and CheckBASSError
  // ---------------------------------------------------------------------

  datatype Display =
    | NoDisplay
    | Dialog(commandLine: string)
    | MessageBox(title: string, text: string)

  /** What ShowBASSError does: the name and description it logs, what it
      shows, and whether it then exits the process. */
  datatype ErrorReport = ErrorReport(loggedName: string, loggedDescription: string,
                                     display: Display, exits: bool)

  /** ShowBASSError. `dialogExe` is the path of OmniMIDIDialog.exe when it
      exists and the process could be started, None otherwise. The error
      is always logged; without showDialog nothing is shown and the
      process goes on; otherwise the dialog (or the message box) is shown
      and a fatal error ends the process. */
  function ShowBASSError(error: int, engine: string, context: Option<string>, showDialog: bool,
                         dialogExe: Option<string>): (report: ErrorReport)
    ensures report.loggedName == GetBASSErrorName(error)
    ensures report.loggedDescription == GetBASSErrorDescription(error)
    ensures report.exits <==> showDialog && IsFatal(error)
    ensures report.display.NoDisplay? <==> !showDialog
    ensures report.display.Dialog? <==> showDialog && dialogExe.Some?
    ensures report.display.Dialog? ==> (EndsWith(report.display.commandLine, FatalFlag) <==> IsFatal(error))
    ensures report.display.MessageBox? ==>
      EndsWith(report.display.text, ReportLine) && report.display.title == FallbackTitle(engine)
    ensures report.display.Dialog? ==>
      report.display.commandLine == DialogCommandLine(dialogExe.value, error, engine, context,
        GetBASSErrorName(error), GetBASSErrorDescription(error), GetBASSErrorFix(error), IsFatal(error))
    ensures report.display.MessageBox? ==>
      report.display.text == FallbackText(error, engine, context,
        GetBASSErrorName(error), GetBASSErrorDescription(error), GetBASSErrorFix(error))
  {
    var name := GetBASSErrorName(error);
    var description := GetBASSErrorDescription(error);
    if !showDialog then
      ErrorReport(name, description, NoDisplay, false)
    else
      var fix := GetBASSErrorFix(error);
      var fatal := IsFatal(error);
      var display :=
        match dialogExe
        case Some(exePath) =>
          Dialog(DialogCommandLine(exePath, error, engine, context, name, description, fix, fatal))
        case None =>
          MessageBox(FallbackTitle(engine), FallbackText(error, engine, context, name, description, fix));
      ErrorReport(name, description, display, fatal)
  }

  /** The engine name CheckBASSError reports. */
  function EngineName(isAsio: bool): string {
    if isAsio then "BASSASIO" else "BASS"
  }

  /** The ASIO hint is offered for the ASIO engine only. */
  lemma AsioHintOnlyForAsio(isAsio: bool, error: int)
    ensures AsioSection(EngineName(isAsio), error) != "" <==> isAsio && error != Code(Unknown)
  {
    if isAsio {
      assert SameIgnoringCase("BASSASIO", "BASSASIO");
    }
  }

  datatype CheckOutcome = CheckOutcome(ok: bool, report: Option<ErrorReport>)

  /** CheckBASSError, given the codes BASS_ErrorGetCode and
      BASS_ASIO_ErrorGetCode would return: success exactly when the code
      of the engine in use is BASS_OK; any other code is reported. */
  function CheckBASSError(isAsio: bool, context: Option<string>, showError: bool,
                          bassCode: int, asioCode: int, dialogExe: Option<string>): (outcome: CheckOutcome)
    ensures var error := if isAsio then asioCode else bassCode;
      (outcome.ok <==> IsSuccess(error))
      && (outcome.ok <==> outcome.report.None?)
      && (outcome.report.Some? ==>
            outcome.report.value == ShowBASSError(error, EngineName(isAsio), context, showError, dialogExe))
  {
    var error := if isAsio then asioCode else bassCode;
    if error != Code(Ok) then
      CheckOutcome(false, Some(ShowBASSError(error, EngineName(isAsio), context, showError, dialogExe)))
    else
      CheckOutcome(true, None)
  }

  /** A failing check that is not asked to show the error only logs it:
      nothing is displayed and the process is not ended. */
  lemma SilentCheckNeverExits(isAsio: bool, context: Option<string>, bassCode: int, asioCode: int,
                              dialogExe: Option<string>)
    ensures var outcome := CheckBASSError(isAsio, context, false, bassCode, asioCode, dialogExe);
      outcome.report.Some? ==> outcome.report.value.display == NoDisplay && !outcome.report.value.exits
  {
  }
}
