# OmniMIDI Permafrost integration: a Dafny model

OmniMIDI is a Windows MIDI synthesizer driver. This project models three of
its header-only components, the ones through which it talks to the companion
application Permafrost and reports audio-library errors:

- **The audio bus** (`AudioBus.h`). A named shared-memory region holds one
  packed status header. OmniMIDI writes its sample rate, master and
  per-channel peak meters, voice counts, latencies and a flags word into
  it, under a named mutex. The three event timestamps (last MIDI event,
  last synth completion, last audio output) are written without the
  mutex. Permafrost reads the header.
  Permafrost asks for a panic (all notes off) by setting the
  PANIC_REQUEST bit. OmniMIDI acknowledges it by clearing that bit and
  setting PANIC_ACK.
- **The Permafrost IPC client** (`PermafrostIPC.h`). It covers:
  - the `PERMAFROST|name|path|pid` request sent over a named pipe, and how
    the reply is read and classified;
  - the cached availability probe;
  - the `PanicRequest` registry value, which is read and cleared;
  - the mixer command dispatcher and the periodic poll. In the build this
    project models, where the audio bus is compiled in, the dispatcher also
    acknowledges a PANIC on the bus and the poll also honours the bus
    flags.
- **BASS error reporting** (`BASSErrors.h`). It covers:
  - the name, description and suggested-fix tables;
  - the fatal-error test;
  - the quoting of dialog arguments and the command line of the external
    error dialog;
  - the message-box text used when the dialog cannot be launched;
  - `ShowBASSError` and `CheckBASSError`.

Files:

- `primitives.dfy`: `Option`, DWORD/ULONGLONG ranges, and decimal rendering
  with its read-back. It also has `|`-separated join and split.
- `audio_bus_layout.dfy`: the byte offsets of the `#pragma pack(1)`
  header and of its channel entries.
- `audio_bus.dfy`: the header value, the smoothing, the flag handshake, the
  voice total, and the class `Bus`. `Bus` holds the driver's globals and
  has one method per `AudioBus_*` function.
- `permafrost_ipc.dfy`: the request and reply functions, the command
  effects, and the class `Client` that holds the IPC globals and the
  registry cell.
- `bass_errors.dfy`: the tables, the fatal classification, the dialog
  command line, the fallback message and the reporting functions.

Win32 outcomes become arguments. These include every `WaitForSingleObject`
on the bus mutex whose result the source tests (`acquired`), the pipe opening and writing, the chunks the
reads returned, registry key creation, and whether the dialog executable
exists and starts. Clock readings become arguments too. Calls into the
synthesizer are returned as a trace of `Effect` values.

What `ShowBASSError` logs, shows, and whether it exits the process is
returned as an `ErrorReport`.

## Model

| member | source | states |
|---|---|---|
| Primitives.NatToString | OmniMIDI/PermafrostIPC.h:87 | The pid is rendered as decimal digits with no leading zero; "0" only for 0. |
| Primitives.NatToStringRoundTrip | OmniMIDI/PermafrostIPC.h:87 | Reading the rendered digits back gives the pid, so the last request field identifies the process. |
| Primitives.IntToString | OmniMIDI/BASSErrors.h:298 | The `%d` rendering starts with '-' exactly for negative codes, followed by the digits of the magnitude. |
| AudioBusLayout.ChannelEntryPacked | OmniMIDI/AudioBus.h:43-49 | A channel entry is packed: each field starts where the previous one ends, and the entry is 20 bytes. |
| AudioBusLayout.HeaderPacked | OmniMIDI/AudioBus.h:53-105 | Under pack(1) every header field starts where the field declared before it ends, so the offset table is the compiler's layout. |
| AudioBusLayout.EndsBefore | OmniMIDI/AudioBus.h:53-105 | Any field declared earlier ends no later than a later field starts. |
| AudioBusLayout.FieldsDisjoint | OmniMIDI/AudioBus.h:53-111 | No two header fields overlap, and all of them lie inside the 436-byte region that is mapped. |
| AudioBusLayout.ChannelsArraySize | OmniMIDI/AudioBus.h:101-102 | The Channels array occupies exactly 16 entries of 20 bytes. |
| AudioBusLayout.ChannelFieldInRegion | OmniMIDI/AudioBus.h:98-111 | Every field of channels 0..15 lies after the reserved bytes and inside the region. |
| AudioBusLayout.ChannelEntriesDisjoint | OmniMIDI/AudioBus.h:43-102 | Entries of different channels do not overlap. |
| AudioBus.ZeroedHeader | OmniMIDI/AudioBus.h:219 | After the memset, the magic is four NULs and every numeric field is 0: the version, rate, buffer size, channel count, flags, counter, timestamp, meters, voices, CPU, frequency, the three event times, both latencies and the engine. All 16 channels are silent. |
| AudioBusLayout.HeaderSize | OmniMIDI/AudioBus.h:105-111 | The mapped region, the end of the last header field, is 436 bytes. |
| AudioBus.Smooth | OmniMIDI/AudioBus.h:319-335 | A louder input is taken at once. An input no louder than the meter is ignored and the meter becomes exactly 0.92 of its value. A non-negative meter thus never falls below 0.92 of its value and never rises above the larger of stored and input. |
| AudioBus.SmoothIgnoresQuieterInput | OmniMIDI/AudioBus.h:319-335 | For a non-negative meter, any input no louder than it has the same effect as silence. |
| AudioBus.SmoothInUnit | OmniMIDI/AudioBus.h:319-335 | Inputs in [0, 1] keep a meter in [0, 1]. |
| AudioBus.DecayedIsGeometric | OmniMIDI/AudioBus.h:38 | Under silence, after n updates a meter holds stored * 0.92^n, stays non-negative and never rises. |
| AudioBus.WithPanicRequested | OmniMIDI/AudioBus.h:545-560 | REQUEST ends set and ACK clear; every other bit is kept. |
| AudioBus.WithPanicAcknowledged | OmniMIDI/AudioBus.h:474-489 | REQUEST ends clear and ACK set; every other bit is kept. |
| AudioBus.WithoutPanicAck | OmniMIDI/AudioBus.h:495-507 | ACK ends clear; every other bit, REQUEST included, is kept. |
| AudioBus.PanicHandshakeRoundTrip | OmniMIDI/AudioBus.h:31-33 | Request, then acknowledge, then clear-ack leaves both handshake bits clear and ACTIVE and the other bits as they were. |
| AudioBus.TotalVoicesExact | OmniMIDI/AudioBus.h:428-446 | With fewer than 2^28 voices per channel, the DWORD total does not wrap and equals the exact sum. |
| AudioBus.WithVoiceCounts | OmniMIDI/AudioBus.h:437-443 | Each of the 16 counts is replaced by the caller's, and the running DWORD total ends at the sum modulo 2^32. Nothing else changes. |
| AudioBus.Bus.constructor | OmniMIDI/AudioBus.h:114-126 | Starts not connected, with a zeroed header, zero meters and frequency 0. |
| AudioBus.Bus.Create | OmniMIDI/AudioBus.h:149-258 | On an initialized bus it succeeds without change. Otherwise it succeeds iff all three Win32 steps succeed. A failure changes nothing. On success the header is identified ("OMAB", version 2, 256, 16), flags are ACTIVE, the rate, engine, tick count and frequency are set, all else is zero, and the bus is connected. |
| AudioBus.Bus.Destroy | OmniMIDI/AudioBus.h:264-302 | An initialized bus gets Flags cleared and becomes disconnected, with the rest of the header and the meters kept. An uninitialized bus is left alone. |
| AudioBus.Bus.UpdateLevels | OmniMIDI/AudioBus.h:312-353 | The master meters are smoothed whenever connected. Only when the lock is taken, the header gets the meters, voices and CPU, WriteCounter advances by one (mod 2^64) and the timestamp is set. Meters stay in [0, 1]. |
| AudioBus.Bus.UpdateChannelVoices | OmniMIDI/AudioBus.h:359-377 | Writes one channel's count under the lock. An index outside 0..15 or a missed lock changes nothing. |
| AudioBus.Bus.UpdateChannelLevels | OmniMIDI/AudioBus.h:384-422 | Smooths only the given channel's two meters. It copies them into that entry only under the lock, ignores out-of-range channels, and keeps meters in [0, 1]. |
| AudioBus.Bus.UpdateAllChannelVoices | OmniMIDI/AudioBus.h:428-446 | Under the lock, all 16 counts are written and TotalVoices becomes their sum modulo 2^32. The other header fields are unchanged. |
| AudioBus.Bus.IsConnected | OmniMIDI/AudioBus.h:512-515 | True iff the bus was initialized; a connected bus in a valid state carries an identified header. |
| AudioBus.Bus.CheckPanicRequest | OmniMIDI/AudioBus.h:452-468 | True exactly when connected, the lock is taken, and REQUEST is set. |
| AudioBus.Bus.AcknowledgePanic | OmniMIDI/AudioBus.h:474-489 | Under the lock, the flags become the acknowledged form. Nothing else changes. |
| AudioBus.Bus.ClearPanicAck | OmniMIDI/AudioBus.h:495-507 | Under the lock, ACK is cleared. Nothing else changes. |
| AudioBus.Bus.GetFlags | OmniMIDI/AudioBus.h:521-535 | Returns the flags word, or 0 when not connected or when the lock is missed. |
| AudioBus.Bus.RequestPanic | OmniMIDI/AudioBus.h:545-560 | Under the lock, REQUEST is set and ACK cleared. Nothing else changes. |
| AudioBus.Bus.SetSampleRate | OmniMIDI/AudioBus.h:566-582 | Under the lock, only SampleRate changes. |
| AudioBus.Bus.RecordMidiEvent | OmniMIDI/AudioBus.h:603-613 | On a connected bus, only LastMidiEventTime changes, without the lock. |
| AudioBus.Bus.RecordSynthComplete | OmniMIDI/AudioBus.h:619-627 | On a connected bus, only LastSynthCompleteTime changes. |
| AudioBus.Bus.RecordAudioOutput | OmniMIDI/AudioBus.h:633-641 | On a connected bus, only LastAudioOutputTime changes. |
| AudioBus.Bus.UpdateLatencyInfo | OmniMIDI/AudioBus.h:651-665 | Under the lock, only the two latencies and the engine change. |
| AudioBus.Bus.QPCDiffToMicroseconds | OmniMIDI/AudioBus.h:671-680 | Returns 0 for an unknown frequency or a reversed interval. Otherwise returns the whole number of frequencies in the tick difference times 10^6 taken modulo 2^64. When that product does not wrap, this is the exact number of whole microseconds; when it wraps, the result falls short of the true quotient. |
| PermafrostIpc.BuildRequest | OmniMIDI/PermafrostIPC.h:82-87 | The appended request is the four fields PERMAFROST, name, path and pid, joined by '\|', with a null name or path read as empty. |
| PermafrostIpc.RequestFieldsRoundTrip | OmniMIDI/PermafrostIPC.h:81-87 | When name and path contain no '\|', splitting the request gives back exactly the four fields, and the last reads back as the pid. |
| PermafrostIpc.CString | OmniMIDI/PermafrostIPC.h:128-129 | The appended text is the longest NUL-free prefix of the read buffer. |
| PermafrostIpc.AssembledHasNoNul | OmniMIDI/PermafrostIPC.h:129 | The accumulated reply never contains a NUL. |
| PermafrostIpc.AccumulateResponse | OmniMIDI/PermafrostIPC.h:116-152 | The read loop's response is the concatenation of the chunks' C strings, with no NUL. |
| PermafrostIpc.IsErrorReply | OmniMIDI/PermafrostIPC.h:164 | The six-character substring test holds iff the reply starts with "ERROR\|"; a shorter reply never passes. |
| PermafrostIpc.ClassifyResponse | OmniMIDI/PermafrostIPC.h:157-182 | Fails exactly for an empty reply or one starting with "ERROR\|". Otherwise the list data is a NUL-free prefix of the reply, equal to the whole reply when it has no NUL. |
| PermafrostIpc.CommandEffects | OmniMIDI/PermafrostIPC.h:352-384 | PANIC resets without a SysEx reset, then acknowledges iff the bus is connected: two effects on a connected bus, one otherwise. RESET resets with a SysEx reset. Any other command does nothing. |
| PermafrostIpc.GetLevelsIgnored | OmniMIDI/PermafrostIPC.h:24 | The declared GET_LEVELS command has no effect in the dispatcher. |
| PermafrostIpc.PollResetsBounded | OmniMIDI/PermafrostIPC.h:388-406 | A poll resets at most twice. A registry PANIC whose acknowledgement already cleared REQUEST resets once. |
| PermafrostIpc.FlagsAfterPoll | OmniMIDI/PermafrostIPC.h:388-406 | The flags are acknowledged exactly once when the registry PANIC's acknowledgement took the lock, or when REQUEST was set and both the check and the second acknowledgement took it; otherwise they are unchanged. |
| PermafrostIpc.PollKeepsOtherFlags | OmniMIDI/PermafrostIPC.h:388-406 | A poll changes no bit of the flags word other than REQUEST and ACK. |
| PermafrostIpc.PollSettlesHandshake | OmniMIDI/PermafrostIPC.h:388-406 | With every lock taken, a poll leaves REQUEST clear, and leaves ACK set when a panic came through the bus or the registry. |
| PermafrostIpc.Client.constructor | OmniMIDI/PermafrostIPC.h:30-31 | Starts unavailable and with mixer integration off; the registry cell holds what the registry holds. |
| PermafrostIpc.Client.RequestSoundFontList | OmniMIDI/PermafrostIPC.h:36-211 | Availability becomes whether the pipe opened, and the request is sent iff it opened. A failed write or a failing reply returns FALSE and leaves the list untouched. Otherwise the list becomes the reply. |
| PermafrostIpc.Client.IsAvailable | OmniMIDI/PermafrostIPC.h:214-236 | Probes only when not cached as available. The result is cached-or-probe-success, and the cache equals the result. |
| PermafrostIpc.Client.InitializeMixer | OmniMIDI/PermafrostIPC.h:410-433 | Mixer integration is enabled. PanicRequest is reset to 0 when the key could be created. |
| PermafrostIpc.Client.CheckMixerCommand | OmniMIDI/PermafrostIPC.h:314-348 | Reports PANIC iff a non-zero request was pending and "" otherwise. Afterwards the request is consumed: set to 0, none pending. |
| PermafrostIpc.Client.PollMixerCommands | OmniMIDI/PermafrostIPC.h:388-406 | The effects are the registry command's effects, plus a reset and an acknowledgement when the bus still shows REQUEST. On a connected bus only the flags word of the header changes, to FlagsAfterPoll; a disconnected bus is untouched. The bus's connection, frequency and meters are kept. The registry request is consumed (0 if one was pending, else as it was), and availability and mixer state are kept. |
| PermafrostIpc.ExecuteMixerCommand | OmniMIDI/PermafrostIPC.h:352-384 | The effects are CommandEffects. Only a PANIC on a connected bus whose lock is taken changes the bus, and then only its flags word, to the acknowledged form. The connection, frequency and meters are always kept. |
| BassErrors.ListedCode | OmniMIDI/BASSErrors.h:13-62 | Every listed error is found again from its code, so no two listed errors share a code. |
| BassErrors.CodeOfListed | OmniMIDI/BASSErrors.h:13-62 | The error found for a code has that code. |
| BassErrors.GetBASSErrorName | OmniMIDI/BASSErrors.h:13-62 | Maps a listed code to its own macro name and any other code to BASS_ERROR_UNKNOWN. |
| BassErrors.NameIsUnknownExactly | OmniMIDI/BASSErrors.h:13-62 | The name is BASS_ERROR_UNKNOWN exactly for unlisted codes and for -1. |
| BassErrors.GetBASSErrorDescription | OmniMIDI/BASSErrors.h:64-153 | Total: "Unknown error." exactly for unlisted codes and for BASS_ERROR_UNKNOWN, which has no case; otherwise the error's own text. |
| BassErrors.FixIsUnknownCauseExactly | OmniMIDI/BASSErrors.h:155-222 | The unknown-cause text is given exactly to the errors without a fix case. |
| BassErrors.GetBASSErrorFix | OmniMIDI/BASSErrors.h:155-222 | Unknown-cause text exactly for unlisted codes and for listed ones without a fix case. |
| BassErrors.FixGroups | OmniMIDI/BASSErrors.h:155-222 | DRIVER and BUSY share a text, as do FORMAT and FREQ, and so do HANDLE, INIT, ALREADY, VERSION, WASAPI and WASAPI_DENIED. |
| BassErrors.FatalListed | OmniMIDI/BASSErrors.h:337-341 | A listed error is fatal exactly when it is UNKNOWN, FILEOPEN..SSL, ILLTYPE, NOPLAY, FREQ, NOTFILE or CODEC. This includes FORMAT and FREQ. |
| BassErrors.FatalUnlisted | OmniMIDI/BASSErrors.h:337-341 | The only unlisted code the ranges make fatal is 26. |
| BassErrors.IsFatal | OmniMIDI/BASSErrors.h:337-341 | Every fatal code lies between UNKNOWN (-1) and CODEC (44), and BASS_OK is not fatal. |
| BassErrors.FatalCodes | OmniMIDI/BASSErrors.h:337-341 | A code is fatal iff it is 26 or it lists an error among the fatal ones. |
| BassErrors.IsSuccess | OmniMIDI/BASSErrors.h:356-365 | A code is success iff it is the code listed as BASS_OK. |
| BassErrors.SuccessIsNotFatal | OmniMIDI/BASSErrors.h:356-365 | BASS_OK is the success code, is not fatal and is named BASS_OK. |
| BassErrors.EscapeArg | OmniMIDI/BASSErrors.h:236-245 | The argument is wrapped in double quotes; a null or empty one gives `""`. |
| BassErrors.EscapeArgUnquote | OmniMIDI/BASSErrors.h:236-245 | Removing the outer quotes gives the argument back. |
| BassErrors.EscapeArgAmbiguous | OmniMIDI/BASSErrors.h:236-245 | Because inner quotes are not escaped, for any x, y and z the pairs (x + `" --fix "` + y, z) and (x, y + `" --fix "` + z) give the same argument text. |
| BassErrors.DialogCommandLine | OmniMIDI/BASSErrors.h:248-268 | The command line starts with the quoted executable path and ends with " --fatal" iff the error is fatal. |
| BassErrors.DialogCommandLineMiddle | OmniMIDI/BASSErrors.h:265-268 | Between the quoted path and the optional " --fatal", the command line holds exactly the dialog arguments, so DialogArgumentsRoundTrip applies to what the dialog reads. |
| BassErrors.DialogArgumentsRoundTrip | OmniMIDI/BASSErrors.h:259-268 | When no value holds a quote, splitting the arguments at their quotes gives the option labels and, between them, the engine, name, description, fix and context. |
| BassErrors.ContextSection | OmniMIDI/BASSErrors.h:300-301 | The Context section is present iff the context is non-null and non-empty. |
| BassErrors.AsioSection | OmniMIDI/BASSErrors.h:305-306 | The ASIO hint is present iff the engine equals "BASSASIO" ignoring ASCII case and the error is not UNKNOWN. |
| BassErrors.AsioHintOnlyForAsio | OmniMIDI/BASSErrors.h:356-365 | With the engine names CheckBASSError passes, the hint appears exactly for ASIO errors other than UNKNOWN. |
| BassErrors.FallbackText | OmniMIDI/BASSErrors.h:291-311 | The text starts with the error line and description, then the context and fix sections. It ends with the report line, preceded by the ASIO hint when that applies and by the fix section when it does not. Its length is the sum of the five sections' lengths, so nothing else is in it. |
| BassErrors.ShowMessageBoxFallback | OmniMIDI/BASSErrors.h:291-311 | The title and the appended text are FallbackTitle and FallbackText. |
| BassErrors.ShowBASSError | OmniMIDI/BASSErrors.h:314-353 | Always logs name and description. Shows nothing iff showDialog is off. Shows the dialog iff it can be launched, else the message box. Exits iff shown and fatal. The dialog gets DialogCommandLine and the message box FallbackText, both built from the table name, description and fix of the code. |
| BassErrors.CheckBASSError | OmniMIDI/BASSErrors.h:356-365 | Succeeds iff the active engine's code is BASS_OK. Any other code is reported through ShowBASSError with engine BASSASIO or BASS. |
| BassErrors.SilentCheckNeverExits | OmniMIDI/BASSErrors.h:314-365 | A failing check with showError off displays nothing and does not end the process. |

## Left out

- Win32 objects are not modelled (mutex, file mapping, view, pipe, registry key, process creation). Only the outcome of each call enters, as an argument.
- The waits whose results the source ignores are not arguments: the initialization wait in `AudioBus_Create` and the 100 ms wait before `AudioBus_Destroy` clears Flags. Both writes are modelled as happening whatever the wait returns.
- The bus paths of PermafrostIPC.h exist only when `AUDIOBUS_VERSION` is defined, that is, when AudioBus.h is included before PermafrostIPC.h. These are the PANIC acknowledgement in the dispatcher and the poll's bus check. `ExecuteMixerCommand`, `CommandEffects`, `PollMixerCommands`, `FlagsAfterPoll` and `PollResetsBounded` model that build. Without it, PANIC only resets the synthesizer and the poll never looks at the bus; that build is not modelled.
- Clocks (`GetTickCount64`, `QueryPerformanceCounter`, `QueryPerformanceFrequency`) are arguments. `AudioBus_GetQPCTicks` therefore has no member.
- `float` meters, CPU usage and peaks are modelled as reals. IEEE rounding of `* 0.92f` is not modelled.
- The Reserved bytes of the header and of each channel entry are not in the header value; they appear only in the layout.
- AUDIOBUS_FLAG_AUDIO_MODE is not modelled: nothing in the core sets or reads it.
- Permafrost's side of the shared header is modelled only as `Bus.RequestPanic`, whose result is the header the driver-side methods then start from; Permafrost reading the header and writing any other field are not modelled.
- The pipe read loop's timing (PeekNamedPipe, Sleep, the 1000 ms deadline) is not modelled; its outcome is the sequence of buffers the reads filled.
- `SendCommandToPermafrost` is not modelled: nothing in the core calls it.
- The 65535-byte read buffer limit is not modelled; each chunk stands for what one read returned.
- UTF-16/UTF-8 conversion is modelled as the identity on characters. The case where MultiByteToWideChar reports size 0 and the list stays unchanged is not modelled.
- The `catch (...)` path of `RequestSoundFontListFromPermafrost` is not modelled.
- Debug logging is not modelled, except the name and description `ShowBASSError` logs.
- Registry write failures (RegSetValueEx) are not modelled; a write to an opened key is taken to succeed.
- `exit(ERROR_INVALID_FUNCTION)` becomes the `exits` field of `ErrorReport`. The MessageBox and the dialog's wait and exit code are not modelled.
- `GetDialogExePath` is an argument: the executable path when the file exists and its process starts, None otherwise.
- Truncation to the fixed char and wide-char buffers (128, 256, 512, 2048 and 4096 bytes) is not modelled; every text is assumed to fit them.
- The `mode` parameter of `ShowBASSError` and `CheckBASSError` is not modelled: neither function reads it.
- The BASS_ERROR_* values come from the public BASS 2.4 headers (bass.h, basswasapi.h, bassmidi.h), which are not part of this model. BASS_ERROR_WASAPI_RAW is taken as 5004.
- EscapeArg follows the code, not its comment: the comment says inner quotes are escaped, but the code copies them unchanged (see `EscapeArgAmbiguous`).
- PermafrostIpc.Client.RequestSoundFontList: the request is recorded before the UTF-8 conversion, and the bytes written are not modelled.
