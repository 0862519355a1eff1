# Termland, verified models

Termland is a remote desktop: a server runs a Wayland session, encodes its
screen and injects input; clients on the desktop, on iOS and in the browser
show it. Its difficult logic sits in small state machines and stream codecs
between the I/O layers. This project models those in Dafny and proves what they
promise. Code that changes things step by step is modelled by methods and
classes with the same fields and loops, each tied to a specification; the
promises are then proved of the specification for every input, every run or
every interleaving. Calls out of the process (Wayland, FFmpeg, VideoToolbox,
sockets, sleeping) may go any way.

Run `dafny verify dfyconfig.toml` here to check everything.

| file | models |
|---|---|
| `TextInjection.dfy` | typing Unicode through throwaway keymaps on a virtual keyboard |
| `InputRouting.dfy` | the iOS input router, and the path from it to the server's key injection |
| `Latches.dfy` | what each operation of that router leaves down on the server, and what becomes of latched modifiers |
| `Framing.dfy` | the control-stream codec |
| `Q2Stream.dfy` | the media-plane video header and the browser's stream reader |
| `SingleInstance.dfy` | the lock file and socket that keep one manager running |
| `Reconnect.dfy` | the client's reconnect engine |
| `AnnexB.dfy` | splitting Annex B streams and reshaping them for VideoToolbox |
| `KeyframeGate.dfy` | the iOS decoder's bounded queue and keyframe gate |
| `Rearming.dfy` | what makes that gate wait, that nothing but a keyframe ends the wait, and that one does |
| `Resync.dfy` | which keyframe ends that gate's wait after an overflow, over every continuation |
| `FirstFed.dfy` | when a keyframe is the first picture fed, over every continuation |
| `CloseOrder.dfy` | closing hardware encoders newest first |
| `OpenOrder.dfy` | the same from the driver's side, with opening and recording two steps |
| `DecoderFallback.dfy` | the desktop decoder's fallback through its backend list |
| `ExecQuote.dfy` | quoting for a desktop entry's `Exec=` line |
| `UriList.dfy` | percent coding and `text/uri-list` |
| `Wrapping.dfy` | word wrapping of prompts |
| `Scaling.dfy` | fixed-point nearest-neighbour scaling |
| `Greedy.dfy`, `Bytes.dfy`, `Prelude.dfy` | shared: greedy cuts are optimal, integers as octets, small types |

## Where the code and its comments, or the wished-for property, part

* `backoff_delay` is documented as 1, 2, 4, 8 and then 30 s; the code waits 16 s
  before the fifth attempt (`Reconnect.FifthWait`).
* `InputRouter.key` says a modifier is left out of its own release event; the
  release is sent before the bit is cleared, so it is included. The model
  follows the code; the server does not use the field.
* `setSticky` with a right-hand scancode can leave a key down remotely.
  `InputRouting.ReleaseEmptiesKeysIff` says exactly when releasing everything
  leaves no key down, `InputRouting.RightHandSticky` which latchings keep the
  invariant, and `InputRouting.RightCtrlStaysDown` is a run in which it fails.
* A modifier that is both held and latched is let go remotely when the latch is
  used up (`Latches.OrdinaryKeyReleased` gives exactly the keys that go up).
* A session that could not be created is not asked for again while the parameter
  sets stay the same, because they are remembered before it is created
  (`Rearming.FailedCreationSticks`). In runs whose sessions could be created every
  keyframe that brings its parameter sets is fed (`Rearming.CompleteKeyframeIsFed`).
* The frame encoder checks the payload length after cutting it to 32 bits.
  `Framing.ComesBackIff` is the exact condition for a message to come back and
  `Framing.WrappedLength` a message that does not.
* The keyframe gate is opened before the sample buffer is made. If that fails,
  the first picture fed may be a delta (`KeyframeGate.DeltaFedFirst`). After a
  block that ends a wait, a keyframe is fed first in every continuation that can
  make its sample buffers exactly when the block could make its own, or the
  overflow flag is up, or the first task in the queue that matters is a
  keyframe, a re-arm, a release or a change of codec
  (`FirstFed.KeyframeFirstIff`; at any moment of any run,
  `FirstFed.KeyframeNextIff`). Over a whole run every wait ends by feeding its
  keyframe exactly when all blocks that end one can make their sample buffers
  (`KeyframeGate.RunPrompt`).
* The overflow flag is consumed by packets queued before the overflow, so the
  keyframe that ends the wait may be older than the dropped packet
  (`KeyframeGate.ClearedByEarlierKeyframe`). That can happen exactly when some
  keyframe already queued at the drop finds a session (`Resync.ClearedByOldIff`);
  with no keyframe queued, only newer ones end a wait
  (`Resync.NewerKeyframeClears`), and in a steady stream a queued keyframe is all
  it takes (`Resync.SteadyStream`).
* The comment on closing encoders has it that nothing is opened between closes;
  the lock covers recording an encoder, not FFmpeg's opening of it. An encoder
  can then be closed under a younger one
  (`OpenOrder.RecordedCrosswise`, `OpenOrder.OpenedMeanwhile`).
  `OpenOrder.ClosesInOrderIff` is the exact condition.
* `fallback_and_retry` says it is only reached before a backend has decoded
  anything; a confirmed backend gets there too, after two failed
  reinitialisations (`DecoderFallback.VideoDecoder.ReinitAndRetry`).
* The decoder remembers a new picture size before the scaler for it exists; if
  the scaler cannot be made, an older one stays in use for the wrong size.
  `DecoderFallback.VideoDecoder.Show` states exactly when.
* `exec_quote` cannot represent an empty argument or one with a line break
  (`ExecQuote.ComesBackIff`).
* The scaling loop's 32-bit products wrap for frames of 65536 pixels and more
  on a side; `Scaling.DrawnAsMeantIff` is the exact condition,
  `Scaling.WideSourceWraps` an instance.

## Model

| member | source | states |
|---|---|---|
| Greedy.FilledIsFewest | crates/termland-compositor/src/input.rs:271-294 | Filling each piece until the next element no longer fits never uses more pieces than any other cut into fitting pieces, for any property that stretches inherit |
| Greedy.StaysAhead | crates/termland-compositor/src/input.rs:271-294 | The induction behind it: the greedy cut of a suffix needs no more pieces than any cut that is still further back |
| TextInjection.HexRoundTrip | crates/termland-compositor/src/input.rs:414 | Upper-case zero-padded hexadecimal reads back as the number |
| TextInjection.NamesResolve | crates/termland-compositor/src/input.rs:408-416 | A character has a keysym name exactly when it is not an untypable control, and xkb resolves that name to the character's keysym |
| TextInjection.UntypableIff | crates/termland-compositor/src/input.rs:408-416 | A character has no name exactly when it is in U+0000-U+001F or U+007F-U+009F and is no newline, carriage return or tab |
| TextInjection.UnicodeName | crates/termland-compositor/src/input.rs:414 | Any other name is U and at least four hexadecimal digits of the code point |
| TextInjection.TypableOne | crates/termland-compositor/src/input.rs:275-278 | A single character is typable unless it is such a control character |
| TextInjection.TypableIn | crates/termland-compositor/src/input.rs:275-278 | What is typable of a text is what is typable of its parts, in order |
| TextInjection.ChunkText | crates/termland-compositor/src/input.rs:271-291 | The chunks join to the typable characters in order, each holds at most 240 distinct ones, none is empty, none could take its successor's first character |
| TextInjection.FewestChunks | crates/termland-compositor/src/input.rs:271-294 | No cut of the text into pieces of at most 240 distinct characters has fewer pieces |
| TextInjection.OneKeymapEnough | crates/termland-compositor/src/input.rs:271-294 | A text of up to 240 distinct characters needs one throwaway keymap |
| TextInjection.PlanChunk | crates/termland-compositor/src/input.rs:333-347 | The key list names each distinct character once, and each planned evdev code is that of its character's key |
| TextInjection.NameKeys | crates/termland-compositor/src/input.rs:356-367 | Every key gets its character's keysym, or an untypable character among them is reported |
| TextInjection.InputInjector.constructor | crates/termland-compositor/src/input.rs:136-181 | A new injector has sent the static keymap and holds no modifier |
| TextInjection.Connect | crates/termland-compositor/src/input.rs:136-181 | Connecting gives an injector only when all three globals are offered; otherwise the first missing one is named, or the connection or the first keymap failed |
| TextInjection.InputInjector.UploadKeymap | crates/termland-compositor/src/input.rs:189-221 | The keyboard resolves keys against the new keymap, or nothing was sent |
| TextInjection.InputInjector.KeyEvent | crates/termland-compositor/src/input.rs:224-253 | The key goes down or up, a press is one stroke of its symbol under the mask held until then, and the compositor's mask stays the injector's own |
| TextInjection.InputInjector.TypeChunk | crates/termland-compositor/src/input.rs:332-397 | Types the chunk, or a prefix of it when a call fails; refuses exactly chunks with more than 240 distinct or with untypable characters, before sending anything |
| TextInjection.InputInjector.TypeSequence | crates/termland-compositor/src/input.rs:388-394 | Under the keymap just installed the strokes are the characters' keysyms in order |
| TextInjection.InputInjector.TypeChunks | crates/termland-compositor/src/input.rs:311-316 | The chunks are typed in order up to the first failing call |
| TextInjection.InputInjector.Text | crates/termland-compositor/src/input.rs:267-328 | The strokes are exactly the typable characters in order, without modifiers, or a prefix of them on failure; the held mask is back; it fails exactly when a call fails, never for the two refusals; the static keymap is back unless its own upload failed; no cut needs fewer keymaps |
| TextInjection.InputInjector.Restore | crates/termland-compositor/src/input.rs:318-327 | On every path the static keymap is tried, the mask re-asserted, and the first error reported |
| InputRouting.KeySound | ios/Termland/InputRouter.swift:40-55 | A key event keeps: remote keys are held or latched here, and every set modifier bit has a key holding it |
| InputRouting.StickySound | ios/Termland/InputRouter.swift:64-74 | So does latching or unlatching a left-hand modifier |
| InputRouting.ReleaseStickyEffect | ios/Termland/InputRouter.swift:82-88 | Releasing the latches clears every latch and lets go the keys that only latches held |
| InputRouting.ReleaseAllEffect | ios/Termland/InputRouter.swift:152-159 | After it nothing is held or latched here and no key, button or modifier bit is left remotely |
| InputRouting.OpSound | ios/Termland/InputRouter.swift:40-159 | Every operation keeps the invariant, right-hand latches apart |
| InputRouting.NothingStuck | ios/Termland/InputRouter.swift:40-159 | Over every run of operations with left-hand latches the invariant holds, and releasing everything empties the remote keys, buttons and mask |
| InputRouting.RightHandSticky | ios/Termland/InputRouter.swift:64-74 | For right-hand scancodes, the exact condition under which latching or unlatching keeps the invariant |
| InputRouting.ReleaseEmptiesKeysIff | ios/Termland/InputRouter.swift:152-159 | In any state, sound or not: releasing everything leaves no key down remotely exactly when every remote key is held or latched here |
| InputRouting.RightCtrlStaysDown | ios/Termland/InputRouter.swift:64-88 | A run after which right Ctrl is still down remotely |
| InputRouting.TextIsTyped | ios/Termland/InputRouter.swift:92-106 | Committed text reads the same remotely, newlines and tabs arriving as keys |
| Latches.KeyPressed | ios/Termland/InputRouter.swift:40-55 | A press is down here and on the server, with its modifier bit, and changes no latch |
| Latches.UnheldRelease | ios/Termland/InputRouter.swift:43 | The release of a key that is not held changes nothing |
| Latches.OrdinaryKeyReleased | ios/Termland/InputRouter.swift:40-55 | The release of a held ordinary key empties the latches; exactly it and the latched keys go up on the server, exactly the latched bits leave the mask, held modifiers stay |
| Latches.NothingOnLatchesAlone | ios/Termland/InputRouter.swift:53-54 | From a sound state nothing stays down on the server after it that is not physically held |
| Latches.ModifierReleased | ios/Termland/InputRouter.swift:40-55 | A modifier's own release leaves every latch alone |
| Latches.LatchHolds | ios/Termland/InputRouter.swift:64-74 | Latching presses a modifier key on the server and unlatching releases it; other keys cannot be latched |
| Latches.LatchesReleased | ios/Termland/InputRouter.swift:82-88 | Releasing the latches leaves none, and takes exactly their keys and bits off the server, in any state |
| Latches.LatchedShortcut | ios/Termland/InputRouter.swift:40-74 | A key tapped with an on-screen modifier latched arrives with it down, and both are up afterwards |
| Latches.TextReleasesLatches | ios/Termland/InputRouter.swift:92-106 | Committed text empties the latches whether or not it taps a key; exactly the tapped and the latched keys go up |
| Latches.ButtonPressed | ios/Termland/InputRouter.swift:133-136 | A button is down here and on the server exactly from its press to its release |
| Latches.ModifierKeys | ios/Termland/KeyMap.swift:50-58 | Which scancodes carry which modifier bit |
| InputRouting.InputRouter.KeyEvent | ios/Termland/InputRouter.swift:40-55 | The fields and the events sent follow the specification of a key event, whose effect on keys, bits and latches the rows of Latches state |
| InputRouting.InputRouter.SetStickyKey | ios/Termland/InputRouter.swift:64-74 | Likewise for latching; the event carries the mask with the latch already set or cleared |
| InputRouting.InputRouter.ReleaseStickyModifiers | ios/Termland/InputRouter.swift:82-88 | Likewise for releasing the latches |
| InputRouting.InputRouter.TextInput | ios/Termland/InputRouter.swift:92-106 | Likewise for text, whose remaining buffer is flushed before every key |
| InputRouting.InputRouter.ButtonEvent | ios/Termland/InputRouter.swift:133-136 | Likewise for pointer buttons |
| InputRouting.InputRouter.ReleaseEverything | ios/Termland/InputRouter.swift:152-159 | Likewise for releasing everything, whatever order the held sets are walked in |
| InputRouting.Serve | crates/termland-compositor/src/input.rs:224-328 | The server's injector, fed the events in order, keeps exactly the modifier mask and at most the keys the events leave down |
| InputRouting.Detach | ios/Termland/InputRouter.swift:152-159 | End to end: whatever was done before, after releasing everything the server holds no key and a zero mask |
| Framing.Decode | crates/termland-protocol/src/frame.rs:35-70 | One decoding step on the buffer in place: the specified result, and the bytes it leaves |
| Framing.Encode | crates/termland-protocol/src/frame.rs:76-92 | Appends exactly the specified frame, or appends nothing on error |
| Framing.ReadPieces | crates/termland-protocol/src/frame.rs:35-70 | Appending each piece and draining gives the messages, first error and residue of decoding the whole stream at once |
| Framing.NotYetAFrame | crates/termland-protocol/src/frame.rs:36-60 | No message and no error: nothing is consumed and fewer than 7 + 16 MiB bytes are buffered |
| Framing.DecidedStep | crates/termland-protocol/src/frame.rs:35-70 | A message or an error does not change when more bytes arrive, and takes none of them |
| Framing.DrainInTwo | crates/termland-protocol/src/frame.rs:35-70 | Decoding a prefix first and the rest afterwards is decoding it all |
| Framing.CutsDoNotMatter | crates/termland-protocol/src/frame.rs:35-70 | However a stream is cut: the same messages, first error and bytes left over |
| Framing.RoundTrip | crates/termland-protocol/src/frame.rs:35-92 | Frames of any list of encodable messages, cut anyhow, decode to that list with nothing left |
| Framing.DrainEncoded | crates/termland-protocol/src/frame.rs:35-92 | The same for the uncut stream |
| Framing.FramedIff | crates/termland-protocol/src/frame.rs:76-92 | A payload of at most 16 MiB is framed, octet by octet as specified; one above it and below 2^32 octets is refused with its length |
| Framing.DecodedIff | crates/termland-protocol/src/frame.rs:35-70 | What a buffer is taken for, by its octets: too short, wrong magic, too large, incomplete, or one whole frame; only a whole frame is consumed |
| Framing.ComesBackIff | crates/termland-protocol/src/frame.rs:76-92 | A message that encodes comes back exactly when its payload is shorter than 2^32 octets |
| Framing.WrappedLength | crates/termland-protocol/src/frame.rs:79-83 | A longer payload whose frame decodes to something else |
| Q2Stream.VideoHeaderBytes | crates/termland-protocol/src/q2.rs:34-50 | Filling the 18-octet buffer slice by slice gives the specified header |
| Q2Stream.ParseAfterEncode | crates/termland-protocol/src/q2.rs:34-63 | Parsing an encoded header gives the header back |
| Q2Stream.EncodeAfterParse | crates/termland-protocol/src/q2.rs:34-63 | Encoding a parsed header gives the octets back exactly when the frame-type octet is 0 or 1 |
| Q2Stream.HeaderLayout | crates/termland-protocol/src/q2.rs:34-50 | Where each field stands in the 18 octets, and in which order its octets |
| Q2Stream.ParsedFields | crates/termland-protocol/src/q2.rs:52-63 | Each field is read from its octets, and a keyframe only from frame type 1 |
| Q2Stream.ConcatOnce | web/src/q2.ts:72-81 | The chunks joined, whether one or many |
| Q2Stream.ByteReader.ReadExact | web/src/q2.ts:55-69 | The next n octets of leftover and stream, and the rest kept; null exactly when there are fewer |
| Q2Stream.NextFrame | web/src/q2.ts:31-43 | One frame off the front of the stream, or the end |
| Q2Stream.ReadQ2Frames | web/src/q2.ts:26-45 | The frames read from any chunks are those of parsing the joined stream frame by frame |
| Q2Stream.ParseSerialized | web/src/q2.ts:26-45 | The frames of a serialised list followed by part of one more are that list, and nothing for the tail |
| Q2Stream.ParseCutFrame | web/src/q2.ts:31-35 | A frame cut anywhere yields nothing |
| Q2Stream.RefusedIff | web/src/q2.ts:31-43 | The browser refuses a header exactly when it is short, names no known codec, or announces more than 16 MiB |
| Q2Stream.RefusedHeaderThrows | web/src/q2.ts:31-43 | A refused header ends the stream with an error, after the frames before it |
| Q2Stream.BrowserReads | web/src/q2.ts:33-33 | The browser's header, with numbers exact below 2^53, is the one that was sent |
| Q2Stream.FramesComeBack | web/src/q2.ts:26-69 | From encoder to browser: any frames, any chunking, a truncated tail: exactly the frames in order |
| SingleInstance.StepConsistent | crates/termland-client/src/single_instance.rs:78-147 | Every step of any process, crashes included, keeps the invariant on lock, path, sockets and listeners |
| SingleInstance.RunConsistent | crates/termland-client/src/single_instance.rs:78-147 | It holds over every interleaving of any number of processes |
| SingleInstance.OneHolder | crates/termland-client/src/single_instance.rs:88-95 | At most one process holds the lock |
| SingleInstance.PathIsSafe | crates/termland-client/src/single_instance.rs:97-104 | Once a holder has bound, no other process's step unlinks or rebinds the path or closes its socket |
| SingleInstance.ConnectReachesHolder | crates/termland-client/src/single_instance.rs:136-137 | Every successful connect reaches the lock holder, which is serving on that socket |
| SingleInstance.OnlyHolderShows | crates/termland-client/src/single_instance.rs:111-123 | Only the lock holder shows a window |
| SingleInstance.AcquireFailsOnlyOnError | crates/termland-client/src/single_instance.rs:78-105 | Without an error from the system acquiring does not fail: the bind finds no file in its way. (What a loser of the lock does instead is LoserAsks.) |
| SingleInstance.HolderAdvances | crates/termland-client/src/single_instance.rs:97-114 | A lock holder can always take its next step, one nearer to serving |
| SingleInstance.OthersDoNotDelay | crates/termland-client/src/single_instance.rs:97-114 | No other process's step disturbs it |
| SingleInstance.TakeOver | crates/termland-client/src/single_instance.rs:78-114 | Whatever socket file is left behind, with the lock free a new process that runs undisturbed ends up serving |
| SingleInstance.ShownAtMostOnce | crates/termland-client/src/single_instance.rs:111-147 | Over every interleaving each process that asks is answered at most once |
| SingleInstance.NothingIsLost | crates/termland-client/src/single_instance.rs:111-147 | Over every interleaving each process that has asked is still in the inbox of the primary it asked, or that primary showed a window for it |
| SingleInstance.HeededStays | crates/termland-client/src/single_instance.rs:111-123 | No step of any process loses a request, not even its asker crashing |
| SingleInstance.AnsweredInTurn | crates/termland-client/src/single_instance.rs:111-123 | A serving primary answers the request at position i with its i+1st read |
| SingleInstance.AskerIsShown | crates/termland-client/src/single_instance.rs:111-147 | While the primary it asked lives, an asker gets its window once what came before is read |
| SingleInstance.LoserAsks | crates/termland-client/src/single_instance.rs:88-95 | Who finds the lock held goes on to ask, and keeps asking until somebody listens |
| SingleInstance.AsksThePrimary | crates/termland-client/src/single_instance.rs:78-147 | With a primary serving, a new process that launches, loses the lock, connects and writes undisturbed is last in its inbox |
| SingleInstance.SecondLaunchIsShown | crates/termland-client/src/single_instance.rs:78-147 | And once the primary has read what came before and this, it has shown a window for it |
| SingleInstance.CrashLetsGo | crates/termland-client/src/single_instance.rs:78-114 | A crash frees the lock and closes the sockets, and leaves the socket file |
| SingleInstance.RestartAfterCrash | crates/termland-client/src/single_instance.rs:78-114 | After a primary crashed a new process takes its place, stale file or not |
| SingleInstance.ErrorsAreReported | crates/termland-client/src/single_instance.rs:78-147 | An error or giving up is returned, and neither lock nor socket is kept |
| Reconnect.Client.Connect | crates/termland-client/src/connection.rs:428-451 | The whole run, whatever happens outside and however many commands arrive at each moment: the log is exactly what the history obliges, and the client stops only at an end or while it waits for its transport or its stream |
| Reconnect.Client.RunWithReconnect | crates/termland-client/src/connection.rs:478-561 | The retry loop, tied to the log: attempts, readiness and the session to attach to are what the log says |
| Reconnect.Client.SessionLoop | crates/termland-client/src/connection.rs:663-739 | One connection: how it ended, and whether a session started |
| Reconnect.Client.Select | crates/termland-client/src/connection.rs:824-886 | One turn of the select: a stream event, or a command set aside to be sent first; with both there, either |
| Reconnect.Client.SendQueued | crates/termland-client/src/connection.rs:767-812 | Everything queued, and what arrives meanwhile, is sent in order until the channel is found empty or a command stops the client |
| Reconnect.Client.SendOne | crates/termland-client/src/connection.rs:767-812 | One turn: the command set aside or the oldest queued goes out and may end the run; without either, on to the select |
| Reconnect.Client.DrainQueue | crates/termland-client/src/connection.rs:538-542 | Nothing queued survives a drop |
| Reconnect.Client.Reopen | crates/termland-client/src/connection.rs:544-559 | Announce, wait and open, again and again, until a transport opens |
| Reconnect.BackoffGrows | crates/termland-client/src/connection.rs:457-461 | Waits never shrink, lie in 1 to 30 s, double until the cap, and reach 30 s exactly from the sixth attempt |
| Reconnect.FifthWait | crates/termland-client/src/connection.rs:453-461 | The fifth wait is 16 s, against the documented table |
| Reconnect.RunsAreLawful | crates/termland-client/src/connection.rs:478-561 | Every entry of a run's log is owed by what came before, or came from outside: commands at any moment before the end |
| Reconnect.LawfulIsRun | crates/termland-client/src/connection.rs:478-561 | Conversely every lawful log is a run: some history outside produces it |
| Reconnect.EndIsLast | crates/termland-client/src/connection.rs:507-536 | SessionEnded, ConnectFailed and quitting are the last entry of a log, so there is at most one |
| Reconnect.FailedOrReconnecting | crates/termland-client/src/connection.rs:524-531 | ConnectFailed means no session ever started; Reconnecting means one did |
| Reconnect.AttemptsAreNumbered | crates/termland-client/src/connection.rs:494-506 | Successive attempts are numbered one after the other, from 1 again after a SessionReady |
| Reconnect.FirstAttemptIsOne | crates/termland-client/src/connection.rs:544-546 | The first attempt ever is number 1 |
| Reconnect.WaitFollowsAnnouncement | crates/termland-client/src/connection.rs:544-549 | Commands arriving in between apart, each wait directly follows its announcement and has that attempt's length |
| Reconnect.WaitsGrow | crates/termland-client/src/connection.rs:457-549 | Waits between two sessions do not shrink and lie in 1 to 30 s |
| Reconnect.AttachesToLatest | crates/termland-client/src/connection.rs:534-536 | Every connection after a SessionReady with an id asks for the latest such id |
| Reconnect.AttachesAsAsked | crates/termland-client/src/connection.rs:682-717 | Before that it asks for what the caller asked for |
| Reconnect.WaitingIsPending | crates/termland-client/src/connection.rs:767-776 | The queue is exactly the commands that arrived and were neither sent nor drained, in order |
| Reconnect.SentWasQueued | crates/termland-client/src/connection.rs:538-542 | A command is sent after it was queued, at most once, and never past a drain |
| Reconnect.SentInOrder | crates/termland-client/src/connection.rs:767-812 | A command queued earlier was sent or drained before |
| Reconnect.StaleInputIsDropped | crates/termland-client/src/connection.rs:538-542 | Between a connection lost and any later send lies a drain, and what is sent was queued after that drain |
| Reconnect.DrainedIsNotSent | crates/termland-client/src/connection.rs:538-542 | Nothing queued before a drain is sent after it |
| Reconnect.LossMayBeatInput | crates/termland-client/src/connection.rs:538-542 | From any turn of a running session: a command may arrive, the connection be lost and the queue drained with it, and then it is never sent |
| Reconnect.SessionComesUp | crates/termland-client/src/connection.rs:663-739 | With any parameters some run has a session running and its queue empty |
| Reconnect.NeverGivesUp | crates/termland-client/src/connection.rs:507-531 | Once a session started, with reconnecting on, an end directly follows (arrivals apart) its cause and names it: the server ended the session with that reason, the user disconnected, or asked for the latest session to be ended |
| Reconnect.RetriesGoOn | crates/termland-client/src/connection.rs:507-559 | A retry that fails is followed by the next one, a lost session by a drain and the first |
| Reconnect.WhatFollows | crates/termland-client/src/connection.rs:428-561 | For every entry of a log which entry may come next, arrivals apart |
| Reconnect.OutsideMay | crates/termland-client/src/connection.rs:478-561 | Where the client waits every answer of the outside world is possible |
| Reconnect.FirstEntry | crates/termland-client/src/connection.rs:440-441 | The first thing done is to open a transport that may prompt |
| Reconnect.PolledWhenEmpty | crates/termland-client/src/connection.rs:767-824 | The stream is looked at only when every command that arrived was sent or drained |
| Reconnect.NeverStuck | crates/termland-client/src/connection.rs:478-561 | A client with nothing to do has ended, or waits for its transport or its stream |
| Reconnect.NoRetryWhenOff | crates/termland-client/src/connection.rs:527-532 | With reconnecting off there is one transport and no retry |
| Reconnect.FirstOpening | crates/termland-client/src/connection.rs:440-552 | Only the very first transport may prompt |
| AnnexB.Split | ios/Termland/AnnexB.swift:44-60 | The scan finds exactly the specified units |
| AnnexB.Trimmed | ios/Termland/AnnexB.swift:143-147 | The stretch without its trailing zeros |
| AnnexB.UnitsAreLegal | ios/Termland/AnnexB.swift:44-60 | For arbitrary bytes, no unit is empty, ends in a zero or contains a start code |
| AnnexB.SplitSerialized | ios/Termland/AnnexB.swift:44-60 | Units written with any mix of start codes and any zero padding are found again, exactly |
| AnnexB.SplitIsCanonical | ios/Termland/AnnexB.swift:44-60 | Any packet means the same as its rewriting with 4-byte start codes |
| AnnexB.Convert | ios/Termland/AnnexB.swift:64-88 | The access unit that the specification describes |
| AnnexB.ConversionKeepsUnits | ios/Termland/AnnexB.swift:64-88 | The sample data parses as exactly the non-parameter, non-delimiter units in order, and sets, sample units and delimiters together are all the units |
| AnnexB.EachInOneClass | ios/Termland/AnnexB.swift:71-86 | Every unit is in exactly one class |
| AnnexB.ParseAfterPrefix | ios/Termland/AnnexB.swift:80-84 | Length-prefixed units parse back as long as they are shorter than 2^32 octets |
| AnnexB.SampleEmptyIff | ios/Termland/AnnexB.swift:71-87 | The sample data is empty exactly for packets of parameter sets and delimiters |
| AnnexB.FirstSliceIsFirst | ios/Termland/AnnexB.swift:72-102 | The picture type is that of the first coded slice |
| AnnexB.NoVpsInH264 | ios/Termland/AnnexB.swift:86-130 | Leaving VPS out of H.264 parameter sets loses nothing |
| AnnexB.ParameterSetOrder | ios/Termland/AnnexB.swift:71-88 | The parameter sets are all VPS, then all SPS, then all PPS, each in packet order |
| AnnexB.CompleteIff | ios/Termland/AnnexB.swift:112-130 | Parameter sets are complete exactly when no needed kind is missing |
| AnnexB.StandardHeaders | ios/Termland/AnnexB.swift:71-130 | How units are classified by the header octets that encoders write (table 7-1 of H.264 and of H.265) |
| AnnexB.OfKindMembers | ios/Termland/AnnexB.swift:71-86 | The units of a class are the packet's units of that kind |
| KeyframeGate.StepSound | ios/Termland/VideoDecoder.swift:68-241 | Every submit, dequeue, decode, reset, asynchronous error and release keeps the invariant on counter, flags and trace |
| KeyframeGate.SoundOn | ios/Termland/VideoDecoder.swift:68-241 | Every interleaving of those, from any sound state, keeps it |
| KeyframeGate.EveryRun | ios/Termland/VideoDecoder.swift:68-241 | Over every interleaving the counter equals the queued packets and stays at most 8, every trace event is justified by what came before, and every wait ends by feeding exactly when sample buffers can be made for those that do |
| KeyframeGate.DroppedIff | ios/Termland/VideoDecoder.swift:68-76 | Over every run a packet is dropped exactly when eight are waiting |
| KeyframeGate.KeyframeBeforeFeeding | ios/Termland/VideoDecoder.swift:155-168 | Between a re-arm and the next picture fed, a keyframe holding a picture ended the wait |
| KeyframeGate.KeyframeFirst | ios/Termland/VideoDecoder.swift:155-168 | Where waits end by feeding, the first picture fed after a re-arm is a keyframe |
| KeyframeGate.RunPrompt | ios/Termland/VideoDecoder.swift:155-185 | Over every run: each wait ends by feeding its keyframe exactly when each block that ends a wait can make its sample buffer |
| KeyframeGate.DisarmFeedsIff | ios/Termland/VideoDecoder.swift:155-168 | The keyframe that ends a wait is fed at once exactly when its sample buffer can be made |
| KeyframeGate.DeltaFedFirst | ios/Termland/VideoDecoder.swift:155-168 | A run in which it cannot, and a delta is the first picture fed |
| KeyframeGate.RaslRunSkipped | ios/Termland/VideoDecoder.swift:160-164 | After resynchronising at a CRA or BLA picture, RASL pictures are skipped until another picture is admitted (section 8.1.3 of H.265) |
| KeyframeGate.OverflowResyncs | ios/Termland/VideoDecoder.swift:68-88 | A packet submitted after an overflow drop is fed only if a keyframe was dequeued and ended the wait after that drop |
| KeyframeGate.ClearedByEarlierKeyframe | ios/Termland/VideoDecoder.swift:78-88 | A run in which that keyframe had been submitted before the drop |
| KeyframeGate.KeyAndDelta | ios/Termland/VideoDecoder.swift:124-168 | Packets as the two runs above need them exist |
| KeyframeGate.VideoDecoder.SubmitPacket | ios/Termland/VideoDecoder.swift:68-76 | The fields follow the specification of a submission |
| KeyframeGate.VideoDecoder.RunBlock | ios/Termland/VideoDecoder.swift:78-88 | Likewise for a queued block |
| KeyframeGate.VideoDecoder.DecodeCurrent | ios/Termland/VideoDecoder.swift:124-185 | Likewise for decoding a packet; when that starts a wait and when it ends one is stated by the rows of Rearming |
| KeyframeGate.VideoDecoder.PrepareSession | ios/Termland/VideoDecoder.swift:136-148 | Likewise for a codec switch and new parameter sets |
| KeyframeGate.VideoDecoder.ConfigureSession | ios/Termland/VideoDecoder.swift:187-225 | Likewise for rebuilding or keeping the session |
| KeyframeGate.VideoDecoder.PassGate | ios/Termland/VideoDecoder.swift:155-184 | Likewise for the gate, leading pictures and feeding, a refused picture included |
| KeyframeGate.VideoDecoder.TeardownSession | ios/Termland/VideoDecoder.swift:227-233 | No session and no format are left |
| KeyframeGate.VideoDecoder.QueueRearm | ios/Termland/VideoDecoder.swift:94-99 | A reset or asynchronous error re-arms the gate in queue order |
| KeyframeGate.VideoDecoder.QueueRelease | ios/Termland/VideoDecoder.swift:113-120 | A release takes effect in queue order |
| KeyframeGate.Drive | ios/Termland/VideoDecoder.swift:68-241 | The object driven through any run, from any sound state, is where the specification says and still sound |
| Rearming.WaitStartsIff | ios/Termland/VideoDecoder.swift:78-225 | A step starts a wait exactly when it dequeues a re-arm, dequeues a packet after an overflow, switches the codec, meets a new format that cannot be used or needs a new session, or hands over a picture that VideoToolbox refuses |
| Rearming.UnsettledWaits | ios/Termland/VideoDecoder.swift:78-225 | Over every run: from such a step on no picture is fed before a keyframe with a picture has ended a wait |
| Rearming.RefusedWaits | ios/Termland/VideoDecoder.swift:170-185 | Over every run: once VideoToolbox has refused a picture none is fed before a keyframe with a picture has ended a new wait |
| Rearming.ResetWaits | ios/Termland/VideoDecoder.swift:94-99 | Over every run: no packet submitted after a reset or an asynchronous error is fed unless a keyframe ended a wait since |
| Rearming.ReleaseStops | ios/Termland/VideoDecoder.swift:113-120 | Over every run: nothing submitted after a release is ever fed |
| Rearming.ReleasedRun | ios/Termland/VideoDecoder.swift:124-125 | Once released nothing is fed, whatever comes |
| Rearming.RunReleased | ios/Termland/VideoDecoder.swift:113-120 | Over every run a released decoder has no session |
| Rearming.OverflowedIff | ios/Termland/VideoDecoder.swift:68-88 | Over every run the overflow flag is up exactly while a drop waits for the next packet to be dequeued |
| Rearming.ReportedIff | ios/Termland/VideoDecoder.swift:126-133 | A packet of a codec the device cannot decode is reported and changes nothing else |
| Rearming.RunDescribed | ios/Termland/VideoDecoder.swift:136-225 | Over every run a session stands for complete parameter sets of the codec in use |
| Rearming.CompleteKeyframeIsFed | ios/Termland/VideoDecoder.swift:124-225 | Over every run whose sessions could be created: a keyframe with its parameter sets is fed when its own calls work, whatever was refused or reset before |
| Rearming.FailedCreationSticks | ios/Termland/VideoDecoder.swift:141-225 | After a session could not be created, a packet with the same parameter sets changes nothing, whatever works by then |
| FirstFed.KeyframeFirstIff | ios/Termland/VideoDecoder.swift:68-185 | After a block that ends a wait, where later sample buffers can be made: every continuation feeds a keyframe first exactly when the block can make its own, or the overflow flag is up, or the queue guards; continuations in which every call works decide it |
| FirstFed.KeyframeNextIff | ios/Termland/VideoDecoder.swift:68-185 | The same at any moment of any run: a keyframe is fed next in every such continuation exactly when the decoder is released or waiting, or running block, flag and queue shelter it |
| FirstFed.FineRun | ios/Termland/VideoDecoder.swift:68-185 | One half: a sheltered decoder stays so, or feeds a keyframe first, whatever the other calls answer |
| FirstFed.DeltaFollowsAny | ios/Termland/VideoDecoder.swift:68-185 | The other: from any other state working calls feed another picture first |
| FirstFed.GuardedAt | ios/Termland/VideoDecoder.swift:124-166 | The queue guards exactly when its first task that does not pass is a keyframe with a picture to feed, a re-arm, a release or a packet of another codec |
| FirstFed.RunLive | ios/Termland/VideoDecoder.swift:136-225 | Over every run: while pictures are let through there is a session |
| FirstFed.KeyframeFirstWhateverFails | ios/Termland/VideoDecoder.swift:155-185 | Where later sample buffers may fail too, and no release is queued: every continuation feeds a keyframe first exactly when the block that ends the wait can make its sample buffer |
| FirstFed.SampleFeedsKeyframe | ios/Termland/VideoDecoder.swift:155-185 | Once the block that ends a wait makes its sample buffer, every continuation feeds a keyframe first, whatever fails later |
| FirstFed.DeltaCanComeFirst | ios/Termland/VideoDecoder.swift:155-185 | An idle decoder that is not to be released, whatever its state and queue, can be made to feed a delta next if sample buffers fail |
| FirstFed.FailureFeedsNext | ios/Termland/VideoDecoder.swift:155-185 | After a wait ended without a sample buffer the next queued picture without parameter sets is fed, unless the wait ended at a CRA or BLA picture and this one is RASL |
| Resync.ClearedByOldIff | ios/Termland/VideoDecoder.swift:68-88 | After an overflow drop some continuation ends the wait with a keyframe no newer than the dropped packet exactly when a keyframe queued at the drop finds a session |
| Resync.NeverClearedByOld | ios/Termland/VideoDecoder.swift:68-88 | Without such a keyframe no continuation does, whatever the platform answers |
| Resync.UsableClearsDrop | ios/Termland/VideoDecoder.swift:68-88 | With one, working calls do |
| Resync.NewerKeyframeClears | ios/Termland/VideoDecoder.swift:68-88 | With no keyframe queued at the drop, what ends a wait after it was submitted after it |
| Resync.SteadyStream | ios/Termland/VideoDecoder.swift:136-156 | With a session up and one codec, the queue holds a keyframe that finds a session exactly when it holds a keyframe with a picture |
| CloseOrder.RunBalanced | crates/termland-codec/src/encoder.rs:442-472 | Over any run that drops each encoder once, in the order they are recorded: opened = in use + waiting + closed, nothing waits without a newer one in use, and once nothing is in use everything is closed |
| CloseOrder.DropBalanced | crates/termland-codec/src/encoder.rs:458-471 | What a drop closes was not closed before, and nothing newer than it stays open |
| CloseOrder.OpenBalanced | crates/termland-codec/src/encoder.rs:448-453 | Opening keeps the same balance |
| CloseOrder.PopShows | crates/termland-codec/src/encoder.rs:465-469 | The last entry, when it waits, is ready to be closed |
| CloseOrder.NothingReady | crates/termland-codec/src/encoder.rs:465-469 | When the last entry is in use nothing is ready, so nothing is closed too late |
| OpenOrder.ClosesInOrderIff | crates/termland-codec/src/encoder.rs:420-528 | However the open encoders are dropped, none is closed before a younger one that is open, exactly when they were recorded in the order of opening and none opened after a recorded one has yet to be recorded |
| OpenOrder.AgreeingDrops | crates/termland-codec/src/encoder.rs:442-528 | One half: where the orders agree every drop closes in order and they go on agreeing |
| OpenOrder.ThreatComesTrue | crates/termland-codec/src/encoder.rs:442-528 | The other: where they do not, dropping what is in use from the wrong place on closes out of order |
| OpenOrder.RecordedAtOnce | crates/termland-codec/src/encoder.rs:442-528 | A run in which each encoder is recorded before another is opened or dropped closes all in order |
| OpenOrder.RecordedCrosswise | crates/termland-codec/src/encoder.rs:493-528 | A run in which two sessions record the other way round and the older encoder is closed under the newer |
| OpenOrder.OpenedMeanwhile | crates/termland-codec/src/encoder.rs:510-528 | A run in which an encoder is opened by one session while another closes an older one |
| CloseOrder.Schedule.Opened | crates/termland-codec/src/encoder.rs:448-453 | A new newest place; the last entry is in use |
| CloseOrder.Schedule.Find | crates/termland-codec/src/encoder.rs:459-459 | Finds an encoder exactly when it is open |
| CloseOrder.Schedule.Drop | crates/termland-codec/src/encoder.rs:458-471 | Returns exactly the encoders that became ready, newest first, or an unrecorded one at once |
| CloseOrder.Schedule.PopWaiting | crates/termland-codec/src/encoder.rs:464-470 | The pop loop takes exactly the ready ones, newest first |
| DecoderFallback.InitFromIndex | crates/termland-codec/src/decoder.rs:247-285 | The first backend from the start index that matches the codec and opens; every matching one before it was tried and failed |
| DecoderFallback.Build | crates/termland-codec/src/decoder.rs:233-245 | A decoder exactly when some matching backend opens |
| DecoderFallback.ListedOnce | crates/termland-codec/src/decoder.rs:157-184 | The priority list holds every backend once |
| DecoderFallback.CodecsOf | crates/termland-codec/src/decoder.rs:119-147 | Which backends decode which codec |
| DecoderFallback.TriedInOrder | crates/termland-codec/src/decoder.rs:157-184 | Hardware is tried before software, among either the open codecs before the others, and the hardware of each codec in the listed order, Quick Sync last |
| DecoderFallback.VideoDecoder.Decode | crates/termland-codec/src/decoder.rs:321-330 | One call, whatever FFmpeg answers: it ends; the index only grows; every matching backend passed over was tried and rejected; all calls stay in codec; a confirmed backend is left only after two failed reinitialisations, this packet's included; failed backends lie before the current one; at most two feeds plus one per step down; each result has its cause in FFmpeg's answers; a frame comes back exactly when the last feed gave a picture and its scaler, made anew where one was needed, ran |
| DecoderFallback.VideoDecoder.DecodePacket | crates/termland-codec/src/decoder.rs:332-402 | The same contract for the unwrapped call |
| DecoderFallback.VideoDecoder.ReinitAndRetry | crates/termland-codec/src/decoder.rs:410-435 | The same contract from a confirmed backend that refused the packet |
| DecoderFallback.VideoDecoder.TryReinit | crates/termland-codec/src/decoder.rs:438-496 | One fresh context and at most one feed, a picture through a scaler of its own, and a result that follows from the answers |
| DecoderFallback.VideoDecoder.FallbackAndRetry | crates/termland-codec/src/decoder.rs:499-509 | Moves strictly down the list or reports that there is no decoder |
| DecoderFallback.VideoDecoder.Show | crates/termland-codec/src/decoder.rs:359-383 | A frame exactly when the scaler was there, or was made, and ran; the scaler and the remembered size stop agreeing exactly when the size changed, the new scaler could not be made, and an old one existed |
| DecoderFallback.ServedByNext | crates/termland-codec/src/decoder.rs:499-509 | What the next backend owes and what was spent on finding it add up to what the whole call owes |
| DecoderFallback.ServedByNone | crates/termland-codec/src/decoder.rs:499-507 | The same when there is no next backend |
| DecoderFallback.WorkingBackendIsReached | crates/termland-codec/src/decoder.rs:247-509 | A matching backend that nothing spoke against is never passed over, and the call does not fail for want of a decoder |
| DecoderFallback.LeftAtTheSecond | crates/termland-codec/src/decoder.rs:410-435 | A backend that has worked is left at its second failed reinitialisation in a row, not before |
| DecoderFallback.DecodeThread | crates/termland-client/src/connection.rs:970-1017 | Over a run of jobs everything FFmpeg was asked is what the jobs call for, each starting from the decoder the one before left, and the frames shown are exactly the pictures that were scaled, in order |
| DecoderFallback.ScaledIsShown | crates/termland-client/src/connection.rs:991-1014 | Every picture that was scaled is shown, in order, and nothing else |
| DecoderFallback.HandleJob | crates/termland-client/src/connection.rs:991-1013 | One job: the decoder is rebuilt exactly for a packet tagged with another codec; if that fails the packet is dropped and the old decoder stays |
| DecoderFallback.StaysInCodec | crates/termland-client/src/connection.rs:994-1003 | A tagged packet only meets backends of its codec, unless the decoder was built for any codec |
| DecoderFallback.FeedsAreBounded | crates/termland-client/src/connection.rs:991-1014 | Over a run of jobs FFmpeg is fed at most twice per packet plus once for every step down the list, however it answers |
| ExecQuote.ExecQuote | crates/termland-client/src/desktop.rs:107-129 | The quoted text, read as the Desktop Entry Specification says, gives back exactly the argument if and only if the argument is one non-empty line |
| ExecQuote.ComesBackIff | crates/termland-client/src/desktop.rs:107-129 | That equivalence |
| ExecQuote.ReadsBack | crates/termland-client/src/desktop.rs:107-129 | A non-empty one-line argument comes back whatever follows it on its line |
| ExecQuote.BreaksOff | crates/termland-client/src/desktop.rs:107-129 | With a line break nothing can be read |
| ExecQuote.ReservedIsQuoted | crates/termland-client/src/desktop.rs:107-117 | A single character is quoted exactly when the specification reserves it |
| ExecQuote.AutostartLaunchesIff | crates/termland-client/src/desktop.rs:86-98 | The autostart entry starts this executable with its two flags exactly when its path is one non-empty line |
| ExecQuote.UnescapeEscaped | crates/termland-client/src/desktop.rs:118-127 | String unescaping undoes the outer layer of escapes |
| ExecQuote.QuotedInner | crates/termland-client/src/desktop.rs:118-127 | The quoting rule undoes the inner layer |
| ExecQuote.CodesPercents | crates/termland-client/src/desktop.rs:112 | Replacing field codes undoes doubling the percent signs |
| UriList.BuildUriList | crates/termland-protocol/src/clipboard_files.rs:88-96 | The text built parses back to exactly the paths, for every list of strings |
| UriList.ListRoundTrip | crates/termland-protocol/src/clipboard_files.rs:25-96 | Reading what was built gives the paths back, whatever characters they hold |
| UriList.LineRoundTrip | crates/termland-protocol/src/clipboard_files.rs:25-35 | One line names its path, and holds no white space that trimming could touch |
| UriList.OtherLinesAreSkipped | crates/termland-protocol/src/clipboard_files.rs:25-33 | A blank line, a comment or another scheme changes nothing wherever it stands |
| UriList.PercentEncodePath | crates/termland-protocol/src/clipboard_files.rs:72-83 | The octet loop gives the specified encoding |
| UriList.PercentDecode | crates/termland-protocol/src/clipboard_files.rs:41-57 | The index loop replaces escapes from the left and keeps malformed ones |
| UriList.DecodeEncoded | crates/termland-protocol/src/clipboard_files.rs:41-83 | Decoding undoes encoding on all octet strings |
| UriList.EncodedIsEncoded | crates/termland-protocol/src/clipboard_files.rs:72-83 | Encoded text holds only unreserved characters, slashes and escapes with upper-case digits |
| UriList.UnreservedStay | crates/termland-protocol/src/clipboard_files.rs:72-83 | Letters, digits, `-`, `_`, `.`, `~` and `/` stand for themselves |
| UriList.OthersEscaped | crates/termland-protocol/src/clipboard_files.rs:72-83 | Every other octet is an escape with two upper-case digits |
| UriList.UriTextLines | crates/termland-protocol/src/clipboard_files.rs:88-96 | One line per path, in order: the scheme, the encoded path, CR LF |
| UriList.EscapesRead | crates/termland-protocol/src/clipboard_files.rs:41-57 | Escapes may use digits of either case, and a percent sign that begins none is kept |
| UriList.LineNames | crates/termland-protocol/src/clipboard_files.rs:25-35 | A line names a path exactly when it begins with the scheme, white space around it apart |
| UriList.Utf8RoundTrip | crates/termland-protocol/src/clipboard_files.rs:41-56 | A string's UTF-8 octets spell that string and nothing else |
| Wrapping.Wrap | crates/termland-client/src/overlay.rs:642-667 | No line is longer than the width; the lines hold the text's words in order, a word cut only when longer than a line; for words one space apart that fit, the lines are the text broken at spaces and no other breaking has fewer lines |
| Wrapping.Lay | crates/termland-client/src/overlay.rs:646-666 | The loop over the words, with the words of each line: every line was full when the next began |
| Wrapping.CutWord | crates/termland-client/src/overlay.rs:648-655 | The inner loop cuts a long word into pieces of the full width and leaves a rest that fits |
| Wrapping.PlaceWord | crates/termland-client/src/overlay.rs:656-663 | A word goes on the line if it fits behind it and begins the next one if not |
| Wrapping.FewestLines | crates/termland-client/src/overlay.rs:642-667 | No way to break the text at spaces into lines of that width has fewer lines |
| Wrapping.WordsOfLines | crates/termland-client/src/overlay.rs:642-667 | The words read off the lines are the words laid out |
| Wrapping.ChopPieces | crates/termland-client/src/overlay.rs:648-655 | A word cut up is all there, in full pieces and a shorter rest |
| Scaling.Paint | crates/termland-client/src/display.rs:612-654 | Without a frame the window is left alone; equal sizes copy as much as there is; otherwise every window pixel is the frame pixel of its scaled position, inside the frame; a frame without rows is black |
| Scaling.ScaleInto | crates/termland-client/src/display.rs:638-652 | The double loop writes every destination pixel |
| Scaling.ScaleRow | crates/termland-client/src/display.rs:645-649 | The inner loop writes one row |
| Scaling.DrawnAsMeantIff | crates/termland-client/src/display.rs:638-648 | 32-bit arithmetic draws every pixel as unbounded arithmetic would exactly when the window's last step fits in 32 bits |
| Scaling.SmallSourceIsExact | crates/termland-client/src/display.rs:638-648 | Frames below 65536 pixels never overflow, and no index needs its clamp, whatever the window |
| Scaling.WideSourceWraps | crates/termland-client/src/display.rs:638-648 | A wider frame half of which is drawn from its first column |
| Scaling.MapIsMonotone | crates/termland-client/src/display.rs:641-648 | The index never runs backwards, and is the identity for equal sizes |
| Scaling.StepsAreClose | crates/termland-client/src/display.rs:638-648 | Rounding the ratio costs less than one source pixel per 65536 window pixels |
| Scaling.DrawnIsNear | crates/termland-client/src/display.rs:638-648 | On windows up to 65536 pixels the index drawn is the true one or the one before it |

## Left out

- TextInjection.InputInjector.Text: the keymap's xkb text, timestamps and the delay between keys are not modelled; a keymap is the list of its keysym names, the mask is the set of the four modifiers the code uses, and a round trip is a call that may fail and changes nothing.
- TextInjection.Connect: whether the socket is reached and the first keymap sent is an outside choice; nothing is said of which call failed.
- InputRouting.NothingStuck: masks are shown to be covered by held keys, not equal to them, because releasing one Shift clears the bit while the other is down.
- InputRouting: pointer motion and scrolling change no state the claims speak of; Swift's character clusters are strings, of which only a lone CR, LF or tab is a key.
- Framing: the CBOR payload codec is an assumed inverse pair.
- Q2Stream: audio datagrams and `bitstream_matches_codec`; how JavaScript rounds numbers from 2^53 on is a parameter.
- SingleInstance: the private directory's permission check, the 1 s read timeout and the 3 s deadline; a client may give up at any moment.
- Reconnect: video, audio, cursor and clipboard traffic are one kind of message; the texts of error reasons; wrap-around of the 32-bit attempt counter after 2^32 retries.
- AnnexB.ConversionKeepsUnits: units of 2^32 octets and more, whose length field would not fit.
- KeyframeGate: display, first-frame reporting and the drain used for tests; VideoToolbox's answers are inputs of each decoding step.
- KeyframeGate.VideoDecoder.SubmitPacket: counting a packet and putting it on the queue are one step, so two submitting threads do not interleave between them.
- FirstFed.KeyframeFirstWhateverFails: a queued release is excluded, since nothing is fed once it runs; `FirstFed.KeyframeFirstIff` has no such condition.
- CloseOrder: the minimum age before an NVENC encoder is closed, a matter of time alone.
- OpenOrder: the closes of one drop are a single step, so an encoder opened by FFmpeg between two of them counts as opened before or after the drop.
- DecoderFallback: pixel conversion, log suppression and FFmpeg's option handling; whether scaling with a scaler of the wrong size fails is FFmpeg's business.
- ExecQuote: the specification's extra rule that a program path contains no equals sign.
- UriList: paths that are not valid UTF-8, and how malformed octets are replaced when a string is rebuilt.
- Wrapping.Wrap: the fewest-lines claim is for words one space apart; extra spaces are kept inside a line and lost at its start, so such texts have no fixed breaking to compare with.
- Scaling.Paint: drawing before and after the frame (banner, menu bar, cursor).
- Session management, authentication, encoders, screen capture, all user interface and key tables: I/O or lookup.
