# servo-gtk transport, modelled in Dafny

servo-gtk embeds the Servo web engine in a GTK widget. The engine runs either
in a worker thread (the `ServoRunner` of servo_gtk/servo_runner.rs and its
older form in src/servo_runner.rs) or in a separate worker process (the
`servo_runner` binary, servo_runner/runner.rs). In both cases the widget and
the engine talk through two queues:

- actions go from the widget to the engine: load a URL, resize, input, shut down;
- events come back: a frame is ready, the cursor changed, a log message, a load completed.

This project models that transport and proves properties of the model:

- **Framing** (`Framing`, framing.dfy). The worker process writes every
  event as a 4-byte little-endian length followed by the encoded message
  (`send_event`). Its stdin reader thread reads actions back frame by frame
  (`spawn_stdin_channel`). The byte-level frame format is proved
  self-delimiting. The reader delivers exactly the decodable payloads of the
  whole frames, in order, and skips undecodable ones. A short read ends it.
  When the codec's decoder inverts its encoder, reading the frames of a
  sequence of messages gives back that sequence. The in-place reads into
  `len_buf`/`msg_buf` are methods over arrays, proved against these functions.
- **The process-mode pump** (`ProcessRunner`, process_runner.dfy). Each
  iteration of the worker's `main` loop:
  1. forwards every queued log record;
  2. takes at most one action;
  3. applies the action to the engine (recorded as a trace of engine calls),
     or calls `deinit` and stops on `Shutdown`;
  4. spins the engine, which decides whether to go on.

  Proved: actions are taken in FIFO order, the trace is exactly the engine
  calls of the actions taken, and `deinit` is on the trace exactly when a
  `Shutdown` was taken. `MainLoop` is the loop itself,
  writing every event through `send_event`.
- **Pure conversion tables** (`Conversions`, `ProtoIpc`): log levels, cursor
  names, button numbers, key-event field fallbacks and the protobuf enum
  decodings.
- **The thread-mode runners** (`ThreadRunner`, `LegacyRunner`). The
  dispatcher class appends one action per call to the command channel. The
  worker loop applies the actions in FIFO order, stops on `Shutdown` without
  `deinit`, and otherwise stops when the spin returns false. Each class
  method is proved against a function on the `Worker` value, which holds
  both channels and the engine trace. A `Valid` invariant (FIFO channel,
  and a trace that is exactly the engine calls of the applied actions) is
  preserved by every step and over whole runs.
- **The key tables** (`KeyTables`). `KeyTables::new` builds a map by 175
  `insert` calls, done here by a loop. `key_from_keyval` looks a keyval up in
  that map first and falls back to its Unicode character. The fallback's
  location is the keypad exactly when the keyval is in `numpad_table`.
- **The widgets' receiving side** (`ProcessWebView`, `GlWebView`,
  `LegacyWebView`):
  - `process_servo_event` overwrites a single frame slot, sets the cursor
    when its name resolves, and forwards log messages;
  - the reader task handles events in arrival order until the widget is gone;
  - `dispose` shuts the runner down;
  - the key handlers forward only keyvals that have a character;
  - the legacy button routing forwards only presses and releases that carry a position.

Library calls the model cannot see are parameters:

| parameter | library call |
|---|---|
| `encode` / `decode` | the protobuf codec |
| `parse` | `Url::parse` |
| `namedKey` | `NamedKey::from_str` |
| `toUnicode` | `gdk::Key::to_unicode` |
| `resolves` | `gdk::Cursor::from_name` |
| `spin` (a boolean per iteration) | `spin_event_loop` |
| `painted` (per iteration) | the events the engine's delegate produces while spinning |

The engine is the trace of calls made on it (`Engine.Op`).

## Model

| member | source | states |
|---|---|---|
| Framing.LittleEndianRoundTrip | servo_runner/runner.rs:172 | decoding the four little-endian bytes of a u32 gives the number back |
| Framing.FromLittleEndianRoundTrip | servo_runner/runner.rs:168-172 | every 4-byte length prefix is the encoding of the number it denotes |
| Framing.FrameLayout | servo_runner/runner.rs:70-75 | a frame is the payload length (mod 2^32) as 4 little-endian bytes followed by exactly the payload bytes |
| Framing.NextFrame | servo_runner/runner.rs:168-177 | one reader pass: fewer than 4 bytes is a short read of the length; a whole frame is taken only when the announced number of payload bytes is present |
| Framing.NextFrameIsFrame | servo_runner/runner.rs:168-177 | whatever the reader takes as a whole frame is exactly a `send_event` frame of that payload, and the rest follows it |
| Framing.FrameSelfDelimiting | servo_runner/runner.rs:70-177 | a frame written by `send_event` is read back as its own payload whatever bytes follow it |
| Framing.OversizedPayloadMisframed | servo_runner/runner.rs:72 | a payload of 2^32 bytes or more is announced with a truncated length and is not read back as itself |
| Framing.PayloadsOfFrame | servo_runner/runner.rs:167-184 | the reader takes one frame's payload and then carries on with the bytes after it |
| Framing.PayloadsOfFrames | servo_runner/runner.rs:163-187 | a stream of frames yields their payloads, one per frame, in order |
| Framing.DeliveredIsDecodedPrefix | servo_runner/runner.rs:179-183 | the reader delivers exactly the first `accepting` decodable payloads of the whole frames, in order |
| Framing.UndecodableFrameSkipped | servo_runner/runner.rs:179-183 | a frame that fails to decode is dropped and reading continues with the next frame |
| Framing.ShortReadEndsReader | servo_runner/runner.rs:169-177 | a short read of the length or of the payload ends the reader; nothing after it is delivered |
| Framing.ReaderRoundTrip | servo_runner/runner.rs:70-187 | when `decode` inverts `encode`, reading the frames of a message sequence delivers that sequence |
| Framing.ReadExact | servo_runner/runner.rs:169-175 | `read_exact` fills the whole buffer with the next bytes, or fails when fewer remain |
| Framing.ReadFrame | servo_runner/runner.rs:168-177 | filling `len_buf` and then `msg_buf` in place computes `NextFrame` of the remaining input and advances past the frame |
| Framing.ReadStdin | servo_runner/runner.rs:163-187 | the reader loop sends to the channel exactly `Delivered`: the decodable payloads in order, until a short read or a closed receiver |
| Framing.WrittenSnoc | servo_runner/runner.rs:70-75 | writing one more event appends exactly its frame to the output |
| Framing.Stdout.WriteAll | servo_runner/runner.rs:73-74 | `write_all` succeeds exactly when the stream accepts every byte; a failed write leaves the accepted prefix on the stream |
| Framing.Stdout.TrySendEvent | servo_runner/runner.rs:70-75 | `send_event` succeeds exactly when the whole frame fits what the stream accepts; on failure only a prefix of the frame is on stdout, and a failed length write stops before the payload |
| Framing.Stdout.SendEvent | servo_runner/runner.rs:70-75 | on a stream that takes every byte, stdout grows by the event's frame and nothing else |
| Framing.TruncatedFrameMisframes | servo_runner/runner.rs:70-75 | a frame cut short by a failed write makes the reader take the next frame's bytes as its payload |
| ProtoIpc.LevelOf | servo_runner/runner.rs:51-60 | a raw level number decodes exactly when it is 0..3, and to the level with that number |
| ProtoIpc.LevelRoundTrip | servo_runner/runner.rs:51-60 | each log level survives the trip through its wire number |
| Conversions.WireLevel | servo_runner/runner.rs:51-57 | `Trace` becomes `Debug`; the other four record levels map to their own wire level |
| Conversions.AdmittedKeepLevel | servo_runner/runner.rs:229 | under the installed `Debug` filter every record is sent at its own level |
| Conversions.CursorName | servo_runner/runner.rs:111-147 | the name is "default" exactly for `Default` and for the unnamed rest (`None`) |
| Conversions.CursorNamesDistinct | servo_runner/runner.rs:111-147 | two kinds with the same name other than "default" are the same kind |
| Conversions.MouseButtonOf | servo_runner/runner.rs:303-308 | 2 is the middle button, 3 the right one, and every other number (1 included) the left one |
| Conversions.ButtonRoundTrip | servo_runner/runner.rs:322-327 | each of the three buttons is recovered from its GDK number |
| Conversions.KeyTypeOf | servo_runner/runner.rs:206-207 | a raw key type decodes exactly when it is 0 or 1 |
| Conversions.ProtoLocationOf | servo_runner/runner.rs:215-216 | a raw location decodes exactly when it is 0..3 |
| Conversions.FromBitsTruncate | servo_runner/runner.rs:218 | undefined modifier bits are dropped and defined ones kept |
| Conversions.ConvertKeyEvent | servo_runner/runner.rs:198-223 | the state is kept; the key is `Named` exactly for key type 1; an unknown named key is `Unidentified`; the text is kept for a character; an unknown location is `Standard`; the code is always `Unidentified`; the modifiers are truncated |
| Conversions.KeyCodeIgnored | servo_runner/runner.rs:219-221 | two events that differ only in `key_code` convert to the same engine event |
| Conversions.ConvertLocationInjective | servo_runner/runner.rs:189-196 | distinct wire locations become distinct engine locations |
| Conversions.LocationRoundTrip | servo_runner/runner.rs:214-217 | a location sent with its protobuf number arrives as the matching engine location |
| ProcessRunner.Ops | servo_runner/runner.rs:263-408 | `deinit` is called exactly for `Shutdown`; a `LoadUrl` loads nothing exactly when its URL does not parse; every other action makes an engine call |
| ProcessRunner.Record | servo_runner/runner.rs:263-408 | an action's log record carries the wire number of `Info` for load, reload, back, forward and shutdown, and of `Debug` for every other action |
| ProcessRunner.LogEvents | servo_runner/runner.rs:253-258 | one `LogMessage` event per queued record, in order |
| ProcessRunner.PollTakesOldest | servo_runner/runner.rs:260-262 | a poll takes the oldest pending action when there is one and nothing otherwise, and keeps the channel a FIFO |
| ProcessRunner.IterationTakesOldest | servo_runner/runner.rs:251-417 | an iteration takes the oldest queued action when there is one and nothing otherwise, and keeps the channel a FIFO |
| ProcessRunner.IterationApplied | servo_runner/runner.rs:260-408 | an iteration keeps the trace equal to the engine calls of the taken actions, in order |
| ProcessRunner.RunApplied | servo_runner/runner.rs:251-418 | over a whole run the trace is exactly the engine calls of the taken actions, in order |
| ProcessRunner.RunIsFifo | servo_runner/runner.rs:251-418 | over any number of iterations the actions are taken in arrival order, each once |
| ProcessRunner.PollDeinitOnShutdown | servo_runner/runner.rs:403-407 | after a poll, `deinit` is on the trace exactly when a `Shutdown` was taken, as its last call, and the loop has stopped |
| ProcessRunner.IterationDeinitOnShutdown | servo_runner/runner.rs:403-414 | a whole iteration keeps that property |
| ProcessRunner.RunDeinitOnShutdown | servo_runner/runner.rs:251-418 | a whole run keeps that property |
| ProcessRunner.StartDeinitOnShutdown | servo_runner/runner.rs:234-251 | the loop starts with the deinit-on-shutdown, FIFO and trace invariants holding |
| ProcessRunner.LogsForwardedFirst | servo_runner/runner.rs:253-258 | every record queued before an iteration is written first, in order, before anything the engine writes |
| ProcessRunner.EmptyActionIgnored | servo_runner/runner.rs:260-262 | an action without a variant is taken off the channel, the oldest, and changes neither the engine nor the logs |
| ProcessRunner.SpinDecides | servo_runner/runner.rs:412-414 | without a `Shutdown`, the loop goes on exactly when the spin returns true |
| ProcessRunner.ShutdownSkipsSpin | servo_runner/runner.rs:403-407 | `Shutdown` logs, calls `deinit` and stops before spinning, so the engine writes nothing more |
| ProcessRunner.ExampleSession | servo_runner/runner.rs:263-408 | a load, a resize and a shutdown reach the engine as load, move-resize, resize, `deinit`, and the reload queued after the shutdown never reaches the engine |
| ProcessRunner.SendAll | servo_runner/runner.rs:70-75 | writing events one after another appends their frames in order |
| ProcessRunner.DrainLogs | servo_runner/runner.rs:253-258 | the inner loop writes one `LogMessage` frame per queued record, in order, and empties the log channel |
| ProcessRunner.Iterate | servo_runner/runner.rs:252-417 | one pass of the loop body computes `Iteration` and writes its events |
| ProcessRunner.MainLoop | servo_runner/runner.rs:251-418 | the loop's engine trace and stop state are those of `Run`, and stdout holds the frames of `Run`'s events |
| ThreadRunner.Ops | servo_gtk/servo_runner.rs:169-229 | no action calls `deinit`; a `LoadUrl` loads nothing exactly when its URL does not parse; `Shutdown` is the only other action with no engine call |
| ThreadRunner.SendKeepsValid | servo_gtk/servo_runner.rs:108-138 | a dispatcher call keeps the channel a FIFO and the trace that of the applied actions |
| ThreadRunner.StepKeepsValid | servo_gtk/servo_runner.rs:167-235 | a worker iteration keeps the invariant and only appends to the trace and the event queue |
| ThreadRunner.ShutdownNotDeduplicated | servo_gtk/servo_runner.rs:136-138 | two `shutdown` calls queue two `Shutdown` actions |
| ThreadRunner.ShutdownWithoutDeinit | servo_gtk/servo_runner.rs:228 | `Shutdown` ends the loop without any engine call and without `deinit` |
| ThreadRunner.SpinDecides | servo_gtk/servo_runner.rs:232-234 | without a `Shutdown`, the loop goes on exactly when the spin returns true, and the painted events are queued in order |
| ThreadRunner.ButtonsSymmetric | servo_gtk/servo_runner.rs:188-215 | press and release of a button number reach the engine as the same mapped button, down then up |
| ThreadRunner.KeysSymmetric | servo_gtk/servo_runner.rs:216-227 | key press and release become the same character key, with states `Down` and `Up` |
| ThreadRunner.SendAllKeepsValid | servo_gtk/servo_runner.rs:108-138 | any run of dispatcher calls keeps the invariant and leaves the engine alone |
| ThreadRunner.RunKeepsValid | servo_gtk/servo_runner.rs:167-235 | over a whole run the engine sees exactly the calls of a prefix of the sent actions, in sending order, and never `deinit` |
| ThreadRunner.ServoRunner.constructor | servo_gtk/servo_runner.rs:90-102 | a new runner has empty channels and trace and a running worker |
| ThreadRunner.ServoRunner.LoadUrl | servo_gtk/servo_runner.rs:108-110 | one `LoadUrl` with the given string is queued |
| ThreadRunner.ServoRunner.Resize | servo_gtk/servo_runner.rs:112-114 | one `Resize` with the given size is queued |
| ThreadRunner.ServoRunner.Motion | servo_gtk/servo_runner.rs:116-118 | one `Motion` with the given position is queued |
| ThreadRunner.ServoRunner.ButtonPress | servo_gtk/servo_runner.rs:120-122 | one `ButtonPress` with the given button and position is queued |
| ThreadRunner.ServoRunner.ButtonRelease | servo_gtk/servo_runner.rs:124-126 | one `ButtonRelease` with the given button and position is queued |
| ThreadRunner.ServoRunner.KeyPress | servo_gtk/servo_runner.rs:128-130 | one `KeyPress` with the given character is queued |
| ThreadRunner.ServoRunner.KeyRelease | servo_gtk/servo_runner.rs:132-134 | one `KeyRelease` with the given character is queued |
| ThreadRunner.ServoRunner.Shutdown | servo_gtk/servo_runner.rs:136-138 | one `Shutdown` is queued on every call |
| ThreadRunner.ServoRunner.WorkerStep | servo_gtk/servo_runner.rs:167-234 | one iteration of `run_servo` on the fields is `Step` |
| ThreadRunner.ServoRunner.RunServo | servo_gtk/servo_runner.rs:167-235 | the worker loop interleaved with dispatcher calls is `Run` |
| LegacyRunner.Ops | src/servo_runner.rs:130-145 | an unparsable URL loads nothing; `Resize` passes width and height unchanged; `Shutdown` makes no engine call |
| LegacyRunner.ThreadRunnerExtends | src/servo_runner.rs:130-145 | on the three shared actions this worker makes the same engine calls as the thread-mode worker |
| LegacyRunner.SendKeepsValid | src/servo_runner.rs:89-99 | a dispatcher call keeps the FIFO and trace invariant |
| LegacyRunner.StepKeepsValid | src/servo_runner.rs:128-151 | a worker iteration keeps the invariant and only appends to trace and events |
| LegacyRunner.ShutdownEndsLoop | src/servo_runner.rs:144 | `Shutdown` at the head of the channel ends the loop with no engine call; what is queued behind it is never applied |
| LegacyRunner.SendAllKeepsValid | src/servo_runner.rs:89-99 | any run of dispatcher calls keeps the invariant |
| LegacyRunner.AllOpsAgree | src/servo_runner.rs:130-145 | applying actions makes the engine calls the thread-mode runner makes for the same actions |
| LegacyRunner.SendAgrees | src/servo_runner.rs:89-99 | a dispatcher call is the thread-mode runner's call on the same action |
| LegacyRunner.SendAllAgrees | src/servo_runner.rs:89-99 | any run of dispatcher calls is the thread-mode runner's run of the same calls |
| LegacyRunner.StepAgrees | src/servo_runner.rs:128-151 | a worker iteration is the thread-mode worker's iteration on the same state |
| LegacyRunner.RunAgrees | src/servo_runner.rs:128-151 | a whole run is the thread-mode worker's run on the same schedule |
| LegacyRunner.RunKeepsValid | src/servo_runner.rs:128-151 | over a whole run the engine sees exactly the calls of a prefix of the sent actions, in order, and never `deinit` |
| LegacyRunner.ServoRunner.constructor | src/servo_runner.rs:71-83 | a new runner has empty channels and trace and a running worker |
| LegacyRunner.ServoRunner.LoadUrl | src/servo_runner.rs:89-91 | one `LoadUrl` with the given string is queued |
| LegacyRunner.ServoRunner.Resize | src/servo_runner.rs:93-95 | one `Resize` with the given size is queued |
| LegacyRunner.ServoRunner.Shutdown | src/servo_runner.rs:97-99 | one `Shutdown` is queued on every call |
| LegacyRunner.ServoRunner.WorkerStep | src/servo_runner.rs:128-151 | one iteration of `run_servo` on the fields is `Step` |
| LegacyRunner.ServoRunner.RunServo | src/servo_runner.rs:128-151 | the worker loop interleaved with dispatcher calls is `Run` |
| KeyTables.InsertAllDomain | servo_gtk/key_tables.rs:23-576 | the map's keys are exactly the inserted keyvals |
| KeyTables.InsertAllLastWins | servo_gtk/key_tables.rs:23-576 | an insert that no later insert of the same keyval overrides decides that keyval's name and location |
| KeyTables.InsertAllAppend | servo_gtk/key_tables.rs:23-576 | inserting two runs in turn gives the first run's map updated by the second's |
| KeyTables.BuildKeys | servo_gtk/key_tables.rs:23-576 | the run of in-place `insert` calls leaves the map `InsertAll` of the entries |
| KeyTables.KeyTables.constructor | servo_gtk/key_tables.rs:23-576 | `new` builds the map of all inserts in program order and the keypad keyval list |
| KeyTables.KeyTables.Default | servo_gtk/key_tables.rs:599-603 | `Default` builds the same tables as `new` |
| KeyTables.KeyTables.KeyFromKeyval | servo_gtk/key_tables.rs:578-596 | a table hit gives the stored name, not a character, at the stored location; on a miss the result exists exactly when the keyval has a non-NUL character, which is returned as a character at the keypad location exactly when the keyval is in `numpad_table` and at the standard location otherwise |
| KeyTables.LastInLaterRun | servo_gtk/key_tables.rs:487-553 | an entry of the left, right or keypad run that is not re-inserted in that run is found under its own name and location |
| KeyTables.FoundAfterStandard | servo_gtk/key_tables.rs:487-596 | such an entry is what `key_from_keyval` returns for its keyval, whatever the Unicode fallback says |
| KeyTables.KeypadEnterIsNamed | servo_gtk/key_tables.rs:532-583 | `KP_Enter` is in `numpad_table`, but the map is consulted first, so it is the named key "Enter" at the keypad location |
| KeyTables.ModifiersNotReinserted | servo_gtk/key_tables.rs:487-553 | no left or right modifier keyval is inserted again later |
| KeyTables.ModifierPairs | servo_gtk/key_tables.rs:487-508 | left and right Alt, Control, Meta, Super and Shift have the same name and are looked up at the left and right locations |
| ProcessWebView.AsI32 | servo_gtk/web_view.rs:255-256 | `as i32` keeps values below 2^31, makes larger ones negative, and keeps the bits |
| ProcessWebView.TimesFour | servo_gtk/web_view.rs:259 | `width * 4` is exact below 2^30 and wraps modulo 2^32 |
| ProcessWebView.TextureOf | servo_gtk/web_view.rs:244-260 | the texture holds the frame's bytes in R8G8B8A8 at its width and height, with stride 4 * width |
| ProcessWebView.EmptyEventIgnored | servo_gtk/web_view.rs:238-240 | an event with no variant changes nothing |
| ProcessWebView.LatestFrameWins | servo_gtk/web_view.rs:243-263 | after two frames only the second's texture remains; cursor and runner calls are untouched and two redraws are queued |
| ProcessWebView.CursorOnlyIfResolves | servo_gtk/web_view.rs:265-270 | the cursor is set to the name exactly when it resolves; nothing else changes |
| ProcessWebView.LogForwardedOnlyWithRunner | servo_gtk/web_view.rs:271-276 | a log message reaches the runner with its level and text exactly when there is a runner, leaving texture and cursor alone |
| ProcessWebView.LoadCompleteIgnored | servo_gtk/web_view.rs:277-279 | `LoadComplete` only logs |
| ProcessWebView.HandleAllAppend | servo_gtk/web_view.rs:43-51 | handling two batches in turn is handling their concatenation |
| ProcessWebView.LastFrameDecides | servo_gtk/web_view.rs:243-263 | the last frame of a batch decides the texture, whatever came before it |
| ProcessWebView.WebView.ProcessServoEvent | servo_gtk/web_view.rs:237-281 | the widget's new state is `Handle` of the event |
| ProcessWebView.WebView.ReadEvents | servo_gtk/web_view.rs:43-51 | the events the widget lives for are handled in arrival order; the next one is received and dropped, and the task ends |
| ProcessWebView.WebView.Dispose | servo_gtk/web_view.rs:154-158 | one shutdown per call when there is a runner, and nothing else changes |
| GlWebView.CursorName | servo_gtk/webview.rs:462-474 | every name other than "default" is the worker's name for that kind |
| GlWebView.CursorNameAgreesWithWorker | servo_gtk/webview.rs:462-474 | the ten listed kinds get the worker's names, and every other kind gets "default" although the worker names all of them but `None` |
| GlWebView.FrameReplacesImage | servo_gtk/webview.rs:449-457 | a frame replaces `last_image`, and a redraw is queued exactly when there is a GL area |
| GlWebView.LoadCompleteIgnored | servo_gtk/webview.rs:458-460 | `LoadComplete` changes no field |
| GlWebView.CursorOnlyIfResolves | servo_gtk/webview.rs:462-478 | the cursor is set to the kind's name exactly when that name resolves |
| GlWebView.LastFrameDecides | servo_gtk/webview.rs:449-457 | the last frame of a batch is the one `last_image` holds |
| GlWebView.WebView.ProcessServoEvent | servo_gtk/webview.rs:444-481 | the widget's new state is `Handle` of the event |
| GlWebView.WebView.ReadEvents | servo_gtk/webview.rs:383-391 | events are handled in order while the widget lives; the first one after that is dropped and ends the task |
| GlWebView.WebView.KeyPressed | servo_gtk/webview.rs:335-344 | a key press is sent exactly when the keyval has a character, and carries that character |
| GlWebView.WebView.KeyReleased | servo_gtk/webview.rs:345-356 | a key release is sent exactly when the keyval has a character, and carries that character |
| GlWebView.WebView.LoadUrl | servo_gtk/webview.rs:419-424 | the URL is passed to the runner when there is one |
| GlWebView.WebView.Dispose | servo_gtk/webview.rs:398-402 | a shutdown is sent when there is a runner |
| LegacyWebView.Route | src/webview.rs:252-270 | at most one call; a call is made exactly for a press or release that has a position; it carries the button and the position and is a press exactly for a press |
| LegacyWebView.RouteAllCounts | src/webview.rs:246-274 | a sequence of events makes one call per routed event and none for the others |
| LegacyWebView.HandleEffects | src/webview.rs:358-369 | a frame replaces `last_image` and queues a redraw exactly when there is a GL area; `LoadComplete` changes nothing |
| LegacyWebView.LastFrameDecides | src/webview.rs:358-366 | the last frame of a batch followed only by `LoadComplete` is the one `last_image` holds |
| LegacyWebView.WebView.ProcessServoEvent | src/webview.rs:356-371 | the widget's new state is `Handle` of the event |
| LegacyWebView.WebView.ReadEvents | src/webview.rs:313-321 | events are handled in order while the widget lives; the first one after that is dropped and ends the task |
| LegacyWebView.WebView.LegacyEvent | src/webview.rs:246-274 | with a runner, the button calls of `Route` are made; without one, none; the view is unchanged |
| LegacyWebView.WebView.LoadUrl | src/webview.rs:349-354 | the URL is passed to the runner when there is one |
| LegacyWebView.WebView.Dispose | src/webview.rs:328-332 | a shutdown is sent when there is a runner |

## Left out

- The protobuf codec (servo_gtk/proto_ipc.rs and the generated code) is a pair of function parameters. The round trip assumes that `decode` inverts `encode`.
- servo_gtk/ipc.rs is not part of this model: it declares types only.
- Enum numbering is assumed in declaration order from 0 for the protobuf `LogLevel`, `KeyType` and `Location` (the `.proto` file is not shown).
- The modifier flags are assumed to be the fourteen low bits of `keyboard_types::Modifiers`.
- The model follows the code as written, which has no safeguards beyond those it shows:
  - there is no ceiling on the announced frame length;
  - an undecodable frame is skipped, not fatal;
  - a repeated shutdown is not suppressed.
- Framing.ReadStdin reads a byte sequence rather than a blocking stream, and `accepting` says how many sends the channel accepts before its receiver is gone.
- Threads, timing and the 5 ms sleep are left out.
  - A run is a schedule of ticks: the dispatcher calls or arriving actions and log records before an iteration, the spin's result, and the events the engine writes while spinning.
  - Which interleavings the threads can actually produce is not modelled.
- Floating point is left out:
  - coordinates and scroll deltas are `real` and passed through unchanged;
  - the `f64` to `f32` casts are not modelled;
  - the 20× scroll scaling is kept as an exact product.
- The engine's own behaviour is left out (`load`, `paint`, `notify_input_event`, `spin_event_loop`, `deinit`); it is a trace of calls plus oracles.
- The process-mode UI runner that servo_gtk/web_view.rs uses is not part of this model. Its calls are recorded as `RunnerCall` values; the log level travels as the raw wire number.
- The process widget's `load_url`, `reload`, `go_back` and `go_forward` call only that runner and are left out with it, and so are its input handlers.
- The GL widget's resize, motion, button and scroll handlers are GTK wiring and are left out.
  - Its touch calls have no counterpart in the shown thread runner, which defines no touch actions.
  - GlWebView.WebView models only the key handlers, `load_url`, `dispose` and the reader.
- The legacy widget (src/webview.rs) calls `motion` (line 239), `button_press` and `button_release` (lines 257 and 265), `key_press` (line 285) and `key_release` (line 297), none of which src/servo_runner.rs defines. Its button calls are therefore recorded on the widget itself (`forwarded`).
- The legacy widget's resize, motion and key handlers (src/webview.rs:222-302) are GTK wiring and are left out; its resize handler only calls the runner's `resize`, which is modelled.
- `downcast_ref::<gdk::ButtonEvent>` is assumed to succeed for button events.
- GTK and OpenGL work is left out: shaders, buffers, texture upload, `snapshot`, size allocation and coordinate translation.
- The weak-reference checks are modelled as a parameter:
  - in the reader tasks, `aliveFor` (how many events the widget lives for);
  - in the input handlers, calling the handler at all.
- The keysym values of the `gdk::Key` constants in the key tables are those of the X11 keysym tables.
- ProcessWebView.AsI32 and ProcessWebView.TimesFour model the wrapping of a release build; a debug build panics on overflow in `width * 4`.
- The checks that `gdk::MemoryTexture::new` makes on its own arguments are not modelled.
- The panic of `RgbaImage::from_raw(..).unwrap()` on short pixel data is the precondition `Handleable` on the process widget's handlers.
- Log message text (`format!` of the record's arguments) is a parameter, `describe`.
- Framing.Stdout.SendEvent: assumes every write succeeds, and so do ProcessRunner.MainLoop, ProcessRunner.Iterate, ProcessRunner.SendAll and ProcessRunner.DrainLogs, which write through it. `send_event` can fail part-way (its result is ignored at servo_runner/runner.rs:106, 153 and 257); that path is Framing.Stdout.TrySendEvent, and Framing.TruncatedFrameMisframes shows that a cut frame misframes the ones after it. The pump's output does not model it.
- ProcessRunner.Record: states only the level, not the message text, because the text comes from that parameter.
