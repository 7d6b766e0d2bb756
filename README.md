# Streaming TTS client: a verified model

This project is a Dafny model of the client side of the ChatterBox streaming
text-to-speech protocol. The server answers one request on a WebSocket with
an `info` message that announces how many chunks follow. Then come
`audio_chunk` messages, each carrying a base64 WAV payload, the last one
marked `is_final`. An `error` message can arrive instead.

The model covers:

- **URL rewrite** (`web_socket_url.dfy`). The client and the connection test
  both derive the WebSocket URL from an HTTP one. `https://` becomes
  `wss://`, `http://` becomes `ws://`, and every `/tts` becomes
  `/tts-stream`, following Python's all-occurrences `str.replace`.
- **Player** (`playback.dfy`). `AudioPlayer` is a class with the fields of
  the original:
  - the FIFO queue;
  - the store of received payloads;
  - the played/total counters;
  - the completion event, as a flag;
  - the `playing` flag.

  One pass of the worker loop is the method `WorkerStep`. The worker running
  until the queue is empty is `WaitForCompletion`. The assembler is
  `SaveCombinedAudio`, specified by the function `SaveResult`.
- **Fallback file names** (`chunk_files.dfy`). These are `chunk_NNN.wav`,
  with the index zero-padded to three digits.
- **Client** (`streaming_client.dfy`). `StreamingTtsClient.StreamTts` models
  `stream_tts`:
  - the reference check;
  - starting playback;
  - the receive loop, one message dispatched at a time;
  - waiting for playback and saving;
  - the cleanup.

  The loop is specified by functions on the message sequence (`Consumed`,
  `TotalOf`, `ChunkCount`, `StoredPayloads`, `ExitOf`). What it does to the
  player is specified by the fold `FeedAll`.
- **Connection test** (`connection_test.dfy`). This is the test script's
  response loop. It stops on a final chunk, an error, an unparsable frame,
  or the eleventh response.

The following library and environment calls are parameters of the model:

| parameter | stands for |
|---|---|
| `b64decode` | base64 decoding |
| `wav` | reading a WAV container |
| `accept` | whether the audio device plays a payload without raising |
| `writable` | whether a file name can be written |
| `playerCreated` | whether `AudioPlayer()` returned without raising: an audio library is present and initialising it succeeded |
| `connects` | whether the WebSocket opens |
| `msgs` | the server's frames, as classified by the JSON parser (`Protocol.Message`) |
| `closedCleanly` | whether the stream ends normally or by a connection error |

Written files are returned as a list of `FileWrite` values.

The assembler never compares sample formats: it passes the `getparams()`
of the first chunk that opens to `setparams` and writes the joined frames of
every chunk that reads (`Playback.CombinedWhenSomeFrames`).

Three consequences of the all-occurrences rewrites are proved, not fixed, since
the code does exactly what `str.replace` does:

- a URL that already ends in `/tts-stream` ends up with
  `/tts-stream-stream`;
- a host name that starts with `tts` is rewritten too;
- the scheme swap is not confined to the scheme: a second `https://` later
  in the URL, such as one in a query string, becomes `wss://` as well.

## Model

| member | source | states |
|---|---|---|
| WebSocketUrl.ToWebSocketUrl | streaming_client.py:240-246 | A URL starting with `https://` gets the `wss://` scheme, and one starting with `http://` gets `ws://`; every other occurrence of that scheme string in the URL is swapped too. Every `/tts` in the result starts a `/tts-stream`, and undoing that rewrite gives back the swapped URL; together these fix the result exactly. A URL with neither scheme is returned unchanged, and only then is the result the input. |
| WebSocketUrl.RestoreExpand | streaming_client.py:241 | The `/tts` → `/tts-stream` rewrite of every occurrence is injective: reversing it gives back the original text. |
| WebSocketUrl.ExpandLeavesNoBareTts | streaming_client.py:241 | After the path rewrite, every `/tts` in the text is the start of a `/tts-stream`: no occurrence is left unrewritten. |
| WebSocketUrl.ExpandTtsCharacterised | streaming_client.py:241 | A string whose every `/tts` starts a `/tts-stream` and whose inverse rewrite is `s` is exactly the rewrite of `s`, so the two promises of `ToWebSocketUrl` determine its result. |
| WebSocketUrl.ReplacedTailKeepsTts | streaming_client.py:241 | For the `/tts` ↔ `/tts-stream` rewrites (pattern and replacement both start with `/tts`), rewriting the text after a character does not create a `/tts` at that character when none started there before. |
| WebSocketUrl.ReplaceKeepsPrefix | streaming_client.py:241 | `str.replace` leaves alone a prefix in which no occurrence of the pattern starts. |
| WebSocketUrl.SchemeSurvivesExpand | streaming_client.py:241 | The path rewrite never touches the WebSocket scheme it follows. |
| WebSocketUrl.ExistingStreamPathDoubled | streaming_client.py:241 | When no `/tts` starts before it, a `/tts-stream` already in the URL comes out as `/tts-stream-stream`, and the text after it is rewritten as usual. |
| WebSocketUrl.HostStartingWithTts | streaming_client.py:240-241 | `https://tts…` becomes `wss://tts-stream…`: the rewrite reaches the host name, not only the path. |
| WebSocketUrl.NestedSchemeSwapped | streaming_client.py:240-241 | In `https://a` followed by `https://b`, with no `h` in `a`, both occurrences of `https://` become `wss://`: the swap reaches past the scheme. |
| ChunkFiles.ParseDecimalOfDecimal | streaming_client.py:224 | The decimal numeral of `n` is all digits and parses back to `n`. |
| ChunkFiles.ParseIgnoresLeadingZeros | streaming_client.py:224 | Zeros put in front of a numeral do not change its value. |
| ChunkFiles.Pad3RoundTrip | streaming_client.py:224 | The `{i:03d}` field is all digits and parses back to `i`. It is at least three wide, and exactly three wide iff `i < 1000`. |
| ChunkFiles.ChunkFileNamesDistinct | streaming_client.py:222-226 | Distinct chunk indexes give distinct fallback file names, so no fallback write overwrites another. |
| Playback.Accepted | streaming_client.py:92-128 | The played payloads are never more than the queued ones. |
| Playback.AcceptedAll | streaming_client.py:92-128 | When the device plays every payload, the played payloads are the whole queue, in order. |
| Playback.AcceptedStep | streaming_client.py:95-125 | A payload taken after the others is played after them, or dropped. |
| Playback.AcceptedCons | streaming_client.py:95-125 | Read from the head: the head is played first, or dropped, then the rest of the queue in order. |
| Playback.FirstParamsIsFirst | streaming_client.py:193-198 | `params` is absent iff no stored chunk opens as WAV. Otherwise it is the header of the first chunk that opens. |
| Playback.JoinedFramesAppend | streaming_client.py:193-202 | The frames are joined in chunk order: joining `a + b` is joining `a`, then `b`. |
| Playback.JoinedFramesSkipsUnreadable | streaming_client.py:194-206 | A chunk whose frames cannot be read is skipped and adds nothing to the joined frames. |
| Playback.JoinedFramesContain | streaming_client.py:200-202 | The joined frames are at least as long as any single chunk's frames. |
| Playback.WriteChunkFiles | streaming_client.py:220-229 | The fallback loop writes exactly `FallbackWrites` of the stored chunks: each writable `chunk_NNN.wav`, in index order. |
| Playback.FallbackWritesEveryChunk | streaming_client.py:220-229 | When every name can be written, the fallback writes every stored chunk unchanged as `chunk_NNN.wav`, in index order. |
| Playback.CombinedWhenSomeFrames | streaming_client.py:188-215 | If one chunk yields frames and the output can be written, exactly one WAV file is written. It is given the `getparams()` of the first chunk that opens, carrying that chunk's sample format, and all joined frames; later formats are not compared. |
| Playback.FallbackWhenNoneOpens | streaming_client.py:208-229 | If no chunk opens and every `chunk_NNN.wav` can be written, each stored chunk gets its own file, so no payload is lost. A chunk whose name cannot be written is skipped and lost. |
| Playback.AudioPlayer.constructor | streaming_client.py:30-37 | A new player has an empty queue and store, zero counters, is not playing, and its event is clear. |
| Playback.AudioPlayer.StartPlayback | streaming_client.py:51-56 | After the call the player is playing. A worker is launched only if none was running, so a second call changes nothing. |
| Playback.Started | streaming_client.py:51-56 | Started playback is playing; the worker count goes up by one only when none was running; the queue and the store are untouched. |
| Playback.AudioPlayer.StopPlayback | streaming_client.py:58-62 | `playing` is cleared; nothing else changes. |
| Playback.AudioPlayer.Cleanup | streaming_client.py:231-235 | Cleanup stops playback. |
| Playback.AudioPlayer.SetTotalChunks | streaming_client.py:64-68 | Sets the expected total, resets the played count and clears the event. The queue and the store are unchanged. |
| Playback.AudioPlayer.AddChunk | streaming_client.py:70-77 | Both or neither: a payload that decodes is appended to the store and enqueued at the tail. A payload that does not decode changes neither. |
| Playback.Worked | streaming_client.py:92-128 | A pass of a running worker over a non-empty queue removes exactly one payload from it. |
| Playback.WorkedHead | streaming_client.py:92-125 | A pass over a non-empty queue dequeues the head (FIFO). If the device plays it, it is heard, the count goes up by exactly one, and the event is set if `played >= total > 0`. If playing it raises, it is dropped uncounted. The store, the total and the flags are untouched. |
| Playback.DrainedAfterWorked | streaming_client.py:92-128 | Each worker pass over a non-empty queue is a first step of draining it: the state that draining leaves is the same before and after the pass. |
| Playback.AudioPlayer.WorkerStep | streaming_client.py:92-128 | The player's new state is `Worked` of its old state: a stopped worker does nothing, and an empty poll changes no counter and sets the event iff `played >= total > 0`. The store stays the dequeued payloads followed by the queue. |
| Playback.AudioPlayer.WaitForCompletion | streaming_client.py:79-81 | The player ends in `Drained` of its old state. A running worker drains the whole queue in order, plays the accepted payloads in order, and adds their number to the count. The returned event is set iff it was already set or the count has reached a positive total. |
| Playback.AudioPlayer.SaveCombinedAudio | streaming_client.py:182-229 | The files written are exactly `SaveResult` of the store: nothing for an empty store; otherwise one combined WAV, or the per-chunk fallback when there is no header, no frame, or the output cannot be written. |
| StreamingClient.Consumed | streaming_client.py:300-330 | The loop reads up to and including the first final chunk or error, and reads everything if there is none. |
| StreamingClient.ConsumedAtFirstEnd | streaming_client.py:324-330 | The loop ends on the first final chunk or error, with `FinalChunk` or `ServerError` as the exit, whether or not the stream would have closed cleanly. |
| StreamingClient.StepMessage | streaming_client.py:304-322 | One more message: `info` replaces the recorded total, an audio chunk adds one to the count, and a payload that decodes is stored. |
| StreamingClient.FeedAllEffect | streaming_client.py:304-322 | A fed player stores and queues exactly the decoded payloads, in arrival order. Its total is the last announced one, with the count and the event reset, or untouched if nothing was announced. The worker's fields are untouched. |
| StreamingClient.FeedAllStep | streaming_client.py:304-322 | Feeding one more message to the player is one more `FeedOne` step after the earlier ones. |
| StreamingClient.ConsumedWithoutEnd | streaming_client.py:300-330 | Without a final chunk or an error, the loop reads every message, and the exit says how the stream ended. |
| StreamingClient.NoiseIgnored | streaming_client.py:332-336 | Unknown message types and unparsable frames change neither the total, nor the count, nor the stored payloads. |
| StreamingClient.ChunksAppended | streaming_client.py:311-322 | Each audio chunk adds exactly one to `chunks_received` and leaves the total alone; with decodable payloads each adds one stored payload. |
| StreamingClient.ConformingStream | streaming_client.py:296-326 | For a protocol-conforming stream (`info` n, then n chunks with only the last final), everything is read: the total and the count are n, the exit is the final chunk, and n payloads are stored when all decode. |
| StreamingClient.AfterStreamEffect | streaming_client.py:267-366 | Field by field, what `stream_tts` does to the player. Past the reference check it is always stopped, and a worker is launched only if playback was asked for and none was running. A failed connection changes nothing else. A connected call stores exactly the decoded payloads it read when playing. When it waits, the worker has taken the old queue and then those payloads, in order, and played the accepted ones; the total is the last announced one, the count is the number played, and the event is set iff the count reached the total. Without a wait the payloads stay queued, and the total is the last announced one, with the count and the event reset, or untouched. |
| StreamingClient.StreamingTtsClient.constructor | streaming_client.py:238-256 | The WebSocket URL is the rewrite of the server URL. A player exists exactly when playback is asked for and creating it did not raise. It is fresh, with an empty queue and store, zero counters and total, not playing, no worker launched, and the event clear. |
| StreamingClient.StreamingTtsClient.Dispatch | streaming_client.py:304-336 | One message: `info` sets the total, an audio chunk adds one to the count, and, when feeding, the player takes exactly one `FeedOne` step. |
| StreamingClient.StreamingTtsClient.ReceiveLoop | streaming_client.py:296-336 | Returns the consumed count, total, chunk count and exit given by the specification functions. The player ends in `FeedAll` of the consumed messages when `play_audio` holds, and is unchanged otherwise. |
| StreamingClient.StreamingTtsClient.AwaitAndSave | streaming_client.py:339-357 | It waits iff `play_audio` holds and the total is positive. When it waits, the player ends in `Drained` of its state before: the queue is empty, and the result is the event, set iff the count reached the total. Without a wait the player is unchanged. It then saves `SaveResult` of the unchanged store. |
| StreamingClient.StreamingTtsClient.Session | streaming_client.py:284-357 | The connected part: the loop results are the specification functions of the messages. It waits iff a player exists, `play_audio` holds, the announced total is positive and the loop ended normally. The player ends in `AfterSession` of its state: fed the messages read when playing, then drained when it waits. It saves iff a player exists and the loop ended normally. |
| StreamingClient.StreamingTtsClient.StreamTts | streaming_client.py:267-366 | A missing reference file returns first and leaves the player untouched. Otherwise the player ends in `AfterStream` of its old state, whose fields `AfterStreamEffect` gives; a failed connection only starts and stops it. When connected, the request carries the reference only if its encoding is non-empty, the report matches the loop's specification, and the store grows by the decoded payloads only with `play_audio`. It waits iff a player exists, `play_audio` holds, the total is positive and the loop ended normally, and then the queue is empty and the result says whether the count reached the total. It saves iff a player exists and the loop ended normally. The player is stopped on every path past the reference check. |
| ConnectionTest.FirstStop | test/test_connection.py:38-58 | The first frame that ends the test comes at or before the eleventh frame. Every frame before it parses, is neither final nor an error, and keeps the count within the limit. |
| ConnectionTest.FirstStopAt | test/test_connection.py:38-58 | The frame that ends the test is determined by the frames before it: the first frame that stops it. |
| ConnectionTest.TestConnection | test/test_connection.py:10-58 | The URL is the client's rewrite. The fixed request is sent only when connected. The result is `Probe` of the frames: the count is incremented before the final/error/limit checks, and an unparsable frame ends the test uncounted. |
| ConnectionTest.ProbeBounded | test/test_connection.py:41-54 | At most eleven frames are read. Every frame read is counted except an unparsable last one. The safety limit fires only at the eleventh response. |
| ConnectionTest.ProbeConformingStream | test/test_connection.py:37-54 | A conforming stream with at most ten chunks passes on its final chunk. A longer one is cut off by the safety limit after eleven responses, before its final chunk. |
| ConnectionTest.ProbeAgreesWithClient | test/test_connection.py:45-50 | When the test ends on a final chunk or an error, the client reads the same frames and exits the same way. |

## Left out

- Threads and timing. The worker thread, `queue.Queue` blocking, the
  `threading.Event` wait and the timeouts (`get(timeout=1)`, `join(timeout=2)`,
  `wait(30)`, `sleep(0.5)`) are not modelled. The worker runs only as
  `WorkerStep`, and during the wait as `WaitForCompletion`. Its interleaving
  with the receive loop is not modelled.
- Playback.AudioPlayer.WaitForCompletion: the 30-second timeout is not
  modelled. The wait always lets the worker drain the queue, so a wait that
  times out before the count is reached is not represented.
- Device playback. pygame and pyaudio, the mixer and stream set-up, and the
  choice between the two libraries are not modelled; `accept` says whether a
  payload plays without raising. The mid-chunk stop when `playing` is cleared
  during playback is timing-dependent.
- The transport and process plumbing: the websockets/asyncio transport, JSON
  parsing and the `argparse` entry point. The model takes the already
  classified frames. A JSON value that is not an object, and fields of the
  wrong type, are not modelled.
- Base64 and WAV internals. `base64.b64decode` and the `wave` module are the
  parameters `b64decode` and `wav`.
- The header of the combined file as stored on disk. `WavFile.params` is
  what `setparams` receives, so its `frameCount` is that of the first chunk
  that opens. The `wave` writer then patches the stored frame count to the
  number of frames actually written; that patching is not modelled.
- Default arguments. `StreamingTTSClient(server_url, enable_playback=True)`
  and `stream_tts(..., language="en", output_file="streaming_output.wav",
  play_audio=True)` have defaults; the model takes every value as a
  parameter, so the defaults are only the common case of each.
- File I/O. Files are modelled as `FileWrite` values. A write that fails part
  way through, after the file was opened, is not modelled.
- `encode_audio_file` errors other than a missing file. Only
  `FileNotFoundError` is caught. A path that exists but cannot be read, such
  as a directory or a file without read permission, raises out of
  `stream_tts`; that outcome is not modelled.
- `encode_audio_file`. Reading and base64-encoding the reference file is
  represented only by its outcome (`Reference`). An empty reference path,
  which the code treats as no reference, is the caller's `NoReference`.
- The other scripts: app.py, mul_app.py, mul_vc_app.py, client.py,
  mul_client.py, mul_vc.py, test/mul_client.py, test/test_streaming.py and
  test/test_streaming_simple.py. They are not part of this model: they are
  single HTTP wrappers or drivers with no state machine of their own.
- The server's sentence chunker and streaming session. They are not part of
  this model, because their source is not among the repository files modelled
  here.
