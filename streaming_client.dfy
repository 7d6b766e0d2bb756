/**
 * The streaming client (`StreamingTTSClient`): the URL it connects to, and
 * `stream_tts`, which sends one request, dispatches the server's messages in
 * order, feeds the audio player, then waits for playback and saves.
 *
 * The connection is abstracted: `connects` says whether it opens, `msgs` is
 * the sequence of frames the server sends, already classified by the JSON
 * parser, and `closedCleanly` whether the stream then ends normally or with
 * a connection error.
 */
module StreamingClient {
  import opened Wrappers
  import opened Protocol
  import opened WebSocketUrl
  import opened Playback

  /** The reference-audio argument of `stream_tts`, after reading its file. */
  datatype Reference =
    | NoReference
    | ReferenceFile(encoded: string)   // the file's contents, base64-encoded
    | ReferenceMissing                 // the path does not name a file

  /** The JSON request sent on the connection. */
  datatype Request = Request(text: string, language: string, referenceAudio: Option<string>)

  /** How a `stream_tts` call ends. */
  datatype Exit =
    | ReferenceNotFound
    | ConnectFailed
    | FinalChunk
    | ServerError(message: string)
    | StreamEnded
    | ConnectionLost

  datatype Report = Report(
    request: Option<Request>,
    consumed: nat,          // messages read before the loop ended
    totalChunks: int,       // `total_chunks` after the loop
    chunksReceived: nat,    // `chunks_received` after the loop
    exit: Exit,
    waited: bool,           // whether it waited for playback to complete
    completed: bool,        // what that wait returned
    files: seq<FileWrite>)  // what the assembler wrote

  // ---------------------------------------------------------------------
  // Specification of the receive loop
  // ---------------------------------------------------------------------

  /** The messages after which the receive loop does not read another one. */
  predicate EndsLoop(m: Message)
  {
    (m.AudioChunk? && m.isFinal) || m.Error?
  }

  /**
   * How many messages the receive loop reads: up to and including the first
   * final chunk or error, or all of them if there is none.
   */
  function Consumed(msgs: seq<Message>): (n: nat)
    ensures n <= |msgs|
    ensures forall j :: 0 <= j < n - 1 ==> !EndsLoop(msgs[j])
    ensures n < |msgs| ==> 0 < n && EndsLoop(msgs[n - 1])
    ensures (forall j :: 0 <= j < |msgs| ==> !EndsLoop(msgs[j])) ==> n == |msgs|
  {
    if msgs == [] then 0
    else if EndsLoop(msgs[0]) then 1
    else 1 + Consumed(msgs[1..])
  }

  /** The announcement of the last `info` message among `p`, if any. */
  function LastInfo(p: seq<Message>): Option<int>
  {
    if p == [] then None
    else if p[|p| - 1].Info? then Some(p[|p| - 1].totalChunks)
    else LastInfo(p[..|p| - 1])
  }

  /** `total_chunks` after the messages `p`: 0 until an `info` arrives. */
  function TotalOf(p: seq<Message>): int
  {
    if LastInfo(p).Some? then LastInfo(p).value else 0
  }

  /** `chunks_received` after the messages `p`. */
  function ChunkCount(p: seq<Message>): nat
  {
    if p == [] then 0
    else ChunkCount(p[..|p| - 1]) + (if p[|p| - 1].AudioChunk? then 1 else 0)
  }

  /** The payloads of the chunks among `p` whose base64 decodes, in order. */
  function StoredPayloads(p: seq<Message>, b64decode: string -> Option<Bytes>): seq<Bytes>
  {
    if p == [] then []
    else
      var m := p[|p| - 1];
      StoredPayloads(p[..|p| - 1], b64decode)
        + (if m.AudioChunk? && b64decode(m.audioData).Some? then [b64decode(m.audioData).value] else [])
  }

  /** How the loop over `msgs` ends. */
  function ExitOf(msgs: seq<Message>, closedCleanly: bool): Exit
  {
    var n := Consumed(msgs);
    if n > 0 && EndsLoop(msgs[n - 1]) then
      if msgs[n - 1].Error? then ServerError(msgs[n - 1].error) else FinalChunk
    else if closedCleanly then StreamEnded
    else ConnectionLost
  }

  /** The exits after which the client waits for playback and saves. */
  predicate Saves(e: Exit)
  {
    e == FinalChunk || e == StreamEnded
  }

  /** The reference audio goes into the request only when its encoding is non-empty. */
  function RequestReference(reference: Reference): Option<string>
  {
    if reference.ReferenceFile? && reference.encoded != "" then Some(reference.encoded) else None
  }

  /** What one more message does to the tracked values. */
  lemma StepMessage(p: seq<Message>, m: Message, b64decode: string -> Option<Bytes>)
    ensures LastInfo(p + [m]) == if m.Info? then Some(m.totalChunks) else LastInfo(p)
    ensures ChunkCount(p + [m]) == ChunkCount(p) + (if m.AudioChunk? then 1 else 0)
    ensures StoredPayloads(p + [m], b64decode)
              == StoredPayloads(p, b64decode)
                 + (if m.AudioChunk? && b64decode(m.audioData).Some? then [b64decode(m.audioData).value] else [])
  {
    assert (p + [m])[..|p + [m]| - 1] == p;
  }

  /** The tracked values after the first `i + 1` messages, from those after the first `i`. */
  lemma PrefixStep(msgs: seq<Message>, i: nat, s: PlayerState, b64decode: string -> Option<Bytes>)
    requires i < |msgs|
    ensures TotalOf(msgs[..i + 1]) == if msgs[i].Info? then msgs[i].totalChunks else TotalOf(msgs[..i])
    ensures ChunkCount(msgs[..i + 1]) == ChunkCount(msgs[..i]) + (if msgs[i].AudioChunk? then 1 else 0)
    ensures FeedAll(s, msgs[..i + 1], b64decode) == FeedOne(FeedAll(s, msgs[..i], b64decode), msgs[i], b64decode)
  {
    assert msgs[..i + 1] == msgs[..i] + [msgs[i]];
    StepMessage(msgs[..i], msgs[i], b64decode);
    FeedAllStep(s, msgs[..i], msgs[i], b64decode);
  }

  /** The loop reads up to and including the first message that ends it. */
  lemma ConsumedAtFirstEnd(msgs: seq<Message>, k: nat)
    requires k < |msgs| && EndsLoop(msgs[k])
    requires forall j :: 0 <= j < k ==> !EndsLoop(msgs[j])
    ensures Consumed(msgs) == k + 1
    ensures ExitOf(msgs, true) == ExitOf(msgs, false)
              == if msgs[k].Error? then ServerError(msgs[k].error) else FinalChunk
  {
  }

  /**
   * What dispatching one message does to a player that is fed: `info` sets
   * a new expectation (`set_total_chunks`), an audio chunk whose payload
   * decodes is stored and queued (`add_chunk`); nothing else touches it.
   */
  function FeedOne(s: PlayerState, m: Message, b64decode: string -> Option<Bytes>): PlayerState
  {
    match m
    case Info(t) => s.(totalChunks := t, chunksPlayed := 0, finished := false)
    case AudioChunk(_, audioData, _, _) =>
      if b64decode(audioData).Some? then
        var d := b64decode(audioData).value;
        s.(queue := s.queue + [d], chunksData := s.chunksData + [d])
      else s
    case _ => s
  }

  /** The player's state after the messages `p` are dispatched to it in order. */
  function FeedAll(s: PlayerState, p: seq<Message>, b64decode: string -> Option<Bytes>): PlayerState
  {
    if p == [] then s else FeedOne(FeedAll(s, p[..|p| - 1], b64decode), p[|p| - 1], b64decode)
  }

  /**
   * A fed player stores and queues exactly the payloads that decode, in
   * arrival order; its expectation is the last announced total with the
   * count and the event reset, or untouched when nothing was announced;
   * the worker's fields are not touched.
   */
  lemma {:induction false} FeedAllEffect(s: PlayerState, p: seq<Message>, b64decode: string -> Option<Bytes>)
    ensures var r := FeedAll(s, p, b64decode);
            r.chunksData == s.chunksData + StoredPayloads(p, b64decode)
            && r.queue == s.queue + StoredPayloads(p, b64decode)
            && r.playing == s.playing && r.workerLaunches == s.workerLaunches
            && r.taken == s.taken && r.heard == s.heard
    ensures var r := FeedAll(s, p, b64decode);
            LastInfo(p).Some? ==>
              r.totalChunks == LastInfo(p).value && r.chunksPlayed == 0 && !r.finished
    ensures var r := FeedAll(s, p, b64decode);
            LastInfo(p).None? ==>
              r.totalChunks == s.totalChunks && r.chunksPlayed == s.chunksPlayed && r.finished == s.finished
  {
    if p != [] {
      var front, m := p[..|p| - 1], p[|p| - 1];
      FeedAllEffect(s, front, b64decode);
      StepMessage(front, m, b64decode);
      assert front + [m] == p;
    }
  }

  /** Feeding one more message is one more FeedOne step. */
  lemma FeedAllStep(s: PlayerState, p: seq<Message>, m: Message, b64decode: string -> Option<Bytes>)
    ensures FeedAll(s, p + [m], b64decode) == FeedOne(FeedAll(s, p, b64decode), m, b64decode)
  {
    assert (p + [m])[..|p + [m]| - 1] == p;
  }

  /** Without a message that ends it, the loop reads everything and the exit is how the stream ended. */
  lemma ConsumedWithoutEnd(msgs: seq<Message>, closedCleanly: bool)
    requires forall j :: 0 <= j < |msgs| ==> !EndsLoop(msgs[j])
    ensures Consumed(msgs) == |msgs|
    ensures ExitOf(msgs, closedCleanly) == if closedCleanly then StreamEnded else ConnectionLost
  {
  }

  /** The messages with unknown types and unparsable frames left out. */
  function WithoutNoise(p: seq<Message>): seq<Message>
  {
    if p == [] then []
    else
      var m := p[|p| - 1];
      WithoutNoise(p[..|p| - 1]) + (if m.Unknown? || m.Malformed? then [] else [m])
  }

  /** Unknown message types and unparsable frames are skipped: they change nothing the loop tracks. */
  lemma {:induction false} NoiseIgnored(p: seq<Message>, b64decode: string -> Option<Bytes>)
    ensures LastInfo(WithoutNoise(p)) == LastInfo(p)
    ensures ChunkCount(WithoutNoise(p)) == ChunkCount(p)
    ensures StoredPayloads(WithoutNoise(p), b64decode) == StoredPayloads(p, b64decode)
  {
    if p != [] {
      var front, m := p[..|p| - 1], p[|p| - 1];
      NoiseIgnored(front, b64decode);
      if m.Unknown? || m.Malformed? {
        assert WithoutNoise(p) == WithoutNoise(front) + [];
        assert WithoutNoise(front) + [] == WithoutNoise(front);
      } else {
        var w := WithoutNoise(front) + [m];
        assert WithoutNoise(p) == w;
        assert w[..|w| - 1] == WithoutNoise(front);
        assert w[|w| - 1] == m;
      }
    }
  }

  /** Appending audio chunks adds one to the count per chunk and leaves the announced total alone. */
  lemma {:induction false} ChunksAppended(p: seq<Message>, cs: seq<Message>, b64decode: string -> Option<Bytes>)
    requires forall i :: 0 <= i < |cs| ==> cs[i].AudioChunk?
    ensures ChunkCount(p + cs) == ChunkCount(p) + |cs|
    ensures LastInfo(p + cs) == LastInfo(p)
    ensures (forall i :: 0 <= i < |cs| ==> b64decode(cs[i].audioData).Some?) ==>
              |StoredPayloads(p + cs, b64decode)| == |StoredPayloads(p, b64decode)| + |cs|
  {
    if cs == [] {
      assert p + cs == p;
    } else {
      var n := |cs| - 1;
      assert (p + cs)[..|p + cs| - 1] == p + cs[..n];
      assert (p + cs)[|p + cs| - 1] == cs[n];
      ChunksAppended(p, cs[..n], b64decode);
    }
  }

  /**
   * A stream that keeps to the protocol (one `info` announcing n, then n
   * audio chunks of which only the last is final) is read to its end: the
   * client counts n chunks, records n as the total, stores every payload
   * that decodes, and leaves the loop on the final chunk.
   */
  lemma ConformingStream(n: nat, cs: seq<Message>, closedCleanly: bool, b64decode: string -> Option<Bytes>)
    requires n > 0 && |cs| == n
    requires forall i :: 0 <= i < n ==> cs[i].AudioChunk? && (cs[i].isFinal <==> i == n - 1)
    ensures var msgs := [Info(n)] + cs;
            Consumed(msgs) == |msgs| && TotalOf(msgs) == n && ChunkCount(msgs) == n
            && ExitOf(msgs, closedCleanly) == FinalChunk
    ensures (forall i :: 0 <= i < n ==> b64decode(cs[i].audioData).Some?) ==>
              |StoredPayloads([Info(n)] + cs, b64decode)| == n
  {
    var msgs := [Info(n)] + cs;
    ChunksAppended([Info(n)], cs, b64decode);
    assert [Info(n)][..0] == [];
    assert LastInfo([Info(n)]) == Some(n);
    assert ChunkCount([Info(n)]) == 0;
    assert StoredPayloads([Info(n)], b64decode) == [];
    assert forall j :: 1 <= j < |msgs| ==> msgs[j] == cs[j - 1];
    assert forall j :: 0 <= j < |msgs| - 1 ==> !EndsLoop(msgs[j]);
    assert EndsLoop(msgs[|msgs| - 1]);
  }

  /**
   * The player's state after a `stream_tts` call, from its state before: a
   * missing reference file leaves it alone; otherwise playback is started
   * when asked for, the consumed messages are fed to it when playing, the
   * worker drains it when the call waits, and it is stopped at the end.
   */
  function AfterStream(s: PlayerState, reference: Reference, connects: bool, msgs: seq<Message>,
                       closedCleanly: bool, playAudio: bool, b64decode: string -> Option<Bytes>,
                       accept: Bytes -> bool): PlayerState
  {
    if reference.ReferenceMissing? then s
    else
      var started := if playAudio then Started(s) else s;
      if !connects then started.(playing := false)
      else AfterSession(started, msgs, closedCleanly, playAudio, b64decode, accept).(playing := false)
  }

  /**
   * The player's state after a connected session, from its state when the
   * connection opened: the messages read are fed to it when playing, and
   * the worker drains it when the session waits.
   */
  function AfterSession(s: PlayerState, msgs: seq<Message>, closedCleanly: bool, playAudio: bool,
                        b64decode: string -> Option<Bytes>, accept: Bytes -> bool): PlayerState
  {
    var fed := if playAudio then FeedAll(s, msgs[..Consumed(msgs)], b64decode) else s;
    if Waits(msgs, closedCleanly, playAudio) then Drained(fed, accept) else fed
  }

  /** Whether a connected `stream_tts` call waits for playback to complete. */
  predicate Waits(msgs: seq<Message>, closedCleanly: bool, playAudio: bool)
  {
    playAudio && TotalOf(msgs[..Consumed(msgs)]) > 0 && Saves(ExitOf(msgs, closedCleanly))
  }

  /**
   * What a `stream_tts` call does to the player, field by field. Past the
   * reference check it is always stopped, and a worker is launched only if
   * playback was asked for and none was running. A failed connection
   * touches nothing else. A connected call stores exactly the decoded
   * payloads it read when playing. When it waits, the worker has taken the
   * old queue and then those payloads, in order, and played the accepted
   * ones; the expectation is the last announced total, the count is the
   * number played since, and the event is set iff that count reached it.
   * When it does not wait, the payloads are still queued and the
   * expectation is the last announced total, or untouched without one.
   */
  lemma AfterStreamEffect(s: PlayerState, reference: Reference, connects: bool, msgs: seq<Message>,
                          closedCleanly: bool, playAudio: bool, b64decode: string -> Option<Bytes>,
                          accept: Bytes -> bool)
    ensures var r := AfterStream(s, reference, connects, msgs, closedCleanly, playAudio, b64decode, accept);
            reference.ReferenceMissing? ==> r == s
    ensures var r := AfterStream(s, reference, connects, msgs, closedCleanly, playAudio, b64decode, accept);
            !reference.ReferenceMissing? ==>
              !r.playing && r.workerLaunches == s.workerLaunches + (if playAudio && !s.playing then 1 else 0)
    ensures var r := AfterStream(s, reference, connects, msgs, closedCleanly, playAudio, b64decode, accept);
            !reference.ReferenceMissing? && !connects ==>
              r.queue == s.queue && r.chunksData == s.chunksData && r.totalChunks == s.totalChunks
              && r.chunksPlayed == s.chunksPlayed && r.finished == s.finished
              && r.taken == s.taken && r.heard == s.heard
    ensures var r := AfterStream(s, reference, connects, msgs, closedCleanly, playAudio, b64decode, accept);
            var read := msgs[..Consumed(msgs)];
            var stored := if playAudio then StoredPayloads(read, b64decode) else [];
            !reference.ReferenceMissing? && connects ==>
              r.chunksData == s.chunksData + stored
              && (Waits(msgs, closedCleanly, playAudio) ==>
                    r.queue == [] && r.taken == s.taken + (s.queue + stored)
                    && r.heard == s.heard + Accepted(s.queue + stored, accept)
                    && r.totalChunks == TotalOf(read)
                    && r.chunksPlayed == |Accepted(s.queue + stored, accept)|
                    && (r.finished <==> r.chunksPlayed >= r.totalChunks))
              && (!Waits(msgs, closedCleanly, playAudio) ==>
                    r.queue == s.queue + stored && r.taken == s.taken && r.heard == s.heard
                    && (playAudio && LastInfo(read).Some? ==>
                          r.totalChunks == LastInfo(read).value && r.chunksPlayed == 0 && !r.finished)
                    && (!(playAudio && LastInfo(read).Some?) ==>
                          r.totalChunks == s.totalChunks && r.chunksPlayed == s.chunksPlayed
                          && r.finished == s.finished))
  {
    if !reference.ReferenceMissing? && connects && playAudio {
      FeedAllEffect(Started(s), msgs[..Consumed(msgs)], b64decode);
    }
  }

  // ---------------------------------------------------------------------
  // The client
  // ---------------------------------------------------------------------

  class StreamingTtsClient {
    const wsUrl: string
    const enablePlayback: bool
    const player: AudioPlayer?

    /** A player exists exactly when playback is enabled, and it is consistent. */
    ghost predicate Valid()
      reads this, player
    {
      (player != null) == enablePlayback &&
      (player != null ==> player.Valid())
    }

    /**
     * `__init__`: the WebSocket URL is derived from the server URL; a player
     * exists exactly when playback is asked for and creating it did not
     * raise (`playerCreated`: an audio library is present and initialising
     * it succeeded). `enablePlayback` defaults to true in the source.
     */
    constructor (serverUrl: string, enablePlayback: bool, playerCreated: bool)
      ensures wsUrl == ToWebSocketUrl(serverUrl)
      ensures this.enablePlayback == (enablePlayback && playerCreated)
      ensures Valid() && (player != null) == this.enablePlayback
      ensures player != null ==>
                fresh(player) && player.State() == PlayerState([], false, 0, [], 0, 0, false, [], [])
    {
      wsUrl := ToWebSocketUrl(serverUrl);
      if enablePlayback && playerCreated {
        var p := new AudioPlayer();
        player := p;
        this.enablePlayback := true;
      } else {
        player := null;
        this.enablePlayback := false;
      }
    }

    /**
     * The dispatch of one message in the receive loop of `stream_tts`:
     * `info` records the total, an audio chunk is counted, and, when
     * `feed`, the player gets the total or the chunk; `error`, unknown
     * types and unparsable frames change nothing tracked here.
     */
    method Dispatch(m: Message, feed: bool, b64decode: string -> Option<Bytes>,
                    totalChunks: int, chunksReceived: nat)
      returns (newTotal: int, newReceived: nat)
      requires Valid() && (feed ==> player != null)
      modifies player
      ensures Valid()
      ensures newTotal == if m.Info? then m.totalChunks else totalChunks
      ensures newReceived == chunksReceived + (if m.AudioChunk? then 1 else 0)
      ensures player != null ==>
                player.State() == if feed then FeedOne(old(player.State()), m, b64decode) else old(player.State())
    {
      newTotal, newReceived := totalChunks, chunksReceived;
      match m {
        case Info(t) =>
          newTotal := t;
          if feed { player.SetTotalChunks(t); }
        case AudioChunk(_, audioData, _, _) =>
          newReceived := chunksReceived + 1;
          if feed { player.AddChunk(audioData, b64decode); }
        case Error(_) =>
        case Unknown =>
        case Malformed =>
      }
    }

    /**
     * The receive loop of `stream_tts` (`async for message in websocket`):
     * each message is dispatched in turn, and the loop leaves after the
     * first final chunk or error, or when the stream ends.
     */
    method ReceiveLoop(msgs: seq<Message>, closedCleanly: bool, playAudio: bool,
                       b64decode: string -> Option<Bytes>)
      returns (consumed: nat, totalChunks: int, chunksReceived: nat, exit: Exit)
      requires Valid()
      modifies player
      ensures Valid()
      ensures consumed == Consumed(msgs)
      ensures totalChunks == TotalOf(msgs[..consumed])
      ensures chunksReceived == ChunkCount(msgs[..consumed])
      ensures exit == ExitOf(msgs, closedCleanly)
      ensures player != null ==>
                player.State() == if playAudio then FeedAll(old(player.State()), msgs[..consumed], b64decode)
                                  else old(player.State())
    {
      var feed := player != null && playAudio;
      ghost var s0 := if player != null then player.State() else PlayerState([], false, 0, [], 0, 0, false, [], []);
      totalChunks := 0;
      chunksReceived := 0;
      exit := if closedCleanly then StreamEnded else ConnectionLost;
      var i := 0;
      var done := false;
      while i < |msgs| && !done
        invariant 0 <= i <= |msgs|
        invariant done ==> Consumed(msgs) == i && exit == ExitOf(msgs, closedCleanly)
        invariant !done ==> (forall j :: 0 <= j < i ==> !EndsLoop(msgs[j]))
                            && exit == if closedCleanly then StreamEnded else ConnectionLost
        invariant totalChunks == TotalOf(msgs[..i]) && chunksReceived == ChunkCount(msgs[..i])
        invariant Valid()
        invariant player != null ==>
                    player.State() == if feed then FeedAll(s0, msgs[..i], b64decode) else s0
      {
        var m := msgs[i];
        PrefixStep(msgs, i, s0, b64decode);
        totalChunks, chunksReceived := Dispatch(m, feed, b64decode, totalChunks, chunksReceived);
        if EndsLoop(m) {
          ConsumedAtFirstEnd(msgs, i);
          exit := if m.Error? then ServerError(m.error) else FinalChunk;
          done := true;
        }
        i := i + 1;
      }
      if !done {
        ConsumedWithoutEnd(msgs, closedCleanly);
      }
      consumed := i;
    }

    /**
     * The end of a normal `stream_tts` run with a player: with `playAudio`
     * and a positive announced total it waits for the worker to finish,
     * then it saves the stored chunks.
     */
    method AwaitAndSave(playAudio: bool, totalChunks: int, outputFile: string,
                        wav: Bytes -> WavRead, accept: Bytes -> bool, writable: string -> bool)
      returns (waited: bool, completed: bool, files: seq<FileWrite>)
      requires Valid() && player != null
      requires playAudio ==> player.playing
      requires playAudio && totalChunks > 0 ==> player.totalChunks == totalChunks
      modifies player
      ensures Valid()
      ensures waited == (playAudio && totalChunks > 0)
      ensures player.chunksData == old(player.chunksData) && player.totalChunks == old(player.totalChunks)
      ensures waited ==> player.queue == [] && (completed <==> player.chunksPlayed >= totalChunks)
      ensures player.State() == if waited then Drained(old(player.State()), accept) else old(player.State())
      ensures completed == (waited && player.finished)
      ensures files == SaveResult(player.chunksData, outputFile, wav, writable)
    {
      waited, completed := false, false;
      if playAudio && totalChunks > 0 {
        completed := player.WaitForCompletion(accept);
        waited := true;
      }
      files := player.SaveCombinedAudio(outputFile, wav, writable);
    }

    /**
     * The connected part of `stream_tts`, once the request is sent: the
     * receive loop, then, if it ended normally and a player exists, the
     * wait for playback (with `playAudio` and a positive announced total)
     * and the save.
     */
    method Session(msgs: seq<Message>, closedCleanly: bool, outputFile: string, playAudio: bool,
                   b64decode: string -> Option<Bytes>, wav: Bytes -> WavRead,
                   accept: Bytes -> bool, writable: string -> bool)
      returns (consumed: nat, totalChunks: int, chunksReceived: nat, exit: Exit,
               waited: bool, completed: bool, files: seq<FileWrite>)
      requires Valid() && (player != null && playAudio ==> player.playing)
      modifies player
      ensures Valid()
      ensures consumed == Consumed(msgs)
      ensures totalChunks == TotalOf(msgs[..consumed])
      ensures chunksReceived == ChunkCount(msgs[..consumed])
      ensures exit == ExitOf(msgs, closedCleanly)
      ensures waited <==> player != null && Waits(msgs, closedCleanly, playAudio)
      ensures completed == (waited && player.finished)
      ensures player != null ==>
                player.State() == AfterSession(old(player.State()), msgs, closedCleanly, playAudio, b64decode, accept)
      ensures player != null && Saves(exit) ==> files == SaveResult(player.chunksData, outputFile, wav, writable)
      ensures !(player != null && Saves(exit)) ==> files == []
    {
      consumed, totalChunks, chunksReceived, exit := ReceiveLoop(msgs, closedCleanly, playAudio, b64decode);
      if player != null {
        FeedAllEffect(old(player.State()), msgs[..consumed], b64decode);
      }
      waited, completed, files := false, false, [];
      if player != null && Saves(exit) {
        waited, completed, files := AwaitAndSave(playAudio, totalChunks, outputFile, wav, accept, writable);
      }
    }

    /**
     * `stream_tts`. A missing reference file ends the call before anything
     * else; otherwise playback starts (if enabled and asked for), the
     * request is sent and the receive loop runs. An `error` message or a
     * lost connection ends the call before any waiting or saving; waiting
     * happens only with `playAudio` and a positive announced total; saving
     * happens whenever a player exists and the loop ended normally; the
     * player is stopped on every path past the reference check. The
     * source's defaults are `language = "en"`, `outputFile =
     * "streaming_output.wav"` and `playAudio = true`.
     */
    method StreamTts(text: string, language: string, reference: Reference, connects: bool,
                     msgs: seq<Message>, closedCleanly: bool, outputFile: string, playAudio: bool,
                     b64decode: string -> Option<Bytes>, wav: Bytes -> WavRead,
                     accept: Bytes -> bool, writable: string -> bool)
      returns (report: Report)
      requires Valid()
      modifies player
      ensures Valid()
      ensures reference.ReferenceMissing? ==>
                report == Report(None, 0, 0, 0, ReferenceNotFound, false, false, [])
                && (player != null ==> unchanged(player))
      ensures !reference.ReferenceMissing? && !connects ==>
                report == Report(None, 0, 0, 0, ConnectFailed, false, false, [])
      ensures !reference.ReferenceMissing? && connects ==>
                report.request == Some(Request(text, language, RequestReference(reference)))
                && report.consumed == Consumed(msgs)
                && report.totalChunks == TotalOf(msgs[..report.consumed])
                && report.chunksReceived == ChunkCount(msgs[..report.consumed])
                && report.exit == ExitOf(msgs, closedCleanly)
      ensures player != null && !reference.ReferenceMissing? ==> !player.playing
      ensures player != null ==>
                player.State() == AfterStream(old(player.State()), reference, connects, msgs, closedCleanly,
                                              playAudio, b64decode, accept)
      ensures player != null && connects && !reference.ReferenceMissing? ==>
                player.chunksData == old(player.chunksData)
                  + (if playAudio then StoredPayloads(msgs[..report.consumed], b64decode) else [])
      ensures report.waited <==> player != null && playAudio && report.totalChunks > 0 && Saves(report.exit)
      ensures report.completed == (report.waited && player.finished)
      ensures report.waited ==>
                player.queue == [] && player.totalChunks == report.totalChunks
                && (report.completed <==> player.chunksPlayed >= report.totalChunks)
      ensures player != null && Saves(report.exit) ==>
                report.files == SaveResult(player.chunksData, outputFile, wav, writable)
      ensures !(player != null && Saves(report.exit)) ==> report.files == []
    {
      if reference.ReferenceMissing? {
        return Report(None, 0, 0, 0, ReferenceNotFound, false, false, []);
      }
      if enablePlayback && playAudio && player != null {
        player.StartPlayback();
      }
      if !connects {
        if player != null { player.Cleanup(); }
        return Report(None, 0, 0, 0, ConnectFailed, false, false, []);
      }
      var request := Request(text, language, RequestReference(reference));
      var consumed, totalChunks, chunksReceived, exit, waited, completed, files :=
        Session(msgs, closedCleanly, outputFile, playAudio, b64decode, wav, accept, writable);
      if player != null {
        player.Cleanup();
        AfterStreamEffect(old(player.State()), reference, connects, msgs, closedCleanly, playAudio, b64decode, accept);
      }
      report := Report(Some(request), consumed, totalChunks, chunksReceived, exit, waited, completed, files);
    }
  }
}
