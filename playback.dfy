/**
 * The client's playback engine (`AudioPlayer`): the queue the receiver fills
 * and the playback worker drains, the store of every received payload, the
 * played/total counters with the completion flag, and the assembler that
 * turns the store into one WAV file or, failing that, one file per chunk.
 *
 * The worker thread is modelled by its loop body (WorkerStep) and by the
 * worker running until the queue is empty (WaitForCompletion). Library
 * calls are parameters: `b64decode` (base64), `wav` (reading a WAV
 * container), `accept` (whether the audio device plays a payload without an
 * exception) and `writable` (whether a file of that name can be written).
 */
module Playback {
  import opened Wrappers
  import opened Protocol
  import opened ChunkFiles

  /** What `getparams()` returns: the sample format and container header. */
  datatype WavParams = WavParams(channels: int, sampleWidth: int, frameRate: int, frameCount: int, compression: string)

  /**
   * Reading one payload as a WAV container: it may not open at all, it may
   * open (so its header is read) but fail when its frames are read, or give
   * both header and frames.
   */
  datatype WavRead =
    | Unreadable
    | HeaderOnly(params: WavParams)
    | Decoded(params: WavParams, frames: Bytes)

  /**
   * One file the assembler writes. A `WavFile`'s `params` is what
   * `setparams` receives; the header written to disk is not modelled, and
   * there the writer replaces `params.frameCount` with the number of frames
   * actually written.
   */
  datatype FileWrite =
    | WavFile(name: string, params: WavParams, frames: Bytes)
    | RawFile(name: string, data: Bytes)

  /** The payloads of `q` that the device plays, in queue order. */
  function Accepted(q: seq<Bytes>, accept: Bytes -> bool): (r: seq<Bytes>)
    ensures |r| <= |q|
  {
    if q == [] then []
    else Accepted(q[..|q| - 1], accept) + (if accept(q[|q| - 1]) then [q[|q| - 1]] else [])
  }

  /** When the device plays every payload, all of them are played. */
  lemma {:induction false} AcceptedAll(q: seq<Bytes>, accept: Bytes -> bool)
    requires forall i :: 0 <= i < |q| ==> accept(q[i])
    ensures Accepted(q, accept) == q
    decreases |q|
  {
    if q != [] {
      var p := q[..|q| - 1];
      forall i | 0 <= i < |p|
        ensures accept(p[i])
      {
        assert p[i] == q[i];
      }
      AcceptedAll(p, accept);
      assert p + [q[|q| - 1]] == q;
    }
  }

  /** One more queued payload is played, or not, after the earlier ones. */
  lemma AcceptedStep(q: seq<Bytes>, x: Bytes, accept: Bytes -> bool)
    ensures Accepted(q + [x], accept) == Accepted(q, accept) + (if accept(x) then [x] else [])
  {
    assert (q + [x])[..|q + [x]| - 1] == q;
  }

  // ---------------------------------------------------------------------
  // Specification of the assembler
  // ---------------------------------------------------------------------

  /** The header a read yields, if the container opened. */
  function HeaderOf(r: WavRead): Option<WavParams>
  {
    if r.Unreadable? then None else Some(r.params)
  }

  /** The frames a read yields; none unless the frames were read too. */
  function FramesOf(r: WavRead): Bytes
  {
    if r.Decoded? then r.frames else []
  }

  /** `params` after the assembler's loop over `chunks`: the header of the first chunk that opens. */
  function FirstParams(chunks: seq<Bytes>, wav: Bytes -> WavRead): Option<WavParams>
  {
    if chunks == [] then None
    else
      var earlier := FirstParams(chunks[..|chunks| - 1], wav);
      if earlier.Some? then earlier else HeaderOf(wav(chunks[|chunks| - 1]))
  }

  /** `all_frames` after the assembler's loop over `chunks`. */
  function JoinedFrames(chunks: seq<Bytes>, wav: Bytes -> WavRead): Bytes
  {
    if chunks == [] then []
    else JoinedFrames(chunks[..|chunks| - 1], wav) + FramesOf(wav(chunks[|chunks| - 1]))
  }

  /** The fallback: chunk `i` as `chunk_NNN.wav`, in index order, skipping names that cannot be written. */
  function FallbackWrites(chunks: seq<Bytes>, writable: string -> bool): seq<FileWrite>
  {
    if chunks == [] then []
    else
      var i := |chunks| - 1;
      FallbackWrites(chunks[..i], writable)
        + (if writable(ChunkFileName(i)) then [RawFile(ChunkFileName(i), chunks[i])] else [])
  }

  /** The files `save_combined_audio` writes for the stored chunks. */
  function SaveResult(chunks: seq<Bytes>, outputFile: string, wav: Bytes -> WavRead,
                      writable: string -> bool): seq<FileWrite>
  {
    if chunks == [] then []
    else
      var params := FirstParams(chunks, wav);
      var frames := JoinedFrames(chunks, wav);
      if params.Some? && frames != [] && writable(outputFile)
      then [WavFile(outputFile, params.value, frames)]
      else FallbackWrites(chunks, writable)
  }

  /** The assembler's first loop with one more chunk: its header counts only if none came before. */
  lemma AssembleStep(chunks: seq<Bytes>, i: nat, wav: Bytes -> WavRead)
    requires i < |chunks|
    ensures FirstParams(chunks[..i + 1], wav)
              == if FirstParams(chunks[..i], wav).Some? then FirstParams(chunks[..i], wav) else HeaderOf(wav(chunks[i]))
    ensures JoinedFrames(chunks[..i + 1], wav) == JoinedFrames(chunks[..i], wav) + FramesOf(wav(chunks[i]))
  {
    assert chunks[..i + 1][..i] == chunks[..i];
  }

  /** The fallback loop with one more chunk. */
  lemma FallbackStep(chunks: seq<Bytes>, i: nat, writable: string -> bool)
    requires i < |chunks|
    ensures FallbackWrites(chunks[..i + 1], writable)
              == FallbackWrites(chunks[..i], writable)
                 + (if writable(ChunkFileName(i)) then [RawFile(ChunkFileName(i), chunks[i])] else [])
  {
    assert chunks[..i + 1][..i] == chunks[..i];
  }

  /** The header used is the first one that opens; it is absent exactly when no chunk opens. */
  lemma {:induction false} FirstParamsIsFirst(chunks: seq<Bytes>, wav: Bytes -> WavRead)
    ensures FirstParams(chunks, wav).None? <==> forall i :: 0 <= i < |chunks| ==> wav(chunks[i]).Unreadable?
    ensures FirstParams(chunks, wav).Some? ==>
              exists i :: 0 <= i < |chunks| && !wav(chunks[i]).Unreadable?
                && FirstParams(chunks, wav).value == wav(chunks[i]).params
                && forall j :: 0 <= j < i ==> wav(chunks[j]).Unreadable?
  {
    if chunks != [] {
      var n := |chunks| - 1;
      var front := chunks[..n];
      FirstParamsIsFirst(front, wav);
      assert forall i :: 0 <= i < n ==> chunks[i] == front[i];
      if FirstParams(front, wav).Some? {
        var i :| 0 <= i < |front| && !wav(front[i]).Unreadable?
                 && FirstParams(front, wav).value == wav(front[i]).params
                 && forall j :: 0 <= j < i ==> wav(front[j]).Unreadable?;
        assert chunks[i] == front[i];
      } else if !wav(chunks[n]).Unreadable? {
        assert FirstParams(chunks, wav).value == wav(chunks[n]).params;
      }
    }
  }

  /** Frames are concatenated in chunk order. */
  lemma {:induction false} JoinedFramesAppend(a: seq<Bytes>, b: seq<Bytes>, wav: Bytes -> WavRead)
    ensures JoinedFrames(a + b, wav) == JoinedFrames(a, wav) + JoinedFrames(b, wav)
  {
    if b == [] {
      assert a + b == a;
    } else {
      var n := |b| - 1;
      assert (a + b)[..|a + b| - 1] == a + b[..n];
      assert (a + b)[|a + b| - 1] == b[n];
      JoinedFramesAppend(a, b[..n], wav);
      calc {
        JoinedFrames(a + b, wav);
        JoinedFrames(a + b[..n], wav) + FramesOf(wav(b[n]));
        (JoinedFrames(a, wav) + JoinedFrames(b[..n], wav)) + FramesOf(wav(b[n]));
        JoinedFrames(a, wav) + (JoinedFrames(b[..n], wav) + FramesOf(wav(b[n])));
        JoinedFrames(a, wav) + JoinedFrames(b, wav);
      }
    }
  }

  /** A chunk whose frames cannot be read contributes nothing: it is skipped. */
  lemma JoinedFramesSkipsUnreadable(a: seq<Bytes>, c: Bytes, b: seq<Bytes>, wav: Bytes -> WavRead)
    requires !wav(c).Decoded?
    ensures JoinedFrames(a + [c] + b, wav) == JoinedFrames(a + b, wav)
  {
    var p := a + [c];
    JoinedFramesAppend(p, b, wav);
    JoinedFramesAppend(a, b, wav);
    assert p[..|p| - 1] == a && p[|p| - 1] == c;
    assert JoinedFrames(p, wav) == JoinedFrames(a, wav) + FramesOf(wav(c)) == JoinedFrames(a, wav);
  }

  /** When every name can be written, the fallback writes each stored chunk unchanged, in index order. */
  lemma {:induction false} FallbackWritesEveryChunk(chunks: seq<Bytes>, writable: string -> bool)
    requires forall i :: 0 <= i < |chunks| ==> writable(ChunkFileName(i))
    ensures |FallbackWrites(chunks, writable)| == |chunks|
    ensures forall i :: 0 <= i < |chunks| ==>
              FallbackWrites(chunks, writable)[i] == RawFile(ChunkFileName(i), chunks[i])
  {
    if chunks != [] {
      var n := |chunks| - 1;
      var front := chunks[..n];
      FallbackWritesEveryChunk(front, writable);
      var w := FallbackWrites(front, writable);
      assert FallbackWrites(chunks, writable) == w + [RawFile(ChunkFileName(n), chunks[n])];
      forall i | 0 <= i < n
        ensures FallbackWrites(chunks, writable)[i] == RawFile(ChunkFileName(i), chunks[i])
      {
        assert w[i] == RawFile(ChunkFileName(i), front[i]);
        assert front[i] == chunks[i];
      }
    }
  }

  /** The joined frames contain the frames of every chunk that reads, so one such chunk makes them non-empty. */
  lemma JoinedFramesContain(chunks: seq<Bytes>, k: nat, wav: Bytes -> WavRead)
    requires k < |chunks|
    ensures |JoinedFrames(chunks, wav)| >= |FramesOf(wav(chunks[k]))|
  {
    var p := chunks[..k + 1];
    assert chunks == p + chunks[k + 1..];
    JoinedFramesAppend(p, chunks[k + 1..], wav);
    assert p[..|p| - 1] == chunks[..k];
    assert JoinedFrames(p, wav) == JoinedFrames(chunks[..k], wav) + FramesOf(wav(chunks[k]));
  }

  /**
   * One combined file is written whenever some chunk yields frames and the
   * output can be written; its header is the first header that opened,
   * whether or not later chunks share that format.
   */
  lemma CombinedWhenSomeFrames(chunks: seq<Bytes>, k: nat, outputFile: string,
                               wav: Bytes -> WavRead, writable: string -> bool)
    requires k < |chunks| && wav(chunks[k]).Decoded? && wav(chunks[k]).frames != []
    requires writable(outputFile)
    ensures FirstParams(chunks, wav).Some?
    ensures SaveResult(chunks, outputFile, wav, writable)
              == [WavFile(outputFile, FirstParams(chunks, wav).value, JoinedFrames(chunks, wav))]
  {
    assert FirstParams(chunks, wav).Some? by {
      FirstParamsIsFirst(chunks, wav);
      assert !wav(chunks[k]).Unreadable?;
    }
    JoinedFramesContain(chunks, k, wav);
  }

  /** If no chunk opens, nothing is lost: with writable names every chunk gets its own file. */
  lemma FallbackWhenNoneOpens(chunks: seq<Bytes>, outputFile: string,
                              wav: Bytes -> WavRead, writable: string -> bool)
    requires forall i :: 0 <= i < |chunks| ==> wav(chunks[i]).Unreadable?
    requires forall i :: 0 <= i < |chunks| ==> writable(ChunkFileName(i))
    ensures |SaveResult(chunks, outputFile, wav, writable)| == |chunks|
    ensures forall i :: 0 <= i < |chunks| ==>
              SaveResult(chunks, outputFile, wav, writable)[i] == RawFile(ChunkFileName(i), chunks[i])
  {
    FirstParamsIsFirst(chunks, wav);
    FallbackWritesEveryChunk(chunks, writable);
  }

  // ---------------------------------------------------------------------
  // The player
  // ---------------------------------------------------------------------

  /** The fields of an AudioPlayer, as one value. */
  datatype PlayerState = PlayerState(
    queue: seq<Bytes>, playing: bool, workerLaunches: nat, chunksData: seq<Bytes>,
    chunksPlayed: int, totalChunks: int, finished: bool, taken: seq<Bytes>, heard: seq<Bytes>)

  /** `start_playback` on a player's state: a worker is launched only if none is running. */
  function Started(s: PlayerState): (r: PlayerState)
    ensures r.playing && r.queue == s.queue && r.chunksData == s.chunksData
    ensures r.workerLaunches == s.workerLaunches + (if s.playing then 0 else 1)
  {
    s.(playing := true, workerLaunches := if s.playing then s.workerLaunches else s.workerLaunches + 1)
  }

  /** The worker's completion condition: the played count has reached a positive total. */
  predicate Reached(chunksPlayed: int, totalChunks: int)
  {
    chunksPlayed >= totalChunks && totalChunks > 0
  }

  /**
   * One pass of the worker loop (`while self.playing`) on a player's state.
   * With an empty queue the poll times out and only the completion check
   * runs. Otherwise the head is taken; if the device plays it the count
   * goes up by one and the completion check runs; if playing it raises,
   * the chunk is dropped uncounted.
   */
  function Worked(s: PlayerState, accept: Bytes -> bool): (r: PlayerState)
    ensures s.playing && s.queue != [] ==> |r.queue| == |s.queue| - 1
  {
    if !s.playing then s
    else if s.queue == [] then s.(finished := s.finished || Reached(s.chunksPlayed, s.totalChunks))
    else
      var x := s.queue[0];
      var taken := s.(queue := s.queue[1..], taken := s.taken + [x]);
      if accept(x) then
        var played := taken.(heard := s.heard + [x], chunksPlayed := s.chunksPlayed + 1);
        played.(finished := s.finished || Reached(played.chunksPlayed, played.totalChunks))
      else taken
  }

  /**
   * What the worker leaves once its queue is empty and its next poll has
   * timed out: every queued payload taken in FIFO order, the accepted ones
   * played in that order and counted, and the event set iff it already was
   * or the count has reached a positive total. A stopped worker does nothing.
   */
  function Drained(s: PlayerState, accept: Bytes -> bool): PlayerState
  {
    if !s.playing then s
    else
      var played := s.(queue := [], taken := s.taken + s.queue,
                       heard := s.heard + Accepted(s.queue, accept),
                       chunksPlayed := s.chunksPlayed + |Accepted(s.queue, accept)|);
      played.(finished := s.finished || Reached(played.chunksPlayed, played.totalChunks))
  }

  /** The played payloads of a queue, read from its head. */
  lemma {:induction false} AcceptedCons(x: Bytes, q: seq<Bytes>, accept: Bytes -> bool)
    ensures Accepted([x] + q, accept) == (if accept(x) then [x] else []) + Accepted(q, accept)
    decreases |q|
  {
    if q == [] {
      assert [x] + q == [x];
      assert [x][..0] == [];
    } else {
      var n := |q| - 1;
      assert ([x] + q)[..|[x] + q| - 1] == [x] + q[..n];
      AcceptedCons(x, q[..n], accept);
    }
  }

  /** One worker pass with a non-empty queue takes the head. */
  lemma WorkedHead(s: PlayerState, accept: Bytes -> bool)
    requires s.playing && s.queue != []
    ensures var w, x := Worked(s, accept), s.queue[0];
            w.queue == s.queue[1..] && w.taken == s.taken + [x]
            && w.heard == s.heard + (if accept(x) then [x] else [])
            && w.chunksPlayed == s.chunksPlayed + (if accept(x) then 1 else 0)
            && w.finished == (s.finished || (accept(x) && Reached(w.chunksPlayed, w.totalChunks)))
            && w.chunksData == s.chunksData && w.totalChunks == s.totalChunks
            && w.playing && w.workerLaunches == s.workerLaunches
  {
  }

  /** The payloads taken once a head pass is followed by a full drain. */
  lemma DrainedTakenAfterWorked(s: PlayerState, accept: Bytes -> bool)
    requires s.playing && s.queue != []
    ensures var dW, dS := Drained(Worked(s, accept), accept), Drained(s, accept);
            dW.queue == dS.queue && dW.taken == dS.taken
  {
    var x, q, w := s.queue[0], s.queue[1..], Worked(s, accept);
    WorkedHead(s, accept);
    assert s.queue == [x] + q;
    assert w.taken + q == s.taken + s.queue;
  }

  /** The payloads played once a head pass is followed by a full drain. */
  lemma DrainedHeardAfterWorked(s: PlayerState, accept: Bytes -> bool)
    requires s.playing && s.queue != []
    ensures Drained(Worked(s, accept), accept).heard == Drained(s, accept).heard
  {
    var x, q, w := s.queue[0], s.queue[1..], Worked(s, accept);
    var rest := Accepted(q, accept);
    assert s.queue == [x] + q;
    AcceptedCons(x, q, accept);
    WorkedHead(s, accept);
    if accept(x) {
      assert w.heard + rest == s.heard + ([x] + rest);
    } else {
      assert [] + rest == rest;
    }
  }

  /** The count and the event once a head pass is followed by a full drain. */
  lemma DrainedCountAfterWorked(s: PlayerState, accept: Bytes -> bool)
    requires s.playing && s.queue != []
    ensures var dW, dS := Drained(Worked(s, accept), accept), Drained(s, accept);
            dW.chunksPlayed == dS.chunksPlayed && dW.finished == dS.finished
  {
    var x, q := s.queue[0], s.queue[1..];
    assert s.queue == [x] + q;
    AcceptedCons(x, q, accept);
    WorkedHead(s, accept);
  }

  /**
   * Each pass of a running worker over a non-empty queue leaves the drained
   * state where it was: taking the head and playing or dropping it is the
   * first step of draining the whole queue.
   */
  lemma DrainedAfterWorked(s: PlayerState, accept: Bytes -> bool)
    requires s.playing && s.queue != []
    ensures Drained(Worked(s, accept), accept) == Drained(s, accept)
  {
    DrainedTakenAfterWorked(s, accept);
    DrainedHeardAfterWorked(s, accept);
    DrainedCountAfterWorked(s, accept);
  }

  /**
   * The fallback of `save_combined_audio`: every chunk is written raw under
   * its own numbered name, in order; a write that fails is skipped.
   */
  method WriteChunkFiles(chunks: seq<Bytes>, writable: string -> bool) returns (writes: seq<FileWrite>)
    ensures writes == FallbackWrites(chunks, writable)
  {
    writes := [];
    var j := 0;
    while j < |chunks|
      invariant 0 <= j <= |chunks|
      invariant writes == FallbackWrites(chunks[..j], writable)
    {
      FallbackStep(chunks, j, writable);
      var name := ChunkFileName(j);
      if writable(name) {
        writes := writes + [RawFile(name, chunks[j])];
      }
      j := j + 1;
    }
    assert chunks[..j] == chunks;
  }

  class AudioPlayer {
    var queue: seq<Bytes>        // `audio_queue`, head first
    var playing: bool            // `playing`: the worker loop's condition
    var workerLaunches: nat      // worker threads started so far
    var chunksData: seq<Bytes>   // `audio_chunks_data`, kept for saving
    var chunksPlayed: int        // `chunks_played`
    var totalChunks: int         // `total_chunks`, as announced by the server
    var finished: bool           // `playback_finished`, the completion event
    ghost var Taken: seq<Bytes>  // payloads the worker has dequeued, oldest first
    ghost var Heard: seq<Bytes>  // payloads the device has played, oldest first

    /** The player's fields, as one value. */
    ghost function State(): PlayerState
      reads this
    {
      PlayerState(queue, playing, workerLaunches, chunksData, chunksPlayed, totalChunks, finished, Taken, Heard)
    }

    /**
     * Every stored payload has been dequeued or is still queued, in arrival
     * order; the played count never exceeds what was played; and the
     * completion event is only ever set once the count is reached.
     */
    ghost predicate Valid()
      reads this
    {
      chunksData == Taken + queue &&
      0 <= chunksPlayed <= |Heard| &&
      (finished ==> Reached(chunksPlayed, totalChunks))
    }

    constructor ()
      ensures Valid()
      ensures queue == [] && chunksData == [] && !playing && workerLaunches == 0
      ensures chunksPlayed == 0 && totalChunks == 0 && !finished
      ensures Taken == [] && Heard == []
    {
      queue, playing, workerLaunches := [], false, 0;
      chunksData, chunksPlayed, totalChunks, finished := [], 0, 0, false;
      Taken, Heard := [], [];
    }

    /** `start_playback`: a worker is launched only if none is running. */
    method StartPlayback()
      requires Valid()
      modifies this`playing, this`workerLaunches
      ensures Valid() && playing
      ensures State() == Started(old(State()))
    {
      if !playing {
        playing := true;
        workerLaunches := workerLaunches + 1;
      }
    }

    /** `stop_playback`: the worker loop's condition is cleared. */
    method StopPlayback()
      requires Valid()
      modifies this`playing
      ensures Valid() && !playing
    {
      playing := false;
    }

    /** `cleanup`: stops playback (releasing the audio library is not modelled). */
    method Cleanup()
      requires Valid()
      modifies this`playing
      ensures Valid() && !playing
    {
      StopPlayback();
    }

    /** `set_total_chunks`: a new expectation, with the counter and the event reset. */
    method SetTotalChunks(total: int)
      requires Valid()
      modifies this`totalChunks, this`chunksPlayed, this`finished
      ensures Valid()
      ensures totalChunks == total && chunksPlayed == 0 && !finished
    {
      totalChunks := total;
      chunksPlayed := 0;
      finished := false;
    }

    /**
     * `add_chunk`: a payload that decodes is stored and queued, the same bytes
     * at the tail of both; one that does not decode changes neither.
     */
    method AddChunk(audioB64: string, b64decode: string -> Option<Bytes>)
      requires Valid()
      modifies this`chunksData, this`queue
      ensures Valid()
      ensures b64decode(audioB64).Some? ==>
                chunksData == old(chunksData) + [b64decode(audioB64).value]
                && queue == old(queue) + [b64decode(audioB64).value]
      ensures b64decode(audioB64).None? ==> chunksData == old(chunksData) && queue == old(queue)
    {
      var decoded := b64decode(audioB64);
      if decoded.Some? {
        chunksData := chunksData + [decoded.value];
        queue := queue + [decoded.value];
      }
    }

    /**
     * One pass of the worker loop (`while self.playing`). With an empty queue
     * the poll times out and only the completion check runs. Otherwise the
     * head is taken; if the device plays it the count goes up by one and the
     * completion check runs; if playing it raises, the chunk is dropped
     * uncounted.
     */
    method WorkerStep(accept: Bytes -> bool)
      requires Valid()
      modifies this`queue, this`Taken, this`Heard, this`chunksPlayed, this`finished
      ensures Valid()
      ensures State() == Worked(old(State()), accept)
    {
      if !playing {
        return;
      }
      if queue == [] {
        if Reached(chunksPlayed, totalChunks) {
          finished := true;
        }
      } else {
        var audio := queue[0];
        queue := queue[1..];
        Taken := Taken + [audio];
        if accept(audio) {
          Heard := Heard + [audio];
          chunksPlayed := chunksPlayed + 1;
          if Reached(chunksPlayed, totalChunks) {
            finished := true;
          }
        }
      }
    }

    /**
     * `wait_for_completion`: the worker runs until the queue is empty and its
     * next poll times out; the result is the completion event. Every queued
     * payload is taken in FIFO order, the device plays the accepted ones in
     * that order, and the event is set exactly when the count is reached.
     */
    method WaitForCompletion(accept: Bytes -> bool) returns (completed: bool)
      requires Valid()
      modifies this`queue, this`Taken, this`Heard, this`chunksPlayed, this`finished
      ensures Valid()
      ensures State() == Drained(old(State()), accept)
      ensures completed == finished
    {
      if !playing {
        completed := finished;
        return;
      }
      while queue != []
        invariant Valid() && playing
        invariant Drained(State(), accept) == Drained(old(State()), accept)
        decreases |queue|
      {
        DrainedAfterWorked(State(), accept);
        WorkerStep(accept);
      }
      WorkerStep(accept);
      completed := finished;
    }

    /**
     * `save_combined_audio`: with no stored chunk nothing is written;
     * otherwise the header of the first chunk that opens and the frames of
     * every chunk that reads, in order, go into one file, unless there is no
     * header, no frame or the file cannot be written, in which case every
     * stored chunk is written as its own `chunk_NNN.wav`.
     */
    method SaveCombinedAudio(outputFile: string, wav: Bytes -> WavRead, writable: string -> bool)
      returns (writes: seq<FileWrite>)
      ensures writes == SaveResult(chunksData, outputFile, wav, writable)
    {
      var chunks := chunksData;
      if chunks == [] {
        return [];
      }
      var allFrames: Bytes := [];
      var params: Option<WavParams> := None;
      var i := 0;
      while i < |chunks|
        invariant 0 <= i <= |chunks|
        invariant params == FirstParams(chunks[..i], wav)
        invariant allFrames == JoinedFrames(chunks[..i], wav)
      {
        AssembleStep(chunks, i, wav);
        match wav(chunks[i]) {
          case Unreadable =>
          case HeaderOnly(p) =>
            if params.None? { params := Some(p); }
          case Decoded(p, frames) =>
            if params.None? { params := Some(p); }
            allFrames := allFrames + frames;
        }
        i := i + 1;
      }
      assert chunks[..i] == chunks;
      if params.Some? && allFrames != [] && writable(outputFile) {
        return [WavFile(outputFile, params.value, allFrames)];
      }
      writes := WriteChunkFiles(chunks, writable);
    }
  }
}
