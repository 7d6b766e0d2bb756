/**
 * The connection test (`test_connection`): it rewrites the URL as the
 * client does, sends one fixed request, and reads responses until a final
 * chunk, an error, an unparsable frame or the eleventh response, whichever
 * comes first, or until the stream ends.
 *
 * As in the client, the connection is abstracted: `connects` says whether
 * it opens, `msgs` is the sequence of frames the server sends, already
 * classified by the JSON parser, and `closedCleanly` whether the stream
 * then ends normally or with a connection error.
 */
module ConnectionTest {
  import opened Wrappers
  import opened Protocol
  import opened WebSocketUrl
  import StreamingClient

  /** How the test ends. */
  datatype Outcome =
    | ConnectFailed
    | FinalChunkReceived
    | ServerError(error: string)
    | SafetyLimit
    | InvalidJson
    | StreamEnded
    | ConnectionLost

  /** How many frames the test read, how many it counted as responses, and how it ended. */
  datatype ProbeResult = ProbeResult(consumed: nat, responses: nat, outcome: Outcome)

  /** The request the test sends, always the same. */
  const TestText: string := "Hello world!"
  const TestLanguage: string := "en"

  /** The largest response count at which the test still reads on. */
  const SafetyLimitCount: nat := 10

  /**
   * Whether the frame at position `index` ends the test, every earlier frame
   * having parsed (so the count after it is `index + 1`): an unparsable
   * frame ends it uncounted; a final chunk or an error ends it; otherwise a
   * count above the safety limit does.
   */
  function StopOf(m: Message, index: nat): Option<Outcome>
  {
    if m.Malformed? then Some(InvalidJson)
    else if m.AudioChunk? && m.isFinal then Some(FinalChunkReceived)
    else if m.Error? then Some(ServerError(m.error))
    else if index + 1 > SafetyLimitCount then Some(SafetyLimit)
    else None
  }

  /** The position of the first frame at or after `i` that ends the test, or `|msgs|`. */
  function FirstStop(msgs: seq<Message>, i: nat): (k: nat)
    requires i <= |msgs|
    ensures i <= k <= |msgs|
    ensures forall j :: i <= j < k ==> StopOf(msgs[j], j).None?
    ensures k < |msgs| ==> StopOf(msgs[k], k).Some?
    ensures i <= SafetyLimitCount ==> k <= SafetyLimitCount
    decreases |msgs| - i
  {
    if i == |msgs| || StopOf(msgs[i], i).Some? then i else FirstStop(msgs, i + 1)
  }

  /** What the test does with the frames `msgs` once connected. */
  function Probe(msgs: seq<Message>, closedCleanly: bool): ProbeResult
  {
    var k := FirstStop(msgs, 0);
    if k < |msgs| then
      var o := StopOf(msgs[k], k).value;
      ProbeResult(k + 1, if o == InvalidJson then k else k + 1, o)
    else
      ProbeResult(|msgs|, |msgs|, if closedCleanly then StreamEnded else ConnectionLost)
  }

  /** The first stopping frame is determined by the frames before it. */
  lemma {:induction false} FirstStopAt(msgs: seq<Message>, i: nat, k: nat)
    requires i <= k <= |msgs|
    requires forall j :: i <= j < k ==> StopOf(msgs[j], j).None?
    requires k < |msgs| ==> StopOf(msgs[k], k).Some?
    ensures FirstStop(msgs, i) == k
    decreases k - i
  {
    if i < k {
      FirstStopAt(msgs, i + 1, k);
    }
  }

  /**
   * `test_connection`: the URL rewrite, then the response loop. The count
   * goes up for every frame that parses, before the final-chunk, error and
   * safety-limit checks, in that order.
   */
  method TestConnection(serverUrl: string, connects: bool, msgs: seq<Message>, closedCleanly: bool)
    returns (wsUrl: string, sent: Option<StreamingClient.Request>, result: ProbeResult)
    ensures wsUrl == ToWebSocketUrl(serverUrl)
    ensures sent == if connects then Some(StreamingClient.Request(TestText, TestLanguage, None)) else None
    ensures result == if connects then Probe(msgs, closedCleanly) else ProbeResult(0, 0, ConnectFailed)
  {
    wsUrl := ToWebSocketUrl(serverUrl);
    if !connects {
      return wsUrl, None, ProbeResult(0, 0, ConnectFailed);
    }
    sent := Some(StreamingClient.Request(TestText, TestLanguage, None));
    var responseCount: nat := 0;
    var i := 0;
    while i < |msgs|
      invariant 0 <= i <= |msgs| && i <= SafetyLimitCount
      invariant forall j :: 0 <= j < i ==> StopOf(msgs[j], j).None?
      invariant responseCount == i
    {
      var m := msgs[i];
      if m.Malformed? {
        FirstStopAt(msgs, 0, i);
        return wsUrl, sent, ProbeResult(i + 1, responseCount, InvalidJson);
      }
      responseCount := responseCount + 1;
      if m.AudioChunk? && m.isFinal {
        FirstStopAt(msgs, 0, i);
        return wsUrl, sent, ProbeResult(i + 1, responseCount, FinalChunkReceived);
      } else if m.Error? {
        FirstStopAt(msgs, 0, i);
        return wsUrl, sent, ProbeResult(i + 1, responseCount, ServerError(m.error));
      }
      if responseCount > SafetyLimitCount {
        FirstStopAt(msgs, 0, i);
        return wsUrl, sent, ProbeResult(i + 1, responseCount, SafetyLimit);
      }
      i := i + 1;
    }
    FirstStopAt(msgs, 0, |msgs|);
    result := ProbeResult(|msgs|, |msgs|, if closedCleanly then StreamEnded else ConnectionLost);
  }

  /**
   * The test reads at most eleven frames and counts every frame it reads
   * except an unparsable last one; the safety limit stops it only at the
   * eleventh response, and at eleven responses nothing but the safety
   * limit, a final chunk or an error can have stopped it.
   */
  lemma ProbeBounded(msgs: seq<Message>, closedCleanly: bool)
    ensures var r := Probe(msgs, closedCleanly);
            r.consumed <= |msgs| && r.consumed <= SafetyLimitCount + 1
            && r.responses == (if r.outcome == InvalidJson then r.consumed - 1 else r.consumed)
            && (r.outcome == SafetyLimit ==> r.responses == SafetyLimitCount + 1)
            && (r.responses == SafetyLimitCount + 1 ==>
                  r.outcome == SafetyLimit || r.outcome == FinalChunkReceived || r.outcome.ServerError?)
  {
  }

  /**
   * A stream that keeps to the protocol (one `info`, then n audio chunks of
   * which only the last is final) passes the test on its final chunk when
   * n is at most ten; a longer one is cut off at the safety limit after
   * its tenth chunk, before the final one arrives.
   */
  lemma ProbeConformingStream(n: nat, cs: seq<Message>, closedCleanly: bool)
    requires n > 0 && |cs| == n
    requires forall i :: 0 <= i < n ==> cs[i].AudioChunk? && (cs[i].isFinal <==> i == n - 1)
    ensures var r := Probe([Info(n)] + cs, closedCleanly);
            if n <= SafetyLimitCount then r == ProbeResult(n + 1, n + 1, FinalChunkReceived)
            else r == ProbeResult(SafetyLimitCount + 1, SafetyLimitCount + 1, SafetyLimit)
  {
    var msgs := [Info(n)] + cs;
    assert forall j :: 1 <= j < |msgs| ==> msgs[j] == cs[j - 1];
    if n <= SafetyLimitCount {
      FirstStopAt(msgs, 0, n);
    } else {
      FirstStopAt(msgs, 0, SafetyLimitCount);
    }
  }

  /**
   * When the test ends on a final chunk or a server error, the client reads
   * the same frames and ends the same way.
   */
  lemma ProbeAgreesWithClient(msgs: seq<Message>, closedCleanly: bool)
    ensures var r := Probe(msgs, closedCleanly);
            r.outcome == FinalChunkReceived ==>
              StreamingClient.Consumed(msgs) == r.consumed
              && StreamingClient.ExitOf(msgs, closedCleanly) == StreamingClient.FinalChunk
    ensures var r := Probe(msgs, closedCleanly);
            r.outcome.ServerError? ==>
              StreamingClient.Consumed(msgs) == r.consumed
              && StreamingClient.ExitOf(msgs, closedCleanly) == StreamingClient.ServerError(r.outcome.error)
  {
    var k := FirstStop(msgs, 0);
    if k < |msgs| && StreamingClient.EndsLoop(msgs[k]) {
      StreamingClient.ConsumedAtFirstEnd(msgs, k);
    }
  }
}
