/**
 * The server messages of the chunked streaming protocol, as the client sees
 * them once each text frame has been handed to a JSON parser.
 */
module Protocol {

  /** Raw bytes: a decoded audio payload, a WAV frame buffer. */
  type Bytes = seq<bv8>

  /**
   * One received frame. Missing fields take the defaults the client reads
   * them with (`total_chunks` 0, `chunk_index` 0, `audio_data` and
   * `text_chunk` empty, `is_final` false).
   */
  datatype Message =
    | Info(totalChunks: int)
    | AudioChunk(chunkIndex: int, audioData: string, textChunk: string, isFinal: bool)
    | Error(error: string)
    | Unknown     // well-formed JSON whose "type" is none of the three above
    | Malformed   // a frame the JSON parser rejects
}
