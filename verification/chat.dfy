/**
 * The shapes the chat-completion transport produces and the request layer
 * returns: stream fragments and chunks, choices and whole completions.
 */
module Chat {
  import opened Values

  /** The incremental part of a streamed fragment. */
  datatype Delta = Delta(content: Option<string>, role: Option<string>)

  /** One streamed choice: the sample index it belongs to, its delta (absent
      when the transport sends none) and its finish reason. */
  datatype Fragment = Fragment(index: int, delta: Option<Delta>, finishReason: Option<string>)

  /** One chunk of a stream; a chunk whose `choices` is `None` or empty is
      represented by the empty sequence. */
  datatype Chunk = Chunk(choices: seq<Fragment>)

  datatype Message = Message(role: string, content: Option<string>)

  datatype Choice = Choice(index: int, finishReason: string, message: Message)

  /** The identity of a completion: the server's own id, or the one the
      streamed path synthesises from the clock ("streamed-" and the time). */
  datatype CompletionId = Issued(id: string) | StreamedAt(time: int)

  datatype Completion = Completion(id: CompletionId, created: int, model: string, choices: seq<Choice>)
}
