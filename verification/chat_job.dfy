/** `ChatJob`, as defined (identically but for serialisation) in the frontend
    and llm jobtools: a system prompt, the message history, a completion
    buffer that streamed chunks are appended to, and a status. The id type is
    a parameter: the llm always has a string id, the frontend's `from_dict`
    may leave it `None`. */
module ChatJobs {
  import opened JobStatus

  datatype ChatJob<Id> = ChatJob(
    sysPrompt: string,
    messages: seq<string>,
    uuid: Id,
    status: Status,
    completion: string)

  /** The constructor; `uuid` stands for the fresh `uuid4().hex`. */
  function NewChatJob<Id>(sysPrompt: string, messages: seq<string>, uuid: Id): (j: ChatJob<Id>)
    ensures j.sysPrompt == sysPrompt && j.messages == messages && j.uuid == uuid
    ensures j.status == Created && j.completion == ""
  {
    ChatJob(sysPrompt, messages, uuid, Created, "")
  }

  /** `append_chunk(chunk)`: the completion grows by `chunk` at its end;
      nothing else changes. */
  function AppendChunk<Id>(j: ChatJob<Id>, chunk: string): (r: ChatJob<Id>)
    ensures r.completion == j.completion + chunk
    ensures r.completion[..|j.completion|] == j.completion
    ensures r.sysPrompt == j.sysPrompt && r.messages == j.messages
    ensures r.uuid == j.uuid && r.status == j.status
  {
    j.(completion := j.completion + chunk)
  }

  /** `append_message()`: the completion is pushed onto the history and the
      buffer is cleared. */
  function AppendMessage<Id>(j: ChatJob<Id>): (r: ChatJob<Id>)
    ensures |r.messages| == |j.messages| + 1
    ensures r.messages[..|j.messages|] == j.messages
    ensures r.messages[|j.messages|] == j.completion
    ensures r.completion == ""
    ensures r.sysPrompt == j.sysPrompt && r.uuid == j.uuid && r.status == j.status
  {
    j.(messages := j.messages + [j.completion], completion := "")
  }

  /** `set_status(s)`: overwrites the status, with no transition check. */
  function SetStatus<Id>(j: ChatJob<Id>, s: Status): (r: ChatJob<Id>)
    ensures r.status == s
    ensures r.sysPrompt == j.sysPrompt && r.messages == j.messages
    ensures r.uuid == j.uuid && r.completion == j.completion
  {
    j.(status := s)
  }

  /** `set_completion(c)` (frontend only): replaces the buffer. */
  function SetCompletion<Id>(j: ChatJob<Id>, c: string): (r: ChatJob<Id>)
    ensures r.completion == c
    ensures r.sysPrompt == j.sysPrompt && r.messages == j.messages
    ensures r.uuid == j.uuid && r.status == j.status
  {
    j.(completion := c)
  }

  /** `set_uuid(u)` (frontend only): replaces the id. */
  function SetUuid<Id>(j: ChatJob<Id>, u: Id): (r: ChatJob<Id>)
    ensures r.uuid == u
    ensures r.sysPrompt == j.sysPrompt && r.messages == j.messages
    ensures r.status == j.status && r.completion == j.completion
  {
    j.(uuid := u)
  }

  /** The in-order concatenation of a sequence of chunks. */
  function Concat(chunks: seq<string>): string {
    if chunks == [] then "" else chunks[0] + Concat(chunks[1..])
  }

  /** Concatenating a sequence grown at its end grows the text at its end. */
  lemma {:induction false} ConcatSnoc(chunks: seq<string>, c: string)
    ensures Concat(chunks + [c]) == Concat(chunks) + c
    decreases |chunks|
  {
    if chunks == [] {
      assert Concat([c]) == c + Concat([]);
    } else {
      assert (chunks + [c])[1..] == chunks[1..] + [c];
      ConcatSnoc(chunks[1..], c);
    }
  }

  /** The job after each of the successive `append_chunk` calls of a stream:
      snapshot `k` holds the original completion followed by the first
      `k + 1` chunks, and nothing but the completion ever changes. */
  function AppendChunks<Id>(j: ChatJob<Id>, chunks: seq<string>): (trace: seq<ChatJob<Id>>)
    ensures |trace| == |chunks|
    ensures forall k :: 0 <= k < |trace| ==>
              trace[k] == j.(completion := j.completion + Concat(chunks[..k + 1]))
    decreases |chunks|
  {
    if chunks == [] then []
    else
      var next := AppendChunk(j, chunks[0]);
      var rest := AppendChunks(next, chunks[1..]);
      assert forall k :: 0 <= k < |chunks| ==> Concat(chunks[..k + 1]) == chunks[0] + Concat(chunks[1..][..k]) by {
        forall k | 0 <= k < |chunks|
          ensures Concat(chunks[..k + 1]) == chunks[0] + Concat(chunks[1..][..k])
        {
          assert chunks[..k + 1][1..] == chunks[1..][..k];
        }
      }
      [next] + rest
  }

  /** The job once every chunk of a stream has been appended. */
  function AfterChunks<Id>(j: ChatJob<Id>, chunks: seq<string>): (r: ChatJob<Id>)
    ensures r == j.(completion := j.completion + Concat(chunks))
  {
    if chunks == [] then j
    else
      assert chunks[..|chunks|] == chunks;
      AppendChunks(j, chunks)[|chunks| - 1]
  }

  /** The buffer only ever grows at its end while chunks stream in: each
      snapshot's completion is a prefix of the next one's. */
  lemma StreamOnlyAppends<Id>(j: ChatJob<Id>, chunks: seq<string>, k: nat)
    requires k + 1 < |chunks|
    ensures AppendChunks(j, chunks)[k].completion
            <= AppendChunks(j, chunks)[k + 1].completion
    ensures AppendChunks(j, chunks)[k + 1].messages == j.messages
  {
    var trace := AppendChunks(j, chunks);
    assert chunks[..k + 2] == chunks[..k + 1] + [chunks[k + 1]];
    ConcatSnoc(chunks[..k + 1], chunks[k + 1]);
  }
}
