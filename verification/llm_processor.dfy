/** One iteration of the llm service's worker loop (`MainProcessor.run`): take
    an id off the queue, look the chat job up, mark it processing, build the
    role-alternating message list, stream the completion into the job's
    buffer (falling back to the configured error text when the provider
    raises), push the completion onto the history, mark it finished, and
    mark the task done. The worker's calls are written in camelCase
    (`getJob`, `setStatus`, `appendChunk`, ...) that the jobtools do not
    define; they are read here as the snake_case methods they name. */
module LlmProcessor {
  import opened Wrappers
  import opened JobStatus
  import opened ChatJobs
  import opened Roles
  import opened LlmJobs
  import opened TaskQueue
  import Register
  import EmbedJobs

  /** One `{"role": ..., "content": ...}` entry of the request. */
  datatype ChatMessage = ChatMessage(role: string, content: string)

  /** The entries built for `history` by successive `toggle.toggle()` calls. */
  function HistoryMessages(t: RoleToggle, history: seq<string>): (msgs: seq<ChatMessage>)
    ensures |msgs| == |history|
    ensures forall i :: 0 <= i < |history| ==> msgs[i].content == history[i]
    decreases |history|
  {
    if history == [] then []
    else
      var (role, next) := Toggle(t);
      [ChatMessage(role, history[0])] + HistoryMessages(next, history[1..])
  }

  /** The request: the system prompt first, then the history with roles from
      a fresh `RoleToggle("user", "assistant")`. */
  function MessageList(sysPrompt: string, history: seq<string>): seq<ChatMessage> {
    [ChatMessage("system", sysPrompt)] + HistoryMessages(NewToggle("user", "assistant"), history)
  }

  /** Each history entry carries the role the `i`-th toggle call returned. */
  lemma {:induction false} HistoryMessagesFollowToggle(t: RoleToggle, history: seq<string>)
    ensures forall i :: 0 <= i < |history| ==>
              HistoryMessages(t, history)[i] == ChatMessage(ToggleTimes(t, |history|).0[i], history[i])
    decreases |history|
  {
    if history != [] {
      var next := Toggle(t).1;
      HistoryMessagesFollowToggle(next, history[1..]);
      var msgs := HistoryMessages(t, history);
      var roles := ToggleTimes(t, |history|).0;
      assert roles == [t.acting] + ToggleTimes(next, |history| - 1).0;
      forall i | 0 <= i < |history|
        ensures msgs[i] == ChatMessage(roles[i], history[i])
      {
        if i > 0 {
          assert msgs[i] == HistoryMessages(next, history[1..])[i - 1];
        }
      }
    }
  }

  /** The request has one entry more than the history: entry 0 is the system
      prompt and history entry `i` is sent as "user" for even `i` and as
      "assistant" for odd `i`, with its text unchanged. */
  lemma MessageListRoles(sysPrompt: string, history: seq<string>)
    ensures |MessageList(sysPrompt, history)| == 1 + |history|
    ensures MessageList(sysPrompt, history)[0] == ChatMessage("system", sysPrompt)
    ensures forall i :: 0 <= i < |history| ==>
              MessageList(sysPrompt, history)[i + 1]
              == ChatMessage(if i % 2 == 0 then "user" else "assistant", history[i])
  {
    var t := NewToggle("user", "assistant");
    HistoryMessagesFollowToggle(t, history);
    FreshToggleAlternates("user", "assistant", |history|);
  }

  /** What the streaming provider delivered: the chunks received, and whether
      it raised (after those chunks, or before any when `chunks` is empty). */
  datatype Stream = Stream(chunks: seq<string>, raised: bool)

  /** The `CHATERROR` default. */
  const DefaultChatError: string := "An error occurred."

  /** `os.getenv('CHATERROR', 'An error occurred.')`. */
  function ChatErrorText(env: Option<string>): string {
    env.GetOr(DefaultChatError)
  }

  /** The text the turn ends with: the buffer as it was, the chunks in order,
      then the error text if the provider raised. */
  function Reply<Id>(job: ChatJob<Id>, stream: Stream, errorText: string): string {
    job.completion + Concat(stream.chunks) + (if stream.raised then errorText else "")
  }

  /** The job after each mutation the worker makes while handling a chat job:
      set processing, one `append_chunk` per chunk, the error text if the
      provider raised, `append_message`, set finished. The status is
      "processing" before any chunk is appended and stays so until the last
      write; the history only grows at `append_message`, by exactly the
      reply; the job is never marked failed. */
  function ChatRun<Id>(job: ChatJob<Id>, stream: Stream, errorText: string): (trace: seq<ChatJob<Id>>)
    ensures |trace| == |stream.chunks| + (if stream.raised then 1 else 0) + 3
    ensures trace[0] == job.(status := Processing)
    ensures forall k :: 0 <= k < |trace| - 1 ==> trace[k].status == Processing
    ensures forall k :: 0 <= k < |trace| - 2 ==> trace[k].messages == job.messages
    ensures forall k :: 0 <= k < |trace| ==> trace[k].sysPrompt == job.sysPrompt && trace[k].uuid == job.uuid
    ensures trace[|trace| - 2].messages == trace[|trace| - 1].messages
    ensures trace[|trace| - 1].messages == job.messages + [Reply(job, stream, errorText)]
    ensures trace[|trace| - 1].completion == ""
    ensures trace[|trace| - 1].status == Finished
  {
    var started := SetStatus(job, Processing);
    var streamed := AppendChunks(started, stream.chunks);
    var received := AfterChunks(started, stream.chunks);
    var fallback := if stream.raised then [AppendChunk(received, errorText)] else [];
    var full := if stream.raised then AppendChunk(received, errorText) else received;
    assert full.completion == Reply(job, stream, errorText);
    var appended := AppendMessage(full);
    [started] + streamed + fallback + [appended, SetStatus(appended, Finished)]
  }

  /** The last job of a run. */
  function Final<Id>(job: ChatJob<Id>, stream: Stream, errorText: string): ChatJob<Id> {
    var trace := ChatRun(job, stream, errorText);
    trace[|trace| - 1]
  }

  /** While the provider streams, the buffer only grows at its end: each
      snapshot before `append_message` extends the one before it. */
  lemma ChatRunOnlyAppends<Id>(job: ChatJob<Id>, stream: Stream, errorText: string, k: nat)
    requires k + 3 < |ChatRun(job, stream, errorText)|
    ensures ChatRun(job, stream, errorText)[k].completion <= ChatRun(job, stream, errorText)[k + 1].completion
  {
    var trace := ChatRun(job, stream, errorText);
    var started := SetStatus(job, Processing);
    var n := |stream.chunks|;
    assert trace[1..n + 1] == AppendChunks(started, stream.chunks);
    if k == 0 {
      if n > 0 {
        assert trace[1] == AppendChunks(started, stream.chunks)[0];
      } else {
        assert trace[1] == AppendChunk(AfterChunks(started, stream.chunks), errorText);
      }
    } else if k < n {
      assert trace[k] == AppendChunks(started, stream.chunks)[k - 1];
      assert trace[k + 1] == AppendChunks(started, stream.chunks)[k];
      StreamOnlyAppends(started, stream.chunks, k - 1);
    } else {
      assert k == n && stream.raised;
      assert trace[k] == AppendChunks(started, stream.chunks)[n - 1];
      assert stream.chunks[..n] == stream.chunks;
      assert trace[k + 1] == AppendChunk(AfterChunks(started, stream.chunks), errorText);
    }
  }

  /** A provider that raises before sending anything still leaves a fresh
      job finished, with the error text as its new history entry. */
  lemma ProviderFailureDegradesToErrorText<Id>(job: ChatJob<Id>, env: Option<string>)
    requires job.completion == ""
    ensures Final(job, Stream([], true), ChatErrorText(env)).status == Finished
    ensures Final(job, Stream([], true), ChatErrorText(env)).messages == job.messages + [ChatErrorText(env)]
    ensures env.None? ==> Final(job, Stream([], true), ChatErrorText(env)).messages
                          == job.messages + ["An error occurred."]
  {
  }

  /** The worker's view of the service: its register and its queue. */
  datatype LlmState = LlmState(reg: map<string, LlmJob>, queue: Queue)

  /** What one iteration did: nothing to take (the blocking `get` waits), a
      job handled, an id passed over, or the thread died on an exception. */
  datatype Outcome = Idle | Processed(id: string) | Skipped(id: string) | Crashed(id: string)

  datatype Step = Step(state: LlmState, outcome: Outcome)

  /** The chat provider: the stream it answers a request with. */
  type ChatProvider = seq<ChatMessage> -> Stream

  /** The reply a chat job gets from `provider`. */
  function Answer(job: ChatJob<string>, provider: ChatProvider): Stream {
    provider(MessageList(job.sysPrompt, job.messages))
  }

  /** One iteration as written. A chat job is handled as described above. An
      id with no job makes `job.set_status` fail on `None`; an embedding job
      is marked processing and then fails on `get_sys_prompt`. Either
      exception escapes the `try`/`finally`, which still marks the task done,
      and ends the thread. */
  function StepAsWritten(s: LlmState, provider: ChatProvider, errorText: string): (r: Step)
    requires s.queue.Valid()
    ensures r.outcome.Idle? <==> s.queue.items == []
    ensures r.outcome.Idle? ==> r.state == s
    ensures !r.outcome.Idle? ==> r.outcome.id == s.queue.items[0]
    ensures !r.outcome.Idle? ==> r.state.queue == TaskDone(Get(s.queue).value.1)
    ensures r.outcome.Crashed? <==> (!r.outcome.Idle? && (r.outcome.id !in s.reg || s.reg[r.outcome.id].EmbedTask?))
    ensures r.outcome.Crashed? && r.outcome.id !in s.reg ==> r.state.reg == s.reg
    ensures r.outcome.Crashed? && r.outcome.id in s.reg ==>
              var id := r.outcome.id;
              r.state.reg == s.reg[id := EmbedTask(EmbedJobs.SetStatus(s.reg[id].embed, Processing))]
    ensures r.outcome.Processed? ==>
              var id := r.outcome.id;
              var job := s.reg[id].chat;
              && id in r.state.reg
              && r.state.reg == s.reg[id := r.state.reg[id]]
              && r.state.reg[id] == ChatTask(ChatJob(job.sysPrompt, job.messages + [Reply(job, Answer(job, provider), errorText)],
                                                     job.uuid, Finished, ""))
  {
    if s.queue.items == [] then Step(s, Idle)
    else
      var (id, taken) := Get(s.queue).value;
      var q := TaskDone(taken);
      match Register.Get<string, LlmJob>(s.reg, id)
      case None => Step(LlmState(s.reg, q), Crashed(id))
      case Some(EmbedTask(e)) =>
        Step(LlmState(s.reg[id := EmbedTask(EmbedJobs.SetStatus(e, Processing))], q), Crashed(id))
      case Some(ChatTask(job)) =>
        var done := Final(job, Answer(job, provider), errorText);
        Step(LlmState(s.reg[id := ChatTask(done)], q), Processed(id))
  }

  /** One iteration as evidently intended (the embedding worker's shape): an
      id that does not resolve to a chat job is passed over, nothing is
      mutated and the loop goes on. `task_done` is called exactly once for
      the id taken, whatever the outcome. */
  function StepLlm(s: LlmState, provider: ChatProvider, errorText: string): (r: Step)
    requires s.queue.Valid()
    ensures r.outcome.Idle? <==> s.queue.items == []
    ensures r.outcome.Idle? ==> r.state == s
    ensures !r.outcome.Crashed?
    ensures !r.outcome.Idle? ==> r.outcome.id == s.queue.items[0]
    ensures !r.outcome.Idle? ==> r.state.queue.items == s.queue.items[1..]
    ensures !r.outcome.Idle? ==> r.state.queue.unfinished + 1 == s.queue.unfinished
    ensures r.state.queue.Valid()
    ensures r.outcome.Skipped? <==> (!r.outcome.Idle? && !(r.outcome.id in s.reg && s.reg[r.outcome.id].ChatTask?))
    ensures r.outcome.Skipped? ==> r.state.reg == s.reg
    ensures r.outcome.Processed? ==>
              var id := r.outcome.id;
              var job := s.reg[id].chat;
              && id in r.state.reg
              && r.state.reg == s.reg[id := r.state.reg[id]]
              && r.state.reg[id] == ChatTask(ChatJob(job.sysPrompt, job.messages + [Reply(job, Answer(job, provider), errorText)],
                                                     job.uuid, Finished, ""))
  {
    if s.queue.items == [] then Step(s, Idle)
    else
      var (id, taken) := Get(s.queue).value;
      var q := TaskDone(taken);
      match Register.Get<string, LlmJob>(s.reg, id)
      case Some(ChatTask(job)) =>
        var done := Final(job, Answer(job, provider), errorText);
        Step(LlmState(s.reg[id := ChatTask(done)], q), Processed(id))
      case _ => Step(LlmState(s.reg, q), Skipped(id))
  }

  /** Finding: an id whose job was unregistered before the worker reached it
      kills the worker thread as written, while the corrected step passes
      over it and leaves the register alone. */
  lemma UnknownIdKillsWorker(id: string, rest: seq<string>, provider: ChatProvider, errorText: string)
    ensures StepAsWritten(LlmState(map[], Queue([id] + rest, 1 + |rest|)), provider, errorText).outcome == Crashed(id)
    ensures StepLlm(LlmState(map[], Queue([id] + rest, 1 + |rest|)), provider, errorText)
            == Step(LlmState(map[], Queue(rest, |rest|)), Skipped(id))
  {
    assert ([id] + rest)[1..] == rest;
  }

  /** Both steps agree whenever the head of the queue is a chat job. */
  lemma StepsAgreeOnChatJobs(s: LlmState, provider: ChatProvider, errorText: string)
    requires s.queue.Valid() && s.queue.items != []
    requires s.queue.items[0] in s.reg && s.reg[s.queue.items[0]].ChatTask?
    ensures StepAsWritten(s, provider, errorText) == StepLlm(s, provider, errorText)
  {
  }
}
