/** The transcript `chat_messages` builds on the chat page: the greeting,
    then each question followed by its answer, read from the polled job only
    when it is a 'chat' job, stopping at the first empty question. */
module ChatPage {
  import opened Wrappers
  import opened Transcript

  /** The questions and answers the page reads: the job's prompts and answers
      for a 'chat' job (each defaulting to none), nothing otherwise. */
  function ChatInputs(st: PollStatus): (r: (seq<string>, seq<string>))
    ensures st.jobType != Some("chat") ==> r == ([], [])
    ensures st.jobType == Some("chat") && st.prompt.Some? ==> r.0 == st.prompt.value
    ensures st.jobType == Some("chat") && st.answer.Some? ==> r.1 == st.answer.value
  {
    if st.jobType == Some("chat") then (st.prompt.GetOr([]), st.answer.GetOr([])) else ([], [])
  }

  /** How many questions are shown: up to the first empty one. */
  function PromptsShown(qs: seq<string>): (n: nat)
    ensures n <= |qs|
    ensures forall i :: 0 <= i < n ==> Shown(qs[i])
    ensures n < |qs| ==> !Shown(qs[n])
  {
    if qs == [] || !Shown(qs[0]) then 0 else 1 + PromptsShown(qs[1..])
  }

  /** Turn `i` of the conversation: question `i`, then answer `i` when it
      exists and is non-empty. */
  function Turn(qs: seq<string>, answers: seq<string>, i: nat): seq<Entry>
    requires i < |qs|
  {
    [Entry(You, qs[i])] + (if i < |answers| && Shown(answers[i]) then [Entry(Assistant, answers[i])] else [])
  }

  /** The first `k` turns, in order. */
  function TurnsUpTo(qs: seq<string>, answers: seq<string>, k: nat): seq<Entry>
    requires k <= |qs|
  {
    if k == 0 then [] else TurnsUpTo(qs, answers, k - 1) + Turn(qs, answers, k - 1)
  }

  /** Turn by turn, the first `k` turns show exactly the first `k`
      questions, the non-empty answers among the first `k`, and at most two
      entries per turn. */
  lemma {:induction false} TurnsTexts(qs: seq<string>, answers: seq<string>, k: nat)
    requires k <= |qs|
    ensures Texts(TurnsUpTo(qs, answers, k), You) == qs[..k]
    ensures Texts(TurnsUpTo(qs, answers, k), Assistant) == NonEmpty(answers[..Min(k, |answers|)])
    ensures |TurnsUpTo(qs, answers, k)| <= 2 * k
    decreases k
  {
    if k > 0 {
      var i := k - 1;
      TurnsTexts(qs, answers, i);
      var before := TurnsUpTo(qs, answers, i);
      var withQuestion := before + [Entry(You, qs[i])];
      TextsSnoc(before, Entry(You, qs[i]), You);
      TextsSnoc(before, Entry(You, qs[i]), Assistant);
      assert qs[..i + 1] == qs[..i] + [qs[i]];
      if i < |answers| {
        NonEmptySnoc(answers, i);
      }
      if i < |answers| && Shown(answers[i]) {
        TextsSnoc(withQuestion, Entry(Assistant, answers[i]), You);
        TextsSnoc(withQuestion, Entry(Assistant, answers[i]), Assistant);
        assert TurnsUpTo(qs, answers, k) == withQuestion + [Entry(Assistant, answers[i])];
      } else {
        assert TurnsUpTo(qs, answers, k) == withQuestion;
      }
    }
  }

  /** The loop of `chat_messages`: while the next question exists and is
      non-empty, show it, then its answer if that exists and is non-empty.
      The result is the turns of the questions before the first empty one,
      at most two entries per question; `TurnsTexts` says which texts these
      turns show. */
  method ChatTurns(qs: seq<string>, answers: seq<string>) returns (out: seq<Entry>)
    ensures out == TurnsUpTo(qs, answers, PromptsShown(qs))
    ensures |out| <= 2 * |qs|
  {
    out := [];
    var iq := 0;
    var ia := 0;
    while iq < |qs| && Shown(qs[iq])
      invariant 0 <= iq <= |qs| && ia == iq
      invariant forall i :: 0 <= i < iq ==> Shown(qs[i])
      invariant out == TurnsUpTo(qs, answers, iq)
      decreases |qs| - iq
    {
      var turn := [Entry(You, qs[iq])];
      if ia < |answers| && Shown(answers[iq]) {
        turn := turn + [Entry(Assistant, answers[iq])];
      }
      assert turn == Turn(qs, answers, iq);
      out := out + turn;
      iq := iq + 1;
      ia := ia + 1;
    }
    TurnsTexts(qs, answers, iq);
  }

  /** `chat_messages`: the greeting with the queue length first, then the
      turns of a 'chat' job; the spinner and timer follow the status. */
  method ChatMessages(greeting: string, queued: nat, st: PollStatus) returns (transcript: seq<Entry>, indicator: Indicator)
    ensures |transcript| >= 1 && transcript[0] == Greeting(greeting, queued)
    ensures st.jobType != Some("chat") ==> transcript == [Greeting(greeting, queued)]
    ensures |transcript| <= 1 + 2 * |ChatInputs(st).0|
    ensures Texts(transcript[1..], You) == ChatInputs(st).0[..PromptsShown(ChatInputs(st).0)]
    ensures indicator.thinking <==> st.status == Some("processing")
    ensures !indicator.timerActive <==> st.status == Some("finished")
  {
    var (questions, answers) := ChatInputs(st);
    var turns := ChatTurns(questions, answers);
    TurnsTexts(questions, answers, PromptsShown(questions));
    if st.jobType != Some("chat") {
      assert turns == [];
    }
    transcript := [Greeting(greeting, queued)] + turns;
    assert transcript[1..] == turns;
    indicator := StatusIndicator(st.status);
  }
}
