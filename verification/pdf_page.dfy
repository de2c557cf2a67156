/** The PDF page's `pdf_messages`: the greeting, the document's processing
    status, and the questions and answers interleaved by a loop that skips
    empty entries; the `pdf_ready` flags it updates from the polled status;
    and the flag reset of `delete_chat`. */
module PdfPage {
  import opened Wrappers
  import opened Transcript

  /** No empty string in `s`. */
  predicate AllShown(s: seq<string>) {
    forall i :: 0 <= i < |s| ==> Shown(s[i])
  }

  /** `q0, a0, q1, a1, ...` for the first `m` pairs. */
  function Pairs(qs: seq<string>, answers: seq<string>, m: nat): (r: seq<Entry>)
    requires m <= |qs| && m <= |answers|
    ensures |r| == 2 * m
  {
    if m == 0 then []
    else Pairs(qs, answers, m - 1) + [Entry(You, qs[m - 1]), Entry(Assistant, answers[m - 1])]
  }

  /** The strict alternation the page intends: question, answer, question,
      answer, ... and then the leftovers of the longer list. */
  function Alternate(qs: seq<string>, answers: seq<string>): seq<Entry> {
    var m := Min(|qs|, |answers|);
    Pairs(qs, answers, m) + Entries(You, qs[m..]) + Entries(Assistant, answers[m..])
  }

  /** The alternation of the first `iq` questions and `ia` answers. */
  function Merged(qs: seq<string>, answers: seq<string>, iq: nat, ia: nat): seq<Entry>
    requires iq <= |qs| && ia <= |answers|
  {
    var m := Min(iq, ia);
    Pairs(qs, answers, m) + Entries(You, qs[m..iq]) + Entries(Assistant, answers[m..ia])
  }

  /** Between iterations of the loop on lists without empty entries, the two
      positions are equal or the one ahead has a finished partner. */
  predicate InStep(qs: seq<string>, answers: seq<string>, iq: nat, ia: nat) {
    iq == ia || (iq > ia && ia == |answers|) || (ia > iq && iq == |qs|)
  }

  lemma EntriesSnoc(who: Speaker, s: seq<string>, lo: nat, hi: nat)
    requires lo <= hi < |s|
    ensures Entries(who, s[lo..hi + 1]) == Entries(who, s[lo..hi]) + [Entry(who, s[hi])]
  {
  }

  /** One more pair when both positions advance together. */
  lemma MergedBoth(qs: seq<string>, answers: seq<string>, k: nat)
    requires k < |qs| && k < |answers|
    ensures Merged(qs, answers, k + 1, k + 1)
            == Merged(qs, answers, k, k) + [Entry(You, qs[k]), Entry(Assistant, answers[k])]
  {
  }

  /** One more leftover question once the answers are used up. */
  lemma MergedQuestion(qs: seq<string>, answers: seq<string>, iq: nat)
    requires |answers| <= iq < |qs|
    ensures Merged(qs, answers, iq + 1, |answers|) == Merged(qs, answers, iq, |answers|) + [Entry(You, qs[iq])]
  {
    EntriesSnoc(You, qs, |answers|, iq);
  }

  /** One more leftover answer once the questions are used up. */
  lemma MergedAnswer(qs: seq<string>, answers: seq<string>, ia: nat)
    requires |qs| <= ia < |answers|
    ensures Merged(qs, answers, |qs|, ia + 1) == Merged(qs, answers, |qs|, ia) + [Entry(Assistant, answers[ia])]
  {
    EntriesSnoc(Assistant, answers, |qs|, ia);
  }

  /** What the interleaving loop keeps between passes, after showing the
      first `iq` questions and `ia` answers: each speaker's texts are the
      non-empty entries seen so far, and on lists without empty entries the
      output is their alternation. */
  ghost predicate Progress(qs: seq<string>, answers: seq<string>, out: seq<Entry>, iq: nat, ia: nat) {
    && iq <= |qs| && ia <= |answers|
    && Texts(out, You) == NonEmpty(qs[..iq])
    && Texts(out, Assistant) == NonEmpty(answers[..ia])
    && (AllShown(qs) && AllShown(answers) ==> Lockstep(qs, answers, out, iq, ia))
  }

  /** On lists without empty entries the loop keeps the two positions in
      step and its output is their alternation so far. */
  ghost predicate Lockstep(qs: seq<string>, answers: seq<string>, out: seq<Entry>, iq: nat, ia: nat)
    requires iq <= |qs| && ia <= |answers|
  {
    InStep(qs, answers, iq, ia) && out == Merged(qs, answers, iq, ia)
  }

  /** A pass over lists without empty entries shows the next question and
      the next answer, whichever exist, and so keeps the lockstep. */
  lemma LockstepPass(qs: seq<string>, answers: seq<string>, out: seq<Entry>, iq: nat, ia: nat,
                     out': seq<Entry>, iq': nat, ia': nat)
    requires iq <= |qs| && ia <= |answers|
    requires Lockstep(qs, answers, out, iq, ia)
    requires iq < |qs| && ia < |answers| ==>
               out' == out + [Entry(You, qs[iq])] + [Entry(Assistant, answers[ia])] && iq' == iq + 1 && ia' == ia + 1
    requires iq < |qs| && ia == |answers| ==> out' == out + [Entry(You, qs[iq])] && iq' == iq + 1 && ia' == ia
    requires iq == |qs| && ia < |answers| ==> out' == out + [Entry(Assistant, answers[ia])] && iq' == iq && ia' == ia + 1
    requires iq == |qs| && ia == |answers| ==> out' == out && iq' == iq && ia' == ia
    ensures iq' <= |qs| && ia' <= |answers|
    ensures Lockstep(qs, answers, out', iq', ia')
  {
    if iq < |qs| && ia < |answers| {
      MergedBoth(qs, answers, iq);
    } else if iq < |qs| {
      MergedQuestion(qs, answers, iq);
    } else if ia < |answers| {
      MergedAnswer(qs, answers, ia);
    }
  }

  /** One list's turn within a pass: its next entry, if any, is shown when
      non-empty and skipped (ending the pass) when empty. */
  method NextEntry(who: Speaker, s: seq<string>, out: seq<Entry>, i: nat)
    returns (out': seq<Entry>, i': nat, skipped: bool)
    requires i <= |s|
    requires Texts(out, who) == NonEmpty(s[..i])
    ensures i' == (if i < |s| then i + 1 else i) && i' <= |s|
    ensures skipped <==> i < |s| && !Shown(s[i])
    ensures out' == (if i < |s| && Shown(s[i]) then out + [Entry(who, s[i])] else out)
    ensures Texts(out', who) == NonEmpty(s[..i'])
    ensures forall other :: other != who ==> Texts(out', other) == Texts(out, other)
  {
    out', i', skipped := out, i, false;
    if i < |s| {
      NonEmptySnoc(s, i);
      if Shown(s[i]) {
        forall w: Speaker {
          TextsSnoc(out, Entry(who, s[i]), w);
        }
        out' := out + [Entry(who, s[i])];
      } else {
        skipped := true;
      }
      i' := i + 1;
    }
  }

  /** Whether the pass starting at `iq`, `ia` meets an empty entry and ends
      early: the next question, or else (when there is no next question or
      it is shown) the next answer. */
  predicate HitsEmpty(qs: seq<string>, answers: seq<string>, iq: nat, ia: nat) {
    || (iq < |qs| && !Shown(qs[iq]))
    || ((iq >= |qs| || Shown(qs[iq])) && ia < |answers| && !Shown(answers[ia]))
  }

  /** One pass of the interleaving loop: show the next question if it is
      non-empty (an empty one is skipped and the pass ends early), then
      likewise the next answer; a pass that gets to its end with both lists
      used up finishes the loop. Every other pass advances a position. */
  method Pass(qs: seq<string>, answers: seq<string>, out: seq<Entry>, iq: nat, ia: nat)
    returns (out': seq<Entry>, iq': nat, ia': nat, outputFin: bool)
    requires iq <= |qs| && ia <= |answers|
    requires Texts(out, You) == NonEmpty(qs[..iq])
    requires Texts(out, Assistant) == NonEmpty(answers[..ia])
    ensures iq' <= |qs| && ia' <= |answers|
    ensures Texts(out', You) == NonEmpty(qs[..iq'])
    ensures Texts(out', Assistant) == NonEmpty(answers[..ia'])
    ensures iq < |qs| && ia < |answers| && Shown(qs[iq]) && Shown(answers[ia]) ==>
              out' == out + [Entry(You, qs[iq])] + [Entry(Assistant, answers[ia])] && iq' == iq + 1 && ia' == ia + 1
    ensures iq < |qs| && ia == |answers| && Shown(qs[iq]) ==>
              out' == out + [Entry(You, qs[iq])] && iq' == iq + 1 && ia' == ia
    ensures iq == |qs| && ia < |answers| && Shown(answers[ia]) ==>
              out' == out + [Entry(Assistant, answers[ia])] && iq' == iq && ia' == ia + 1
    ensures outputFin <==> !HitsEmpty(qs, answers, iq, ia) && iq' == |qs| && ia' == |answers|
    ensures iq == |qs| && ia == |answers| ==> outputFin && out' == out && iq' == iq && ia' == ia
    ensures !outputFin ==> iq' + ia' > iq + ia
  {
    out', iq', ia', outputFin := out, iq, ia, false;
    var skipped;
    out', iq', skipped := NextEntry(You, qs, out', iq');
    if skipped {
      return;
    }
    out', ia', skipped := NextEntry(Assistant, answers, out', ia');
    if skipped {
      return;
    }
    if iq' >= |qs| && ia' >= |answers| {
      outputFin := true;
    }
  }

  /** The passes of the interleaving loop, run until the finishing pass;
      afterwards both lists are used up. */
  method InterleavePasses(qs: seq<string>, answers: seq<string>) returns (out: seq<Entry>)
    ensures Progress(qs, answers, out, |qs|, |answers|)
  {
    out := [];
    var iq: nat := 0;
    var ia: nat := 0;
    var outputFin := false;
    while !outputFin
      invariant Progress(qs, answers, out, iq, ia)
      invariant outputFin ==> iq == |qs| && ia == |answers|
      decreases |qs| - iq + |answers| - ia + (if outputFin then 0 else 1)
    {
      ghost var out0, iq0, ia0 := out, iq, ia;
      out, iq, ia, outputFin := Pass(qs, answers, out, iq, ia);
      if AllShown(qs) && AllShown(answers) {
        LockstepPass(qs, answers, out0, iq0, ia0, out, iq, ia);
      }
    }
  }

  /** The interleaving loop of `pdf_messages`. The question entries are
      exactly the non-empty questions in order, the answer entries exactly
      the non-empty answers in order; with no empty entries the result is
      `q0, a0, q1, a1, ...` followed by the leftovers of the longer list.
      (By `TextsPartition` it has at most one entry per question and
      answer.) */
  method PdfInterleave(qs: seq<string>, answers: seq<string>) returns (out: seq<Entry>)
    ensures Texts(out, You) == NonEmpty(qs)
    ensures Texts(out, Assistant) == NonEmpty(answers)
    ensures AllShown(qs) && AllShown(answers) ==> out == Alternate(qs, answers)
  {
    out := InterleavePasses(qs, answers);
    assert qs[..|qs|] == qs && answers[..|answers|] == answers;
    if AllShown(qs) && AllShown(answers) {
      assert qs[|qs|..|qs|] == qs[|qs|..] && answers[|answers|..|answers|] == answers[|answers|..];
    }
  }

  /** The questions and answers the page reads: prompts and answers of a
      'pdf_chat' job, answers only of a 'pdf_summarize' job, nothing
      otherwise. */
  function PdfInputs(st: PollStatus): (r: (seq<string>, seq<string>))
    ensures st.jobType != Some("pdf_chat") && st.jobType != Some("pdf_summarize") ==> r == ([], [])
    ensures st.jobType == Some("pdf_summarize") ==> r.0 == []
    ensures (st.jobType == Some("pdf_chat") || st.jobType == Some("pdf_summarize")) && st.answer.Some?
            ==> r.1 == st.answer.value
    ensures st.jobType == Some("pdf_chat") && st.prompt.Some? ==> r.0 == st.prompt.value
  {
    if st.jobType == Some("pdf_chat") then (st.prompt.GetOr([]), st.answer.GetOr([]))
    else if st.jobType == Some("pdf_summarize") then ([], st.answer.GetOr([]))
    else ([], [])
  }

  /** `pdf_messages`' transcript: the greeting with the queue length, the
      processing report of a 'pdf_processing' job that has a status, then the
      interleaved questions and answers. */
  method PdfMessages(greeting: string, processed: string, queued: nat, st: PollStatus)
    returns (transcript: seq<Entry>, indicator: Indicator)
    ensures |transcript| >= 1 && transcript[0] == Greeting(greeting, queued)
    ensures st.jobType == Some("pdf_processing") && st.status.Some? ==>
              |transcript| >= 2 && transcript[1] == Entry(Assistant, processed + st.status.value)
    ensures Texts(transcript[1..], You) == NonEmpty(PdfInputs(st).0)
    ensures indicator.thinking <==> st.status == Some("processing")
    ensures !indicator.timerActive <==> st.status == Some("finished")
  {
    var (questions, answers) := PdfInputs(st);
    var report := if st.jobType == Some("pdf_processing") && st.status.Some?
                  then [Entry(Assistant, processed + st.status.value)] else [];
    var body := PdfInterleave(questions, answers);
    transcript := [Greeting(greeting, queued)] + report + body;
    assert transcript[1..] == report + body;
    ReportShowsNoQuestion(report, body);
    indicator := StatusIndicator(st.status);
  }

  /** An assistant entry placed before the questions and answers adds no
      question text. */
  lemma ReportShowsNoQuestion(report: seq<Entry>, body: seq<Entry>)
    requires |report| <= 1 && (report != [] ==> report[0].speaker == Assistant)
    ensures Texts(report + body, You) == Texts(body, You)
  {
    TextsConcat(report, body, You);
    if report != [] {
      assert report[..0] == [];
    }
    assert Texts(report, You) == [];
  }

  /** The texts of a concatenation are the concatenation of the texts. */
  lemma {:induction false} TextsConcat(a: seq<Entry>, b: seq<Entry>, who: Speaker)
    ensures Texts(a + b, who) == Texts(a, who) + Texts(b, who)
    decreases |b|
  {
    if b != [] {
      var init := b[..|b| - 1];
      var last := b[|b| - 1];
      assert a + b == (a + init) + [last];
      assert b == init + [last];
      TextsSnoc(a + init, last, who);
      TextsSnoc(init, last, who);
      TextsConcat(a, init, who);
    } else {
      assert a + b == a;
    }
  }

  /** The `pdf_ready` flags after a poll. For a 'pdf_processing' job with a
      status, "finished" sets ready and answered and any other status clears
      ready; for 'pdf_chat' and 'pdf_summarize' jobs, answered becomes
      whether the status is "finished"; nothing else is touched. */
  function UpdateFlags(flags: map<string, bool>, st: PollStatus): (r: map<string, bool>)
    ensures forall k :: k != "ready" && k != "answered" ==>
              (k in r <==> k in flags) && (k in flags ==> r[k] == flags[k])
    ensures st.jobType == Some("pdf_processing") && st.status == Some("finished") ==>
              "ready" in r && r["ready"] && "answered" in r && r["answered"]
    ensures st.jobType == Some("pdf_processing") && st.status.Some? && st.status != Some("finished") ==>
              "ready" in r && !r["ready"] && r - {"ready"} == flags - {"ready"}
    ensures st.jobType == Some("pdf_chat") || st.jobType == Some("pdf_summarize") ==>
              "answered" in r && (r["answered"] <==> st.status == Some("finished")) &&
              r - {"answered"} == flags - {"answered"}
    ensures (st.jobType == Some("pdf_processing") && st.status.None?) ||
            (st.jobType != Some("pdf_processing") && st.jobType != Some("pdf_chat") && st.jobType != Some("pdf_summarize"))
            ==> r == flags
  {
    if st.jobType == Some("pdf_processing") && st.status.Some? then
      if st.status.value != "finished" then flags["ready" := false]
      else flags["ready" := true]["answered" := true]
    else if st.jobType == Some("pdf_chat") then flags["answered" := st.status == Some("finished")]
    else if st.jobType == Some("pdf_summarize") then flags["answered" := st.status == Some("finished")]
    else flags
  }

  /** `delete_chat`'s reset: not ready, not answered, ready to upload; other
      keys are kept. */
  function ResetFlags(flags: map<string, bool>): (r: map<string, bool>)
    ensures "ready" in r && !r["ready"]
    ensures "answered" in r && !r["answered"]
    ensures "ready_to_upload" in r && r["ready_to_upload"]
    ensures forall k :: k != "ready" && k != "answered" && k != "ready_to_upload" ==>
              (k in r <==> k in flags) && (k in flags ==> r[k] == flags[k])
  {
    flags["ready" := false]["answered" := false]["ready_to_upload" := true]
  }

  /** After a reset, a poll that is not about the document's processing
      leaves the page ready to upload. */
  lemma ResetThenPollKeepsUpload(flags: map<string, bool>, st: PollStatus)
    ensures var r := UpdateFlags(ResetFlags(flags), st);
            "ready_to_upload" in r && r["ready_to_upload"]
  {
  }
}
