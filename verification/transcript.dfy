/** What the chat and PDF pages share: the transcript they render as a list
    of `(name, text)` pairs, the job status they poll, the queue length in
    the greeting, and the spinner/timer decision. */
module Transcript {
  import opened Wrappers

  /** Who an entry is shown as: the configured assistant name or "you". */
  datatype Speaker = Assistant | You

  datatype Entry = Entry(speaker: Speaker, text: string)

  /** The fields of a polled job status the pages read. */
  datatype PollStatus = PollStatus(
    jobType: Option<string>,
    status: Option<string>,
    prompt: Option<seq<string>>,
    answer: Option<seq<string>>)

  /** The texts of one speaker's entries, in order. */
  function Texts(entries: seq<Entry>, who: Speaker): (texts: seq<string>)
    ensures |texts| <= |entries|
  {
    if entries == [] then []
    else
      var last := entries[|entries| - 1];
      Texts(entries[..|entries| - 1], who) + (if last.speaker == who then [last.text] else [])
  }

  /** Appending one entry appends its text to its own speaker's texts only. */
  lemma TextsSnoc(entries: seq<Entry>, e: Entry, who: Speaker)
    ensures Texts(entries + [e], who) == Texts(entries, who) + (if e.speaker == who then [e.text] else [])
  {
    assert (entries + [e])[..|entries|] == entries;
  }

  /** Every entry is shown as exactly one of the two speakers, so their
      texts together are as many as the entries. */
  lemma {:induction false} TextsPartition(entries: seq<Entry>)
    ensures |Texts(entries, You)| + |Texts(entries, Assistant)| == |entries|
    decreases |entries|
  {
    if entries != [] {
      TextsPartition(entries[..|entries| - 1]);
    }
  }

  /** Python's truthiness of a string: non-empty. */
  predicate Shown(text: string) {
    text != ""
  }

  /** The non-empty strings of `s`, in order. */
  function NonEmpty(s: seq<string>): (r: seq<string>)
    ensures |r| <= |s|
    ensures forall i :: 0 <= i < |r| ==> Shown(r[i])
  {
    if s == [] then []
    else NonEmpty(s[..|s| - 1]) + (if Shown(s[|s| - 1]) then [s[|s| - 1]] else [])
  }

  /** Growing a sequence by one grows its non-empty part by that element
      when it is non-empty. */
  lemma NonEmptySnoc(s: seq<string>, i: nat)
    requires i < |s|
    ensures NonEmpty(s[..i + 1]) == NonEmpty(s[..i]) + (if Shown(s[i]) then [s[i]] else [])
  {
    assert s[..i + 1][..i] == s[..i];
  }

  /** A sequence without empty strings is its own non-empty part. */
  lemma {:induction false} NonEmptyOfAllShown(s: seq<string>)
    requires forall i :: 0 <= i < |s| ==> Shown(s[i])
    ensures NonEmpty(s) == s
    decreases |s|
  {
    if s != [] {
      NonEmptyOfAllShown(s[..|s| - 1]);
    }
  }

  /** The entries showing each string of `texts` as `who`. */
  function Entries(who: Speaker, texts: seq<string>): (r: seq<Entry>)
    ensures |r| == |texts|
    ensures forall i :: 0 <= i < |texts| ==> r[i] == Entry(who, texts[i])
  {
    if texts == [] then [] else [Entry(who, texts[0])] + Entries(who, texts[1..])
  }

  /** One decimal digit. */
  function Digit(d: nat): (c: char)
    requires d < 10
    ensures '0' <= c <= '9'
  {
    "0123456789"[d]
  }

  /** `str(n)` for a queue length. */
  function NatToString(n: nat): (s: string)
    ensures |s| >= 1
    ensures forall i :: 0 <= i < |s| ==> '0' <= s[i] <= '9'
  {
    if n < 10 then [Digit(n)] else NatToString(n / 10) + [Digit(n % 10)]
  }

  /** The value of a string of decimal digits. */
  function DecimalValue(s: string): nat
    requires forall i :: 0 <= i < |s| ==> '0' <= s[i] <= '9'
  {
    if s == [] then 0 else DecimalValue(s[..|s| - 1]) * 10 + (s[|s| - 1] - '0') as nat
  }

  /** The greeting's queue length reads back as the number it was made from,
      and has no leading zero. */
  lemma {:induction false} NatToStringRoundTrip(n: nat)
    ensures DecimalValue(NatToString(n)) == n
    ensures n >= 10 ==> NatToString(n)[0] != '0'
    decreases n
  {
    var s := NatToString(n);
    if n < 10 {
      assert s[..0] == [];
      assert s[0] == "0123456789"[n];
    } else {
      NatToStringRoundTrip(n / 10);
      assert s[..|s| - 1] == NatToString(n / 10);
      assert s[|s| - 1] == "0123456789"[n % 10];
      if n / 10 >= 10 {
        assert s[0] == NatToString(n / 10)[0];
      } else {
        assert s[0] == "0123456789"[n / 10];
      }
    }
  }

  /** The greeting both pages open with: the configured text followed by
      the number of queued jobs. */
  function Greeting(greeting: string, queued: nat): (e: Entry)
    ensures e.speaker == Assistant
    ensures |e.text| > |greeting| && e.text[..|greeting|] == greeting
    ensures forall i :: |greeting| <= i < |e.text| ==> '0' <= e.text[i] <= '9'
    ensures DecimalValue(e.text[|greeting|..]) == queued
  {
    NatToStringRoundTrip(queued);
    assert (greeting + NatToString(queued))[|greeting|..] == NatToString(queued);
    Entry(Assistant, greeting + NatToString(queued))
  }

  /** Whether the spinner is shown and the refresh timer left running. */
  datatype Indicator = Indicator(thinking: bool, timerActive: bool)

  /** The status block after the transcript: the spinner shows exactly while
      the job is "processing"; the timer is deactivated exactly when it is
      "finished" and kept running otherwise (no status included). */
  function StatusIndicator(status: Option<string>): (r: Indicator)
    ensures r.thinking <==> status == Some("processing")
    ensures !r.timerActive <==> status == Some("finished")
  {
    match status
    case Some(s) =>
      var thinking := s == "processing";
      var timerActive := true;
      if s == "finished" then Indicator(thinking, false) else Indicator(thinking, timerActive)
    case None => Indicator(false, true)
  }
}
