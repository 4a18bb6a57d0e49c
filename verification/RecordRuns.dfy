/** Whole recording runs: every interleaving of capture reads, clock updates and prompts
    (server/crates/dialf/src/audio/record.rs). */
module RecordRuns {
  import opened Capture
  import opened Record
  import opened Seqs

  /** A step of the capture thread (a read, or publishing its clock) or of the job thread. */
  datatype Event = Read(samples: seq<Sample>) | Publish | Place(prompt: seq<Sample>)

  function CapturedIn(events: seq<Event>): seq<Sample> {
    if events == [] then []
    else
      var before, e := CapturedIn(events[..|events| - 1]), events[|events| - 1];
      if e.Read? then before + e.samples else before
  }

  /** The published clock: the frames captured when it was last published. */
  function ClockAfter(events: seq<Event>, ch: nat): nat
    requires ch > 0
  {
    if events == [] then 0
    else if events[|events| - 1].Publish? then |Blocks(CapturedIn(events), ch)|
    else ClockAfter(events[..|events| - 1], ch)
  }

  function PromptsIn(events: seq<Event>, ch: nat): seq<Prompt>
    requires ch > 0
  {
    if events == [] then []
    else
      var init, e := events[..|events| - 1], events[|events| - 1];
      if e.Place? then PromptsIn(init, ch) + [Prompt(ClockAfter(init, ch), e.prompt)] else PromptsIn(init, ch)
  }

  ghost predicate WellFormed(events: seq<Event>, ch: nat)
    requires ch > 0
  {
    forall i :: 0 <= i < |events| && events[i].Place? ==> WholeFrames(events[i].prompt, ch)
  }

  lemma EventsSnoc(events: seq<Event>, i: nat, ch: nat)
    requires ch > 0 && i < |events|
    ensures var now, next, e := events[..i], events[..i + 1], events[i];
      && CapturedIn(next) == (if e.Read? then CapturedIn(now) + e.samples else CapturedIn(now))
      && ClockAfter(next, ch) == (if e.Publish? then |Blocks(CapturedIn(now), ch)| else ClockAfter(now, ch))
      && PromptsIn(next, ch) ==
           if e.Place? then PromptsIn(now, ch) + [Prompt(ClockAfter(now, ch), e.prompt)] else PromptsIn(now, ch)
  {
    assert events[..i + 1][..i] == events[..i];
  }

  method TakeStep(s: DuplexSession, e: Event)
    requires s.Valid() && (e.Place? ==> WholeFrames(e.prompt, s.channels))
    modifies s
    ensures s.Valid()
    ensures s.captured == if e.Read? then old(s.captured) + e.samples else old(s.captured)
    ensures s.rxLen == if e.Publish? then |Blocks(s.captured, s.channels)| else old(s.rxLen)
    ensures s.prompts == if e.Place? then old(s.prompts) + [Prompt(s.rxLen, e.prompt)] else old(s.prompts)
  {
    match e
    case Read(samples) => var _ := s.CaptureRead(samples);
    case Publish => s.Publish();
    case Place(prompt) => s.PushTx(prompt);
  }

  /** Run a session through any interleaving and finish it. */
  method RecordSession(events: seq<Event>, rate: nat, ch: nat, mix: bool, txLeft: bool) returns (out: Recording)
    requires ch > 0 && WellFormed(events, ch)
    ensures out == Finished(Blocks(CapturedIn(events), ch), Timeline(PromptsIn(events, ch), ch), ch, mix, txLeft)
  {
    var s := new DuplexSession(rate, ch, mix, txLeft);
    for i := 0 to |events|
      invariant s.Valid() && fresh(s) && s.channels == ch && s.mix == mix && s.mixTxLeft == txLeft
      invariant s.captured == CapturedIn(events[..i]) && s.prompts == PromptsIn(events[..i], ch)
      invariant s.rxLen == ClockAfter(events[..i], ch)
    {
      EventsSnoc(events, i, ch);
      TakeStep(s, events[i]);
    }
    assert events[..|events|] == events;
    out := s.Finish();
  }

  // ---- the passive recorder replaying a run ----------------------------------------------------

  datatype Op = PushRx(frames: seq<Sample>) | PushTxAt(offset: nat, prompt: seq<Sample>)

  function FramesPushed(ops: seq<Op>, ch: nat): (r: seq<Frame>)
    requires ch > 0
    ensures Frames(r, ch)
  {
    if ops == [] then []
    else
      var before, o := FramesPushed(ops[..|ops| - 1], ch), ops[|ops| - 1];
      if o.PushRx? then before + Blocks(o.frames, ch) else before
  }

  function PromptsPushed(ops: seq<Op>): seq<Prompt> {
    if ops == [] then []
    else
      var before, o := PromptsPushed(ops[..|ops| - 1]), ops[|ops| - 1];
      if o.PushTxAt? then before + [Prompt(o.offset, o.prompt)] else before
  }

  ghost predicate WellFormedOps(ops: seq<Op>, ch: nat)
    requires ch > 0
  {
    forall i :: 0 <= i < |ops| ==> WholeFrames(if ops[i].PushRx? then ops[i].frames else ops[i].prompt, ch)
  }

  method RecordPassively(ops: seq<Op>, ch: nat, mix: bool, txLeft: bool) returns (out: Recording)
    requires ch > 0 && WellFormedOps(ops, ch)
    ensures out == Finished(FramesPushed(ops, ch), Timeline(PromptsPushed(ops), ch), ch, mix, txLeft)
  {
    var r := new DuplexRecorder(ch, mix, txLeft);
    for i := 0 to |ops|
      invariant r.Valid() && fresh(r) && r.channels == ch && r.mix == mix && r.mixTxLeft == txLeft
      invariant r.rxFrames == FramesPushed(ops[..i], ch) && r.prompts == PromptsPushed(ops[..i])
    {
      assert ops[..i + 1][..i] == ops[..i];
      match ops[i]
      case PushRx(frames) => var _ := r.PushRx(frames);
      case PushTxAt(offset, prompt) => r.PushTxAt(offset, prompt);
    }
    assert ops[..|ops|] == ops;
    out := r.Finish();
  }

  /** The calls that replay a run: each read's whole frames, and each prompt at its offset. */
  function ReplayOf(events: seq<Event>, ch: nat): seq<Op>
    requires ch > 0
  {
    if events == [] then []
    else
      var init, e := events[..|events| - 1], events[|events| - 1];
      match e
      case Read(samples) => ReplayOf(init, ch) + [PushRx(ChunkAt(init, samples, ch))]
      case Publish => ReplayOf(init, ch)
      case Place(prompt) => ReplayOf(init, ch) + [PushTxAt(ClockAfter(init, ch), prompt)]
  }

  /** The whole frames a read makes available. */
  function ChunkAt(before: seq<Event>, read: seq<Sample>, ch: nat): seq<Sample>
    requires ch > 0
  {
    Flatten(Blocks(Leftover(CapturedIn(before), ch) + read, ch))
  }

  ghost predicate Matches(ops: seq<Op>, events: seq<Event>, ch: nat)
    requires ch > 0
  {
    && WellFormedOps(ops, ch)
    && FramesPushed(ops, ch) == Blocks(CapturedIn(events), ch)
    && PromptsPushed(ops) == PromptsIn(events, ch)
  }

  lemma ReadMatches(ops: seq<Op>, events: seq<Event>, samples: seq<Sample>, ch: nat)
    requires ch > 0 && Matches(ops, events, ch)
    ensures Matches(ops + [PushRx(ChunkAt(events, samples, ch))], events + [Read(samples)], ch)
  {
    var o := PushRx(ChunkAt(events, samples, ch));
    assert (ops + [o])[..|ops|] == ops && (events + [Read(samples)])[..|events|] == events;
    ChunkOf(CapturedIn(events), samples, ch);
  }

  lemma PlaceMatches(ops: seq<Op>, events: seq<Event>, prompt: seq<Sample>, ch: nat)
    requires ch > 0 && Matches(ops, events, ch) && WholeFrames(prompt, ch)
    ensures Matches(ops + [PushTxAt(ClockAfter(events, ch), prompt)], events + [Place(prompt)], ch)
  {
    var o := PushTxAt(ClockAfter(events, ch), prompt);
    assert (ops + [o])[..|ops|] == ops && (events + [Place(prompt)])[..|events|] == events;
  }

  /** A passive recorder that replays a run ends with the same frames and prompts as the session, so
      `RecordSession` and `RecordPassively` return the same recording. */
  lemma {:induction false} ReplayMatches(events: seq<Event>, ch: nat)
    requires ch > 0 && WellFormed(events, ch)
    ensures Matches(ReplayOf(events, ch), events, ch)
  {
    if events != [] {
      var init, e := events[..|events| - 1], events[|events| - 1];
      assert events == init + [e];
      ReplayMatches(init, ch);
      match e
      case Read(samples) => ReadMatches(ReplayOf(init, ch), init, samples, ch);
      case Publish =>
      case Place(prompt) => PlaceMatches(ReplayOf(init, ch), init, prompt, ch);
    }
  }
}
