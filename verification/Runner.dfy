/** The job runner (server/crates/dialf/src/jobs/runner.rs), driving a phone. */
module Runner {
  import opened Arithmetic
  import opened Phone
  import opened Record
  import opened Seqs
  import opened Vad

  datatype StepKind =
    | AudioPlay(file: string)
    | AudioWaitForSpeech(endTimeoutMs: nat, silenceDurationMs: nat, onsetDurationMs: nat)
    | AudioWaitForSpeechStart(startTimeoutMs: nat, waitAfterStartMs: nat, onsetMs: nat)
    | CallDial(number: string)
    | CallWaitAnswered(answerTimeoutMs: nat)
    | CallAnswer
    | CallHangup
    | SmsSend(to: string, body: string)
    | Wait(ms: nat)
    | LogStep(message: string)

  datatype Step = Step(id: Option<string>, kind: StepKind, description: Option<string>)

  /** The wire name of a step, or of the marker a stopped job adds. */
  datatype StepName =
    | NPlay | NWaitForSpeech | NWaitForSpeechStart | NDial | NWaitAnswered | NAnswer | NHangup | NSms | NWait | NLog
    | NMarker

  datatype StepEnd = Completed | TimedOut | Skipped | Cancelled | CallOver

  datatype StepOutcome = StepOutcome(index: nat, id: Option<string>, name: StepName, description: Option<string>,
                                     tStartMs: nat, tEndMs: nat, end: StepEnd)

  function NameOf(kind: StepKind): StepName {
    match kind
    case AudioPlay(_) => NPlay
    case AudioWaitForSpeech(_, _, _) => NWaitForSpeech
    case AudioWaitForSpeechStart(_, _, _) => NWaitForSpeechStart
    case CallDial(_) => NDial
    case CallWaitAnswered(_) => NWaitAnswered
    case CallAnswer => NAnswer
    case CallHangup => NHangup
    case SmsSend(_, _) => NSms
    case Wait(_) => NWait
    case LogStep(_) => NLog
  }

  predicate CallSetup(kind: StepKind) { kind.CallDial? || kind.CallWaitAnswered? || kind.CallAnswer? }

  /** The operation a step asks for. */
  function OpOf(kind: StepKind): Op {
    match kind
    case AudioPlay(f) => Play(f)
    case AudioWaitForSpeech(e, s, o) => WaitForSpeech(e, s, o)
    case AudioWaitForSpeechStart(t, w, o) => WaitForSpeechStart(t, w, o)
    case CallDial(n) => Dial(n)
    case CallWaitAnswered(t) => WaitForAnswer(t)
    case CallAnswer => Answer
    case CallHangup => Hangup
    case SmsSend(t, b) => SendSms(t, b)
    case Wait(ms) => Sleep(ms)
    case LogStep(m) => Log(m)
  }

  /** The operation is the step's own, with the step's own arguments in their places. */
  ghost predicate AsksFor(kind: StepKind, op: Op) {
    match op
    case Play(file) => kind.AudioPlay? && kind.file == file
    case WaitForSpeech(end, silence, onset) =>
      && kind.AudioWaitForSpeech? && kind.endTimeoutMs == end && kind.silenceDurationMs == silence
      && kind.onsetDurationMs == onset
    case WaitForSpeechStart(timeout, wait, onset) =>
      && kind.AudioWaitForSpeechStart? && kind.startTimeoutMs == timeout && kind.waitAfterStartMs == wait
      && kind.onsetMs == onset
    case Dial(number) => kind.CallDial? && kind.number == number
    case WaitForAnswer(timeout) => kind.CallWaitAnswered? && kind.answerTimeoutMs == timeout
    case Answer => kind.CallAnswer?
    case Hangup => kind.CallHangup?
    case SendSms(to, body) => kind.SmsSend? && kind.to == to && kind.body == body
    case Sleep(ms) => kind.Wait? && kind.ms == ms
    case Log(message) => kind.LogStep? && kind.message == message
  }

  /** Every step is reported under its own name. */
  lemma NamesTellKinds(kind: StepKind)
    ensures NameOf(kind) == NPlay <==> kind.AudioPlay?
    ensures NameOf(kind) == NWaitForSpeech <==> kind.AudioWaitForSpeech?
    ensures NameOf(kind) == NWaitForSpeechStart <==> kind.AudioWaitForSpeechStart?
    ensures NameOf(kind) == NDial <==> kind.CallDial?
    ensures NameOf(kind) == NWaitAnswered <==> kind.CallWaitAnswered?
    ensures NameOf(kind) == NAnswer <==> kind.CallAnswer?
    ensures NameOf(kind) == NHangup <==> kind.CallHangup?
    ensures NameOf(kind) == NSms <==> kind.SmsSend?
    ensures NameOf(kind) == NWait <==> kind.Wait?
    ensures NameOf(kind) == NLog <==> kind.LogStep?
  {
  }

  /** Only an inbound job skips a step, and only one that sets up a call; a step that runs logs its
      description first, if it has one, and then asks for its own operation. */
  lemma SkippedExactly(step: Step, inbound: bool)
    ensures var ops := StepOps(step, inbound); var kind := step.kind;
      && (ops == [] <==> inbound && (kind.CallDial? || kind.CallWaitAnswered? || kind.CallAnswer?))
      && (ops != [] ==> AsksFor(kind, ops[|ops| - 1]) && |ops| == if step.description.Some? then 2 else 1)
      && (|ops| == 2 ==> step.description.Some? && ops[0] == Log(step.description.value))
  {
  }

  /** All a step asks for: its description is logged first; an inbound job skips call setup whole. */
  function StepOps(step: Step, inbound: bool): seq<Op> {
    if inbound && CallSetup(step.kind) then []
    else if step.description.Some? then [Log(step.description.value), OpOf(step.kind)]
    else [OpOf(step.kind)]
  }

  function OpsOf(steps: seq<Step>, inbound: bool): seq<Op> {
    if steps == [] then [] else OpsOf(steps[..|steps| - 1], inbound) + StepOps(steps[|steps| - 1], inbound)
  }

  lemma OpsSnoc(steps: seq<Step>, k: nat, inbound: bool)
    requires k < |steps|
    ensures OpsOf(steps[..k + 1], inbound) == OpsOf(steps[..k], inbound) + StepOps(steps[k], inbound)
  {
    assert steps[..k + 1][..k] == steps[..k];
  }

  /** The last call operation was not a hangup (with none, an inbound job is in its call). */
  predicate InCall(inbound: bool, ops: seq<Op>) {
    if ops == [] then inbound
    else
      var o := ops[|ops| - 1];
      if o.Dial? || o.Answer? then true else if o.Hangup? then false else InCall(inbound, ops[..|ops| - 1])
  }

  lemma InCallSnoc(inbound: bool, ops: seq<Op>, o: Op)
    ensures InCall(inbound, ops + [o]) == ((o.Dial? || o.Answer?) || (!o.Hangup? && InCall(inbound, ops)))
  {
    assert (ops + [o])[..|ops|] == ops;
  }

  /** How a step ends, given what came of its operation. A wait that ran out is reported, not failed. */
  function VerdictOf(r: OpResult): Option<StepEnd> {
    match r
    case Refused => None
    case Done => Some(Completed)
    case TurnEnded(reason) => Some(if reason.Timeout? then TimedOut else Completed)
    case Heard(started) => Some(if started then Completed else TimedOut)
  }

  /** One more result, and it is what the step reports. */
  ghost predicate Tells(before: seq<OpResult>, after: seq<OpResult>, r: Result<StepEnd, string>) {
    && |after| > |before| && before <= after
    && VerdictOf(after[|after| - 1]) == if r.Ok? then Some(r.value) else None
  }

  /** What an operation does to the call, and nothing else: a wait for an answer that is given up may have
      been cancelled, and then it hangs up. */
  ghost predicate CallsOf(op: Op, before: seq<CallEvent>, after: seq<CallEvent>, ok: bool) {
    after == before + CallEvents(op) || (op.WaitForAnswer? && !ok && after == before + [HungUp])
  }

  lemma ControlKeeps(inbound: bool, op: Op, before: seq<CallEvent>, after: seq<CallEvent>, ok: bool)
    requires CallsOf(op, before, after, ok)
    ensures NeverEnded(inbound, after) == NeverEnded(inbound, before)
  {
    NoEvent(before);
    if after != before {
      EndedSnoc(inbound, before, after[|before|]);
    }
  }

  lemma NoEvent(trace: seq<CallEvent>)
    ensures trace + [] == trace
  {
  }

  /** A step that plays puts its file on tx, and no other step touches it. */
  ghost predicate PlayedOnly(kind: StepKind, io: PhoneJobIo, before: seq<Prompt>, after: seq<Prompt>, start: nat,
                             end: nat)
    requires io.session != null ==> io.session.rate > 0
  {
    if kind.AudioPlay? && io.session != null then io.Prompted(before, after, kind.file, start, end) else after == before
  }

  /** A step of this kind has run: what it asked for, what it reports, and what it did to the call and
      to tx. */
  twostate predicate Ran(kind: StepKind, io: PhoneJobIo, new r: Result<StepEnd, string>)
    requires old(io.Valid()) && io.Valid()
    reads io.Footprint()
  {
    && io.Clock() >= old(io.Clock()) && io.ops == old(io.ops) + [OpOf(kind)]
    && |io.results| == |old(io.results)| + 1 && Tells(old(io.results), io.results, r)
    && CallsOf(OpOf(kind), old(io.trace), io.trace, r.Ok?) && io.NoLook()
    && (io.session == null ==> io.Prompts() == [])
    && (r.Ok? ==>
          && Watching(io.inbound, io.trace) == InCall(io.inbound, io.ops)
          && (r.value == Completed ||
              (r.value == TimedOut && (kind.AudioWaitForSpeech? || kind.AudioWaitForSpeechStart?)))
          && PlayedOnly(kind, io, old(io.Prompts()), io.Prompts(), old(io.Clock()), io.Clock()))
  }

  method RunPlay(kind: StepKind, io: PhoneJobIo) returns (r: Result<StepEnd, string>)
    requires io.Valid() && Watching(io.inbound, io.trace) == InCall(io.inbound, io.ops)
    requires kind.AudioPlay?
    modifies io.Footprint()
    ensures io.Valid() && Ran(kind, io, r)
  {
    InCallSnoc(io.inbound, io.ops, OpOf(kind));
    ghost var results := io.results;
    NoEvent(io.trace);
    var done := io.DoPlay(kind.file);
    r := Sent(done);
    TellsSnoc(results, ResultOf(done), r);
  }

  /** A wait that ran out of time is a timed-out step; any other end of a turn completes it. */
  method RunWait(kind: StepKind, io: PhoneJobIo) returns (r: Result<StepEnd, string>)
    requires io.Valid() && Watching(io.inbound, io.trace) == InCall(io.inbound, io.ops)
    requires kind.AudioWaitForSpeech? || kind.AudioWaitForSpeechStart?
    modifies io.Footprint()
    ensures io.Valid() && Ran(kind, io, r)
  {
    InCallSnoc(io.inbound, io.ops, OpOf(kind));
    ghost var results := io.results;
    NoEvent(io.trace);
    if kind.AudioWaitForSpeech? {
      var e := io.DoWaitForSpeech(OpOf(kind));
      r := if e.Err? then Err(e.error) else if e.value.Timeout? then Ok(TimedOut) else Ok(Completed);
      TellsSnoc(results, if e.Ok? then TurnEnded(e.value) else Refused, r);
    } else {
      var s := io.DoWaitForSpeechStart(OpOf(kind));
      r := if s.Err? then Err(s.error) else if s.value then Ok(Completed) else Ok(TimedOut);
      TellsSnoc(results, if s.Ok? then Heard(s.value) else Refused, r);
    }
  }

  lemma TellsSnoc(before: seq<OpResult>, x: OpResult, r: Result<StepEnd, string>)
    requires VerdictOf(x) == if r.Ok? then Some(r.value) else None
    ensures Tells(before, before + [x], r)
  {
  }

  /** Most steps complete when their operation does not fail. */
  function Sent(r: Result<(), string>): Result<StepEnd, string> { if r.Ok? then Ok(Completed) else Err(r.error) }

  method RunWaitAnswered(kind: StepKind, io: PhoneJobIo) returns (r: Result<StepEnd, string>)
    requires io.Valid() && Watching(io.inbound, io.trace) == InCall(io.inbound, io.ops)
    requires kind.CallWaitAnswered?
    modifies io.Footprint()
    ensures io.Valid() && Ran(kind, io, r)
  {
    InCallSnoc(io.inbound, io.ops, OpOf(kind));
    ghost var results := io.results;
    NoEvent(io.trace);
    var done, _ := io.DoWaitForAnswer(kind.answerTimeoutMs);
    r := if done.Ok? then Ok(Completed) else Err("call not answered");
    TellsSnoc(results, ResultOf(done), r);
  }

  method RunCall(kind: StepKind, ghost e: CallEvent, io: PhoneJobIo) returns (r: Result<StepEnd, string>)
    requires io.Valid() && Watching(io.inbound, io.trace) == InCall(io.inbound, io.ops)
    requires (kind.CallDial? && e.Dialed?) || (kind.CallAnswer? && e.Answered?) || (kind.CallHangup? && e.HungUp?)
    modifies io.Footprint()
    ensures io.Valid() && Ran(kind, io, r)
  {
    InCallSnoc(io.inbound, io.ops, OpOf(kind));
    ghost var results := io.results;
    TraceSnoc(io.inbound, io.trace, e);
    var done := SendCall(kind, e, io);
    r := Sent(done);
    TellsSnoc(results, ResultOf(done), r);
  }

  method SendCall(kind: StepKind, ghost e: CallEvent, io: PhoneJobIo) returns (done: Result<(), string>)
    requires io.Valid()
    requires (kind.CallDial? && e.Dialed?) || (kind.CallAnswer? && e.Answered?) || (kind.CallHangup? && e.HungUp?)
    modifies io.Footprint()
    ensures io.Valid() && io.Did(OpOf(kind), ResultOf(done), [e]) && io.OnlyTimePassed()
  {
    match kind
    case CallDial(n) => done := io.DoDial(n);
    case CallAnswer => done := io.DoAnswer();
    case CallHangup => done := io.DoHangup();
  }

  method RunOther(kind: StepKind, io: PhoneJobIo) returns (r: Result<StepEnd, string>)
    requires io.Valid() && Watching(io.inbound, io.trace) == InCall(io.inbound, io.ops)
    requires kind.SmsSend? || kind.Wait? || kind.LogStep?
    modifies io.Footprint()
    ensures io.Valid() && Ran(kind, io, r)
  {
    InCallSnoc(io.inbound, io.ops, OpOf(kind));
    ghost var results := io.results;
    NoEvent(io.trace);
    var done := DoOther(kind, io);
    r := Sent(done);
    TellsSnoc(results, ResultOf(done), r);
  }

  method DoOther(kind: StepKind, io: PhoneJobIo) returns (done: Result<(), string>)
    requires io.Valid() && (kind.SmsSend? || kind.Wait? || kind.LogStep?)
    modifies io.Footprint()
    ensures io.Valid() && io.Did(OpOf(kind), ResultOf(done), []) && io.OnlyTimePassed()
  {
    done := Ok(());
    match kind
    case SmsSend(_, _) => done := io.DoSendSms(OpOf(kind));
    case Wait(ms) => io.DoSleep(ms);
    case LogStep(m) => io.DoLog(m);
  }

  /** A step fails when its operation does, times out when that was a wait that ran out of time, and else
      completes. */
  ghost predicate EndsLike(result: OpResult, r: Result<StepEnd, string>) {
    && (r.Err? <==> result == Refused)
    && (r == Ok(TimedOut) <==> result == TurnEnded(Timeout) || result == Heard(false))
    && (r == Ok(Completed) <==>
        result == Done || result == Heard(true) || result == TurnEnded(EndReason.Silence)
        || result == TurnEnded(EndOfStream))
  }

  lemma VerdictIsEnd(result: OpResult, r: Result<StepEnd, string>)
    requires VerdictOf(result) == if r.Ok? then Some(r.value) else None
    ensures EndsLike(result, r)
  {
  }

  method RunStep(kind: StepKind, io: PhoneJobIo) returns (r: Result<StepEnd, string>)
    requires io.Valid() && Watching(io.inbound, io.trace) == InCall(io.inbound, io.ops)
    modifies io.Footprint()
    ensures io.Valid() && Ran(kind, io, r)
    ensures AsksFor(kind, io.ops[|io.ops| - 1]) && EndsLike(io.results[|io.results| - 1], r)
  {
    if kind.AudioPlay? {
      r := RunPlay(kind, io);
    } else if kind.CallDial? {
      r := RunCall(kind, Dialed, io);
    } else if kind.CallWaitAnswered? {
      r := RunWaitAnswered(kind, io);
    } else if kind.CallAnswer? {
      r := RunCall(kind, Answered, io);
    } else if kind.CallHangup? {
      r := RunCall(kind, HungUp, io);
    } else if kind.SmsSend? || kind.Wait? || kind.LogStep? {
      r := RunOther(kind, io);
    } else {
      r := RunWait(kind, io);
    }
    VerdictIsEnd(io.results[|io.results| - 1], r);
  }

  // ---- what a report says ----------------------------------------------------------------------

  /** An outcome that belongs to step i. */
  ghost predicate Echoes(o: StepOutcome, i: nat, step: Step) {
    o.index == i && o.id == step.id && o.name == NameOf(step.kind) && o.description == step.description
  }

  /** The step ran, or was skipped because an inbound job has its call already. */
  ghost predicate Reports(o: StepOutcome, i: nat, step: Step, inbound: bool) {
    && Echoes(o, i, step)
    && if inbound && CallSetup(step.kind) then o.end == Skipped && o.tStartMs == o.tEndMs
       else o.end == Completed || (o.end == TimedOut && !step.kind.AudioPlay?)
  }

  function SkippedOutcome(index: nat, step: Step, at: nat): StepOutcome {
    StepOutcome(index, step.id, NameOf(step.kind), step.description, at, at, Skipped)
  }

  /** The steps from `from` on, as never run. */
  function Skips(steps: seq<Step>, from: nat, at: nat): (r: seq<StepOutcome>)
    requires from <= |steps|
    ensures |r| == |steps| - from
    ensures forall i :: 0 <= i < |r| ==> r[i] == SkippedOutcome(from + i, steps[from + i], at)
  {
    seq(|steps| - from, i requires 0 <= i < |steps| - from => SkippedOutcome(from + i, steps[from + i], at))
  }

  datatype Stop = AllRan | StoppedAfter(index: nat, why: StepEnd) | FailedAt(index: nat)

  /** Steps 0..k have reported, in order, once each. */
  ghost predicate ReportsFor(outs: seq<StepOutcome>, steps: seq<Step>, k: nat, inbound: bool) {
    |outs| == k <= |steps| && forall i :: 0 <= i < k ==> Reports(outs[i], i, steps[i], inbound)
  }

  /** A job that ran out of steps reports each; one that stopped after step k adds one marker and a
      zero-width skip for each step it never reached. */
  ghost predicate ReportOf(outs: seq<StepOutcome>, steps: seq<Step>, stop: Stop, inbound: bool) {
    match stop
    case AllRan => ReportsFor(outs, steps, |steps|, inbound)
    case StoppedAfter(k, why) =>
      && k < |steps| && |outs| == |steps| + 1 && (why == Cancelled || why == CallOver)
      && !(inbound && CallSetup(steps[k].kind))
      && var m := outs[k + 1];
      && m.index == k + 1 && m.name == NMarker && m.end == why && m.tStartMs == m.tEndMs
      && ReportsFor(outs[..k + 1], steps, k + 1, inbound)
      && outs[k + 2..] == Skips(steps, k + 1, m.tStartMs)
    case FailedAt(_) => false
  }

  /** Every span lies within the time so far, and no span starts before an earlier one has ended. */
  ghost predicate Timed(outs: seq<StepOutcome>, now: nat) {
    && (forall i :: 0 <= i < |outs| ==> outs[i].tStartMs <= outs[i].tEndMs <= now)
    && forall i, j :: 0 <= i < j < |outs| ==> outs[i].tEndMs <= outs[j].tStartMs
  }

  /** The outcomes of the `audio.play` steps that ran. */
  ghost function Plays(outs: seq<StepOutcome>): seq<StepOutcome> {
    if outs == [] then []
    else
      var before, o := Plays(outs[..|outs| - 1]), outs[|outs| - 1];
      if o.name == NPlay && o.end == Completed then before + [o] else before
  }

  lemma PlaysSnoc(outs: seq<StepOutcome>, o: StepOutcome)
    ensures Plays(outs + [o]) == if o.name == NPlay && o.end == Completed then Plays(outs) + [o] else Plays(outs)
  {
    assert (outs + [o])[..|outs|] == outs;
  }

  /** The prompt's clock lies within the step's span. */
  ghost predicate HeldBy(o: StepOutcome, p: Prompt, rate: nat) {
    o.tStartMs <= Ms(p.clock, rate) <= o.tEndMs
  }

  /** The prompt is what the step's file puts on tx. */
  ghost predicate Said(step: Step, p: Prompt, io: PhoneJobIo) {
    && step.kind.AudioPlay? && io.session != null && io.session.rate > 0
    && step.kind.file in io.files && io.files[step.kind.file].rate > 0
    && p.samples == io.PromptFor(step.kind.file)
  }

  /** The prompts on tx are those of the played steps, in order, each placed at a clock its step's
      start does not exceed and its end does not precede. */
  ghost predicate PlacedAt(plays: seq<StepOutcome>, prompts: seq<Prompt>, rate: nat) {
    |plays| == |prompts| && forall i :: 0 <= i < |plays| ==> HeldBy(plays[i], prompts[i], rate)
  }

  /** Each of those prompts is the file of the step its outcome names. */
  ghost predicate SaidBy(plays: seq<StepOutcome>, prompts: seq<Prompt>, steps: seq<Step>, io: PhoneJobIo) {
    |plays| == |prompts| && forall i :: 0 <= i < |plays| ==>
      plays[i].index < |steps| && Said(steps[plays[i].index], prompts[i], io)
  }

  ghost predicate Placed(outs: seq<StepOutcome>, steps: seq<Step>, io: PhoneJobIo)
    reads io.Footprint()
  {
    io.session != null ==>
      PlacedAt(Plays(outs), io.session.prompts, io.session.rate) && SaidBy(Plays(outs), io.session.prompts, steps, io)
  }

  lemma TimedSnoc(outs: seq<StepOutcome>, o: StepOutcome, before: nat, now: nat)
    requires Timed(outs, before) && before <= o.tStartMs <= o.tEndMs <= now
    ensures Timed(outs + [o], now)
  {
  }

  lemma PlacedSnoc(plays: seq<StepOutcome>, prompts: seq<Prompt>, more: seq<Prompt>, o: StepOutcome, rate: nat)
    requires PlacedAt(plays, prompts, rate)
    requires |more| == |prompts| + 1 && prompts <= more && HeldBy(o, more[|prompts|], rate)
    ensures PlacedAt(plays + [o], more, rate)
  {
  }

  lemma SaidSnoc(plays: seq<StepOutcome>, prompts: seq<Prompt>, more: seq<Prompt>, o: StepOutcome, steps: seq<Step>,
                 io: PhoneJobIo)
    requires SaidBy(plays, prompts, steps, io)
    requires |more| == |prompts| + 1 && prompts <= more && o.index < |steps|
    requires Said(steps[o.index], more[|prompts|], io)
    ensures SaidBy(plays + [o], more, steps, io)
  {
  }

  lemma ReportsSnoc(outs: seq<StepOutcome>, o: StepOutcome, steps: seq<Step>, k: nat, inbound: bool)
    requires k < |steps| && ReportsFor(outs, steps, k, inbound) && Reports(o, k, steps[k], inbound)
    ensures ReportsFor(outs + [o], steps, k + 1, inbound)
  {
  }

  // ---- running -----------------------------------------------------------------------------------

  ghost predicate Consistent(io: PhoneJobIo)
    reads io.Footprint()
  {
    io.Valid() && Watching(io.inbound, io.trace) == InCall(io.inbound, io.ops)
  }

  /** Log what the step says it is, then run it. */
  method RunLogged(step: Step, io: PhoneJobIo) returns (r: Result<StepEnd, string>)
    requires Consistent(io) && !(io.inbound && CallSetup(step.kind))
    modifies io.Footprint()
    ensures io.Valid() && io.Clock() >= old(io.Clock()) && io.ops == old(io.ops) + StepOps(step, io.inbound)
    ensures |io.results| == |old(io.results)| + |StepOps(step, io.inbound)| && Tells(old(io.results), io.results, r)
    ensures CallsOf(OpOf(step.kind), old(io.trace), io.trace, r.Ok?) && io.NoLook()
    ensures io.session == null ==> io.Prompts() == []
    ensures r.Ok? ==>
      && Consistent(io)
      && (r.value == Completed || (r.value == TimedOut && !step.kind.AudioPlay?))
      && PlayedOnly(step.kind, io, old(io.Prompts()), io.Prompts(), old(io.Clock()), io.Clock())
  {
    if step.description.Some? {
      InCallSnoc(io.inbound, io.ops, Log(step.description.value));
      NoEvent(io.trace);
      io.DoLog(step.description.value);
    }
    r := RunStep(step.kind, io);
  }

  /** What one more step adds to results and calls: nothing if it is skipped, else its own. */
  ghost predicate StepTells(step: Step, inbound: bool, before: seq<OpResult>, after: seq<OpResult>,
                            r: Result<StepOutcome, string>) {
    && |after| == |before| + |StepOps(step, inbound)| && before <= after
    && if inbound && CallSetup(step.kind) then r.Ok?
       else Tells(before, after, if r.Ok? then Ok(r.value.end) else Err(r.error))
  }

  ghost predicate StepCalls(step: Step, inbound: bool, before: seq<CallEvent>, after: seq<CallEvent>, ok: bool) {
    if inbound && CallSetup(step.kind) then after == before else CallsOf(OpOf(step.kind), before, after, ok)
  }

  /** A step's outcome: its report, its results, its span, and the prompt it put on tx if it plays. */
  ghost predicate StepWent(o: StepOutcome, index: nat, step: Step, io: PhoneJobIo, start: nat, prompts: seq<Prompt>,
                           results: seq<OpResult>)
    reads io.Footprint()
  {
    && Reports(o, index, step, io.inbound) && StepTells(step, io.inbound, results, io.results, Ok(o))
    && start <= o.tStartMs <= o.tEndMs <= io.Stamp(io.Clock())
    && OnePromptMore(step, o, prompts, io)
  }

  /** One step up to its outcome. */
  method ExecuteStep(index: nat, step: Step, io: PhoneJobIo) returns (r: Result<StepOutcome, string>)
    requires Consistent(io)
    modifies io.Footprint()
    ensures io.Valid() && io.Clock() >= old(io.Clock()) && io.ops == old(io.ops) + StepOps(step, io.inbound)
    ensures |io.results| == |old(io.results)| + |StepOps(step, io.inbound)| && old(io.results) <= io.results
    ensures io.NoLook()
    ensures StepCalls(step, io.inbound, old(io.trace), io.trace, r.Ok?)
    ensures io.session == null ==> io.Prompts() == []
    ensures r.Ok? ==> Consistent(io)
    ensures r.Err? ==> !(io.inbound && CallSetup(step.kind)) && LastRefused(io.results)
    ensures r.Ok? ==> StepWent(r.value, index, step, io, io.Stamp(old(io.Clock())), old(io.Prompts()), old(io.results))
  {
    var tStart := io.NowMs();
    if io.inbound && CallSetup(step.kind) {
      assert io.ops + [] == io.ops;
      return Ok(SkippedOutcome(index, step, tStart));
    }
    ghost var start, before := io.Clock(), io.Prompts();
    var end := RunLogged(step, io);
    if end.Err? {
      assert VerdictOf(io.results[|io.results| - 1]) == None;
      return Err(end.error);
    }
    ghost var ended := io.Clock();
    var tEnd := io.NowMs();
    StampMonotone(io, start, ended);
    if step.kind.AudioPlay? && io.session != null {
      StampMonotone(io, start, io.Prompts()[|before|].clock);
      StampMonotone(io, io.Prompts()[|before|].clock, ended);
    }
    r := Ok(StepOutcome(index, step.id, NameOf(step.kind), step.description, tStart, tEnd, end.value));
  }

  lemma StampMonotone(io: PhoneJobIo, a: nat, b: nat)
    requires a <= b
    ensures io.Stamp(a) <= io.Stamp(b)
  {
    if io.session != null {
      MsMonotone(a, b, io.session.rate);
    }
  }

  /** The rest of the job, as never run. */
  method PushSkipped(outcomes: seq<StepOutcome>, steps: seq<Step>, index: nat, at: nat) returns (all: seq<StepOutcome>)
    requires index < |steps|
    ensures all == outcomes + Skips(steps, index + 1, at)
  {
    all := outcomes;
    for j := index + 1 to |steps|
      invariant all == outcomes + Skips(steps, index + 1, at)[..j - (index + 1)]
    {
      all := all + [SkippedOutcome(j, steps[j], at)];
    }
  }

  /** A marker and the skips it stands for, all at the moment the job stopped. */
  method StopHere(outcomes: seq<StepOutcome>, steps: seq<Step>, k: nat, why: StepEnd, at: nat, ghost inbound: bool)
      returns (all: seq<StepOutcome>)
    requires k < |steps| && ReportsFor(outcomes, steps, k + 1, inbound) && Timed(outcomes, at)
    requires (why == Cancelled || why == CallOver) && !(inbound && CallSetup(steps[k].kind))
    ensures ReportOf(all, steps, StoppedAfter(k, why), inbound)
    ensures Timed(all, at) && Plays(all) == Plays(outcomes) && outcomes <= all
  {
    var marker := StepOutcome(k + 1, None, NMarker, None, at, at, why);
    all := PushSkipped(outcomes + [marker], steps, k, at);
    Parts(outcomes, marker, Skips(steps, k + 1, at));
    PlaysSnoc(outcomes, marker);
    SkipsPlayNothing(outcomes + [marker], all);
    TimedSnoc(outcomes, marker, at, at);
    TimedSkips(outcomes + [marker], all, at);
  }

  lemma Parts<T>(a: seq<T>, x: T, b: seq<T>)
    ensures var all := a + [x] + b;
      a + [x] <= all && all[..|a|] == a && all[|a|] == x && all[|a| + 1..] == b
      && forall i :: |a + [x]| <= i < |all| ==> all[i] == b[i - |a| - 1]
  {
  }

  lemma TimedSkips(some: seq<StepOutcome>, all: seq<StepOutcome>, at: nat)
    requires Timed(some, at) && some <= all
    requires forall i :: |some| <= i < |all| ==> all[i].tStartMs == all[i].tEndMs == at
    ensures Timed(all, at)
  {
  }

  lemma {:induction false} SkipsPlayNothing(some: seq<StepOutcome>, all: seq<StepOutcome>)
    requires some <= all && forall i :: |some| <= i < |all| ==> all[i].end == Skipped
    ensures Plays(all) == Plays(some)
    decreases |all|
  {
    if |some| < |all| {
      SkipsPlayNothing(some, all[..|all| - 1]);
    } else {
      assert all == some;
    }
  }

  /** How many of the steps an inbound or outbound job executes. */
  function Executed(steps: seq<Step>, inbound: bool): nat {
    if steps == [] then 0
    else
      Executed(steps[..|steps| - 1], inbound) + if inbound && CallSetup(steps[|steps| - 1].kind) then 0 else 1
  }

  /** How many operations the first k steps ask for. */
  function OpCount(steps: seq<Step>, k: nat, inbound: bool): nat
    requires k <= |steps|
  {
    if k == 0 then 0 else OpCount(steps, k - 1, inbound) + |StepOps(steps[k - 1], inbound)|
  }

  lemma {:induction false} OpCountIsOps(steps: seq<Step>, k: nat, inbound: bool)
    requires k <= |steps|
    ensures OpCount(steps, k, inbound) == |OpsOf(steps[..k], inbound)|
  {
    if k > 0 {
      OpCountIsOps(steps, k - 1, inbound);
      OpsSnoc(steps, k - 1, inbound);
    }
  }

  /** Result n - 1 is what this outcome reports. */
  ghost predicate EndAt(o: StepOutcome, results: seq<OpResult>, n: nat) {
    0 < n <= |results| && VerdictOf(results[n - 1]) == Some(o.end)
  }

  /** Every executed step ended as the result of its own operation says. */
  ghost predicate EndsAsAnswered(outs: seq<StepOutcome>, steps: seq<Step>, k: nat, results: seq<OpResult>,
                                 inbound: bool)
    requires k <= |outs| && k <= |steps|
  {
    forall i :: 0 <= i < k && !(inbound && CallSetup(steps[i].kind)) ==>
      EndAt(outs[i], results, OpCount(steps, i + 1, inbound))
  }

  lemma EndsSnoc(outs: seq<StepOutcome>, o: StepOutcome, steps: seq<Step>, k: nat, before: seq<OpResult>,
                 after: seq<OpResult>, inbound: bool)
    requires |outs| == k < |steps| && |before| == OpCount(steps, k, inbound)
    requires EndsAsAnswered(outs, steps, k, before, inbound) && StepTells(steps[k], inbound, before, after, Ok(o))
    ensures EndsAsAnswered(outs + [o], steps, k + 1, after, inbound)
    ensures |after| == OpCount(steps, k + 1, inbound)
  {
    EndsStay(outs, steps, k, before, after, inbound);
    EndsOfPrefix(outs, outs + [o], steps, k, after, inbound);
    EndsOneMore(outs + [o], steps, k, after, inbound);
  }

  lemma EndsOneMore(outs: seq<StepOutcome>, steps: seq<Step>, k: nat, results: seq<OpResult>, inbound: bool)
    requires k < |outs| && k < |steps| && EndsAsAnswered(outs, steps, k, results, inbound)
    requires !(inbound && CallSetup(steps[k].kind)) ==> EndAt(outs[k], results, OpCount(steps, k + 1, inbound))
    ensures EndsAsAnswered(outs, steps, k + 1, results, inbound)
  {
  }

  lemma EndsStay(outs: seq<StepOutcome>, steps: seq<Step>, k: nat, before: seq<OpResult>, after: seq<OpResult>,
                 inbound: bool)
    requires k <= |outs| && k <= |steps| && EndsAsAnswered(outs, steps, k, before, inbound) && before <= after
    ensures EndsAsAnswered(outs, steps, k, after, inbound)
  {
    forall i | 0 <= i < k && !(inbound && CallSetup(steps[i].kind))
      ensures EndAt(outs[i], after, OpCount(steps, i + 1, inbound))
    {
      assert EndAt(outs[i], before, OpCount(steps, i + 1, inbound));
    }
  }

  lemma EndsOfPrefix(some: seq<StepOutcome>, all: seq<StepOutcome>, steps: seq<Step>, k: nat, results: seq<OpResult>,
                     inbound: bool)
    requires k == |some| <= |steps| && some <= all && EndsAsAnswered(some, steps, k, results, inbound)
    ensures EndsAsAnswered(all, steps, k, results, inbound)
  {
    forall i | 0 <= i < k && !(inbound && CallSetup(steps[i].kind))
      ensures EndAt(all[i], results, OpCount(steps, i + 1, inbound))
    {
      assert EndAt(some[i], results, OpCount(steps, i + 1, inbound));
    }
  }

  /** What a job has reported, given the time, the prompts and the results it has come to. */
  ghost predicate SoFar(outs: seq<StepOutcome>, steps: seq<Step>, k: nat, io: PhoneJobIo, now: nat,
                        prompts: seq<Prompt>, results: seq<OpResult>)
    requires k <= |steps|
  {
    && ReportsFor(outs, steps, k, io.inbound)
    && |results| == OpCount(steps, k, io.inbound) && EndsAsAnswered(outs, steps, k, results, io.inbound)
    && Timed(outs, now)
    && (io.session != null ==>
          PlacedAt(Plays(outs), prompts, io.session.rate) && SaidBy(Plays(outs), prompts, steps, io))
  }

  lemma SoFarLater(outs: seq<StepOutcome>, steps: seq<Step>, k: nat, io: PhoneJobIo, now: nat, later: nat,
                   prompts: seq<Prompt>, results: seq<OpResult>)
    requires k <= |steps| && SoFar(outs, steps, k, io, now, prompts, results) && now <= later
    ensures SoFar(outs, steps, k, io, later, prompts, results)
  {
    TimedLater(outs, now, later);
  }

  /** The job has run its first k steps and is about to run the next. */
  ghost predicate Running(outcomes: seq<StepOutcome>, steps: seq<Step>, k: nat, io: PhoneJobIo)
    reads io.Footprint()
  {
    && k <= |steps| && Consistent(io) && io.ops == OpsOf(steps[..k], io.inbound)
    && SoFar(outcomes, steps, k, io, io.Stamp(io.Clock()), io.Prompts(), io.results)
  }

  /** The whole of what happens to the call while these steps run: each executed step's own part, and then
      one look at it, in that order. */
  function TraceOf(steps: seq<Step>, inbound: bool, polled: seq<Option<CallState>>): seq<CallEvent>
    requires |polled| == Executed(steps, inbound)
  {
    if steps == [] then []
    else
      var init, last := steps[..|steps| - 1], steps[|steps| - 1];
      if inbound && CallSetup(last.kind) then TraceOf(init, inbound, polled)
      else TraceOf(init, inbound, polled[..|polled| - 1]) + CallEvents(OpOf(last.kind)) + [Polled(polled[|polled| - 1])]
  }

  lemma TraceSkips(steps: seq<Step>, k: nat, inbound: bool, polled: seq<Option<CallState>>)
    requires k < |steps| && inbound && CallSetup(steps[k].kind) && |polled| == Executed(steps[..k], inbound)
    ensures |polled| == Executed(steps[..k + 1], inbound)
    ensures TraceOf(steps[..k + 1], inbound, polled) == TraceOf(steps[..k], inbound, polled)
  {
    assert steps[..k + 1][..k] == steps[..k];
  }

  lemma TraceGrows(steps: seq<Step>, k: nat, inbound: bool, polled: seq<Option<CallState>>, state: Option<CallState>)
    requires k < |steps| && !(inbound && CallSetup(steps[k].kind)) && |polled| == Executed(steps[..k], inbound)
    ensures |polled + [state]| == Executed(steps[..k + 1], inbound)
    ensures TraceOf(steps[..k + 1], inbound, polled + [state]) ==
            TraceOf(steps[..k], inbound, polled) + CallEvents(OpOf(steps[k].kind)) + [Polled(state)]
  {
    assert steps[..k + 1][..k] == steps[..k];
    assert (polled + [state])[..|polled|] == polled;
  }

  ghost predicate NoneTrue(looks: seq<bool>) { forall i :: 0 <= i < |looks| ==> !looks[i] }

  /** After every executed step the job looked for a cancel, then at the call, and found neither a cancel
      nor the call ended; and the call has seen nothing but those steps and looks. */
  ghost predicate Looked(steps: seq<Step>, k: nat, io: PhoneJobIo)
    requires k <= |steps|
    reads io
  {
    && |io.polled| == Executed(steps[..k], io.inbound) == |io.cancelLooks| && NoneTrue(io.cancelLooks)
    && io.trace == TraceOf(steps[..k], io.inbound, io.polled) && NeverEnded(io.inbound, io.trace)
  }

  /** The same, with step k run as well and nothing looked at since. */
  ghost predicate LookedThenRan(steps: seq<Step>, k: nat, io: PhoneJobIo, ok: bool)
    requires k < |steps|
    reads io
  {
    && |io.polled| == Executed(steps[..k], io.inbound) == |io.cancelLooks| && NoneTrue(io.cancelLooks)
    && StepCalls(steps[k], io.inbound, TraceOf(steps[..k], io.inbound, io.polled), io.trace, ok)
    && NeverEnded(io.inbound, io.trace)
  }

  method NextStep(outcomes: seq<StepOutcome>, steps: seq<Step>, k: nat, io: PhoneJobIo)
      returns (r: Result<seq<StepOutcome>, string>)
    requires k < |steps| && Running(outcomes, steps, k, io)
    modifies io.Footprint()
    ensures io.Valid() && io.ops == OpsOf(steps[..k + 1], io.inbound) && io.NoLook()
    ensures StepCalls(steps[k], io.inbound, old(io.trace), io.trace, r.Ok?)
    ensures r.Err? ==> !(io.inbound && CallSetup(steps[k].kind)) && LastRefused(io.results)
    ensures r.Ok? ==> Running(r.value, steps, k + 1, io)
  {
    ghost var start, prompts, results := io.Stamp(io.Clock()), io.Prompts(), io.results;
    var o := ExecuteStep(k, steps[k], io);
    OpsSnoc(steps, k, io.inbound);
    if o.Ok? {
      RunningMore(outcomes, o.value, steps, k, io, start, prompts, results);
      r := Ok(outcomes + [o.value]);
    } else {
      r := Err(o.error);
    }
  }

  /** What one more outcome needs for the job to go on as before. */
  lemma RunningMore(outs: seq<StepOutcome>, o: StepOutcome, steps: seq<Step>, k: nat, io: PhoneJobIo,
                    start: nat, prompts: seq<Prompt>, results: seq<OpResult>)
    requires k < |steps| && Consistent(io) && io.ops == OpsOf(steps[..k + 1], io.inbound)
    requires SoFar(outs, steps, k, io, start, prompts, results)
    requires StepWent(o, k, steps[k], io, start, prompts, results)
    ensures Running(outs + [o], steps, k + 1, io)
  {
    TimedSnoc(outs, o, start, io.Stamp(io.Clock()));
    ReportsSnoc(outs, o, steps, k, io.inbound);
    EndsSnoc(outs, o, steps, k, results, io.results, io.inbound);
    PlacedMore(outs, prompts, o, steps, k, io);
  }

  /** A step that plays leaves one prompt more, its own, within its span; no other leaves any. */
  ghost predicate OnePromptMore(step: Step, o: StepOutcome, before: seq<Prompt>, io: PhoneJobIo)
    reads io.Footprint()
  {
    if step.kind.AudioPlay? && io.session != null
    then |io.Prompts()| == |before| + 1 && before <= io.Prompts()
      && HeldBy(o, io.Prompts()[|before|], io.session.rate) && Said(step, io.Prompts()[|before|], io)
    else io.Prompts() == before
  }

  lemma PlacedMore(outs: seq<StepOutcome>, prompts: seq<Prompt>, o: StepOutcome, steps: seq<Step>, k: nat,
                   io: PhoneJobIo)
    requires k < |steps| && Reports(o, k, steps[k], io.inbound)
    requires io.session != null ==>
      PlacedAt(Plays(outs), prompts, io.session.rate) && SaidBy(Plays(outs), prompts, steps, io)
    requires OnePromptMore(steps[k], o, prompts, io)
    ensures Placed(outs + [o], steps, io)
  {
    if io.session != null {
      PlayedExactly(outs, o, steps[k], k, io.inbound);
      if steps[k].kind.AudioPlay? {
        PlacedSnoc(Plays(outs), prompts, io.Prompts(), o, io.session.rate);
        SaidSnoc(Plays(outs), prompts, io.Prompts(), o, steps, io);
      }
    }
  }

  /** A step counts as played exactly when it is an `audio.play` step. */
  lemma PlayedExactly(outs: seq<StepOutcome>, o: StepOutcome, step: Step, i: nat, inbound: bool)
    requires Reports(o, i, step, inbound)
    ensures Plays(outs + [o]) == if step.kind.AudioPlay? then Plays(outs) + [o] else Plays(outs)
  {
    PlaysSnoc(outs, o);
  }

  ghost predicate LastRefused(results: seq<OpResult>) { results != [] && results[|results| - 1].Refused? }

  /** How the look after step k went, for a job that stops there: a cancel was found, and the call not
      looked at any more; or none was, and the call had ended. */
  ghost predicate StopsAt(steps: seq<Step>, k: nat, why: StepEnd, io: PhoneJobIo)
    requires k < |steps|
    reads io
  {
    var done := Executed(steps[..k], io.inbound);
    && |io.cancelLooks| == done + 1 && NoneTrue(io.cancelLooks[..done])
    && if why == Cancelled then
         && io.cancelLooks[done] && |io.polled| == done
         && StepCalls(steps[k], io.inbound, TraceOf(steps[..k], io.inbound, io.polled), io.trace, true)
         && NeverEnded(io.inbound, io.trace)
       else
         && why == CallOver && !io.cancelLooks[done]
         && |io.polled| == Executed(steps[..k + 1], io.inbound)
         && io.trace == TraceOf(steps[..k + 1], io.inbound, io.polled)
         && EndedAtLast(io.inbound, io.trace)
  }

  /** The last look, and none before it, found the call ended. */
  ghost predicate EndedAtLast(inbound: bool, trace: seq<CallEvent>) {
    && trace != [] && NeverEnded(inbound, trace[..|trace| - 1])
    && Ends(inbound, trace[..|trace| - 1], trace[|trace| - 1])
  }

  /** Where the job got to: what it asked for up to there, and how its looks at the call went. */
  ghost predicate GotTo(stop: Stop, steps: seq<Step>, io: PhoneJobIo)
    reads io
  {
    match stop
    case AllRan => io.ops == OpsOf(steps, io.inbound) && Looked(steps, |steps|, io)
    case StoppedAfter(k, why) =>
      && k < |steps| && io.ops == OpsOf(steps[..k + 1], io.inbound) && StopsAt(steps, k, why, io)
      && (why == CallOver ==> InCall(io.inbound, io.ops))
    case FailedAt(k) =>
      && k < |steps| && !(io.inbound && CallSetup(steps[k].kind)) && io.ops == OpsOf(steps[..k + 1], io.inbound)
      && LastRefused(io.results) && LookedThenRan(steps, k, io, false)
  }

  /** A report, given the time, the prompts and the results the job came to. */
  ghost predicate ReportedBy(outs: seq<StepOutcome>, stop: Stop, steps: seq<Step>, io: PhoneJobIo, now: nat,
                             prompts: seq<Prompt>, results: seq<OpResult>)
  {
    && ReportOf(outs, steps, stop, io.inbound)
    && EndsAsAnswered(outs, steps, if stop.StoppedAfter? then stop.index + 1 else |steps|, results, io.inbound)
    && Timed(outs, now)
    && (io.session != null ==>
          PlacedAt(Plays(outs), prompts, io.session.rate) && SaidBy(Plays(outs), prompts, steps, io))
  }

  /** The report of a job that did not fail. */
  ghost predicate Reported(outs: seq<StepOutcome>, stop: Stop, steps: seq<Step>, io: PhoneJobIo)
    reads io.Footprint()
  {
    io.Valid() && ReportedBy(outs, stop, steps, io, io.Stamp(io.Clock()), io.Prompts(), io.results)
  }

  lemma ReportedLater(outs: seq<StepOutcome>, stop: Stop, steps: seq<Step>, io: PhoneJobIo, now: nat, later: nat,
                      prompts: seq<Prompt>, results: seq<OpResult>)
    requires ReportedBy(outs, stop, steps, io, now, prompts, results) && now <= later
    ensures ReportedBy(outs, stop, steps, io, later, prompts, results)
  {
    TimedLater(outs, now, later);
  }

  lemma TimedLater(outs: seq<StepOutcome>, now: nat, later: nat)
    requires Timed(outs, now) && now <= later
    ensures Timed(outs, later)
  {
  }

  lemma ReportedStopped(outs: seq<StepOutcome>, all: seq<StepOutcome>, steps: seq<Step>, k: nat, why: StepEnd,
                        io: PhoneJobIo, now: nat, prompts: seq<Prompt>, results: seq<OpResult>)
    requires k < |steps| && SoFar(outs, steps, k + 1, io, now, prompts, results)
    requires ReportOf(all, steps, StoppedAfter(k, why), io.inbound) && Timed(all, now)
    requires Plays(all) == Plays(outs) && outs <= all
    ensures ReportedBy(all, StoppedAfter(k, why), steps, io, now, prompts, results)
  {
    EndsOfPrefix(outs, all, steps, k + 1, results, io.inbound);
  }

  lemma ReportedAll(outs: seq<StepOutcome>, steps: seq<Step>, io: PhoneJobIo)
    requires Running(outs, steps, |steps|, io) && Looked(steps, |steps|, io)
    ensures Reported(outs, AllRan, steps, io) && GotTo(AllRan, steps, io)
  {
    assert steps[..|steps|] == steps;
  }

  method StopEarly(outcomes: seq<StepOutcome>, steps: seq<Step>, k: nat, why: StepEnd, at: nat, io: PhoneJobIo)
      returns (all: seq<StepOutcome>)
    requires k < |steps| && Running(outcomes, steps, k + 1, io)
    requires (why == Cancelled || why == CallOver) && !(io.inbound && CallSetup(steps[k].kind))
    requires at == io.Stamp(io.Clock())
    ensures Reported(all, StoppedAfter(k, why), steps, io)
  {
    all := StopHere(outcomes, steps, k, why, at, io.inbound);
    ReportedStopped(outcomes, all, steps, k, why, io, at, io.Prompts(), io.results);
  }

  ghost predicate Unstarted(io: PhoneJobIo)
    reads io.Footprint()
  {
    && Consistent(io) && io.ops == [] && io.results == [] && io.trace == []
    && io.cancelLooks == [] && io.polled == []
  }

  /** Run the job. `stop` says how far it got. */
  method RunJob(steps: seq<Step>, io: PhoneJobIo) returns (r: Result<seq<StepOutcome>, string>, stop: Stop)
    requires Unstarted(io) && io.Prompts() == []
    modifies io.Footprint()
    ensures io.Valid() && (r.Err? <==> stop.FailedAt?) && GotTo(stop, steps, io)
    ensures r.Ok? ==> Reported(r.value, stop, steps, io)
  {
    var outcomes: seq<StepOutcome> := [];
    AtStart(steps, io);
    for index := 0 to |steps|
      invariant Running(outcomes, steps, index, io) && Looked(steps, index, io)
    {
      var over;
      r, over := OneRound(outcomes, steps, index, io);
      if over.Some? {
        return r, over.value;
      }
      outcomes := r.value;
    }
    ReportedAll(outcomes, steps, io);
    return Ok(outcomes), AllRan;
  }

  lemma AtStart(steps: seq<Step>, io: PhoneJobIo)
    requires Unstarted(io) && io.Prompts() == []
    ensures Running([], steps, 0, io) && Looked(steps, 0, io)
  {
    assert steps[..0] == [];
  }

  /** One round of the loop: the next step, and where it leaves the job if it ends here. */
  method OneRound(outcomes: seq<StepOutcome>, steps: seq<Step>, k: nat, io: PhoneJobIo)
      returns (r: Result<seq<StepOutcome>, string>, over: Option<Stop>)
    requires k < |steps| && Running(outcomes, steps, k, io) && Looked(steps, k, io)
    modifies io.Footprint()
    ensures over.None? ==> r.Ok? && Running(r.value, steps, k + 1, io) && Looked(steps, k + 1, io)
    ensures over.Some? ==> io.Valid() && GotTo(over.value, steps, io) && (r.Err? <==> over.value.FailedAt?)
    ensures over.Some? && r.Ok? ==> Reported(r.value, over.value, steps, io)
  {
    var why, at;
    r, why, at := StepThenLook(outcomes, steps, k, io);
    if r.Err? {
      return r, Some(FailedAt(k));
    }
    if why.Some? {
      var all := StopEarly(r.value, steps, k, why.value, at, io);
      return Ok(all), Some(StoppedAfter(k, why.value));
    }
    return r, None;
  }

  /** Run one step, and say whether the job should stop after it. A skipped step is not looked after. */
  method StepThenLook(outcomes: seq<StepOutcome>, steps: seq<Step>, k: nat, io: PhoneJobIo)
      returns (next: Result<seq<StepOutcome>, string>, why: Option<StepEnd>, at: nat)
    requires k < |steps| && Running(outcomes, steps, k, io) && Looked(steps, k, io)
    modifies io.Footprint()
    ensures io.Valid() && io.ops == OpsOf(steps[..k + 1], io.inbound)
    ensures next.Err? || why.Some? ==> !(io.inbound && CallSetup(steps[k].kind))
    ensures next.Err? ==> LastRefused(io.results) && LookedThenRan(steps, k, io, false)
    ensures next.Ok? ==> Running(next.value, steps, k + 1, io) && Found(why, at, steps, k, io)
  {
    ghost var trace := io.trace;
    next := NextStep(outcomes, steps, k, io);
    StillLooked(steps, k, io, trace, next.Ok?);
    why, at := None, 0;
    if next.Ok? && !(io.inbound && CallSetup(steps[k].kind)) {
      why, at := LookAfter(next.value, steps, k, k + 1, io);
    }
  }

  lemma StillLooked(steps: seq<Step>, k: nat, io: PhoneJobIo, before: seq<CallEvent>, ok: bool)
    requires k < |steps| && |io.polled| == Executed(steps[..k], io.inbound) == |io.cancelLooks|
    requires NoneTrue(io.cancelLooks)
    requires before == TraceOf(steps[..k], io.inbound, io.polled) && NeverEnded(io.inbound, before)
    requires StepCalls(steps[k], io.inbound, before, io.trace, ok)
    ensures LookedThenRan(steps, k, io, ok)
    ensures io.inbound && CallSetup(steps[k].kind) ==> Looked(steps, k + 1, io)
  {
    if io.inbound && CallSetup(steps[k].kind) {
      TraceSkips(steps, k, io.inbound, io.polled);
    } else {
      ControlKeeps(io.inbound, OpOf(steps[k].kind), before, io.trace, ok);
    }
  }

  /** What the look after step k found: nothing, and the job goes on; or why it stops, and when. */
  ghost predicate Found(why: Option<StepEnd>, at: nat, steps: seq<Step>, k: nat, io: PhoneJobIo)
    requires k < |steps|
    reads io.Footprint()
  {
    match why
    case None => Looked(steps, k + 1, io)
    case Some(e) =>
      StopsAt(steps, k, e, io) && (e == CallOver ==> InCall(io.inbound, io.ops)) && at == io.Stamp(io.Clock())
  }

  /** The look after step k, and the job is otherwise where it was. */
  method LookAfter(ghost outcomes: seq<StepOutcome>, ghost steps: seq<Step>, ghost k: nat, ghost j: nat, io: PhoneJobIo)
      returns (why: Option<StepEnd>, at: nat)
    requires k < |steps| && j == k + 1 && Running(outcomes, steps, j, io)
    requires LookedThenRan(steps, k, io, true) && !(io.inbound && CallSetup(steps[k].kind))
    modifies io`sawActive, io`trace, io`cancelLooks, io`polled, io`callState, io`wallMs, io`cancelRequested
    modifies if io.session == null then {} else {io.session}
    ensures Running(outcomes, steps, j, io) && Found(why, at, steps, k, io)
  {
    ghost var now, prompts, ops, results := io.Stamp(io.Clock()), io.Prompts(), io.ops, io.results;
    why, at := WhyStop(steps, k, io);
    RunningLater(outcomes, steps, j, io, now, prompts, ops, results);
  }

  /** While time passes and the job asks for nothing, it stays where it was. */
  lemma RunningLater(outs: seq<StepOutcome>, steps: seq<Step>, k: nat, io: PhoneJobIo, now: nat, prompts: seq<Prompt>,
                     ops: seq<Op>, results: seq<OpResult>)
    requires k <= |steps| && SoFar(outs, steps, k, io, now, prompts, results) && ops == OpsOf(steps[..k], io.inbound)
    requires Consistent(io) && io.Stamp(io.Clock()) >= now && io.Prompts() == prompts && io.ops == ops
    requires io.results == results
    ensures Running(outs, steps, k, io)
  {
    SoFarLater(outs, steps, k, io, now, io.Stamp(io.Clock()), prompts, results);
  }

  /** A cancel is looked at first; only then is the call polled; and if the job is to stop, the clock is
      read. The world goes on before each of these. */
  method WhyStop(ghost steps: seq<Step>, ghost k: nat, io: PhoneJobIo) returns (why: Option<StepEnd>, at: nat)
    requires k < |steps| && Consistent(io)
    requires LookedThenRan(steps, k, io, true) && !(io.inbound && CallSetup(steps[k].kind))
    modifies io`sawActive, io`trace, io`cancelLooks, io`polled, io`callState, io`wallMs, io`cancelRequested
    modifies if io.session == null then {} else {io.session}
    ensures Consistent(io) && io.Prompts() == old(io.Prompts()) && io.Stamp(io.Clock()) >= old(io.Stamp(io.Clock()))
    ensures io.ops == old(io.ops) && io.results == old(io.results)
    ensures io.cancelLooks == old(io.cancelLooks) + [why == Some(Cancelled)]
    ensures (old(io.cancelRequested) ==> why == Some(Cancelled)) && (why == Some(Cancelled) ==> io.cancelRequested)
    ensures Found(why, at, steps, k, io)
  {
    ghost var start := io.Clock();
    var cancelled := io.Cancelled();
    StampMonotone(io, start, io.Clock());
    if cancelled {
      at := io.NowMs();
      return Some(Cancelled), at;
    }
    why, at := LookAtCall(steps, k, io);
  }

  method LookAtCall(ghost steps: seq<Step>, ghost k: nat, io: PhoneJobIo) returns (why: Option<StepEnd>, at: nat)
    requires k < |steps| && Consistent(io) && !(io.inbound && CallSetup(steps[k].kind))
    requires |io.polled| == Executed(steps[..k], io.inbound) && |io.cancelLooks| == |io.polled| + 1
    requires NoneTrue(io.cancelLooks)
    requires io.trace == TraceOf(steps[..k], io.inbound, io.polled) + CallEvents(OpOf(steps[k].kind))
    requires NeverEnded(io.inbound, io.trace)
    modifies io`sawActive, io`trace, io`polled, io`callState, io`wallMs, io`cancelRequested
    modifies if io.session == null then {} else {io.session}
    ensures Consistent(io) && io.Prompts() == old(io.Prompts()) && io.Stamp(io.Clock()) >= old(io.Stamp(io.Clock()))
    ensures io.ops == old(io.ops) && io.results == old(io.results)
    ensures why != Some(Cancelled) && Found(why, at, steps, k, io)
  {
    ghost var start, before, polled := io.Clock(), io.trace, io.polled;
    var ended := io.CallEnded();
    ghost var state := io.callState;
    TraceSnoc(io.inbound, before, Polled(state));
    StampMonotone(io, start, io.Clock());
    why, at := None, 0;
    if ended {
      why := Some(CallOver);
      at := io.NowMs();
    }
    PollCounted(steps, k, io, before, polled, state);
  }

  lemma PollCounted(steps: seq<Step>, k: nat, io: PhoneJobIo, before: seq<CallEvent>, polled: seq<Option<CallState>>,
                    state: Option<CallState>)
    requires k < |steps| && !(io.inbound && CallSetup(steps[k].kind)) && |polled| == Executed(steps[..k], io.inbound)
    requires before == TraceOf(steps[..k], io.inbound, polled) + CallEvents(OpOf(steps[k].kind))
    requires NeverEnded(io.inbound, before)
    requires |io.cancelLooks| == |polled| + 1 && NoneTrue(io.cancelLooks)
    requires io.polled == polled + [state] && io.trace == before + [Polled(state)]
    ensures if Ends(io.inbound, before, Polled(state)) then StopsAt(steps, k, CallOver, io)
            else Looked(steps, k + 1, io)
  {
    EndedSnoc(io.inbound, before, Polled(state));
    TraceGrows(steps, k, io.inbound, polled, state);
    assert io.trace[..|io.trace| - 1] == before;
  }

  // ---- what follows for every job ----------------------------------------------------------------

  /** An inbound job never asks for call setup. */
  lemma {:induction false} InboundNeverSetsUp(steps: seq<Step>, i: nat)
    requires i < |OpsOf(steps, true)|
    ensures var o := OpsOf(steps, true)[i]; !o.Dial? && !o.WaitForAnswer? && !o.Answer?
  {
    var earlier := OpsOf(steps[..|steps| - 1], true);
    if i < |earlier| {
      InboundNeverSetsUp(steps[..|steps| - 1], i);
    }
  }

  /** What a job asks for is what each step asks for, in order. */
  lemma {:induction false} OpsOfIsInOrder(steps: seq<Step>, k: nat, inbound: bool)
    requires k < |steps|
    ensures OpsOf(steps[..k], inbound) + StepOps(steps[k], inbound) <= OpsOf(steps, inbound)
  {
    OpsSnoc(steps, k, inbound);
    var init := steps[..|steps| - 1];
    if k + 1 < |steps| {
      OpsOfIsInOrder(init, k, inbound);
      assert init[..k] == steps[..k];
    } else {
      assert steps[..k + 1] == steps;
    }
  }

  /** After its own hangup a job is in no call, and so is never stopped as "caller hung up", until it
      dials or answers again. */
  lemma {:induction false} HangupEndsTheWatch(inbound: bool, ops: seq<Op>, i: nat)
    requires i < |ops| && ops[i].Hangup?
    requires forall j :: i < j < |ops| ==> !ops[j].Dial? && !ops[j].Answer?
    ensures !InCall(inbound, ops)
  {
    if i < |ops| - 1 {
      HangupEndsTheWatch(inbound, ops[..|ops| - 1], i);
    }
  }

  /** A timestamp within the clock lies within the recording that clock ends up in. */
  lemma WithinRecording(t: nat, clock: nat, frames: nat, rate: nat)
    requires rate > 0 && t <= Ms(clock, rate) && clock <= frames
    ensures t * rate <= frames * 1000
  {
    MulLe(t, Ms(clock, rate), rate);
    MsIsExact(clock, rate);
  }

  /** The frame is not before the step's first millisecond nor after its last. */
  ghost predicate PlayedWithin(o: StepOutcome, frame: nat, rate: nat) {
    o.tStartMs * rate <= frame * 1000 < (o.tEndMs + 1) * rate
  }

  lemma HeldIsWithin(o: StepOutcome, p: Prompt, rate: nat)
    requires rate > 0 && HeldBy(o, p, rate)
    ensures PlayedWithin(o, p.clock, rate)
  {
    MsIsExact(p.clock, rate);
    MulLe(o.tStartMs, Ms(p.clock, rate), rate);
    MulLe(Ms(p.clock, rate) + 1, o.tEndMs + 1, rate);
  }

  /** A report on the finished recording: both legs last as long, every span lies within them, and each
      played step's prompt was placed at a frame within the step's span and is heard whole on tx from that
      frame on, or from where the prompt before it ends. */
  ghost predicate OnRecording(outs: seq<StepOutcome>, prompts: seq<Prompt>, out: Recording, ch: nat, rate: nat)
    requires ch > 0
  {
    var rx, tx := Blocks(out.rx, ch), Blocks(out.tx, ch);
    && |rx| == |tx|
    && (forall i :: 0 <= i < |outs| ==> outs[i].tStartMs <= outs[i].tEndMs && outs[i].tEndMs * rate <= |rx| * 1000)
    && |Plays(outs)| == |prompts|
    && (forall i :: 0 <= i < |prompts| ==> HeardOn(tx, prompts, i, ch))
    && (forall i :: 0 <= i < |prompts| ==>
          PlayedWithin(Plays(outs)[i], prompts[i].clock, rate) && prompts[i].clock <= StartOf(prompts, i, ch))
  }

  ghost predicate HeardOn(tx: seq<Frame>, prompts: seq<Prompt>, i: nat, ch: nat)
    requires ch > 0 && i < |prompts|
  {
    StartOf(prompts, i, ch) <= EndOf(prompts, i, ch) <= |tx| &&
    tx[StartOf(prompts, i, ch)..EndOf(prompts, i, ch)] == Blocks(prompts[i].samples, ch)
  }

  /** Run a recorded job and finish its recording. Every timestamp lies within the finished legs, and
      each played step's own file is on tx, starting no earlier than the step does. */
  method RunRecordedJob(steps: seq<Step>, io: PhoneJobIo)
      returns (r: Result<seq<StepOutcome>, string>, stop: Stop, out: Recording)
    requires Unstarted(io) && io.session != null && io.session.prompts == []
    modifies io.Footprint()
    ensures io.Valid() && GotTo(stop, steps, io) && (r.Err? <==> stop.FailedAt?)
    ensures r.Ok? ==>
      && Reported(r.value, stop, steps, io)
      && (forall i, j :: 0 <= i < j < |r.value| ==> r.value[i].tEndMs <= r.value[j].tStartMs)
      && OnRecording(r.value, io.session.prompts, out, io.session.channels, io.session.rate)
      && SaidBy(Plays(r.value), io.session.prompts, steps, io)
  {
    r, stop := RunJob(steps, io);
    ghost var end, prompts := io.Stamp(io.Clock()), io.Prompts();
    out := EndSession(io);
    if r.Ok? {
      ReportedLater(r.value, stop, steps, io, end, io.Stamp(io.Clock()), prompts, io.results);
      JobOnRecording(r.value, io.session, out);
    }
  }

  /** The capture goes on until the session is finished. */
  method EndSession(io: PhoneJobIo) returns (out: Recording)
    requires io.Valid() && io.session != null
    modifies io`callState, io`wallMs, io`cancelRequested, io.session
    ensures io.Valid() && io.Prompts() == old(io.Prompts())
    ensures old(io.Stamp(io.Clock())) <= io.Stamp(io.Clock())
    ensures var s := io.session;
      out == Finished(Blocks(s.captured, s.channels), Timeline(s.prompts, s.channels), s.channels, s.mix, s.mixTxLeft)
  {
    ghost var end := io.Clock();
    io.Elapse(0);
    StampMonotone(io, end, io.Clock());
    out := io.session.Finish();
  }

  lemma JobOnRecording(outs: seq<StepOutcome>, session: DuplexSession, out: Recording)
    requires session.Valid() && session.rate > 0
    requires Timed(outs, Ms(session.rxLen, session.rate)) && PlacedAt(Plays(outs), session.prompts, session.rate)
    requires out == Finished(Blocks(session.captured, session.channels), Timeline(session.prompts, session.channels),
                             session.channels, session.mix, session.mixTxLeft)
    ensures OnRecording(outs, session.prompts, out, session.channels, session.rate)
  {
    var ch, rate, prompts := session.channels, session.rate, session.prompts;
    LegsEqual(Blocks(session.captured, ch), Timeline(prompts, ch), ch, session.mix, session.mixTxLeft);
    var n := |Blocks(out.rx, ch)|;
    forall i | 0 <= i < |outs|
      ensures outs[i].tEndMs * rate <= n * 1000
    {
      WithinRecording(outs[i].tEndMs, session.rxLen, n, rate);
    }
    forall i | 0 <= i < |prompts|
      ensures HeardOn(Blocks(out.tx, ch), prompts, i, ch)
      ensures PlayedWithin(Plays(outs)[i], prompts[i].clock, rate) && prompts[i].clock <= StartOf(prompts, i, ch)
    {
      PromptPlaced(prompts, i, ch);
      HeardPadded(prompts, i, ch, n);
      assert HeldBy(Plays(outs)[i], prompts[i], rate);
      HeldIsWithin(Plays(outs)[i], prompts[i], rate);
    }
  }

  lemma HeardPadded(prompts: seq<Prompt>, i: nat, ch: nat, n: nat)
    requires ch > 0 && i < |prompts| && n >= |Timeline(prompts, ch)|
    ensures HeardOn(Padded(Timeline(prompts, ch), n, ch), prompts, i, ch)
  {
    PromptPlaced(prompts, i, ch);
    var tx := Timeline(prompts, ch);
    assert Padded(tx, n, ch)[..|tx|] == tx;
    SliceOfPrefix(tx, Padded(tx, n, ch), StartOf(prompts, i, ch), EndOf(prompts, i, ch));
  }

  lemma SliceOfPrefix<T>(s: seq<T>, t: seq<T>, i: nat, j: nat)
    requires i <= j <= |s| && s <= t
    ensures t[i..j] == s[i..j]
  {
  }
}
