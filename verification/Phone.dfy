/** The side effects of a job on a real phone (server/crates/dialf/src/phone.rs).

    `Elapse` is everything that happens outside the job while it waits: the capture thread records
    and publishes its clock, wall time passes, the call changes state, a cancel arrives. */
module Phone {
  import opened Arithmetic
  import opened Engine
  import opened Record
  import opened Resample
  import opened Seqs
  import opened Vad

  datatype CallState = Dialing | Ringing | Active | HasEnded

  /** What a job asks of its phone, in the order it asks. */
  datatype Op =
    | Play(file: string)
    | WaitForSpeech(endTimeoutMs: nat, silenceDurationMs: nat, onsetDurationMs: nat)
    | WaitForSpeechStart(timeoutMs: nat, waitAfterStartMs: nat, onsetMs: nat)
    | Dial(number: string)
    | WaitForAnswer(answerTimeoutMs: nat)
    | Answer
    | Hangup
    | SendSms(to: string, body: string)
    | Sleep(ms: nat)
    | Log(message: string)

  /** What came of an operation: it failed, or it was done, or it was a wait and this is what it heard. */
  datatype OpResult = Refused | Done | TurnEnded(reason: EndReason) | Heard(started: bool)

  function ResultOf<T, E>(r: Result<T, E>): OpResult { if r.Ok? then Done else Refused }

  /** What bears on the question whether the call is over. */
  datatype CallEvent = Dialed | Answered | HungUp | Polled(state: Option<CallState>)

  /** What an operation does to the call as the job watches it. */
  function CallEvents(op: Op): seq<CallEvent> {
    match op
    case Dial(_) => [Dialed]
    case Answer => [Answered]
    case Hangup => [HungUp]
    case _ => []
  }

  predicate Control(e: CallEvent) { !e.Polled? }

  /** The job is watching a call: the last thing it did to one was not to hang up. */
  predicate Watching(inbound: bool, trace: seq<CallEvent>) {
    if trace == [] then inbound
    else if Control(trace[|trace| - 1]) then !trace[|trace| - 1].HungUp?
    else Watching(inbound, trace[..|trace| - 1])
  }

  /** Some poll since then found the watched call active. */
  predicate SeenActive(inbound: bool, trace: seq<CallEvent>) {
    if trace == [] then false
    else
      var init, e := trace[..|trace| - 1], trace[|trace| - 1];
      if Control(e) then false
      else SeenActive(inbound, init) || (e.state == Some(Active) && Watching(inbound, init))
  }

  /** No control event after position i. */
  ghost predicate QuietSince(trace: seq<CallEvent>, i: int) {
    forall j :: Max(i + 1, 0) <= j < |trace| ==> !Control(trace[j])
  }

  lemma {:induction false} WatchingMeans(inbound: bool, trace: seq<CallEvent>)
    ensures Watching(inbound, trace) <==>
      (inbound && QuietSince(trace, -1)) ||
      (exists i :: 0 <= i < |trace| && (trace[i].Dialed? || trace[i].Answered?) && QuietSince(trace, i))
  {
    if trace != [] {
      var init, e := trace[..|trace| - 1], trace[|trace| - 1];
      WatchingMeans(inbound, init);
      if Control(e) {
        assert QuietSince(trace, |trace| - 1);
      } else {
        assert QuietSince(trace, -1) <==> QuietSince(init, -1);
        assert forall i :: 0 <= i < |init| ==> trace[i] == init[i] && (QuietSince(trace, i) <==> QuietSince(init, i));
      }
    }
  }

  lemma {:induction false} SeenActiveMeans(inbound: bool, trace: seq<CallEvent>)
    ensures SeenActive(inbound, trace) <==>
      Watching(inbound, trace) &&
      exists i :: 0 <= i < |trace| && trace[i] == Polled(Some(Active)) && QuietSince(trace, i)
  {
    if trace != [] {
      var init, e := trace[..|trace| - 1], trace[|trace| - 1];
      SeenActiveMeans(inbound, init);
      if Control(e) {
        assert forall i :: 0 <= i < |trace| && trace[i].Polled? ==> !QuietSince(trace, i) by {
          forall i | 0 <= i < |trace| && trace[i].Polled?
            ensures !QuietSince(trace, i)
          {
            assert Control(trace[|init|]);
          }
        }
      } else {
        assert QuietSince(trace, |init|);
        assert forall i :: 0 <= i < |init| ==> trace[i] == init[i] && (QuietSince(trace, i) <==> QuietSince(init, i));
      }
    }
  }

  lemma TraceSnoc(inbound: bool, trace: seq<CallEvent>, e: CallEvent)
    ensures Watching(inbound, trace + [e]) == if Control(e) then !e.HungUp? else Watching(inbound, trace)
    ensures SeenActive(inbound, trace + [e]) ==
      (!Control(e) && (SeenActive(inbound, trace) || (e.state == Some(Active) && Watching(inbound, trace))))
  {
    assert (trace + [e])[..|trace|] == trace;
  }

  /** This poll finds the far end gone. */
  predicate Ends(inbound: bool, before: seq<CallEvent>, e: CallEvent) {
    e.Polled? && e.state.None? && Watching(inbound, before) && SeenActive(inbound, before)
  }

  /** No poll so far has found the far end gone. */
  predicate NeverEnded(inbound: bool, trace: seq<CallEvent>) {
    trace == [] ||
    (NeverEnded(inbound, trace[..|trace| - 1]) && !Ends(inbound, trace[..|trace| - 1], trace[|trace| - 1]))
  }

  lemma EndedSnoc(inbound: bool, trace: seq<CallEvent>, e: CallEvent)
    ensures NeverEnded(inbound, trace + [e]) <==> NeverEnded(inbound, trace) && !Ends(inbound, trace, e)
  {
    assert (trace + [e])[..|trace|] == trace;
  }

  /** The decision itself, with the updated `saw_active`. */
  method CallEndedDecision(inCall: bool, sawActive: bool, state: Option<CallState>) returns (ended: bool, saw: bool)
    ensures ended <==> inCall && sawActive && state.None?
    ensures saw <==> sawActive || (inCall && state == Some(Active))
  {
    saw := sawActive;
    if !inCall {
      return false, saw;
    }
    match state
    case Some(Active) => return false, true;
    case None => return sawActive, saw;
    case Some(_) => return false, saw;
  }

  datatype CmdError = NoCallToHangUp | Failed

  type Reply = Result<(), CmdError>

  /** A call that is to end has ended when the phone says so, and when it has none to end. */
  predicate HasHungUp(reply: Reply) { reply.Ok? || reply.error.NoCallToHangUp? }

  /** No look so far has decided a wait for an answer: none found the call active, or gone again. */
  predicate StillOpen(looks: seq<Option<CallState>>) {
    forall i :: 0 <= i < |looks| ==>
      looks[i] != Some(Active) && (looks[i].None? ==> !CallSeen(looks[..i]))
  }

  /** Some look found a call. */
  predicate CallSeen(looks: seq<Option<CallState>>) { exists i :: 0 <= i < |looks| && looks[i].Some? }

  lemma OneMoreLook(looks: seq<Option<CallState>>, state: Option<CallState>)
    ensures var all := looks + [state];
      && all[|all| - 1] == state && all[..|all| - 1] == looks
      && (CallSeen(all) <==> CallSeen(looks) || state.Some?)
      && (StillOpen(all) <==> StillOpen(looks) && state != Some(Active) && (state.None? ==> !CallSeen(looks)))
  {
    var all := looks + [state];
    assert all[..|looks|] == looks && all[|looks|] == state;
    assert forall i :: 0 <= i < |looks| ==> all[i] == looks[i] && all[..i] == looks[..i];
  }

  /** Why a wait for an answer was given up. */
  datatype AnswerError = CancelledWhileRinging | EndedUnanswered | NotInTime

  /** Milliseconds into a recording of `rate` frames a second. */
  function Ms(frames: nat, rate: nat): nat { frames * 1000 / Max(rate, 1) }

  lemma MsMonotone(a: nat, b: nat, rate: nat)
    requires a <= b
    ensures Ms(a, rate) <= Ms(b, rate)
  {
    FloorBelow(a * 1000, Max(rate, 1), Ms(b, rate) + 1);
    FloorBelow(b * 1000, Max(rate, 1), Ms(b, rate) + 1);
  }

  /** Millisecond t of a recording: the frame lies in it, neither before nor after. */
  ghost predicate InMs(frame: nat, t: nat, rate: nat) {
    t * rate <= frame * 1000 < (t + 1) * rate
  }

  lemma MsIsExact(frames: nat, rate: nat)
    requires rate > 0
    ensures InMs(frames, Ms(frames, rate), rate)
  {
    MulDivLe(Ms(frames, rate), frames * 1000, rate);
    FloorBelow(frames * 1000, rate, Ms(frames, rate) + 1);
  }

  /** The capture thread reads any number of times, and may publish its clock after any of them. */
  method CaptureGoesOn(session: DuplexSession)
    requires session.Valid()
    modifies session
    ensures session.Valid() && session.rxLen >= old(session.rxLen) && session.prompts == old(session.prompts)
  {
    var rounds: nat :| 0 <= rounds;
    for i := 0 to rounds
      invariant session.Valid() && session.rxLen >= old(session.rxLen) && session.prompts == old(session.prompts)
    {
      var read: seq<Sample> :| 0 <= |read|;
      var _ := session.CaptureRead(read);
      if * {
        session.Publish();
      }
    }
  }

  class PhoneJobIo {
    const session: DuplexSession?
    const inbound: bool
    const files: map<string, Wav>
    const taps: seq<real>
    var inCall: bool
    var sawActive: bool
    var callState: Option<CallState>
    var wallMs: nat
    var cancelRequested: bool

    ghost var ops: seq<Op>
    ghost var results: seq<OpResult>
    ghost var trace: seq<CallEvent>
    // What was found when a cancel and when the call was looked at, and what the phone replied.
    ghost var cancelLooks: seq<bool>
    ghost var polled: seq<Option<CallState>>
    ghost var replies: seq<Reply>

    function Footprint(): set<object> { if session == null then {this} else {this, session} }

    ghost predicate Valid()
      reads Footprint()
    {
      && (session != null ==> session.Valid() && session.rate > 0)
      && (forall f :: f in files ==> files[f].rate > 0)
      && inCall == Watching(inbound, trace)
      && sawActive == SeenActive(inbound, trace)
    }

    /** The job's clock: recorded frames, or wall time when nothing is recorded. */
    ghost function Clock(): nat
      reads Footprint()
    {
      if session == null then wallMs else session.rxLen
    }

    ghost function Stamp(clock: nat): nat {
      if session == null then clock else Ms(clock, session.rate)
    }

    ghost function Prompts(): seq<Prompt>
      reads Footprint()
    {
      if session == null then [] else session.prompts
    }

    constructor (session: DuplexSession?, inbound: bool, files: map<string, Wav>, taps: seq<real>)
      requires session != null ==> session.Valid() && session.rate > 0
      requires forall f :: f in files ==> files[f].rate > 0
      ensures Valid() && ops == [] && results == [] && trace == [] && cancelLooks == [] && polled == []
      ensures this.session == session && this.inbound == inbound && this.files == files
    {
      this.session, this.inbound, this.files, this.taps := session, inbound, files, taps;
      inCall, sawActive, callState, wallMs, cancelRequested := inbound, false, None, 0, false;
      ops, results, trace := [], [], [];
      cancelLooks, polled, replies := [], [], [];
    }

    method Elapse(atLeastMs: nat)
      requires Valid()
      modifies this`callState, this`wallMs, this`cancelRequested
      modifies if session == null then {} else {session}
      ensures Valid() && OnlyTimePassed() && wallMs >= old(wallMs) + atLeastMs
    {
      if session != null {
        CaptureGoesOn(session);
      }
      var extra: nat :| 0 <= extra;
      wallMs := wallMs + atLeastMs + extra;
      callState := *;
      if * {
        cancelRequested := true;
      }
    }

    twostate predicate OnlyTimePassed()
      reads Footprint()
    {
      Clock() >= old(Clock()) && Prompts() == old(Prompts()) && (old(cancelRequested) ==> cancelRequested)
    }

    /** The calls, the asked-for operations and their results move only as stated. */
    twostate predicate Did(op: Op, result: OpResult, events: seq<CallEvent>)
      reads this
    {
      && ops == old(ops) + [op] && results == old(results) + [result] && trace == old(trace) + events
      && NoLook()
    }

    twostate predicate NoLook()
      reads this
    {
      cancelLooks == old(cancelLooks) && polled == old(polled)
    }

    /** A hub command: it takes time, and the phone's reply may be a failure. */
    method Cmd() returns (r: Reply)
      requires Valid()
      modifies this`callState, this`wallMs, this`cancelRequested, this`replies
      modifies if session == null then {} else {session}
      ensures Valid() && OnlyTimePassed() && replies == old(replies) + [r]
    {
      Elapse(0);
      r := *;
      replies := replies + [r];
    }

    /** One reply came, and the result says whether it will do. */
    twostate predicate RepliedAs(ok: bool, hangingUp: bool)
      reads this
    {
      && |replies| == |old(replies)| + 1 && old(replies) <= replies
      && var reply := replies[|replies| - 1];
      (ok <==> reply.Ok? || (hangingUp && reply.error.NoCallToHangUp?))
    }

    // Every look at the clock, at the cancel flag and at the call comes some time after whatever the job did
    // before: the capture, the call and a cancel do not wait for it.

    method NowMs() returns (t: nat)
      requires Valid()
      modifies this`callState, this`wallMs, this`cancelRequested
      modifies if session == null then {} else {session}
      ensures Valid() && OnlyTimePassed() && t == Stamp(Clock()) && t >= old(Stamp(Clock()))
      ensures if session == null then t == wallMs else InMs(session.rxLen, t, session.rate)
    {
      ghost var before := Clock();
      Elapse(0);
      if session == null {
        t := wallMs;
      } else {
        MsIsExact(Clock(), session.rate);
        MsMonotone(before, Clock(), session.rate);
        t := session.rxLen * 1000 / Max(session.rate, 1);
      }
    }

    method Cancelled() returns (b: bool)
      requires Valid()
      modifies this`callState, this`wallMs, this`cancelRequested, this`cancelLooks
      modifies if session == null then {} else {session}
      ensures Valid() && OnlyTimePassed() && b == cancelRequested && cancelLooks == old(cancelLooks) + [b]
    {
      Elapse(0);
      b := cancelRequested;
      cancelLooks := cancelLooks + [b];
    }

    /** What a prompt file puts on tx. */
    ghost function PromptFor(file: string): seq<Sample>
      requires session != null && file in files && files[file].rate > 0 && session.rate > 0
    {
      PromptOn(files[file], Conversion(files[file].rate, session.rate, taps), session.channels)
    }

    /** One prompt more than `before`: this file's, at a clock that both ends of the play enclose. */
    ghost predicate Prompted(before: seq<Prompt>, after: seq<Prompt>, file: string, start: nat, end: nat)
      requires session != null && session.rate > 0
    {
      && file in files && files[file].rate > 0
      && |after| == |before| + 1 && before <= after
      && after[|before|].samples == PromptFor(file)
      && start <= after[|before|].clock <= end
    }

    lemma PlacedIsPrompted(before: seq<Prompt>, file: string, start: nat, clock: nat, end: nat)
      requires session != null && session.rate > 0 && file in files && files[file].rate > 0
      requires start <= clock <= end
      ensures Prompted(before, before + [Prompt(clock, PromptFor(file))], file, start, end)
    {
    }

    method DoPlay(file: string) returns (r: Result<(), string>)
      requires Valid()
      modifies Footprint()
      ensures Valid() && Did(Play(file), ResultOf(r), []) && Clock() >= old(Clock())
      ensures session == null ==> Prompts() == []
      ensures r.Ok? && session != null ==> Prompted(old(Prompts()), Prompts(), file, old(Clock()), Clock())
    {
      ops := ops + [Play(file)];
      r := PlayFile(file);
      results := results + [ResultOf(r)];
    }

    /** Put the file on tx at the clock, then play it out. */
    method PlayFile(file: string) returns (r: Result<(), string>)
      requires Valid()
      modifies this`callState, this`wallMs, this`cancelRequested
      modifies if session == null then {} else {session}
      ensures Valid() && Clock() >= old(Clock())
      ensures r.Ok? && session != null ==> Prompted(old(Prompts()), Prompts(), file, old(Clock()), Clock())
    {
      if session != null {
        var placed := PlaceOnTx(file);
        if !placed {
          return Err("cannot open the prompt");
        }
      }
      ghost var clock := Clock();
      Elapse(0);
      if session != null {
        PlacedIsPrompted(old(Prompts()), file, old(Clock()), clock, Clock());
      }
      r := *;
    }

    /** The file's prompt goes on tx at the clock of some moment from now on; a file that cannot be opened
        leaves tx alone. */
    method PlaceOnTx(file: string) returns (placed: bool)
      requires Valid() && session != null
      modifies this`callState, this`wallMs, this`cancelRequested, session
      ensures Valid() && (placed <==> file in files) && Clock() >= old(Clock())
      ensures placed ==> Prompts() == old(Prompts()) + [Prompt(Clock(), PromptFor(file))]
      ensures !placed ==> Prompts() == old(Prompts())
    {
      Elapse(0);
      if file !in files {
        return false;
      }
      TeeTx(session, files[file], taps);
      return true;
    }

    method DoWaitForSpeech(op: Op) returns (r: Result<EndReason, string>)
      requires Valid() && op.WaitForSpeech?
      modifies Footprint()
      ensures Valid() && Did(op, if r.Ok? then TurnEnded(r.value) else Refused, []) && OnlyTimePassed()
    {
      ops := ops + [op];
      Elapse(0);
      r := *;
      results := results + [if r.Ok? then TurnEnded(r.value) else Refused];
    }

    method DoWaitForSpeechStart(op: Op) returns (r: Result<bool, string>)
      requires Valid() && op.WaitForSpeechStart?
      modifies Footprint()
      ensures Valid() && Did(op, if r.Ok? then Heard(r.value) else Refused, []) && OnlyTimePassed()
    {
      ops := ops + [op];
      Elapse(0);
      r := *;
      results := results + [if r.Ok? then Heard(r.value) else Refused];
    }

    method DoDial(number: string) returns (r: Result<(), string>)
      requires Valid()
      modifies Footprint()
      ensures Valid() && Did(Dial(number), ResultOf(r), [Dialed]) && OnlyTimePassed() && RepliedAs(r.Ok?, false)
    {
      TraceSnoc(inbound, trace, Dialed);
      ops, trace := ops + [Dial(number)], trace + [Dialed];
      inCall, sawActive := true, false;
      var c := Cmd();
      r := if c.Ok? then Ok(()) else Err("dial failed");
      results := results + [ResultOf(r)];
    }

    method DoAnswer() returns (r: Result<(), string>)
      requires Valid()
      modifies Footprint()
      ensures Valid() && Did(Answer, ResultOf(r), [Answered]) && OnlyTimePassed() && RepliedAs(r.Ok?, false)
    {
      TraceSnoc(inbound, trace, Answered);
      ops, trace := ops + [Answer], trace + [Answered];
      inCall, sawActive := true, false;
      var c := Cmd();
      r := if c.Ok? then Ok(()) else Err("answer failed");
      results := results + [ResultOf(r)];
    }

    /** End the call and stop watching it. A phone that has no call left is the wanted end state. */
    method EndCall() returns (r: Result<(), string>)
      requires Valid()
      modifies this`callState, this`wallMs, this`cancelRequested, this`replies, this`inCall, this`sawActive, this`trace
      modifies if session == null then {} else {session}
      ensures Valid() && trace == old(trace) + [HungUp] && OnlyTimePassed() && !inCall && RepliedAs(r.Ok?, true)
    {
      TraceSnoc(inbound, trace, HungUp);
      trace := trace + [HungUp];
      inCall, sawActive := false, false;
      var c := Cmd();
      r := if HasHungUp(c) then Ok(()) else Err("hangup failed");
    }

    method DoHangup() returns (r: Result<(), string>)
      requires Valid()
      modifies Footprint()
      ensures Valid() && Did(Hangup, ResultOf(r), [HungUp]) && OnlyTimePassed() && RepliedAs(r.Ok?, true)
    {
      ops := ops + [Hangup];
      r := EndCall();
      results := results + [ResultOf(r)];
    }

    /** How a wait for an answer went, given what its looks at the call found. Every look but the last left
        it open: it succeeds when the last finds the call active, and gives up when the last finds the call
        gone that an earlier one found. A cancel hangs up; and time runs out only after its deadline. */
    twostate predicate AnswerWaited(timeoutMs: nat, new looks: seq<Option<CallState>>, new r: Result<(), AnswerError>)
      reads this
    {
      && (r.Ok? || !r.error.CancelledWhileRinging? ==> trace == old(trace) && !old(cancelRequested) && looks != [])
      && match r
         case Ok(_) => looks[|looks| - 1] == Some(Active) && StillOpen(looks[..|looks| - 1])
         case Err(CancelledWhileRinging) => trace == old(trace) + [HungUp] && cancelRequested && StillOpen(looks)
         case Err(EndedUnanswered) =>
           var earlier := looks[..|looks| - 1];
           looks[|looks| - 1] == None && StillOpen(earlier) && CallSeen(earlier)
         case Err(NotInTime) => StillOpen(looks) && wallMs >= old(wallMs) + timeoutMs
    }

    method DoWaitForAnswer(timeoutMs: nat) returns (r: Result<(), AnswerError>, ghost looks: seq<Option<CallState>>)
      requires Valid()
      modifies Footprint()
      ensures Valid() && OnlyTimePassed() && AnswerWaited(timeoutMs, looks, r) && NoLook()
      ensures ops == old(ops) + [WaitForAnswer(timeoutMs)] && results == old(results) + [ResultOf(r)]
    {
      ops := ops + [WaitForAnswer(timeoutMs)];
      r, looks := PollForAnswer(timeoutMs);
      results := results + [ResultOf(r)];
    }

    method PollForAnswer(timeoutMs: nat) returns (r: Result<(), AnswerError>, ghost looks: seq<Option<CallState>>)
      requires Valid()
      modifies this`callState, this`wallMs, this`cancelRequested, this`replies, this`inCall, this`sawActive, this`trace
      modifies if session == null then {} else {session}
      ensures Valid() && OnlyTimePassed() && AnswerWaited(timeoutMs, looks, r)
    {
      Elapse(0);
      var deadline := wallMs + timeoutMs;
      var seen := false;
      looks := [];
      while true
        invariant Valid() && OnlyTimePassed() && trace == old(trace) && deadline >= old(wallMs) + timeoutMs
        invariant StillOpen(looks) && seen == CallSeen(looks)
        decreases deadline - wallMs
      {
        Elapse(0);
        if cancelRequested {
          var _ := EndCall();
          return Err(CancelledWhileRinging), looks;
        }
        Elapse(0);
        OneMoreLook(looks, callState);
        looks := looks + [callState];
        match callState {
          case Some(Active) => return Ok(()), looks;
          case Some(_) => seen := true;
          case None =>
            if seen {
              return Err(EndedUnanswered), looks;
            }
        }
        Elapse(0);
        if wallMs >= deadline {
          return Err(NotInTime), looks;
        }
        Elapse(150);
      }
    }

    method DoSendSms(op: Op) returns (r: Result<(), string>)
      requires Valid() && op.SendSms?
      modifies Footprint()
      ensures Valid() && Did(op, ResultOf(r), []) && OnlyTimePassed() && RepliedAs(r.Ok?, false)
    {
      ops := ops + [op];
      var c := Cmd();
      r := if c.Ok? then Ok(()) else Err("sms failed");
      results := results + [ResultOf(r)];
    }

    method DoSleep(ms: nat)
      requires Valid()
      modifies Footprint()
      ensures Valid() && Did(Sleep(ms), Done, []) && OnlyTimePassed()
    {
      ops := ops + [Sleep(ms)];
      Elapse(0);
      results := results + [Done];
    }

    method DoLog(message: string)
      requires Valid()
      modifies Footprint()
      ensures Valid() && Did(Log(message), Done, []) && OnlyTimePassed()
    {
      ops, results := ops + [Log(message)], results + [Done];
      Elapse(0);
    }

    /** Whether the far end is gone: true exactly when the job is watching a call, an earlier poll
        since it began saw it active, and no call is reported now. */
    method CallEnded() returns (ended: bool)
      requires Valid()
      modifies this`callState, this`wallMs, this`cancelRequested, this`sawActive, this`trace, this`polled
      modifies if session == null then {} else {session}
      ensures Valid() && OnlyTimePassed() && polled == old(polled) + [callState]
      ensures trace == old(trace) + [Polled(callState)] && (ended <==> Ends(inbound, old(trace), Polled(callState)))
    {
      Elapse(0);
      ghost var looked := Polled(callState);
      TraceSnoc(inbound, trace, looked);
      ended, sawActive := CallEndedDecision(inCall, sawActive, callState);
      trace, polled := trace + [looked], polled + [callState];
    }
  }
}
