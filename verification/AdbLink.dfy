/** Keeping one phone's wireless adb endpoint connected (server/crates/dialf/src/adb_link.rs).

    Times are milliseconds. `Link` and `Backoff` are the fields the heartbeat and the link task
    update under the lock; a run is any interleaving of heartbeats, `adb connect`s and completions. */
module AdbLink {
  import opened Seqs

  const FIRST_RETRY: nat := 30_000
  const MAX_RETRY: nat := 300_000

  datatype AdbState =
    Off | Available | Connecting | Connected | NeedsPairing | BlockedLocalNetwork | AdbNotFound | Error

  datatype BackoffState = BackoffState(delay: nat, notBefore: Option<nat>)

  datatype LinkState = LinkState(endpoint: Option<string>, backoff: BackoffState, busy: bool)

  function Fresh(): BackoffState { BackoffState(FIRST_RETRY, None) }

  predicate IsReady(b: BackoffState, now: nat) { b.notBefore.None? || now >= b.notBefore.value }

  function AfterFailure(b: BackoffState, now: nat): BackoffState {
    BackoffState(Min(b.delay * 2, MAX_RETRY), Some(now + b.delay))
  }

  /** A link task: the endpoint it looks after, whether it may run `adb connect`, and since when. */
  datatype Task = Task(endpoint: string, mayConnect: bool, since: nat)

  function Reported(l: LinkState, now: nat, ep: string): (LinkState, Option<Task>) {
    if l.busy then (l, None)
    else
      var changed := l.endpoint != Some(ep);
      var backoff := if changed then Fresh() else l.backoff;
      (LinkState(Some(ep), backoff, true), Some(Task(ep, changed || IsReady(backoff, now), now)))
  }

  function Completed(l: LinkState, now: nat, outcome: Option<AdbState>): LinkState {
    var backoff :=
      match outcome
      case None => l.backoff
      case Some(Connected) => Fresh()
      case Some(Available) => Fresh()
      case Some(_) => AfterFailure(l.backoff, now);
    LinkState(l.endpoint, backoff, false)
  }

  class Backoff {
    var delay: nat
    var notBefore: Option<nat>

    ghost function View(): BackoffState
      reads this
    {
      BackoffState(delay, notBefore)
    }

    constructor ()
      ensures View() == Fresh()
    {
      delay, notBefore := FIRST_RETRY, None;
    }

    method Ready(now: nat) returns (ready: bool)
      ensures ready == IsReady(View(), now)
    {
      match notBefore
      case None => ready := true;
      case Some(t) => ready := now >= t;
    }

    method Failed(now: nat)
      modifies this
      ensures View() == AfterFailure(old(View()), now)
    {
      notBefore := Some(now + delay);
      delay := Min(delay * 2, MAX_RETRY);
    }

    method Reset()
      modifies this
      ensures View() == Fresh()
    {
      delay, notBefore := FIRST_RETRY, None;
    }
  }

  class Link {
    var endpoint: Option<string>
    const backoff: Backoff
    var busy: bool

    ghost function View(): LinkState
      reads this, backoff
    {
      LinkState(endpoint, backoff.View(), busy)
    }

    constructor ()
      ensures View() == LinkState(None, Fresh(), false) && fresh(backoff)
    {
      endpoint, busy := None, false;
      backoff := new Backoff();
    }

    /** The locked part of a heartbeat: the task to spawn, unless one is running. `previous` is the
        endpoint to disconnect. */
    method OnReport(now: nat, ep: string) returns (task: Option<Task>, previous: Option<string>)
      modifies this, backoff
      ensures (View(), task) == Reported(old(View()), now, ep)
      ensures previous == if task.Some? && old(endpoint) != Some(ep) then old(endpoint) else None
    {
      if busy {
        return None, None;
      }
      var changed := endpoint != Some(ep);
      previous := None;
      if changed {
        backoff.Reset();
        previous, endpoint := endpoint, Some(ep);
      }
      busy := true;
      var ready := backoff.Ready(now);
      task := Some(Task(ep, changed || ready, now));
    }

    /** The locked part of a completion. */
    method OnCompletion(now: nat, outcome: Option<AdbState>)
      modifies this, backoff
      ensures View() == Completed(old(View()), now, outcome)
    {
      busy := false;
      match outcome
      case None =>
      case Some(Connected) => backoff.Reset();
      case Some(Available) => backoff.Reset();
      case Some(_) => backoff.Failed(now);
    }
  }

  // ---- runs --------------------------------------------------------------------------------------

  datatype Event =
    | Report(at: nat, ep: string)
    | Connect(at: nat, task: nat)
    | Complete(at: nat, task: nat, outcome: Option<AdbState>)

  datatype System = System(link: LinkState, tasks: seq<Task>)

  function Boot(): System { System(LinkState(None, Fresh(), false), []) }

  function Step(s: System, e: Event): System {
    match e
    case Report(now, ep) =>
      var (link, task) := Reported(s.link, now, ep);
      System(link, if task.Some? then s.tasks + [task.value] else s.tasks)
    case Connect(_, _) => s
    case Complete(now, i, outcome) =>
      if i >= |s.tasks| then s else System(Completed(s.link, now, outcome), s.tasks[..i] + s.tasks[i + 1..])
  }

  /** What the tasks can do: connect only when allowed to, and report nothing new only when not. */
  predicate Enabled(s: System, e: Event) {
    match e
    case Report(_, _) => true
    case Connect(_, i) => i < |s.tasks| && s.tasks[i].mayConnect
    case Complete(_, i, outcome) => i < |s.tasks| && (outcome.None? ==> !s.tasks[i].mayConnect)
  }

  ghost predicate Took(states: seq<System>, events: seq<Event>, i: nat)
    requires i < |events| && |states| == |events| + 1
  {
    && Enabled(states[i], events[i]) && states[i + 1] == Step(states[i], events[i])
    && (i > 0 ==> events[i - 1].at <= events[i].at)
  }

  ghost predicate Behaviour(states: seq<System>, events: seq<Event>) {
    && |states| == |events| + 1 && states[0] == Boot()
    && forall i :: 0 <= i < |events| ==> Took(states, events, i)
  }

  /** A link that goes through any run, heartbeat by heartbeat and completion by completion, is in every state
      of it what the run says. */
  method Lives(events: seq<Event>, ghost states: seq<System>) returns (link: Link, tasks: seq<Task>)
    requires Behaviour(states, events)
    ensures fresh(link) && fresh(link.backoff)
    ensures System(link.View(), tasks) == states[|events|]
  {
    link := new Link();
    tasks := [];
    for i := 0 to |events|
      invariant fresh(link) && fresh(link.backoff) && System(link.View(), tasks) == states[i]
    {
      assert Took(states, events, i);
      match events[i]
      case Report(now, ep) =>
        var task, _ := link.OnReport(now, ep);
        if task.Some? {
          tasks := tasks + [task.value];
        }
      case Connect(_, _) =>
      case Complete(now, k, outcome) =>
        link.OnCompletion(now, outcome);
        tasks := tasks[..k] + tasks[k + 1..];
    }
  }

  lemma {:induction false} TimeRuns(states: seq<System>, events: seq<Event>, i: nat, j: nat)
    requires Behaviour(states, events) && i <= j < |events|
    ensures events[i].at <= events[j].at
  {
    if i < j {
      TimeRuns(states, events, i, j - 1);
      assert Took(states, events, j);
    }
  }

  /** At most one task, exactly while the link is busy, and the link keeps the endpoint it is on. */
  ghost predicate Inv(s: System) {
    && |s.tasks| <= 1 && (s.link.busy <==> |s.tasks| == 1)
    && (|s.tasks| == 1 ==> s.link.endpoint == Some(s.tasks[0].endpoint))
    && s.link.backoff.delay <= MAX_RETRY
  }

  lemma {:induction false} AlwaysInv(states: seq<System>, events: seq<Event>, i: nat)
    requires Behaviour(states, events) && i < |states|
    ensures Inv(states[i])
  {
    if i > 0 {
      AlwaysInv(states, events, i - 1);
      assert Took(states, events, i - 1);
    }
  }

  /** While a task runs, the link's endpoint is the task's, and no heartbeat changes either. */
  lemma OneTaskOneEndpoint(states: seq<System>, events: seq<Event>, i: nat)
    requires Behaviour(states, events) && i < |events| && states[i].tasks != [] && events[i].Report?
    ensures |states[i].tasks| == 1 && states[i + 1] == states[i]
    ensures states[i].link.endpoint == Some(states[i].tasks[0].endpoint)
  {
    AlwaysInv(states, events, i);
    assert Took(states, events, i);
  }

  // ---- backoff -----------------------------------------------------------------------------------

  predicate Failure(o: Option<AdbState>) { o.Some? && o.value != Connected && o.value != Available }

  /** The event starts afresh: a connected or available phone, or a heartbeat with a new endpoint. */
  predicate Resets(s: System, e: Event) {
    match e
    case Report(_, ep) => !s.link.busy && s.link.endpoint != Some(ep)
    case Connect(_, _) => false
    case Complete(_, _, outcome) => outcome.Some? && !Failure(outcome)
  }

  /** Failures in a row before step n. */
  ghost function Streak(states: seq<System>, events: seq<Event>, n: nat): nat
    requires n <= |events| < |states|
  {
    if n == 0 || Resets(states[n - 1], events[n - 1]) then 0
    else if events[n - 1].Complete? && Failure(events[n - 1].outcome) then Streak(states, events, n - 1) + 1
    else Streak(states, events, n - 1)
  }

  function Pow2(k: nat): nat { if k == 0 then 1 else 2 * Pow2(k - 1) }

  /** The wait that the failure with k failures before it brings: 30 s doubling to 5 min. */
  function Wait(k: nat): nat { Min(FIRST_RETRY * Pow2(k), MAX_RETRY) }

  /** The step of the latest failure in the current streak. */
  ghost function LastFailure(states: seq<System>, events: seq<Event>, n: nat): (i: nat)
    requires n <= |events| < |states| && Streak(states, events, n) > 0
    ensures i < n && events[i].Complete? && Failure(events[i].outcome)
  {
    if events[n - 1].Complete? && Failure(events[n - 1].outcome) then n - 1 else LastFailure(states, events, n - 1)
  }

  lemma BackoffStep(s: System, e: Event)
    requires Inv(s) && Enabled(s, e)
    ensures Step(s, e).link.backoff ==
      if Resets(s, e) then Fresh()
      else if e.Complete? && Failure(e.outcome) then AfterFailure(s.link.backoff, e.at)
      else s.link.backoff
  {
  }

  lemma {:induction false} Pow2AtLeast(k: nat)
    requires k >= 4
    ensures Pow2(k) >= 16
  {
    if k > 4 {
      Pow2AtLeast(k - 1);
    } else {
      assert Pow2(2) == 4;
    }
  }

  /** The waits, in milliseconds. */
  lemma WaitsAre(k: nat)
    ensures Wait(0) == 30_000 && Wait(1) == 60_000 && Wait(2) == 120_000 && Wait(3) == 240_000
    ensures k >= 4 ==> Wait(k) == 300_000
  {
    assert Pow2(0) == 1 && Pow2(1) == 2 && Pow2(2) == 4 && Pow2(3) == 8;
    if k >= 4 {
      Pow2AtLeast(k);
    }
  }

  lemma WaitDoubles(k: nat)
    ensures Wait(k + 1) == Min(2 * Wait(k), MAX_RETRY) && Wait(0) == FIRST_RETRY
  {
    assert Pow2(k + 1) == 2 * Pow2(k);
  }

  /** Step n was possible, and was taken. */
  lemma Taken(states: seq<System>, events: seq<Event>, n: nat)
    requires Behaviour(states, events) && n < |events|
    ensures Inv(states[n]) && Enabled(states[n], events[n]) && states[n + 1] == Step(states[n], events[n])
  {
    AlwaysInv(states, events, n);
    assert Took(states, events, n);
  }

  /** The backoff is a function of the streak alone: what the next failure will cost, and until when
      the last one holds `adb connect` back. */
  lemma {:induction false} BackoffIsStreak(states: seq<System>, events: seq<Event>, n: nat)
    requires Behaviour(states, events) && n <= |events|
    ensures var b, k := states[n].link.backoff, Streak(states, events, n);
      && b.delay == Wait(k)
      && b.notBefore == if k == 0 then None else Some(events[LastFailure(states, events, n)].at + Wait(k - 1))
  {
    WaitDoubles(0);
    if n > 0 {
      BackoffIsStreak(states, events, n - 1);
      Taken(states, events, n - 1);
      BackoffStep(states[n - 1], events[n - 1]);
      WaitDoubles(Streak(states, events, n - 1));
    }
  }

  /** Failures at these times, one after the other, on a fresh backoff. */
  function FailedAt(times: seq<nat>): BackoffState {
    if times == [] then Fresh() else AfterFailure(FailedAt(times[..|times| - 1]), times[|times| - 1])
  }

  /** After k failures in a row the next one will cost min(30 * 2^k, 300) seconds, and an attempt is due
      exactly when the wait of the last one, counted from it, is over. */
  lemma {:induction false} FailuresInARow(times: seq<nat>, now: nat)
    ensures FailedAt(times).delay == Wait(|times|)
    ensures IsReady(FailedAt(times), now) <==> times == [] || now >= times[|times| - 1] + Wait(|times| - 1)
  {
    WaitDoubles(0);
    if times != [] {
      FailuresInARow(times[..|times| - 1], now);
      WaitDoubles(|times| - 1);
    }
  }

  /** A completion leaves the link free for the next heartbeat, on the endpoint its task looked after. A
      phone found connected or available may be connected to again at once, a failed one only after
      the wait its streak has come to, and one that was still waiting no sooner than before. */
  lemma CompletionMeans(states: seq<System>, events: seq<Event>, n: nat, now: nat)
    requires Behaviour(states, events) && n < |events| && events[n].Complete?
    ensures var link := states[n + 1].link; var e := events[n];
      && |states[n].tasks| == 1 && states[n + 1].tasks == [] && !link.busy
      && link.endpoint == Some(states[n].tasks[0].endpoint)
      && (e.outcome == Some(Connected) || e.outcome == Some(Available) ==> IsReady(link.backoff, now))
      && (e.outcome.Some? && e.outcome != Some(Connected) && e.outcome != Some(Available) ==>
            (IsReady(link.backoff, now) <==> now >= e.at + Wait(Streak(states, events, n))))
      && (e.outcome.None? ==> (IsReady(link.backoff, now) <==> IsReady(states[n].link.backoff, now)))
  {
    Taken(states, events, n);
    BackoffIsStreak(states, events, n);
  }

  /** A heartbeat that finds no task running starts one that may connect exactly when the endpoint is
      new, nothing has failed since the last fresh start, or the last failure's wait is over. */
  lemma GrantedExactly(states: seq<System>, events: seq<Event>, n: nat)
    requires Behaviour(states, events) && n < |events| && events[n].Report? && states[n].tasks == []
    ensures |states[n + 1].tasks| == 1 && states[n + 1].tasks[0].endpoint == events[n].ep
    ensures states[n + 1].link.endpoint == Some(events[n].ep)
    ensures var k := Streak(states, events, n);
      states[n + 1].tasks[0].mayConnect <==>
        || states[n].link.endpoint != Some(events[n].ep) || k == 0
        || events[n].at >= events[LastFailure(states, events, n)].at + Wait(k - 1)
  {
    Taken(states, events, n);
    BackoffIsStreak(states, events, n);
    TasksStep(states[n], events[n]);
  }

  /** Since the failure at step i nothing has reset the link. */
  ghost predicate NoResetIn(states: seq<System>, events: seq<Event>, i: nat, n: nat)
    requires n <= |events| < |states|
  {
    forall k :: i < k < n ==> !Resets(states[k], events[k])
  }

  /** Held back: neither the link nor the task in flight may connect before `until`. */
  ghost predicate HeldBack(s: System, until: nat, wait: nat) {
    && s.link.backoff.notBefore.Some? && s.link.backoff.notBefore.value >= until
    && wait <= s.link.backoff.delay
    && (s.tasks != [] && s.tasks[0].mayConnect ==> s.tasks[0].since >= until)
  }

  lemma HeldBackStep(s: System, e: Event, until: nat, wait: nat, failedAt: nat)
    requires Inv(s) && Enabled(s, e) && HeldBack(s, until, wait) && !Resets(s, e)
    requires until == failedAt + wait && failedAt <= e.at && wait <= MAX_RETRY
    ensures HeldBack(Step(s, e), until, wait)
  {
    BackoffStep(s, e);
    TasksStep(s, e);
  }

  /** A completion leaves no task; a heartbeat that finds none starts one, from the backoff. */
  lemma TasksStep(s: System, e: Event)
    requires Inv(s) && Enabled(s, e)
    ensures match e
      case Report(now, ep) =>
        Step(s, e).tasks ==
          if s.tasks != [] then s.tasks
          else [Task(ep, Resets(s, e) || IsReady(s.link.backoff, now), now)]
      case Connect(_, _) => Step(s, e).tasks == s.tasks
      case Complete(_, _, _) => Step(s, e).tasks == []
  {
  }

  lemma FailureHoldsBack(s: System, e: Event)
    requires Inv(s) && Enabled(s, e) && e.Complete? && Failure(e.outcome)
    ensures HeldBack(Step(s, e), e.at + s.link.backoff.delay, s.link.backoff.delay)
  {
    BackoffStep(s, e);
    TasksStep(s, e);
  }

  lemma {:induction false} StaysHeldBack(states: seq<System>, events: seq<Event>, i: nat, n: nat, wait: nat)
    requires Behaviour(states, events) && i < n <= |events| && NoResetIn(states, events, i, n)
    requires events[i].Complete? && Failure(events[i].outcome) && wait == states[i].link.backoff.delay
    ensures HeldBack(states[n], events[i].at + wait, wait)
  {
    var s, e := states[n - 1], events[n - 1];
    Taken(states, events, n - 1);
    if i == n - 1 {
      FailureHoldsBack(s, e);
    } else {
      StaysHeldBack(states, events, i, n - 1, wait);
      Taken(states, events, i);
      TimeRuns(states, events, i, n - 1);
      HeldBackStep(s, e, events[i].at + wait, wait, events[i].at);
    }
  }

  /** A running task was started by an earlier heartbeat. */
  lemma {:induction false} TasksStartEarlier(states: seq<System>, events: seq<Event>, n: nat, j: nat)
    requires Behaviour(states, events) && n <= j < |events|
    ensures states[n].tasks != [] ==> states[n].tasks[0].since <= events[j].at
  {
    if n > 0 {
      TasksStartEarlier(states, events, n - 1, j);
      Taken(states, events, n - 1);
      TasksStep(states[n - 1], events[n - 1]);
      TimeRuns(states, events, n - 1, j);
    }
  }

  /** After the k-th failure in a row (k from 0) no `adb connect` starts for min(30 * 2^k, 300)
      seconds, as long as nothing resets the link. */
  lemma NoEarlyConnect(states: seq<System>, events: seq<Event>, i: nat, j: nat)
    requires Behaviour(states, events) && i < j < |events| && NoResetIn(states, events, i, j)
    requires events[i].Complete? && Failure(events[i].outcome) && events[j].Connect?
    ensures events[j].at >= events[i].at + Wait(Streak(states, events, i))
  {
    BackoffIsStreak(states, events, i);
    StaysHeldBack(states, events, i, j, states[i].link.backoff.delay);
    TasksStartEarlier(states, events, j, j);
    Taken(states, events, j);
  }

  /** The steps of the run below, one by one. */
  lemma LiftSteps(ep: string)
    ensures var idle, busy := LinkState(Some(ep), Fresh(), false), LinkState(Some(ep), Fresh(), true);
      var failed := AfterFailure(Fresh(), 0);
      && Step(Boot(), Report(0, ep)) == System(busy, [Task(ep, true, 0)])
      && Step(System(busy, [Task(ep, true, 0)]), Complete(0, 0, Some(Error))) ==
         System(LinkState(Some(ep), failed, false), [])
      && Step(System(LinkState(Some(ep), failed, false), []), Report(1000, ep)) ==
         System(LinkState(Some(ep), failed, true), [Task(ep, false, 1000)])
      && Step(System(LinkState(Some(ep), failed, true), [Task(ep, false, 1000)]), Complete(1000, 0, Some(Connected))) ==
         System(idle, [])
      && Step(System(idle, []), Report(2000, ep)) == System(busy, [Task(ep, true, 2000)])
  {
  }

  /** A success in between does lift the wait, on the same endpoint: an attempt fails, a second later the
      phone is found connected, it drops, and another second later the next attempt starts. */
  lemma ConnectedLiftsTheWait(ep: string) returns (states: seq<System>, events: seq<Event>)
    ensures Behaviour(states, events) && |events| == 7
    ensures events[1].Connect? && events[2].Complete? && Failure(events[2].outcome) && events[6].Connect?
    ensures forall i :: 0 <= i < 7 && events[i].Report? ==> events[i].ep == ep
    ensures events[6].at < events[2].at + Wait(Streak(states, events, 2))
  {
    var idle, busy := LinkState(Some(ep), Fresh(), false), LinkState(Some(ep), Fresh(), true);
    var failed := AfterFailure(Fresh(), 0);
    events := [Report(0, ep), Connect(0, 0), Complete(0, 0, Some(Error)), Report(1000, ep),
               Complete(1000, 0, Some(Connected)), Report(2000, ep), Connect(2000, 0)];
    states := [
      Boot(),
      System(busy, [Task(ep, true, 0)]),
      System(busy, [Task(ep, true, 0)]),
      System(LinkState(Some(ep), failed, false), []),
      System(LinkState(Some(ep), failed, true), [Task(ep, false, 1000)]),
      System(idle, []),
      System(busy, [Task(ep, true, 2000)]),
      System(busy, [Task(ep, true, 2000)])];
    LiftSteps(ep);
    assert Took(states, events, 0) && Took(states, events, 1) && Took(states, events, 2) && Took(states, events, 3);
    assert Took(states, events, 4) && Took(states, events, 5) && Took(states, events, 6);
    FirstFailureWaits(states, events);
  }

  lemma FirstFailureWaits(states: seq<System>, events: seq<Event>)
    requires 2 < |events| < |states| && events[0].Report? && events[1].Connect? && Resets(states[0], events[0])
    ensures Wait(Streak(states, events, 2)) == FIRST_RETRY
  {
    assert Streak(states, events, 1) == 0;
    assert Wait(0) == FIRST_RETRY by { assert Pow2(0) == 1; }
  }
}
