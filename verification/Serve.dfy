/** Auto-answer serve sessions: the exclusive slot, overrides that bear a token, and what an inbound
    call resolves to (server/crates/dialf/src/daemon.rs, server/crates/dialf/src/transport/control_server.rs).

    `Shared` is the daemon's locked state; class `Daemon` holds it, with one method per critical
    section. `System` adds the sessions and the lookups that run between those sections. */
module Serve {
  import opened Seqs

  type Number = string
  type Steps = seq<string>

  datatype Override = Override(token: nat, path: string, device: Option<string>)

  /** A number's handler in the runtime layer. */
  datatype InboundJob = AnswerOnly | Path(path: string) | Inline(steps: Steps)

  datatype Handler = JustAnswer | Job(path: string, device: Option<string>) | RunSteps(steps: Steps)

  type Runtime = Option<map<Number, InboundJob>>

  /** A config entry is a job file, its path resolved, or nothing to run. */
  type Config = map<Number, Option<string>>

  datatype Shared = Shared(serveBusy: bool, serveToken: nat, overrides: map<Number, Override>, runtime: Runtime)

  function Start(): Shared { Shared(false, 1, map[], None) }

  /** What the two layers below the serve sessions say. A runtime map replaces the config wholesale. */
  function LowerLayers(runtime: Runtime, config: Config, number: Number): Option<Handler> {
    match runtime
    case Some(jobs) =>
      if number !in jobs then None
      else (
        match jobs[number]
        case AnswerOnly => Some(JustAnswer)
        case Path(p) => Some(Job(p, None))
        case Inline(steps) => Some(RunSteps(steps)))
    case None =>
      if number !in config then None
      else if config[number].None? then Some(JustAnswer)
      else Some(Job(config[number].value, None))
  }

  /** What each entry comes to: in the runtime map a bare answer, a job by its path, or steps given in place;
      in the config, which counts only when there is no such map, a job or a bare answer. */
  lemma LowerLayersMean(runtime: Runtime, config: Config, number: Number)
    ensures var h := LowerLayers(runtime, config, number);
      && (runtime.Some? ==> (h.None? <==> number !in runtime.value))
      && (runtime.Some? && number in runtime.value ==>
            var entry := runtime.value[number];
            && (entry.AnswerOnly? <==> h == Some(JustAnswer))
            && (entry.Path? ==> h == Some(Job(entry.path, None)))
            && (entry.Inline? ==> h == Some(RunSteps(entry.steps))))
      && (runtime.None? ==> (h.None? <==> number !in config))
      && (runtime.None? && number in config ==>
            && (config[number].None? <==> h == Some(JustAnswer))
            && (config[number].Some? ==> h == Some(Job(config[number].value, None))))
  {
  }

  function Resolved(h: Shared, config: Config, number: Number): Option<Handler> {
    if number in h.overrides then Some(Job(h.overrides[number].path, h.overrides[number].device))
    else LowerLayers(h.runtime, config, number)
  }

  /** The numbers any call is answered for: those a session serves, and then the runtime map's alone, or the
      config's alone when there is none. */
  function Answerable(h: Shared, config: Config): set<Number> {
    h.overrides.Keys + if h.runtime.Some? then h.runtime.value.Keys else config.Keys
  }

  /** A call is handled exactly when its number is answerable. While a runtime map is set the config has no
      say, so an empty one silences every number that no session serves; and what a session serves
      depends on neither. */
  lemma LayersDoNotMix(h: Shared, h': Shared, config: Config, config': Config, number: Number)
    requires h'.overrides == h.overrides
    ensures Resolved(h, config, number).Some? <==> number in Answerable(h, config)
    ensures h.runtime == h'.runtime && h.runtime.Some? ==> Resolved(h, config, number) == Resolved(h', config', number)
    ensures h.runtime == Some(map[]) && number !in h.overrides ==> Resolved(h, config, number) == None
    ensures number in h.overrides ==> Resolved(h, config, number) == Resolved(h', config', number)
    ensures Resolved(h, config, number) == Some(JustAnswer) ==> number !in h.overrides
  {
  }

  function Cleared(overrides: map<Number, Override>, token: nat): map<Number, Override> {
    map n | n in overrides && overrides[n].token != token :: overrides[n]
  }

  /** Numbers registered one by one, the later ones over the earlier. */
  function Registered(overrides: map<Number, Override>, numbers: seq<Number>, ov: Override): map<Number, Override> {
    if numbers == [] then overrides
    else Registered(overrides, numbers[..|numbers| - 1], ov)[numbers[|numbers| - 1] := ov]
  }

  lemma RegisteredSnoc(overrides: map<Number, Override>, numbers: seq<Number>, k: nat, ov: Override)
    requires k < |numbers|
    ensures Registered(overrides, numbers[..k + 1], ov) == Registered(overrides, numbers[..k], ov)[numbers[k] := ov]
  {
    assert numbers[..k + 1][..k] == numbers[..k];
  }

  lemma {:induction false} RegisteredEntries(overrides: map<Number, Override>, numbers: seq<Number>, ov: Override,
                                             n: Number)
    ensures n in Registered(overrides, numbers, ov) <==> n in numbers || n in overrides
    ensures n in numbers ==> Registered(overrides, numbers, ov)[n] == ov
    ensures n !in numbers && n in overrides ==> Registered(overrides, numbers, ov)[n] == overrides[n]
  {
    if numbers != [] {
      RegisteredEntries(overrides, numbers[..|numbers| - 1], ov, n);
      assert numbers == numbers[..|numbers| - 1] + [numbers[|numbers| - 1]];
    }
  }

  lemma AllEntries(overrides: map<Number, Override>, numbers: seq<Number>, ov: Override)
    ensures var all := Registered(overrides, numbers, ov);
      && all.Keys == overrides.Keys + (set n | n in numbers)
      && forall n :: n in all ==> all[n] == if n in numbers then ov else overrides[n]
  {
    forall n
      ensures n in Registered(overrides, numbers, ov) <==> n in numbers || n in overrides
      ensures n in numbers ==> Registered(overrides, numbers, ov)[n] == ov
      ensures n !in numbers && n in overrides ==> Registered(overrides, numbers, ov)[n] == overrides[n]
    {
      RegisteredEntries(overrides, numbers, ov, n);
    }
  }

  /** A token's own entries can be taken out again; over entries of other tokens that leaves exactly
      the numbers that were not overwritten. */
  lemma ClearedOfRegistered(overrides: map<Number, Override>, numbers: seq<Number>, ov: Override)
    requires forall n :: n in overrides ==> overrides[n].token != ov.token
    ensures Cleared(Registered(overrides, numbers, ov), ov.token) ==
      map n | n in overrides && n !in numbers :: overrides[n]
  {
    forall n
      ensures n in Registered(overrides, numbers, ov) <==> n in numbers || n in overrides
      ensures n in numbers ==> Registered(overrides, numbers, ov)[n] == ov
      ensures n !in numbers && n in overrides ==> Registered(overrides, numbers, ov)[n] == overrides[n]
    {
      RegisteredEntries(overrides, numbers, ov, n);
    }
  }

  datatype Request = Request(numbers: seq<Number>, path: string, device: Option<string>)

  /** The slot taken, a token used up, and the numbers registered under it. */
  function Opened(h: Shared, req: Request): Shared {
    Shared(true, h.serveToken + 1,
           Registered(h.overrides, req.numbers, Override(h.serveToken, req.path, req.device)), h.runtime)
  }

  // ---- the daemon --------------------------------------------------------------------------------

  class Daemon {
    const config: Config
    var serveBusy: bool
    var serveToken: nat
    var overrides: map<Number, Override>
    var runtime: Runtime

    ghost function View(): Shared
      reads this
    {
      Shared(serveBusy, serveToken, overrides, runtime)
    }

    constructor (config: Config)
      ensures View() == Start() && this.config == config
    {
      this.config := config;
      serveBusy, serveToken, overrides, runtime := false, 1, map[], None;
    }

    method AcquireServe() returns (got: bool)
      modifies this`serveBusy
      ensures got == !old(serveBusy) && View() == old(View()).(serveBusy := true)
    {
      got := !serveBusy;
      serveBusy := true;
    }

    method NextServeToken() returns (token: nat)
      modifies this`serveToken
      ensures token == old(serveToken) && View() == old(View()).(serveToken := token + 1)
    {
      token, serveToken := serveToken, serveToken + 1;
    }

    method RegisterOverride(number: Number, ov: Override)
      modifies this`overrides
      ensures View() == old(View()).(overrides := old(overrides)[number := ov])
    {
      overrides := overrides[number := ov];
    }

    method ClearOverrides(token: nat)
      modifies this`overrides
      ensures View() == old(View()).(overrides := Cleared(old(overrides), token))
    {
      overrides := map n | n in overrides && overrides[n].token != token :: overrides[n];
    }

    method ReleaseServe()
      modifies this`serveBusy
      ensures View() == old(View()).(serveBusy := false)
    {
      serveBusy := false;
    }

    method SetRuntime(jobs: Runtime)
      modifies this`runtime
      ensures View() == old(View()).(runtime := jobs)
    {
      runtime := jobs;
    }

    method ResolveInbound(number: Number) returns (r: Option<Handler>)
      ensures r == Resolved(View(), config, number)
    {
      if number in overrides {
        return Some(Job(overrides[number].path, overrides[number].device));
      }
      if runtime.Some? {
        if number !in runtime.value {
          return None;
        }
        match runtime.value[number]
        case AnswerOnly => return Some(JustAnswer);
        case Path(p) => return Some(Job(p, None));
        case Inline(steps) => return Some(RunSteps(steps));
      }
      if number !in config {
        return None;
      } else if config[number].None? {
        return Some(JustAnswer);
      } else {
        return Some(Job(config[number].value, None));
      }
    }

    /** One session on its own, up to where it streams: refused, or its numbers are overridden. */
    method OpenSession(req: Request) returns (token: Option<nat>)
      modifies this
      ensures token.None? <==> old(serveBusy)
      ensures token.None? ==> View() == old(View())
      ensures token.Some? ==> token.value == old(serveToken)
      ensures token.Some? ==> View() == Opened(old(View()), req)
      ensures token.Some? ==> serveBusy && serveToken == token.value + 1 && runtime == old(runtime)
      ensures token.Some? ==> overrides.Keys == old(overrides).Keys + set n | n in req.numbers
      ensures token.Some? ==> forall n :: n in overrides ==>
        overrides[n] == if n in req.numbers then Override(token.value, req.path, req.device) else old(overrides)[n]
    {
      var got := AcquireServe();
      if !got {
        return None;
      }
      var t := NextServeToken();
      for k := 0 to |req.numbers|
        invariant View() == Shared(true, old(serveToken) + 1,
                                   Registered(old(overrides), req.numbers[..k], Override(t, req.path, req.device)),
                                   old(runtime))
      {
        RegisteredSnoc(old(overrides), req.numbers, k, Override(t, req.path, req.device));
        RegisterOverride(req.numbers[k], Override(t, req.path, req.device));
      }
      assert req.numbers[..|req.numbers|] == req.numbers;
      AllEntries(old(overrides), req.numbers, Override(t, req.path, req.device));
      return Some(t);
    }

    /** Where a session ends, however it ends. */
    method CloseSession(token: nat)
      modifies this
      ensures View() == old(View()).(overrides := Cleared(old(overrides), token), serveBusy := false)
      ensures forall n :: n in overrides <==> n in old(overrides) && old(overrides)[n].token != token
      ensures forall n :: n in overrides ==> overrides[n] == old(overrides)[n]
    {
      ClearOverrides(token);
      ReleaseServe();
    }
  }

  /** A session from its start to its end, with calls for a number before, during and after: before and
      after it the call gets the same answer, and in between the session's job if it serves the number. */
  method CallsAround(daemon: Daemon, req: Request, number: Number)
      returns (before: Option<Handler>, during: Option<Handler>, after: Option<Handler>)
    requires !daemon.serveBusy && daemon.overrides == map[]
    modifies daemon
    ensures daemon.View() == old(daemon.View()).(serveToken := old(daemon.serveToken) + 1)
    ensures before == after == LowerLayers(daemon.runtime, daemon.config, number)
    ensures during == if number in req.numbers then Some(Job(req.path, req.device)) else before
  {
    before := daemon.ResolveInbound(number);
    var token := daemon.OpenSession(req);
    RegisteredEntries(map[], req.numbers, Override(token.value, req.path, req.device), number);
    during := daemon.ResolveInbound(number);
    ClearedOfRegistered(map[], req.numbers, Override(token.value, req.path, req.device));
    daemon.CloseSession(token.value);
    after := daemon.ResolveInbound(number);
  }

  // ---- sessions and lookups, interleaved ---------------------------------------------------------

  datatype Phase =
    | Arrived
    | Refused
    | Acquired
    | Registering(token: nat, count: nat)
    | Serving(token: nat)
    | Leaving(token: nat)
    | Reverted
    | Ended

  datatype Session = Session(req: Request, phase: Phase)

  datatype System = System(
    d: Shared,
    sessions: map<nat, Session>,
    looking: map<nat, Number>,                  // lookups that found no override
    answers: map<nat, Option<Handler>>)         // finished lookups

  datatype Event =
    | Arrive(id: nat, req: Request)
    | Acquire(id: nat)
    | TakeToken(id: nat)
    | Register(id: nat)
    | Subscribe(id: nat)
    | Leave(id: nat)
    | Clear(id: nat)
    | Release(id: nat)
    | SetRuntime(jobs: Runtime)
    | LookOverride(task: nat, number: Number)
    | LookBelow(task: nat)

  function Boot(): System { System(Start(), map[], map[], map[]) }

  predicate At(s: System, id: nat, p: Phase) { id in s.sessions && s.sessions[id].phase == p }

  predicate IsRegistering(s: System, id: nat) { id in s.sessions && s.sessions[id].phase.Registering? }

  predicate IsServing(s: System, id: nat) { id in s.sessions && s.sessions[id].phase.Serving? }

  predicate IsLeaving(s: System, id: nat) { id in s.sessions && s.sessions[id].phase.Leaving? }

  function To(s: System, id: nat, p: Phase): System
    requires id in s.sessions
  {
    s.(sessions := s.sessions[id := s.sessions[id].(phase := p)])
  }

  function OverrideOf(req: Request, token: nat): Override { Override(token, req.path, req.device) }

  /** One more number; after the last one the session goes on to stream. */
  function RegisterOne(s: System, id: nat): System
    requires IsRegistering(s, id)
  {
    var ss := s.sessions[id];
    var k := ss.phase.count;
    if k < |ss.req.numbers| then
      To(s, id, Registering(ss.phase.token, k + 1))
        .(d := s.d.(overrides := s.d.overrides[ss.req.numbers[k] := OverrideOf(ss.req, ss.phase.token)]))
    else s
  }

  function Look(s: System, t: nat, n: Number): System {
    if n in s.d.overrides then
      s.(answers := s.answers[t := Some(Job(s.d.overrides[n].path, s.d.overrides[n].device))])
    else s.(looking := s.looking[t := n])
  }

  /** One critical section of one session or lookup. An event its task is not ready for changes
      nothing. A streaming session may leave at any time, for whatever reason. */
  function Step(s: System, config: Config, e: Event): System {
    match e
    case Arrive(id, req) => if id in s.sessions then s else s.(sessions := s.sessions[id := Session(req, Arrived)])
    case Acquire(id) =>
      if !At(s, id, Arrived) then s
      else if s.d.serveBusy then To(s, id, Refused)
      else To(s, id, Acquired).(d := s.d.(serveBusy := true))
    case TakeToken(id) =>
      if !At(s, id, Acquired) then s
      else To(s, id, Registering(s.d.serveToken, 0)).(d := s.d.(serveToken := s.d.serveToken + 1))
    case Register(id) => if !IsRegistering(s, id) then s else RegisterOne(s, id)
    case Subscribe(id) =>
      if !IsRegistering(s, id) || s.sessions[id].phase.count < |s.sessions[id].req.numbers| then s
      else To(s, id, Serving(s.sessions[id].phase.token))
    case Leave(id) => if !IsServing(s, id) then s else To(s, id, Leaving(s.sessions[id].phase.token))
    case Clear(id) =>
      if !IsLeaving(s, id) then s
      else To(s, id, Reverted).(d := s.d.(overrides := Cleared(s.d.overrides, s.sessions[id].phase.token)))
    case Release(id) => if !At(s, id, Reverted) then s else To(s, id, Ended).(d := s.d.(serveBusy := false))
    case SetRuntime(jobs) => s.(d := s.d.(runtime := jobs))
    case LookOverride(t, n) => if t in s.looking || t in s.answers then s else Look(s, t, n)
    case LookBelow(t) =>
      if t !in s.looking then s
      else s.(looking := s.looking - {t}, answers := s.answers[t := LowerLayers(s.d.runtime, config, s.looking[t])])
  }

  /** The session has the slot. */
  predicate Holds(p: Phase) { p.Acquired? || p.Registering? || p.Serving? || p.Leaving? || p.Reverted? }

  predicate Holding(s: System, id: nat) { id in s.sessions && Holds(s.sessions[id].phase) }

  /** What the override map is while a session in this phase holds the slot. */
  ghost predicate OwnOverrides(d: Shared, ss: Session) {
    match ss.phase
    case Acquired => d.overrides == map[]
    case Registering(t, k) =>
      && t < d.serveToken && k <= |ss.req.numbers|
      && d.overrides == Registered(map[], ss.req.numbers[..k], OverrideOf(ss.req, t))
    case Serving(t) => t < d.serveToken && d.overrides == Registered(map[], ss.req.numbers, OverrideOf(ss.req, t))
    case Leaving(t) => t < d.serveToken && d.overrides == Registered(map[], ss.req.numbers, OverrideOf(ss.req, t))
    case Reverted => d.overrides == map[]
    case _ => true
  }

  ghost predicate Inv(s: System) {
    && (forall i, j :: Holding(s, i) && Holding(s, j) ==> i == j)
    && (s.d.serveBusy <==> exists i :: Holding(s, i))
    && (!s.d.serveBusy ==> s.d.overrides == map[])
    && (forall i :: Holding(s, i) ==> OwnOverrides(s.d, s.sessions[i]))
  }

  lemma InvFrom(s: System, s': System, id: nat)
    requires Inv(s) && Holding(s, id) && Holding(s', id) && s'.d.serveBusy
    requires s'.sessions.Keys == s.sessions.Keys
    requires forall i :: i in s.sessions && i != id ==> s'.sessions[i] == s.sessions[i]
    requires OwnOverrides(s'.d, s'.sessions[id])
    ensures Inv(s')
  {
    forall i | Holding(s', i) ensures i == id {
      if i != id {
        assert Holding(s, i);
      }
    }
  }

  lemma KeptByRegister(s: System, id: nat)
    requires Inv(s) && IsRegistering(s, id)
    ensures Inv(RegisterOne(s, id))
  {
    var ss := s.sessions[id];
    assert Holding(s, id);
    if ss.phase.count < |ss.req.numbers| {
      RegisteredSnoc(map[], ss.req.numbers, ss.phase.count, OverrideOf(ss.req, ss.phase.token));
      InvFrom(s, RegisterOne(s, id), id);
    }
  }

  lemma KeptByAcquire(s: System, config: Config, id: nat)
    requires Inv(s) && At(s, id, Arrived)
    ensures Inv(Step(s, config, Acquire(id)))
  {
    var s' := Step(s, config, Acquire(id));
    forall i | Holding(s', i) && i != id ensures Holding(s, i) {
    }
    if s.d.serveBusy {
      var h :| Holding(s, h);
      assert Holding(s', h);
    } else {
      assert Holding(s', id);
    }
  }

  lemma KeptByRelease(s: System, config: Config, id: nat)
    requires Inv(s) && At(s, id, Reverted)
    ensures Inv(Step(s, config, Release(id)))
  {
    var s' := Step(s, config, Release(id));
    assert Holding(s, id);
    forall i | Holding(s', i) ensures false {
      assert Holding(s, i);
    }
  }

  lemma KeptByClear(s: System, config: Config, id: nat)
    requires Inv(s) && IsLeaving(s, id)
    ensures Inv(Step(s, config, Clear(id))) && Step(s, config, Clear(id)).d.overrides == map[]
  {
    var ss := s.sessions[id];
    assert Holding(s, id);
    ClearedOfRegistered(map[], ss.req.numbers, OverrideOf(ss.req, ss.phase.token));
    InvFrom(s, Step(s, config, Clear(id)), id);
  }

  lemma KeptByArrival(s: System, config: Config, id: nat, req: Request)
    requires Inv(s)
    ensures Inv(Step(s, config, Arrive(id, req)))
  {
    var s' := Step(s, config, Arrive(id, req));
    forall i ensures Holding(s', i) <==> Holding(s, i) {
    }
    assert s.d.serveBusy ==> exists i :: Holding(s, i);
  }

  lemma KeptBySameSessions(s: System, s': System)
    requires Inv(s) && s'.sessions == s.sessions
    requires s'.d.serveBusy == s.d.serveBusy && s'.d.serveToken == s.d.serveToken && s'.d.overrides == s.d.overrides
    ensures Inv(s')
  {
    forall i ensures Holding(s', i) <==> Holding(s, i) {
    }
  }

  lemma KeptBySession(s: System, config: Config, e: Event)
    requires Inv(s) && (e.TakeToken? || e.Subscribe? || e.Leave?)
    ensures Inv(Step(s, config, e))
  {
    var s' := Step(s, config, e);
    if s' != s {
      assert Holding(s, e.id);
      var numbers := s.sessions[e.id].req.numbers;
      assert numbers[..0] == [] && numbers[..|numbers|] == numbers;
      InvFrom(s, s', e.id);
    }
  }

  /** Every section keeps the invariant. */
  lemma StepKept(s: System, config: Config, e: Event)
    requires Inv(s)
    ensures Inv(Step(s, config, e))
  {
    match e
    case Arrive(id, req) => KeptByArrival(s, config, id, req);
    case Acquire(id) => if At(s, id, Arrived) { KeptByAcquire(s, config, id); }
    case Register(id) => if IsRegistering(s, id) { KeptByRegister(s, id); }
    case Clear(id) => if IsLeaving(s, id) { KeptByClear(s, config, id); }
    case Release(id) => if At(s, id, Reverted) { KeptByRelease(s, config, id); }
    case SetRuntime(jobs) => KeptBySameSessions(s, Step(s, config, e));
    case LookOverride(t, n) => KeptBySameSessions(s, Step(s, config, e));
    case LookBelow(t) => KeptBySameSessions(s, Step(s, config, e));
    case _ => KeptBySession(s, config, e);
  }

  // ---- what holds over every run -----------------------------------------------------------------

  ghost predicate Took(states: seq<System>, events: seq<Event>, config: Config, i: nat)
    requires i < |events| < |states|
  {
    states[i + 1] == Step(states[i], config, events[i])
  }

  ghost predicate Behaviour(states: seq<System>, events: seq<Event>, config: Config) {
    && |states| == |events| + 1
    && states[0] == Boot()
    && forall i :: 0 <= i < |events| ==> Took(states, events, config, i)
  }

  lemma {:induction false} AlwaysInv(states: seq<System>, events: seq<Event>, config: Config, n: nat)
    requires Behaviour(states, events, config) && n <= |events|
    ensures Inv(states[n])
  {
    if n > 0 {
      AlwaysInv(states, events, config, n - 1);
      assert Took(states, events, config, n - 1);
      StepKept(states[n - 1], config, events[n - 1]);
    }
  }

  /** The token a session has been given, if it has one and still needs it. */
  function TokenOf(p: Phase): Option<nat> {
    match p
    case Registering(t, _) => Some(t)
    case Serving(t) => Some(t)
    case Leaving(t) => Some(t)
    case _ => None
  }

  ghost predicate OnlyHolder(s: System, i: nat) {
    && Holding(s, i)
    && (forall j :: Holding(s, j) ==> j == i)
    && (forall m :: m in s.d.overrides ==> TokenOf(s.sessions[i].phase) == Some(s.d.overrides[m].token))
  }

  /** A free slot means no overrides at all, and no session holding it; a taken one has one holder,
      and every override bears that session's own token. */
  lemma OverridesAreTheHolders(states: seq<System>, events: seq<Event>, config: Config, n: nat)
    requires Behaviour(states, events, config) && n <= |events|
    ensures var s := states[n];
      && (!s.d.serveBusy ==> s.d.overrides == map[] && forall i :: !Holding(s, i))
      && (s.d.serveBusy ==> exists i :: OnlyHolder(s, i))
  {
    AlwaysInv(states, events, config, n);
    var s := states[n];
    if s.d.serveBusy {
      var i :| Holding(s, i);
      assert OwnOverrides(s.d, s.sessions[i]);
      forall m | m in s.d.overrides
        ensures TokenOf(s.sessions[i].phase) == Some(s.d.overrides[m].token)
      {
        HolderEntry(s.d, s.sessions[i], m);
      }
      assert OnlyHolder(s, i);
    }
  }

  lemma HolderEntry(d: Shared, ss: Session, m: Number)
    requires Holds(ss.phase) && OwnOverrides(d, ss) && m in d.overrides
    ensures TokenOf(ss.phase).Some? && d.overrides[m] == OverrideOf(ss.req, TokenOf(ss.phase).value)
    ensures m in ss.req.numbers
  {
    match ss.phase
    case Registering(t, k) => RegisteredEntries(map[], ss.req.numbers[..k], OverrideOf(ss.req, t), m);
    case Serving(t) => RegisteredEntries(map[], ss.req.numbers, OverrideOf(ss.req, t), m);
    case Leaving(t) => RegisteredEntries(map[], ss.req.numbers, OverrideOf(ss.req, t), m);
    case _ => assert false;
  }

  /** While a session streams, its numbers resolve to its job and every other number to what the
      layers below give. */
  lemma ServingResolves(states: seq<System>, events: seq<Event>, config: Config, n: nat, id: nat, number: Number)
    requires Behaviour(states, events, config) && n <= |events| && IsServing(states[n], id)
    ensures var s := states[n]; var req := s.sessions[id].req;
      Resolved(s.d, config, number) ==
      if number in req.numbers then Some(Job(req.path, req.device)) else LowerLayers(s.d.runtime, config, number)
  {
    AlwaysInv(states, events, config, n);
    var ss := states[n].sessions[id];
    assert Holding(states[n], id);
    RegisteredEntries(map[], ss.req.numbers, OverrideOf(ss.req, ss.phase.token), number);
  }

  /** From the moment a session has reverted, and until the next one registers a number, every number
      resolves as if no session had ever been. */
  lemma RevertedResolves(states: seq<System>, events: seq<Event>, config: Config, n: nat, number: Number)
    requires Behaviour(states, events, config) && n <= |events|
    requires !states[n].d.serveBusy || exists id :: At(states[n], id, Reverted) || At(states[n], id, Acquired)
    ensures Resolved(states[n].d, config, number) == LowerLayers(states[n].d.runtime, config, number)
  {
    AlwaysInv(states, events, config, n);
    if states[n].d.serveBusy {
      var id :| At(states[n], id, Reverted) || At(states[n], id, Acquired);
      assert Holding(states[n], id);
    }
  }

  /** A session that arrives while another one has the slot is refused, and changes nothing the other
      one or any lookup can see. */
  lemma SecondIsRefused(states: seq<System>, events: seq<Event>, config: Config, n: nat, id: nat, other: nat)
    requires Behaviour(states, events, config) && n < |events|
    requires events[n] == Acquire(id) && At(states[n], id, Arrived) && Holding(states[n], other)
    ensures At(states[n + 1], id, Refused) && states[n + 1].d == states[n].d
    ensures other in states[n + 1].sessions && states[n + 1].sessions[other] == states[n].sessions[other]
  {
    AlwaysInv(states, events, config, n);
    assert Took(states, events, config, n);
  }

  /** Past its first look a lookup waits for its second. */
  lemma {:induction false} LookWaits(states: seq<System>, events: seq<Event>, config: Config, i: nat, j: nat, t: nat,
                                     number: Number)
    requires Behaviour(states, events, config) && i <= j < |states|
    requires t in states[i].looking && states[i].looking[t] == number
    requires forall k :: i <= k < j ==> events[k] != LookBelow(t)
    ensures t in states[j].looking && states[j].looking[t] == number
  {
    if i < j {
      LookWaits(states, events, config, i, j - 1, t, number);
      assert Took(states, events, config, j - 1);
    }
  }

  /** A lookup reads the overrides first and the layers below later. One whose first look comes while the
      slot is free answers from the layers below, as they are at its second look, whatever sessions
      come and go in between. */
  lemma LookupPastSessions(states: seq<System>, events: seq<Event>, config: Config, i: nat, j: nat, t: nat,
                           number: Number)
    requires Behaviour(states, events, config) && i < j < |events|
    requires events[i] == LookOverride(t, number) && t !in states[i].looking && t !in states[i].answers
    requires !states[i].d.serveBusy
    requires events[j] == LookBelow(t) && forall k :: i < k < j ==> events[k] != LookBelow(t)
    ensures t in states[j + 1].answers
    ensures states[j + 1].answers[t] == LowerLayers(states[j].d.runtime, config, number)
  {
    AlwaysInv(states, events, config, i);
    assert Took(states, events, config, i);
    assert Took(states, events, config, j);
    LookWaits(states, events, config, i + 1, j, t, number);
  }

  /** Taking one session's entries out leaves no override of anybody. */
  lemma RevertEmptiesAll(states: seq<System>, events: seq<Event>, config: Config, n: nat, id: nat)
    requires Behaviour(states, events, config) && n < |events|
    requires events[n] == Clear(id) && IsLeaving(states[n], id)
    ensures states[n + 1].d.overrides == map[] && At(states[n + 1], id, Reverted)
  {
    AlwaysInv(states, events, config, n);
    assert Took(states, events, config, n);
    KeptByClear(states[n], config, id);
  }
}
