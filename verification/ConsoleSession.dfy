/** The console's session hook: refreshes race with pauses, client switches and late replies, and a
    version token decides which of them may still speak. Each await is one step. */
module ConsoleSession {
  import opened Options
  import Text

  type Omni = string
  /** The demo client, the hosted core client, and every other client. */
  datatype Backend = Demo | Core | Daemon

  datatype Key = DemoKey | SessionKey(generation: nat, omni: Omni)
  datatype Phase = Checking | Login | Ready | Error
  datatype Session = Session(phase: Phase, key: Option<Key>, omni: Option<Omni>, expired: bool)

  datatype SessionInfo = Active | Expired | NoSession
  datatype Onboarding =
    | OnboardingThrew
    | OnboardingFailed(unauthorized: bool)
    | Onboarded(verified: bool, info: SessionInfo, omni: Option<Omni>, registered: bool)
  datatype Registration =
    | RegistrationThrew
    | RegistrationFailed(unauthorized: bool)
    | Probed(onChain: bool, operatorOmni: Omni, bound: bool)

  /** Where one refresh waits: the stack lookup, the onboarding state, the on-chain binding. */
  datatype Pc = StackWait | OnboardingWait | RegisterWait(omni: Omni) | Done(result: bool)
  datatype Op = Op(version: nat, backend: Backend, pc: Pc)

  /** The hook's refs and its published session; `history` is everything it ever published. */
  datatype State = State(
    session: Session, version: nat, generation: nat,
    pending: Option<nat>, reauth: bool, ops: seq<Op>, history: seq<Session>)

  function Publish(s: State, x: Session): State { s.(session := x, history := s.history + [x]) }

  function LoggedOut(expired: bool): Session { Session(Login, None, None, expired) }
  const FAILED := Session(Error, None, None, false)
  const CHECKING := Session(Checking, None, None, false)

  function PauseStep(s: State, expired: bool): State {
    Publish(s.(reauth := true, version := s.version + 1, pending := None), LoggedOut(expired))
  }

  /** `client` is the one the caller's closure was built for, possibly an earlier one. */
  function RefreshStep(s: State, client: Backend, force: bool): State {
    if s.reauth && !force then s
    else if s.pending.Some? && !force then s
    else
      s.(reauth := false, version := s.version + 1, pending := Some(|s.ops|),
         ops := s.ops + [Op(s.version + 1, client, StackWait)])
  }

  /** The effect's cleanup. */
  function CleanupStep(s: State): State { s.(version := s.version + 1, pending := None) }

  /** The effect for a client: announce the check, then refresh. */
  function EffectStep(s: State, client: Backend): State {
    RefreshStep(Publish(s, CHECKING), client, false)
  }

  predicate Current(s: State, i: nat)
    requires i < |s.ops|
  {
    s.ops[i].version == s.version
  }

  /** A refresh returns; its `finally` clears `pending` only while it is the latest. */
  function Finish(s: State, i: nat, result: bool): State
    requires i < |s.ops|
  {
    s.(ops := s.ops[i := s.ops[i].(pc := Done(result))],
       pending := if Current(s, i) then None else s.pending)
  }

  /** The catch block. */
  function Throw(s: State, i: nat): State
    requires i < |s.ops|
  {
    Finish(if Current(s, i) then Publish(s, FAILED) else s, i, false)
  }

  function Conclude(s: State, i: nat, x: Session, result: bool): State
    requires i < |s.ops|
  {
    Finish(Publish(s, x), i, result)
  }

  /** The account is known and checked: go to login, or to a key that the same account keeps. */
  function Decide(s: State, i: nat, omni: Omni, registered: bool): State
    requires i < |s.ops|
  {
    if !registered then Conclude(s, i, LoggedOut(false), false)
    else if s.session.phase.Ready? && s.session.omni == Some(omni)
    then Conclude(s, i, Session(Ready, s.session.key, Some(omni), false), true)
    else Conclude(s.(generation := s.generation + 1), i,
                  Session(Ready, Some(SessionKey(s.generation + 1, omni)), Some(omni), false), true)
  }

  function StackStep(s: State, i: nat, threw: bool): State
    requires i < |s.ops|
  {
    if threw then Throw(s, i) else s.(ops := s.ops[i := s.ops[i].(pc := OnboardingWait)])
  }

  function OnboardingStep(s: State, i: nat, reply: Onboarding, flag: bool): State
    requires i < |s.ops|
  {
    if reply.OnboardingThrew? then Throw(s, i)
    else if !Current(s, i) then Finish(s, i, false)
    else if s.ops[i].backend.Demo? then
      Conclude(s, i, if flag then Session(Ready, Some(DemoKey), None, false) else LoggedOut(false), flag)
    else match reply
      case OnboardingFailed(unauthorized) =>
        Conclude(s, i, if unauthorized then LoggedOut(false) else FAILED, false)
      case Onboarded(verified, info, omni, registered) =>
        if !verified || !info.Active? then Conclude(s, i, LoggedOut(info.Expired?), false)
        else if omni.None? || omni.value == "" then Throw(s, i)
        else if s.ops[i].backend.Core? then Decide(s, i, omni.value, registered)
        else s.(ops := s.ops[i := s.ops[i].(pc := RegisterWait(omni.value))])
  }

  /** `normalizeOmni`: no `0x` prefix, lower case. */
  function Normalize(omni: Omni): Omni {
    Text.Lower(if |omni| >= 2 && omni[..2] == "0x" then omni[2..] else omni)
  }

  function RegisterStep(s: State, i: nat, reply: Registration): State
    requires i < |s.ops| && s.ops[i].pc.RegisterWait?
  {
    var omni := s.ops[i].pc.omni;
    if reply.RegistrationThrew? then Throw(s, i)
    else if !Current(s, i) then Finish(s, i, false)
    else match reply
      case RegistrationFailed(unauthorized) =>
        if unauthorized then Conclude(s.(reauth := true), i, LoggedOut(true), false) else Throw(s, i)
      case Probed(onChain, operatorOmni, bound) =>
        if !onChain || Normalize(operatorOmni) != Normalize(omni) then Throw(s, i)
        else Decide(s, i, omni, bound)
  }

  // ---------------------------------------------------------------- the refs, updated in place

  class Hook {
    var current: Session
    var requestVersion: nat
    var sessionGeneration: nat
    var pending: Option<nat>
    var requiresReauthentication: bool
    var ops: seq<Op>
    ghost var history: seq<Session>

    ghost function View(): State
      reads this
    {
      State(current, requestVersion, sessionGeneration, pending, requiresReauthentication, ops, history)
    }

    constructor (client: Backend)
      ensures View() == Fresh(client)
    {
      var first := if client.Demo? then LoggedOut(false) else CHECKING;
      current := first;
      requestVersion, sessionGeneration, pending, requiresReauthentication := 0, 0, None, false;
      ops := [];
      history := [first];
    }

    method PublishSession(next: Session)
      modifies this
      ensures View() == Publish(old(View()), next)
    {
      current := next;
      history := history + [next];
    }

    method Pause(expired: bool)
      modifies this
      ensures View() == PauseStep(old(View()), expired)
    {
      requiresReauthentication := true;
      requestVersion := requestVersion + 1;
      pending := None;
      PublishSession(Session(Login, None, None, expired));
    }

    method Refresh(client: Backend, force: bool)
      modifies this
      ensures View() == RefreshStep(old(View()), client, force)
    {
      if requiresReauthentication && !force {
        return;
      }
      if force {
        requiresReauthentication := false;
      }
      if pending.Some? && !force {
        return;
      }
      requestVersion := requestVersion + 1;
      var version := requestVersion;
      pending := Some(|ops|);
      ops := ops + [Op(version, client, StackWait)];
    }

    method Cleanup()
      modifies this
      ensures View() == CleanupStep(old(View()))
    {
      requestVersion := requestVersion + 1;
      pending := None;
    }

    method Effect(client: Backend)
      modifies this
      ensures View() == EffectStep(old(View()), client)
    {
      PublishSession(Session(Checking, None, None, false));
      Refresh(client, false);
    }

    method Return(i: nat, result: bool)
      requires i < |ops|
      modifies this
      ensures View() == Finish(old(View()), i, result)
    {
      if ops[i].version == requestVersion {
        pending := None;
      }
      ops := ops[i := ops[i].(pc := Done(result))];
    }

    method Catch(i: nat)
      requires i < |ops|
      modifies this
      ensures View() == Throw(old(View()), i)
    {
      if ops[i].version == requestVersion {
        PublishSession(Session(Error, None, None, false));
      }
      Return(i, false);
    }

    method Settle(i: nat, omni: Omni, registered: bool)
      requires i < |ops|
      modifies this
      ensures View() == Decide(old(View()), i, omni, registered)
    {
      if !registered {
        PublishSession(Session(Login, None, None, false));
        Return(i, false);
        return;
      }
      var previous := current;
      var key := previous.key;
      if !(previous.phase.Ready? && previous.omni == Some(omni)) {
        sessionGeneration := sessionGeneration + 1;
        key := Some(SessionKey(sessionGeneration, omni));
      }
      PublishSession(Session(Ready, key, Some(omni), false));
      Return(i, true);
    }

    method OnStack(i: nat, threw: bool)
      requires i < |ops|
      modifies this
      ensures View() == StackStep(old(View()), i, threw)
    {
      if threw {
        Catch(i);
      } else {
        ops := ops[i := ops[i].(pc := OnboardingWait)];
      }
    }

    method OnOnboarding(i: nat, reply: Onboarding, flag: bool)
      requires i < |ops|
      modifies this
      ensures View() == OnboardingStep(old(View()), i, reply, flag)
    {
      if reply.OnboardingThrew? {
        Catch(i);
        return;
      }
      if ops[i].version != requestVersion {
        Return(i, false);
        return;
      }
      if ops[i].backend.Demo? {
        if flag {
          PublishSession(Session(Ready, Some(DemoKey), None, false));
        } else {
          PublishSession(Session(Login, None, None, false));
        }
        Return(i, flag);
        return;
      }
      match reply
      case OnboardingFailed(unauthorized) =>
        PublishSession(Session(if unauthorized then Login else Error, None, None, false));
        Return(i, false);
      case Onboarded(verified, info, omni, registered) =>
        if !verified || !info.Active? {
          PublishSession(Session(Login, None, None, info.Expired?));
          Return(i, false);
        } else if omni.None? || omni.value == "" {
          Catch(i);
        } else if ops[i].backend.Core? {
          Settle(i, omni.value, registered);
        } else {
          ops := ops[i := ops[i].(pc := RegisterWait(omni.value))];
        }
    }

    method OnRegistration(i: nat, reply: Registration)
      requires i < |ops| && ops[i].pc.RegisterWait?
      modifies this
      ensures View() == RegisterStep(old(View()), i, reply)
    {
      var omni := ops[i].pc.omni;
      if reply.RegistrationThrew? {
        Catch(i);
        return;
      }
      if ops[i].version != requestVersion {
        Return(i, false);
        return;
      }
      match reply
      case RegistrationFailed(unauthorized) =>
        if unauthorized {
          requiresReauthentication := true;
          PublishSession(Session(Login, None, None, true));
          Return(i, false);
        } else {
          Catch(i);
        }
      case Probed(onChain, operatorOmni, bound) =>
        if !onChain || Normalize(operatorOmni) != Normalize(omni) {
          Catch(i);
        } else {
          Settle(i, omni, bound);
        }
    }
  }

  // ---------------------------------------------------------------- runs

  function Fresh(client: Backend): State {
    var first := if client.Demo? then LoggedOut(false) else CHECKING;
    State(first, 0, 0, None, false, [], [first])
  }

  datatype Event =
    | Pause(expired: bool)
    | Refresh(client: Backend, force: bool)
    | Mount(client: Backend)
    | Unmount
    | StackReply(i: nat, threw: bool)
    | OnboardingReply(i: nat, onboarding: Onboarding, flag: bool)
    | RegisterReply(i: nat, registration: Registration)

  /** A client switch is an unmount followed by a mount; replies reach only the await they belong to. */
  function Step(s: State, e: Event): State {
    match e
    case Pause(expired) => PauseStep(s, expired)
    case Refresh(client, force) => RefreshStep(s, client, force)
    case Mount(client) => EffectStep(s, client)
    case Unmount => CleanupStep(s)
    case StackReply(i, threw) =>
      if i < |s.ops| && s.ops[i].pc.StackWait? then StackStep(s, i, threw) else s
    case OnboardingReply(i, reply, flag) =>
      if i < |s.ops| && s.ops[i].pc.OnboardingWait? then OnboardingStep(s, i, reply, flag) else s
    case RegisterReply(i, reply) =>
      if i < |s.ops| && s.ops[i].pc.RegisterWait? then RegisterStep(s, i, reply) else s
  }

  function Run(s: State, events: seq<Event>): State
    decreases |events|
  {
    if events == [] then s else Run(Step(s, events[0]), events[1..])
  }

  predicate Waiting(op: Op) { !op.pc.Done? }

  predicate Outside(x: Session) { x.phase.Login? || x.phase.Checking? }

  /** `pending` is exactly the refresh with the latest version, while it runs. */
  ghost predicate PendingIsLatest(s: State) {
    && (forall i | 0 <= i < |s.ops| :: s.ops[i].version <= s.version)
    && (forall i | 0 <= i < |s.ops| :: (Waiting(s.ops[i]) && s.ops[i].version == s.version) <==> s.pending == Some(i))
    && (s.pending.Some? ==> s.pending.value < |s.ops|)
  }

  /** While reauthentication is required nothing current runs and the console is outside. */
  ghost predicate PausedStaysOut(s: State) { s.reauth ==> s.pending.None? && Outside(s.session) }

  ghost predicate Shaped(x: Session, generation: nat) {
    match x.key
    case None => !x.phase.Ready?
    case Some(DemoKey) => x.phase.Ready? && x.omni.None?
    case Some(SessionKey(g, omni)) => x.phase.Ready? && !x.expired && x.omni == Some(omni) && g <= generation
  }

  predicate HasSessionKey(x: Session) { x.key.Some? && x.key.value.SessionKey? }

  predicate SameAccount(x: Session, y: Session) {
    x.phase.Ready? && y.phase.Ready? && x.omni.Some? && x.omni == y.omni
  }

  /** A key seen at two moments was held, unchanged, at every moment between them. */
  ghost predicate NeverReused(history: seq<Session>) {
    forall i, j, k | 0 <= i <= j <= k < |history| && HasSessionKey(history[i]) && history[k].key == history[i].key ::
      history[j] == history[i]
  }

  /** Consecutive ready sessions of one account share their key. */
  ghost predicate StableKeys(history: seq<Session>) {
    forall i, j | 0 <= i < j == i + 1 < |history| && SameAccount(history[i], history[j]) ::
      history[i].key == history[j].key
  }

  ghost predicate KeysInv(s: State) {
    && s.history != [] && s.history[|s.history| - 1] == s.session
    && (forall i | 0 <= i < |s.history| :: Shaped(s.history[i], s.generation))
    && NeverReused(s.history)
    && StableKeys(s.history)
  }

  ghost predicate Inv(s: State) { PendingIsLatest(s) && PausedStaysOut(s) && KeysInv(s) }

  /** What a publication may bring: no key, the demo key, the key already held, or a key never held. */
  ghost predicate MayPublish(s: State, x: Session) {
    && Shaped(x, s.generation)
    && (HasSessionKey(x) ==> x == s.session || forall i | 0 <= i < |s.history| :: s.history[i].key != x.key)
    && (SameAccount(s.session, x) ==> x.key == s.session.key)
  }

  lemma PublishKeeps(s: State, x: Session)
    requires KeysInv(s) && MayPublish(s, x)
    ensures KeysInv(Publish(s, x))
  {
    var h, last := s.history, |s.history| - 1;
    var h' := h + [x];
    forall i, j, k | 0 <= i <= j <= k < |h'| && HasSessionKey(h'[i]) && h'[k].key == h'[i].key
      ensures h'[j] == h'[i]
    {
      if k == |h| && i < |h| {
        assert h[i].key == x.key && x == h[last];
        assert h[last] == h[i];
      }
    }
  }

  /** A refresh that may speak publishes and returns. */
  lemma ConcludeKeeps(s: State, i: nat, x: Session, result: bool)
    requires PendingIsLatest(s) && KeysInv(s) && i < |s.ops| && Waiting(s.ops[i]) && Current(s, i)
    requires MayPublish(s, x) && (s.reauth ==> Outside(x))
    ensures Inv(Conclude(s, i, x, result))
  {
    PublishKeeps(s, x);
  }

  lemma FinishKeeps(s: State, i: nat, result: bool)
    requires Inv(s) && i < |s.ops| && Waiting(s.ops[i])
    ensures Inv(Finish(s, i, result))
  {
  }

  lemma ThrowKeeps(s: State, i: nat)
    requires Inv(s) && i < |s.ops| && Waiting(s.ops[i])
    ensures Inv(Throw(s, i))
  {
    if Current(s, i) {
      ConcludeKeeps(s, i, FAILED, false);
    } else {
      FinishKeeps(s, i, false);
    }
  }

  lemma AdvanceKeeps(s: State, i: nat, pc: Pc)
    requires Inv(s) && i < |s.ops| && Waiting(s.ops[i]) && !pc.Done?
    ensures Inv(s.(ops := s.ops[i := s.ops[i].(pc := pc)]))
  {
  }

  lemma SameKeyKeeps(s: State, i: nat, omni: Omni)
    requires Inv(s) && i < |s.ops| && Waiting(s.ops[i]) && Current(s, i)
    requires s.session.phase.Ready? && s.session.omni == Some(omni)
    ensures Inv(Conclude(s, i, Session(Ready, s.session.key, Some(omni), false), true))
  {
    assert Shaped(s.session, s.generation);
    ConcludeKeeps(s, i, s.session, true);
  }

  lemma FreshKeyKeeps(s: State, i: nat, omni: Omni)
    requires Inv(s) && i < |s.ops| && Waiting(s.ops[i]) && Current(s, i)
    requires !(s.session.phase.Ready? && s.session.omni == Some(omni))
    ensures Inv(Conclude(s.(generation := s.generation + 1), i,
                         Session(Ready, Some(SessionKey(s.generation + 1, omni)), Some(omni), false), true))
  {
    var x := Session(Ready, Some(SessionKey(s.generation + 1, omni)), Some(omni), false);
    forall j | 0 <= j < |s.history|
      ensures Shaped(s.history[j], s.generation + 1) && s.history[j].key != x.key
    {
      assert Shaped(s.history[j], s.generation);
    }
    ConcludeKeeps(s.(generation := s.generation + 1), i, x, true);
  }

  lemma DecideKeeps(s: State, i: nat, omni: Omni, registered: bool, t: State)
    requires Inv(s) && i < |s.ops| && Waiting(s.ops[i]) && Current(s, i)
    requires t == Decide(s, i, omni, registered)
    ensures Inv(t)
  {
    if !registered {
      ConcludeKeeps(s, i, LoggedOut(false), false);
    } else if s.session.phase.Ready? && s.session.omni == Some(omni) {
      SameKeyKeeps(s, i, omni);
    } else {
      FreshKeyKeeps(s, i, omni);
    }
  }

  lemma OnboardingKeeps(s: State, i: nat, reply: Onboarding, flag: bool)
    requires Inv(s) && i < |s.ops| && Waiting(s.ops[i])
    ensures Inv(OnboardingStep(s, i, reply, flag))
  {
    if reply.OnboardingThrew? {
      ThrowKeeps(s, i);
    } else if !Current(s, i) {
      FinishKeeps(s, i, false);
    } else if s.ops[i].backend.Demo? {
      ConcludeKeeps(s, i, if flag then Session(Ready, Some(DemoKey), None, false) else LoggedOut(false), flag);
    } else {
      match reply
      case OnboardingFailed(unauthorized) =>
        ConcludeKeeps(s, i, if unauthorized then LoggedOut(false) else FAILED, false);
      case Onboarded(verified, info, omni, registered) =>
        if !verified || !info.Active? {
          ConcludeKeeps(s, i, LoggedOut(info.Expired?), false);
        } else if omni.None? || omni.value == "" {
          ThrowKeeps(s, i);
        } else if s.ops[i].backend.Core? {
          DecideKeeps(s, i, omni.value, registered, Decide(s, i, omni.value, registered));
        } else {
          AdvanceKeeps(s, i, RegisterWait(omni.value));
        }
    }
  }

  lemma RegisterKeeps(s: State, i: nat, reply: Registration)
    requires Inv(s) && i < |s.ops| && s.ops[i].pc.RegisterWait?
    ensures Inv(RegisterStep(s, i, reply))
  {
    if reply.RegistrationThrew? {
      ThrowKeeps(s, i);
    } else if !Current(s, i) {
      FinishKeeps(s, i, false);
    } else {
      match reply
      case RegistrationFailed(unauthorized) =>
        if unauthorized {
          ConcludeKeeps(s.(reauth := true), i, LoggedOut(true), false);
        } else {
          ThrowKeeps(s, i);
        }
      case Probed(onChain, operatorOmni, bound) =>
        var omni := s.ops[i].pc.omni;
        if !onChain || Normalize(operatorOmni) != Normalize(omni) {
          ThrowKeeps(s, i);
        } else {
          DecideKeeps(s, i, omni, bound, Decide(s, i, omni, bound));
        }
    }
  }

  lemma RefreshKeeps(s: State, client: Backend, force: bool)
    requires Inv(s)
    ensures Inv(RefreshStep(s, client, force))
  {
  }

  lemma StepKeeps(s: State, e: Event)
    requires Inv(s)
    ensures Inv(Step(s, e))
  {
    match e
    case Pause(expired) => PublishKeeps(s, LoggedOut(expired));
    case Refresh(client, force) => RefreshKeeps(s, client, force);
    case Mount(client) =>
      PublishKeeps(s, CHECKING);
      RefreshKeeps(Publish(s, CHECKING), client, false);
    case Unmount =>
    case StackReply(i, threw) =>
      if i < |s.ops| && s.ops[i].pc.StackWait? {
        if threw { ThrowKeeps(s, i); } else { AdvanceKeeps(s, i, OnboardingWait); }
      }
    case OnboardingReply(i, reply, flag) =>
      if i < |s.ops| && s.ops[i].pc.OnboardingWait? { OnboardingKeeps(s, i, reply, flag); }
    case RegisterReply(i, reply) =>
      if i < |s.ops| && s.ops[i].pc.RegisterWait? { RegisterKeeps(s, i, reply); }
  }

  lemma {:induction false} RunKeeps(s: State, events: seq<Event>)
    requires Inv(s)
    ensures Inv(Run(s, events))
    decreases |events|
  {
    if events != [] {
      StepKeeps(s, events[0]);
      RunKeeps(Step(s, events[0]), events[1..]);
    }
  }

  // ---------------------------------------------------------------- the promises

  /** From the first render on, in every interleaving of pauses, refreshes, client switches and late replies:
      `pending` is the running refresh of the latest version and no other; one account keeps its key while it
      stays ready; and a key, once dropped, never comes back. */
  lemma KeysAreStableAndNeverReused(client: Backend, events: seq<Event>)
    ensures var s := Run(Fresh(client), events);
      && PendingIsLatest(s)
      && NeverReused(s.history)
      && StableKeys(s.history)
      && (s.session.phase.Ready? <==> s.session.key.Some?)
  {
    RunKeeps(Fresh(client), events);
    var s := Run(Fresh(client), events);
    assert Shaped(s.history[|s.history| - 1], s.generation);
  }

  /** The refresh a reply is addressed to. */
  function Addressee(e: Event): Option<nat> {
    match e
    case StackReply(i, _) => Some(i)
    case OnboardingReply(i, _, _) => Some(i)
    case RegisterReply(i, _) => Some(i)
    case _ => None
  }

  /** Only the refresh with the latest version publishes, bumps the generation, asks for reauthentication or
      clears `pending`: a reply to any other moves that refresh on and touches nothing else. */
  lemma StaleRepliesAreSilent(s: State, e: Event)
    requires Addressee(e).Some? && Addressee(e).value < |s.ops| && !Current(s, Addressee(e).value)
    ensures var i, t := Addressee(e).value, Step(s, e);
      && t == s.(ops := t.ops)
      && |t.ops| == |s.ops|
      && t.ops[i].version == s.ops[i].version
      && (t.ops[i].pc.Done? && !s.ops[i].pc.Done? ==> !t.ops[i].pc.result)
      && forall k | 0 <= k < |s.ops| && k != i :: t.ops[k] == s.ops[k]
  {
  }

  predicate Forces(e: Event) { e.Refresh? && e.force }

  lemma QuietStepStaysOut(s: State, e: Event)
    requires Inv(s) && s.reauth && !Forces(e)
    ensures var t := Step(s, e); t.reauth && Outside(t.session) && t.generation == s.generation
  {
    if Addressee(e).Some? && Addressee(e).value < |s.ops| {
      var i := Addressee(e).value;
      if Waiting(s.ops[i]) {
        assert !Current(s, i);
        StaleRepliesAreSilent(s, e);
      }
    }
  }

  lemma {:induction false} QuietRunStaysOut(s: State, events: seq<Event>)
    requires Inv(s) && s.reauth
    requires forall e | e in events :: !Forces(e)
    ensures var t := Run(s, events); t.reauth && Outside(t.session)
    decreases |events|
  {
    if events != [] {
      assert events[0] in events;
      StepKeeps(s, events[0]);
      QuietStepStaysOut(s, events[0]);
      QuietRunStaysOut(Step(s, events[0]), events[1..]);
    }
  }

  /** After a pause, whatever was in flight and whatever follows, the console shows login or checking, and never
      a key, until somebody forces a refresh. */
  lemma PauseHoldsUntilForced(client: Backend, before: seq<Event>, expired: bool, after: seq<Event>)
    requires forall e | e in after :: !Forces(e)
    ensures var t := Run(PauseStep(Run(Fresh(client), before), expired), after);
      Outside(t.session) && t.session.key.None?
  {
    RunKeeps(Fresh(client), before);
    var s := Run(Fresh(client), before);
    StepKeeps(s, Pause(expired));
    var p := PauseStep(s, expired);
    QuietRunStaysOut(p, after);
    RunKeeps(p, after);
    var t := Run(p, after);
    assert Shaped(t.history[|t.history| - 1], t.generation);
  }

  /** What lets the latest refresh turn the console ready: the demo flag; a verified, active, registered account of
      the hosted client; or an on-chain binding of the very account the onboarding state named. */
  predicate OnboardingEvidence(s: State, i: nat, reply: Onboarding, flag: bool)
    requires i < |s.ops|
  {
    && Current(s, i) && !reply.OnboardingThrew?
    && if s.ops[i].backend.Demo? then flag
       else s.ops[i].backend.Core? && reply.Onboarded? && reply.verified && reply.info.Active?
            && reply.omni.Some? && reply.omni.value != "" && reply.registered
  }

  predicate RegisterEvidence(s: State, i: nat, reply: Registration)
    requires i < |s.ops| && s.ops[i].pc.RegisterWait?
  {
    && Current(s, i) && reply.Probed? && reply.onChain && reply.bound
    && Normalize(reply.operatorOmni) == Normalize(s.ops[i].pc.omni)
  }

  ghost predicate PublishesReady(s: State, t: State) { |t.history| > |s.history| && t.session.phase.Ready? }

  ghost predicate TurnsReady(s: State, t: State, i: nat, account: Option<Omni>) {
    PublishesReady(s, t) && t.session.omni == account && i < |t.ops| && t.ops[i].pc == Done(true)
  }

  ghost predicate StaysUnready(s: State, t: State, i: nat) {
    !PublishesReady(s, t) && i < |t.ops| && t.ops[i].pc != Done(true)
  }

  lemma DecideReady(s: State, i: nat, omni: Omni, registered: bool, t: State)
    requires i < |s.ops| && t == Decide(s, i, omni, registered)
    ensures if registered then TurnsReady(s, t, i, Some(omni)) else StaysUnready(s, t, i)
  {
  }

  lemma ThrowUnready(s: State, i: nat, t: State)
    requires i < |s.ops| && t == Throw(s, i)
    ensures StaysUnready(s, t, i)
  {
  }

  lemma OnboardingReady(s: State, i: nat, reply: Onboarding, flag: bool, t: State)
    requires i < |s.ops| && t == OnboardingStep(s, i, reply, flag)
    ensures if OnboardingEvidence(s, i, reply, flag)
            then TurnsReady(s, t, i, if s.ops[i].backend.Demo? then None else reply.omni) else StaysUnready(s, t, i)
  {
    ThrowUnready(s, i, Throw(s, i));
    if reply.Onboarded? && reply.omni.Some? {
      DecideReady(s, i, reply.omni.value, reply.registered, Decide(s, i, reply.omni.value, reply.registered));
    }
  }

  lemma RegisterReady(s: State, i: nat, reply: Registration, t: State)
    requires i < |s.ops| && s.ops[i].pc.RegisterWait? && t == RegisterStep(s, i, reply)
    ensures if RegisterEvidence(s, i, reply) then TurnsReady(s, t, i, Some(s.ops[i].pc.omni)) else StaysUnready(s, t, i)
  {
    ThrowUnready(s, i, Throw(s, i));
    if reply.Probed? {
      DecideReady(s, i, s.ops[i].pc.omni, reply.bound, Decide(s, i, s.ops[i].pc.omni, reply.bound));
    }
  }

  /** A step publishes a ready session exactly on such evidence, for exactly that account, and then that refresh
      answers true; on any other reply it does not. */
  lemma ReadyExactly(s: State, e: Event)
    ensures var t := Step(s, e);
      match e
      case OnboardingReply(i, reply, flag) =>
        if i >= |s.ops| || !s.ops[i].pc.OnboardingWait? then t == s
        else if OnboardingEvidence(s, i, reply, flag)
        then TurnsReady(s, t, i, if s.ops[i].backend.Demo? then None else reply.omni)
        else StaysUnready(s, t, i)
      case RegisterReply(i, reply) =>
        if i >= |s.ops| || !s.ops[i].pc.RegisterWait? then t == s
        else if RegisterEvidence(s, i, reply) then TurnsReady(s, t, i, Some(s.ops[i].pc.omni))
        else StaysUnready(s, t, i)
      case _ => !PublishesReady(s, t)
  {
    var t := Step(s, e);
    match e
    case OnboardingReply(i, reply, flag) =>
      if i < |s.ops| && s.ops[i].pc.OnboardingWait? { OnboardingReady(s, i, reply, flag, t); }
    case RegisterReply(i, reply) =>
      if i < |s.ops| && s.ops[i].pc.RegisterWait? { RegisterReady(s, i, reply, t); }
    case StackReply(i, threw) =>
      if i < |s.ops| && s.ops[i].pc.StackWait? { ThrowUnready(s, i, Throw(s, i)); }
    case _ =>
  }

  /** The reply turns the console ready for the account. */
  predicate Earns(s: State, e: Event, account: Option<Omni>) {
    match e
    case OnboardingReply(i, reply, flag) =>
      && i < |s.ops| && s.ops[i].pc.OnboardingWait? && OnboardingEvidence(s, i, reply, flag)
      && account == if s.ops[i].backend.Demo? then None else reply.omni
    case RegisterReply(i, reply) =>
      && i < |s.ops| && s.ops[i].pc.RegisterWait? && RegisterEvidence(s, i, reply)
      && account == Some(s.ops[i].pc.omni)
    case _ => false
  }

  lemma ReadyStep(s: State, e: Event)
    ensures var t := Step(s, e);
            t.session.phase.Ready? ==> Earns(s, e, t.session.omni) || t.session == s.session
  {
    ReadyExactly(s, e);
  }

  /** The onboarding state, verified and active, named the account to refresh `i`. */
  predicate Names(e: Event, i: nat, omni: Omni) {
    match e
    case OnboardingReply(j, Onboarded(verified, info, named, _), _) =>
      j == i && verified && info.Active? && named == Some(omni)
    case _ => false
  }

  ghost predicate Named(events: seq<Event>, i: nat, omni: Omni) {
    exists j | 0 <= j < |events| :: Names(events[j], i, omni)
  }

  lemma {:induction false} RunThen(s: State, events: seq<Event>, e: Event)
    ensures Run(s, events + [e]) == Step(Run(s, events), e)
    decreases |events|
  {
    if events == [] {
      assert [e][1..] == [] && [] + [e] == [e];
      assert Run(Step(s, e), []) == Step(s, e);
    } else {
      assert (events + [e])[0] == events[0] && (events + [e])[1..] == events[1..] + [e];
      RunThen(Step(s, events[0]), events[1..], e);
    }
  }

  lemma OnboardingNames(s: State, i: nat, reply: Onboarding, flag: bool, t: State)
    requires i < |s.ops| && s.ops[i].pc.OnboardingWait? && t == OnboardingStep(s, i, reply, flag)
    ensures |t.ops| == |s.ops| && forall k | 0 <= k < |s.ops| && k != i :: t.ops[k] == s.ops[k]
    ensures t.ops[i].pc.RegisterWait? ==> Names(OnboardingReply(i, reply, flag), i, t.ops[i].pc.omni)
  {
  }

  lemma RegisterEnds(s: State, i: nat, reply: Registration, t: State)
    requires i < |s.ops| && s.ops[i].pc.RegisterWait? && t == RegisterStep(s, i, reply)
    ensures |t.ops| == |s.ops| && t.ops[i].pc.Done? && forall k | 0 <= k < |s.ops| && k != i :: t.ops[k] == s.ops[k]
  {
  }

  lemma NamedStep(s: State, e: Event, i: nat, t: State)
    requires t == Step(s, e) && i < |t.ops| && t.ops[i].pc.RegisterWait?
    ensures (i < |s.ops| && s.ops[i].pc == t.ops[i].pc) || Names(e, i, t.ops[i].pc.omni)
  {
    match e
    case OnboardingReply(k, reply, flag) =>
      if k < |s.ops| && s.ops[k].pc.OnboardingWait? { OnboardingNames(s, k, reply, flag, t); }
    case RegisterReply(k, reply) =>
      if k < |s.ops| && s.ops[k].pc.RegisterWait? { RegisterEnds(s, k, reply, t); }
    case _ =>
  }

  /** Whoever waits for a binding waits for an account the onboarding state named. */
  lemma {:induction false} WaitingIsNamed(client: Backend, events: seq<Event>, i: nat)
    requires var s := Run(Fresh(client), events); i < |s.ops| && s.ops[i].pc.RegisterWait?
    ensures Named(events, i, Run(Fresh(client), events).ops[i].pc.omni)
    decreases |events|
  {
    if events != [] {
      var front, last := events[..|events| - 1], events[|events| - 1];
      var s, omni := Run(Fresh(client), front), Run(Fresh(client), events).ops[i].pc.omni;
      assert events == front + [last];
      RunThen(Fresh(client), front, last);
      NamedStep(s, last, i, Run(Fresh(client), events));
      if Names(last, i, omni) {
        assert Names(events[|front|], i, omni);
      } else {
        WaitingIsNamed(client, front, i);
        var j :| 0 <= j < |front| && Names(front[j], i, omni);
        assert Names(events[j], i, omni);
      }
    }
  }

  /** The event, after `before`, is the evidence for the session. */
  ghost predicate EarnedBy(client: Backend, before: seq<Event>, e: Event, x: Session) {
    && Earns(Run(Fresh(client), before), e, x.omni)
    && (e.RegisterReply? ==> x.omni.Some? && Named(before, e.i, x.omni.value))
  }

  /** Event `k` earned the session, and it has been shown ever since. */
  ghost predicate EarnedAt(client: Backend, events: seq<Event>, x: Session, k: nat) {
    && k < |events| && EarnedBy(client, events[..k], events[k], x)
    && forall l | k < l <= |events| :: Run(Fresh(client), events[..l]).session == x
  }

  lemma BindingEarns(s: State, e: Event, account: Option<Omni>)
    requires Earns(s, e, account) && e.RegisterReply?
    ensures e.i < |s.ops| && s.ops[e.i].pc.RegisterWait? && account == Some(s.ops[e.i].pc.omni)
  {
  }

  lemma EvidenceIsNamed(client: Backend, before: seq<Event>, e: Event, x: Session)
    requires Earns(Run(Fresh(client), before), e, x.omni)
    ensures EarnedBy(client, before, e, x)
  {
    if e.RegisterReply? {
      BindingEarns(Run(Fresh(client), before), e, x.omni);
      WaitingIsNamed(client, before, e.i);
    }
  }

  lemma EarnedNow(client: Backend, events: seq<Event>, x: Session, k: nat)
    requires |events| == k + 1 && EarnedBy(client, events[..k], events[k], x)
    requires x == Run(Fresh(client), events).session
    ensures EarnedAt(client, events, x, k)
  {
    assert events[..|events|] == events;
  }

  lemma EarnedStill(client: Backend, front: seq<Event>, events: seq<Event>, x: Session, k: nat)
    requires EarnedAt(client, front, x, k) && |events| == |front| + 1 && events[..|front|] == front
    requires x == Run(Fresh(client), events).session
    ensures EarnedAt(client, events, x, k)
  {
    assert events[..|events|] == events && events[k] == front[k];
    assert forall l | 0 <= l <= |front| :: events[..l] == front[..l];
  }

  /** A console that shows a ready session has earned it. In every run, some reply to the then latest refresh was
      the evidence for exactly that account, and from then on that very session has been shown; where the evidence
      is an on-chain binding, the onboarding state had named the account to the same refresh before, verified and
      active. */
  lemma {:induction false} ReadyIsEarned(client: Backend, events: seq<Event>)
    ensures var x := Run(Fresh(client), events).session;
            x.phase.Ready? ==> exists k: nat :: EarnedAt(client, events, x, k)
    decreases |events|
  {
    var x := Run(Fresh(client), events).session;
    if x.phase.Ready? && events != [] {
      var front, last := events[..|events| - 1], events[|events| - 1];
      assert events == front + [last];
      RunThen(Fresh(client), front, last);
      ReadyStep(Run(Fresh(client), front), last);
      if Earns(Run(Fresh(client), front), last, x.omni) {
        EvidenceIsNamed(client, front, last, x);
        EarnedNow(client, events, x, |front|);
      } else {
        ReadyIsEarned(client, front);
        var k: nat :| EarnedAt(client, front, x, k);
        EarnedStill(client, front, events, x, k);
      }
    }
  }
}
