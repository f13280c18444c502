/** The console's read hook: a load belongs to one activation of its scope, and a late reply of an earlier
    activation is dropped. A render and the run of its effects are separate steps, as are replies. */
module ConsoleRead {
  import opened Options
  import Decimals

  type Scope = string

  /** The session key and the revision, joined by a colon. */
  function ScopeOf(sessionKey: string, revision: nat): Scope { sessionKey + ":" + Decimals.Render(revision) }

  /** The last colon of a scope stands before the revision. */
  ghost predicate LastColonAt(s: string, at: nat) {
    at < |s| && s[at] == ':' && forall j | at < j < |s| :: s[j] != ':'
  }

  lemma RevisionHasNoColon(k: string, d: string, s: string)
    requires Decimals.AllDigits(d) && s == k + ":" + d
    ensures LastColonAt(s, |k|) && k == s[..|k|] && d == s[|k| + 1..]
  {
    assert forall j | |k| < j < |s| :: s[j] == d[j - |k| - 1];
  }

  /** Different sessions or revisions never share a scope, although session keys contain colons themselves. */
  lemma ScopesAreDistinct(k1: string, r1: nat, k2: string, r2: nat)
    requires ScopeOf(k1, r1) == ScopeOf(k2, r2)
    ensures k1 == k2 && r1 == r2
  {
    var d1, d2, s := Decimals.Render(r1), Decimals.Render(r2), ScopeOf(k1, r1);
    RevisionHasNoColon(k1, d1, s);
    RevisionHasNoColon(k2, d2, s);
  }

  datatype Kind = Idle | Loading | Loaded | Failed
  datatype ReadState = ReadState(scope: Option<Scope>, kind: Kind)
  /** What one render passes in; `loader` is the identity of the `load` function. */
  datatype Props = Props(scope: Option<Scope>, enabled: bool, loader: nat)
  datatype Reply = Data(acceptThrows: bool) | Refused(expired: bool) | Threw

  datatype Load = Load(scope: Scope, generation: nat, outcome: Option<Kind>)
  datatype Callback = Accept | OnExpired
  /** One callback: for which load, the scope whose effects last ran, the scope whose callback was called. */
  datatype Delivery = Delivery(what: Callback, load: nat, committed: Option<Scope>, callback: Option<Scope>)

  datatype State = State(
    rendered: Props, committed: Option<Props>, shown: ReadState, generation: nat, started: Option<Scope>,
    loads: seq<Load>, deliveries: seq<Delivery>)

  function RenderStep(s: State, props: Props): State { s.(rendered := props) }

  /** The scope effect's cleanup and body, when its dependency changed. */
  function ScopeEffect(s: State): State {
    if s.committed.None? then s.(generation := s.generation + 1, started := None)
    else if s.committed.value.scope != s.rendered.scope then s.(generation := s.generation + 2, started := None)
    else s
  }

  /** The load effect, when one of its dependencies changed. */
  function LoadEffect(s: State): State {
    var p := s.rendered;
    if s.committed == Some(p) || p.scope.None? || !p.enabled || s.started == p.scope then s
    else s.(started := p.scope, shown := ReadState(p.scope, Loading),
            loads := s.loads + [Load(p.scope.value, s.generation, None)])
  }

  function CommitStep(s: State): State { LoadEffect(ScopeEffect(s)).(committed := Some(s.rendered)) }

  function UnmountStep(s: State): State {
    if s.committed.None? then s else s.(generation := s.generation + 1, started := None, committed := None)
  }

  function Outcome(reply: Reply): Kind {
    if reply.Data? && !reply.acceptThrows then Loaded else Failed
  }

  /** Which callback a reply calls, if any. */
  function Calls(reply: Reply): Option<Callback> {
    if reply.Data? then Some(Accept) else if reply.Refused? && reply.expired then Some(OnExpired) else None
  }

  function CommittedScope(s: State): Option<Scope> {
    if s.committed.None? then None else s.committed.value.scope
  }

  function ReplyStep(s: State, i: nat, reply: Reply): State
    requires i < |s.loads|
  {
    var t := s.(loads := s.loads[i := s.loads[i].(outcome := Some(Outcome(reply)))]);
    if s.loads[i].generation != s.generation then t
    else t.(shown := ReadState(Some(s.loads[i].scope), Outcome(reply)),
            deliveries := if Calls(reply).None? then s.deliveries
                          else s.deliveries + [Delivery(Calls(reply).value, i, CommittedScope(s), s.rendered.scope)])
  }

  /** What the hook hands back to the component. */
  function Returned(s: State): ReadState {
    if s.shown.scope == s.rendered.scope then s.shown
    else ReadState(s.rendered.scope, if s.rendered.enabled then Loading else Idle)
  }

  // ---------------------------------------------------------------- the refs, updated in place

  class Reader {
    var rendered: Props
    var committed: Option<Props>
    var shown: ReadState
    var generation: nat
    var started: Option<Scope>
    var loads: seq<Load>
    ghost var deliveries: seq<Delivery>

    ghost function View(): State
      reads this
    {
      State(rendered, committed, shown, generation, started, loads, deliveries)
    }

    constructor (props: Props)
      ensures View() == Initial(props)
    {
      rendered, committed, shown := props, None, ReadState(None, Idle);
      generation, started, loads, deliveries := 0, None, [], [];
    }

    method Render(props: Props) returns (result: ReadState)
      modifies this
      ensures View() == RenderStep(old(View()), props) && result == Returned(View())
    {
      rendered := props;
      if shown.scope == props.scope {
        result := shown;
      } else {
        result := ReadState(props.scope, if props.enabled then Loading else Idle);
      }
    }

    method Commit()
      modifies this
      ensures View() == CommitStep(old(View()))
    {
      if committed.Some? && committed.value.scope != rendered.scope {
        generation := generation + 1;
        started := None;
      }
      if committed.None? || committed.value.scope != rendered.scope {
        generation := generation + 1;
        started := None;
      }
      if committed != Some(rendered) && rendered.scope.Some? && rendered.enabled && started != rendered.scope {
        started := rendered.scope;
        var requestGeneration := generation;
        shown := ReadState(rendered.scope, Loading);
        loads := loads + [Load(rendered.scope.value, requestGeneration, None)];
      }
      committed := Some(rendered);
    }

    method Unmount()
      modifies this
      ensures View() == UnmountStep(old(View()))
    {
      if committed.Some? {
        generation := generation + 1;
        started := None;
        committed := None;
      }
    }

    method OnReply(i: nat, reply: Reply)
      requires i < |loads|
      modifies this
      ensures View() == ReplyStep(old(View()), i, reply)
    {
      var answered := loads[i];
      loads := loads[i := answered.(outcome := Some(Outcome(reply)))];
      if answered.generation != generation {
        return;
      }
      match reply
      case Data(acceptThrows) =>
        deliveries := deliveries + [Delivery(Accept, i, CommittedScope(View()), rendered.scope)];
        shown := ReadState(Some(answered.scope), if acceptThrows then Failed else Loaded);
      case Refused(expired) =>
        shown := ReadState(Some(answered.scope), Failed);
        if expired {
          deliveries := deliveries + [Delivery(OnExpired, i, CommittedScope(View()), rendered.scope)];
        }
      case Threw =>
        shown := ReadState(Some(answered.scope), Failed);
    }
  }

  // ---------------------------------------------------------------- runs

  function Initial(props: Props): State { State(props, None, ReadState(None, Idle), 0, None, [], []) }

  datatype Event = Render(props: Props) | Commit | Unmount | Answer(load: nat, reply: Reply)

  function Step(s: State, e: Event): State {
    match e
    case Render(props) => RenderStep(s, props)
    case Commit => CommitStep(s)
    case Unmount => UnmountStep(s)
    case Answer(i, reply) => if i < |s.loads| && s.loads[i].outcome.None? then ReplyStep(s, i, reply) else s
  }

  function Run(s: State, events: seq<Event>): State
    decreases |events|
  {
    if events == [] then s else Run(Step(s, events[0]), events[1..])
  }

  /** The load of the activation whose effects ran last, if it has one, is the last load of all. */
  ghost predicate LastIsCurrent(s: State) {
    && (s.started.Some? ==>
          s.committed.Some? && s.started == s.committed.value.scope && s.loads != []
          && s.loads[|s.loads| - 1].generation == s.generation)
    && (s.loads != [] && s.loads[|s.loads| - 1].generation == s.generation ==>
          var last := s.loads[|s.loads| - 1];
          s.started == Some(last.scope)
          && s.shown == ReadState(Some(last.scope), if last.outcome.None? then Loading else last.outcome.value))
  }

  /** Generations strictly increase from load to load. */
  ghost predicate Ordered(loads: seq<Load>, generation: nat) {
    && (forall i | 0 <= i < |loads| :: loads[i].generation <= generation)
    && (forall i, j | 0 <= i < j < |loads| :: loads[i].generation < loads[j].generation)
  }

  ghost predicate Fit(deliveries: seq<Delivery>, loads: seq<Load>) {
    forall k | 0 <= k < |deliveries| ::
      deliveries[k].load < |loads| && deliveries[k].committed == Some(loads[deliveries[k].load].scope)
  }

  ghost predicate Inv(s: State) { Ordered(s.loads, s.generation) && LastIsCurrent(s) && Fit(s.deliveries, s.loads) }

  lemma ScopeEffectKeeps(s: State, t: State)
    requires Inv(s) && t == ScopeEffect(s).(committed := Some(s.rendered))
    ensures Inv(t) && t.generation >= s.generation
    ensures t.started.Some? ==> t.started == s.rendered.scope
    ensures t.started.None? ==> forall i | 0 <= i < |t.loads| :: t.loads[i].generation < t.generation
  {
  }

  lemma CommitKeeps(s: State)
    requires Inv(s)
    ensures Inv(CommitStep(s))
  {
    ScopeEffectKeeps(s, ScopeEffect(s).(committed := Some(s.rendered)));
  }

  lemma AnsweredKeeps(s: State, i: nat, outcome: Option<Kind>)
    requires Inv(s) && i < |s.loads|
    ensures var loads := s.loads[i := s.loads[i].(outcome := outcome)];
      Ordered(loads, s.generation) && Fit(s.deliveries, loads)
  {
  }

  lemma ReplyKeeps(s: State, i: nat, reply: Reply)
    requires Inv(s) && i < |s.loads|
    ensures Inv(ReplyStep(s, i, reply))
  {
    var t := ReplyStep(s, i, reply);
    AnsweredKeeps(s, i, Some(Outcome(reply)));
    if s.loads[i].generation == s.generation {
      assert i == |s.loads| - 1;
      assert CommittedScope(s) == Some(t.loads[i].scope);
    } else {
      assert s.loads != [] && (i == |s.loads| - 1 || t.loads[|s.loads| - 1] == s.loads[|s.loads| - 1]);
    }
  }

  lemma StepKeeps(s: State, e: Event)
    requires Inv(s)
    ensures Inv(Step(s, e))
  {
    match e
    case Render(_) =>
    case Commit => CommitKeeps(s);
    case Unmount =>
    case Answer(i, reply) => if i < |s.loads| { ReplyKeeps(s, i, reply); }
  }

  lemma {:induction false} RunKeeps(s: State, events: seq<Event>)
    requires Inv(s)
    ensures Inv(Run(s, events))
    decreases |events|
  {
    if events != [] {
      StepKeeps(s, events[0]);
      RunKeeps(Step(s, events[0]), events[1..]);
    }
  }

  /** A load is dead once its generation has passed. */
  predicate Dead(s: State, i: nat) { i < |s.loads| && s.loads[i].generation < s.generation }

  lemma DeadStep(s: State, e: Event, n: nat)
    requires n <= |s.loads| && forall i: nat | i < n :: Dead(s, i)
    ensures var t := Step(s, e);
      && n <= |t.loads| && (forall i: nat | i < n :: Dead(t, i))
      && s.deliveries <= t.deliveries
      && forall k | |s.deliveries| <= k < |t.deliveries| :: t.deliveries[k].load >= n
  {
    assert forall i: nat | i < n :: Dead(s, i) && s.loads[i].generation < s.generation;
  }

  lemma {:induction false} DeadLoadsNeverDeliver(s: State, events: seq<Event>, n: nat)
    requires n <= |s.loads|
    requires forall i: nat | i < n :: Dead(s, i)
    ensures var t := Run(s, events);
      && s.deliveries <= t.deliveries
      && forall k | |s.deliveries| <= k < |t.deliveries| :: t.deliveries[k].load >= n
    decreases |events|
  {
    if events != [] {
      DeadStep(s, events[0], n);
      DeadLoadsNeverDeliver(Step(s, events[0]), events[1..], n);
    }
  }

  // ---------------------------------------------------------------- the promises

  /** Running the effects after the scope has changed, also when it changes back later, buries every load
      started so far: whatever replies arrive afterwards, neither callback is ever called for them. */
  lemma EarlierActivationsNeverDeliver(first: Props, before: seq<Event>, after: seq<Event>)
    requires var s := Run(Initial(first), before);
      s.committed.None? || s.committed.value.scope != s.rendered.scope
    ensures
      var s := Run(Initial(first), before);
      var t := Run(CommitStep(s), after);
      && s.deliveries <= t.deliveries
      && forall k | |s.deliveries| <= k < |t.deliveries| :: t.deliveries[k].load >= |s.loads|
  {
    RunKeeps(Initial(first), before);
    var s := Run(Initial(first), before);
    StepKeeps(s, Commit);
    DeadLoadsNeverDeliver(CommitStep(s), after, |s.loads|);
  }

  /** In every run: each load a callback was called for was for the scope whose effects ran last, and each activation
      (each value of the generation) starts at most one load. */
  lemma DeliveriesMatchTheActivation(first: Props, events: seq<Event>)
    ensures var s := Run(Initial(first), events);
      && (forall k | 0 <= k < |s.deliveries| :: s.deliveries[k].load < |s.loads|
            && s.deliveries[k].committed == Some(s.loads[s.deliveries[k].load].scope))
      && (forall i, j | 0 <= i < |s.loads| && 0 <= j < |s.loads| && s.loads[i].generation == s.loads[j].generation ::
            i == j)
  {
    RunKeeps(Initial(first), events);
  }

  /** A reply reaches its callback exactly when its load belongs to the activation whose effects ran last; the
      callback that gets it is that scope's own exactly when no newer scope has been rendered meanwhile. */
  lemma DeliveryExactly(first: Props, events: seq<Event>, i: nat, reply: Reply)
    requires var s := Run(Initial(first), events);
      i < |s.loads| && s.loads[i].outcome.None? && Calls(reply).Some?
    ensures
      var s := Run(Initial(first), events);
      var t := Step(s, Answer(i, reply));
      && (|t.deliveries| > |s.deliveries| <==> s.started.Some? && i == |s.loads| - 1)
      && (|t.deliveries| > |s.deliveries| ==>
            var d := t.deliveries[|s.deliveries|];
            d.load == i && d.what == Calls(reply).value
            && (d.callback == Some(s.loads[i].scope) <==> s.rendered.scope == CommittedScope(s)))
  {
    RunKeeps(Initial(first), events);
  }

  /** Between a render for a new scope and its effects, a late reply of the old scope does reach the new
      scope's callback. */
  lemma RenderedButNotCommitted(a: Scope, b: Scope, loader: nat)
    requires a != b
    ensures var s := Run(Initial(Props(Some(a), true, loader)),
                         [Commit, Render(Props(Some(b), true, loader)), Answer(0, Data(false))]);
      s.deliveries == [Delivery(Accept, 0, Some(a), Some(b))] && |s.loads| == 1 && s.loads[0].scope == a
  {
    var s0 := Initial(Props(Some(a), true, loader));
    var e1 := Render(Props(Some(b), true, loader));
    var e2 := Answer(0, Data(false));
    var s1 := Step(s0, Commit);
    var s2 := Step(s1, e1);
    var s3 := Step(s2, e2);
    assert Run(s3, []) == s3;
    assert [e1, e2][1..] == [e2] && [e2][1..] == [];
    assert Run(s2, [e2]) == s3;
    assert Run(s1, [e1, e2]) == s3;
    assert [Commit, e1, e2][1..] == [e1, e2];
  }

  /** Once the current activation has started its load, the component is shown exactly how that load stands;
      it is never shown the state of another scope. */
  lemma ReturnedIsTheCurrentLoad(first: Props, events: seq<Event>)
    ensures var s := Run(Initial(first), events);
      && Returned(s).scope == s.rendered.scope
      && (s.started.Some? && s.rendered.scope == s.started ==>
            s.loads != [] &&
            var last := s.loads[|s.loads| - 1];
            Returned(s) == ReadState(Some(last.scope), if last.outcome.None? then Loading else last.outcome.value))
  {
    RunKeeps(Initial(first), events);
  }
}
