/** The console's client for the hosted contact gate: one serialized queue of calls, a backup of the
    gate's registry that is written by compare-and-set, and a session check after every await.
    Each await is one step of the model; anything may happen between two steps. */
module Gateway {
  import opened Options

  // ---------------------------------------------------------------- registry documents

  datatype Json = Null | Text(text: string) | Arr(items: seq<Json>) | Obj(fields: map<string, Json>)

  const LIST_FIELDS: seq<string> := ["bound", "invites", "pending", "channels", "apps"]

  /** A document `registryIsEmpty` accepts. */
  predicate ValidRegistry(value: Json) {
    value.Obj? && forall f | f in LIST_FIELDS :: f in value.fields ==> value.fields[f].Arr?
  }

  predicate EmptyRegistry(value: Json)
    requires ValidRegistry(value)
  {
    && (forall f | f in LIST_FIELDS :: f in value.fields ==> value.fields[f].items == [])
    && ("router" in value.fields ==> value.fields["router"] == Null)
  }

  /** `registryIsEmpty`: `None` is the exception for a malformed document. */
  method RegistryIsEmpty(value: Json) returns (empty: Option<bool>)
    ensures empty == if ValidRegistry(value) then Some(EmptyRegistry(value)) else None
  {
    if !value.Obj? {
      return None;
    }
    var stillEmpty := true;
    for i := 0 to |LIST_FIELDS|
      invariant forall f | f in LIST_FIELDS[..i] :: f in value.fields ==> value.fields[f].Arr?
      invariant stillEmpty <==> forall f | f in LIST_FIELDS[..i] :: f in value.fields ==> value.fields[f].items == []
    {
      var field := LIST_FIELDS[i];
      assert LIST_FIELDS[..i + 1] == LIST_FIELDS[..i] + [field];
      if field in value.fields && !value.fields[field].Arr? {
        assert field in LIST_FIELDS;
        return None;
      }
      if field in value.fields && value.fields[field].items != [] {
        stillEmpty := false;
      }
    }
    assert LIST_FIELDS[..|LIST_FIELDS|] == LIST_FIELDS;
    empty := Some(stillEmpty && ("router" !in value.fields || value.fields["router"] == Null));
  }

  function Emptiness(value: Json): Option<bool> {
    if ValidRegistry(value) then Some(EmptyRegistry(value)) else None
  }

  // ---------------------------------------------------------------- one call of `executeHosted`

  type Account = nat
  /** The identity of a `HostedGatewayAccess` object. */
  type Access = nat
  /** A session key names one login, and a login belongs to one account. */
  datatype Key = Key(account: Account, login: nat)

  /** Registry mutations, the login poll that may bind, the two listings, and everything else. */
  datatype Kind = Mutation | LoginStatus | Listing | Plain

  /** The live registry; the version counts its changes. */
  datatype Snapshot = Snapshot(value: Json, version: nat)
  /** The durable copy; revisions are never reused, `version` says which live registry it holds. */
  datatype Stored = Stored(value: Json, revision: nat, version: nat)

  /** A request in flight: the server may still act on it, or has acted and its answer is under way, or has turned
      it down for good and that answer is under way. */
  datatype Reply<+T> = Waiting | Replied(value: T) | Declined

  datatype Outcome = Success | Passed | RegistryUnavailable | BackupFailed | FollowthroughFailed

  datatype Pc =
    | Queued
    | Exporting(exported: Reply<Snapshot>)
    | Reading(live: Snapshot, read: Reply<Option<Stored>>)
    | Saving(snap: Snapshot, expected: nat, saved: Reply<()>)
    | Restoring(value: Json, restored: Reply<()>)
    | Reconciled
    | Baseline(of: Option<Account>, base: Reply<Option<Stored>>)
    | Requesting(baseline: nat, answer: Reply<bool>)
    | Snapshotting(baseline: nat, exported: Reply<Snapshot>)
    | BackingUp(snap: Snapshot, baseline: nat, saved: Reply<()>)
    | Following
    | Settled(outcome: Outcome)

  /** `applied` and `backedUp` are the source's flags; `reached` and `landed` record what the server did: the
      version of the gate the request produced, and the version of the gate its backup wrote. `left` is the
      outcome of a call that failed before its request was answered: the server may still act on the request. */
  datatype Op = Op(client: nat, epoch: nat, access: Access, key: Key, kind: Kind, after: Option<nat>,
                   pc: Pc, applied: bool, backedUp: bool, reached: Option<nat>, landed: Option<nat>,
                   left: Option<Outcome>)

  /** The module variables; `epoch` numbers the queues `setHostedGatewayAccess` has started. */
  datatype Client = Client(access: Option<Access>, registrySession: Option<Key>, tail: Option<nat>, epoch: nat)

  predicate Serialized(op: Op) { !op.kind.Plain? }
  /** The call has begun and the server may still act on it. */
  predicate Running(op: Op) { !op.pc.Queued? && !op.pc.Settled? }
  /** The console still waits for it. */
  predicate UnderWay(op: Op) { Running(op) && op.left.None? }
  /** The console has its outcome. */
  predicate Ended(op: Op) { op.pc.Settled? || op.left.Some? }

  function RevisionOf(d: Option<Stored>): nat { if d.Some? then d.value.revision else 0 }

  /** `checkHostedSession`; `now` is what `access.sessionKey()` returns at this moment. */
  predicate SessionHolds(c: Client, op: Op, now: Option<Key>) {
    c.access == Some(op.access) && now == Some(op.key)
  }

  predicate SameIdentity(a: Op, b: Op) {
    a.client == b.client && a.epoch == b.epoch && a.access == b.access && a.key == b.key
    && a.kind == b.kind && a.after == b.after && a.reached == b.reached && a.landed == b.landed
  }

  /** A segment of code moves the call on and touches no module variable but the reconciled session. */
  predicate Continues(c: Client, op: Op, r: (Client, Op)) {
    SameIdentity(op, r.1) && !r.1.pc.Queued? && r.0 == c.(registrySession := r.0.registrySession)
  }

  /** The catch block; `hosted` says the error was a `HostedGatewayFailure`. */
  function Fail(c: Client, op: Op, hosted: bool): (r: (Client, Op))
    ensures Continues(c, op, r)
  {
    var outcome := if hosted && !op.applied then Passed
                   else if op.backedUp then FollowthroughFailed
                   else if op.applied then BackupFailed
                   else RegistryUnavailable;
    (c.(registrySession := None), op.(pc := Settled(outcome)))
  }

  /** From the call of `executeHosted` to its first await. */
  function Begin(c: Client, op: Op, now: Option<Key>): (r: (Client, Op))
    ensures Continues(c, op, r)
  {
    if !SessionHolds(c, op, now) then Fail(c, op, true)
    else if op.kind.Plain? then (c, op.(pc := Requesting(0, Waiting)))
    else if c.registrySession == Some(op.key) then (c, op.(pc := Reconciled))
    else (c, op.(pc := Exporting(Waiting)))
  }

  function FinishReconcile(c: Client, op: Op, now: Option<Key>): (r: (Client, Op))
    ensures Continues(c, op, r)
  {
    if !SessionHolds(c, op, now) then Fail(c, op, true)
    else (c.(registrySession := Some(op.key)), op.(pc := Reconciled))
  }

  /** How an await ends: with its value, with a gateway answer `ok: false`, or by a rejection. */
  datatype How = Answered | Refused | Threw

  /** The reply an `Answered` await needs has arrived. */
  predicate CanAnswer(pc: Pc) {
    match pc
    case Queued => false
    case Exporting(r) => r.Replied?
    case Reading(_, r) => r.Replied?
    case Saving(_, _, r) => r.Replied?
    case Restoring(_, r) => r.Replied?
    case Reconciled => true
    case Baseline(_, r) => r.Replied?
    case Requesting(_, r) => r.Replied?
    case Snapshotting(_, r) => r.Replied?
    case BackingUp(_, _, r) => r.Replied?
    case Following => true
    case Settled(_) => false
  }

  /** The server has neither acted on the request nor turned it down. */
  predicate Unanswered(pc: Pc) {
    match pc
    case Exporting(r) => r.Waiting?
    case Reading(_, r) => r.Waiting?
    case Saving(_, _, r) => r.Waiting?
    case Restoring(_, r) => r.Waiting?
    case Baseline(_, r) => r.Waiting?
    case Requesting(_, r) => r.Waiting?
    case Snapshotting(_, r) => r.Waiting?
    case BackingUp(_, _, r) => r.Waiting?
    case _ => false
  }

  /** An unanswered conditional write, and the revision it names. */
  predicate Writing(pc: Pc) { (pc.Saving? || pc.BackingUp?) && pc.saved.Waiting? }

  function Names(pc: Pc): nat
    requires Writing(pc)
  {
    if pc.Saving? then pc.expected else pc.baseline
  }

  /** The request is turned down: it will have no effect. */
  function TurnedDown(pc: Pc): (pc': Pc)
    requires Unanswered(pc)
    ensures !Unanswered(pc') && !CanAnswer(pc') && !pc'.Queued? && !pc'.Settled?
  {
    match pc
    case Exporting(_) => Exporting(Declined)
    case Reading(live, _) => Reading(live, Declined)
    case Saving(snap, expected, _) => Saving(snap, expected, Declined)
    case Restoring(value, _) => Restoring(value, Declined)
    case Baseline(of, _) => Baseline(of, Declined)
    case Requesting(baseline, _) => Requesting(baseline, Declined)
    case Snapshotting(baseline, _) => Snapshotting(baseline, Declined)
    case BackingUp(snap, baseline, _) => BackingUp(snap, baseline, Declined)
  }

  /** Awaits that go through `requestHosted`, the only ones a gateway can refuse. */
  predicate GatewayAwait(pc: Pc) {
    pc.Exporting? || pc.Restoring? || pc.Requesting? || pc.Snapshotting?
  }

  function AfterRead(c: Client, op: Op, now: Option<Key>): (r: (Client, Op))
    requires op.pc.Reading? && op.pc.read.Replied?
    ensures Continues(c, op, r)
  {
    var durable := op.pc.read.value;
    match Emptiness(op.pc.live.value)
    case None => Fail(c, op, false)
    case Some(false) => (c, op.(pc := Saving(op.pc.live, RevisionOf(durable), Waiting)))
    case Some(true) =>
      if durable.None? then FinishReconcile(c, op, now)
      else match Emptiness(durable.value.value)
        case None => Fail(c, op, false)
        case Some(false) => (c, op.(pc := Restoring(durable.value.value, Waiting)))
        case Some(true) => FinishReconcile(c, op, now)
  }

  function AfterRequest(c: Client, op: Op): (r: (Client, Op))
    requires op.pc.Requesting? && op.pc.answer.Replied?
    ensures Continues(c, op, r)
  {
    if op.kind.Mutation? || (op.kind.LoginStatus? && op.pc.answer.value)
    then (c, op.(applied := true, pc := Snapshotting(op.pc.baseline, Waiting)))
    else (c, op.(pc := Settled(Success)))
  }

  /** The code between two awaits. */
  function Answer(c: Client, op: Op, now: Option<Key>): (r: (Client, Op))
    requires CanAnswer(op.pc)
    ensures Continues(c, op, r)
  {
    if op.pc.Reconciled? && (op.kind.Mutation? || op.kind.LoginStatus?) then
      (c, op.(pc := Baseline(if now.Some? then Some(now.value.account) else None, Waiting)))
    else if !SessionHolds(c, op, now) then Fail(c, op, true)
    else match op.pc
      case Exporting(r) => (c, op.(pc := Reading(r.value, Waiting)))
      case Reading(_, _) => AfterRead(c, op, now)
      case Saving(_, _, _) => FinishReconcile(c, op, now)
      case Restoring(_, _) => FinishReconcile(c, op, now)
      case Reconciled => (c, op.(pc := Requesting(0, Waiting)))
      case Baseline(_, r) => (c, op.(pc := Requesting(RevisionOf(r.value), Waiting)))
      case Requesting(_, _) => AfterRequest(c, op)
      case Snapshotting(b, r) =>
        if Emptiness(r.value.value).None? then Fail(c, op, false)
        else (c, op.(pc := BackingUp(r.value, b, Waiting)))
      case BackingUp(_, _, _) => (c, op.(backedUp := true, pc := Following))
      case Following => (c, op.(pc := Settled(Success)))
  }

  /** An await fails: the catch block, with the request left behind if nothing had been decided about it. */
  function GiveUp(c: Client, op: Op, hosted: bool): (r: (Client, Op))
    requires Running(op)
    ensures Continues(c, op, r)
  {
    var r := Fail(c, op, hosted);
    if Unanswered(op.pc) then (r.0, op.(left := Some(r.1.pc.outcome))) else r
  }

  function Resume(c: Client, op: Op, now: Option<Key>, how: How): (r: (Client, Op))
    requires UnderWay(op)
    requires how.Answered? ==> CanAnswer(op.pc)
    requires how.Refused? ==> GatewayAwait(op.pc)
    requires how.Threw? ==> !op.pc.Reconciled?
    ensures Continues(c, op, r)
  {
    match how
    case Answered => Answer(c, op, now)
    case Refused => GiveUp(c, op, true)
    case Threw => GiveUp(c, op, false)
  }

  // ---------------------------------------------------------------- the module variables, updated in place

  class HostedGateway {
    var access: Option<Access>
    var registrySession: Option<Key>
    var tail: Option<nat>
    ghost var epoch: nat

    constructor ()
      ensures View() == Client(None, None, None, 0)
    {
      access, registrySession, tail, epoch := None, None, None, 0;
    }

    ghost function View(): Client
      reads this
    {
      Client(access, registrySession, tail, epoch)
    }

    /** `setHostedGatewayAccess`: forget the reconciled session and start an empty queue. */
    method SetHostedGatewayAccess(a: Option<Access>)
      modifies this
      ensures View() == Client(a, None, None, old(epoch) + 1)
    {
      access := a;
      registrySession := None;
      tail := None;
      epoch := epoch + 1;
    }

    method CheckHostedSession(op: Op, now: Option<Key>) returns (holds: bool)
      ensures holds == SessionHolds(View(), op, now)
    {
      holds := access == Some(op.access) && now == Some(op.key);
    }

    method Catch(op: Op, hosted: bool) returns (op': Op)
      modifies this
      ensures (View(), op') == Fail(old(View()), op, hosted)
    {
      registrySession := None;
      var outcome := RegistryUnavailable;
      if hosted && !op.applied {
        outcome := Passed;
      } else if op.backedUp {
        outcome := FollowthroughFailed;
      } else if op.applied {
        outcome := BackupFailed;
      }
      op' := op.(pc := Settled(outcome));
    }

    /** The serialized branch of `callHosted`: chain the call behind the queue's last one. */
    method Enqueue(position: nat) returns (after: Option<nat>)
      modifies this
      ensures after == old(tail) && View() == old(View()).(tail := Some(position))
    {
      after := tail;
      tail := Some(position);
    }

    method StartExecution(op: Op, now: Option<Key>) returns (op': Op)
      modifies this
      ensures (View(), op') == Begin(old(View()), op, now)
    {
      var holds := CheckHostedSession(op, now);
      if !holds {
        op' := Catch(op, true);
        return;
      }
      if op.kind.Mutation? || op.kind.LoginStatus? || op.kind.Listing? {
        if registrySession == Some(op.key) {
          op' := op.(pc := Reconciled);
        } else {
          op' := op.(pc := Exporting(Waiting));
        }
      } else {
        op' := op.(pc := Requesting(0, Waiting));
      }
    }

    method FinishReconciling(op: Op, now: Option<Key>) returns (op': Op)
      modifies this
      ensures (View(), op') == FinishReconcile(old(View()), op, now)
    {
      var holds := CheckHostedSession(op, now);
      if !holds {
        op' := Catch(op, true);
        return;
      }
      registrySession := Some(op.key);
      op' := op.(pc := Reconciled);
    }

    method ContinueReading(op: Op, now: Option<Key>) returns (op': Op)
      requires op.pc.Reading? && op.pc.read.Replied?
      modifies this
      ensures (View(), op') == AfterRead(old(View()), op, now)
    {
      var durable := op.pc.read.value;
      var liveEmpty := RegistryIsEmpty(op.pc.live.value);
      if liveEmpty.None? {
        op' := Catch(op, false);
      } else if !liveEmpty.value {
        op' := op.(pc := Saving(op.pc.live, if durable.Some? then durable.value.revision else 0, Waiting));
      } else if durable.None? {
        op' := FinishReconciling(op, now);
      } else {
        var durableEmpty := RegistryIsEmpty(durable.value.value);
        if durableEmpty.None? {
          op' := Catch(op, false);
        } else if !durableEmpty.value {
          op' := op.(pc := Restoring(durable.value.value, Waiting));
        } else {
          op' := FinishReconciling(op, now);
        }
      }
    }

    /** One call carries on when its await is answered. */
    method ContinueExecution(op: Op, now: Option<Key>) returns (op': Op)
      requires CanAnswer(op.pc)
      modifies this
      ensures (View(), op') == Answer(old(View()), op, now)
    {
      if op.pc.Reconciled? && (op.kind.Mutation? || op.kind.LoginStatus?) {
        op' := op.(pc := Baseline(if now.Some? then Some(now.value.account) else None, Waiting));
        return;
      }
      var holds := CheckHostedSession(op, now);
      if !holds {
        op' := Catch(op, true);
        return;
      }
      match op.pc
      case Exporting(r) =>
        op' := op.(pc := Reading(r.value, Waiting));
      case Reading(_, _) =>
        op' := ContinueReading(op, now);
      case Saving(_, _, _) =>
        op' := FinishReconciling(op, now);
      case Restoring(_, _) =>
        op' := FinishReconciling(op, now);
      case Reconciled =>
        op' := op.(pc := Requesting(0, Waiting));
      case Baseline(_, r) =>
        op' := op.(pc := Requesting(if r.value.Some? then r.value.value.revision else 0, Waiting));
      case Requesting(b, r) =>
        if op.kind.Mutation? || (op.kind.LoginStatus? && r.value) {
          op' := op.(applied := true, pc := Snapshotting(b, Waiting));
        } else {
          op' := op.(pc := Settled(Success));
        }
      case Snapshotting(b, r) =>
        var empty := RegistryIsEmpty(r.value.value);
        if empty.None? {
          op' := Catch(op, false);
        } else {
          op' := op.(pc := BackingUp(r.value, b, Waiting));
        }
      case BackingUp(_, _, _) =>
        op' := op.(backedUp := true, pc := Following);
      case Following =>
        op' := op.(pc := Settled(Success));
    }
  }

  // ---------------------------------------------------------------- the whole system

  /** Any number of consoles, the sessions their access objects report, and per account the live
      registry and its durable copy. */
  datatype World = World(clients: seq<Client>, keys: map<Access, Key>, ops: seq<Op>,
                         gates: map<Account, Snapshot>, copies: map<Account, Stored>, nextRevision: nat)

  function Now(w: World, a: Access): Option<Key> { if a in w.keys then Some(w.keys[a]) else None }
  function Gate(w: World, a: Account): Snapshot { if a in w.gates then w.gates[a] else Snapshot(Obj(map[]), 0) }
  function Copy(w: World, a: Account): Option<Stored> { if a in w.copies then Some(w.copies[a]) else None }

  datatype Event =
    | Call(client: nat, kind: Kind)
    | Start(i: nat)
    | Serve(i: nat, newGate: Json, connected: bool)
    | Decline(i: nat)
    | Wake(i: nat, how: How)
    | SetAccess(client: nat, access: Option<Access>)
    | SetKey(who: Access, session: Option<Key>)

  predicate QueueReached(w: World, op: Op) {
    op.after.None? || (op.after.value < |w.ops| && Ended(w.ops[op.after.value]))
  }

  predicate Enabled(w: World, e: Event) {
    match e
    case Call(c, _) =>
      c < |w.clients| && w.clients[c].access.Some? && Now(w, w.clients[c].access.value).Some?
    case Start(i) => i < |w.ops| && w.ops[i].pc.Queued? && QueueReached(w, w.ops[i])
    case Serve(i, _, _) => i < |w.ops| && Running(w.ops[i])
    case Decline(i) => i < |w.ops| && Unanswered(w.ops[i].pc)
    case Wake(i, how) =>
      && i < |w.ops| && UnderWay(w.ops[i])
      && w.ops[i].client < |w.clients|
      && (how.Answered? ==> CanAnswer(w.ops[i].pc))
      && (how.Refused? ==> GatewayAwait(w.ops[i].pc))
      && (how.Threw? ==> !w.ops[i].pc.Reconciled?)
    case SetAccess(c, _) => c < |w.clients|
    case SetKey(_, _) => true
  }

  function CallStep(w: World, c: nat, kind: Kind): World
    requires Enabled(w, Call(c, kind))
  {
    var client := w.clients[c];
    var access := client.access.value;
    var key := w.keys[access];
    var op := Op(c, client.epoch, access, key, kind, if kind.Plain? then None else client.tail,
                 Queued, false, false, None, None, None);
    if kind.Plain? then
      var (client', op') := Begin(client, op, Some(key));
      w.(clients := w.clients[c := client'], ops := w.ops + [op'])
    else
      w.(clients := w.clients[c := client.(tail := Some(|w.ops|))], ops := w.ops + [op])
  }

  /** The two sides of one account and the call being served. */
  datatype Served = Served(op: Op, gate: Snapshot, copy: Option<Stored>, nextRevision: nat)

  /** The server keeps the call in its place; it may answer, change the live registry or write the copy. */
  predicate Serves(before: Served, after: Served) {
    && after.op == before.op.(pc := after.op.pc, reached := after.op.reached, landed := after.op.landed)
    && Running(after.op)
    && (before.copy.Some? ==> after.copy.Some?)
  }

  function Answering(x: Served, pc': Pc): Served { x.(op := x.op.(pc := pc')) }

  /** The conditional write: it lands only on the revision it names, and is turned down on any other. */
  function WriteCopy(x: Served, snap: Snapshot, expected: nat, pc': Pc, conflict: Pc): Served {
    if RevisionOf(x.copy) == expected then
      x.(copy := Some(Stored(snap.value, x.nextRevision, snap.version)), nextRevision := x.nextRevision + 1,
         op := x.op.(pc := pc', landed := if x.op.pc.BackingUp? then Some(snap.version) else x.op.landed))
    else Answering(x, conflict)
  }

  function ChangeGate(x: Served, value: Json, pc': Pc): Served {
    x.(gate := Snapshot(value, x.gate.version + 1),
       op := x.op.(pc := pc', reached := if x.op.pc.Requesting? then Some(x.gate.version + 1) else x.op.reached))
  }

  predicate Applies(op: Op, connected: bool) { op.kind.Mutation? || (op.kind.LoginStatus? && connected) }

  /** The server acts on the outstanding request of a call, once; `elsewhere` is the copy of the account
      a baseline read is addressed to. */
  function Serving(x: Served, newGate: Json, connected: bool, elsewhere: Option<Stored>): (y: Served)
    requires Running(x.op)
    ensures Serves(x, y)
  {
    match x.op.pc
    case Exporting(Waiting) => Answering(x, Exporting(Replied(x.gate)))
    case Reading(live, Waiting) => Answering(x, Reading(live, Replied(x.copy)))
    case Saving(snap, expected, Waiting) =>
      WriteCopy(x, snap, expected, Saving(snap, expected, Replied(())), TurnedDown(x.op.pc))
    case Restoring(value, Waiting) => ChangeGate(x, value, Restoring(value, Replied(())))
    case Baseline(Some(b), Waiting) => Answering(x, Baseline(Some(b), Replied(elsewhere)))
    case Requesting(b, Waiting) =>
      if Applies(x.op, connected)
      then ChangeGate(x, newGate, Requesting(b, Replied(x.op.kind.LoginStatus?)))
      else Answering(x, Requesting(b, Replied(false)))
    case Snapshotting(b, Waiting) => Answering(x, Snapshotting(b, Replied(x.gate)))
    case BackingUp(snap, b, Waiting) =>
      WriteCopy(x, snap, b, BackingUp(snap, b, Replied(())), TurnedDown(x.op.pc))
    case _ => x
  }

  function Side(w: World, i: nat): Served
    requires i < |w.ops|
  {
    var op := w.ops[i];
    Served(op, Gate(w, op.key.account), Copy(w, op.key.account), w.nextRevision)
  }

  function Elsewhere(w: World, op: Op): Option<Stored> {
    if op.pc.Baseline? && op.pc.of.Some? then Copy(w, op.pc.of.value) else None
  }

  function ServeStep(w: World, i: nat, newGate: Json, connected: bool): World
    requires i < |w.ops| && Running(w.ops[i])
  {
    var a := w.ops[i].key.account;
    var y := Serving(Side(w, i), newGate, connected, Elsewhere(w, w.ops[i]));
    w.(ops := w.ops[i := y.op],
       gates := if y.gate == Gate(w, a) then w.gates else w.gates[a := y.gate],
       copies := if y.copy == Copy(w, a) || y.copy.None? then w.copies else w.copies[a := y.copy.value],
       nextRevision := y.nextRevision)
  }

  /** The server, or whoever stands before it, turns the request down for good. */
  function DeclineStep(w: World, i: nat): World
    requires i < |w.ops| && Unanswered(w.ops[i].pc)
  {
    w.(ops := w.ops[i := w.ops[i].(pc := TurnedDown(w.ops[i].pc))])
  }

  function StartStep(w: World, i: nat): World
    requires i < |w.ops| && w.ops[i].client < |w.clients|
  {
    var op := w.ops[i];
    var (client', op') := Begin(w.clients[op.client], op, Now(w, op.access));
    w.(clients := w.clients[op.client := client'], ops := w.ops[i := op'])
  }

  function WakeStep(w: World, i: nat, how: How): World
    requires Enabled(w, Wake(i, how))
  {
    var op := w.ops[i];
    var (client', op') := Resume(w.clients[op.client], op, Now(w, op.access), how);
    w.(clients := w.clients[op.client := client'], ops := w.ops[i := op'])
  }

  /** One event; an event that cannot happen changes nothing. */
  function Step(w: World, e: Event): World {
    if !Enabled(w, e) then w else
      match e
      case Call(c, kind) => CallStep(w, c, kind)
      case Start(i) => if w.ops[i].client < |w.clients| then StartStep(w, i) else w
      case Serve(i, g, connected) => ServeStep(w, i, g, connected)
      case Decline(i) => DeclineStep(w, i)
      case Wake(i, how) => WakeStep(w, i, how)
      case SetAccess(c, access) =>
        w.(clients := w.clients[c := Client(access, None, None, w.clients[c].epoch + 1)])
      case SetKey(a, None) => w.(keys := w.keys - {a})
      case SetKey(a, Some(k)) => w.(keys := w.keys[a := k])
  }

  function Run(w: World, events: seq<Event>): World
    decreases |events|
  {
    if events == [] then w else Run(Step(w, events[0]), events[1..])
  }

  lemma {:induction false} RunConcat(w: World, a: seq<Event>, b: seq<Event>)
    ensures Run(w, a + b) == Run(Run(w, a), b)
    decreases |a|
  {
    if a == [] {
      assert a + b == b;
    } else {
      assert (a + b)[0] == a[0] && (a + b)[1..] == a[1..] + b;
      RunConcat(Step(w, a[0]), a[1..], b);
    }
  }

  lemma RunOne(w: World, e: Event)
    ensures Run(w, [e]) == Step(w, e)
  {
    assert [e][1..] == [];
    assert Run(Step(w, e), []) == Step(w, e);
  }

  /** Fresh consoles; the gates and copies may hold anything, every revision already used. */
  predicate Initial(w: World) {
    && w.ops == []
    && (forall c | 0 <= c < |w.clients| :: w.clients[c] == Client(None, None, None, 0))
    && w.nextRevision >= 1
    && (forall a | a in w.copies :: 1 <= w.copies[a].revision < w.nextRevision)
    && (forall a | a in w.copies :: w.copies[a].version <= Gate(w, a).version)
  }
}
