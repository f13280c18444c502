/** With one console writing gate and copy, an idle console that has reconciled a session holds equal registries on
    both sides, in every run in which no request of an earlier queue, or of a call that has failed, takes effect under
    the eyes of the session. */
module GatewayAgreement {
  import opened Options
  import opened Gateway
  import opened GatewayQueue
  import Backups = GatewayBackups

  ghost predicate EqualOrBothEmpty(g: Json, d: Option<Stored>) {
    || (d.Some? && d.value.value == g)
    || (Emptiness(g) == Some(true) && (d.None? || Emptiness(d.value.value) == Some(true)))
  }

  ghost predicate InAgreement(w: World, a: Account) { EqualOrBothEmpty(Gate(w, a).value, Copy(w, a)) }

  predicate IsEmpty(value: Json) { Emptiness(value) == Some(true) }

  predicate NonEmpty(value: Json) { Emptiness(value) == Some(false) }

  predicate NoContent(d: Option<Stored>) { d.None? || IsEmpty(d.value.value) }

  predicate HasContent(d: Option<Stored>) { d.Some? && NonEmpty(d.value.value) }

  /** Agreement of valid documents. */
  ghost predicate InStep(g: Json, d: Option<Stored>) {
    || (NonEmpty(g) && d.Some? && d.value.value == g)
    || (IsEmpty(g) && NoContent(d))
  }

  lemma InStepAgrees(g: Json, d: Option<Stored>)
    requires InStep(g, d)
    ensures EqualOrBothEmpty(g, d)
  {
  }

  function CopyOf(w: World, op: Op): Option<Stored> { Copy(w, op.key.account) }

  function GateOf(w: World, op: Op): Json { Gate(w, op.key.account).value }

  /** The call belongs to the open queue, and nothing of it has been left behind. */
  predicate Current(c: Client, op: Op) { op.epoch == c.epoch && op.left.None? }

  // ---------------------------------------------------------------- late effects

  /** No pending call holds this access object. */
  predicate Unheld(w: World, a: Access) {
    forall i | 0 <= i < |w.ops| :: Serialized(w.ops[i]) && !Ended(w.ops[i]) ==> w.ops[i].access != a
  }

  /** Call `i` is no longer the open queue's: its console has another queue, or has given the call up. */
  predicate Late(w: World, i: nat) {
    && i < |w.ops| && Serialized(w.ops[i])
    && (w.ops[i].client < |w.clients| ==> !Current(w.clients[w.ops[i].client], w.ops[i]))
  }

  /** The request has changed the gate. */
  predicate Took(op: Op, r: Reply<bool>) { r.Replied? && Applies(op, r.value) }

  /** The call goes on with what it has seen of gate and copy. */
  predicate Relies(op: Op) {
    match op.pc
    case Queued => false
    case Exporting(r) => r.Replied?
    case Requesting(_, r) => !Took(op, r)
    case Snapshotting(_, r) => r.Replied?
    case Settled(_) => false
    case _ => true
  }

  /** A call of the open queue is under way. */
  ghost predicate OpenBusy(w: World)
    requires |w.clients| == 1
  {
    exists i | 0 <= i < |w.ops| :: Serialized(w.ops[i]) && Running(w.ops[i]) && Current(w.clients[0], w.ops[i])
  }

  /** The session relies on what it knows of the account: by a call under way, or by having been reconciled. */
  ghost predicate Watched(w: World, a: Account)
    requires |w.clients| == 1
  {
    var c := w.clients[0];
    || (exists j | 0 <= j < |w.ops| :: w.ops[j].key.account == a && Serialized(w.ops[j]) && Running(w.ops[j])
                                       && Current(c, w.ops[j]) && Relies(w.ops[j]))
    || (!OpenBusy(w) && c.registrySession.Some? && c.registrySession.value.account == a)
  }

  /** The gate keeps its document; the copy stays, or becomes the gate's contents, or had none and has none. */
  ghost predicate KeepsSides(g: Json, d: Option<Stored>, g': Json, d': Option<Stored>) {
    && g' == g
    && (d' == d || (NonEmpty(g) && d'.Some? && d'.value.value == g) || (!HasContent(d) && NoContent(d')))
  }

  /** A late effect comes only where it keeps both sides or nobody watches; a new access object comes only when no
      pending call holds it. Requests may fail, be turned down or stay unanswered at any time. */
  ghost predicate Timely(w: World, e: Event) {
    match e
    case SetAccess(_, Some(a)) => Unheld(w, a)
    case Serve(i, _, _) =>
      |w.clients| == 1 && Late(w, i) ==>
        var op, v := w.ops[i], Step(w, e);
        KeepsSides(GateOf(w, op), CopyOf(w, op), GateOf(v, op), CopyOf(v, op)) || !Watched(w, op.key.account)
    case _ => true
  }

  ghost predicate TimelyRun(w: World, events: seq<Event>)
    decreases |events|
  {
    events == [] || (Timely(w, events[0]) && TimelyRun(Step(w, events[0]), events[1..]))
  }

  // ---------------------------------------------------------------- what a running call knows

  /** If a session is marked reconciled at all, it is this call's, and `fact` holds. */
  ghost predicate Claim(s: Option<Key>, k: Key, fact: bool) { s.Some? ==> s == Some(k) && fact }

  /** A copy read earlier is as good as the present one for deciding about an empty gate. */
  ghost predicate ReadFits(g: Json, d: Option<Stored>, r: Option<Stored>) {
    IsEmpty(g) ==>
      && (NoContent(r) ==> NoContent(d))
      && (HasContent(r) ==> d.Some? && d.value.value == r.value.value)
  }

  /** What a running call of the open queue knows about gate, copy and marked session. */
  ghost predicate Knows(op: Op, s: Option<Key>, g: Json, d: Option<Stored>) {
    match op.pc
    case Exporting(r) => r.Replied? ==> r.value.value == g
    case Reading(live, r) => live.value == g && (r.Replied? ==> ReadFits(g, d, r.value))
    case Saving(snap, _, r) => snap.value == g && (r.Replied? ==> InStep(g, d))
    case Restoring(v, r) => d.Some? && d.value.value == v && (if r.Replied? then g == v else IsEmpty(g))
    case Reconciled => Claim(s, op.key, InStep(g, d))
    case Baseline(_, _) => Claim(s, op.key, InStep(g, d))
    case Requesting(_, r) => Claim(s, op.key, !Took(op, r) ==> InStep(g, d))
    case Snapshotting(_, r) => Claim(s, op.key, true) && (r.Replied? ==> r.value.value == g)
    case BackingUp(snap, _, r) => Claim(s, op.key, true) && snap.value == g && (r.Replied? ==> InStep(g, d))
    case Following => Claim(s, op.key, InStep(g, d))
    case _ => true
  }

  /** The documents a call carries have passed the emptiness scan. */
  ghost predicate Scanned(pc: Pc) {
    match pc
    case Saving(snap, _, _) => NonEmpty(snap.value)
    case Restoring(v, _) => NonEmpty(v)
    case BackingUp(snap, _, _) => Emptiness(snap.value).Some?
    case _ => true
  }

  ghost predicate OpInv(c: Client, op: Op, g: Json, d: Option<Stored>) {
    && Scanned(op.pc)
    && (op.kind.Plain? && Running(op) ==> op.pc.Requesting?)
    && (Serialized(op) && !Ended(op) ==> (Current(c, op) <==> c.access == Some(op.access)))
    && (Serialized(op) && Running(op) && Current(c, op) ==> Knows(op, c.registrySession, g, d))
  }

  ghost predicate MarkInv(w: World)
    requires |w.clients| == 1
  {
    var c := w.clients[0];
    && (c.access.None? ==> c.registrySession.None?)
    && (!OpenBusy(w) && c.registrySession.Some? ==>
          InStep(Gate(w, c.registrySession.value.account).value, Copy(w, c.registrySession.value.account)))
  }

  ghost predicate OpsInv(w: World)
    requires |w.clients| == 1
  {
    forall i | 0 <= i < |w.ops| :: OpInv(w.clients[0], w.ops[i], GateOf(w, w.ops[i]), CopyOf(w, w.ops[i]))
  }

  ghost predicate Inv(w: World) {
    |w.clients| == 1 && QueueInv(w) && Backups.Inv(w) && OpsInv(w) && MarkInv(w)
  }

  /** A serialized call is under way. */
  ghost predicate Busy(w: World) {
    exists i | 0 <= i < |w.ops| :: Serialized(w.ops[i]) && UnderWay(w.ops[i])
  }

  /** Whenever no serialized call is under way, the marked session's account is in agreement. */
  ghost predicate Agreed(w: World)
    requires |w.clients| == 1
  {
    var s := w.clients[0].registrySession;
    !Busy(w) && s.Some? ==> InAgreement(w, s.value.account)
  }

  // ---------------------------------------------------------------- frames

  lemma ForgettingKeeps(c: Client, op: Op, g: Json, d: Option<Stored>, s: Option<Key>)
    requires OpInv(c, op, g, d) && (s == None || s == c.registrySession)
    ensures OpInv(c.(registrySession := s), op, g, d)
  {
  }

  lemma MarkingKeeps(c: Client, op: Op, g: Json, d: Option<Stored>, s: Option<Key>)
    requires OpInv(c, op, g, d) && !(Serialized(op) && Running(op) && Current(c, op))
    ensures OpInv(c.(registrySession := s), op, g, d)
  {
  }

  lemma OnlyOneRuns(w: World, i: nat, j: nat)
    requires |w.clients| == 1 && QueueInv(w) && i < |w.ops| && j < |w.ops| && i != j
    requires Serialized(w.ops[i]) && Serialized(w.ops[j]) && Running(w.ops[i])
    requires Current(w.clients[0], w.ops[i]) && Current(w.clients[0], w.ops[j])
    ensures !Running(w.ops[j])
  {
    var a, b := if i < j then i else j, if i < j then j else i;
    assert w.ops[i].client < 1 && w.ops[j].client < 1;
    assert SameQueue(w.ops, a, b);
  }

  /** A call of the open queue that may begin finds no other of that queue running. */
  lemma IdleBeforeStart(w: World, i: nat)
    requires |w.clients| == 1 && QueueInv(w) && Enabled(w, Start(i)) && Current(w.clients[0], w.ops[i])
    ensures Serialized(w.ops[i]) && w.ops[i].client == 0 && !OpenBusy(w)
  {
    assert w.ops[i].client < 1;
    forall j: nat | j < |w.ops| && Serialized(w.ops[j]) && Current(w.clients[0], w.ops[j]) ensures !Running(w.ops[j]) {
      assert w.ops[j].client < 1;
      if j < i {
        assert SameQueue(w.ops, j, i);
        TurnMeansEnded(w, i, j);
      } else if i < j {
        assert SameQueue(w.ops, i, j);
      }
    }
  }

  // ---------------------------------------------------------------- one call's own steps

  /** Call `i` moved by its own code from `w` to `v`: both sides stay. */
  ghost predicate OwnStep(w: World, v: World, i: nat) {
    && |w.clients| == |v.clients| == 1 && Moves(w, v, i) && v.gates == w.gates && v.copies == w.copies
    && v.clients[0] == w.clients[0].(registrySession := v.clients[0].registrySession)
    && (v.clients[0].registrySession == None || v.clients[0].registrySession == w.clients[0].registrySession
        || v.clients[0].registrySession == Some(w.ops[i].key))
  }

  /** Only a running call of the open queue, the one that moves, can mark its session. */
  ghost predicate MarksAlone(w: World, v: World, i: nat)
    requires OwnStep(w, v, i)
  {
    v.clients[0].registrySession == None || v.clients[0].registrySession == w.clients[0].registrySession
    || forall j | 0 <= j < |w.ops| && j != i ::
         !(Serialized(w.ops[j]) && Running(w.ops[j]) && Current(w.clients[0], w.ops[j]))
  }

  lemma OwnStepOps(w: World, v: World, i: nat)
    requires OwnStep(w, v, i) && OpsInv(w) && MarksAlone(w, v, i)
    requires OpInv(v.clients[0], v.ops[i], GateOf(w, w.ops[i]), CopyOf(w, w.ops[i]))
    ensures OpsInv(v)
  {
    forall j | 0 <= j < |v.ops| ensures OpInv(v.clients[0], v.ops[j], GateOf(v, v.ops[j]), CopyOf(v, v.ops[j])) {
      if j != i {
        var op, s := w.ops[j], v.clients[0].registrySession;
        if s == None || s == w.clients[0].registrySession {
          ForgettingKeeps(w.clients[0], op, GateOf(w, op), CopyOf(w, op), s);
        } else {
          MarkingKeeps(w.clients[0], op, GateOf(w, op), CopyOf(w, op), s);
        }
      }
    }
  }

  lemma SameOpenBusy(w: World, v: World, i: nat)
    requires OwnStep(w, v, i)
    requires (Serialized(w.ops[i]) && Running(w.ops[i]) && Current(w.clients[0], w.ops[i]))
         <==> (Serialized(v.ops[i]) && Running(v.ops[i]) && Current(w.clients[0], v.ops[i]))
    ensures OpenBusy(v) == OpenBusy(w)
  {
    if OpenBusy(w) {
      var j :| 0 <= j < |w.ops| && Serialized(w.ops[j]) && Running(w.ops[j]) && Current(w.clients[0], w.ops[j]);
      assert Serialized(v.ops[j]) && Running(v.ops[j]) && Current(v.clients[0], v.ops[j]);
    }
    if OpenBusy(v) {
      var j :| 0 <= j < |v.ops| && Serialized(v.ops[j]) && Running(v.ops[j]) && Current(v.clients[0], v.ops[j]);
      assert Serialized(w.ops[j]) && Running(w.ops[j]) && Current(w.clients[0], w.ops[j]);
    }
  }

  /** A call outside the open queue, or a plain one, can at most forget the marked session. */
  lemma OutsiderMarks(w: World, v: World, i: nat)
    requires OwnStep(w, v, i) && MarkInv(w)
    requires !Serialized(w.ops[i]) || !Current(w.clients[0], w.ops[i])
    requires v.clients[0].registrySession == None || v.clients[0].registrySession == w.clients[0].registrySession
    ensures MarkInv(v)
  {
    SameOpenBusy(w, v, i);
  }

  // ---------------------------------------------------------------- the open queue's call moves

  /** The call's knowledge while it runs; once it is over, nothing is marked or all is in step. */
  ghost predicate Leaves(r: (Client, Op), g: Json, d: Option<Stored>) {
    && r.1.left.None?
    && if r.1.pc.Settled? then Claim(r.0.registrySession, r.1.key, InStep(g, d))
       else Knows(r.1, r.0.registrySession, g, d) && Scanned(r.1.pc)
  }

  lemma BeginKnows(c: Client, op: Op, now: Option<Key>, g: Json, d: Option<Stored>)
    requires Serialized(op) && op.left.None? && (c.registrySession == Some(op.key) ==> InStep(g, d))
    ensures var r := Begin(c, op, now);
            && Leaves(r, g, d)
            && (r.0.registrySession == None || r.0.registrySession == c.registrySession)
            && (r.1.pc.Settled? || r.1.pc == Exporting(Waiting)
                || (r.1.pc == Reconciled && c.registrySession == Some(op.key)))
  {
  }

  lemma FailLeaves(c: Client, op: Op, hosted: bool, g: Json, d: Option<Stored>)
    requires op.left.None?
    ensures Leaves(Fail(c, op, hosted), g, d)
  {
  }

  lemma FinishLeaves(c: Client, op: Op, now: Option<Key>, g: Json, d: Option<Stored>)
    requires op.left.None? && InStep(g, d)
    ensures Leaves(FinishReconcile(c, op, now), g, d)
  {
    FailLeaves(c, op, true, g, d);
  }

  lemma ReadKeepsKnowledge(c: Client, op: Op, now: Option<Key>, g: Json, d: Option<Stored>)
    requires CanAnswer(op.pc) && op.left.None?
    requires op.pc.Reading? && op.pc.live.value == g && ReadFits(g, d, op.pc.read.value)
    ensures Leaves(AfterRead(c, op, now), g, d)
  {
    var r := op.pc.read.value;
    FailLeaves(c, op, false, g, d);
    if IsEmpty(g) && NoContent(r) {
      FinishLeaves(c, op, now, g, d);
    }
  }

  lemma ReconcileKeepsKnowledge(c: Client, op: Op, now: Option<Key>, g: Json, d: Option<Stored>)
    requires CanAnswer(op.pc) && op.left.None? && (op.pc.Exporting? || op.pc.Saving? || op.pc.Restoring?)
    requires Knows(op, c.registrySession, g, d) && Scanned(op.pc)
    ensures Leaves(Answer(c, op, now), g, d)
  {
  }

  lemma RequestKeepsKnowledge(c: Client, op: Op, now: Option<Key>, g: Json, d: Option<Stored>)
    requires CanAnswer(op.pc) && op.left.None? && (op.pc.Reconciled? || op.pc.Baseline? || op.pc.Requesting?)
    requires Knows(op, c.registrySession, g, d)
    ensures Leaves(Answer(c, op, now), g, d)
  {
  }

  lemma BackupKeepsKnowledge(c: Client, op: Op, now: Option<Key>, g: Json, d: Option<Stored>)
    requires CanAnswer(op.pc) && op.left.None? && (op.pc.Snapshotting? || op.pc.BackingUp? || op.pc.Following?)
    requires Knows(op, c.registrySession, g, d) && Scanned(op.pc)
    ensures Leaves(Answer(c, op, now), g, d)
  {
  }

  lemma ResumeKeepsKnowledge(c: Client, op: Op, now: Option<Key>, how: How, g: Json, d: Option<Stored>)
    requires UnderWay(op) && Serialized(op) && !Unanswered(op.pc)
    requires how.Answered? ==> CanAnswer(op.pc)
    requires how.Refused? ==> GatewayAwait(op.pc)
    requires how.Threw? ==> !op.pc.Reconciled?
    requires Knows(op, c.registrySession, g, d) && Scanned(op.pc)
    ensures Leaves(Resume(c, op, now, how), g, d)
  {
    if how.Answered? {
      if op.pc.Reading? {
        ReadKeepsKnowledge(c, op, now, g, d);
      } else if op.pc.Exporting? || op.pc.Saving? || op.pc.Restoring? {
        ReconcileKeepsKnowledge(c, op, now, g, d);
      } else if op.pc.Reconciled? || op.pc.Baseline? || op.pc.Requesting? {
        RequestKeepsKnowledge(c, op, now, g, d);
      } else {
        BackupKeepsKnowledge(c, op, now, g, d);
      }
    }
  }

  /** Only the end of a reconcile marks a session, the call's own. */
  lemma ResumeMarks(c: Client, op: Op, now: Option<Key>, how: How)
    requires UnderWay(op) && Serialized(op) && !Unanswered(op.pc)
    requires how.Answered? ==> CanAnswer(op.pc)
    requires how.Refused? ==> GatewayAwait(op.pc)
    requires how.Threw? ==> !op.pc.Reconciled?
    ensures var s := Resume(c, op, now, how).0.registrySession; s == None || s == c.registrySession || s == Some(op.key)
  {
    if how.Answered? && op.pc.Reading? && SessionHolds(c, op, now) {
      ReadMarks(c, op, now);
    }
  }

  lemma ReadMarks(c: Client, op: Op, now: Option<Key>)
    requires op.pc.Reading? && op.pc.read.Replied?
    ensures var s := AfterRead(c, op, now).0.registrySession; s == None || s == c.registrySession || s == Some(op.key)
  {
  }

  /** The open queue's one running call takes a step. */
  lemma CurrentMoves(w: World, v: World, i: nat)
    requires Inv(w) && OwnStep(w, v, i) && QueueInv(v) && Backups.Inv(v)
    requires Serialized(w.ops[i]) && Current(w.clients[0], w.ops[i]) && w.clients[0].access == Some(w.ops[i].access)
    requires forall j | 0 <= j < |w.ops| && j != i ::
               !(Serialized(w.ops[j]) && Running(w.ops[j]) && Current(w.clients[0], w.ops[j]))
    requires !v.ops[i].pc.Queued? && Leaves((v.clients[0], v.ops[i]), GateOf(w, w.ops[i]), CopyOf(w, w.ops[i]))
    ensures Inv(v)
  {
    assert OpInv(v.clients[0], v.ops[i], GateOf(w, w.ops[i]), CopyOf(w, w.ops[i]));
    OwnStepOps(w, v, i);
    if !OpenBusy(v) && v.clients[0].registrySession.Some? {
      assert v.ops[i].pc.Settled?;
    }
  }

  lemma CurrentStart(w: World, i: nat)
    requires Inv(w) && Enabled(w, Start(i)) && Current(w.clients[0], w.ops[i])
    requires var v := Step(w, Start(i)); QueueInv(v) && Backups.Inv(v) && Moves(w, v, i)
    ensures Inv(Step(w, Start(i)))
  {
    IdleBeforeStart(w, i);
    var op, v := w.ops[i], Step(w, Start(i));
    var c, g, d := w.clients[0], GateOf(w, op), CopyOf(w, op);
    assert OpInv(c, op, g, d);
    BeginKnows(c, op, Now(w, op.access), g, d);
    CurrentMoves(w, v, i);
  }

  lemma CurrentWake(w: World, i: nat, how: How)
    requires Inv(w) && Enabled(w, Wake(i, how)) && !Unanswered(w.ops[i].pc)
    requires Serialized(w.ops[i]) && Current(w.clients[0], w.ops[i])
    requires var v := Step(w, Wake(i, how)); QueueInv(v) && Backups.Inv(v) && Moves(w, v, i)
    ensures Inv(Step(w, Wake(i, how)))
  {
    var op, v := w.ops[i], Step(w, Wake(i, how));
    var c, g, d := w.clients[0], GateOf(w, op), CopyOf(w, op);
    assert OpInv(c, op, g, d);
    ResumeKeepsKnowledge(c, op, Now(w, op.access), how, g, d);
    ResumeMarks(c, op, Now(w, op.access), how);
    forall j | 0 <= j < |w.ops| && j != i
      ensures !(Serialized(w.ops[j]) && Running(w.ops[j]) && Current(c, w.ops[j]))
    {
      if Serialized(w.ops[j]) && Current(c, w.ops[j]) {
        OnlyOneRuns(w, i, j);
      }
    }
    CurrentMoves(w, v, i);
  }

  // ---------------------------------------------------------------- other calls move

  /** A call of an earlier queue fails at its next session check; only the check-free step to the baseline
      comes before that. */
  lemma OutsiderResumes(c: Client, op: Op, now: Option<Key>, how: How)
    requires UnderWay(op) && c.access != Some(op.access) && !Unanswered(op.pc)
    requires how.Answered? ==> CanAnswer(op.pc)
    requires how.Refused? ==> GatewayAwait(op.pc)
    requires how.Threw? ==> !op.pc.Reconciled?
    ensures var r := Resume(c, op, now, how);
      && (r.1.pc.Settled? || r.1.pc.Baseline?)
      && (r.0.registrySession == None || r.0.registrySession == c.registrySession)
  {
  }

  lemma PlainResumes(c: Client, op: Op, now: Option<Key>, how: How)
    requires op.kind.Plain? && op.pc.Requesting? && op.left.None? && !Unanswered(op.pc)
    requires how.Answered? ==> CanAnswer(op.pc)
    ensures var r := Resume(c, op, now, how);
      && r.1.pc.Settled?
      && (r.0.registrySession == None || r.0.registrySession == c.registrySession)
  {
  }

  lemma OutsiderMoves(w: World, v: World, i: nat)
    requires Inv(w) && OwnStep(w, v, i) && QueueInv(v) && Backups.Inv(v)
    requires !Serialized(w.ops[i]) || !Current(w.clients[0], w.ops[i])
    requires v.ops[i].pc.Settled? || v.ops[i].pc.Baseline?
    requires w.ops[i].kind.Plain? ==> v.ops[i].pc.Settled?
    requires Running(v.ops[i]) ==> Running(w.ops[i])
    requires v.clients[0].registrySession == None || v.clients[0].registrySession == w.clients[0].registrySession
    ensures Inv(v)
  {
    assert OpInv(w.clients[0], w.ops[i], GateOf(w, w.ops[i]), CopyOf(w, w.ops[i]));
    OwnStepOps(w, v, i);
    OutsiderMarks(w, v, i);
  }

  lemma StartKeeps(w: World, i: nat)
    requires Inv(w) && Enabled(w, Start(i))
    ensures Inv(Step(w, Start(i)))
  {
    StepKeepsQueue(w, Start(i));
    Backups.StepKeeps(w, Start(i));
    StepMoves(w, Start(i));
    if Current(w.clients[0], w.ops[i]) {
      CurrentStart(w, i);
    } else {
      assert OpInv(w.clients[0], w.ops[i], GateOf(w, w.ops[i]), CopyOf(w, w.ops[i]));
      assert w.ops[i].client == 0 && Serialized(w.ops[i]);
      OutsiderMoves(w, Step(w, Start(i)), i);
    }
  }

  /** Call `i` fails before it is answered: only its outcome is new, and no session is marked any longer. */
  ghost predicate LeavesBehind(w: World, v: World, i: nat) {
    && |w.clients| == |v.clients| == 1 && i < |w.ops| == |v.ops|
    && v.ops == w.ops[i := w.ops[i].(left := v.ops[i].left)] && v.ops[i].left.Some?
    && v.gates == w.gates && v.copies == w.copies && v.clients[0] == w.clients[0].(registrySession := None)
  }

  /** Leaving a request behind is leaving the open queue. */
  lemma LeftCallKeeps(c: Client, op: Op, outcome: Outcome, g: Json, d: Option<Stored>)
    requires OpInv(c, op, g, d) && UnderWay(op)
    ensures OpInv(c.(registrySession := None), op.(left := Some(outcome)), g, d)
  {
  }

  lemma LeftBehindOps(w: World, v: World, i: nat)
    requires |w.clients| == 1 && OpsInv(w) && LeavesBehind(w, v, i)
    requires UnderWay(w.ops[i])
    ensures OpsInv(v)
  {
    forall j | 0 <= j < |v.ops| ensures OpInv(v.clients[0], v.ops[j], GateOf(v, v.ops[j]), CopyOf(v, v.ops[j])) {
      if j == i {
        LeftCallKeeps(w.clients[0], w.ops[i], v.ops[i].left.value, GateOf(w, w.ops[i]), CopyOf(w, w.ops[i]));
      } else {
        ForgettingKeeps(w.clients[0], w.ops[j], GateOf(w, w.ops[j]), CopyOf(w, w.ops[j]), None);
      }
    }
  }

  lemma LeftBehindKeeps(w: World, v: World, i: nat)
    requires Inv(w) && LeavesBehind(w, v, i) && QueueInv(v) && Backups.Inv(v) && UnderWay(w.ops[i])
    ensures Inv(v)
  {
    LeftBehindOps(w, v, i);
  }

  lemma FailsUnanswered(w: World, i: nat, how: How)
    requires |w.clients| == 1 && Enabled(w, Wake(i, how)) && !how.Answered? && Unanswered(w.ops[i].pc)
    ensures LeavesBehind(w, Step(w, Wake(i, how)), i)
  {
  }

  lemma WakeKeeps(w: World, i: nat, how: How)
    requires Inv(w) && Enabled(w, Wake(i, how))
    ensures Inv(Step(w, Wake(i, how)))
  {
    StepKeepsQueue(w, Wake(i, how));
    Backups.StepKeeps(w, Wake(i, how));
    StepMoves(w, Wake(i, how));
    var c, op := w.clients[0], w.ops[i];
    if Unanswered(op.pc) {
      FailsUnanswered(w, i, how);
      LeftBehindKeeps(w, Step(w, Wake(i, how)), i);
    } else if Serialized(op) && Current(c, op) {
      CurrentWake(w, i, how);
    } else {
      assert OpInv(c, op, GateOf(w, op), CopyOf(w, op));
      if Serialized(op) {
        OutsiderResumes(c, op, Now(w, op.access), how);
      } else {
        PlainResumes(c, op, Now(w, op.access), how);
      }
      OutsiderMoves(w, Step(w, Wake(i, how)), i);
    }
  }

  // ---------------------------------------------------------------- the server acts

  lemma ReconcileTeaches(x: Served, g: Json, connected: bool, e: Option<Stored>, s: Option<Key>)
    requires Running(x.op) && (x.op.pc.Exporting? || x.op.pc.Reading? || x.op.pc.Saving? || x.op.pc.Restoring?)
    requires Knows(x.op, s, x.gate.value, x.copy) && Scanned(x.op.pc)
    ensures var y := Serving(x, g, connected, e); Knows(y.op, s, y.gate.value, y.copy)
  {
  }

  lemma RequestTeaches(x: Served, g: Json, connected: bool, e: Option<Stored>, s: Option<Key>)
    requires Running(x.op) && !(x.op.pc.Exporting? || x.op.pc.Reading? || x.op.pc.Saving? || x.op.pc.Restoring?)
    requires Knows(x.op, s, x.gate.value, x.copy) && Scanned(x.op.pc)
    ensures var y := Serving(x, g, connected, e); Knows(y.op, s, y.gate.value, y.copy)
  {
  }

  lemma ServingTeaches(x: Served, g: Json, connected: bool, e: Option<Stored>, s: Option<Key>)
    requires Running(x.op) && Knows(x.op, s, x.gate.value, x.copy) && Scanned(x.op.pc)
    ensures var y := Serving(x, g, connected, e); Knows(y.op, s, y.gate.value, y.copy)
  {
    if x.op.pc.Exporting? || x.op.pc.Reading? || x.op.pc.Saving? || x.op.pc.Restoring? {
      ReconcileTeaches(x, g, connected, e, s);
    } else {
      RequestTeaches(x, g, connected, e, s);
    }
  }

  /** What one service leaves in the world. */
  ghost predicate ServedIn(w: World, v: World, i: nat, y: Served)
    requires i < |w.ops|
  {
    && v.ops == w.ops[i := y.op] && v.clients == w.clients && v.keys == w.keys && v.nextRevision == y.nextRevision
    && Gate(v, w.ops[i].key.account) == y.gate && Copy(v, w.ops[i].key.account) == y.copy
    && (forall b | b != w.ops[i].key.account :: Gate(v, b) == Gate(w, b) && Copy(v, b) == Copy(w, b))
    && y.op.key == w.ops[i].key && y.op.epoch == w.ops[i].epoch && y.op.access == w.ops[i].access
    && y.op.kind == w.ops[i].kind && y.op.left == w.ops[i].left && Running(y.op)
  }

  lemma ServeInWorld(w: World, i: nat, g: Json, connected: bool)
    requires i < |w.ops| && Running(w.ops[i])
    ensures ServedIn(w, ServeStep(w, i, g, connected), i, Serving(Side(w, i), g, connected, Elsewhere(w, w.ops[i])))
  {
  }

  lemma ServedOpenBusy(w: World, v: World, i: nat, y: Served)
    requires |w.clients| == 1 && i < |w.ops| && Running(w.ops[i]) && ServedIn(w, v, i, y)
    ensures OpenBusy(v) == OpenBusy(w)
    ensures Serialized(w.ops[i]) && Current(w.clients[0], w.ops[i]) ==> OpenBusy(v)
  {
    if OpenBusy(w) {
      var j :| 0 <= j < |w.ops| && Serialized(w.ops[j]) && Running(w.ops[j]) && Current(w.clients[0], w.ops[j]);
      assert Serialized(v.ops[j]) && Running(v.ops[j]) && Current(v.clients[0], v.ops[j]);
    }
    if OpenBusy(v) {
      var j :| 0 <= j < |v.ops| && Serialized(v.ops[j]) && Running(v.ops[j]) && Current(v.clients[0], v.ops[j]);
      assert Serialized(w.ops[j]) && Running(w.ops[j]) && Current(w.clients[0], w.ops[j]);
    }
    if Serialized(w.ops[i]) && Current(w.clients[0], w.ops[i]) {
      assert Serialized(v.ops[i]) && Running(v.ops[i]) && Current(v.clients[0], v.ops[i]);
    }
  }

  lemma SidesKeepStep(g: Json, d: Option<Stored>, g': Json, d': Option<Stored>)
    requires KeepsSides(g, d, g', d') && InStep(g, d)
    ensures InStep(g', d')
  {
  }

  lemma SidesKeepKnowledge(op: Op, s: Option<Key>, g: Json, d: Option<Stored>, g': Json, d': Option<Stored>)
    requires Knows(op, s, g, d) && Scanned(op.pc) && KeepsSides(g, d, g', d')
    ensures Knows(op, s, g', d')
  {
    if InStep(g, d) {
      SidesKeepStep(g, d, g', d');
    }
  }

  lemma UnreliedKnowledge(op: Op, s: Option<Key>, g: Json, d: Option<Stored>, g': Json, d': Option<Stored>)
    requires Knows(op, s, g, d) && !Relies(op)
    ensures Knows(op, s, g', d')
  {
  }

  /** What happens to the account's sides is timely for everybody but the call itself. */
  ghost predicate Unharmed(w: World, i: nat, y: Served)
    requires |w.clients| == 1 && i < |w.ops|
  {
    || (Serialized(w.ops[i]) && Current(w.clients[0], w.ops[i]))
    || KeepsSides(GateOf(w, w.ops[i]), CopyOf(w, w.ops[i]), y.gate.value, y.copy)
    || !Watched(w, w.ops[i].key.account)
  }

  lemma ServedOps(w: World, v: World, i: nat, y: Served)
    requires Inv(w) && i < |w.ops| && Running(w.ops[i]) && ServedIn(w, v, i, y) && Unharmed(w, i, y)
    requires OpInv(w.clients[0], y.op, y.gate.value, y.copy)
    ensures OpsInv(v)
  {
    var c, x := w.clients[0], w.ops[i];
    forall j | 0 <= j < |v.ops| ensures OpInv(c, v.ops[j], GateOf(v, v.ops[j]), CopyOf(v, v.ops[j])) {
      var z := w.ops[j];
      assert OpInv(c, z, GateOf(w, z), CopyOf(w, z));
      if j != i && z.key.account == x.key.account && Serialized(z) && Running(z) && Current(c, z) {
        if Serialized(x) && Current(c, x) {
          OnlyOneRuns(w, i, j);
        } else if KeepsSides(GateOf(w, x), CopyOf(w, x), y.gate.value, y.copy) {
          SidesKeepKnowledge(z, c.registrySession, GateOf(w, x), CopyOf(w, x), y.gate.value, y.copy);
        } else {
          UnreliedKnowledge(z, c.registrySession, GateOf(w, x), CopyOf(w, x), y.gate.value, y.copy);
        }
      }
    }
  }

  lemma ServedKeeps(w: World, v: World, i: nat, y: Served)
    requires Inv(w) && i < |w.ops| && Running(w.ops[i]) && ServedIn(w, v, i, y) && Unharmed(w, i, y)
    requires OpInv(w.clients[0], y.op, y.gate.value, y.copy) && QueueInv(v) && Backups.Inv(v)
    ensures Inv(v)
  {
    ServedOps(w, v, i, y);
    ServedOpenBusy(w, v, i, y);
    var s := w.clients[0].registrySession;
    if !OpenBusy(v) && s.Some? && s.value.account == w.ops[i].key.account {
      SidesKeepStep(GateOf(w, w.ops[i]), CopyOf(w, w.ops[i]), y.gate.value, y.copy);
    }
  }

  lemma PlainIsServed(x: Served, g: Json, connected: bool, e: Option<Stored>)
    requires x.op.kind.Plain? && x.op.pc.Requesting?
    ensures var y := Serving(x, g, connected, e); y.gate == x.gate && y.copy == x.copy && y.op.pc.Requesting?
  {
  }

  lemma ServingScans(x: Served, g: Json, connected: bool, e: Option<Stored>)
    requires Running(x.op) && Scanned(x.op.pc)
    ensures Scanned(Serving(x, g, connected, e).op.pc)
  {
  }

  lemma ServingKeepsOp(c: Client, x: Served, g: Json, connected: bool, e: Option<Stored>)
    requires Running(x.op) && OpInv(c, x.op, x.gate.value, x.copy)
    ensures var y := Serving(x, g, connected, e); OpInv(c, y.op, y.gate.value, y.copy)
  {
    ServingScans(x, g, connected, e);
    if x.op.kind.Plain? {
      PlainIsServed(x, g, connected, e);
    } else if Current(c, x.op) {
      ServingTeaches(x, g, connected, e, c.registrySession);
    }
  }

  lemma ServeKeeps(w: World, i: nat, g: Json, connected: bool)
    requires Inv(w) && Enabled(w, Serve(i, g, connected)) && Timely(w, Serve(i, g, connected))
    ensures Inv(Step(w, Serve(i, g, connected)))
  {
    var e := Serve(i, g, connected);
    StepKeepsQueue(w, e);
    Backups.StepKeeps(w, e);
    var c, x := w.clients[0], Side(w, i);
    assert OpInv(c, x.op, x.gate.value, x.copy) && x.op.client < 1;
    ServeInWorld(w, i, g, connected);
    ServingKeepsOp(c, x, g, connected, Elsewhere(w, x.op));
    if x.op.kind.Plain? {
      PlainIsServed(x, g, connected, Elsewhere(w, x.op));
    }
    ServedKeeps(w, Step(w, e), i, Serving(x, g, connected, Elsewhere(w, x.op)));
  }

  lemma DeclinedKnows(op: Op, s: Option<Key>, g: Json, d: Option<Stored>)
    requires Unanswered(op.pc) && Knows(op, s, g, d)
    ensures Knows(op.(pc := TurnedDown(op.pc)), s, g, d)
  {
  }

  lemma DeclineKeeps(w: World, i: nat)
    requires Inv(w) && Enabled(w, Decline(i))
    ensures Inv(Step(w, Decline(i)))
  {
    StepKeepsQueue(w, Decline(i));
    Backups.StepKeeps(w, Decline(i));
    var c, op, g, d := w.clients[0], w.ops[i], GateOf(w, w.ops[i]), CopyOf(w, w.ops[i]);
    var y := Side(w, i).(op := op.(pc := TurnedDown(op.pc)));
    assert OpInv(c, op, g, d);
    if Serialized(op) && Current(c, op) {
      DeclinedKnows(op, c.registrySession, g, d);
    }
    ServedKeeps(w, Step(w, Decline(i)), i, y);
  }

  // ---------------------------------------------------------------- new calls, new access objects, new sessions

  /** A call is appended; everything else, both sides included, stays. */
  ghost predicate Appended(w: World, v: World) {
    && |w.clients| == |v.clients| == 1
    && v.clients[0].epoch == w.clients[0].epoch && v.clients[0].access == w.clients[0].access
    && v.clients[0].registrySession == w.clients[0].registrySession
    && |v.ops| == |w.ops| + 1 && (forall i | 0 <= i < |w.ops| :: v.ops[i] == w.ops[i])
    && v.gates == w.gates && v.copies == w.copies
    && var op := v.ops[|w.ops|];
       && (Serialized(op) ==> op.pc.Queued?) && (op.kind.Plain? ==> op.pc.Requesting?)
       && Current(w.clients[0], op) && w.clients[0].access == Some(op.access)
  }

  lemma SameClientKeeps(c: Client, c': Client, op: Op, g: Json, d: Option<Stored>)
    requires c'.epoch == c.epoch && c'.access == c.access && c'.registrySession == c.registrySession
    ensures OpInv(c, op, g, d) ==> OpInv(c', op, g, d)
  {
  }

  lemma AppendedOps(w: World, v: World)
    requires Appended(w, v) && OpsInv(w)
    ensures OpsInv(v)
  {
    forall i | 0 <= i < |v.ops| ensures OpInv(v.clients[0], v.ops[i], GateOf(v, v.ops[i]), CopyOf(v, v.ops[i])) {
      if i < |w.ops| {
        SameClientKeeps(w.clients[0], v.clients[0], w.ops[i], GateOf(w, w.ops[i]), CopyOf(w, w.ops[i]));
      }
    }
  }

  lemma AppendKeeps(w: World, v: World)
    requires Inv(w) && QueueInv(v) && Backups.Inv(v) && Appended(w, v)
    ensures Inv(v)
  {
    AppendedOps(w, v);
    if OpenBusy(w) {
      var j :| 0 <= j < |w.ops| && Serialized(w.ops[j]) && Running(w.ops[j]) && Current(w.clients[0], w.ops[j]);
      assert Serialized(v.ops[j]) && Running(v.ops[j]) && Current(v.clients[0], v.ops[j]);
    }
  }

  lemma CallKeeps(w: World, kind: Kind)
    requires Inv(w) && Enabled(w, Call(0, kind))
    ensures Inv(Step(w, Call(0, kind)))
  {
    StepKeepsQueue(w, Call(0, kind));
    Backups.StepKeeps(w, Call(0, kind));
    AppendKeeps(w, Step(w, Call(0, kind)));
  }

  lemma SetAccessOps(w: World, v: World, a: Option<Access>)
    requires Inv(w) && Timely(w, SetAccess(0, a)) && v == Step(w, SetAccess(0, a))
    ensures OpsInv(v)
  {
    forall i | 0 <= i < |v.ops| ensures OpInv(v.clients[0], v.ops[i], GateOf(v, v.ops[i]), CopyOf(v, v.ops[i])) {
      assert OpInv(w.clients[0], w.ops[i], GateOf(w, w.ops[i]), CopyOf(w, w.ops[i]));
      assert w.ops[i].client < 1;
    }
  }

  lemma SetAccessKeeps(w: World, a: Option<Access>)
    requires Inv(w) && Timely(w, SetAccess(0, a))
    ensures Inv(Step(w, SetAccess(0, a)))
  {
    StepKeepsQueue(w, SetAccess(0, a));
    Backups.StepKeeps(w, SetAccess(0, a));
    SetAccessOps(w, Step(w, SetAccess(0, a)), a);
  }

  lemma SameButKeys(w: World, v: World)
    requires |w.clients| == 1 && v.ops == w.ops && v.clients == w.clients && v.gates == w.gates && v.copies == w.copies
    ensures OpsInv(w) ==> OpsInv(v)
    ensures MarkInv(w) ==> MarkInv(v)
  {
    assert forall op :: GateOf(v, op) == GateOf(w, op) && CopyOf(v, op) == CopyOf(w, op);
    assert OpenBusy(v) == OpenBusy(w);
  }

  lemma SetKeyKeeps(w: World, e: Event)
    requires Inv(w) && e.SetKey?
    ensures Inv(Step(w, e))
  {
    StepKeepsQueue(w, e);
    Backups.StepKeeps(w, e);
    SameButKeys(w, Step(w, e));
  }

  lemma StepKeeps(w: World, e: Event)
    requires Inv(w) && Timely(w, e)
    ensures Inv(Step(w, e))
  {
    if Enabled(w, e) {
      match e
      case Call(c, kind) => CallKeeps(w, kind);
      case Start(i) => StartKeeps(w, i);
      case Serve(i, g, connected) => ServeKeeps(w, i, g, connected);
      case Decline(i) => DeclineKeeps(w, i);
      case Wake(i, how) => WakeKeeps(w, i, how);
      case SetAccess(c, a) => SetAccessKeeps(w, a);
      case SetKey(_, _) => SetKeyKeeps(w, e);
    }
  }

  lemma {:induction false} TimelyRunKeeps(w: World, events: seq<Event>)
    requires Inv(w) && TimelyRun(w, events)
    ensures Inv(Run(w, events))
    decreases |events|
  {
    if events != [] {
      StepKeeps(w, events[0]);
      TimelyRunKeeps(Step(w, events[0]), events[1..]);
    }
  }

  lemma InvAgrees(w: World)
    requires Inv(w)
    ensures Agreed(w)
  {
    var s := w.clients[0].registrySession;
    if !Busy(w) && s.Some? {
      assert !OpenBusy(w);
      InStepAgrees(Gate(w, s.value.account).value, Copy(w, s.value.account));
    }
  }

  lemma InitialInv(w: World)
    requires Initial(w) && |w.clients| == 1
    ensures Inv(w)
  {
    Backups.InitialSound(w);
  }

  /** Registry agreement. Over every run of one console, with any failures, refusals, session changes, new access
      objects and late replies, in which no late effect comes under the session's eyes: whenever no serialized call is
      under way and a session is marked reconciled, its live registry and its durable copy are equal or both empty. */
  lemma RegistryAgreement(w: World, events: seq<Event>)
    requires Initial(w) && |w.clients| == 1 && TimelyRun(w, events)
    ensures |Run(w, events).clients| == 1 && Agreed(Run(w, events))
  {
    InitialInv(w);
    TimelyRunKeeps(w, events);
    InvAgrees(Run(w, events));
  }
}
