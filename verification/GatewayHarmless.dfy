/** The runs that leave no dangerous request behind, and why every late effect in them is timely. */
module GatewayHarmless {
  import opened Options
  import opened Gateway
  import opened GatewayAgreement
  import opened GatewayQueue
  import Backups = GatewayBackups

  // ---------------------------------------------------------------- what must not be left behind

  /** An unanswered request that can still change the gate. */
  predicate Changer(op: Op) {
    || (op.pc.Restoring? && op.pc.restored.Waiting?)
    || ((op.kind.Mutation? || op.kind.LoginStatus?) && op.pc.Requesting? && op.pc.answer.Waiting?)
  }

  /** The unanswered backup of an emptied gate, over a copy with contents that is still at its baseline. */
  predicate Emptier(op: Op, d: Option<Stored>) {
    && op.pc.BackingUp? && op.pc.saved.Waiting? && IsEmpty(op.pc.snap.value)
    && RevisionOf(d) == op.pc.baseline && HasContent(d)
  }

  /** What a call may still do to a session that starts without it. */
  predicate Dangerous(op: Op, d: Option<Stored>) { Serialized(op) && (Changer(op) || Emptier(op, d)) }

  predicate Endangered(w: World) { exists i | 0 <= i < |w.ops| :: Dangerous(w.ops[i], CopyOf(w, w.ops[i])) }

  /** Call `i` holds its console's access object, and its unanswered request is dangerous. */
  predicate Forsakes(w: World, i: nat) {
    && i < |w.ops| && w.ops[i].client < |w.clients|
    && w.clients[w.ops[i].client].access == Some(w.ops[i].access) && Dangerous(w.ops[i], CopyOf(w, w.ops[i]))
  }

  /** A new access object comes only when no pending call holds it and no request on its way is dangerous, and no
      call of the present object fails while its own is; taking the object away is always harmless. */
  predicate Harmless(w: World, e: Event) {
    match e
    case SetAccess(_, Some(a)) => Unheld(w, a) && !Endangered(w)
    case Wake(i, how) => how.Answered? || !Forsakes(w, i)
    case _ => true
  }

  predicate HarmlessRun(w: World, events: seq<Event>)
    decreases |events|
  {
    events == [] || (Harmless(w, events[0]) && HarmlessRun(Step(w, events[0]), events[1..]))
  }

  // ---------------------------------------------------------------- what such runs keep

  /** A write that can still land on the copy and would change which side is right. */
  predicate Alive(op: Op, d: Option<Stored>) {
    Serialized(op) && Writing(op.pc) && RevisionOf(d) == Names(op.pc) && (NonEmpty(op.pc.snap.value) || HasContent(d))
  }

  predicate Early(pc: Pc) { pc.Exporting? || pc.Reading? || (pc.Saving? && !pc.saved.Replied?) }

  /** Such a write holds the present gate, and its account is not marked by a later session. */
  ghost predicate WriterInv(c: Client, op: Op, g: Json, d: Option<Stored>) {
    Alive(op, d) ==>
      && op.pc.snap.value == g
      && (!Current(c, op) ==> !(c.registrySession.Some? && c.registrySession.value.account == op.key.account))
  }

  /** Beside it, no other call changes the gate, and one of the open queue has not reconciled yet. */
  ghost predicate PairInv(c: Client, op: Op, other: Op, d: Option<Stored>) {
    Alive(op, d) && Serialized(other) && Running(other) && other.key.account == op.key.account ==>
      !Changer(other) && (Current(c, other) ==> Early(other.pc))
  }

  ghost predicate WritersInv(w: World)
    requires |w.clients| == 1
  {
    && (forall i | 0 <= i < |w.ops| :: WriterInv(w.clients[0], w.ops[i], GateOf(w, w.ops[i]), CopyOf(w, w.ops[i])))
    && (forall i, j | 0 <= i < |w.ops| && 0 <= j < |w.ops| && i != j ::
          PairInv(w.clients[0], w.ops[i], w.ops[j], CopyOf(w, w.ops[i])))
  }

  /** Nothing dangerous is on its way beside the open queue. */
  ghost predicate SafeInv(c: Client, op: Op, d: Option<Stored>) {
    !Current(c, op) && c.access.Some? ==> !Dangerous(op, d)
  }

  ghost predicate SafesInv(w: World)
    requires |w.clients| == 1
  {
    forall i | 0 <= i < |w.ops| :: SafeInv(w.clients[0], w.ops[i], CopyOf(w, w.ops[i]))
  }

  ghost predicate Guarded(w: World) { Inv(w) && SafesInv(w) && WritersInv(w) }

  /** Beside a live write of a call from an earlier queue, the gate has contents. */
  lemma LiveWritesHaveContent(c: Client, z: Op, g: Json, d: Option<Stored>)
    requires Scanned(z.pc) && SafeInv(c, z, d) && WriterInv(c, z, g, d) && Alive(z, d)
    requires !Current(c, z) && c.access.Some?
    ensures NonEmpty(g) && z.pc.snap.value == g
  {
  }

  /** No other call has a live write on this call's account. */
  ghost predicate Quiet(w: World, i: nat)
    requires i < |w.ops|
  {
    forall j | 0 <= j < |w.ops| && j != i && w.ops[j].key.account == w.ops[i].key.account ::
      !Alive(w.ops[j], CopyOf(w, w.ops[j]))
  }

  /** The call moves from `x` to `x'`; beside a live write it may only stay early or end. */
  ghost predicate Careful(c: Client, x': Op, c': Client) {
    && (Serialized(x') && Running(x') ==> !Changer(x') && (Current(c, x') ==> Early(x'.pc)))
    && (c'.registrySession == None || c'.registrySession == c.registrySession)
  }

  lemma OwnStepWriters(w: World, v: World, i: nat)
    requires OwnStep(w, v, i) && WritersInv(w)
    requires Quiet(w, i) || Careful(w.clients[0], v.ops[i], v.clients[0])
    requires WriterInv(v.clients[0], v.ops[i], GateOf(w, w.ops[i]), CopyOf(w, w.ops[i]))
    requires Alive(v.ops[i], CopyOf(w, w.ops[i])) ==>
               forall j | 0 <= j < |w.ops| && j != i ::
                 PairInv(w.clients[0], v.ops[i], w.ops[j], CopyOf(w, w.ops[i]))
    ensures WritersInv(v)
  {
    forall j | 0 <= j < |v.ops|
      ensures WriterInv(v.clients[0], v.ops[j], GateOf(v, v.ops[j]), CopyOf(v, v.ops[j]))
    {
      if j != i {
        assert WriterInv(w.clients[0], w.ops[j], GateOf(w, w.ops[j]), CopyOf(w, w.ops[j]));
      }
    }
    forall j, k | 0 <= j < |v.ops| && 0 <= k < |v.ops| && j != k
      ensures PairInv(v.clients[0], v.ops[j], v.ops[k], CopyOf(v, v.ops[j]))
    {
      if j != i {
        assert PairInv(w.clients[0], w.ops[j], w.ops[k], CopyOf(w, w.ops[j]));
      }
    }
  }

  /** A call that has not reconciled over a gate with contents stays early, or ends. */
  lemma EarlyStays(c: Client, op: Op, now: Option<Key>, how: How, g: Json)
    requires UnderWay(op) && Serialized(op) && Early(op.pc) && NonEmpty(g) && !Unanswered(op.pc)
    requires how.Answered? ==> CanAnswer(op.pc)
    requires how.Refused? ==> GatewayAwait(op.pc)
    requires op.pc.Reading? ==> op.pc.live.value == g
    ensures var r := Resume(c, op, now, how); Careful(c, r.1, r.0)
  {
  }

  /** Beside another call's live write, the open queue's call is early over a gate with contents. */
  lemma BesideLiveWrite(w: World, i: nat)
    requires Guarded(w) && i < |w.ops| && Serialized(w.ops[i]) && Running(w.ops[i]) && Current(w.clients[0], w.ops[i])
    ensures Quiet(w, i) || (Early(w.ops[i].pc) && NonEmpty(GateOf(w, w.ops[i])))
  {
    if !Quiet(w, i) {
      var j :| 0 <= j < |w.ops| && j != i && w.ops[j].key.account == w.ops[i].key.account
               && Alive(w.ops[j], CopyOf(w, w.ops[j]));
      assert PairInv(w.clients[0], w.ops[j], w.ops[i], CopyOf(w, w.ops[j]));
      if Current(w.clients[0], w.ops[j]) {
        OnlyOneRuns(w, i, j);
      }
      assert OpInv(w.clients[0], w.ops[i], GateOf(w, w.ops[i]), CopyOf(w, w.ops[i]));
      assert OpInv(w.clients[0], w.ops[j], GateOf(w, w.ops[j]), CopyOf(w, w.ops[j]));
      assert SafeInv(w.clients[0], w.ops[j], CopyOf(w, w.ops[j]));
      assert WriterInv(w.clients[0], w.ops[j], GateOf(w, w.ops[j]), CopyOf(w, w.ops[j]));
      LiveWritesHaveContent(w.clients[0], w.ops[j], GateOf(w, w.ops[j]), CopyOf(w, w.ops[j]));
    }
  }

  lemma OthersAreHarmless(w: World, i: nat, x': Op)
    requires |w.clients| == 1 && SafesInv(w) && i < |w.ops| && w.clients[0].access.Some?
    requires forall j | 0 <= j < |w.ops| && j != i ::
               !(Serialized(w.ops[j]) && Running(w.ops[j]) && Current(w.clients[0], w.ops[j]))
    ensures forall j | 0 <= j < |w.ops| && j != i :: PairInv(w.clients[0], x', w.ops[j], CopyOf(w, x'))
  {
    forall j | 0 <= j < |w.ops| && j != i ensures PairInv(w.clients[0], x', w.ops[j], CopyOf(w, x')) {
      assert SafeInv(w.clients[0], w.ops[j], CopyOf(w, w.ops[j]));
    }
  }

  lemma StartsBesideLiveWrite(w: World, i: nat)
    requires Guarded(w) && i < |w.ops| && !OpenBusy(w) && !Quiet(w, i)
    ensures w.clients[0].registrySession != Some(w.ops[i].key)
  {
    var j :| 0 <= j < |w.ops| && j != i && w.ops[j].key.account == w.ops[i].key.account
             && Alive(w.ops[j], CopyOf(w, w.ops[j]));
    assert WriterInv(w.clients[0], w.ops[j], GateOf(w, w.ops[j]), CopyOf(w, w.ops[j]));
    assert Serialized(w.ops[j]) && Running(w.ops[j]);
  }

  // ---------------------------------------------------------------- a call moves

  lemma OwnStepSafes(w: World, v: World, i: nat)
    requires OwnStep(w, v, i) && SafesInv(w) && SafeInv(v.clients[0], v.ops[i], CopyOf(w, w.ops[i]))
    ensures SafesInv(v)
  {
    forall j | 0 <= j < |v.ops| ensures SafeInv(v.clients[0], v.ops[j], CopyOf(v, v.ops[j])) {
      if j != i {
        assert SafeInv(w.clients[0], w.ops[j], CopyOf(w, w.ops[j]));
      }
    }
  }

  /** The open queue's one running call takes a step. */
  lemma CurrentMoveGuards(w: World, v: World, i: nat)
    requires Guarded(w) && OwnStep(w, v, i) && Inv(v)
    requires Serialized(w.ops[i]) && Current(w.clients[0], w.ops[i]) && w.clients[0].access == Some(w.ops[i].access)
    requires forall j | 0 <= j < |w.ops| && j != i ::
               !(Serialized(w.ops[j]) && Running(w.ops[j]) && Current(w.clients[0], w.ops[j]))
    requires Current(v.clients[0], v.ops[i])
    requires Leaves((v.clients[0], v.ops[i]), GateOf(w, w.ops[i]), CopyOf(w, w.ops[i]))
    requires Quiet(w, i) || Careful(w.clients[0], v.ops[i], v.clients[0])
    ensures Guarded(v)
  {
    OwnStepSafes(w, v, i);
    OthersAreHarmless(w, i, v.ops[i]);
    assert WriterInv(v.clients[0], v.ops[i], GateOf(w, w.ops[i]), CopyOf(w, w.ops[i]));
    OwnStepWriters(w, v, i);
  }

  lemma CurrentStartGuards(w: World, i: nat)
    requires Guarded(w) && Enabled(w, Start(i)) && Current(w.clients[0], w.ops[i]) && Inv(Step(w, Start(i)))
    requires Moves(w, Step(w, Start(i)), i)
    ensures Guarded(Step(w, Start(i)))
  {
    IdleBeforeStart(w, i);
    var op, c := w.ops[i], w.clients[0];
    assert OpInv(c, op, GateOf(w, op), CopyOf(w, op));
    BeginKnows(c, op, Now(w, op.access), GateOf(w, op), CopyOf(w, op));
    if !Quiet(w, i) {
      StartsBesideLiveWrite(w, i);
    }
    CurrentMoveGuards(w, Step(w, Start(i)), i);
  }

  lemma CurrentWakeGuards(w: World, i: nat, how: How)
    requires Guarded(w) && Enabled(w, Wake(i, how)) && !Unanswered(w.ops[i].pc) && Inv(Step(w, Wake(i, how)))
    requires Serialized(w.ops[i]) && Current(w.clients[0], w.ops[i]) && Moves(w, Step(w, Wake(i, how)), i)
    ensures Guarded(Step(w, Wake(i, how)))
  {
    var op, c, g, d := w.ops[i], w.clients[0], GateOf(w, w.ops[i]), CopyOf(w, w.ops[i]);
    assert OpInv(c, op, g, d);
    ResumeKeepsKnowledge(c, op, Now(w, op.access), how, g, d);
    ResumeMarks(c, op, Now(w, op.access), how);
    BesideLiveWrite(w, i);
    if !Quiet(w, i) {
      EarlyStays(c, op, Now(w, op.access), how, g);
    }
    forall j | 0 <= j < |w.ops| && j != i
      ensures !(Serialized(w.ops[j]) && Running(w.ops[j]) && Current(c, w.ops[j]))
    {
      if Serialized(w.ops[j]) && Current(c, w.ops[j]) {
        OnlyOneRuns(w, i, j);
      }
    }
    CurrentMoveGuards(w, Step(w, Wake(i, how)), i);
  }

  lemma OutsiderMoveGuards(w: World, v: World, i: nat)
    requires Guarded(w) && OwnStep(w, v, i) && Inv(v)
    requires v.ops[i].pc.Settled? || v.ops[i].pc.Baseline?
    requires v.clients[0].registrySession == None || v.clients[0].registrySession == w.clients[0].registrySession
    requires !Serialized(w.ops[i]) || !Current(w.clients[0], w.ops[i])
    ensures Guarded(v)
  {
    OwnStepSafes(w, v, i);
    OwnStepWriters(w, v, i);
  }

  lemma StartGuards(w: World, i: nat)
    requires Guarded(w) && Enabled(w, Start(i)) && Inv(Step(w, Start(i)))
    ensures Guarded(Step(w, Start(i)))
  {
    StepMoves(w, Start(i));
    if Current(w.clients[0], w.ops[i]) {
      CurrentStartGuards(w, i);
    } else {
      assert OpInv(w.clients[0], w.ops[i], GateOf(w, w.ops[i]), CopyOf(w, w.ops[i]));
      assert w.ops[i].client == 0 && Serialized(w.ops[i]);
      OutsiderMoveGuards(w, Step(w, Start(i)), i);
    }
  }

  lemma LeftBehindWriters(w: World, v: World, i: nat)
    requires |w.clients| == 1 && WritersInv(w) && LeavesBehind(w, v, i)
    ensures WritersInv(v)
  {
    forall j | 0 <= j < |v.ops| ensures WriterInv(v.clients[0], v.ops[j], GateOf(v, v.ops[j]), CopyOf(v, v.ops[j])) {
      assert WriterInv(w.clients[0], w.ops[j], GateOf(w, w.ops[j]), CopyOf(w, w.ops[j]));
    }
    forall j, k | 0 <= j < |v.ops| && 0 <= k < |v.ops| && j != k
      ensures PairInv(v.clients[0], v.ops[j], v.ops[k], CopyOf(v, v.ops[j]))
    {
      assert PairInv(w.clients[0], w.ops[j], w.ops[k], CopyOf(w, w.ops[j]));
    }
  }

  lemma LeftBehindSafes(w: World, v: World, i: nat)
    requires |w.clients| == 1 && SafesInv(w) && LeavesBehind(w, v, i)
    requires w.clients[0].access.Some? ==> !Dangerous(w.ops[i], CopyOf(w, w.ops[i]))
    ensures SafesInv(v)
  {
    forall j | 0 <= j < |v.ops| ensures SafeInv(v.clients[0], v.ops[j], CopyOf(v, v.ops[j])) {
      assert SafeInv(w.clients[0], w.ops[j], CopyOf(w, w.ops[j]));
    }
  }

  /** A call that still waits, and does not hold the access object, is from an earlier queue. */
  lemma FailsSafely(w: World, i: nat)
    requires Guarded(w) && i < |w.ops| && UnderWay(w.ops[i]) && !Forsakes(w, i)
    ensures w.clients[0].access.Some? ==> !Dangerous(w.ops[i], CopyOf(w, w.ops[i]))
  {
    assert w.ops[i].client < 1;
    assert OpInv(w.clients[0], w.ops[i], GateOf(w, w.ops[i]), CopyOf(w, w.ops[i]));
    assert SafeInv(w.clients[0], w.ops[i], CopyOf(w, w.ops[i]));
  }

  lemma WakeGuards(w: World, i: nat, how: How)
    requires Guarded(w) && Enabled(w, Wake(i, how)) && Harmless(w, Wake(i, how)) && Inv(Step(w, Wake(i, how)))
    ensures Guarded(Step(w, Wake(i, how)))
  {
    StepMoves(w, Wake(i, how));
    var c, op, v := w.clients[0], w.ops[i], Step(w, Wake(i, how));
    assert OpInv(c, op, GateOf(w, op), CopyOf(w, op));
    if Unanswered(op.pc) {
      FailsUnanswered(w, i, how);
      FailsSafely(w, i);
      LeftBehindSafes(w, v, i);
      LeftBehindWriters(w, v, i);
    } else if Serialized(op) && Current(c, op) {
      CurrentWakeGuards(w, i, how);
    } else {
      if Serialized(op) {
        OutsiderResumes(c, op, Now(w, op.access), how);
      } else {
        PlainResumes(c, op, Now(w, op.access), how);
      }
      OutsiderMoveGuards(w, v, i);
    }
  }

  // ---------------------------------------------------------------- the server acts

  /** The server answers without touching gate or copy. */
  predicate Untouched(x: Served, y: Served) { y.gate == x.gate && y.copy == x.copy }

  /** It lands a conditional write: the snapshot becomes the copy, under a fresh revision. */
  predicate Landed(x: Served, y: Served) {
    && Writing(x.op.pc) && RevisionOf(x.copy) == Names(x.op.pc) && y.gate == x.gate
    && y.copy == Some(Stored(x.op.pc.snap.value, x.nextRevision, x.op.pc.snap.version))
    && !Writing(y.op.pc) && !Changer(y.op)
  }

  /** It changes the gate. */
  predicate Changed(x: Served, y: Served) { Changer(x.op) && y.copy == x.copy && !Writing(y.op.pc) && !Changer(y.op) }

  lemma ServingEffects(x: Served, g: Json, connected: bool, e: Option<Stored>)
    requires Running(x.op) && (x.op.kind.Plain? ==> x.op.pc.Requesting?)
    requires x.copy.Some? ==> x.copy.value.revision < x.nextRevision
    ensures var y := Serving(x, g, connected, e);
      && (Untouched(x, y) || Landed(x, y) || Changed(x, y))
      && (Untouched(x, y) ==>
            && (Writing(y.op.pc) ==> y.op.pc == x.op.pc)
            && (Changer(y.op) ==> Changer(x.op))
            && (Early(x.op.pc) ==> Early(y.op.pc)))
      && (x.op.kind.Plain? ==> Untouched(x, y) && y.op.pc.Requesting?)
      && (Scanned(x.op.pc) ==> Scanned(y.op.pc))
  {
  }

  lemma UntouchedGuards(w: World, v: World, i: nat, y: Served)
    requires Guarded(w) && i < |w.ops| && Running(w.ops[i]) && ServedIn(w, v, i, y) && OwnStep(w, v, i) && Inv(v)
    requires (Writing(y.op.pc) ==> y.op.pc == w.ops[i].pc) && (Changer(y.op) ==> Changer(w.ops[i]))
    requires Early(w.ops[i].pc) ==> Early(y.op.pc)
    ensures Guarded(v)
  {
    var c, x, g, d := w.clients[0], w.ops[i], GateOf(w, w.ops[i]), CopyOf(w, w.ops[i]);
    assert SafeInv(c, x, d);
    OwnStepSafes(w, v, i);
    if !Quiet(w, i) {
      var j :| 0 <= j < |w.ops| && j != i && w.ops[j].key.account == x.key.account
               && Alive(w.ops[j], CopyOf(w, w.ops[j]));
      assert PairInv(c, w.ops[j], w.ops[i], CopyOf(w, w.ops[j]));
    }
    assert WriterInv(c, x, g, d);
    assert Alive(y.op, d) ==> Alive(x, d) && y.op.pc == x.pc;
    forall j | 0 <= j < |w.ops| && j != i && Alive(y.op, d) ensures PairInv(c, y.op, w.ops[j], d) {
      assert PairInv(c, w.ops[i], w.ops[j], CopyOf(w, w.ops[i]));
    }
    OwnStepWriters(w, v, i);
  }

  /** After a write lands, every other write on the account names an old revision. */
  lemma FreshRevision(w: World, v: World, i: nat, y: Served, j: nat)
    requires Inv(w) && i < |w.ops| && ServedIn(w, v, i, y) && Landed(Side(w, i), y) && j < |w.ops|
    requires w.ops[j].key.account == w.ops[i].key.account
    ensures !Alive(v.ops[j], CopyOf(v, v.ops[j]))
    ensures j != i && w.ops[j].pc.BackingUp? ==> y.copy.value.revision != w.ops[j].pc.baseline
  {
    assert Backups.OpSound(w.ops[j], Gate(w, w.ops[j].key.account), Copy(w, w.ops[j].key.account), w.nextRevision);
  }

  lemma LandedWriters(w: World, v: World, i: nat, y: Served)
    requires Guarded(w) && i < |w.ops| && ServedIn(w, v, i, y) && Landed(Side(w, i), y)
    ensures WritersInv(v)
  {
    var c := w.clients[0];
    forall j | 0 <= j < |v.ops|
      ensures WriterInv(c, v.ops[j], GateOf(v, v.ops[j]), CopyOf(v, v.ops[j]))
      ensures forall k | 0 <= k < |v.ops| && k != j :: PairInv(c, v.ops[j], v.ops[k], CopyOf(v, v.ops[j]))
    {
      if w.ops[j].key.account == w.ops[i].key.account {
        FreshRevision(w, v, i, y, j);
      } else {
        assert WriterInv(c, w.ops[j], GateOf(w, w.ops[j]), CopyOf(w, w.ops[j]));
        forall k | 0 <= k < |v.ops| && k != j ensures PairInv(c, v.ops[j], v.ops[k], CopyOf(v, v.ops[j])) {
          assert PairInv(c, w.ops[j], w.ops[k], CopyOf(w, w.ops[j]));
        }
      }
    }
  }

  lemma LandedSafes(w: World, v: World, i: nat, y: Served)
    requires Guarded(w) && i < |w.ops| && ServedIn(w, v, i, y) && Landed(Side(w, i), y)
    ensures SafesInv(v)
  {
    forall j | 0 <= j < |v.ops| ensures SafeInv(v.clients[0], v.ops[j], CopyOf(v, v.ops[j])) {
      assert SafeInv(w.clients[0], w.ops[j], CopyOf(w, w.ops[j]));
      if w.ops[j].key.account == w.ops[i].key.account {
        FreshRevision(w, v, i, y, j);
      }
    }
  }

  /** A change of the gate finds no live write on its account. */
  lemma ChangerIsQuiet(w: World, i: nat)
    requires Guarded(w) && i < |w.ops| && Serialized(w.ops[i]) && Running(w.ops[i]) && Changer(w.ops[i])
    ensures Quiet(w, i) && !Alive(w.ops[i], CopyOf(w, w.ops[i]))
    ensures !Current(w.clients[0], w.ops[i]) ==> w.clients[0].access.None? && !OpenBusy(w)
  {
    var c := w.clients[0];
    assert SafeInv(c, w.ops[i], CopyOf(w, w.ops[i]));
    forall j | 0 <= j < |w.ops| && j != i && w.ops[j].key.account == w.ops[i].key.account
      ensures !Alive(w.ops[j], CopyOf(w, w.ops[j]))
    {
      assert PairInv(c, w.ops[j], w.ops[i], CopyOf(w, w.ops[j]));
    }
    if c.access.None? {
      forall j | 0 <= j < |w.ops| && Serialized(w.ops[j]) && Running(w.ops[j]) ensures !Current(c, w.ops[j]) {
        assert OpInv(c, w.ops[j], GateOf(w, w.ops[j]), CopyOf(w, w.ops[j]));
      }
    }
  }

  lemma ChangedWriters(w: World, v: World, i: nat, y: Served)
    requires Guarded(w) && i < |w.ops| && ServedIn(w, v, i, y) && Changed(Side(w, i), y)
    requires Quiet(w, i) && !Alive(w.ops[i], CopyOf(w, w.ops[i]))
    ensures WritersInv(v)
  {
    var c := w.clients[0];
    forall j | 0 <= j < |v.ops|
      ensures WriterInv(c, v.ops[j], GateOf(v, v.ops[j]), CopyOf(v, v.ops[j]))
      ensures forall k | 0 <= k < |v.ops| && k != j :: PairInv(c, v.ops[j], v.ops[k], CopyOf(v, v.ops[j]))
    {
      if w.ops[j].key.account == w.ops[i].key.account {
        assert !Alive(v.ops[j], CopyOf(v, v.ops[j]));
      } else {
        assert WriterInv(c, w.ops[j], GateOf(w, w.ops[j]), CopyOf(w, w.ops[j]));
        forall k | 0 <= k < |v.ops| && k != j ensures PairInv(c, v.ops[j], v.ops[k], CopyOf(v, v.ops[j])) {
          assert PairInv(c, w.ops[j], w.ops[k], CopyOf(w, w.ops[j]));
        }
      }
    }
  }

  lemma ChangedSafes(w: World, v: World, i: nat, y: Served)
    requires |w.clients| == 1 && SafesInv(w) && i < |w.ops| && ServedIn(w, v, i, y) && Changed(Side(w, i), y)
    ensures SafesInv(v)
  {
    forall j | 0 <= j < |v.ops| ensures SafeInv(v.clients[0], v.ops[j], CopyOf(v, v.ops[j])) {
      assert SafeInv(w.clients[0], w.ops[j], CopyOf(w, w.ops[j]));
    }
  }

  /** A late write that lands carries the gate's contents, or changes nothing that counts. */
  lemma LateWriteKeepsSides(w: World, i: nat, y: Served)
    requires Guarded(w) && i < |w.ops| && Late(w, i) && Landed(Side(w, i), y) && w.clients[0].access.Some?
    ensures KeepsSides(GateOf(w, w.ops[i]), CopyOf(w, w.ops[i]), y.gate.value, y.copy)
  {
    var c, x := w.clients[0], w.ops[i];
    assert x.client < 1;
    assert OpInv(c, x, GateOf(w, x), CopyOf(w, x)) && SafeInv(c, x, CopyOf(w, x));
    assert WriterInv(c, x, GateOf(w, x), CopyOf(w, x));
    if Alive(x, CopyOf(w, x)) {
      LiveWritesHaveContent(c, x, GateOf(w, x), CopyOf(w, x));
    }
  }

  /** Without an access object nobody watches. */
  lemma NobodyWatches(w: World, a: Account)
    requires Inv(w) && w.clients[0].access.None?
    ensures !Watched(w, a)
  {
    forall j | 0 <= j < |w.ops| && Serialized(w.ops[j]) && Running(w.ops[j]) ensures !Current(w.clients[0], w.ops[j]) {
      assert OpInv(w.clients[0], w.ops[j], GateOf(w, w.ops[j]), CopyOf(w, w.ops[j]));
    }
  }

  /** In such runs every effect is timely. */
  lemma HarmlessIsTimely(w: World, e: Event)
    requires Guarded(w) && Harmless(w, e)
    ensures Timely(w, e)
  {
    if e.Serve? && Late(w, e.i) && Enabled(w, e) {
      var x, y := Side(w, e.i), Serving(Side(w, e.i), e.newGate, e.connected, Elsewhere(w, w.ops[e.i]));
      assert w.ops[e.i].client < 1;
      assert OpInv(w.clients[0], x.op, x.gate.value, x.copy) && SafeInv(w.clients[0], x.op, x.copy);
      assert Backups.CopySound(Gate(w, x.op.key.account), Copy(w, x.op.key.account), w.nextRevision);
      ServeInWorld(w, e.i, e.newGate, e.connected);
      ServingEffects(x, e.newGate, e.connected, Elsewhere(w, x.op));
      if w.clients[0].access.None? {
        NobodyWatches(w, x.op.key.account);
      } else if Landed(x, y) {
        LateWriteKeepsSides(w, e.i, y);
      }
    }
  }

  lemma ServeGuards(w: World, i: nat, g: Json, connected: bool)
    requires Guarded(w) && Enabled(w, Serve(i, g, connected)) && Inv(Step(w, Serve(i, g, connected)))
    ensures Guarded(Step(w, Serve(i, g, connected)))
  {
    StepMoves(w, Serve(i, g, connected));
    var v, op := Step(w, Serve(i, g, connected)), w.ops[i];
    var x, y := Side(w, i), Serving(Side(w, i), g, connected, Elsewhere(w, op));
    assert OpInv(w.clients[0], op, x.gate.value, x.copy);
    assert Backups.CopySound(Gate(w, op.key.account), Copy(w, op.key.account), w.nextRevision);
    ServeInWorld(w, i, g, connected);
    ServingEffects(x, g, connected, Elsewhere(w, op));
    if Untouched(x, y) {
      UntouchedInWorld(w, i, g, connected);
      UntouchedGuards(w, v, i, y);
    } else if Landed(x, y) {
      LandedSafes(w, v, i, y);
      LandedWriters(w, v, i, y);
    } else {
      ChangerIsQuiet(w, i);
      ChangedSafes(w, v, i, y);
      ChangedWriters(w, v, i, y);
    }
  }

  lemma UntouchedInWorld(w: World, i: nat, g: Json, connected: bool)
    requires i < |w.ops| && Running(w.ops[i])
    requires Untouched(Side(w, i), Serving(Side(w, i), g, connected, Elsewhere(w, w.ops[i])))
    ensures ServeStep(w, i, g, connected).gates == w.gates && ServeStep(w, i, g, connected).copies == w.copies
  {
  }

  lemma DeclineGuards(w: World, i: nat)
    requires Guarded(w) && Enabled(w, Decline(i)) && Inv(Step(w, Decline(i)))
    ensures Guarded(Step(w, Decline(i)))
  {
    StepMoves(w, Decline(i));
    UntouchedGuards(w, Step(w, Decline(i)), i, Side(w, i).(op := w.ops[i].(pc := TurnedDown(w.ops[i].pc))));
  }

  // ---------------------------------------------------------------- new calls, new access objects, new sessions

  lemma AppendedWriters(w: World, v: World)
    requires Appended(w, v) && WritersInv(w)
    ensures WritersInv(v)
  {
    forall i | 0 <= i < |v.ops| ensures WriterInv(v.clients[0], v.ops[i], GateOf(v, v.ops[i]), CopyOf(v, v.ops[i])) {
      if i < |w.ops| {
        assert WriterInv(w.clients[0], w.ops[i], GateOf(w, w.ops[i]), CopyOf(w, w.ops[i]));
      }
    }
    forall i, j | 0 <= i < |v.ops| && 0 <= j < |v.ops| && i != j
      ensures PairInv(v.clients[0], v.ops[i], v.ops[j], CopyOf(v, v.ops[i]))
    {
      if i < |w.ops| && j < |w.ops| {
        assert PairInv(w.clients[0], w.ops[i], w.ops[j], CopyOf(w, w.ops[i]));
      }
    }
  }

  lemma CallGuards(w: World, kind: Kind)
    requires Guarded(w) && Enabled(w, Call(0, kind)) && Inv(Step(w, Call(0, kind)))
    ensures Guarded(Step(w, Call(0, kind)))
  {
    var v := Step(w, Call(0, kind));
    AppendedWriters(w, v);
    forall j | 0 <= j < |v.ops| ensures SafeInv(v.clients[0], v.ops[j], CopyOf(v, v.ops[j])) {
      if j < |w.ops| {
        assert SafeInv(w.clients[0], w.ops[j], CopyOf(w, w.ops[j]));
      }
    }
  }

  lemma SetAccessGuards(w: World, a: Option<Access>)
    requires Guarded(w) && Harmless(w, SetAccess(0, a)) && Inv(Step(w, SetAccess(0, a)))
    ensures Guarded(Step(w, SetAccess(0, a)))
  {
    var c, v := w.clients[0], Step(w, SetAccess(0, a));
    forall i | 0 <= i < |v.ops| ensures WriterInv(v.clients[0], v.ops[i], GateOf(v, v.ops[i]), CopyOf(v, v.ops[i])) {
      assert WriterInv(c, w.ops[i], GateOf(w, w.ops[i]), CopyOf(w, w.ops[i]));
    }
    forall i, j | 0 <= i < |v.ops| && 0 <= j < |v.ops| && i != j
      ensures PairInv(v.clients[0], v.ops[i], v.ops[j], CopyOf(v, v.ops[i]))
    {
      assert PairInv(c, w.ops[i], w.ops[j], CopyOf(w, w.ops[i]));
      assert w.ops[j].client < 1;
    }
  }

  lemma SameButKeysGuards(w: World, v: World)
    requires |w.clients| == 1 && v.ops == w.ops && v.clients == w.clients && v.gates == w.gates && v.copies == w.copies
    ensures SafesInv(w) ==> SafesInv(v)
    ensures WritersInv(w) ==> WritersInv(v)
  {
    assert forall op :: GateOf(v, op) == GateOf(w, op) && CopyOf(v, op) == CopyOf(w, op);
  }

  lemma HarmlessStepGuards(w: World, e: Event)
    requires Guarded(w) && Harmless(w, e)
    ensures Guarded(Step(w, e))
  {
    HarmlessIsTimely(w, e);
    StepKeeps(w, e);
    if Enabled(w, e) {
      match e
      case Call(c, kind) => CallGuards(w, kind);
      case Start(i) => StartGuards(w, i);
      case Serve(i, g, connected) => ServeGuards(w, i, g, connected);
      case Decline(i) => DeclineGuards(w, i);
      case Wake(i, how) => WakeGuards(w, i, how);
      case SetAccess(c, a) => SetAccessGuards(w, a);
      case SetKey(_, _) => SameButKeysGuards(w, Step(w, e));
    }
  }

  /** A run that leaves no dangerous request behind has timely effects only, so registry agreement holds in it. */
  lemma {:induction false} HarmlessRunIsTimely(w: World, events: seq<Event>)
    requires Guarded(w) && HarmlessRun(w, events)
    ensures TimelyRun(w, events) && Guarded(Run(w, events))
    decreases |events|
  {
    if events != [] {
      HarmlessIsTimely(w, events[0]);
      HarmlessStepGuards(w, events[0]);
      HarmlessRunIsTimely(Step(w, events[0]), events[1..]);
    }
  }

  lemma InitialGuarded(w: World)
    requires Initial(w) && |w.clients| == 1
    ensures Guarded(w)
  {
    InitialInv(w);
  }

  /** From fresh consoles on: whoever leaves nothing dangerous behind has registry agreement. */
  lemma HarmlessAgreement(w: World, events: seq<Event>)
    requires Initial(w) && |w.clients| == 1 && HarmlessRun(w, events)
    ensures TimelyRun(w, events) && |Run(w, events).clients| == 1 && Agreed(Run(w, events))
  {
    InitialGuarded(w);
    HarmlessRunIsTimely(w, events);
    RegistryAgreement(w, events);
  }
}
