/** Where the backup protocol's claims stop: what a reconcile left alone does to a change whose backup failed, and
    when it replaces a newer copy. */
module GatewayBoundary {
  import opened Options
  import opened Gateway
  import opened GatewayAgreement
  import Backups = GatewayBackups

  function Put(w: World, i: nat, op: Op): World
    requires i < |w.ops|
  {
    w.(ops := w.ops[i := op])
  }

  /** Call `i` may go on: its console waits for it and still has its access object, and that object its session. */
  ghost predicate Live(w: World, i: nat) {
    && i < |w.ops| && w.ops[i].client < |w.clients| && w.ops[i].left.None?
    && SessionHolds(w.clients[w.ops[i].client], w.ops[i], Now(w, w.ops[i].access))
  }

  function Mark(w: World, i: nat): World
    requires i < |w.ops| && w.ops[i].client < |w.clients|
  {
    var c := w.ops[i].client;
    w.(clients := w.clients[c := w.clients[c].(registrySession := Some(w.ops[i].key))])
  }

  /** One await of call `i`, served and answered. */
  function Round(w: World, i: nat): World {
    Step(Step(w, Serve(i, Null, false)), Wake(i, Answered))
  }

  lemma PutTwice(w: World, i: nat, x: Op, y: Op)
    requires i < |w.ops|
    ensures Put(Put(w, i, x), i, y) == Put(w, i, y)
  {
  }

  lemma SameClient(w: World, i: nat)
    requires i < |w.ops| && w.ops[i].client < |w.clients|
    ensures w.clients[w.ops[i].client := w.clients[w.ops[i].client]] == w.clients
  {
  }

  lemma ExportRound(w: World, i: nat)
    requires Live(w, i) && w.ops[i].pc == Exporting(Waiting)
    ensures Round(w, i) == Put(w, i, w.ops[i].(pc := Reading(Gate(w, w.ops[i].key.account), Waiting)))
  {
    var op, g := w.ops[i], Gate(w, w.ops[i].key.account);
    var served := Step(w, Serve(i, Null, false));
    assert served == Put(w, i, op.(pc := Exporting(Replied(g))));
    SameClient(served, i);
    PutTwice(w, i, op.(pc := Exporting(Replied(g))), op.(pc := Reading(g, Waiting)));
  }

  /** After the durable copy is read, the three ways on. */
  lemma ReadRound(w: World, i: nat)
    requires Live(w, i) && w.ops[i].pc.Reading? && w.ops[i].pc.read.Waiting?
    requires ValidRegistry(w.ops[i].pc.live.value)
    requires var d := Copy(w, w.ops[i].key.account); d.Some? ==> ValidRegistry(d.value.value)
    ensures var op, d := w.ops[i], Copy(w, w.ops[i].key.account);
            Round(w, i) ==
              if !EmptyRegistry(op.pc.live.value) then Put(w, i, op.(pc := Saving(op.pc.live, RevisionOf(d), Waiting)))
              else if d.Some? && !EmptyRegistry(d.value.value) then
                Put(w, i, op.(pc := Restoring(d.value.value, Waiting)))
              else Put(Mark(w, i), i, op.(pc := Reconciled))
  {
    var op, d := w.ops[i], Copy(w, w.ops[i].key.account);
    var reading := op.(pc := Reading(op.pc.live, Replied(d)));
    var served := Step(w, Serve(i, Null, false));
    assert served == Put(w, i, reading);
    var (c', op') := AfterRead(w.clients[op.client], reading, Now(w, op.access));
    assert Step(served, Wake(i, Answered))
        == served.(clients := w.clients[op.client := c'], ops := served.ops[i := op']);
    SameClient(w, i);
    PutTwice(w, i, reading, op');
  }

  lemma SaveRound(w: World, i: nat)
    requires Live(w, i) && w.ops[i].pc.Saving? && w.ops[i].pc.saved.Waiting?
    requires w.ops[i].pc.expected == RevisionOf(Copy(w, w.ops[i].key.account)) < w.nextRevision
    ensures var op, a := w.ops[i], w.ops[i].key.account;
            Round(w, i) == Put(Mark(w, i), i, op.(pc := Reconciled)).(
              copies := w.copies[a := Stored(op.pc.snap.value, w.nextRevision, op.pc.snap.version)],
              nextRevision := w.nextRevision + 1)
  {
    var op, a := w.ops[i], w.ops[i].key.account;
    var saved := op.(pc := Saving(op.pc.snap, op.pc.expected, Replied(())));
    var served := Step(w, Serve(i, Null, false));
    assert served == Put(w, i, saved).(
      copies := w.copies[a := Stored(op.pc.snap.value, w.nextRevision, op.pc.snap.version)],
      nextRevision := w.nextRevision + 1);
    PutTwice(w, i, saved, op.(pc := Reconciled));
  }

  lemma RestoreRound(w: World, i: nat)
    requires Live(w, i) && w.ops[i].pc.Restoring? && w.ops[i].pc.restored.Waiting?
    ensures var op, a := w.ops[i], w.ops[i].key.account;
            Round(w, i) == Put(Mark(w, i), i, op.(pc := Reconciled)).(
              gates := w.gates[a := Snapshot(op.pc.value, Gate(w, a).version + 1)])
  {
    var op, a := w.ops[i], w.ops[i].key.account;
    var restored := op.(pc := Restoring(op.pc.value, Replied(())));
    var served := Step(w, Serve(i, Null, false));
    assert served == Put(w, i, restored).(gates := w.gates[a := Snapshot(op.pc.value, Gate(w, a).version + 1)]);
    PutTwice(w, i, restored, op.(pc := Reconciled));
  }

  /** A reconcile left alone, from its export to its end. */
  function Reconcile(w: World, i: nat): World
    requires i < |w.ops|
  {
    var r := Round(Round(w, i), i);
    if i < |r.ops| && r.ops[i].pc.Reconciled? then r else Round(r, i)
  }

  ghost predicate CopyValid(d: Option<Stored>, next: nat) {
    d.Some? ==> ValidRegistry(d.value.value) && d.value.revision < next
  }

  ghost predicate Ready(w: World, i: nat) {
    && Live(w, i) && w.ops[i].pc == Exporting(Waiting) && w.nextRevision >= 1
    && ValidRegistry(Gate(w, w.ops[i].key.account).value)
    && CopyValid(Copy(w, w.ops[i].key.account), w.nextRevision)
  }

  /** What a save leaves on the two sides. */
  lemma SavedSides(w: World, i: nat)
    requires Live(w, i) && w.ops[i].pc.Saving? && w.ops[i].pc.saved.Waiting?
    requires w.ops[i].pc.expected == RevisionOf(Copy(w, w.ops[i].key.account)) < w.nextRevision
    ensures var op, v := w.ops[i], Round(w, i);
            && v.ops == w.ops[i := op.(pc := Reconciled)] && v.clients == Mark(w, i).clients && v.keys == w.keys
            && v.gates == w.gates
            && Copy(v, op.key.account).Some? && Copy(v, op.key.account).value.value == op.pc.snap.value
  {
    SaveRound(w, i);
  }

  lemma FullGateIsSaved(w: World, i: nat)
    requires Ready(w, i) && !EmptyRegistry(Gate(w, w.ops[i].key.account).value)
    ensures var a, v := w.ops[i].key.account, Reconcile(w, i);
            && i < |v.ops| && v.ops[i].pc.Reconciled?
            && Gate(v, a) == Gate(w, a) && Copy(v, a).Some? && Copy(v, a).value.value == Gate(w, a).value
  {
    ExportRound(w, i);
    ReadRound(Round(w, i), i);
    SavedSides(Round(Round(w, i), i), i);
  }

  lemma LostGateIsRestored(w: World, i: nat)
    requires Ready(w, i) && EmptyRegistry(Gate(w, w.ops[i].key.account).value)
    requires var d := Copy(w, w.ops[i].key.account); d.Some? && !EmptyRegistry(d.value.value)
    ensures var a, v := w.ops[i].key.account, Reconcile(w, i);
            && i < |v.ops| && v.ops[i].pc.Reconciled?
            && Copy(v, a) == Copy(w, a) && Gate(v, a).value == Copy(w, a).value.value
  {
    ExportRound(w, i);
    ReadRound(Round(w, i), i);
    RestoreRound(Round(Round(w, i), i), i);
  }

  lemma EmptySidesStay(w: World, i: nat)
    requires Ready(w, i) && EmptyRegistry(Gate(w, w.ops[i].key.account).value)
    requires var d := Copy(w, w.ops[i].key.account); d.None? || EmptyRegistry(d.value.value)
    ensures var a, v := w.ops[i].key.account, Reconcile(w, i);
            && i < |v.ops| && v.ops[i].pc.Reconciled? && Copy(v, a) == Copy(w, a) && Gate(v, a) == Gate(w, a)
  {
    ExportRound(w, i);
    ReadRound(Round(w, i), i);
  }

  /** A change that reached the gate but not the copy survives the next reconcile exactly when it did not
      leave the gate empty over a non-empty copy; otherwise the old copy comes back. In both cases the
      two sides agree afterwards. */
  lemma ChangeSurvivesReconcileExactly(w: World, i: nat)
    requires Ready(w, i)
    ensures var a, v := w.ops[i].key.account, Reconcile(w, i);
            var g, d := Gate(w, a).value, Copy(w, a);
            var undone := EmptyRegistry(g) && d.Some? && !EmptyRegistry(d.value.value);
            && i < |v.ops| && v.ops[i].pc.Reconciled?
            && InAgreement(v, a)
            && (Gate(v, a).value == g <==> !undone)
            && (undone ==> Gate(v, a).value == d.value.value)
  {
    var a := w.ops[i].key.account;
    var g, d := Gate(w, a).value, Copy(w, a);
    if !EmptyRegistry(g) {
      FullGateIsSaved(w, i);
    } else if d.Some? && !EmptyRegistry(d.value.value) {
      LostGateIsRestored(w, i);
    } else {
      EmptySidesStay(w, i);
    }
  }

  // ---------------------------------------------------------------- when a reconcile replaces a newer copy

  /** The event changes the copy of the account: a conditional write on it lands. */
  predicate CopyLands(w: World, e: Event, a: Account) { Copy(Step(w, e), a) != Copy(w, a) }

  /** It lands the write of a gate that changed after version `n`. */
  predicate NewerLands(w: World, e: Event, a: Account, n: nat) {
    && CopyLands(w, e, a) && e.Serve? && e.i < |w.ops| && w.ops[e.i].key.account == a
    && Writing(w.ops[e.i].pc) && w.ops[e.i].pc.snap.version > n
  }

  lemma CopyChangesByWrites(w: World, e: Event, a: Account)
    requires CopyLands(w, e, a)
    ensures e.Serve? && e.i < |w.ops| && w.ops[e.i].key.account == a && Writing(w.ops[e.i].pc)
    ensures Copy(Step(w, e), a).Some? && Copy(Step(w, e), a).value.version == w.ops[e.i].pc.snap.version
  {
  }

  /** Event `k` lands the write of a newer gate, and no later one lands another. */
  ghost predicate LastLandingIsNewer(w: World, events: seq<Event>, a: Account, n: nat, k: nat) {
    && k < |events| && NewerLands(Run(w, events[..k]), events[k], a, n)
    && forall l | k < l < |events| :: !CopyLands(Run(w, events[..l]), events[l], a)
  }

  lemma LastLandingExtends(w: World, events: seq<Event>, e: Event, a: Account, n: nat, k: nat)
    requires !CopyLands(Run(w, events), e, a)
    ensures LastLandingIsNewer(w, events + [e], a, n, k) <==> LastLandingIsNewer(w, events, a, n, k)
  {
    assert forall l | 0 <= l < |events| :: (events + [e])[..l] == events[..l];
    assert (events + [e])[..|events|] == events;
    if LastLandingIsNewer(w, events + [e], a, n, k) {
      assert k < |events|;
      assert forall l | k < l < |events| :: !CopyLands(Run(w, (events + [e])[..l]), (events + [e])[l], a);
    }
  }

  /** The copy at the end of a run is newer than `n` exactly when the last write that landed was. */
  lemma {:induction false} NewerCopyExactly(w: World, events: seq<Event>, a: Account, n: nat)
    requires Copy(w, a).Some? ==> Copy(w, a).value.version <= n
    ensures var u := Run(w, events);
      (Copy(u, a).Some? && Copy(u, a).value.version > n) <==> exists k: nat :: LastLandingIsNewer(w, events, a, n, k)
    decreases |events|
  {
    if events != [] {
      var front, last := events[..|events| - 1], events[|events| - 1];
      assert events == front + [last];
      RunConcat(w, front, [last]);
      RunOne(Run(w, front), last);
      NewerCopyExactly(w, front, a, n);
      if CopyLands(Run(w, front), last, a) {
        CopyChangesByWrites(Run(w, front), last, a);
        NewestAtTheEnd(w, front, last, a, n);
      } else {
        forall k: nat ensures LastLandingIsNewer(w, events, a, n, k) <==> LastLandingIsNewer(w, front, a, n, k) {
          LastLandingExtends(w, front, last, a, n, k);
        }
      }
    }
  }

  lemma LastIsLast(w: World, events: seq<Event>, a: Account, n: nat, k: nat, l: nat)
    requires LastLandingIsNewer(w, events, a, n, k) && l < |events| && CopyLands(Run(w, events[..l]), events[l], a)
    ensures k >= l
  {
  }

  lemma NewestAtTheEnd(w: World, front: seq<Event>, last: Event, a: Account, n: nat)
    requires CopyLands(Run(w, front), last, a)
    ensures (exists k: nat :: LastLandingIsNewer(w, front + [last], a, n, k)) <==>
            NewerLands(Run(w, front), last, a, n)
  {
    var events := front + [last];
    assert events[..|front|] == front && events[|front|] == last;
    if NewerLands(Run(w, front), last, a, n) {
      assert LastLandingIsNewer(w, events, a, n, |front|);
    }
    forall k: nat | LastLandingIsNewer(w, events, a, n, k) ensures k == |front| {
      LastIsLast(w, events, a, n, k, |front|);
    }
  }

  /** A call's exported gate stays in its hands until it decides. */
  ghost predicate HoldsExport(pc: Pc, g: Snapshot) {
    match pc
    case Queued => false
    case Exporting(r) => r == Replied(g)
    case Reading(live, _) => live == g
    case _ => true
  }

  lemma ServingHoldsExport(x: Served, newGate: Json, connected: bool, elsewhere: Option<Stored>, g: Snapshot)
    requires Running(x.op) && HoldsExport(x.op.pc, g)
    ensures HoldsExport(Serving(x, newGate, connected, elsewhere).op.pc, g)
  {
  }

  lemma ReadLeaves(c: Client, op: Op, now: Option<Key>)
    requires op.pc.Reading? && op.pc.read.Replied?
    ensures var pc := Answer(c, op, now).1.pc; !pc.Queued? && !pc.Exporting? && !pc.Reading?
  {
  }

  lemma ResumeHoldsExport(c: Client, op: Op, now: Option<Key>, how: How, g: Snapshot)
    requires UnderWay(op) && HoldsExport(op.pc, g)
    requires how.Answered? ==> CanAnswer(op.pc)
    requires how.Refused? ==> GatewayAwait(op.pc)
    requires how.Threw? ==> !op.pc.Reconciled?
    ensures HoldsExport(Resume(c, op, now, how).1.pc, g)
  {
    if how.Answered? && op.pc.Reading? {
      ReadLeaves(c, op, now);
    }
  }

  lemma StepHoldsExport(w: World, e: Event, i: nat, g: Snapshot)
    requires i < |w.ops| && HoldsExport(w.ops[i].pc, g)
    ensures var v := Step(w, e);
            i < |v.ops| && HoldsExport(v.ops[i].pc, g) && v.ops[i].key == w.ops[i].key
  {
    if Enabled(w, e) && e.Serve? && e.i == i {
      ServingHoldsExport(Side(w, i), e.newGate, e.connected, Elsewhere(w, w.ops[i]), g);
    } else if Enabled(w, e) && e.Wake? && e.i == i {
      ResumeHoldsExport(w.clients[w.ops[i].client], w.ops[i], Now(w, w.ops[i].access), e.how, g);
    }
  }

  lemma {:induction false} RunHoldsExport(w: World, events: seq<Event>, i: nat, g: Snapshot)
    requires i < |w.ops| && HoldsExport(w.ops[i].pc, g)
    ensures var v := Run(w, events);
            i < |v.ops| && HoldsExport(v.ops[i].pc, g) && v.ops[i].key == w.ops[i].key
    decreases |events|
  {
    if events != [] {
      StepHoldsExport(w, events[0], i, g);
      RunHoldsExport(Step(w, events[0]), events[1..], i, g);
    }
  }

  /** The reconcile path has no such guard as the mutation path: it overwrites whatever copy it reads with the gate
      it exported before. In every run of any number of consoles, the copy becomes older exactly when between the
      export and the read the gate changed and another call's write of the changed gate was the last to land. */
  lemma ReconcileReplacesNewerExactly(w0: World, before: seq<Event>, w: World, between: seq<Event>, u: World, i: nat)
    requires Initial(w0) && w == Run(w0, before) && i < |w.ops| && w.ops[i].pc == Exporting(Waiting)
    requires u == Run(Step(w, Serve(i, Null, false)), between)
    requires Live(u, i) && u.ops[i].pc.Reading? && u.ops[i].pc.read.Waiting?
    requires NonEmpty(Gate(w, w.ops[i].key.account).value)
    requires var d := Copy(u, w.ops[i].key.account); d.Some? ==> ValidRegistry(d.value.value)
    ensures
      var a, exported, v := w.ops[i].key.account, Step(w, Serve(i, Null, false)), Round(Round(u, i), i);
      && Copy(v, a).Some? && Copy(v, a).value.value == Gate(w, a).value
      && ((Copy(u, a).Some? && Copy(v, a).value.version < Copy(u, a).value.version) <==>
          exists k: nat :: LastLandingIsNewer(exported, between, a, Gate(w, a).version, k))
  {
    var op, a, g := w.ops[i], w.ops[i].key.account, Gate(w, w.ops[i].key.account);
    var exported := Step(w, Serve(i, Null, false));
    Backups.InitialSound(w0);
    Backups.RunKeeps(w0, before);
    Backups.StepKeeps(w, Serve(i, Null, false));
    Backups.RunKeeps(exported, between);
    assert Backups.CopySound(Gate(w, a), Copy(w, a), w.nextRevision);
    assert Backups.CopySound(Gate(u, a), Copy(u, a), u.nextRevision);
    ExportServed(w, i);
    RunHoldsExport(exported, between, i, g);
    NewerCopyExactly(exported, between, a, g.version);
    ReadThenSaved(u, i);
  }

  lemma ExportServed(w: World, i: nat)
    requires i < |w.ops| && w.ops[i].pc == Exporting(Waiting)
    ensures var op, v := w.ops[i], Step(w, Serve(i, Null, false));
      && v.ops == w.ops[i := op.(pc := Exporting(Replied(Gate(w, op.key.account))))]
      && v.copies == w.copies && v.gates == w.gates
  {
  }

  lemma ReadThenSaved(u: World, i: nat)
    requires Live(u, i) && u.ops[i].pc.Reading? && u.ops[i].pc.read.Waiting? && NonEmpty(u.ops[i].pc.live.value)
    requires u.nextRevision >= 1 && CopyValid(Copy(u, u.ops[i].key.account), u.nextRevision)
    ensures var a, live, v := u.ops[i].key.account, u.ops[i].pc.live, Round(Round(u, i), i);
            Copy(v, a) == Some(Stored(live.value, u.nextRevision, live.version))
  {
    var op := u.ops[i];
    ReadRound(u, i);
    var r := Round(u, i);
    assert r.ops[i] == op.(pc := Saving(op.pc.live, RevisionOf(Copy(u, op.key.account)), Waiting));
    SaveRound(r, i);
  }
}
