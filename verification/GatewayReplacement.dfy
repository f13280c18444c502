/** When exactly `setHostedGatewayAccess` may bring a new access object while calls are pending: the calls whose
    unanswered request spoils the new session's registry, and for each a continuation in which it does. */
module GatewayReplacement {
  import opened Options
  import opened Gateway
  import opened GatewayAgreement
  import opened GatewayBoundary
  import opened GatewayHarmless
  import opened GatewayQueue
  import Backups = GatewayBackups

  predicate NoReplacement(events: seq<Event>) { forall e | e in events :: !e.SetAccess? }

  lemma {:induction false} HarmlessConcat(w: World, a: seq<Event>, b: seq<Event>)
    requires HarmlessRun(w, a) && HarmlessRun(Run(w, a), b)
    ensures HarmlessRun(w, a + b)
    decreases |a|
  {
    if a == [] {
      assert a + b == b;
    } else {
      assert (a + b)[0] == a[0] && (a + b)[1..] == a[1..] + b;
      HarmlessConcat(Step(w, a[0]), a[1..], b);
    }
  }

  lemma HarmlessOne(w: World, e: Event)
    requires Harmless(w, e)
    ensures HarmlessRun(w, [e])
  {
    assert [e][1..] == [];
    assert HarmlessRun(Step(w, e), []);
  }

  /** A run that brings no new access object and leaves no dangerous request of the present one behind. */
  ghost predicate Calm(w: World, events: seq<Event>) { NoReplacement(events) && HarmlessRun(w, events) }

  /** Some calm run leads from `w` to `v`. */
  ghost predicate Reaches(w: World, v: World) { exists events :: Calm(w, events) && Run(w, events) == v }

  lemma ReachesSelf(w: World)
    ensures Reaches(w, w)
  {
    assert Calm(w, []) && Run(w, []) == w;
  }

  lemma ReachesStep(w: World, v: World, e: Event)
    requires Reaches(w, v) && !e.SetAccess? && Harmless(v, e)
    ensures Reaches(w, Step(v, e))
  {
    var events :| Calm(w, events) && Run(w, events) == v;
    RunConcat(w, events, [e]);
    RunOne(v, e);
    HarmlessOne(v, e);
    HarmlessConcat(w, events, [e]);
    assert Calm(w, events + [e]);
  }

  lemma ReachesRound(w: World, v: World, n: nat)
    requires Reaches(w, v)
    ensures Reaches(w, Round(v, n))
  {
    ReachesStep(w, v, Serve(n, Null, false));
    ReachesStep(w, Step(v, Serve(n, Null, false)), Wake(n, Answered));
  }

  lemma ReachesOn(w: World, v: World, u: World)
    requires Reaches(w, v) && Reaches(v, u)
    ensures Reaches(w, u)
  {
    var a :| Calm(w, a) && Run(w, a) == v;
    var b :| Calm(v, b) && Run(v, b) == u;
    RunConcat(w, a, b);
    HarmlessConcat(w, a, b);
    assert Calm(w, a + b);
  }

  // ---------------------------------------------------------------- the new session's own calls

  /** The one console has a fresh session `k` on access object `x`, its queue is free, and the documents of the
      account are valid. */
  ghost predicate Base(v: World, x: Access, k: Key) {
    && |v.clients| == 1 && v.clients[0].access == Some(x) && v.clients[0].registrySession == None
    && x in v.keys && v.keys[x] == k
    && (v.clients[0].tail.Some? ==> v.clients[0].tail.value < |v.ops| && Ended(v.ops[v.clients[0].tail.value]))
    && v.nextRevision >= 1 && CopyValid(Copy(v, k.account), v.nextRevision)
    && ValidRegistry(Gate(v, k.account).value)
  }

  function NewOp(v: World, x: Access, k: Key, kind: Kind): Op
    requires |v.clients| == 1
  {
    Op(0, v.clients[0].epoch, x, k, kind, v.clients[0].tail, Exporting(Waiting), false, false, None, None,
       None)
  }

  /** A call, begun at once. */
  function Open(v: World, kind: Kind): World { Step(Step(v, Call(0, kind)), Start(|v.ops|)) }

  lemma Opens(v: World, x: Access, k: Key, kind: Kind)
    requires Base(v, x, k) && !kind.Plain?
    ensures Open(v, kind)
         == v.(clients := [v.clients[0].(tail := Some(|v.ops|))], ops := v.ops + [NewOp(v, x, k, kind)])
    ensures Ready(Open(v, kind), |v.ops|)
    ensures Reaches(v, Open(v, kind))
  {
    var n, op := |v.ops|, NewOp(v, x, k, kind);
    var called := Step(v, Call(0, kind));
    var queued := op.(pc := Queued);
    assert called == v.(clients := [v.clients[0].(tail := Some(n))], ops := v.ops + [queued]);
    assert (v.ops + [queued])[n := op] == v.ops + [op];
    assert Enabled(called, Start(n));
    ReachesSelf(v);
    ReachesStep(v, v, Call(0, kind));
    ReachesStep(v, called, Start(n));
  }

  /** What a reconcile left alone leaves: the call goes on, its session is marked, the copy stays valid. */
  ghost predicate HasReconciled(w: World, v: World, n: nat)
    requires n < |w.ops| && w.ops[n].client < |w.clients|
  {
    && v.ops == w.ops[n := w.ops[n].(pc := Reconciled)] && v.clients == Mark(w, n).clients && v.keys == w.keys
    && v.nextRevision >= w.nextRevision && CopyValid(Copy(v, w.ops[n].key.account), v.nextRevision)
  }

  lemma SaveReconciles(w: World, n: nat)
    requires Live(w, n) && w.ops[n].pc.Saving? && w.ops[n].pc.saved.Waiting? && ValidRegistry(w.ops[n].pc.snap.value)
    requires w.ops[n].pc.expected == RevisionOf(Copy(w, w.ops[n].key.account)) < w.nextRevision
    ensures HasReconciled(w, Round(w, n), n)
  {
    SaveRound(w, n);
  }

  lemma RestoreReconciles(w: World, n: nat)
    requires Live(w, n) && w.ops[n].pc.Restoring? && w.ops[n].pc.restored.Waiting?
    requires CopyValid(Copy(w, w.ops[n].key.account), w.nextRevision)
    ensures HasReconciled(w, Round(w, n), n)
  {
    RestoreRound(w, n);
  }

  /** Only the place of call `n` differs between the two worlds. */
  lemma SameButPlace(w: World, u: World, v: World, n: nat, op: Op)
    requires Live(w, n) && u == Put(w, n, op) && SamePlace(w.ops[n], op) && w.ops[n] == op.(pc := w.ops[n].pc)
    requires HasReconciled(u, v, n)
    ensures HasReconciled(w, v, n)
  {
    PutTwice(w, n, op, w.ops[n].(pc := Reconciled));
  }

  lemma EmptyReconciles(w: World, n: nat)
    requires Live(w, n) && CopyValid(Copy(w, w.ops[n].key.account), w.nextRevision)
    ensures HasReconciled(w, Put(Mark(w, n), n, w.ops[n].(pc := Reconciled)), n)
  {
  }

  lemma ReadReconciles(w: World, n: nat)
    requires Live(w, n) && w.ops[n].pc.Reading? && w.ops[n].pc.read.Waiting? && w.nextRevision >= 1
    requires ValidRegistry(w.ops[n].pc.live.value) && CopyValid(Copy(w, w.ops[n].key.account), w.nextRevision)
    ensures var r := Round(w, n);
            HasReconciled(w, if n < |r.ops| && r.ops[n].pc.Reconciled? then r else Round(r, n), n)
  {
    var op, d, r := w.ops[n], Copy(w, w.ops[n].key.account), Round(w, n);
    ReadRound(w, n);
    if !EmptyRegistry(op.pc.live.value) {
      var saving := op.(pc := Saving(op.pc.live, RevisionOf(d), Waiting));
      assert r == Put(w, n, saving);
      SaveReconciles(r, n);
      SameButPlace(w, r, Round(r, n), n, saving);
    } else if d.Some? && !EmptyRegistry(d.value.value) {
      var restoring := op.(pc := Restoring(d.value.value, Waiting));
      assert r == Put(w, n, restoring);
      RestoreReconciles(r, n);
      SameButPlace(w, r, Round(r, n), n, restoring);
    } else {
      EmptyReconciles(w, n);
    }
  }

  lemma Reconciles(w: World, n: nat)
    requires Ready(w, n)
    ensures HasReconciled(w, Reconcile(w, n), n)
  {
    var reading := w.ops[n].(pc := Reading(Gate(w, w.ops[n].key.account), Waiting));
    ExportRound(w, n);
    var r := Round(w, n);
    assert r == Put(w, n, reading);
    ReadReconciles(r, n);
    SameButPlace(w, r, Reconcile(w, n), n, reading);
  }

  lemma ReconcileReached(w: World, n: nat)
    requires n < |w.ops|
    ensures Reaches(w, Reconcile(w, n))
  {
    ReachesSelf(w);
    ReachesRound(w, w, n);
    ReachesRound(w, Round(w, n), n);
    ReachesRound(w, Round(Round(w, n), n), n);
  }

  // ---------------------------------------------------------------- a mutation that reaches the gate only

  lemma BaselineAsked(w: World, n: nat)
    requires Live(w, n) && w.ops[n].pc.Reconciled? && w.ops[n].kind.Mutation?
    ensures Step(w, Wake(n, Answered)) == Put(w, n, w.ops[n].(pc := Baseline(Some(w.ops[n].key.account), Waiting)))
  {
    SameClient(w, n);
  }

  lemma BaselineRound(w: World, n: nat)
    requires Live(w, n) && w.ops[n].pc == Baseline(Some(w.ops[n].key.account), Waiting)
    ensures Round(w, n) == Put(w, n, w.ops[n].(pc := Requesting(RevisionOf(Copy(w, w.ops[n].key.account)), Waiting)))
  {
    var op, d := w.ops[n], Copy(w, w.ops[n].key.account);
    var based := op.(pc := Baseline(Some(op.key.account), Replied(d)));
    var served := Step(w, Serve(n, Null, false));
    assert served == Put(w, n, based);
    SameClient(served, n);
    PutTwice(w, n, based, op.(pc := Requesting(RevisionOf(d), Waiting)));
  }

  /** Call `i`'s request takes effect: only the gate of its account and its own place change. */
  ghost predicate GateSet(w: World, v: World, i: nat, value: Json)
    requires i < |w.ops|
  {
    && |v.ops| == |w.ops| && v.ops == w.ops[i := v.ops[i]] && SamePlace(w.ops[i], v.ops[i]) && Running(v.ops[i])
    && CanAnswer(v.ops[i].pc) && !v.ops[i].pc.Reconciled? && v.ops[i].left == w.ops[i].left
    && v.clients == w.clients && v.keys == w.keys && v.copies == w.copies && v.nextRevision == w.nextRevision
    && Gate(v, w.ops[i].key.account).value == value
  }

  lemma ChangerLands(w: World, i: nat, z: Json)
    requires i < |w.ops| && Changer(w.ops[i])
    ensures GateSet(w, Step(w, Serve(i, z, true)), i, if w.ops[i].pc.Restoring? then w.ops[i].pc.value else z)
  {
  }

  /** A pending call ends: its request throws. */
  lemma CallThrows(w: World, i: nat)
    requires |w.clients| == 1 && i < |w.ops| && w.ops[i].client == 0 && UnderWay(w.ops[i]) && !w.ops[i].pc.Reconciled?
    ensures var v := Step(w, Wake(i, Threw));
      && |v.ops| == |w.ops| && v.ops == w.ops[i := v.ops[i]] && SamePlace(w.ops[i], v.ops[i]) && Ended(v.ops[i])
      && v == w.(ops := v.ops, clients := [w.clients[0].(registrySession := None)])
  {
  }

  lemma AnsweredIsHarmless(w: World, i: nat)
    requires i < |w.ops| && CanAnswer(w.ops[i].pc)
    ensures Harmless(w, Wake(i, Threw))
  {
  }

  /** An answered call is over: its request throws, unless it had been left behind before. */
  lemma AnsweredEnds(w: World, i: nat) returns (u: World)
    requires |w.clients| == 1 && i < |w.ops| && w.ops[i].client == 0 && Running(w.ops[i]) && !w.ops[i].pc.Reconciled?
    requires CanAnswer(w.ops[i].pc) && (w.ops[i].left.Some? ==> w.clients[0].registrySession == None)
    ensures Reaches(w, u) && |u.ops| == |w.ops| && u.ops == w.ops[i := u.ops[i]] && Ended(u.ops[i])
    ensures u == w.(ops := u.ops, clients := [w.clients[0].(registrySession := None)])
  {
    ReachesSelf(w);
    if w.ops[i].left.Some? {
      u := w;
    } else {
      CallThrows(w, i);
      AnsweredIsHarmless(w, i);
      ReachesStep(w, w, Wake(i, Threw));
      u := Step(w, Wake(i, Threw));
    }
  }

  /** From the end of its reconcile to its request. */
  lemma AsksForChange(w: World, n: nat) returns (u: World)
    requires Live(w, n) && w.ops[n].pc.Reconciled? && w.ops[n].kind.Mutation?
    ensures Reaches(w, u)
    ensures u == Put(w, n, w.ops[n].(pc := Requesting(RevisionOf(Copy(w, w.ops[n].key.account)), Waiting)))
  {
    BaselineAsked(w, n);
    var asked := Step(w, Wake(n, Answered));
    BaselineRound(asked, n);
    u := Round(asked, n);
    PutTwice(w, n, asked.ops[n], u.ops[n]);
    ReachesSelf(w);
    ReachesStep(w, w, Wake(n, Answered));
    ReachesRound(w, asked, n);
  }

  /** A request changes the gate to `g` and then throws: the session is fresh again. */
  lemma ChangeThrows(w: World, n: nat, x: Access, k: Key, g: Json) returns (u: World)
    requires |w.clients| == 1 && w.clients[0].access == Some(x) && x in w.keys && w.keys[x] == k
    requires n < |w.ops| && w.ops[n].client == 0 && w.ops[n].key == k && w.ops[n].kind.Mutation? && Changer(w.ops[n])
    requires w.ops[n].pc.Requesting? && w.clients[0].tail == Some(n) && ValidRegistry(g)
    requires w.nextRevision >= 1 && CopyValid(Copy(w, k.account), w.nextRevision) && w.ops[n].left.None?
    ensures Base(u, x, k) && Gate(u, k.account).value == g && Reaches(w, u)
    ensures |u.ops| == |w.ops| && Ended(u.ops[n]) && forall j | 0 <= j < |w.ops| && j != n :: u.ops[j] == w.ops[j]
  {
    ChangerLands(w, n, g);
    var landed := Step(w, Serve(n, g, true));
    u := AnsweredEnds(landed, n);
    ReachesSelf(w);
    ReachesStep(w, w, Serve(n, g, true));
    ReachesOn(w, landed, u);
  }

  /** The session runs a mutation that changes the gate to `g` and then throws. */
  lemma MutationFails(v: World, x: Access, k: Key, g: Json) returns (u: World)
    requires Base(v, x, k) && ValidRegistry(g)
    ensures Base(u, x, k) && Gate(u, k.account).value == g && Reaches(v, u)
    ensures |u.ops| == |v.ops| + 1 && Ended(u.ops[|v.ops|]) && forall j | 0 <= j < |v.ops| :: u.ops[j] == v.ops[j]
  {
    var n := |v.ops|;
    var w2 := MutationReconciles(v, x, k);
    var w4 := AsksForChange(w2, n);
    ReachesOn(v, w2, w4);
    u := ChangeThrows(w4, n, x, k, g);
    ReachesOn(v, w4, u);
  }

  lemma OpenedReconciles(v: World, begun: World, u: World, x: Access, k: Key)
    requires Base(v, x, k) && Ready(begun, |v.ops|) && HasReconciled(begun, u, |v.ops|)
    requires begun == v.(clients := [v.clients[0].(tail := Some(|v.ops|))], ops := v.ops + [NewOp(v, x, k, Mutation)])
    ensures Live(u, |v.ops|)
    ensures u.ops == v.ops + [NewOp(v, x, k, Mutation).(pc := Reconciled)] && u.keys == v.keys
    ensures u.clients == [v.clients[0].(tail := Some(|v.ops|), registrySession := Some(k))]
    ensures u.nextRevision >= 1 && CopyValid(Copy(u, k.account), u.nextRevision)
  {
  }

  lemma MutationReconciles(v: World, x: Access, k: Key) returns (u: World)
    requires Base(v, x, k)
    ensures Live(u, |v.ops|) && Reaches(v, u)
    ensures u.ops == v.ops + [NewOp(v, x, k, Mutation).(pc := Reconciled)] && u.keys == v.keys
    ensures u.clients == [v.clients[0].(tail := Some(|v.ops|), registrySession := Some(k))]
    ensures u.nextRevision >= 1 && CopyValid(Copy(u, k.account), u.nextRevision)
  {
    var n := |v.ops|;
    Opens(v, x, k, Mutation);
    var begun := Open(v, Mutation);
    Reconciles(begun, n);
    ReconcileReached(begun, n);
    u := Reconcile(begun, n);
    OpenedReconciles(v, begun, u, x, k);
    ReachesOn(v, begun, u);
  }

  // ---------------------------------------------------------------- a listing and an old call's request

  /** Beside `Base`, an old call `i` of the same account is the only one that may be under way. */
  ghost predicate Lone(v: World, i: nat, x: Access, k: Key) {
    && Base(v, x, k)
    && i < |v.ops| && Serialized(v.ops[i]) && Running(v.ops[i]) && !v.ops[i].pc.Reconciled?
    && v.ops[i].client == 0 && v.ops[i].key.account == k.account
    && (forall j | 0 <= j < |v.ops| && j != i :: !UnderWay(v.ops[j]))
  }

  /** The listing `n`, served its last answer before the mark, waits; the old call `i` lands and ends; the
      listing then marks the session and ends. */
  ghost predicate AboutToMark(w: World, i: nat, n: nat, x: Access, k: Key) {
    && |w.clients| == 1 && w.clients[0].access == Some(x) && w.clients[0].registrySession == None
    && x in w.keys && w.keys[x] == k
    && i < n < |w.ops| == n + 1 && w.ops[n].client == 0 && w.ops[n].access == x && w.ops[n].key == k
    && w.ops[n].kind.Listing? && w.ops[n].pc.Saving? && w.ops[n].pc.saved.Replied?
    && Serialized(w.ops[i]) && Running(w.ops[i]) && w.ops[i].client == 0 && w.ops[i].key.account == k.account
    && w.ops[n].left.None? && (forall j | 0 <= j < n && j != i :: !UnderWay(w.ops[j]))
  }

  /** The last wake of a listing's reconcile, and its end. */
  lemma ListingMarks(w: World, n: nat, k: Key) returns (u: World)
    requires Live(w, n) && |w.clients| == 1 && w.ops[n].kind.Listing? && w.ops[n].key == k
    requires w.ops[n].pc.Saving? && w.ops[n].pc.saved.Replied?
    ensures Reaches(w, u) && |u.clients| == 1 && u.clients[0].registrySession == Some(k)
    ensures u.ops == w.ops[n := w.ops[n].(pc := Settled(Success))] && u.gates == w.gates && u.copies == w.copies
  {
    var op := w.ops[n];
    var marked := Step(w, Wake(n, Answered));
    assert marked == Put(Mark(w, n), n, op.(pc := Reconciled));
    ListingEnds(marked, n);
    u := Round(Step(marked, Wake(n, Answered)), n);
    PutTwice(w, n, op.(pc := Reconciled), op.(pc := Settled(Success)));
    ReachesSelf(w);
    ReachesStep(w, w, Wake(n, Answered));
    ReachesStep(w, marked, Wake(n, Answered));
    ReachesRound(w, Step(marked, Wake(n, Answered)), n);
  }

  lemma ListingEnds(w: World, i: nat)
    requires Live(w, i) && w.ops[i].pc.Reconciled? && w.ops[i].kind.Listing?
    ensures Round(Step(w, Wake(i, Answered)), i) == Put(w, i, w.ops[i].(pc := Settled(Success)))
  {
    var op := w.ops[i];
    var asked := Step(w, Wake(i, Answered));
    SameClient(w, i);
    assert asked == Put(w, i, op.(pc := Requesting(0, Waiting)));
    var served := Step(asked, Serve(i, Null, false));
    PutTwice(w, i, op.(pc := Requesting(0, Waiting)), op.(pc := Requesting(0, Replied(false))));
    assert served == Put(w, i, op.(pc := Requesting(0, Replied(false))));
    PutTwice(w, i, op.(pc := Requesting(0, Replied(false))), op.(pc := Settled(Success)));
  }

  /** A world in which the claim fails. */
  ghost predicate Disagrees(w: World) { |w.clients| == 1 && !Agreed(w) }

  lemma DisagreesWhen(u: World, k: Key)
    requires |u.clients| == 1 && u.clients[0].registrySession == Some(k)
    requires forall j | 0 <= j < |u.ops| :: !UnderWay(u.ops[j])
    requires Copy(u, k.account).Some? && Gate(u, k.account).value != Copy(u, k.account).value.value
    requires NonEmpty(Gate(u, k.account).value) || NonEmpty(Copy(u, k.account).value.value)
    ensures Disagrees(u)
  {
    assert !Busy(u);
  }

  /** The old call's change of the gate lands between the listing's write and its mark. */
  lemma SpoiltBeforeMark(w: World, i: nat, n: nat, x: Access, k: Key, z: Json) returns (u: World)
    requires AboutToMark(w, i, n, x, k) && Changer(w.ops[i])
    requires Copy(w, k.account).Some? && NonEmpty(Copy(w, k.account).value.value)
    requires Copy(w, k.account).value.value != if w.ops[i].pc.Restoring? then w.ops[i].pc.value else z
    ensures Reaches(w, u) && Disagrees(u)
  {
    ChangerLands(w, i, z);
    var landed := Step(w, Serve(i, z, true));
    var ended := AnsweredEnds(landed, i);
    u := ListingMarks(ended, n, k);
    DisagreesWhen(u, k);
    ReachesSelf(w);
    ReachesStep(w, w, Serve(i, z, true));
    ReachesOn(w, landed, ended);
    ReachesOn(w, ended, u);
  }

  /** A listing over a gate with contents, up to the answer to its write. */
  lemma ListingSaves(v: World, i: nat, x: Access, k: Key) returns (u: World)
    requires Lone(v, i, x, k) && NonEmpty(Gate(v, k.account).value)
    ensures Reaches(v, u) && AboutToMark(u, i, |v.ops|, x, k) && u.ops[i] == v.ops[i]
    ensures Copy(u, k.account).Some? && Copy(u, k.account).value.value == Gate(v, k.account).value
  {
    var n := |v.ops|;
    Opens(v, x, k, Listing);
    var begun := Open(v, Listing);
    var saving := ListingReads(begun, n);
    ReachesOn(v, begun, saving);
    WriteAnswered(saving, n);
    u := Step(saving, Serve(n, Null, false));
    ReachesStep(v, saving, Serve(n, Null, false));
  }

  lemma ListingReads(w: World, n: nat) returns (u: World)
    requires Ready(w, n) && NonEmpty(Gate(w, w.ops[n].key.account).value)
    ensures Reaches(w, u)
    ensures u == Put(w, n, w.ops[n].(pc := Saving(Gate(w, w.ops[n].key.account),
                                                  RevisionOf(Copy(w, w.ops[n].key.account)), Waiting)))
  {
    ExportRound(w, n);
    var read := Round(w, n);
    assert Live(read, n);
    ReadRound(read, n);
    u := Round(read, n);
    PutTwice(w, n, read.ops[n], u.ops[n]);
    ReachesSelf(w);
    ReachesRound(w, w, n);
    ReachesRound(w, read, n);
  }

  lemma WriteAnswered(w: World, n: nat)
    requires n < |w.ops| && w.ops[n].pc.Saving? && w.ops[n].pc.saved.Waiting?
    requires w.ops[n].pc.expected == RevisionOf(Copy(w, w.ops[n].key.account))
    ensures var op, v := w.ops[n], Step(w, Serve(n, Null, false));
      && v.ops == w.ops[n := op.(pc := Saving(op.pc.snap, op.pc.expected, Replied(())))]
      && v.clients == w.clients && v.keys == w.keys && v.gates == w.gates
      && Copy(v, op.key.account) == Some(Stored(op.pc.snap.value, w.nextRevision, op.pc.snap.version))
  {
  }

  /** A registry with contents. */
  function Doc(name: string): Json { Obj(map["router" := Text(name)]) }

  lemma DocsHaveContent(name: string)
    ensures NonEmpty(Doc(name))
  {
  }

  /** An unanswered request that changes the gate spoils the new session: after a failed mutation of the session
      itself, it lands behind a listing's write. */
  lemma ChangerSpoils(v: World, i: nat, x: Access, k: Key) returns (u: World)
    requires Lone(v, i, x, k) && Changer(v.ops[i])
    ensures Reaches(v, u) && Disagrees(u)
  {
    var z: Json := Obj(map[]);
    var target := if v.ops[i].pc.Restoring? then v.ops[i].pc.value else z;
    var g := if target == Doc("a") then Doc("b") else Doc("a");
    DocsHaveContent("a");
    DocsHaveContent("b");
    assert Doc("a").fields["router"] == Text("a") && Doc("b").fields["router"] == Text("b");
    var changed := MutationFails(v, x, k, g);
    var waiting := ListingSaves(changed, i, x, k);
    u := SpoiltBeforeMark(waiting, i, |changed.ops|, x, k, z);
    ReachesOn(v, changed, waiting);
    ReachesOn(v, waiting, u);
  }

  // ---------------------------------------------------------------- the backup of an emptied gate

  lemma ReadServed(w: World, n: nat)
    requires n < |w.ops| && w.ops[n].pc.Reading? && w.ops[n].pc.read.Waiting?
    ensures Step(w, Serve(n, Null, false))
         == Put(w, n, w.ops[n].(pc := Reading(w.ops[n].pc.live, Replied(Copy(w, w.ops[n].key.account)))))
  {
  }

  lemma BackupLands(w: World, i: nat)
    requires i < |w.ops| && w.ops[i].pc.BackingUp? && w.ops[i].pc.saved.Waiting?
    requires RevisionOf(Copy(w, w.ops[i].key.account)) == w.ops[i].pc.baseline
    ensures var v := Step(w, Serve(i, Null, false));
      && |v.ops| == |w.ops| && v.ops == w.ops[i := v.ops[i]] && SamePlace(w.ops[i], v.ops[i])
      && v.ops[i].pc.BackingUp? && v.ops[i].pc.saved.Replied? && v.ops[i].left == w.ops[i].left
      && v.clients == w.clients && v.keys == w.keys && v.gates == w.gates
      && Copy(v, w.ops[i].key.account).Some?
      && Copy(v, w.ops[i].key.account).value.value == w.ops[i].pc.snap.value
  {
  }

  lemma ReadDecides(w: World, n: nat)
    requires Live(w, n) && w.ops[n].pc.Reading? && w.ops[n].pc.read.Replied?
    requires IsEmpty(w.ops[n].pc.live.value) && HasContent(w.ops[n].pc.read.value)
    ensures Step(w, Wake(n, Answered))
         == Put(w, n, w.ops[n].(pc := Restoring(w.ops[n].pc.read.value.value.value, Waiting)))
  {
    SameClient(w, n);
  }

  lemma RestoreMarks(w: World, n: nat, k: Key) returns (u: World)
    requires Live(w, n) && |w.clients| == 1 && w.ops[n].kind.Listing? && w.ops[n].key == k
    requires w.ops[n].pc.Restoring? && w.ops[n].pc.restored.Waiting?
    ensures Reaches(w, u) && |u.clients| == 1 && u.clients[0].registrySession == Some(k)
    ensures u.ops == w.ops[n := w.ops[n].(pc := Settled(Success))] && u.copies == w.copies
    ensures Gate(u, k.account).value == w.ops[n].pc.value
  {
    var op := w.ops[n];
    RestoreRound(w, n);
    var marked := Round(w, n);
    ListingEnds(marked, n);
    u := Round(Step(marked, Wake(n, Answered)), n);
    PutTwice(w, n, op.(pc := Reconciled), op.(pc := Settled(Success)));
    ReachesSelf(w);
    ReachesRound(w, w, n);
    ReachesStep(w, marked, Wake(n, Answered));
    ReachesRound(w, Step(marked, Wake(n, Answered)), n);
  }

  /** A listing over an empty gate, up to the answer to its read. */
  lemma ListingReadsCopy(v: World, x: Access, k: Key) returns (u: World)
    requires Base(v, x, k)
    ensures Reaches(v, u) && u.keys == v.keys && u.gates == v.gates && u.copies == v.copies
    ensures u.clients == [v.clients[0].(tail := Some(|v.ops|))]
    ensures u.ops == v.ops + [NewOp(v, x, k, Listing).(pc := Reading(Gate(v, k.account), Replied(Copy(v, k.account))))]
  {
    var n := |v.ops|;
    Opens(v, x, k, Listing);
    var begun := Open(v, Listing);
    ExportRound(begun, n);
    var reading := Round(begun, n);
    ReachesRound(v, begun, n);
    ReadServed(reading, n);
    u := Step(reading, Serve(n, Null, false));
    ReachesStep(v, reading, Serve(n, Null, false));
  }

  /** The unanswered backup of an emptied gate, over a copy with contents, spoils the new session: it lands between
      a listing's read of that copy and the restore the listing then makes. */
  lemma EmptierSpoils(v: World, i: nat, x: Access, k: Key) returns (u: World)
    requires Lone(v, i, x, k) && Emptier(v.ops[i], Copy(v, k.account))
    requires Gate(v, k.account).value == v.ops[i].pc.snap.value
    ensures Reaches(v, u) && Disagrees(u)
  {
    var n := |v.ops|;
    var read := ListingReadsCopy(v, x, k);
    assert read.ops[i] == v.ops[i];
    BackupLands(read, i);
    var landed := Step(read, Serve(i, Null, false));
    ReachesStep(v, read, Serve(i, Null, false));
    var ended := AnsweredEnds(landed, i);
    ReachesOn(v, landed, ended);
    u := EmptierEnds(v, ended, n, x, k);
    ReachesOn(v, ended, u);
  }

  /** The listing goes on with what it read, over the emptied copy. */
  lemma EmptierEnds(v: World, w: World, n: nat, x: Access, k: Key) returns (u: World)
    requires |w.clients| == 1 && w.clients[0].access == Some(x) && x in w.keys && w.keys[x] == k
    requires |w.ops| == n + 1 && w.ops[n].client == 0 && w.ops[n].access == x && w.ops[n].key == k
    requires w.ops[n].kind.Listing? && w.ops[n].pc.Reading? && w.ops[n].pc.read.Replied?
    requires IsEmpty(w.ops[n].pc.live.value) && HasContent(w.ops[n].pc.read.value)
    requires Copy(w, k.account).Some? && IsEmpty(Copy(w, k.account).value.value)
    requires w.ops[n].left.None? && forall j | 0 <= j < n :: !UnderWay(w.ops[j])
    ensures Reaches(w, u) && Disagrees(u)
  {
    ReadDecides(w, n);
    var restoring := Step(w, Wake(n, Answered));
    u := RestoreMarks(restoring, n, k);
    DisagreesWhen(u, k);
    ReachesSelf(w);
    ReachesStep(w, w, Wake(n, Answered));
    ReachesOn(w, restoring, u);
  }

  // ---------------------------------------------------------------- the other pending calls end first

  /** No session is marked, and every call under way is from before the access object `x` came. */
  ghost predicate Replaced(w: World, x: Access) {
    && |w.clients| == 1 && w.clients[0].access == Some(x) && w.clients[0].registrySession == None
    && (forall j | 0 <= j < |w.ops| && UnderWay(w.ops[j]) :: FromBefore(w.ops[j], x))
  }

  predicate FromBefore(op: Op, x: Access) {
    op.client == 0 && (Serialized(op) ==> op.access != x) && (op.pc.Reconciled? ==> Serialized(op))
  }

  lemma FromBeforeIsHarmless(w: World, x: Access, j: nat, how: How)
    requires |w.clients| == 1 && w.clients[0].access == Some(x) && j < |w.ops| && FromBefore(w.ops[j], x)
    ensures Harmless(w, Wake(j, how))
  {
  }

  lemma OneEnds(w: World, x: Access, j: nat) returns (u: World)
    requires Replaced(w, x) && j < |w.ops| && UnderWay(w.ops[j])
    ensures Reaches(w, u) && |u.ops| == |w.ops| && u == w.(ops := w.ops[j := u.ops[j]])
    ensures Ended(u.ops[j]) && SamePlace(w.ops[j], u.ops[j])
  {
    ReachesSelf(w);
    u := w;
    if w.ops[j].pc.Reconciled? {
      u := Step(w, Wake(j, Answered));
      ReachesStep(w, w, Wake(j, Answered));
      SameClient(w, j);
      assert u == w.(ops := w.ops[j := u.ops[j]]);
    }
    if !Ended(u.ops[j]) {
      CallThrows(u, j);
      FromBeforeIsHarmless(u, x, j, Threw);
      var next := Step(u, Wake(j, Threw));
      ReachesStep(w, u, Wake(j, Threw));
      u := next;
    }
  }

  lemma {:induction false} OthersEnd(w: World, x: Access, i: nat, n: nat) returns (u: World)
    requires Replaced(w, x) && n <= |w.ops| && i < |w.ops|
    ensures Reaches(w, u) && |u.ops| == |w.ops| && u == w.(ops := u.ops) && u.ops[i] == w.ops[i]
    ensures forall j | 0 <= j < n && j != i :: !UnderWay(u.ops[j])
    ensures forall j | n <= j < |w.ops| :: u.ops[j] == w.ops[j]
  {
    if n == 0 {
      ReachesSelf(w);
      u := w;
    } else {
      var v := OthersEnd(w, x, i, n - 1);
      u := v;
      if n - 1 != i && UnderWay(v.ops[n - 1]) {
        assert Replaced(v, x) by { StillReplaced(w, v, x, i, n - 1); }
        u := OneEnds(v, x, n - 1);
        ReachesOn(w, v, u);
      }
    }
  }

  lemma StillReplaced(w: World, v: World, x: Access, i: nat, n: nat)
    requires Replaced(w, x) && |v.ops| == |w.ops| && v == w.(ops := v.ops) && i < |w.ops| && v.ops[i] == w.ops[i]
    requires n <= |w.ops| && (forall j | 0 <= j < n && j != i :: !UnderWay(v.ops[j]))
    requires forall j | n <= j < |w.ops| :: v.ops[j] == w.ops[j]
    ensures Replaced(v, x)
  {
  }

  // ---------------------------------------------------------------- the exact condition

  predicate ValidAccount(w: World, a: Account) {
    ValidRegistry(Gate(w, a).value) && (Copy(w, a).Some? ==> ValidRegistry(Copy(w, a).value.value))
  }

  /** All that the spoiling continuation needs of a world: every call under way can be ended, and none of them
      holds the new access object. */
  ghost predicate Orderly(w: World, x: Access) {
    && |w.clients| == 1 && w.nextRevision >= 1
    && (forall j | 0 <= j < |w.ops| && UnderWay(w.ops[j]) :: FromBefore(w.ops[j], x))
    && (forall j | 0 <= j < |w.ops| :: w.ops[j].client == 0)
  }

  /** Some harmless continuation ends in disagreement. */
  ghost predicate MayDisagree(v: World) { exists after :: HarmlessRun(v, after) && Disagrees(Run(v, after)) }

  /** It ends so without any further replacement. */
  ghost predicate MayDisagreeAlone(v: World) { exists after :: Calm(v, after) && Disagrees(Run(v, after)) }

  lemma AloneIsHarmless(v: World)
    ensures MayDisagreeAlone(v) ==> MayDisagree(v)
  {
  }

  lemma MayDisagreeBefore(w: World, v: World)
    requires Reaches(w, v) && MayDisagreeAlone(v)
    ensures MayDisagreeAlone(w)
  {
    var after :| Calm(v, after) && Disagrees(Run(v, after));
    assert Reaches(v, Run(v, after));
    ReachesOn(w, v, Run(v, after));
  }

  /** The call left alone spoils the session that starts now. */
  lemma LoneSpoils(v: World, i: nat, x: Access, k: Key)
    requires Lone(v, i, x, k) && Dangerous(v.ops[i], CopyOf(v, v.ops[i]))
    requires !Changer(v.ops[i]) ==> GateOf(v, v.ops[i]) == v.ops[i].pc.snap.value
    ensures MayDisagreeAlone(v)
  {
    var u: World;
    if Changer(v.ops[i]) {
      u := ChangerSpoils(v, i, x, k);
    } else {
      u := EmptierSpoils(v, i, x, k);
    }
  }

  lemma BecomesLone(w: World, u: World, i: nat, x: Access, k: Key)
    requires Orderly(w, x) && i < |w.ops| && Dangerous(w.ops[i], CopyOf(w, w.ops[i]))
    requires k.account == w.ops[i].key.account
    requires ValidRegistry(Gate(w, k.account).value) && CopyValid(Copy(w, k.account), w.nextRevision)
    requires |u.ops| == |w.ops| && u.ops[i] == w.ops[i] && forall j | 0 <= j < |w.ops| && j != i :: !UnderWay(u.ops[j])
    requires u == Step(Step(w, SetAccess(0, Some(x))), SetKey(x, Some(k))).(ops := u.ops)
    ensures Lone(u, i, x, k)
  {
  }

  /** Replacing the access object while a dangerous request is on its way can break agreement. From every orderly
      world with such a request on an account with valid documents, reachable or not, and whatever login of that
      account the new object holds: all other pending calls end, and the request spoils the new session. */
  lemma MidCallReplacementBreaksAgreement(w: World, x: Access, i: nat, k: Key)
    requires Orderly(w, x) && i < |w.ops| && Dangerous(w.ops[i], CopyOf(w, w.ops[i]))
    requires k.account == w.ops[i].key.account
    requires ValidRegistry(Gate(w, k.account).value) && CopyValid(Copy(w, k.account), w.nextRevision)
    requires !Changer(w.ops[i]) ==> GateOf(w, w.ops[i]) == w.ops[i].pc.snap.value
    ensures MayDisagreeAlone(Step(Step(w, SetAccess(0, Some(x))), SetKey(x, Some(k))))
  {
    var renewed := Step(Step(w, SetAccess(0, Some(x))), SetKey(x, Some(k)));
    assert Replaced(renewed, x);
    var alone := OthersEnd(renewed, x, i, |w.ops|);
    BecomesLone(w, alone, i, x, k);
    LoneSpoils(alone, i, x, k);
    MayDisagreeBefore(renewed, alone);
  }

  lemma ReachedWorldsAreOrderly(w: World, x: Access)
    requires Guarded(w) && Unheld(w, x)
    ensures Orderly(w, x)
  {
    forall j | 0 <= j < |w.ops|
      ensures w.ops[j].client == 0 && (UnderWay(w.ops[j]) ==> FromBefore(w.ops[j], x))
    {
      assert OpInv(w.clients[0], w.ops[j], GateOf(w, w.ops[j]), CopyOf(w, w.ops[j]));
      assert w.ops[j].client < 1;
    }
  }

  lemma EmptierHoldsGate(w: World, i: nat)
    requires Guarded(w) && i < |w.ops| && Serialized(w.ops[i]) && Emptier(w.ops[i], CopyOf(w, w.ops[i]))
    ensures GateOf(w, w.ops[i]) == w.ops[i].pc.snap.value
  {
    assert WriterInv(w.clients[0], w.ops[i], GateOf(w, w.ops[i]), CopyOf(w, w.ops[i]));
  }

  /** What every reached world with valid documents gives the spoiling continuation. */
  lemma DangerousFacts(w: World, i: nat)
    requires Guarded(w) && i < |w.ops| && Dangerous(w.ops[i], CopyOf(w, w.ops[i]))
    requires ValidAccount(w, w.ops[i].key.account)
    ensures var a := w.ops[i].key.account;
            ValidRegistry(Gate(w, a).value) && CopyValid(Copy(w, a), w.nextRevision)
    ensures !Changer(w.ops[i]) ==> GateOf(w, w.ops[i]) == w.ops[i].pc.snap.value
  {
    assert Backups.CopySound(Gate(w, w.ops[i].key.account), CopyOf(w, w.ops[i]), w.nextRevision);
    if !Changer(w.ops[i]) {
      EmptierHoldsGate(w, i);
    }
  }

  lemma DangerMayDisagree(w: World, x: Access)
    requires Guarded(w) && Unheld(w, x) && (forall a :: ValidAccount(w, a)) && Endangered(w)
    ensures var v := Step(w, SetAccess(0, Some(x))); MayDisagreeAlone(v) && MayDisagree(v)
  {
    var i: nat :| i < |w.ops| && Dangerous(w.ops[i], CopyOf(w, w.ops[i]));
    assert ValidAccount(w, w.ops[i].key.account);
    var k, v := w.ops[i].key, Step(w, SetAccess(0, Some(x)));
    ReachedWorldsAreOrderly(w, x);
    DangerousFacts(w, i);
    MidCallReplacementBreaksAgreement(w, x, i, k);
    ReachesSelf(v);
    ReachesStep(v, v, SetKey(x, Some(k)));
    MayDisagreeBefore(v, Step(v, SetKey(x, Some(k))));
    AloneIsHarmless(v);
  }

  /** After a harmless step no harmless continuation disagrees. */
  lemma HarmlessAgrees(w: World, e: Event)
    requires Guarded(w) && Harmless(w, e)
    ensures !MayDisagree(Step(w, e))
  {
    var v := Step(w, e);
    HarmlessStepGuards(w, e);
    forall after | HarmlessRun(v, after) ensures !Disagrees(Run(v, after)) {
      HarmlessRunIsTimely(v, after);
      InvAgrees(Run(v, after));
    }
  }

  /** The exact guard of a replacement. In every world a harmless run leads to, with valid documents, bringing an
      access object no pending call holds breaks registry agreement in some continuation if and only if a request on
      its way is dangerous: an unanswered mutation or login poll, an unanswered restore, or the unanswered backup of
      an emptied gate over a copy with contents still at its baseline, whether or not its call has ended meanwhile.
      Agreement then breaks without any further replacement. */
  lemma ReplacementExactly(w0: World, before: seq<Event>, x: Access, w: World)
    requires Initial(w0) && |w0.clients| == 1 && HarmlessRun(w0, before) && w == Run(w0, before)
    requires Unheld(w, x) && forall a :: ValidAccount(w, a)
    ensures var v := Step(w, SetAccess(0, Some(x)));
      && (Endangered(w) <==> MayDisagree(v))
      && (Endangered(w) <==> MayDisagreeAlone(v))
  {
    var v := Step(w, SetAccess(0, Some(x)));
    InitialGuarded(w0);
    HarmlessRunIsTimely(w0, before);
    if Endangered(w) {
      DangerMayDisagree(w, x);
    } else {
      HarmlessAgrees(w, SetAccess(0, Some(x)));
      AloneIsHarmless(v);
    }
  }

  // ---------------------------------------------------------------- such worlds are reached

  /** The console before anything has happened, over an empty gate and no copy. */
  const FRESH := World([Client(None, None, None, 0)], map[], [], map[], map[], 1)

  /** First contact: a login, then a mutation up to its request. */
  function FirstContact(): seq<Event> {
    [SetAccess(0, Some(1)), SetKey(1, Some(Key(0, 0))), Call(0, Mutation), Start(0)]
    + [Serve(0, Null, false), Wake(0, Answered), Serve(0, Null, false), Wake(0, Answered)]
    + [Wake(0, Answered), Serve(0, Null, false), Wake(0, Answered)]
  }

  lemma {:induction false} RunCons(w: World, e: Event, rest: seq<Event>)
    ensures Run(w, [e] + rest) == Run(Step(w, e), rest)
  {
    assert ([e] + rest)[1..] == rest;
  }

  lemma FirstContactLogin() returns (w: World)
    ensures w == Step(Step(FRESH, SetAccess(0, Some(1))), SetKey(1, Some(Key(0, 0)))) && Base(w, 1, Key(0, 0))
    ensures w.ops == [] && w.gates == map[] && w.copies == map[]
  {
    w := Step(Step(FRESH, SetAccess(0, Some(1))), SetKey(1, Some(Key(0, 0))));
  }

  /** The mutation, unanswered, over the empty gate. */
  lemma FirstContactAsks() returns (w: World)
    ensures w == Run(FRESH, FirstContact()) && HarmlessRun(FRESH, FirstContact())
    ensures |w.clients| == 1 && |w.ops| == 1 && w.ops[0].access == 1 && w.ops[0].kind.Mutation?
    ensures w.ops[0].pc.Requesting? && w.ops[0].pc.answer.Waiting? && w.gates == map[] && w.copies == map[]
    ensures w.clients[0].access == Some(1) && w.ops[0].client == 0 && w.ops[0].left == None && !w.ops[0].applied
    ensures !w.ops[0].backedUp
  {
    var w2 := FirstContactLogin();
    Opens(w2, 1, Key(0, 0), Mutation);
    var w4 := Open(w2, Mutation);
    ExportRound(w4, 0);
    ReadRound(Round(w4, 0), 0);
    var w8 := Round(Round(w4, 0), 0);
    BaselineAsked(w8, 0);
    var w9 := Step(w8, Wake(0, Answered));
    BaselineRound(w9, 0);
    w := Round(w9, 0);
    FirstContactRuns(w2, w4, w8, w9, w);
  }

  lemma FourSteps(w: World, e0: Event, e1: Event, e2: Event, e3: Event, rest: seq<Event>)
    ensures Run(w, [e0, e1, e2, e3] + rest) == Run(Step(Step(Step(Step(w, e0), e1), e2), e3), rest)
  {
    assert [e0, e1, e2, e3] + rest == [e0] + ([e1] + ([e2] + ([e3] + rest)));
    RunCons(w, e0, [e1] + ([e2] + ([e3] + rest)));
    RunCons(Step(w, e0), e1, [e2] + ([e3] + rest));
    RunCons(Step(Step(w, e0), e1), e2, [e3] + rest);
    RunCons(Step(Step(Step(w, e0), e1), e2), e3, rest);
  }

  lemma FirstContactRuns(w2: World, w4: World, w8: World, w9: World, w: World)
    requires w2 == Step(Step(FRESH, SetAccess(0, Some(1))), SetKey(1, Some(Key(0, 0))))
    requires w2.ops == [] && w4 == Open(w2, Mutation)
    requires w8 == Round(Round(w4, 0), 0) && w9 == Step(w8, Wake(0, Answered)) && w == Round(w9, 0)
    ensures w == Run(FRESH, FirstContact()) && HarmlessRun(FRESH, FirstContact())
  {
    var a, b := Serve(0, Null, false), Wake(0, Answered);
    var rest := [a, b, a, b] + [b, a, b];
    var e0, e1 := SetAccess(0, Some(1)), SetKey(1, Some(Key(0, 0)));
    FourSteps(FRESH, e0, e1, Call(0, Mutation), Start(0), rest);
    SevenSteps(w4, a, b);
    assert FirstContact() == [e0, e1, Call(0, Mutation), Start(0)] + rest;
    FirstContactIsHarmless();
  }

  predicate Plainly(e: Event) { !e.SetAccess? && (e.Wake? ==> e.how.Answered?) }

  lemma {:induction false} PlainlyIsHarmless(w: World, events: seq<Event>)
    requires forall e | e in events :: Plainly(e)
    ensures HarmlessRun(w, events)
    decreases |events|
  {
    if events != [] {
      assert Plainly(events[0]);
      PlainlyIsHarmless(Step(w, events[0]), events[1..]);
    }
  }

  lemma FirstContactIsHarmless()
    ensures HarmlessRun(FRESH, FirstContact())
  {
    var all := FirstContact();
    assert Harmless(FRESH, all[0]);
    assert forall e | e in all[1..] :: Plainly(e);
    PlainlyIsHarmless(Step(FRESH, all[0]), all[1..]);
  }

  lemma SevenSteps(w: World, a: Event, b: Event)
    ensures Run(w, [a, b, a, b] + [b, a, b])
         == Step(Step(Step(Step(Step(Step(Step(w, a), b), a), b), b), a), b)
  {
    var rest := [a, b, a, b] + [b, a, b];
    assert rest == [a] + ([b] + ([a] + ([b] + ([b] + ([a] + [b])))));
    RunCons(w, a, rest[1..]);
    var w1 := Step(w, a);
    RunCons(w1, b, rest[2..]);
    var w2 := Step(w1, b);
    RunCons(w2, a, rest[3..]);
    var w3 := Step(w2, a);
    RunCons(w3, b, rest[4..]);
    var w4 := Step(w3, b);
    RunCons(w4, b, rest[5..]);
    var w5 := Step(w4, b);
    RunCons(w5, a, rest[6..]);
    var w6 := Step(w5, a);
    assert rest[6..] == [b];
    RunOne(w6, b);
  }

  lemma WaitingMutationIsDanger(w: World)
    requires |w.ops| == 1 && w.ops[0].access == 1 && w.ops[0].kind.Mutation?
    requires w.ops[0].pc.Requesting? && w.ops[0].pc.answer.Waiting? && w.gates == map[] && w.copies == map[]
    ensures Unheld(w, 2) && Endangered(w) && forall a :: ValidAccount(w, a)
  {
    assert Changer(w.ops[0]) && Dangerous(w.ops[0], CopyOf(w, w.ops[0]));
  }

  /** Such a world is reached: at first contact, with an empty gate and no copy, a mutation waits for its answer;
      a new access object then leads to disagreement. */
  lemma DangerIsReached()
    ensures Initial(FRESH) && HarmlessRun(FRESH, FirstContact())
    ensures var w := Run(FRESH, FirstContact());
      Unheld(w, 2) && Endangered(w) && MayDisagreeAlone(Step(w, SetAccess(0, Some(2))))
  {
    var w := FirstContactAsks();
    WaitingMutationIsDanger(w);
    ReplacementExactly(FRESH, FirstContact(), 2, w);
  }
}
