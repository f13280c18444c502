/** Any number of consoles on one account: what a backup on the mutation path may replace, and what
    the reported outcomes mean. */
module GatewayBackups {
  import opened Options
  import opened Gateway

  /** The copy carries an issued revision and is no newer than the live registry. */
  ghost predicate CopySound(g: Snapshot, d: Option<Stored>, next: nat) {
    next >= 1 && (d.Some? ==> 1 <= d.value.revision < next && d.value.version <= g.version)
  }

  /** A copy that still has revision `b` is no newer than `snap`. */
  ghost predicate Covers(snap: Snapshot, b: nat, d: Option<Stored>) {
    d.Some? && d.value.revision == b ==> d.value.version <= snap.version
  }

  ghost predicate Issued(r: Reply<Option<Stored>>, next: nat) {
    r.Replied? && r.value.Some? ==> r.value.value.revision < next
  }

  ghost predicate SnapshotsSound(pc: Pc, g: Snapshot, d: Option<Stored>, next: nat) {
    match pc
    case Exporting(r) => r.Replied? ==> r.value.version <= g.version
    case Reading(live, r) => live.version <= g.version && Issued(r, next)
    case Saving(snap, expected, _) => snap.version <= g.version && expected < next
    case Baseline(_, r) => Issued(r, next)
    case Requesting(b, _) => b < next
    case Snapshotting(b, r) => b < next && (r.Replied? ==> r.value.version <= g.version && Covers(r.value, b, d))
    case BackingUp(snap, b, r) => b < next && snap.version <= g.version && (r.Waiting? ==> Covers(snap, b, d))
    case _ => true
  }

  /** A snapshot of version `n` was taken after the request took effect. */
  predicate Since(n: nat, reached: Option<nat>) { reached.Some? && reached.value <= n }

  /** The backup landed, with a gate that already had the request's effect. */
  predicate BackedUp(op: Op) { op.landed.Some? && Since(op.landed.value, op.reached) }

  /** What an outcome tells the user about the call. */
  predicate Told(op: Op, outcome: Outcome) {
    match outcome
    case Success => op.applied ==> op.backedUp
    case Passed => !op.applied
    case RegistryUnavailable => !op.applied
    case BackupFailed => op.applied && !op.backedUp
    case FollowthroughFailed => op.backedUp
  }

  /** The flags and the reported outcome say no more than the server did; `n` is the gate's version now. */
  ghost predicate ReportsSound(op: Op, n: nat) {
    && (op.reached.Some? ==> op.reached.value <= n)
    && (op.applied ==> op.reached.Some?)
    && (op.backedUp ==> BackedUp(op) && op.applied)
    && (op.left.Some? ==> Told(op, op.left.value))
    && match op.pc
       case Requesting(_, r) => !op.applied && (r.Replied? && Applies(op, r.value) ==> op.reached.Some?)
       case Snapshotting(_, r) =>
         op.applied && !op.backedUp && (r.Replied? ==> Since(r.value.version, op.reached))
       case BackingUp(snap, _, r) =>
         op.applied && !op.backedUp && Since(snap.version, op.reached) && (r.Replied? ==> BackedUp(op))
       case Following => op.backedUp
       case Settled(outcome) => Told(op, outcome)
       case _ => !op.applied
  }

  ghost predicate OpSound(op: Op, g: Snapshot, d: Option<Stored>, next: nat) {
    SnapshotsSound(op.pc, g, d, next) && ReportsSound(op, g.version)
  }

  ghost predicate Inv(w: World) {
    && w.nextRevision >= 1
    && (forall a :: CopySound(Gate(w, a), Copy(w, a), w.nextRevision))
    && (forall i | 0 <= i < |w.ops| ::
          OpSound(w.ops[i], Gate(w, w.ops[i].key.account), Copy(w, w.ops[i].key.account), w.nextRevision))
  }

  /** Live registries only get newer versions; a copy that changes gets a fresh revision. */
  ghost predicate Grows(g: Snapshot, d: Option<Stored>, next: nat, g': Snapshot, d': Option<Stored>, next': nat) {
    && g.version <= g'.version && next <= next'
    && (d' == d || (d'.Some? && d'.value.revision >= next))
  }

  lemma OthersStaySound(op: Op, g: Snapshot, d: Option<Stored>, next: nat, g': Snapshot, d': Option<Stored>, next': nat)
    requires OpSound(op, g, d, next) && Grows(g, d, next, g', d', next')
    ensures OpSound(op, g', d', next')
  {
  }

  lemma ServingReports(x: Served, g: Json, connected: bool, e: Option<Stored>)
    requires Running(x.op) && ReportsSound(x.op, x.gate.version)
    ensures var y := Serving(x, g, connected, e); ReportsSound(y.op, y.gate.version)
  {
  }

  lemma ServingGrows(x: Served, g: Json, connected: bool, e: Option<Stored>)
    requires Running(x.op) && SnapshotsSound(x.op.pc, x.gate, x.copy, x.nextRevision)
    requires CopySound(x.gate, x.copy, x.nextRevision)
    ensures var y := Serving(x, g, connected, e);
            && CopySound(y.gate, y.copy, y.nextRevision)
            && Grows(x.gate, x.copy, x.nextRevision, y.gate, y.copy, y.nextRevision)
  {
  }

  lemma WriteSound(x: Served, g: Json, connected: bool, e: Option<Stored>)
    requires Running(x.op) && (x.op.pc.Saving? || x.op.pc.BackingUp?)
    requires SnapshotsSound(x.op.pc, x.gate, x.copy, x.nextRevision)
    requires CopySound(x.gate, x.copy, x.nextRevision)
    requires e.Some? ==> e.value.revision < x.nextRevision
    ensures var y := Serving(x, g, connected, e); SnapshotsSound(y.op.pc, y.gate, y.copy, y.nextRevision)
  {
  }

  lemma FetchSound(x: Served, g: Json, connected: bool, e: Option<Stored>)
    requires Running(x.op) && (x.op.pc.Exporting? || x.op.pc.Reading? || x.op.pc.Snapshotting?)
    requires SnapshotsSound(x.op.pc, x.gate, x.copy, x.nextRevision)
    requires CopySound(x.gate, x.copy, x.nextRevision)
    requires e.Some? ==> e.value.revision < x.nextRevision
    ensures var y := Serving(x, g, connected, e); SnapshotsSound(y.op.pc, y.gate, y.copy, y.nextRevision)
  {
  }

  lemma RequestSound(x: Served, g: Json, connected: bool, e: Option<Stored>)
    requires Running(x.op) && (x.op.pc.Restoring? || x.op.pc.Baseline? || x.op.pc.Requesting?)
    requires SnapshotsSound(x.op.pc, x.gate, x.copy, x.nextRevision)
    requires CopySound(x.gate, x.copy, x.nextRevision)
    requires e.Some? ==> e.value.revision < x.nextRevision
    ensures var y := Serving(x, g, connected, e); SnapshotsSound(y.op.pc, y.gate, y.copy, y.nextRevision)
  {
  }

  lemma ServingSnapshots(x: Served, g: Json, connected: bool, e: Option<Stored>)
    requires Running(x.op) && SnapshotsSound(x.op.pc, x.gate, x.copy, x.nextRevision)
    requires CopySound(x.gate, x.copy, x.nextRevision)
    requires e.Some? ==> e.value.revision < x.nextRevision
    ensures var y := Serving(x, g, connected, e); SnapshotsSound(y.op.pc, y.gate, y.copy, y.nextRevision)
  {
    if x.op.pc.Saving? || x.op.pc.BackingUp? {
      WriteSound(x, g, connected, e);
    } else if x.op.pc.Exporting? || x.op.pc.Reading? || x.op.pc.Snapshotting? {
      FetchSound(x, g, connected, e);
    } else if x.op.pc.Restoring? || x.op.pc.Baseline? || x.op.pc.Requesting? {
      RequestSound(x, g, connected, e);
    }
  }

  lemma ServingSound(x: Served, g: Json, connected: bool, e: Option<Stored>)
    requires Running(x.op) && OpSound(x.op, x.gate, x.copy, x.nextRevision)
    requires CopySound(x.gate, x.copy, x.nextRevision)
    requires e.Some? ==> e.value.revision < x.nextRevision
    ensures var y := Serving(x, g, connected, e);
            && OpSound(y.op, y.gate, y.copy, y.nextRevision)
            && CopySound(y.gate, y.copy, y.nextRevision)
            && Grows(x.gate, x.copy, x.nextRevision, y.gate, y.copy, y.nextRevision)
  {
    ServingReports(x, g, connected, e);
    ServingSnapshots(x, g, connected, e);
    ServingGrows(x, g, connected, e);
  }

  lemma AnswerSound(c: Client, op: Op, now: Option<Key>, g: Snapshot, d: Option<Stored>, next: nat)
    requires CanAnswer(op.pc) && op.left.None? && OpSound(op, g, d, next) && next >= 1
    ensures OpSound(Answer(c, op, now).1, g, d, next)
  {
    if op.pc.Reading? {
      ReadSound(c, op, now, g, d, next);
    }
  }

  lemma ReadSound(c: Client, op: Op, now: Option<Key>, g: Snapshot, d: Option<Stored>, next: nat)
    requires CanAnswer(op.pc) && op.pc.Reading? && op.left.None? && OpSound(op, g, d, next) && next >= 1
    ensures OpSound(AfterRead(c, op, now).1, g, d, next)
  {
  }

  lemma BeginSound(c: Client, op: Op, now: Option<Key>, g: Snapshot, d: Option<Stored>, next: nat)
    requires op.pc.Queued? && OpSound(op, g, d, next) && next >= 1
    ensures OpSound(Begin(c, op, now).1, g, d, next)
  {
  }

  /** Serving call `i` puts `y` in its place: its account's sides are `y`'s, all others stay. */
  ghost predicate PutInPlace(w: World, v: World, i: nat, y: Served)
    requires i < |w.ops|
  {
    && |v.ops| == |w.ops| && v.ops == w.ops[i := v.ops[i]] && v.ops[i] == y.op && v.ops[i].key == w.ops[i].key
    && v.nextRevision == y.nextRevision
    && Gate(v, w.ops[i].key.account) == y.gate && Copy(v, w.ops[i].key.account) == y.copy
    && (forall b | b != w.ops[i].key.account :: Gate(v, b) == Gate(w, b) && Copy(v, b) == Copy(w, b))
  }

  lemma ServedInPlace(w: World, i: nat, g: Json, connected: bool)
    requires i < |w.ops| && Running(w.ops[i])
    ensures PutInPlace(w, ServeStep(w, i, g, connected), i, Serving(Side(w, i), g, connected, Elsewhere(w, w.ops[i])))
  {
  }

  /** Every account's sides only grow, and the served call stays sound. */
  lemma ServedSides(w: World, v: World, i: nat, y: Served)
    requires Inv(w) && i < |w.ops| && PutInPlace(w, v, i, y)
    requires OpSound(y.op, y.gate, y.copy, y.nextRevision) && CopySound(y.gate, y.copy, y.nextRevision)
    requires var x := Side(w, i); Grows(x.gate, x.copy, x.nextRevision, y.gate, y.copy, y.nextRevision)
    ensures v.nextRevision >= 1
    ensures OpSound(v.ops[i], Gate(v, v.ops[i].key.account), Copy(v, v.ops[i].key.account), v.nextRevision)
    ensures forall b :: CopySound(Gate(v, b), Copy(v, b), v.nextRevision)
                        && Grows(Gate(w, b), Copy(w, b), w.nextRevision, Gate(v, b), Copy(v, b), v.nextRevision)
  {
    forall b ensures CopySound(Gate(v, b), Copy(v, b), v.nextRevision)
                     && Grows(Gate(w, b), Copy(w, b), w.nextRevision, Gate(v, b), Copy(v, b), v.nextRevision)
    {
      assert CopySound(Gate(w, b), Copy(w, b), w.nextRevision);
    }
  }

  lemma GrownKeeps(w: World, v: World, i: nat)
    requires Inv(w) && i < |w.ops| == |v.ops| && v.ops == w.ops[i := v.ops[i]] && v.nextRevision >= 1
    requires OpSound(v.ops[i], Gate(v, v.ops[i].key.account), Copy(v, v.ops[i].key.account), v.nextRevision)
    requires forall b :: CopySound(Gate(v, b), Copy(v, b), v.nextRevision)
                         && Grows(Gate(w, b), Copy(w, b), w.nextRevision, Gate(v, b), Copy(v, b), v.nextRevision)
    ensures Inv(v)
  {
    forall j | 0 <= j < |v.ops|
      ensures OpSound(v.ops[j], Gate(v, v.ops[j].key.account), Copy(v, v.ops[j].key.account), v.nextRevision)
    {
      if j != i {
        var b := w.ops[j].key.account;
        OthersStaySound(w.ops[j], Gate(w, b), Copy(w, b), w.nextRevision, Gate(v, b), Copy(v, b), v.nextRevision);
      }
    }
  }

  lemma ServeKeeps(w: World, i: nat, g: Json, connected: bool)
    requires Inv(w) && i < |w.ops| && Running(w.ops[i])
    ensures Inv(ServeStep(w, i, g, connected))
  {
    var op, v := w.ops[i], ServeStep(w, i, g, connected);
    if op.pc.Baseline? && op.pc.of.Some? {
      assert CopySound(Gate(w, op.pc.of.value), Copy(w, op.pc.of.value), w.nextRevision);
    }
    ServingSound(Side(w, i), g, connected, Elsewhere(w, op));
    ServedInPlace(w, i, g, connected);
    ServedSides(w, v, i, Serving(Side(w, i), g, connected, Elsewhere(w, op)));
    GrownKeeps(w, v, i);
  }

  lemma WakeKeeps(w: World, i: nat, how: How)
    requires Inv(w) && Enabled(w, Wake(i, how))
    ensures Inv(WakeStep(w, i, how))
  {
    var op, a := w.ops[i], w.ops[i].key.account;
    if how.Answered? {
      AnswerSound(w.clients[op.client], op, Now(w, op.access), Gate(w, a), Copy(w, a), w.nextRevision);
    }
    var v := WakeStep(w, i, how);
    SameSidesKeep(w, v, i);
  }

  /** A step of one call's own code leaves both sides alone. */
  lemma SameSidesKeep(w: World, v: World, i: nat)
    requires Inv(w) && i < |w.ops| == |v.ops| && v.ops == w.ops[i := v.ops[i]]
    requires v.gates == w.gates && v.copies == w.copies && v.nextRevision == w.nextRevision
    requires v.ops[i].key == w.ops[i].key
    requires OpSound(v.ops[i], Gate(w, w.ops[i].key.account), Copy(w, w.ops[i].key.account), w.nextRevision)
    ensures Inv(v)
  {
    assert forall a :: Gate(v, a) == Gate(w, a) && Copy(v, a) == Copy(w, a);
  }

  lemma StartKeeps(w: World, i: nat)
    requires Inv(w) && Enabled(w, Start(i)) && w.ops[i].client < |w.clients|
    ensures Inv(StartStep(w, i))
  {
    var op, a := w.ops[i], w.ops[i].key.account;
    BeginSound(w.clients[op.client], op, Now(w, op.access), Gate(w, a), Copy(w, a), w.nextRevision);
    SameSidesKeep(w, StartStep(w, i), i);
  }

  lemma CallKeeps(w: World, c: nat, kind: Kind)
    requires Inv(w) && Enabled(w, Call(c, kind))
    ensures Inv(CallStep(w, c, kind))
  {
    var v := CallStep(w, c, kind);
    assert forall a :: Gate(v, a) == Gate(w, a) && Copy(v, a) == Copy(w, a);
    forall j | 0 <= j < |v.ops|
      ensures OpSound(v.ops[j], Gate(v, v.ops[j].key.account), Copy(v, v.ops[j].key.account), v.nextRevision)
    {
      if j < |w.ops| {
        assert v.ops[j] == w.ops[j];
      }
    }
  }

  lemma DeclineKeeps(w: World, i: nat)
    requires Inv(w) && Enabled(w, Decline(i))
    ensures Inv(DeclineStep(w, i))
  {
    SameSidesKeep(w, DeclineStep(w, i), i);
  }

  lemma StepKeeps(w: World, e: Event)
    requires Inv(w)
    ensures Inv(Step(w, e))
  {
    if Enabled(w, e) {
      match e
      case Call(c, kind) => CallKeeps(w, c, kind);
      case Start(i) => if w.ops[i].client < |w.clients| { StartKeeps(w, i); }
      case Serve(i, g, connected) => ServeKeeps(w, i, g, connected);
      case Decline(i) => DeclineKeeps(w, i);
      case Wake(i, how) => WakeKeeps(w, i, how);
      case _ =>
        var v := Step(w, e);
        assert v.ops == w.ops && forall a :: Gate(v, a) == Gate(w, a) && Copy(v, a) == Copy(w, a);
    }
  }

  lemma {:induction false} RunKeeps(w: World, events: seq<Event>)
    requires Inv(w)
    ensures Inv(Run(w, events))
    decreases |events|
  {
    if events != [] {
      StepKeeps(w, events[0]);
      RunKeeps(Step(w, events[0]), events[1..]);
    }
  }

  lemma InitialSound(w: World)
    requires Initial(w)
    ensures Inv(w)
  {
  }

  /** In every run of any number of consoles, a backup written after a mutation replaces only a copy
      of the same or an older live registry. */
  lemma BackupNeverReplacesNewer(w: World, events: seq<Event>, i: nat, g: Json, connected: bool)
    requires Initial(w)
    requires var v := Run(w, events); i < |v.ops| && v.ops[i].pc.BackingUp? && Running(v.ops[i])
    ensures var v := Run(w, events);
            var a, after := v.ops[i].key.account, Step(v, Serve(i, g, connected));
            Copy(after, a) != Copy(v, a) && Copy(v, a).Some? ==>
              && Copy(after, a).Some? && Copy(after, a).value.value == v.ops[i].pc.snap.value
              && Copy(v, a).value.version <= Copy(after, a).value.version
  {
    InitialSound(w);
    RunKeeps(w, events);
  }

  /** What the console was told. */
  function Reported(op: Op): Outcome
    requires Ended(op)
  {
    if op.left.Some? then op.left.value else op.pc.outcome
  }

  /** In every run, the reported outcomes are true: a failed backup means the gate did get the change; a failed
      follow-through, and a change reported as a plain success, mean that the conditional write landed, and that
      the gate it wrote was read no earlier than the change took effect. What is reported stays true whatever an
      unanswered request does later. */
  lemma ReportsAreTrue(w: World, events: seq<Event>, i: nat)
    requires Initial(w)
    requires var v := Run(w, events); i < |v.ops| && Ended(v.ops[i])
    ensures var op := Run(w, events).ops[i];
            var outcome := Reported(op);
            && (outcome.BackupFailed? ==> op.reached.Some?)
            && (outcome.FollowthroughFailed? ==> BackedUp(op))
            && (outcome.Success? && op.applied ==> BackedUp(op))
            && (outcome.Passed? || outcome.RegistryUnavailable? ==> !op.applied)
  {
    InitialSound(w);
    RunKeeps(w, events);
  }
}
