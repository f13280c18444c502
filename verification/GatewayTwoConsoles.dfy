/** Two consoles of one account, from their login on: a reported and backed-up change is replaced in the durable copy
    by the older registry the other console had exported. */
module GatewayTwoConsoles {
  import opened Options
  import opened Gateway
  import opened GatewayBoundary
  import opened GatewayReplacement

  /** Two consoles before anything has happened; account 0 has a registry and no copy. */
  const START := World([Client(None, None, None, 0), Client(None, None, None, 0)], map[], [],
                       map[0 := Snapshot(Doc("a"), 0)], map[], 1)

  /** The first console's listing, at `pc`. */
  function Lister(pc: Pc): Op { Op(0, 1, 1, Key(0, 0), Listing, None, pc, false, false, None, None, None) }

  /** The second console's mutation, at `pc`. */
  function Mutator(pc: Pc): Op { Op(1, 1, 2, Key(0, 1), Mutation, None, pc, false, false, None, None, None) }

  /** Both are under way; `session` is what the second console has reconciled. */
  function Both(lister: Pc, mutator: Op, session: Option<Key>, gate: Snapshot, copies: map<Account, Stored>, next: nat)
    : World
  {
    World([Client(Some(1), None, Some(0), 1), Client(Some(2), session, Some(1), 1)],
          map[1 := Key(0, 0), 2 := Key(0, 1)], [Lister(lister), mutator], map[0 := gate], copies, next)
  }

  const OLD := Snapshot(Doc("a"), 0)
  const NEW := Snapshot(Doc("b"), 1)
  const SESSION := Key(0, 1)

  /** The request of call `n` is answered and the call goes on. */
  function RoundOf(n: nat): seq<Event> { [Serve(n, Null, false), Wake(n, Answered)] }

  /** Two logins; a listing and a mutation begin. */
  function Logins(): seq<Event> {
    [SetAccess(0, Some(1)), SetKey(1, Some(Key(0, 0))), SetAccess(1, Some(2)), SetKey(2, Some(Key(0, 1)))]
    + [Call(0, Listing), Start(0), Call(1, Mutation), Start(1)]
  }

  /** The listing exports the registry; the mutation reconciles its session, which writes the first copy. */
  function Reconciling(): seq<Event> { RoundOf(0) + RoundOf(1) + RoundOf(1) + RoundOf(1) }

  /** The mutation notes its baseline and changes the gate. */
  function Changing(): seq<Event> {
    [Wake(1, Answered)] + RoundOf(1) + [Serve(1, Doc("b"), true), Wake(1, Answered)]
  }

  /** It backs the changed gate up and reports success. */
  function BackingUpAndReporting(): seq<Event> { RoundOf(1) + RoundOf(1) + [Wake(1, Answered)] }

  /** The listing reads the copy and writes what it exported. */
  function Overwriting(): seq<Event> { RoundOf(0) + RoundOf(0) }

  lemma RunRound(w: World, n: nat)
    ensures Run(w, RoundOf(n)) == Round(w, n)
  {
    assert RoundOf(n) == [Serve(n, Null, false)] + [Wake(n, Answered)];
    RunCons(w, Serve(n, Null, false), [Wake(n, Answered)]);
    RunOne(Step(w, Serve(n, Null, false)), Wake(n, Answered));
  }

  lemma TwoLogins() returns (w: World)
    ensures w == Step(Step(Step(Step(START, SetAccess(0, Some(1))), SetKey(1, Some(Key(0, 0)))), SetAccess(1, Some(2))),
                      SetKey(2, Some(Key(0, 1))))
    ensures w == World([Client(Some(1), None, None, 1), Client(Some(2), None, None, 1)],
                       map[1 := Key(0, 0), 2 := Key(0, 1)], [], map[0 := OLD], map[], 1)
  {
    w := Step(Step(Step(Step(START, SetAccess(0, Some(1))), SetKey(1, Some(Key(0, 0)))), SetAccess(1, Some(2))),
              SetKey(2, Some(Key(0, 1))));
  }

  lemma TwoCalls(w: World)
    requires w == World([Client(Some(1), None, None, 1), Client(Some(2), None, None, 1)],
                        map[1 := Key(0, 0), 2 := Key(0, 1)], [], map[0 := OLD], map[], 1)
    ensures Step(Step(Step(Step(w, Call(0, Listing)), Start(0)), Call(1, Mutation)), Start(1))
         == Both(Exporting(Waiting), Mutator(Exporting(Waiting)), None, OLD, map[], 1)
  {
    var listed := Step(Step(w, Call(0, Listing)), Start(0));
    assert listed.ops == [Lister(Exporting(Waiting))];
    assert listed.clients == [Client(Some(1), None, Some(0), 1), Client(Some(2), None, None, 1)];
    var called := Step(listed, Call(1, Mutation));
    assert called.ops == [Lister(Exporting(Waiting)), Mutator(Queued)];
  }

  lemma BothBegin()
    ensures Run(START, Logins()) == Both(Exporting(Waiting), Mutator(Exporting(Waiting)), None, OLD, map[], 1)
  {
    var w := TwoLogins();
    TwoCalls(w);
    var calls := [Call(0, Listing), Start(0), Call(1, Mutation), Start(1)];
    FourSteps(START, SetAccess(0, Some(1)), SetKey(1, Some(Key(0, 0))), SetAccess(1, Some(2)),
              SetKey(2, Some(Key(0, 1))), calls);
    assert calls + [] == calls;
    FourSteps(w, Call(0, Listing), Start(0), Call(1, Mutation), Start(1), []);
  }

  lemma ThenRound(w: World, events: seq<Event>, v: World, n: nat)
    requires Run(w, events) == v
    ensures Run(w, events + RoundOf(n)) == Round(v, n)
  {
    RunConcat(w, events, RoundOf(n));
    RunRound(v, n);
  }

  lemma ThenStep(w: World, events: seq<Event>, v: World, e: Event)
    requires Run(w, events) == v
    ensures Run(w, events + [e]) == Step(v, e)
  {
    RunConcat(w, events, [e]);
    RunOne(v, e);
  }

  // ---------------------------------------------------------------- the mutation reconciles

  lemma ListingExports(w: World)
    requires w == Both(Exporting(Waiting), Mutator(Exporting(Waiting)), None, OLD, map[], 1)
    ensures Round(w, 0) == Both(Reading(OLD, Waiting), Mutator(Exporting(Waiting)), None, OLD, map[], 1)
  {
    ExportRound(w, 0);
  }

  lemma MutationExports(w: World)
    requires w == Both(Reading(OLD, Waiting), Mutator(Exporting(Waiting)), None, OLD, map[], 1)
    ensures Round(w, 1) == Both(Reading(OLD, Waiting), Mutator(Reading(OLD, Waiting)), None, OLD, map[], 1)
  {
    ExportRound(w, 1);
  }

  lemma MutationReads(w: World)
    requires w == Both(Reading(OLD, Waiting), Mutator(Reading(OLD, Waiting)), None, OLD, map[], 1)
    ensures Round(w, 1) == Both(Reading(OLD, Waiting), Mutator(Saving(OLD, 0, Waiting)), None, OLD, map[], 1)
  {
    DocsHaveContent("a");
    ReadRound(w, 1);
  }

  const FIRST := map[0 := Stored(Doc("a"), 1, 0)]

  lemma MutationSaves(w: World)
    requires w == Both(Reading(OLD, Waiting), Mutator(Saving(OLD, 0, Waiting)), None, OLD, map[], 1)
    ensures Round(w, 1) == Both(Reading(OLD, Waiting), Mutator(Reconciled), Some(SESSION), OLD, FIRST, 2)
  {
    SaveRound(w, 1);
  }

  lemma BothReconcile(w: World)
    requires w == Both(Exporting(Waiting), Mutator(Exporting(Waiting)), None, OLD, map[], 1)
    ensures Run(w, Reconciling()) == Both(Reading(OLD, Waiting), Mutator(Reconciled), Some(SESSION), OLD, FIRST, 2)
  {
    ListingExports(w);
    RunRound(w, 0);
    MutationExports(Round(w, 0));
    ThenRound(w, RoundOf(0), Round(w, 0), 1);
    MutationReads(Round(Round(w, 0), 1));
    ThenRound(w, RoundOf(0) + RoundOf(1), Round(Round(w, 0), 1), 1);
    MutationSaves(Round(Round(Round(w, 0), 1), 1));
    ThenRound(w, RoundOf(0) + RoundOf(1) + RoundOf(1), Round(Round(Round(w, 0), 1), 1), 1);
  }

  // ---------------------------------------------------------------- the mutation takes effect and is backed up

  /** The mutation at `pc`, while its effect is on the gate and not in the copy, and the listing waits. */
  function Asked(pc: Pc): World { Both(Reading(OLD, Waiting), Mutator(pc), Some(SESSION), OLD, FIRST, 2) }

  lemma MutationAsks(w: World)
    requires w == Asked(Reconciled)
    ensures Round(Step(w, Wake(1, Answered)), 1) == Asked(Requesting(1, Waiting))
  {
    BaselineAsked(w, 1);
    var asked := Step(w, Wake(1, Answered));
    assert asked == Asked(Baseline(Some(0), Waiting));
    BaselineRound(asked, 1);
  }

  /** The mutation at `pc`, changed. */
  function Changed(pc: Pc, applied: bool): World {
    Both(Reading(OLD, Waiting), Mutator(pc).(applied := applied, reached := Some(1)), Some(SESSION), NEW, FIRST, 2)
  }

  lemma MutationChanges(w: World)
    requires w == Asked(Requesting(1, Waiting))
    ensures Step(w, Serve(1, Doc("b"), true)) == Changed(Requesting(1, Replied(false)), false)
  {
  }

  lemma MutationAnswered(w: World)
    requires w == Changed(Requesting(1, Replied(false)), false)
    ensures Step(w, Wake(1, Answered)) == Changed(Snapshotting(1, Waiting), true)
  {
    SameClient(w, 1);
  }

  lemma MutationTakesEffect(w: World)
    requires w == Asked(Reconciled)
    ensures Run(w, Changing()) == Changed(Snapshotting(1, Waiting), true)
  {
    var e := [Wake(1, Answered)];
    RunOne(w, Wake(1, Answered));
    ThenRound(w, e, Step(w, Wake(1, Answered)), 1);
    MutationAsks(w);
    MutationChanges(Asked(Requesting(1, Waiting)));
    ThenStep(w, e + RoundOf(1), Asked(Requesting(1, Waiting)), Serve(1, Doc("b"), true));
    MutationAnswered(Changed(Requesting(1, Replied(false)), false));
    ThenStep(w, e + RoundOf(1) + [Serve(1, Doc("b"), true)], Changed(Requesting(1, Replied(false)), false),
             Wake(1, Answered));
    assert Changing() == e + RoundOf(1) + [Serve(1, Doc("b"), true)] + [Wake(1, Answered)];
  }

  const SECOND := map[0 := Stored(Doc("b"), 2, 1)]

  /** The mutation at `pc`, backed up. */
  function Saved(lister: Pc, pc: Pc, backedUp: bool): World {
    Both(lister, Mutator(pc).(applied := true, backedUp := backedUp, reached := Some(1), landed := Some(1)),
         Some(SESSION), NEW, SECOND, 3)
  }

  lemma MutationSnapshots(w: World)
    requires w == Changed(Snapshotting(1, Waiting), true)
    ensures Round(w, 1) == Changed(BackingUp(NEW, 1, Waiting), true)
  {
    DocsHaveContent("b");
    var served := Step(w, Serve(1, Null, false));
    assert served == Changed(Snapshotting(1, Replied(NEW)), true);
    SameClient(served, 1);
  }

  lemma MutationBacksUp(w: World)
    requires w == Changed(BackingUp(NEW, 1, Waiting), true)
    ensures Round(w, 1) == Saved(Reading(OLD, Waiting), Following, true)
  {
    var served := Step(w, Serve(1, Null, false));
    assert served == Saved(Reading(OLD, Waiting), BackingUp(NEW, 1, Replied(())), false);
    SameClient(served, 1);
  }

  lemma MutationReports(w: World)
    requires w == Saved(Reading(OLD, Waiting), Following, true)
    ensures Step(w, Wake(1, Answered)) == Saved(Reading(OLD, Waiting), Settled(Success), true)
  {
    SameClient(w, 1);
  }

  lemma MutationIsBackedUp(w: World)
    requires w == Changed(Snapshotting(1, Waiting), true)
    ensures Run(w, BackingUpAndReporting()) == Saved(Reading(OLD, Waiting), Settled(Success), true)
  {
    RunRound(w, 1);
    MutationSnapshots(w);
    MutationBacksUp(Round(w, 1));
    ThenRound(w, RoundOf(1), Round(w, 1), 1);
    MutationReports(Round(Round(w, 1), 1));
    ThenStep(w, RoundOf(1) + RoundOf(1), Round(Round(w, 1), 1), Wake(1, Answered));
  }

  // ---------------------------------------------------------------- the listing overwrites it

  lemma ListingReadsNewer(w: World)
    requires w == Saved(Reading(OLD, Waiting), Settled(Success), true)
    ensures Round(w, 0) == Saved(Saving(OLD, 2, Waiting), Settled(Success), true)
  {
    DocsHaveContent("a");
    DocsHaveContent("b");
    ReadRound(w, 0);
  }

  lemma ListingSavesOlder(w: World)
    requires w == Saved(Saving(OLD, 2, Waiting), Settled(Success), true)
    ensures Copy(Round(w, 0), 0) == Some(Stored(Doc("a"), 3, 0)) && Gate(Round(w, 0), 0) == NEW
    ensures Round(w, 0).ops == w.ops[0 := Lister(Reconciled)]
  {
    SaveRound(w, 0);
  }

  lemma ListingOverwrites(w: World, v: World)
    requires w == Saved(Reading(OLD, Waiting), Settled(Success), true) && v == Run(w, Overwriting())
    ensures Copy(v, 0) == Some(Stored(Doc("a"), 3, 0)) && Gate(v, 0) == NEW
    ensures |v.ops| == 2 && v.ops[1] == w.ops[1]
  {
    RunRound(w, 0);
    ThenRound(w, RoundOf(0), Round(w, 0), 0);
    ListingReadsNewer(w);
    ListingSavesOlder(Round(w, 0));
  }

  lemma UpToTheReport()
    ensures Run(START, Logins() + Reconciling() + Changing() + BackingUpAndReporting())
         == Saved(Reading(OLD, Waiting), Settled(Success), true)
  {
    BothBegin();
    var w0 := Both(Exporting(Waiting), Mutator(Exporting(Waiting)), None, OLD, map[], 1);
    BothReconcile(w0);
    RunConcat(START, Logins(), Reconciling());
    MutationTakesEffect(Asked(Reconciled));
    RunConcat(START, Logins() + Reconciling(), Changing());
    MutationIsBackedUp(Changed(Snapshotting(1, Waiting), true));
    RunConcat(START, Logins() + Reconciling() + Changing(), BackingUpAndReporting());
  }

  /** A real run of two consoles that ends with the older copy. The first console's listing exports the registry and
      is still to read the copy when the second console's mutation changes the registry, backs the change up and
      reports success; the listing then writes what it exported over that backup. */
  lemma ReportedBackupIsReplaced()
    ensures Initial(START) && |START.clients| == 2
    ensures
      var events := Logins() + Reconciling() + Changing() + BackingUpAndReporting();
      var u, v := Run(START, events), Run(START, events + Overwriting());
      && |u.ops| == |v.ops| == 2 && u.ops[1] == v.ops[1] && v.ops[1].pc == Settled(Success)
      && v.ops[1].reached == v.ops[1].landed == Some(1)
      && Copy(u, 0).Some? && Copy(u, 0).value.value == Doc("b") && Copy(u, 0).value.version == 1
      && Copy(v, 0).Some? && Copy(v, 0).value.value == Doc("a") && Copy(v, 0).value.version == 0
      && Gate(v, 0).value == Doc("b")
  {
    var events := Logins() + Reconciling() + Changing() + BackingUpAndReporting();
    UpToTheReport();
    var u := Run(START, events);
    assert Copy(u, 0) == Some(SECOND[0]);
    RunConcat(START, events, Overwriting());
    ListingOverwrites(u, Run(u, Overwriting()));
  }
}
