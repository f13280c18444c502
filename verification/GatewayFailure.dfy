/** When exactly a call may fail before it is answered: the requests that, left behind, spoil the registry of the
    sessions after it. The access object stays in place. */
module GatewayFailure {
  import opened Options
  import opened Gateway
  import opened GatewayAgreement
  import opened GatewayBoundary
  import opened GatewayHarmless
  import opened GatewayQueue
  import opened GatewayReplacement

  // ---------------------------------------------------------------- without its session every call ends

  /** Beside `Replaced`, the access object holds no session, and calls wait for earlier ones only. */
  ghost predicate Stranded(w: World, x: Access) {
    && Replaced(w, x) && x !in w.keys
    && (forall j | 0 <= j < |w.ops| :: w.ops[j].client == 0 && WaitsForEarlier(w.ops[j], j))
  }

  predicate WaitsForEarlier(op: Op, j: nat) {
    op.pc.Queued? && !Ended(op) && op.after.Some? ==> op.after.value < j
  }

  lemma QueuedEnds(w: World, x: Access, j: nat)
    requires Stranded(w, x) && j < |w.ops| && w.ops[j].pc.Queued? && !Ended(w.ops[j])
    requires forall i | 0 <= i < j :: Ended(w.ops[i])
    ensures var v := Step(w, Start(j));
      && Reaches(w, v) && |v.ops| == |w.ops| && v == w.(ops := w.ops[j := v.ops[j]])
      && Ended(v.ops[j]) && SamePlace(w.ops[j], v.ops[j])
  {
    assert WaitsForEarlier(w.ops[j], j) && Enabled(w, Start(j));
    ReachesSelf(w);
    ReachesStep(w, w, Start(j));
  }

  /** Only calls that were not over have moved, and those are over now. */
  ghost predicate Ends(w: World, u: World, n: nat) {
    && |u.ops| == |w.ops| && u == w.(ops := u.ops) && n <= |w.ops|
    && (forall j | 0 <= j < n :: Ended(u.ops[j]) && SamePlace(w.ops[j], u.ops[j]))
    && (forall j | 0 <= j < |w.ops| && (j >= n || Ended(w.ops[j])) :: u.ops[j] == w.ops[j])
  }

  lemma StillStranded(w: World, u: World, x: Access, n: nat)
    requires Stranded(w, x) && Ends(w, u, n)
    ensures Stranded(u, x)
  {
    forall j | 0 <= j < |u.ops| ensures u.ops[j].client == 0 && WaitsForEarlier(u.ops[j], j) {
      assert WaitsForEarlier(w.ops[j], j) && SamePlace(w.ops[j], u.ops[j]);
    }
    forall j | 0 <= j < |u.ops| && UnderWay(u.ops[j]) ensures FromBefore(u.ops[j], x) {
      assert j >= n;
    }
  }

  lemma {:induction false} AllEnd(w: World, x: Access, n: nat) returns (u: World)
    requires Stranded(w, x) && n <= |w.ops|
    ensures Reaches(w, u) && Ends(w, u, n)
  {
    if n == 0 {
      ReachesSelf(w);
      u := w;
    } else {
      var v := AllEnd(w, x, n - 1);
      StillStranded(w, v, x, n - 1);
      if Ended(v.ops[n - 1]) {
        u := v;
      } else if v.ops[n - 1].pc.Queued? {
        QueuedEnds(v, x, n - 1);
        u := Step(v, Start(n - 1));
        ReachesOn(w, v, u);
      } else {
        u := OneEnds(v, x, n - 1);
        ReachesOn(w, v, u);
      }
    }
  }

  // ---------------------------------------------------------------- a dangerous request left behind

  /** The call that has failed: its request is on its way, and its console still has the access object. */
  ghost predicate LeftAlone(v: World, i: nat, x: Access) {
    && |v.clients| == 1 && v.clients[0].access == Some(x) && v.clients[0].registrySession == None
    && v.nextRevision >= 1 && i < |v.ops| && v.ops[i].left.Some? && Dangerous(v.ops[i], CopyOf(v, v.ops[i]))
    && (forall j | 0 <= j < |v.ops| :: v.ops[j].client == 0 && WaitsForEarlier(v.ops[j], j))
    && (forall j | 0 <= j < |v.ops| && UnderWay(v.ops[j]) :: FromBefore(v.ops[j], x))
    && (v.clients[0].tail.Some? ==> v.clients[0].tail.value < |v.ops|)
  }

  lemma LeftBecomesLone(v: World, u: World, i: nat, x: Access, k: Key)
    requires LeftAlone(v, i, x) && k.account == v.ops[i].key.account
    requires ValidRegistry(Gate(v, k.account).value) && CopyValid(Copy(v, k.account), v.nextRevision)
    requires Ends(Step(v, SetKey(x, None)), u, |v.ops|)
    ensures Lone(Step(u, SetKey(x, Some(k))), i, x, k)
    ensures Step(u, SetKey(x, Some(k))).ops[i] == v.ops[i]
    ensures GateOf(Step(u, SetKey(x, Some(k))), v.ops[i]) == GateOf(v, v.ops[i])
    ensures CopyOf(Step(u, SetKey(x, Some(k))), v.ops[i]) == CopyOf(v, v.ops[i])
  {
    var bare := Step(v, SetKey(x, None));
    assert bare.ops[i] == v.ops[i] && Ended(bare.ops[i]);
  }

  /** Whatever login of the account the access object holds next: all other pending calls end, and the request left
      behind spoils that session. */
  lemma LeftRequestSpoils(v: World, i: nat, x: Access, k: Key)
    requires LeftAlone(v, i, x) && k.account == v.ops[i].key.account
    requires ValidRegistry(Gate(v, k.account).value) && CopyValid(Copy(v, k.account), v.nextRevision)
    requires !Changer(v.ops[i]) ==> GateOf(v, v.ops[i]) == v.ops[i].pc.snap.value
    ensures MayDisagreeAlone(v)
  {
    var bare := Step(v, SetKey(x, None));
    ReachesSelf(v);
    ReachesStep(v, v, SetKey(x, None));
    assert Stranded(bare, x);
    var over := AllEnd(bare, x, |v.ops|);
    ReachesOn(v, bare, over);
    LeftBecomesLone(v, over, i, x, k);
    var lone := Step(over, SetKey(x, Some(k)));
    ReachesStep(v, over, SetKey(x, Some(k)));
    LoneSpoils(lone, i, x, k);
    MayDisagreeBefore(v, lone);
  }

  // ---------------------------------------------------------------- the exact condition

  lemma QueueFacts(w: World)
    requires |w.clients| == 1 && QueueInv(w)
    ensures forall j | 0 <= j < |w.ops| :: w.ops[j].client == 0 && WaitsForEarlier(w.ops[j], j)
    ensures w.clients[0].tail.Some? ==> w.clients[0].tail.value < |w.ops|
  {
    assert TailIsLast(w.clients, w.ops, 0);
    forall j | 0 <= j < |w.ops| ensures w.ops[j].client == 0 && WaitsForEarlier(w.ops[j], j) {
      assert w.ops[j].client < 1;
      if Serialized(w.ops[j]) {
        assert AfterIsPrevious(w.ops, j);
      }
    }
  }

  /** Beside the running call of the open queue, every other call under way is from an earlier one. */
  lemma OthersAreFromBefore(w: World, i: nat, x: Access)
    requires Guarded(w) && i < |w.ops| && w.clients[0].access == Some(x)
    requires UnderWay(w.ops[i]) && Serialized(w.ops[i]) && w.ops[i].access == x
    ensures forall j | 0 <= j < |w.ops| && j != i && UnderWay(w.ops[j]) :: FromBefore(w.ops[j], x)
  {
    assert OpInv(w.clients[0], w.ops[i], GateOf(w, w.ops[i]), CopyOf(w, w.ops[i]));
    forall j | 0 <= j < |w.ops| && j != i && UnderWay(w.ops[j]) ensures FromBefore(w.ops[j], x) {
      assert OpInv(w.clients[0], w.ops[j], GateOf(w, w.ops[j]), CopyOf(w, w.ops[j]));
      assert w.ops[j].client < 1;
      if Serialized(w.ops[j]) && w.ops[j].access == x {
        OnlyOneRuns(w, i, j);
      }
    }
  }

  lemma ForsakenIsLeft(w: World, i: nat, how: How, x: Access)
    requires Guarded(w) && Enabled(w, Wake(i, how)) && !how.Answered? && Forsakes(w, i) && x == w.ops[i].access
    ensures LeftAlone(Step(w, Wake(i, how)), i, x)
  {
    var v := Step(w, Wake(i, how));
    assert w.ops[i].client < 1;
    FailsUnanswered(w, i, how);
    QueueFacts(w);
    OthersAreFromBefore(w, i, x);
    forall j | 0 <= j < |v.ops|
      ensures v.ops[j].client == 0 && WaitsForEarlier(v.ops[j], j) && (UnderWay(v.ops[j]) ==> FromBefore(v.ops[j], x))
    {
      assert WaitsForEarlier(w.ops[j], j);
    }
  }

  lemma ForsakingMayDisagree(w: World, i: nat, how: How)
    requires Guarded(w) && Enabled(w, Wake(i, how)) && !how.Answered? && Forsakes(w, i)
    requires ValidAccount(w, w.ops[i].key.account)
    ensures var v := Step(w, Wake(i, how)); MayDisagreeAlone(v) && MayDisagree(v)
  {
    var v, x, k := Step(w, Wake(i, how)), w.ops[i].access, w.ops[i].key;
    DangerousFacts(w, i);
    ForsakenIsLeft(w, i, how, x);
    FailsUnanswered(w, i, how);
    LeftRequestSpoils(v, i, x, k);
    AloneIsHarmless(v);
  }

  /** The exact guard of a failure. In every world a harmless run leads to, with valid documents: when an await of a
      call fails, some harmless continuation breaks registry agreement if and only if the call holds its console's
      access object and its request is unanswered and dangerous, an effect the server may still have after the failure
      was reported. It then breaks without any replacement of the access object. A call whose request was answered, or
      turned down for good, fails harmlessly. */
  lemma FailureExactly(w0: World, before: seq<Event>, w: World, i: nat, how: How)
    requires Initial(w0) && |w0.clients| == 1 && HarmlessRun(w0, before) && w == Run(w0, before)
    requires Enabled(w, Wake(i, how)) && !how.Answered? && forall a :: ValidAccount(w, a)
    ensures var v := Step(w, Wake(i, how));
      && (Forsakes(w, i) <==> MayDisagree(v))
      && (Forsakes(w, i) <==> MayDisagreeAlone(v))
      && (!Unanswered(w.ops[i].pc) ==> !MayDisagree(v))
  {
    InitialGuarded(w0);
    HarmlessRunIsTimely(w0, before);
    if Forsakes(w, i) {
      ForsakingMayDisagree(w, i, how);
    } else {
      HarmlessAgrees(w, Wake(i, how));
      AloneIsHarmless(Step(w, Wake(i, how)));
    }
  }

  lemma TurnedDownIsHarmless(w: World, i: nat, how: How)
    requires Enabled(w, Decline(i))
    ensures Harmless(w, Decline(i)) && Harmless(Step(w, Decline(i)), Wake(i, how))
  {
  }

  /** A request that is turned down for good is never to blame: whatever it asked for, no harmless continuation
      disagrees, before or after its call fails. */
  lemma DeclinedNeverSpoils(w0: World, before: seq<Event>, w: World, i: nat, how: How)
    requires Initial(w0) && |w0.clients| == 1 && HarmlessRun(w0, before) && w == Run(w0, before)
    requires Enabled(w, Decline(i)) && !how.Answered?
    ensures var v := Step(w, Decline(i)); !MayDisagree(v) && !MayDisagree(Step(v, Wake(i, how)))
  {
    InitialGuarded(w0);
    HarmlessRunIsTimely(w0, before);
    TurnedDownIsHarmless(w, i, how);
    HarmlessAgrees(w, Decline(i));
    HarmlessStepGuards(w, Decline(i));
    HarmlessAgrees(Step(w, Decline(i)), Wake(i, how));
  }

  lemma WaitingMutationFails(w: World)
    requires |w.clients| == 1 && |w.ops| == 1 && w.clients[0].access == Some(1)
    requires w.ops[0].client == 0 && w.ops[0].access == 1 && w.ops[0].kind.Mutation? && w.ops[0].left.None?
    requires w.ops[0].pc.Requesting? && w.ops[0].pc.answer.Waiting? && !w.ops[0].applied && !w.ops[0].backedUp
    ensures Enabled(w, Wake(0, Threw)) && Forsakes(w, 0)
    ensures var v := Step(w, Wake(0, Threw)); |v.ops| == 1 && v.ops[0].left == Some(RegistryUnavailable)
  {
    assert Changer(w.ops[0]);
  }

  /** Such a failure is reached: at first contact, with an empty gate and no copy, the mutation's request throws
      before it is answered, and the console is told that the registry is unavailable. */
  lemma FailureIsReached()
    ensures Initial(FRESH) && HarmlessRun(FRESH, FirstContact())
    ensures var w := Run(FRESH, FirstContact());
      && Enabled(w, Wake(0, Threw)) && Forsakes(w, 0)
      && var v := Step(w, Wake(0, Threw));
         |v.ops| == 1 && v.ops[0].left == Some(RegistryUnavailable) && MayDisagreeAlone(v)
  {
    var w := FirstContactAsks();
    WaitingMutationIsDanger(w);
    WaitingMutationFails(w);
    FailureExactly(FRESH, FirstContact(), w, 0, Threw);
  }
}
