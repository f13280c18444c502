/** What a console does after a request of its own was turned down for good: the next listing reconciles again, and
    decides between the gate and the copy as they stand. */
module GatewayRecovery {
  import opened Options
  import opened Gateway
  import opened GatewayAgreement
  import opened GatewayBoundary
  import opened GatewayReplacement
  import Backups = GatewayBackups

  /** The last call of the console's queue, with its session in place and its request undecided. */
  ghost predicate Pending(w: World, i: nat) {
    && |w.clients| == 1 && Live(w, i) && w.ops[i].client == 0 && w.clients[0].tail == Some(i)
    && Serialized(w.ops[i]) && Unanswered(w.ops[i].pc)
  }

  ghost predicate ValidSides(w: World, a: Account) {
    w.nextRevision >= 1 && ValidRegistry(Gate(w, a).value) && CopyValid(Copy(w, a), w.nextRevision)
  }

  /** Its request is turned down, and the await fails. */
  function Refusal(w: World, i: nat, how: How): World { Step(Step(w, Decline(i)), Wake(i, how)) }

  lemma RefusedCallEnds(w: World, i: nat, how: How)
    requires Pending(w, i) && !how.Answered? && (how.Refused? ==> GatewayAwait(w.ops[i].pc))
    ensures var op, v := w.ops[i], Refusal(w, i, how);
      && v.gates == w.gates && v.copies == w.copies && v.keys == w.keys && v.nextRevision == w.nextRevision
      && v.clients == [w.clients[0].(registrySession := None)]
      && v.ops == w.ops[i := v.ops[i]] && v.ops[i].pc == Settled(Fail(w.clients[0], op, how.Refused?).1.pc.outcome)
  {
    var declined := Step(w, Decline(i));
    assert declined.ops[i] == w.ops[i].(pc := TurnedDown(w.ops[i].pc));
  }

  /** What a listing makes of the two sides, after the refusal. */
  ghost predicate Decides(w: World, v: World, n: nat, a: Account)
    requires ValidSides(w, a)
  {
    var g, d := Gate(w, a).value, Copy(w, a);
    var undone := EmptyRegistry(g) && d.Some? && !EmptyRegistry(d.value.value);
    && n < |v.ops| && v.ops[n].pc.Reconciled? && InAgreement(v, a)
    && (Gate(v, a).value == g <==> !undone)
    && (undone ==> Gate(v, a).value == d.value.value)
  }

  /** A listing, begun after the refusal and left alone, up to the end of its reconcile. */
  function NextListing(w: World): World
    requires |w.clients| == 1
  {
    var begun := Open(w, Listing);
    if |w.ops| < |begun.ops| then Reconcile(begun, |w.ops|) else begun
  }

  lemma RefusedCallRecovers(w: World, i: nat, how: How)
    requires Pending(w, i) && !how.Answered? && (how.Refused? ==> GatewayAwait(w.ops[i].pc))
    requires ValidSides(w, w.ops[i].key.account)
    ensures var v := Refusal(w, i, how);
      && |v.clients| == 1 && i < |v.ops| && v.ops[i].pc.Settled?
      && Decides(w, NextListing(v), |w.ops|, w.ops[i].key.account)
  {
    var x, k, v := w.ops[i].access, w.ops[i].key, Refusal(w, i, how);
    RefusedCallEnds(w, i, how);
    assert Base(v, x, k);
    Opens(v, x, k, Listing);
    ChangeSurvivesReconcileExactly(Open(v, Listing), |v.ops|);
  }

  /** A mutation whose backup fails for good. In every run: the gate has the change, the user is told that its backup
      failed, and the next listing keeps the change if and only if it did not leave the gate empty over a copy with
      contents; otherwise the old copy comes back. The two sides agree afterwards either way. */
  lemma FailedBackupExactly(w0: World, before: seq<Event>, w: World, i: nat)
    requires Initial(w0) && w == Run(w0, before) && Pending(w, i) && w.ops[i].pc.BackingUp?
    requires var a := w.ops[i].key.account;
             ValidRegistry(Gate(w, a).value) && (Copy(w, a).Some? ==> ValidRegistry(Copy(w, a).value.value))
    ensures ValidSides(w, w.ops[i].key.account) && w.ops[i].reached.Some?
    ensures var v := Refusal(w, i, Threw);
      && |v.clients| == 1 && i < |v.ops| && v.ops[i].pc == Settled(BackupFailed)
      && Decides(w, NextListing(v), |w.ops|, w.ops[i].key.account)
  {
    var a := w.ops[i].key.account;
    Backups.InitialSound(w0);
    Backups.RunKeeps(w0, before);
    assert Backups.CopySound(Gate(w, a), Copy(w, a), w.nextRevision);
    assert Backups.OpSound(w.ops[i], Gate(w, a), Copy(w, a), w.nextRevision);
    RefusedCallEnds(w, i, Threw);
    RefusedCallRecovers(w, i, Threw);
  }
}
