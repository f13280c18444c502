/** Serialized calls of one queue run one at a time and in call order, whatever fails. */
module GatewayQueue {
  import opened Options
  import opened Gateway

  ghost predicate SameQueue(ops: seq<Op>, i: nat, j: nat)
    requires i < |ops| && j < |ops|
  {
    && Serialized(ops[i]) && Serialized(ops[j])
    && ops[i].client == ops[j].client && ops[i].epoch == ops[j].epoch
  }

  /** Call `i` is in the queue client `c` appends to. */
  ghost predicate InOpenQueue(clients: seq<Client>, ops: seq<Op>, i: nat, c: nat)
    requires i < |ops| && c < |clients|
  {
    Serialized(ops[i]) && ops[i].client == c && ops[i].epoch == clients[c].epoch
  }

  ghost predicate OpsBelong(clients: seq<Client>, ops: seq<Op>) {
    forall i | 0 <= i < |ops| ::
      && ops[i].client < |clients|
      && ops[i].epoch <= clients[ops[i].client].epoch
      && (ops[i].kind.Plain? ==> !ops[i].pc.Queued?)
      && (ops[i].left.Some? ==> Running(ops[i]))
  }

  /** `tail` is the last call of the open queue. */
  ghost predicate TailIsLast(clients: seq<Client>, ops: seq<Op>, c: nat)
    requires c < |clients|
  {
    match clients[c].tail
    case None => forall i | 0 <= i < |ops| :: !InOpenQueue(clients, ops, i, c)
    case Some(t) =>
      && t < |ops| && InOpenQueue(clients, ops, t, c)
      && forall i | 0 <= i < |ops| :: InOpenQueue(clients, ops, i, c) ==> i <= t
  }

  /** `after` is the previous call of the same queue. */
  ghost predicate AfterIsPrevious(ops: seq<Op>, j: nat)
    requires j < |ops| && Serialized(ops[j])
  {
    match ops[j].after
    case None => forall i | 0 <= i < j :: !SameQueue(ops, i, j)
    case Some(t) => t < j && SameQueue(ops, t, j) && forall i | 0 <= i < j :: SameQueue(ops, i, j) ==> i <= t
  }

  /** A call that has begun finds every earlier call of its queue ended. */
  ghost predicate InOrder(ops: seq<Op>) {
    forall i, j | 0 <= i < j < |ops| ::
      SameQueue(ops, i, j) && !ops[j].pc.Queued? ==> Ended(ops[i])
  }

  ghost predicate QueueInvOf(clients: seq<Client>, ops: seq<Op>) {
    && OpsBelong(clients, ops)
    && (forall c | 0 <= c < |clients| :: TailIsLast(clients, ops, c))
    && (forall j | 0 <= j < |ops| :: Serialized(ops[j]) ==> AfterIsPrevious(ops, j))
    && InOrder(ops)
  }

  ghost predicate QueueInv(w: World) { QueueInvOf(w.clients, w.ops) }

  predicate SamePlace(a: Op, b: Op) {
    a.client == b.client && a.epoch == b.epoch && a.access == b.access && a.key == b.key
    && a.kind == b.kind && a.after == b.after
  }

  /** Only call `i` moves, and only forward; queues and tails stay. */
  ghost predicate Moves(w: World, v: World, i: nat) {
    && |v.ops| == |w.ops| && |v.clients| == |w.clients| && i < |w.ops|
    && (forall j | 0 <= j < |w.ops| :: j != i ==> v.ops[j] == w.ops[j])
    && SamePlace(w.ops[i], v.ops[i])
    && (v.ops[i].pc.Queued? ==> w.ops[i].pc.Queued?)
    && (Ended(w.ops[i]) ==> Ended(v.ops[i])) && (v.ops[i].left.Some? ==> Running(v.ops[i]))
    && (forall c | 0 <= c < |w.clients| ::
          && v.clients[c].access == w.clients[c].access
          && v.clients[c].tail == w.clients[c].tail && v.clients[c].epoch == w.clients[c].epoch)
    && v.keys == w.keys
  }

  function Moved(e: Event): Option<nat> {
    match e
    case Start(i) => Some(i)
    case Serve(i, _, _) => Some(i)
    case Decline(i) => Some(i)
    case Wake(i, _) => Some(i)
    case _ => None
  }

  lemma StepMoves(w: World, e: Event)
    requires Enabled(w, e) && Moved(e).Some? && OpsBelong(w.clients, w.ops)
    ensures Moves(w, Step(w, e), Moved(e).value)
  {
  }

  lemma MovesKeepStructure(w: World, v: World, i: nat)
    requires QueueInv(w) && Moves(w, v, i)
    ensures OpsBelong(v.clients, v.ops)
    ensures forall c | 0 <= c < |v.clients| :: TailIsLast(v.clients, v.ops, c)
    ensures forall j | 0 <= j < |v.ops| :: Serialized(v.ops[j]) ==> AfterIsPrevious(v.ops, j)
  {
    assert forall a, b | 0 <= a < |w.ops| && 0 <= b < |w.ops| :: SameQueue(v.ops, a, b) == SameQueue(w.ops, a, b);
    assert forall a, c | 0 <= a < |w.ops| && 0 <= c < |w.clients| ::
      InOpenQueue(v.clients, v.ops, a, c) == InOpenQueue(w.clients, w.ops, a, c);
    forall c | 0 <= c < |v.clients| ensures TailIsLast(v.clients, v.ops, c) {
      assert TailIsLast(w.clients, w.ops, c);
    }
    forall j | 0 <= j < |v.ops| && Serialized(v.ops[j]) ensures AfterIsPrevious(v.ops, j) {
      assert Serialized(w.ops[j]) && AfterIsPrevious(w.ops, j);
    }
  }

  /** When its turn has come, everything before call `j` in its queue has ended. */
  lemma TurnMeansEnded(w: World, j: nat, i: nat)
    requires QueueInv(w) && i < j < |w.ops| && SameQueue(w.ops, i, j)
    requires QueueReached(w, w.ops[j])
    ensures Ended(w.ops[i])
  {
    assert AfterIsPrevious(w.ops, j);
    var t := w.ops[j].after.value;
    if i < t {
      assert SameQueue(w.ops, i, t);
    }
  }

  lemma MovesKeepOrder(w: World, v: World, i: nat)
    requires QueueInv(w) && Moves(w, v, i)
    requires w.ops[i].pc.Queued? && !v.ops[i].pc.Queued? ==> QueueReached(w, w.ops[i])
    ensures InOrder(v.ops)
  {
    forall a, b | 0 <= a < b < |v.ops| && SameQueue(v.ops, a, b) && !v.ops[b].pc.Queued?
      ensures Ended(v.ops[a])
    {
      assert SameQueue(w.ops, a, b);
      if w.ops[b].pc.Queued? {
        TurnMeansEnded(w, b, a);
      }
    }
  }

  /** Appending a call: earlier calls keep their relations, and the tail is its predecessor. */
  lemma CallAppends(w: World, c: nat, kind: Kind)
    requires QueueInv(w) && Enabled(w, Call(c, kind))
    ensures var v := Step(w, Call(c, kind));
            && |v.ops| == |w.ops| + 1 && v.ops[..|w.ops|] == w.ops
            && v.ops[|w.ops|].client == c && v.ops[|w.ops|].epoch == w.clients[c].epoch && v.ops[|w.ops|].kind == kind
            && v.ops[|w.ops|].left.None?
            && |v.clients| == |w.clients|
            && (forall d | 0 <= d < |w.clients| :: v.clients[d].epoch == w.clients[d].epoch)
            && (forall d | 0 <= d < |w.clients| && d != c :: v.clients[d] == w.clients[d])
            && if kind.Plain? then !v.ops[|w.ops|].pc.Queued? && v.clients[c].tail == w.clients[c].tail
               else v.ops[|w.ops|].after == w.clients[c].tail && v.clients[c].tail == Some(|w.ops|)
                    && v.ops[|w.ops|].pc.Queued?
  {
  }

  lemma AppendedKeepsTails(w: World, v: World, c: nat)
    requires QueueInv(w) && c < |w.clients| == |v.clients|
    requires |v.ops| == |w.ops| + 1 && v.ops[..|w.ops|] == w.ops
    requires v.ops[|w.ops|].client == c && v.ops[|w.ops|].epoch == w.clients[c].epoch
    requires forall d | 0 <= d < |w.clients| :: v.clients[d].epoch == w.clients[d].epoch
    requires forall d | 0 <= d < |w.clients| && d != c :: v.clients[d] == w.clients[d]
    requires v.clients[c].tail == if v.ops[|w.ops|].kind.Plain? then w.clients[c].tail else Some(|w.ops|)
    ensures forall d | 0 <= d < |v.clients| :: TailIsLast(v.clients, v.ops, d)
  {
    assert forall i | 0 <= i < |w.ops| :: v.ops[i] == v.ops[..|w.ops|][i];
    forall d | 0 <= d < |v.clients| ensures TailIsLast(v.clients, v.ops, d) {
      assert TailIsLast(w.clients, w.ops, d);
      assert forall i | 0 <= i < |w.ops| :: InOpenQueue(v.clients, v.ops, i, d) == InOpenQueue(w.clients, w.ops, i, d);
    }
  }

  lemma AppendedKeepsPrevious(w: World, v: World, c: nat)
    requires QueueInv(w) && c < |w.clients|
    requires |v.ops| == |w.ops| + 1 && v.ops[..|w.ops|] == w.ops
    requires v.ops[|w.ops|].client == c && v.ops[|w.ops|].epoch == w.clients[c].epoch
    requires Serialized(v.ops[|w.ops|]) ==> v.ops[|w.ops|].after == w.clients[c].tail
    ensures forall j | 0 <= j < |v.ops| :: Serialized(v.ops[j]) ==> AfterIsPrevious(v.ops, j)
  {
    var n := |w.ops|;
    assert forall i | 0 <= i < n :: v.ops[i] == v.ops[..n][i];
    assert forall a, b | 0 <= a < n && 0 <= b < n :: SameQueue(v.ops, a, b) == SameQueue(w.ops, a, b);
    forall j | 0 <= j < |v.ops| && Serialized(v.ops[j]) ensures AfterIsPrevious(v.ops, j) {
      if j < n {
        assert AfterIsPrevious(w.ops, j);
      } else {
        assert TailIsLast(w.clients, w.ops, c);
        assert forall i | 0 <= i < n :: SameQueue(v.ops, i, n) == InOpenQueue(w.clients, w.ops, i, c);
      }
    }
  }

  lemma CallKeepsQueue(w: World, c: nat, kind: Kind)
    requires QueueInv(w) && Enabled(w, Call(c, kind))
    ensures QueueInv(Step(w, Call(c, kind)))
  {
    var v := Step(w, Call(c, kind));
    CallAppends(w, c, kind);
    AppendedKeepsTails(w, v, c);
    AppendedKeepsPrevious(w, v, c);
    assert forall i | 0 <= i < |w.ops| :: v.ops[i] == v.ops[..|w.ops|][i];
    forall a, b | 0 <= a < b < |v.ops| && SameQueue(v.ops, a, b) && !v.ops[b].pc.Queued?
      ensures Ended(v.ops[a])
    {
      assert SameQueue(w.ops, a, b);
    }
  }

  lemma SetAccessKeepsQueue(w: World, c: nat, access: Option<Access>)
    requires QueueInv(w) && c < |w.clients|
    ensures QueueInv(Step(w, SetAccess(c, access)))
  {
    var v := Step(w, SetAccess(c, access));
    assert forall a, b | 0 <= a < |w.ops| && 0 <= b < |w.ops| :: SameQueue(v.ops, a, b) == SameQueue(w.ops, a, b);
    forall d | 0 <= d < |v.clients| ensures TailIsLast(v.clients, v.ops, d) {
      assert TailIsLast(w.clients, w.ops, d);
      if d != c {
        assert forall i | 0 <= i < |w.ops| ::
            InOpenQueue(v.clients, v.ops, i, d) == InOpenQueue(w.clients, w.ops, i, d);
      }
    }
    forall j | 0 <= j < |v.ops| && Serialized(v.ops[j]) ensures AfterIsPrevious(v.ops, j) {
      assert AfterIsPrevious(w.ops, j);
    }
    assert InOrder(v.ops) by {
      assert forall a, b | 0 <= a < b < |w.ops| :: SameQueue(v.ops, a, b) ==> SameQueue(w.ops, a, b);
    }
  }

  lemma StepKeepsQueue(w: World, e: Event)
    requires QueueInv(w)
    ensures QueueInv(Step(w, e))
  {
    if Enabled(w, e) {
      match e
      case Call(c, kind) => CallKeepsQueue(w, c, kind);
      case SetAccess(c, access) => SetAccessKeepsQueue(w, c, access);
      case SetKey(_, _) =>
      case _ =>
        var i := Moved(e).value;
        StepMoves(w, e);
        MovesKeepStructure(w, Step(w, e), i);
        MovesKeepOrder(w, Step(w, e), i);
    }
  }

  lemma {:induction false} RunKeepsQueue(w: World, events: seq<Event>)
    requires QueueInv(w)
    ensures QueueInv(Run(w, events))
    decreases |events|
  {
    if events != [] {
      StepKeepsQueue(w, events[0]);
      RunKeepsQueue(Step(w, events[0]), events[1..]);
    }
  }

  /** In every run of any number of consoles, with any failures and session changes: when a
      serialized call has begun, every earlier call of its queue is over, so at most one of them
      is under way and they begin in call order. */
  lemma OneAtATimeInCallOrder(w: World, events: seq<Event>, i: nat, j: nat)
    requires Initial(w)
    requires var v := Run(w, events); i < j < |v.ops| && SameQueue(v.ops, i, j)
    ensures var v := Run(w, events);
            && (!v.ops[j].pc.Queued? ==> Ended(v.ops[i]))
            && !(UnderWay(v.ops[i]) && UnderWay(v.ops[j]))
  {
    RunKeepsQueue(w, events);
  }
}
