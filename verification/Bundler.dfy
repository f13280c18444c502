/** The bundler's submit path: one EOA, one lock around "read the nonce, sign, broadcast, record", any number
    of concurrent submits, lost replies and dropped connections. Each await is one step. */
module Bundler {
  import opened Options
  import opened ByteStrings
  import opened Hex
  import opened Text

  /** A client may ask in any letter case: the lower-cased text is the recorded key, and names one hash only. */
  lemma LookupIgnoresCase(asked: string, a: Bytes, b: Bytes)
    requires Lower(asked) == HexText(a)
    ensures Lower(HexText(a)) == HexText(a)
    ensures HexText(a) == HexText(b) ==> a == b
  {
    HexDigitsAreLower(a);
    var s, rest := HexText(a), HexDigits(a);
    forall i | 0 <= i < |s| ensures LowerChar(s[i]) == s[i] {
      if i >= 2 {
        assert s[i] == rest[i - 2];
        assert Lower(rest)[i - 2] == LowerChar(rest[i - 2]);
      }
    }
    if HexText(a) == HexText(b) {
      assert HexText(a)[2..] == HexDigits(a) && HexText(b)[2..] == HexDigits(b);
      HexDigitsInjective(a, b, HexDigits(a));
    }
  }

  // ---------------------------------------------------------------- one submit

  /** A packed operation, by its user operation hash and its `handleOps` call data. */
  datatype Operation = Operation(hash: Bytes, callData: Bytes)
  datatype SubmittedTx = SubmittedTx(txHash: string, callData: Bytes, operation: Operation)

  datatype Pc =
    | LockWait
    | NonceWait
    | GasWait(nonce: nat)
    | BroadcastWait(nonce: nat, gasPrice: nat)
    | RecordWait(txHash: string)
    | Done(ok: bool)
  datatype Call = Call(operation: Operation, pc: Pc)
  datatype Server = Server(
    fixedPrice: Option<nat>, lock: Option<nat>, calls: seq<Call>, submitted: map<string, SubmittedTx>)

  function Move(s: Server, i: nat, pc: Pc): Server
    requires i < |s.calls|
  {
    s.(calls := s.calls[i := s.calls[i].(pc := pc)])
  }

  /** The guard is dropped. */
  function Leave(s: Server, i: nat, ok: bool): Server
    requires i < |s.calls|
  {
    Move(s, i, Done(ok)).(lock := if s.lock == Some(i) then None else s.lock)
  }

  function Acquire(s: Server, i: nat): Server
    requires i < |s.calls|
  {
    if s.lock.Some? then s else Move(s, i, NonceWait).(lock := Some(i))
  }

  function Sign(s: Server, i: nat, nonce: nat, gasPrice: nat, signed: bool): Server
    requires i < |s.calls|
  {
    if signed then Move(s, i, BroadcastWait(nonce, gasPrice)) else Leave(s, i, false)
  }

  function AfterNonce(s: Server, i: nat, nonce: Option<nat>, signed: bool): Server
    requires i < |s.calls|
  {
    if nonce.None? then Leave(s, i, false)
    else if s.fixedPrice.Some? then Sign(s, i, nonce.value, s.fixedPrice.value, signed)
    else Move(s, i, GasWait(nonce.value))
  }

  /** The node's quote with a quarter on top; the multiplication wraps around in 128 bits. */
  function Headroom(quote: Uint128): nat { quote * 125 % U128 / 100 }

  /** The price is the quote and a quarter of it exactly while the multiplication fits; beyond that it drops below the
      quote. */
  lemma HeadroomExactly(quote: Uint128)
    ensures quote * 125 < U128 ==> Headroom(quote) == quote + quote / 4
    ensures Headroom(quote) >= quote <==> quote * 125 < U128
  {
  }

  /** After the answer to the gas price question. */
  function AfterGas(s: Server, i: nat, quote: Option<Uint128>, signed: bool): Server
    requires i < |s.calls| && s.calls[i].pc.GasWait?
  {
    if quote.None? then Leave(s, i, false)
    else Sign(s, i, s.calls[i].pc.nonce, Headroom(quote.value), signed)
  }

  function AfterBroadcast(s: Server, i: nat, txHash: Option<string>): Server
    requires i < |s.calls|
  {
    if txHash.None? then Leave(s, i, false) else Move(s, i, RecordWait(txHash.value))
  }

  function Record(s: Server, i: nat): Server
    requires i < |s.calls| && s.calls[i].pc.RecordWait?
  {
    var op := s.calls[i].operation;
    Leave(s.(submitted := s.submitted[HexText(op.hash) := SubmittedTx(s.calls[i].pc.txHash, op.callData, op)]), i, true)
  }

  // ---------------------------------------------------------------- receipts

  /** The chain's receipt, as far as the bundler looks at it. */
  datatype Receipt = Receipt(transactionHash: Option<string>, outerReverted: bool)
  datatype ChainReply = ChainFailed | Pending | Mined(receipt: Receipt)
  datatype Answer =
    | Null
    | Failure
    | Found(hash: string, success: bool, receipt: Receipt, reason: Option<string>)

  /** `executed` is the receipt's verdict on the operation (None: it does not speak of it), `replayed` the
      reason a replay of the call recovers. */
  function Lookup(submitted: map<string, SubmittedTx>, asked: string, reply: ChainReply,
                  executed: Option<bool>, replayed: Option<string>): Answer {
    var hash := Lower(asked);
    if hash !in submitted then Null
    else match reply
      case ChainFailed => Failure
      case Pending => Null
      case Mined(receipt) =>
        if receipt.transactionHash != Some(submitted[hash].txHash) || executed.None? then Failure
        else Found(hash, executed.value, receipt,
                   if receipt.outerReverted then replayed
                   else if executed.value then None else Some("UserOperation execution reverted"))
  }

  // ---------------------------------------------------------------- the shared state, updated in place

  class BundlerState {
    const fixedPrice: Option<nat>
    var lock: Option<nat>
    var calls: seq<Call>
    var submitted: map<string, SubmittedTx>

    ghost function View(): Server
      reads this
    {
      Server(fixedPrice, lock, calls, submitted)
    }

    constructor (gasPrice: Option<nat>)
      ensures View() == Server(gasPrice, None, [], map[])
    {
      fixedPrice, lock, calls, submitted := gasPrice, None, [], map[];
    }

    method Submit(operation: Operation) returns (i: nat)
      modifies this
      ensures i == |old(calls)|
      ensures View() == old(View()).(calls := old(calls) + [Call(operation, LockWait)])
    {
      i := |calls|;
      calls := calls + [Call(operation, LockWait)];
    }

    method TakeLock(i: nat)
      requires i < |calls|
      modifies this
      ensures View() == Acquire(old(View()), i)
    {
      if lock.None? {
        lock := Some(i);
        calls := calls[i := calls[i].(pc := NonceWait)];
      }
    }

    method Return(i: nat, ok: bool)
      requires i < |calls|
      modifies this
      ensures View() == Leave(old(View()), i, ok)
    {
      calls := calls[i := calls[i].(pc := Done(ok))];
      if lock == Some(i) {
        lock := None;
      }
    }

    method OnNonce(i: nat, nonce: Option<nat>, signed: bool)
      requires i < |calls|
      modifies this
      ensures View() == AfterNonce(old(View()), i, nonce, signed)
    {
      match nonce
      case None => Return(i, false);
      case Some(n) =>
        match fixedPrice
        case Some(price) =>
          if signed {
            calls := calls[i := calls[i].(pc := BroadcastWait(n, price))];
          } else {
            Return(i, false);
          }
        case None =>
          calls := calls[i := calls[i].(pc := GasWait(n))];
    }

    method OnGas(i: nat, quote: Option<Uint128>, signed: bool)
      requires i < |calls| && calls[i].pc.GasWait?
      modifies this
      ensures View() == AfterGas(old(View()), i, quote, signed)
    {
      if quote.None? || !signed {
        Return(i, false);
      } else {
        var price := Headroom(quote.value);
        calls := calls[i := calls[i].(pc := BroadcastWait(calls[i].pc.nonce, price))];
      }
    }

    method OnBroadcast(i: nat, txHash: Option<string>)
      requires i < |calls|
      modifies this
      ensures View() == AfterBroadcast(old(View()), i, txHash)
    {
      if txHash.None? {
        Return(i, false);
      } else {
        calls := calls[i := calls[i].(pc := RecordWait(txHash.value))];
      }
    }

    method Insert(i: nat)
      requires i < |calls| && calls[i].pc.RecordWait?
      modifies this
      ensures View() == Record(old(View()), i)
    {
      var op := calls[i].operation;
      submitted := submitted[HexText(op.hash) := SubmittedTx(calls[i].pc.txHash, op.callData, op)];
      Return(i, true);
    }

    method GetReceipt(asked: string, reply: ChainReply, executed: Option<bool>, replayed: Option<string>)
      returns (answer: Answer)
      ensures answer == Lookup(submitted, asked, reply, executed, replayed)
    {
      var hash := Lower(asked);
      if hash !in submitted || reply.Pending? {
        return Null;
      }
      if reply.ChainFailed? || reply.receipt.transactionHash != Some(submitted[hash].txHash) || executed.None? {
        return Failure;
      }
      var reason: Option<string> := None;
      if reply.receipt.outerReverted {
        reason := replayed;
      } else if !executed.value {
        reason := Some("UserOperation execution reverted");
      }
      answer := Found(hash, executed.value, reply.receipt, reason);
    }
  }

  // ---------------------------------------------------------------- the node, and runs

  /** A transaction the node accepted, and the submit it came from. */
  datatype Accepted = Accepted(nonce: nat, txHash: string, operation: Operation, submit: nat)
  /** `base` is the account's transaction count before this bundler started; nobody else uses the account. */
  datatype World = World(server: Server, base: nat, chain: seq<Accepted>)

  function PendingCount(w: World): nat { w.base + |w.chain| }

  /** The node accepts the broadcast of `i` now, as the transaction `txHash`. */
  function Accept(w: World, i: nat, txHash: string): World
    requires i < |w.server.calls| && w.server.calls[i].pc.BroadcastWait?
  {
    var c := w.server.calls[i];
    w.(chain := w.chain + [Accepted(c.pc.nonce, txHash, c.operation, i)])
  }

  datatype Event =
    | Submitted(operation: Operation)
    | Locked(i: nat)
    | NonceReply(i: nat, answered: bool, signed: bool)
    | GasReply(i: nat, quote: Option<Uint128>, signed: bool)
    | BroadcastReply(i: nat, accepted: bool, txHash: string, answered: bool)
    | Recorded(i: nat)
    | Dropped(i: nat, accepted: bool, txHash: string)

  /** An answered nonce is the node's pending count; an answered broadcast was accepted; a broadcast that fails,
      or whose caller goes away, may have been accepted or not. */
  function Step(w: World, e: Event): World {
    var s := w.server;
    match e
    case Submitted(op) => w.(server := s.(calls := s.calls + [Call(op, LockWait)]))
    case Locked(i) => if i < |s.calls| && s.calls[i].pc.LockWait? then w.(server := Acquire(s, i)) else w
    case NonceReply(i, answered, signed) =>
      if i < |s.calls| && s.calls[i].pc.NonceWait?
      then w.(server := AfterNonce(s, i, if answered then Some(PendingCount(w)) else None, signed)) else w
    case GasReply(i, quote, signed) =>
      if i < |s.calls| && s.calls[i].pc.GasWait? then w.(server := AfterGas(s, i, quote, signed)) else w
    case BroadcastReply(i, accepted, txHash, answered) =>
      if i < |s.calls| && s.calls[i].pc.BroadcastWait?
      then (if accepted then Accept(w, i, txHash) else w)
           .(server := AfterBroadcast(s, i, if accepted && answered then Some(txHash) else None))
      else w
    case Recorded(i) => if i < |s.calls| && s.calls[i].pc.RecordWait? then w.(server := Record(s, i)) else w
    case Dropped(i, accepted, txHash) =>
      if i < |s.calls| && !s.calls[i].pc.Done?
      then (if s.calls[i].pc.BroadcastWait? && accepted then Accept(w, i, txHash) else w)
           .(server := Leave(s, i, false))
      else w
  }

  function Run(w: World, events: seq<Event>): World
    decreases |events|
  {
    if events == [] then w else Run(Step(w, events[0]), events[1..])
  }

  function Start(fixedPrice: Option<nat>, base: nat): World {
    World(Server(fixedPrice, None, [], map[]), base, [])
  }

  // ---------------------------------------------------------------- what every step keeps

  predicate InSection(pc: Pc) { !pc.LockWait? && !pc.Done? }
  predicate BeforeBroadcast(pc: Pc) { !pc.RecordWait? && !pc.Done? }

  ghost predicate LockHeld(s: Server) {
    && (forall i: nat | i < |s.calls| :: InSection(s.calls[i].pc) <==> s.lock == Some(i))
    && (s.lock.Some? ==> s.lock.value < |s.calls|)
  }

  /** The nonce in hand is the node's pending count. */
  ghost predicate NonceInHand(pc: Pc, count: nat) {
    (pc.GasWait? || pc.BroadcastWait?) ==> pc.nonce == count
  }

  ghost predicate NoncesInHand(calls: seq<Call>, count: nat) {
    forall i: nat | i < |calls| :: NonceInHand(calls[i].pc, count)
  }

  ghost predicate Consecutive(chain: seq<Accepted>, base: nat) {
    forall k: nat | k < |chain| :: chain[k].nonce == base + k
  }

  /** Each submit broadcasts at most once, and its broadcast carries its operation. */
  ghost predicate OncePerSubmit(chain: seq<Accepted>, calls: seq<Call>) {
    && (forall k: nat | k < |chain| :: chain[k].submit < |calls|
          && !BeforeBroadcast(calls[chain[k].submit].pc) && chain[k].operation == calls[chain[k].submit].operation)
    && (forall j, k | 0 <= j < k < |chain| :: chain[j].submit != chain[k].submit)
  }

  ghost predicate OnChain(chain: seq<Accepted>, operation: Operation, txHash: string) {
    exists k: nat | k < |chain| :: chain[k].operation == operation && chain[k].txHash == txHash
  }

  ghost predicate RecordsTrue(submitted: map<string, SubmittedTx>, chain: seq<Accepted>) {
    forall key | key in submitted ::
      var r := submitted[key];
      key == HexText(r.operation.hash) && r.callData == r.operation.callData && OnChain(chain, r.operation, r.txHash)
  }

  ghost predicate AnswersTrue(calls: seq<Call>, submitted: map<string, SubmittedTx>, chain: seq<Accepted>) {
    && (forall i: nat | i < |calls| && calls[i].pc.RecordWait? ::
          OnChain(chain, calls[i].operation, calls[i].pc.txHash))
    && (forall i: nat | i < |calls| && calls[i].pc == Done(true) :: HexText(calls[i].operation.hash) in submitted)
  }

  ghost predicate Inv(w: World) {
    && LockHeld(w.server)
    && NoncesInHand(w.server.calls, PendingCount(w))
    && Consecutive(w.chain, w.base)
    && OncePerSubmit(w.chain, w.server.calls)
    && RecordsTrue(w.server.submitted, w.chain)
    && AnswersTrue(w.server.calls, w.server.submitted, w.chain)
  }

  lemma StaysOnChain(chain: seq<Accepted>, more: Accepted, operation: Operation, txHash: string)
    requires OnChain(chain, operation, txHash)
    ensures OnChain(chain + [more], operation, txHash)
  {
    var k: nat :| k < |chain| && chain[k].operation == operation && chain[k].txHash == txHash;
    assert (chain + [more])[k] == chain[k];
  }

  /** A call moves on without touching the node. */
  lemma MoveKeeps(w: World, i: nat, pc: Pc, lock: Option<nat>)
    requires Inv(w) && i < |w.server.calls|
    requires lock == if InSection(pc) then Some(i) else if w.server.lock == Some(i) then None else w.server.lock
    requires InSection(pc) ==> w.server.lock.None? || w.server.lock == Some(i)
    requires NonceInHand(pc, PendingCount(w))
    requires BeforeBroadcast(pc) ==> BeforeBroadcast(w.server.calls[i].pc)
    requires !pc.RecordWait? && pc != Done(true)
    ensures Inv(w.(server := Move(w.server, i, pc).(lock := lock)))
  {
    assert forall k: nat | k < |w.chain| :: w.chain[k].submit < |w.server.calls|;
  }

  /** Call `i`, in the section, moves on after its broadcast was accepted. */
  ghost predicate Broadcasts(s: Server, s': Server, i: nat, txHash: string) {
    && i < |s.calls| && s.calls[i].pc.BroadcastWait? && s.lock == Some(i)
    && |s'.calls| == |s.calls| && s'.calls == s.calls[i := s.calls[i].(pc := s'.calls[i].pc)]
    && (s'.calls[i].pc == RecordWait(txHash) || s'.calls[i].pc == Done(false))
    && s'.lock == (if s'.calls[i].pc.Done? then None else Some(i))
    && s'.submitted == s.submitted
  }

  lemma AcceptKeepsLock(s: Server, s': Server, i: nat, txHash: string, count: nat)
    requires LockHeld(s) && Broadcasts(s, s', i, txHash)
    ensures LockHeld(s') && NoncesInHand(s'.calls, count)
  {
    forall j: nat | j < |s'.calls| ensures InSection(s'.calls[j].pc) <==> s'.lock == Some(j) {
      assert j != i ==> s'.calls[j] == s.calls[j];
    }
  }

  lemma AcceptKeepsOnce(chain: seq<Accepted>, tx: Accepted, s: Server, s': Server, i: nat, txHash: string)
    requires OncePerSubmit(chain, s.calls) && Broadcasts(s, s', i, txHash)
    requires tx.submit == i && tx.operation == s.calls[i].operation
    ensures OncePerSubmit(chain + [tx], s'.calls)
  {
  }

  lemma AcceptKeepsRecords(chain: seq<Accepted>, tx: Accepted, submitted: map<string, SubmittedTx>)
    requires RecordsTrue(submitted, chain)
    ensures RecordsTrue(submitted, chain + [tx])
  {
    forall key | key in submitted ensures OnChain(chain + [tx], submitted[key].operation, submitted[key].txHash) {
      StaysOnChain(chain, tx, submitted[key].operation, submitted[key].txHash);
    }
  }

  lemma AcceptKeepsAnswers(chain: seq<Accepted>, tx: Accepted, s: Server, s': Server, i: nat, txHash: string)
    requires AnswersTrue(s.calls, s.submitted, chain) && Broadcasts(s, s', i, txHash)
    requires tx.operation == s.calls[i].operation && tx.txHash == txHash
    ensures AnswersTrue(s'.calls, s'.submitted, chain + [tx])
  {
    forall j: nat | j < |s'.calls| && s'.calls[j].pc.RecordWait?
      ensures OnChain(chain + [tx], s'.calls[j].operation, s'.calls[j].pc.txHash)
    {
      if j == i {
        assert (chain + [tx])[|chain|] == tx;
      } else {
        StaysOnChain(chain, tx, s.calls[j].operation, s.calls[j].pc.txHash);
      }
    }
  }

  lemma AcceptKeepsNonces(chain: seq<Accepted>, tx: Accepted, base: nat)
    requires Consecutive(chain, base) && tx.nonce == base + |chain|
    ensures Consecutive(chain + [tx], base)
  {
  }

  /** The node accepts the broadcast of the lock holder, which then leaves or goes on to record it. */
  lemma AcceptKeeps(w: World, i: nat, txHash: string, pc: Pc)
    requires Inv(w) && i < |w.server.calls| && w.server.calls[i].pc.BroadcastWait?
    requires pc == RecordWait(txHash) || pc == Done(false)
    ensures Inv(Accept(w, i, txHash).(server := Move(w.server, i, pc).(lock := if pc.Done? then None else Some(i))))
  {
    var s := w.server;
    assert InSection(s.calls[i].pc) && NonceInHand(s.calls[i].pc, PendingCount(w));
    AcceptInv(w, Accept(w, i, txHash).(server := Move(s, i, pc).(lock := if pc.Done? then None else Some(i))),
              Accepted(s.calls[i].pc.nonce, txHash, s.calls[i].operation, i), i, txHash);
  }

  lemma AcceptInv(w: World, v: World, tx: Accepted, i: nat, txHash: string)
    requires Inv(w) && v.chain == w.chain + [tx] && v.base == w.base && Broadcasts(w.server, v.server, i, txHash)
    requires tx == Accepted(w.base + |w.chain|, txHash, w.server.calls[i].operation, i)
    ensures Inv(v)
  {
    AcceptKeepsLock(w.server, v.server, i, txHash, PendingCount(v));
    AcceptKeepsNonces(w.chain, tx, w.base);
    AcceptKeepsOnce(w.chain, tx, w.server, v.server, i, txHash);
    AcceptKeepsRecords(w.chain, tx, w.server.submitted);
    AcceptKeepsAnswers(w.chain, tx, w.server, v.server, i, txHash);
  }

  lemma RecordKeeps(w: World, i: nat)
    requires Inv(w) && i < |w.server.calls| && w.server.calls[i].pc.RecordWait?
    ensures Inv(w.(server := Record(w.server, i)))
  {
    assert w.server.lock == Some(i);
  }

  lemma SubmitKeeps(w: World, op: Operation)
    requires Inv(w)
    ensures Inv(Step(w, Submitted(op)))
  {
  }

  lemma StepKeeps(w: World, e: Event)
    requires Inv(w)
    ensures Inv(Step(w, e))
  {
    var s := w.server;
    match e
    case Submitted(op) => SubmitKeeps(w, op);
    case Locked(i) =>
      if i < |s.calls| && s.calls[i].pc.LockWait? && s.lock.None? { MoveKeeps(w, i, NonceWait, Some(i)); }
    case NonceReply(i, answered, signed) =>
      if i < |s.calls| && s.calls[i].pc.NonceWait? {
        MoveKeeps(w, i, Done(false), None);
        MoveKeeps(w, i, GasWait(PendingCount(w)), Some(i));
        if s.fixedPrice.Some? { MoveKeeps(w, i, BroadcastWait(PendingCount(w), s.fixedPrice.value), Some(i)); }
      }
    case GasReply(i, quote, signed) =>
      if i < |s.calls| && s.calls[i].pc.GasWait? {
        MoveKeeps(w, i, Done(false), None);
        if quote.Some? { MoveKeeps(w, i, BroadcastWait(s.calls[i].pc.nonce, Headroom(quote.value)), Some(i)); }
      }
    case BroadcastReply(i, accepted, txHash, answered) =>
      if i < |s.calls| && s.calls[i].pc.BroadcastWait? {
        MoveKeeps(w, i, Done(false), None);
        AcceptKeeps(w, i, txHash, if answered then RecordWait(txHash) else Done(false));
      }
    case Recorded(i) =>
      if i < |s.calls| && s.calls[i].pc.RecordWait? { RecordKeeps(w, i); }
    case Dropped(i, accepted, txHash) =>
      if i < |s.calls| && !s.calls[i].pc.Done? {
        MoveKeeps(w, i, Done(false), if s.lock == Some(i) then None else s.lock);
        if s.calls[i].pc.BroadcastWait? { AcceptKeeps(w, i, txHash, Done(false)); }
      }
  }

  lemma {:induction false} RunKeeps(w: World, events: seq<Event>)
    requires Inv(w)
    ensures Inv(Run(w, events)) && Run(w, events).base == w.base
    decreases |events|
  {
    if events != [] {
      StepKeeps(w, events[0]);
      RunKeeps(Step(w, events[0]), events[1..]);
    }
  }

  // ---------------------------------------------------------------- the promises

  /** However many submits overlap, fail, or lose their connection: accepted transactions carry consecutive
      nonces from the account's first on, each submit causes at most one of them, for its own operation; and a
      broadcast on its way holds exactly the nonce the node expects next. */
  lemma NonceDiscipline(fixedPrice: Option<nat>, base: nat, events: seq<Event>)
    ensures var w := Run(Start(fixedPrice, base), events);
      && (forall k: nat | k < |w.chain| :: w.chain[k].nonce == base + k)
      && (forall k: nat | k < |w.chain| :: w.chain[k].submit < |w.server.calls|
            && w.chain[k].operation == w.server.calls[w.chain[k].submit].operation)
      && (forall j, k | 0 <= j < k < |w.chain| :: w.chain[j].submit != w.chain[k].submit)
      && (forall i: nat | i < |w.server.calls| && w.server.calls[i].pc.BroadcastWait? ::
            w.server.calls[i].pc.nonce == base + |w.chain|)
  {
    RunKeeps(Start(fixedPrice, base), events);
    var w := Run(Start(fixedPrice, base), events);
    assert forall i: nat | i < |w.server.calls| :: NonceInHand(w.server.calls[i].pc, PendingCount(w));
  }

  /** At most one submit is ever between reading the nonce and recording its transaction. */
  lemma OneSubmitAtATime(fixedPrice: Option<nat>, base: nat, events: seq<Event>, i: nat, j: nat)
    requires var calls := Run(Start(fixedPrice, base), events).server.calls;
      i < |calls| && j < |calls| && InSection(calls[i].pc) && InSection(calls[j].pc)
    ensures i == j
  {
    RunKeeps(Start(fixedPrice, base), events);
  }

  /** A receipt is given only for a recorded broadcast: one the node accepted, of the operation with the asked
      hash, as the very transaction the receipt is about. */
  lemma ReceiptsAreTrue(fixedPrice: Option<nat>, base: nat, events: seq<Event>,
                        asked: string, reply: ChainReply, executed: Option<bool>, replayed: Option<string>)
    requires Lookup(Run(Start(fixedPrice, base), events).server.submitted, asked, reply, executed, replayed).Found?
    ensures
      var w := Run(Start(fixedPrice, base), events);
      var found := Lookup(w.server.submitted, asked, reply, executed, replayed);
      exists k: nat | k < |w.chain| ::
        && found.hash == Lower(asked) == HexText(w.chain[k].operation.hash)
        && found.receipt.transactionHash == Some(w.chain[k].txHash)
  {
    RunKeeps(Start(fixedPrice, base), events);
    var w := Run(Start(fixedPrice, base), events);
    var r := w.server.submitted[Lower(asked)];
    var k: nat :| k < |w.chain| && w.chain[k].operation == r.operation && w.chain[k].txHash == r.txHash;
  }

  /** Once a submit has answered with its hash, asking for that hash, in any letter case, is answered from the
      chain: null exactly while the transaction is not mined. */
  lemma AnsweredSubmitsAreKnown(fixedPrice: Option<nat>, base: nat, events: seq<Event>, i: nat,
                                asked: string, reply: ChainReply, executed: Option<bool>, replayed: Option<string>)
    requires var calls := Run(Start(fixedPrice, base), events).server.calls;
      i < |calls| && calls[i].pc == Done(true) && Lower(asked) == HexText(calls[i].operation.hash)
    ensures
      var w := Run(Start(fixedPrice, base), events);
      Lookup(w.server.submitted, asked, reply, executed, replayed).Null? <==> reply.Pending?
  {
    RunKeeps(Start(fixedPrice, base), events);
  }
}
