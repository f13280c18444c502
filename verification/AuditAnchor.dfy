/** Anchoring an audit hash on chain: the journal is written before the transaction is sent, and whoever finds a
    journal only looks the transaction up. Runs are serialized by the operation lock; a run may fail or die at
    any point. */
module AuditAnchor {
  import opened Options
  import opened Text

  /** One journal file per owner and lower-cased hash. */
  datatype Key = Key(owner: string, hash: string)
  datatype Journal = Journal(profile: string, operator: string, transaction: Option<string>)
  /** `sends` lists every `cast send` ever started. */
  datatype World = World(journals: map<Key, Journal>, sends: seq<Key>)

  function KeyOf(owner: string, auditHash: string): Key { Key(owner, Lower(auditHash)) }

  /** How far a run gets before it fails or its process dies. */
  datatype Reach = NoPlan | Planned | Journaled | Sent | Verified(transaction: string)

  /** One audit run. `known`: the owner directory holds an identity of this deployment; `lookedUp` is what
      `verify-owner` answers when a journal is found. */
  datatype Run = Run(owner: string, auditHash: string, known: bool, profile: string, operator: string,
                     lookedUp: Option<string>, reach: Reach)

  function Recover(w: World, r: Run): World
    requires KeyOf(r.owner, r.auditHash) in w.journals
  {
    var key := KeyOf(r.owner, r.auditHash);
    var j := w.journals[key];
    if j.profile != r.profile || j.operator != r.operator || r.lookedUp.None? then w
    else w.(journals := w.journals[key := j.(transaction := r.lookedUp)])
  }

  function Submit(w: World, r: Run): World {
    var key := KeyOf(r.owner, r.auditHash);
    if r.reach.NoPlan? || r.reach.Planned? then w
    else
      var w1 := w.(journals := w.journals[key := Journal(r.profile, r.operator, None)]);
      if r.reach.Journaled? then w1
      else
        var w2 := w1.(sends := w.sends + [key]);
        if r.reach.Sent? then w2
        else w2.(journals := w.journals[key := Journal(r.profile, r.operator, Some(r.reach.transaction))])
  }

  function Execute(w: World, r: Run): World {
    if !r.known then w
    else if KeyOf(r.owner, r.auditHash) in w.journals then Recover(w, r)
    else Submit(w, r)
  }

  /** The journal directory and the log of sends, changed in place by one run. */
  class Anchors {
    var journals: map<Key, Journal>
    ghost var sends: seq<Key>

    ghost function View(): World
      reads this
    {
      World(journals, sends)
    }

    method Audit(r: Run) returns (transaction: Option<string>)
      modifies this
      ensures View() == Execute(old(View()), r)
      ensures transaction.Some? ==>
        && KeyOf(r.owner, r.auditHash) in journals
        && journals[KeyOf(r.owner, r.auditHash)] == Journal(r.profile, r.operator, transaction)
    {
      transaction := None;
      if !r.known {
        return;
      }
      var key := KeyOf(r.owner, r.auditHash);
      if key in journals {
        var journal := journals[key];
        if journal.profile != r.profile || journal.operator != r.operator || r.lookedUp.None? {
          return;
        }
        journals := journals[key := journal.(transaction := r.lookedUp)];
        return r.lookedUp;
      }
      if r.reach.NoPlan? || r.reach.Planned? {
        return;
      }
      journals := journals[key := Journal(r.profile, r.operator, None)];
      if r.reach.Journaled? {
        return;
      }
      sends := sends + [key];
      if r.reach.Sent? {
        return;
      }
      ghost var before := old(journals);
      journals := journals[key := Journal(r.profile, r.operator, Some(r.reach.transaction))];
      assert journals == before[key := Journal(r.profile, r.operator, Some(r.reach.transaction))];
      transaction := Some(r.reach.transaction);
    }
  }

  function Runs(w: World, runs: seq<Run>): World
    decreases |runs|
  {
    if runs == [] then w else Runs(Execute(w, runs[0]), runs[1..])
  }

  ghost predicate NoRepeats(sends: seq<Key>) { forall i, j | 0 <= i < j < |sends| :: sends[i] != sends[j] }

  /** Every send is journaled, and no two are for the same key. */
  ghost predicate Inv(w: World) {
    NoRepeats(w.sends) && forall key | key in w.sends :: key in w.journals
  }

  lemma ExecuteKeeps(w: World, r: Run)
    requires Inv(w)
    ensures var t := Execute(w, r);
      && Inv(t) && w.sends <= t.sends && w.journals.Keys <= t.journals.Keys
      && (forall key | key in w.journals && key !in w.sends :: key !in t.sends)
      && (forall key | key in w.journals ::
            t.journals[key].profile == w.journals[key].profile && t.journals[key].operator == w.journals[key].operator)
  {
  }

  lemma {:induction false} RunsKeep(w: World, runs: seq<Run>)
    requires Inv(w)
    ensures var t := Runs(w, runs);
      && Inv(t) && w.sends <= t.sends && w.journals.Keys <= t.journals.Keys
      && (forall key | key in w.journals && key !in w.sends :: key !in t.sends)
      && (forall key | key in w.journals ::
            t.journals[key].profile == w.journals[key].profile && t.journals[key].operator == w.journals[key].operator)
    decreases |runs|
  {
    if runs != [] {
      ExecuteKeeps(w, runs[0]);
      RunsKeep(Execute(w, runs[0]), runs[1..]);
    }
  }

  /** Over any sequence of runs, however they fail or die, at most one send is started per owner and hash (in any
      spelling of the hash), and each was journaled first. */
  lemma AtMostOneSend(runs: seq<Run>)
    ensures var w := Runs(World(map[], []), runs);
      NoRepeats(w.sends) && forall key | key in w.sends :: key in w.journals
  {
    RunsKeep(World(map[], []), runs);
  }

  /** The price: a key journaled by a run that died before sending is never sent by any later run; and journals
      keep the owner and deployment they were written for. */
  lemma StrandedForGood(before: seq<Run>, r: Run, after: seq<Run>)
    requires var w := Runs(World(map[], []), before);
      r.known && KeyOf(r.owner, r.auditHash) !in w.journals && !r.reach.NoPlan? && !r.reach.Planned?
    ensures
      var key := KeyOf(r.owner, r.auditHash);
      var later := Runs(Execute(Runs(World(map[], []), before), r), after);
      && (key in later.sends <==> !r.reach.Journaled?)
      && key in later.journals && later.journals[key].profile == r.profile && later.journals[key].operator == r.operator
  {
    var w := Runs(World(map[], []), before);
    RunsKeep(World(map[], []), before);
    ExecuteKeeps(w, r);
    var t := Execute(w, r);
    RunsKeep(t, after);
    var key := KeyOf(r.owner, r.auditHash);
    if !r.reach.Journaled? {
      assert t.sends[|w.sends|] == key;
      assert Runs(t, after).sends[|w.sends|] == key;
    }
  }
}
