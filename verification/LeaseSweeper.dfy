/** The lease sweeper: what one sweep does to a row, and what a sequence of sweeps is sure to reach in time.
    Times are UTC seconds; a cron entry is the set of local minutes it names. */
module LeaseSweeper {
  import opened Options
  import opened ByteStrings

  datatype Action = Leave | ColdCreate | Rotate(forced: bool)
  datatype Availability = AlwaysOn | WakeOnEvent | Scheduled
  type Cron = int -> bool

  // ---------------------------------------------------------------- configuration

  datatype Config = Config(enabled: bool, interval: nat, rotateMargin: nat, forceMargin: nat)

  function Setting(read: Option<nat>, lo: nat, hi: nat, default: nat): nat {
    if read.Some? && lo <= read.value <= hi then read.value else default
  }

  /** The three numbers as the environment gives them, when they parse at all. */
  function FromLookup(optedOut: bool, interval: Option<nat>, rotate: Option<nat>, force: Option<nat>): Config {
    Config(!optedOut, Setting(interval, 60, 3600, 300), Setting(rotate, 1, 720, 30) * 60,
           Setting(force, 1, 720, 10) * 60)
  }

  // ---------------------------------------------------------------- the decision

  function Earliest(expiries: seq<Option<int>>): Option<int> {
    if expiries == [] then None
    else
      var rest := Earliest(expiries[1..]);
      if expiries[0].None? then rest
      else if rest.None? || expiries[0].value <= rest.value then expiries[0]
      else rest
  }

  function Decide(now: int, expiries: seq<Option<int>>, rotateMargin: nat, forceMargin: nat): Action {
    if expiries == [] then ColdCreate
    else
      var earliest := Earliest(expiries);
      if earliest.None? then Leave
      else if earliest.value - now <= rotateMargin then Rotate(earliest.value - now <= forceMargin)
      else Leave
  }

  function ApplyAvailability(action: Action, availability: Availability, tickDue: bool): Action {
    match availability
    case AlwaysOn => action
    case WakeOnEvent => Leave
    case Scheduled => if tickDue then action else Leave
  }

  /** Some known lease ends within `margin`. */
  ghost predicate EndsWithin(now: int, expiries: seq<Option<int>>, margin: int) {
    exists e | e in expiries && e.Some? :: e.value - now <= margin
  }

  lemma {:induction false} EarliestIsLeast(expiries: seq<Option<int>>)
    ensures var m := Earliest(expiries);
      && (m.None? <==> forall e | e in expiries :: e.None?)
      && (m.Some? ==> m in expiries && forall e | e in expiries && e.Some? :: m.value <= e.value)
  {
    if expiries != [] {
      EarliestIsLeast(expiries[1..]);
      assert forall e | e in expiries :: e == expiries[0] || e in expiries[1..];
    }
  }

  /** The decision by what is in the list, whatever its order and length. */
  lemma DecideExactly(now: int, expiries: seq<Option<int>>, rotateMargin: nat, forceMargin: nat)
    ensures var action := Decide(now, expiries, rotateMargin, forceMargin);
      && (action.ColdCreate? <==> expiries == [])
      && (action.Rotate? <==> EndsWithin(now, expiries, rotateMargin))
      && (action == Rotate(true) <==>
            EndsWithin(now, expiries, if rotateMargin <= forceMargin then rotateMargin else forceMargin))
  {
    EarliestIsLeast(expiries);
  }

  /** Neither the order of the list nor repeated entries matter. */
  lemma DecideIgnoresOrder(now: int, a: seq<Option<int>>, b: seq<Option<int>>, rotateMargin: nat, forceMargin: nat)
    requires forall e :: e in a <==> e in b
    ensures Decide(now, a, rotateMargin, forceMargin) == Decide(now, b, rotateMargin, forceMargin)
  {
    DecideExactly(now, a, rotateMargin, forceMargin);
    DecideExactly(now, b, rotateMargin, forceMargin);
    if a != [] { assert a[0] in b; }
    if b != [] { assert b[0] in a; }
  }

  /** `b` does at least what `a` does. */
  predicate AtLeast(b: Action, a: Action) {
    match a
    case Leave => !b.ColdCreate?
    case ColdCreate => b.ColdCreate?
    case Rotate(forced) => b.Rotate? && (forced ==> b.forced)
  }

  /** For the same runtimes the decision never weakens as time passes. */
  lemma DecideNeverWeakens(now: int, later: int, expiries: seq<Option<int>>, rotateMargin: nat, forceMargin: nat)
    requires now <= later
    ensures AtLeast(Decide(later, expiries, rotateMargin, forceMargin),
                    Decide(now, expiries, rotateMargin, forceMargin))
  {
    DecideExactly(now, expiries, rotateMargin, forceMargin);
    DecideExactly(later, expiries, rotateMargin, forceMargin);
    assert forall e | e in expiries && e.Some? :: e.value - later <= e.value - now;
  }

  // ---------------------------------------------------------------- the schedule look-ahead

  /** A cron entry names this UTC minute, read on a wall clock `offset` minutes ahead. */
  predicate Due(schedule: seq<Cron>, minute: int, offset: int) {
    exists j | 0 <= j < |schedule| :: schedule[j](minute + offset)
  }

  /** A minute of the window, from the current one to the one the window ends in, is due. */
  ghost predicate TickWithin(schedule: seq<Cron>, offset: int, now: int, window: int) {
    window > 0 && exists m | now / 60 <= m <= (now + window) / 60 :: Due(schedule, m, offset)
  }

  method AnyDue(schedule: seq<Cron>, minute: int, offset: int) returns (due: bool)
    ensures due == Due(schedule, minute, offset)
  {
    due := false;
    for k := 0 to |schedule|
      invariant due == exists j | 0 <= j < k :: schedule[j](minute + offset)
    {
      due := due || schedule[k](minute + offset);
    }
  }

  method ScheduleTickDueWithin(schedule: seq<Cron>, offset: int, now: int, window: int) returns (due: bool)
    ensures due == TickWithin(schedule, offset, now, window)
  {
    if schedule == [] || window <= 0 {
      return false;
    }
    var m, end := now / 60, (now + window) / 60;
    while m <= end
      invariant now / 60 <= m <= end + 1
      invariant forall k | now / 60 <= k < m :: !Due(schedule, k, offset)
    {
      var hit := AnyDue(schedule, m, offset);
      if hit {
        return true;
      }
      m := m + 1;
    }
    due := false;
  }

  // ---------------------------------------------------------------- one sweep over the rows

  datatype Probe = Probe(registered: bool, revoked: bool, tier: nat, actorOmni: Word, operatorOmni: Word)
  /** One durable row with what the chain and the sandbox backend answer about it (None: the question failed),
      and the two readings of the clock. */
  datatype Row = Row(
    validAddress: bool, keyHash: Option<Bytes>, probe: Option<Probe>, live: Option<seq<Option<int>>>,
    availability: Availability, schedule: seq<Cron>, offset: int, tickNow: int, decideNow: int)
  /** An action taken, with the accounts it is taken for. */
  datatype Act = Act(row: nat, action: Action, actorOmni: Word, operatorOmni: Word)

  /** A positive chain reading of an active agent binding. */
  predicate Authorized(row: Row) {
    && row.validAddress && row.keyHash.Some? && |row.keyHash.value| == 32
    && row.probe.Some? && row.probe.value.registered && !row.probe.value.revoked && row.probe.value.tier == 2
  }

  ghost function RowAction(row: Row, cfg: Config): Action {
    if !Authorized(row) || row.live.None? then Leave
    else
      var due := row.availability.Scheduled?
                 && TickWithin(row.schedule, row.offset, row.tickNow, cfg.interval + cfg.rotateMargin);
      ApplyAvailability(Decide(row.decideNow, row.live.value, cfg.rotateMargin, cfg.forceMargin), row.availability, due)
  }

  /** What a row alone leads to. */
  ghost function RowActs(row: Row, i: nat, cfg: Config): seq<Act> {
    var action := RowAction(row, cfg);
    if action.Leave? then []
    else [Act(i, action, row.probe.value.actorOmni, row.probe.value.operatorOmni)]
  }

  ghost function Acts(rows: seq<Row>, cfg: Config): seq<Act> {
    if rows == [] then []
    else Acts(rows[..|rows| - 1], cfg) + RowActs(rows[|rows| - 1], |rows| - 1, cfg)
  }

  /** One pass; None: the row list or the chain configuration could not be read. */
  method SweepOnce(listed: Option<seq<Row>>, chainConfigured: bool, cfg: Config) returns (acts: seq<Act>)
    ensures acts == if listed.Some? && chainConfigured then Acts(listed.value, cfg) else []
  {
    acts := [];
    if listed.None? || listed.value == [] || !chainConfigured {
      return;
    }
    var rows := listed.value;
    for i := 0 to |rows|
      invariant acts == Acts(rows[..i], cfg)
    {
      assert rows[..i + 1][..i] == rows[..i];
      var row := rows[i];
      if !row.validAddress || row.keyHash.None? || |row.keyHash.value| != 32 || row.probe.None? {
        continue;
      }
      var probe := row.probe.value;
      if !probe.registered || probe.revoked || probe.tier != 2 || row.live.None? {
        continue;
      }
      var tickDue := false;
      if row.availability.Scheduled? {
        tickDue := ScheduleTickDueWithin(row.schedule, row.offset, row.tickNow, cfg.interval + cfg.rotateMargin);
      }
      var decision := Decide(row.decideNow, row.live.value, cfg.rotateMargin, cfg.forceMargin);
      var action := ApplyAvailability(decision, row.availability, tickDue);
      if action != Leave {
        acts := acts + [Act(i, action, probe.actorOmni, probe.operatorOmni)];
      }
    }
    assert rows[..|rows|] == rows;
  }

  /** A sweep acts on a row exactly when the row alone calls for it: no row, whatever fails for it, hides
      another, and none is acted on twice. */
  lemma {:induction false} ActsExactly(rows: seq<Row>, cfg: Config, act: Act)
    ensures act in Acts(rows, cfg) <==> act.row < |rows| && RowActs(rows[act.row], act.row, cfg) == [act]
    ensures forall j, k | 0 <= j < k < |Acts(rows, cfg)| :: Acts(rows, cfg)[j].row < Acts(rows, cfg)[k].row < |rows|
    ensures forall j | 0 <= j < |Acts(rows, cfg)| :: Acts(rows, cfg)[j].row < |rows|
  {
    if rows != [] {
      ActsExactly(rows[..|rows| - 1], cfg, act);
    }
  }

  /** Nothing is done without a positive chain reading, for the very accounts that reading names; a runtime is
      created only where none lives, and one that may sleep is left alone unless its schedule is due. */
  lemma ActsAreAuthorized(rows: seq<Row>, cfg: Config, act: Act)
    requires act in Acts(rows, cfg)
    ensures act.row < |rows|
    ensures var row := rows[act.row];
      && Authorized(row) && row.live.Some?
      && act.actorOmni == row.probe.value.actorOmni && act.operatorOmni == row.probe.value.operatorOmni
      && (act.action.ColdCreate? <==> row.live.value == [])
      && (act.action.Rotate? ==> EndsWithin(row.decideNow, row.live.value, cfg.rotateMargin))
      && !row.availability.WakeOnEvent?
      && (row.availability.Scheduled? ==>
            TickWithin(row.schedule, row.offset, row.tickNow, cfg.interval + cfg.rotateMargin))
  {
    ActsExactly(rows, cfg, act);
    var row := rows[act.row];
    assert RowActs(row, act.row, cfg)[0] == act;
    DecideExactly(row.decideNow, row.live.value, cfg.rotateMargin, cfg.forceMargin);
  }

  // ---------------------------------------------------------------- sequences of sweeps

  /** Sweep times in order, each at most `gap` after the one before. */
  ghost predicate Cadence(times: seq<int>, gap: int) {
    forall i, j | 0 <= i < j == i + 1 < |times| :: times[i] <= times[j] <= times[i] + gap
  }

  /** Sweep `k` is the last that ran no later than `t`, counted in units of `scale` seconds. */
  ghost predicate LastBefore(times: seq<int>, t: int, scale: int, k: nat)
    requires scale >= 1
  {
    k + 1 < |times| && times[k] / scale <= t < times[k + 1] / scale
  }

  lemma {:induction false} LastBeforeExists(times: seq<int>, t: int, scale: int)
    requires scale >= 1 && |times| > 0
    requires times[0] / scale <= t < times[|times| - 1] / scale
    ensures exists k: nat :: LastBefore(times, t, scale, k)
  {
    var k := 0;
    while times[k + 1] / scale <= t
      invariant k + 1 < |times| && times[k] / scale <= t
      decreases |times| - k
    {
      k := k + 1;
    }
    assert LastBefore(times, t, scale, k);
  }

  lemma DivisionGrows(a: int, b: int)
    requires a <= b
    ensures a / 60 <= b / 60
  {
  }

  /** With sweeps at most interval + rotate margin apart, every due minute lies in the window of a sweep that ran
      no later than that minute, and that sweep sees the tick. */
  lemma EveryTickIsSeen(times: seq<int>, cfg: Config, schedule: seq<Cron>, offset: int, minute: int)
    requires cfg.interval + cfg.rotateMargin > 0
    requires |times| > 0 && Cadence(times, cfg.interval + cfg.rotateMargin)
    requires times[0] / 60 <= minute < times[|times| - 1] / 60
    requires Due(schedule, minute, offset)
    ensures exists k: nat | k < |times| ::
      && times[k] / 60 <= minute <= (times[k] + cfg.interval + cfg.rotateMargin) / 60
      && TickWithin(schedule, offset, times[k], cfg.interval + cfg.rotateMargin)
  {
    LastBeforeExists(times, minute, 60);
    var k: nat :| LastBefore(times, minute, 60, k);
    var i, j := k, k + 1;
    assert times[j] <= times[i] + cfg.interval + cfg.rotateMargin;
    DivisionGrows(times[j], times[i] + cfg.interval + cfg.rotateMargin);
  }

  /** Between two sweeps, a minute is looked at in time exactly when the earlier sweep's window reaches it: a
      wider gap leaves minutes no sweep sees before they have passed. */
  lemma MinuteSeenExactly(times: seq<int>, window: nat, minute: int, k: nat)
    requires k + 1 < |times| && forall i, j | 0 <= i <= j < |times| :: times[i] <= times[j]
    requires times[k] / 60 <= minute < times[k + 1] / 60
    ensures (exists i: nat | i < |times| && times[i] / 60 <= minute :: minute <= (times[i] + window) / 60)
       <==> minute <= (times[k] + window) / 60
  {
    forall i: nat | i < |times| && times[i] / 60 <= minute && minute <= (times[i] + window) / 60
      ensures minute <= (times[k] + window) / 60
    {
      if i <= k {
        DivisionGrows(times[i] + window, times[k] + window);
      }
    }
  }

  function Tighter(cfg: Config): nat {
    if cfg.rotateMargin <= cfg.forceMargin then cfg.rotateMargin else cfg.forceMargin
  }

  /** With sweeps no further apart than both margins, a known lease meets a forced rotation no later than its
      expiry: `listed` is what each sweep finds alive, the lease among it until it ends. */
  lemma EveryLeaseIsForced(times: seq<int>, listed: seq<seq<Option<int>>>, cfg: Config, expiry: int)
    requires |times| == |listed| > 0 && Cadence(times, Tighter(cfg))
    requires times[0] <= expiry < times[|times| - 1]
    requires forall i | 0 <= i < |times| && times[i] <= expiry :: Some(expiry) in listed[i]
    ensures exists k: nat | k < |times| ::
      times[k] <= expiry && Decide(times[k], listed[k], cfg.rotateMargin, cfg.forceMargin) == Rotate(true)
  {
    LastBeforeExists(times, expiry, 1);
    var k: nat :| LastBefore(times, expiry, 1, k);
    var i, j := k, k + 1;
    assert times[j] <= times[i] + Tighter(cfg);
    DecideExactly(times[k], listed[k], cfg.rotateMargin, cfg.forceMargin);
    assert EndsWithin(times[k], listed[k], Tighter(cfg));
  }

  /** One row over a sequence of sweeps: `at[i]` is its place in sweep `i`. */
  ghost predicate Listed(sweeps: seq<seq<Row>>, at: seq<nat>) {
    |at| == |sweeps| > 0 && forall i | 0 <= i < |sweeps| :: at[i] < |sweeps[i]|
  }

  ghost function RowAt(sweeps: seq<seq<Row>>, at: seq<nat>, i: nat): Row
    requires Listed(sweeps, at) && i < |sweeps|
  {
    sweeps[i][at[i]]
  }

  ghost function Times(sweeps: seq<seq<Row>>, at: seq<nat>): seq<int>
    requires Listed(sweeps, at)
  {
    seq(|sweeps|, i requires 0 <= i < |sweeps| => RowAt(sweeps, at, i).decideNow)
  }

  /** The sweep may act on the row, and finds the lease alive. */
  ghost predicate FindsLease(row: Row, expiry: int) {
    Authorized(row) && row.availability.AlwaysOn? && row.live.Some? && Some(expiry) in row.live.value
  }

  /** What the sweeps do about it: an always-on, authorized row, listed wherever in every sweep, gets a forced
      rotation for its own accounts in some sweep no later than its lease's expiry, whatever the other rows do. */
  lemma EveryLeaseIsActedOn(sweeps: seq<seq<Row>>, at: seq<nat>, cfg: Config, expiry: int)
    requires Listed(sweeps, at) && Cadence(Times(sweeps, at), Tighter(cfg))
    requires RowAt(sweeps, at, 0).decideNow <= expiry < RowAt(sweeps, at, |sweeps| - 1).decideNow
    requires forall i: nat | i < |sweeps| && RowAt(sweeps, at, i).decideNow <= expiry ::
               FindsLease(RowAt(sweeps, at, i), expiry)
    ensures exists k: nat | k < |sweeps| ::
      var row := RowAt(sweeps, at, k);
      && row.decideNow <= expiry && FindsLease(row, expiry)
      && Act(at[k], Rotate(true), row.probe.value.actorOmni, row.probe.value.operatorOmni) in Acts(sweeps[k], cfg)
  {
    var times := Times(sweeps, at);
    var lists := seq(|sweeps|, i requires 0 <= i < |sweeps| =>
      var live := RowAt(sweeps, at, i).live; if live.Some? then live.value else []);
    EveryLeaseIsForced(times, lists, cfg, expiry);
    var k: nat :| k < |times| && times[k] <= expiry
                  && Decide(times[k], lists[k], cfg.rotateMargin, cfg.forceMargin) == Rotate(true);
    var row := RowAt(sweeps, at, k);
    assert FindsLease(row, expiry);
    ActsExactly(sweeps[k], cfg, Act(at[k], Rotate(true), row.probe.value.actorOmni, row.probe.value.operatorOmni));
  }

  /** When the sweeps look at the row's schedule. */
  ghost function TickTimes(sweeps: seq<seq<Row>>, at: seq<nat>): seq<int>
    requires Listed(sweeps, at)
  {
    seq(|sweeps|, i requires 0 <= i < |sweeps| => RowAt(sweeps, at, i).tickNow)
  }

  /** The sweep may act on the row, whose schedule names the minute, and finds no runtime alive. */
  ghost predicate Sleeps(row: Row, minute: int) {
    Authorized(row) && row.availability.Scheduled? && row.live == Some([]) && Due(row.schedule, minute, row.offset)
  }

  /** A scheduled runtime is created in time: with sweeps at most interval + rotate margin apart, an authorized row
      that sleeps at every sweep up to a due minute gets its cold creation, for its own accounts, from one of them. */
  lemma EveryTickIsActedOn(sweeps: seq<seq<Row>>, at: seq<nat>, cfg: Config, minute: int)
    requires Listed(sweeps, at) && cfg.interval + cfg.rotateMargin > 0
    requires Cadence(TickTimes(sweeps, at), cfg.interval + cfg.rotateMargin)
    requires RowAt(sweeps, at, 0).tickNow / 60 <= minute < RowAt(sweeps, at, |sweeps| - 1).tickNow / 60
    requires forall i: nat | i < |sweeps| && RowAt(sweeps, at, i).tickNow / 60 <= minute ::
               Sleeps(RowAt(sweeps, at, i), minute)
    ensures exists k: nat | k < |sweeps| ::
      var row := RowAt(sweeps, at, k);
      && row.tickNow / 60 <= minute && Sleeps(row, minute)
      && Act(at[k], ColdCreate, row.probe.value.actorOmni, row.probe.value.operatorOmni) in Acts(sweeps[k], cfg)
  {
    var times := TickTimes(sweeps, at);
    LastBeforeExists(times, minute, 60);
    var k: nat :| LastBefore(times, minute, 60, k);
    var i, j, row := k, k + 1, RowAt(sweeps, at, k);
    assert Sleeps(row, minute);
    assert times[j] <= times[i] + cfg.interval + cfg.rotateMargin;
    DivisionGrows(times[j], times[i] + cfg.interval + cfg.rotateMargin);
    assert TickWithin(row.schedule, row.offset, row.tickNow, cfg.interval + cfg.rotateMargin);
    ActsExactly(sweeps[k], cfg, Act(at[k], ColdCreate, row.probe.value.actorOmni, row.probe.value.operatorOmni));
  }

  /** A lone lease is forced in time exactly when its last sweep comes within both margins of its end. */
  lemma ForcedExactly(times: seq<int>, cfg: Config, expiry: int, k: nat)
    requires k + 1 < |times| && forall i, j | 0 <= i <= j < |times| :: times[i] <= times[j]
    requires times[k] <= expiry < times[k + 1]
    ensures (exists i: nat | i < |times| && times[i] <= expiry ::
               Decide(times[i], [Some(expiry)], cfg.rotateMargin, cfg.forceMargin) == Rotate(true))
       <==> expiry - times[k] <= Tighter(cfg)
  {
    forall i: nat | i < |times| && times[i] <= expiry
      ensures Decide(times[i], [Some(expiry)], cfg.rotateMargin, cfg.forceMargin) == Rotate(true)
         <==> expiry - times[i] <= Tighter(cfg)
    {
      assert Earliest([Some(expiry)]) == Some(expiry);
    }
    if expiry - times[k] <= Tighter(cfg) {
      assert Decide(times[k], [Some(expiry)], cfg.rotateMargin, cfg.forceMargin) == Rotate(true);
    }
  }

  /** Whatever the environment sets, sweeps start at most an hour apart and margins are at least a minute; with
      nothing set, a sweep that finishes within five minutes keeps both guarantees. */
  lemma ConfiguredCadence(optedOut: bool, interval: Option<nat>, rotate: Option<nat>, force: Option<nat>)
    ensures var cfg := FromLookup(optedOut, interval, rotate, force);
      60 <= cfg.interval <= 3600 && 60 <= cfg.rotateMargin <= 43200 && 60 <= cfg.forceMargin <= 43200
    ensures var cfg := FromLookup(optedOut, None, None, None);
      cfg.interval + 300 <= Tighter(cfg) && cfg.interval + 300 <= cfg.interval + cfg.rotateMargin
  {
  }
}
