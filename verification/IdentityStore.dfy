/** The console's identity pointers: one set per (chain, broker) stack, adopted once from the older keys. */
module IdentityStore {
  import opened Options
  import opened Text

  type Storage = map<string, string>
  /** `chain` and `broker` are the in-memory binding; storage mirrors it across reloads. */
  datatype State = State(chain: string, broker: string, storage: Storage)

  const ACTIVE_CHAIN_KEY := "ak_active_chain"
  const ACTIVE_BROKER_KEY := "ak_active_broker"
  const NAMESPACED := ["ak_master_cred_id", "ak_master_omni", "ak_onboarded"]

  function Get(s: Storage, key: string): Option<string> { if key in s then Some(s[key]) else None }

  function OrEmpty(value: Option<string>): string { if value.Some? then value.value else "" }

  // ---------------------------------------------------------------- keys

  function ChainKey(base: string, chain: string): string { base + ":" + chain }

  function StackKey(base: string, chain: string, broker: string): string {
    if broker == "" then ChainKey(base, chain) else ChainKey(base, chain) + "@" + broker
  }

  function CurrentChain(st: State): string {
    if st.chain != "" then st.chain else OrEmpty(Get(st.storage, ACTIVE_CHAIN_KEY))
  }

  function CurrentBroker(st: State): string {
    if st.broker != "" then st.broker else OrEmpty(Get(st.storage, ACTIVE_BROKER_KEY))
  }

  function ScopedKey(st: State, base: string): string {
    if CurrentChain(st) == "" then base else StackKey(base, CurrentChain(st), CurrentBroker(st))
  }

  /** `host` is what the URL parser answers: None when it throws. */
  function BrokerScope(url: string, host: string -> Option<string>): string {
    var raw := Trim(url);
    if raw == "" then "" else if host(raw).None? || host(raw).value == "" then raw else host(raw).value
  }

  function Read(st: State, base: string): string { OrEmpty(Get(st.storage, ScopedKey(st, base))) }

  // ---------------------------------------------------------------- binding a stack

  /** The first generation present among the older keys, newest first. */
  function Adopted(s: Storage, base: string, chain: string, broker: string): Option<string> {
    if broker != "" && ChainKey(base, chain) in s then Some(ChainKey(base, chain))
    else if base in s then Some(base)
    else None
  }

  function Migrate(s: Storage, base: string, chain: string, broker: string): Storage {
    var target := StackKey(base, chain, broker);
    var adopted := Adopted(s, base, chain, broker);
    if adopted.None? then s
    else
      var t := if target in s then s else s[target := s[adopted.value]];
      t - (if broker == "" then {base} else {ChainKey(base, chain), base})
  }

  function MigrateAll(s: Storage, bases: seq<string>, chain: string, broker: string): Storage {
    if bases == [] then s
    else Migrate(MigrateAll(s, bases[..|bases| - 1], chain, broker), bases[|bases| - 1], chain, broker)
  }

  function Mirror(s: Storage, chain: string, broker: string): Storage {
    var t := s[ACTIVE_CHAIN_KEY := chain];
    if broker != "" then t[ACTIVE_BROKER_KEY := broker] else t - {ACTIVE_BROKER_KEY}
  }

  function Bind(st: State, bases: seq<string>, chain: string, broker: string): State {
    if chain == "" then st
    else State(chain, broker, MigrateAll(Mirror(st.storage, chain, broker), bases, chain, broker))
  }

  function Cleared(st: State, base: string): State { st.(storage := st.storage - {ScopedKey(st, base)}) }

  function ClearAll(st: State, bases: seq<string>): State {
    if bases == [] then st else Cleared(ClearAll(st, bases[..|bases| - 1]), bases[|bases| - 1])
  }

  /** The module's variables and the browser's storage, changed in place. */
  class Store {
    var activeChain: string
    var activeBroker: string
    var storage: Storage

    function View(): State
      reads this
    {
      State(activeChain, activeBroker, storage)
    }

    method Write(base: string, value: string)
      modifies this
      ensures View() == old(View()).(storage := old(storage)[ScopedKey(old(View()), base) := value])
    {
      storage := storage[ScopedKey(View(), base) := value];
    }

    method ClearMasterIdentity()
      modifies this
      ensures View() == ClearAll(old(View()), NAMESPACED)
    {
      for i := 0 to |NAMESPACED|
        invariant View() == ClearAll(old(View()), NAMESPACED[..i])
      {
        assert NAMESPACED[..i + 1][..i] == NAMESPACED[..i];
        storage := storage - {ScopedKey(View(), NAMESPACED[i])};
      }
      assert NAMESPACED[..|NAMESPACED|] == NAMESPACED;
    }

    method SetActiveStack(chain: string, brokerUrl: string, host: string -> Option<string>)
      modifies this
      ensures View() == Bind(old(View()), NAMESPACED, chain, BrokerScope(brokerUrl, host))
    {
      if chain == "" {
        return;
      }
      activeChain := chain;
      activeBroker := BrokerScope(brokerUrl, host);
      storage := storage[ACTIVE_CHAIN_KEY := chain];
      if activeBroker != "" {
        storage := storage[ACTIVE_BROKER_KEY := activeBroker];
      } else {
        storage := storage - {ACTIVE_BROKER_KEY};
      }
      ghost var mirrored := storage;
      for i := 0 to |NAMESPACED|
        invariant activeChain == chain && activeBroker == BrokerScope(brokerUrl, host)
        invariant storage == MigrateAll(mirrored, NAMESPACED[..i], chain, activeBroker)
      {
        assert NAMESPACED[..i + 1][..i] == NAMESPACED[..i];
        storage := Migrate(storage, NAMESPACED[i], chain, activeBroker);
      }
      assert NAMESPACED[..|NAMESPACED|] == NAMESPACED;
    }

    /** Binds once per page load; `reply` is what the daemon answers (None: it failed). */
    method EnsureActiveStack(reply: Option<(string, string)>, host: string -> Option<string>)
      modifies this
      ensures View() == if old(activeChain) != "" || reply.None? then old(View())
                        else Bind(old(View()), NAMESPACED, reply.value.0, BrokerScope(reply.value.1, host))
    {
      if activeChain != "" {
        return;
      }
      if reply.Some? && reply.value.0 != "" {
        SetActiveStack(reply.value.0, reply.value.1, host);
      }
    }
  }

  // ---------------------------------------------------------------- keys never meet by accident

  lemma {:induction false} SplitOnce(a: string, b: string, a': string, b': string, c: char)
    requires a + [c] + b == a' + [c] + b' && c !in a && c !in a'
    ensures a == a' && b == b'
  {
    var s := a + [c] + b;
    if a == "" || a' == "" {
      assert s[0] == c;
      assert s[1..] == b && s[1..] == b';
    } else {
      assert s[0] == a[0] == a'[0];
      assert s[1..] == a[1..] + [c] + b == a'[1..] + [c] + b';
      SplitOnce(a[1..], b, a'[1..], b', c);
      assert a == [a[0]] + a[1..] && a' == [a'[0]] + a'[1..];
    }
  }

  /** What a stack is called behind the base. */
  function Scope(chain: string, broker: string): string { if broker == "" then chain else chain + "@" + broker }

  lemma StackKeyParts(base: string, chain: string, broker: string)
    ensures StackKey(base, chain, broker) == base + ":" + Scope(chain, broker)
  {
    assert base + ":" + (chain + "@" + broker) == base + ":" + chain + "@" + broker;
  }

  predicate PlainBase(base: string) { base != "" && ':' !in base }

  /** Keys of different bases, chains or brokers are different, for chain names without `@`. */
  lemma KeysAreDistinct(base: string, chain: string, broker: string, base': string, chain': string, broker': string)
    requires PlainBase(base) && PlainBase(base')
    ensures StackKey(base, chain, broker) != base'
    ensures StackKey(base, chain, broker) == StackKey(base', chain', broker') ==> base == base'
    ensures '@' !in chain && '@' !in chain' && StackKey(base, chain, broker) == StackKey(base', chain', broker') ==>
      chain == chain' && broker == broker'
  {
    StackKeyParts(base, chain, broker);
    StackKeyParts(base', chain', broker');
    var k := StackKey(base, chain, broker);
    assert k[|base|] == ':' && ':' in k;
    if k == StackKey(base', chain', broker') {
      SplitOnce(base, Scope(chain, broker), base', Scope(chain', broker'), ':');
      if '@' !in chain && '@' !in chain' {
        ScopesAreDistinct(chain, broker, chain', broker');
      }
    }
  }

  lemma ScopesAreDistinct(chain: string, broker: string, chain': string, broker': string)
    requires '@' !in chain && '@' !in chain' && Scope(chain, broker) == Scope(chain', broker')
    ensures chain == chain' && broker == broker'
  {
    var s := Scope(chain, broker);
    assert broker != "" ==> s[|chain|] == '@';
    assert broker' != "" ==> s[|chain'|] == '@';
    if broker != "" && broker' != "" {
      SplitOnce(chain, broker, chain', broker', '@');
    }
  }

  /** With an `@` in a chain name two stacks do share a key. */
  lemma AtSignsMayClash(base: string, chain: string, broker: string)
    requires broker != ""
    ensures StackKey(base, chain + "@" + broker, "") == StackKey(base, chain, broker)
  {
    assert base + ":" + (chain + "@" + broker) == base + ":" + chain + "@" + broker;
  }

  // ---------------------------------------------------------------- one base

  /** The first generation present: the stack's own key, the chain's key, the bare key. */
  function FirstPresent(s: Storage, base: string, chain: string, broker: string): Option<string> {
    if StackKey(base, chain, broker) in s then Some(s[StackKey(base, chain, broker)])
    else if ChainKey(base, chain) in s then Some(s[ChainKey(base, chain)])
    else Get(s, base)
  }

  predicate OwnKey(key: string, base: string, chain: string, broker: string) {
    key == StackKey(base, chain, broker) || key == ChainKey(base, chain) || key == base
  }

  lemma MigrateExactly(s: Storage, base: string, chain: string, broker: string, t: Storage)
    requires PlainBase(base) && t == Migrate(s, base, chain, broker)
    ensures Get(t, StackKey(base, chain, broker)) == FirstPresent(s, base, chain, broker)
    ensures base !in t && (broker != "" ==> ChainKey(base, chain) !in t)
    ensures forall key | !OwnKey(key, base, chain, broker) :: Get(t, key) == Get(s, key)
  {
    KeysAreDistinct(base, chain, broker, base, chain, "");
    KeysAreDistinct(base, chain, "", base, chain, "");
    StackKeyParts(base, chain, broker);
    assert broker != "" ==> |StackKey(base, chain, broker)| > |ChainKey(base, chain)|;
  }

  // ---------------------------------------------------------------- all bases

  ghost predicate PlainBases(bases: seq<string>) {
    && (forall i | 0 <= i < |bases| :: PlainBase(bases[i]))
    && (forall i, j | 0 <= i < j < |bases| :: bases[i] != bases[j])
    && ACTIVE_CHAIN_KEY !in bases && ACTIVE_BROKER_KEY !in bases
  }

  lemma OwnersAreDistinct(key: string, base: string, base': string, chain: string, broker: string)
    requires PlainBase(base) && PlainBase(base') && base != base' && OwnKey(key, base, chain, broker)
    ensures !OwnKey(key, base', chain, broker)
  {
    KeysAreDistinct(base, chain, broker, base', chain, broker);
    KeysAreDistinct(base, chain, broker, base', chain, "");
    KeysAreDistinct(base, chain, "", base', chain, broker);
    KeysAreDistinct(base, chain, "", base', chain, "");
    KeysAreDistinct(base', chain, broker, base, chain, "");
    KeysAreDistinct(base', chain, "", base, chain, "");
  }

  /** Where the migration leaves each key. */
  ghost predicate MigratedAt(s: Storage, t: Storage, base: string, chain: string, broker: string) {
    && Get(t, StackKey(base, chain, broker)) == FirstPresent(s, base, chain, broker)
    && base !in t && (broker != "" ==> ChainKey(base, chain) !in t)
  }

  lemma FirstPresentFrom(s: Storage, m: Storage, base: string, chain: string, broker: string)
    requires forall key | OwnKey(key, base, chain, broker) :: Get(m, key) == Get(s, key)
    ensures FirstPresent(m, base, chain, broker) == FirstPresent(s, base, chain, broker)
  {
    assert Get(m, StackKey(base, chain, broker)) == Get(s, StackKey(base, chain, broker));
    assert Get(m, ChainKey(base, chain)) == Get(s, ChainKey(base, chain));
    assert Get(m, base) == Get(s, base);
  }

  lemma MigratedTransfers(s: Storage, m: Storage, t: Storage, base: string, chain: string, broker: string)
    requires MigratedAt(s, m, base, chain, broker)
    requires forall key | OwnKey(key, base, chain, broker) :: Get(t, key) == Get(m, key)
    ensures MigratedAt(s, t, base, chain, broker)
  {
    assert Get(t, StackKey(base, chain, broker)) == Get(m, StackKey(base, chain, broker));
    assert Get(t, ChainKey(base, chain)) == Get(m, ChainKey(base, chain));
    assert Get(t, base) == Get(m, base);
  }

  ghost predicate Unowned(key: string, bases: seq<string>, chain: string, broker: string) {
    forall base | base in bases :: !OwnKey(key, base, chain, broker)
  }

  lemma {:induction false} MigrateAllExactly(s: Storage, bases: seq<string>, chain: string, broker: string)
    requires PlainBases(bases)
    ensures forall base | base in bases :: MigratedAt(s, MigrateAll(s, bases, chain, broker), base, chain, broker)
    ensures forall key | Unowned(key, bases, chain, broker) ::
              Get(MigrateAll(s, bases, chain, broker), key) == Get(s, key)
  {
    if bases != [] {
      var front, last := bases[..|bases| - 1], bases[|bases| - 1];
      assert bases == front + [last];
      MigrateAllExactly(s, front, chain, broker);
      MigrateNext(s, front, last, chain, broker);
    }
  }

  lemma MigrateNext(s: Storage, front: seq<string>, last: string, chain: string, broker: string)
    requires PlainBase(last) && last !in front && forall base | base in front :: PlainBase(base)
    requires forall base | base in front :: MigratedAt(s, MigrateAll(s, front, chain, broker), base, chain, broker)
    requires forall key | Unowned(key, front, chain, broker) ::
               Get(MigrateAll(s, front, chain, broker), key) == Get(s, key)
    ensures var t := Migrate(MigrateAll(s, front, chain, broker), last, chain, broker);
      && (forall base | base in front + [last] :: MigratedAt(s, t, base, chain, broker))
      && (forall key | Unowned(key, front + [last], chain, broker) :: Get(t, key) == Get(s, key))
  {
    var m := MigrateAll(s, front, chain, broker);
    var t := Migrate(m, last, chain, broker);
    MigrateExactly(m, last, chain, broker, t);
    forall key | OwnKey(key, last, chain, broker) ensures Get(m, key) == Get(s, key) {
      forall base | base in front ensures !OwnKey(key, base, chain, broker) {
        OwnersAreDistinct(key, last, base, chain, broker);
      }
      assert Unowned(key, front, chain, broker);
    }
    FirstPresentFrom(s, m, last, chain, broker);
    forall base | base in front ensures MigratedAt(s, t, base, chain, broker) {
      forall key | OwnKey(key, base, chain, broker) ensures Get(t, key) == Get(m, key) {
        OwnersAreDistinct(key, base, last, chain, broker);
      }
      MigratedTransfers(s, m, t, base, chain, broker);
    }
    forall key | Unowned(key, front + [last], chain, broker) ensures Get(t, key) == Get(s, key) {
      assert last in front + [last] && forall base | base in front :: base in front + [last];
      assert Unowned(key, front, chain, broker);
    }
  }

  // ---------------------------------------------------------------- the promises

  lemma NamespacedIsPlain()
    ensures PlainBases(NAMESPACED) && ':' !in ACTIVE_CHAIN_KEY && ':' !in ACTIVE_BROKER_KEY
  {
    assert |NAMESPACED[0]| == 17 && |NAMESPACED[1]| == 14 && |NAMESPACED[2]| == 12;
  }

  /** The binding is recorded outside every identity key. */
  lemma MirrorKeepsKeys(s: Storage, base: string, chain: string, broker: string, chain': string, broker': string)
    requires PlainBase(base) && base != ACTIVE_CHAIN_KEY && base != ACTIVE_BROKER_KEY
    requires ':' !in ACTIVE_CHAIN_KEY && ':' !in ACTIVE_BROKER_KEY
    ensures forall key | OwnKey(key, base, chain', broker') ::
      key != ACTIVE_CHAIN_KEY && key != ACTIVE_BROKER_KEY && Get(Mirror(s, chain, broker), key) == Get(s, key)
  {
    StackKeyParts(base, chain', broker');
    assert StackKey(base, chain', broker')[|base|] == ':' && ChainKey(base, chain')[|base|] == ':';
  }

  lemma BindExactly(st: State, bases: seq<string>, chain: string, broker: string, base: string)
    requires PlainBases(bases) && ':' !in ACTIVE_CHAIN_KEY && ':' !in ACTIVE_BROKER_KEY
    requires chain != "" && base in bases
    ensures var after := Bind(st, bases, chain, broker);
      && MigratedAt(st.storage, after.storage, base, chain, broker)
      && CurrentChain(after) == chain && CurrentBroker(after) == broker
      && ScopedKey(after, base) == StackKey(base, chain, broker)
  {
    var m := Mirror(st.storage, chain, broker);
    MigrateAllExactly(m, bases, chain, broker);
    MirrorKeepsKeys(st.storage, base, chain, broker, chain, broker);
    FirstPresentFrom(st.storage, m, base, chain, broker);
    forall b | b in bases ensures !OwnKey(ACTIVE_BROKER_KEY, b, chain, broker) {
      MirrorKeepsKeys(st.storage, b, chain, broker, chain, broker);
    }
    assert Unowned(ACTIVE_BROKER_KEY, bases, chain, broker);
    assert Get(MigrateAll(m, bases, chain, broker), ACTIVE_BROKER_KEY) == Get(m, ACTIVE_BROKER_KEY);
  }

  /** After binding a stack each pointer reads as the first present of its own key, its chain's key and the bare
      key. */
  lemma ReadsFirstPresent(st: State, chain: string, broker: string, base: string)
    requires chain != "" && base in NAMESPACED
    ensures Read(Bind(st, NAMESPACED, chain, broker), base) == OrEmpty(FirstPresent(st.storage, base, chain, broker))
  {
    NamespacedIsPlain();
    BindExactly(st, NAMESPACED, chain, broker, base);
  }

  lemma SameGets(a: Storage, b: Storage)
    requires forall key :: Get(a, key) == Get(b, key)
    ensures a == b
  {
    forall key ensures key in a <==> key in b {
      assert Get(a, key) == Get(b, key);
    }
    forall key | key in a ensures a[key] == b[key] {
      assert Get(a, key) == Get(b, key);
    }
  }

  /** What one base leaves once migrated is left alone by migrating again. */
  lemma MigrateTwice(s: Storage, t: Storage, u: Storage, base: string, chain: string, broker: string, key: string)
    requires MigratedAt(s, t, base, chain, broker) && MigratedAt(t, u, base, chain, broker)
    requires OwnKey(key, base, chain, broker)
    ensures Get(u, key) == Get(t, key)
  {
  }

  /** Binding the same stack twice is binding it once. */
  lemma BindIdempotent(st: State, chain: string, broker: string)
    ensures Bind(Bind(st, NAMESPACED, chain, broker), NAMESPACED, chain, broker) == Bind(st, NAMESPACED, chain, broker)
  {
    if chain != "" {
      NamespacedIsPlain();
      BindTwice(st, NAMESPACED, chain, broker);
    }
  }

  lemma BindTwice(st: State, bases: seq<string>, chain: string, broker: string)
    requires PlainBases(bases) && ':' !in ACTIVE_CHAIN_KEY && ':' !in ACTIVE_BROKER_KEY
    requires chain != ""
    ensures Bind(Bind(st, bases, chain, broker), bases, chain, broker) == Bind(st, bases, chain, broker)
  {
    var after := Bind(st, bases, chain, broker);
    var m, n := Mirror(st.storage, chain, broker), Mirror(after.storage, chain, broker);
    var t, u := MigrateAll(m, bases, chain, broker), MigrateAll(n, bases, chain, broker);
    MigrateAllExactly(m, bases, chain, broker);
    MigrateAllExactly(n, bases, chain, broker);
    forall key ensures Get(u, key) == Get(t, key) {
      if Unowned(key, bases, chain, broker) {
        assert Get(t, key) == Get(m, key) && Get(u, key) == Get(n, key);
      } else {
        var base :| base in bases && OwnKey(key, base, chain, broker);
        BindExactly(after, bases, chain, broker, base);
        MigrateTwice(m, t, u, base, chain, broker, key);
      }
    }
    SameGets(u, t);
  }

  /** Binding touches the identity keys of no other chain, and of no other broker on the same chain. */
  lemma OtherStacksUntouched(st: State, chain: string, broker: string, base: string, chain': string, broker': string)
    requires PlainBase(base) && '@' !in chain && '@' !in chain'
    requires chain' != chain || (broker' != broker && broker' != "")
    ensures Get(Bind(st, NAMESPACED, chain, broker).storage, StackKey(base, chain', broker'))
         == Get(st.storage, StackKey(base, chain', broker'))
  {
    if chain != "" {
      NamespacedIsPlain();
      var key := StackKey(base, chain', broker');
      forall b | b in NAMESPACED ensures !OwnKey(key, b, chain, broker) {
        KeysAreDistinct(base, chain', broker', b, chain, broker);
        KeysAreDistinct(base, chain', broker', b, chain, "");
      }
      assert Unowned(key, NAMESPACED, chain, broker);
      MigrateAllExactly(Mirror(st.storage, chain, broker), NAMESPACED, chain, broker);
      StackKeyParts(base, chain', broker');
      assert key[|base|] == ':';
    }
  }

  function ScopedKeys(st: State, bases: seq<string>): (keys: set<string>)
    ensures forall b | b in bases :: ScopedKey(st, b) in keys
    ensures forall key | key in keys :: exists b | b in bases :: key == ScopedKey(st, b)
  {
    if bases == [] then {}
    else
      assert bases == bases[..|bases| - 1] + [bases[|bases| - 1]];
      ScopedKeys(st, bases[..|bases| - 1]) + {ScopedKey(st, bases[|bases| - 1])}
  }

  lemma ScopedKeyIsNoMirror(st: State, base: string)
    requires PlainBase(base) && base != ACTIVE_CHAIN_KEY && base != ACTIVE_BROKER_KEY
    requires ':' !in ACTIVE_CHAIN_KEY && ':' !in ACTIVE_BROKER_KEY
    ensures ScopedKey(st, base) != ACTIVE_CHAIN_KEY && ScopedKey(st, base) != ACTIVE_BROKER_KEY
  {
    var c, b := CurrentChain(st), CurrentBroker(st);
    StackKeyParts(base, c, b);
    assert StackKey(base, c, b)[|base|] == ':';
  }

  /** Removing keys other than the mirrors changes no key of any base. */
  lemma ScopeSurvives(st: State, removed: set<string>, base: string)
    requires ACTIVE_CHAIN_KEY !in removed && ACTIVE_BROKER_KEY !in removed
    ensures ScopedKey(st.(storage := st.storage - removed), base) == ScopedKey(st, base)
  {
  }

  lemma RemoveMore(s: Storage, a: set<string>, key: string)
    ensures (s - a) - {key} == s - (a + {key})
  {
  }

  lemma {:induction false} ClearAllExactly(st: State, bases: seq<string>)
    requires PlainBases(bases) && ':' !in ACTIVE_CHAIN_KEY && ':' !in ACTIVE_BROKER_KEY
    ensures ACTIVE_CHAIN_KEY !in ScopedKeys(st, bases) && ACTIVE_BROKER_KEY !in ScopedKeys(st, bases)
    ensures ClearAll(st, bases) == st.(storage := st.storage - ScopedKeys(st, bases))
  {
    if bases == [] {
      assert st.storage - {} == st.storage;
    } else {
      var front, last := bases[..|bases| - 1], bases[|bases| - 1];
      ClearAllExactly(st, front);
      ScopedKeyIsNoMirror(st, last);
      ScopeSurvives(st, ScopedKeys(st, front), last);
      RemoveMore(st.storage, ScopedKeys(st, front), ScopedKey(st, last));
    }
  }

  lemma OtherKeyIsNotScoped(st: State, n: string, base: string, chain': string, broker': string)
    requires PlainBase(n) && PlainBase(base) && CurrentChain(st) != ""
    requires '@' !in CurrentChain(st) && '@' !in chain'
    requires chain' != CurrentChain(st) || broker' != CurrentBroker(st)
    ensures ScopedKey(st, n) != StackKey(base, chain', broker')
  {
    KeysAreDistinct(n, CurrentChain(st), CurrentBroker(st), base, chain', broker');
  }

  /** A reset empties the active stack's pointers and leaves every other stack's key as it was. */
  lemma ClearOnlyTheActiveStack(st: State, base: string, chain': string, broker': string)
    requires CurrentChain(st) != "" && '@' !in CurrentChain(st) && '@' !in chain'
    requires base in NAMESPACED && (chain' != CurrentChain(st) || broker' != CurrentBroker(st))
    ensures Read(ClearAll(st, NAMESPACED), base) == ""
    ensures Get(ClearAll(st, NAMESPACED).storage, StackKey(base, chain', broker'))
         == Get(st.storage, StackKey(base, chain', broker'))
  {
    NamespacedIsPlain();
    ClearOnly(st, NAMESPACED, base, chain', broker');
  }

  lemma ClearOnly(st: State, bases: seq<string>, base: string, chain': string, broker': string)
    requires PlainBases(bases) && ':' !in ACTIVE_CHAIN_KEY && ':' !in ACTIVE_BROKER_KEY
    requires CurrentChain(st) != "" && '@' !in CurrentChain(st) && '@' !in chain'
    requires base in bases && (chain' != CurrentChain(st) || broker' != CurrentBroker(st))
    ensures Read(ClearAll(st, bases), base) == ""
    ensures Get(ClearAll(st, bases).storage, StackKey(base, chain', broker'))
         == Get(st.storage, StackKey(base, chain', broker'))
  {
    ClearAllExactly(st, bases);
    ScopeSurvives(st, ScopedKeys(st, bases), base);
    forall n | n in bases ensures ScopedKey(st, n) != StackKey(base, chain', broker') {
      OtherKeyIsNotScoped(st, n, base, chain', broker');
    }
  }

  // ---------------------------------------------------------------- runs of the console

  datatype Event =
    | Switch(chain: string, broker: string)
    | Reload
    | Write(base: string, value: string)
    | Clear(base: string)

  function Step(st: State, bases: seq<string>, e: Event): State {
    match e
    case Switch(chain, broker) => Bind(st, bases, chain, broker)
    case Reload => st.(chain := "", broker := "")
    case Write(base, value) => st.(storage := st.storage[ScopedKey(st, base) := value])
    case Clear(base) => Cleared(st, base)
  }

  function Run(st: State, bases: seq<string>, events: seq<Event>): State
    decreases |events|
  {
    if events == [] then st else Run(Step(st, bases, events[0]), bases, events[1..])
  }

  /** Binding the stack copies an older key's value into the stack's own. */
  predicate Adopts(st: State, base: string, legacy: string, chain: string, broker: string) {
    && chain != "" && StackKey(base, chain, broker) !in st.storage
    && Adopted(st.storage, base, chain, broker) == Some(legacy)
  }

  /** Chain names have no `@`, and only identity pointers are written and cleared. */
  predicate PlainEvent(e: Event, bases: seq<string>) {
    match e
    case Switch(chain, _) => '@' !in chain
    case Reload => true
    case Write(base, _) => base in bases
    case Clear(base) => base in bases
  }

  /** The pointer is written while the chain is bound without a broker. */
  predicate BrokerlessWrite(st: State, e: Event, base: string, chain: string) {
    e.Write? && e.base == base && CurrentChain(st) == chain && CurrentBroker(st) == ""
  }

  ghost predicate NoBrokerlessWrite(st: State, bases: seq<string>, events: seq<Event>, base: string, chain: string)
    decreases |events|
  {
    events == [] ||
    (!BrokerlessWrite(st, events[0], base, chain)
     && NoBrokerlessWrite(Step(st, bases, events[0]), bases, events[1..], base, chain))
  }

  /** Some chain without `@` is bound, and storage says which. */
  ghost predicate Bound(st: State) {
    && ACTIVE_CHAIN_KEY in st.storage && st.storage[ACTIVE_CHAIN_KEY] != "" && '@' !in st.storage[ACTIVE_CHAIN_KEY]
    && (st.chain == "" || st.chain == st.storage[ACTIVE_CHAIN_KEY])
  }

  lemma SwitchBinds(st: State, bases: seq<string>, chain: string, broker: string)
    requires PlainBases(bases) && ':' !in ACTIVE_CHAIN_KEY && ':' !in ACTIVE_BROKER_KEY
    requires chain != "" && '@' !in chain
    ensures Bound(Bind(st, bases, chain, broker))
  {
    var m := Mirror(st.storage, chain, broker);
    MigrateAllExactly(m, bases, chain, broker);
    forall b | b in bases ensures !OwnKey(ACTIVE_CHAIN_KEY, b, chain, broker) {
      MirrorKeepsKeys(st.storage, b, chain, broker, chain, broker);
    }
    assert Unowned(ACTIVE_CHAIN_KEY, bases, chain, broker);
    assert Get(MigrateAll(m, bases, chain, broker), ACTIVE_CHAIN_KEY) == Get(m, ACTIVE_CHAIN_KEY) == Some(chain);
  }

  lemma StepStaysBound(st: State, bases: seq<string>, e: Event)
    requires PlainBases(bases) && ':' !in ACTIVE_CHAIN_KEY && ':' !in ACTIVE_BROKER_KEY
    requires Bound(st) && PlainEvent(e, bases)
    ensures Bound(Step(st, bases, e))
  {
    match e
    case Switch(chain, broker) => if chain != "" { SwitchBinds(st, bases, chain, broker); }
    case Reload =>
    case Write(base, _) => ScopedKeyIsNoMirror(st, base);
    case Clear(base) => ScopedKeyIsNoMirror(st, base);
  }

  /** A bare key that is gone never comes back. */
  lemma StepKeepsBareGone(st: State, bases: seq<string>, e: Event, base: string)
    requires PlainBases(bases) && ':' !in ACTIVE_CHAIN_KEY && ':' !in ACTIVE_BROKER_KEY
    requires base in bases && Bound(st) && PlainEvent(e, bases) && base !in st.storage
    ensures base !in Step(st, bases, e).storage
  {
    match e
    case Switch(chain, broker) => if chain != "" { BindExactly(st, bases, chain, broker, base); }
    case Reload =>
    case Write(b, _) => KeysAreDistinct(b, CurrentChain(st), CurrentBroker(st), base, "", "");
    case Clear(_) =>
  }

  lemma SwitchKeepsChainGone(st: State, bases: seq<string>, base: string, chain: string,
                             chain': string, broker': string)
    requires PlainBases(bases) && ':' !in ACTIVE_CHAIN_KEY && ':' !in ACTIVE_BROKER_KEY
    requires base in bases && '@' !in chain && '@' !in chain'
    requires base !in st.storage && ChainKey(base, chain) !in st.storage
    ensures ChainKey(base, chain) !in Bind(st, bases, chain', broker').storage
  {
    if chain' != "" {
      BindExactly(st, bases, chain', broker', base);
      if chain' != chain {
        var key := ChainKey(base, chain);
        forall b | b in bases ensures !OwnKey(key, b, chain', broker') {
          KeysAreDistinct(base, chain, "", b, chain', broker');
          KeysAreDistinct(base, chain, "", b, chain', "");
        }
        assert Unowned(key, bases, chain', broker');
        MigrateAllExactly(Mirror(st.storage, chain', broker'), bases, chain', broker');
        MirrorKeepsKeys(st.storage, base, chain', broker', chain, "");
        assert OwnKey(key, base, chain, "");
        assert Get(Mirror(st.storage, chain', broker'), key) == Get(st.storage, key);
      }
    }
  }

  lemma WriteMakesChainKeyExactly(st: State, b: string, base: string, chain: string)
    requires PlainBase(b) && PlainBase(base) && Bound(st) && '@' !in chain
    ensures ScopedKey(st, b) == ChainKey(base, chain) <==>
            b == base && CurrentChain(st) == chain && CurrentBroker(st) == ""
  {
    KeysAreDistinct(b, CurrentChain(st), CurrentBroker(st), base, chain, "");
  }

  /** With both older keys gone, an event makes the chain's key anew exactly when it writes the pointer while the
      chain is bound without a broker: there it is the stack's own key. */
  lemma ChainKeyReturnsExactly(st: State, bases: seq<string>, e: Event, base: string, chain: string)
    requires PlainBases(bases) && ':' !in ACTIVE_CHAIN_KEY && ':' !in ACTIVE_BROKER_KEY
    requires base in bases && '@' !in chain && Bound(st) && PlainEvent(e, bases)
    requires base !in st.storage && ChainKey(base, chain) !in st.storage
    ensures ChainKey(base, chain) in Step(st, bases, e).storage <==> BrokerlessWrite(st, e, base, chain)
  {
    match e
    case Switch(chain', broker') => SwitchKeepsChainGone(st, bases, base, chain, chain', broker');
    case Reload =>
    case Write(b, _) => WriteMakesChainKeyExactly(st, b, base, chain);
    case Clear(_) =>
  }

  lemma {:induction false} BareForGood(st: State, bases: seq<string>, events: seq<Event>, base: string)
    requires PlainBases(bases) && ':' !in ACTIVE_CHAIN_KEY && ':' !in ACTIVE_BROKER_KEY
    requires base in bases && Bound(st) && base !in st.storage
    requires forall e | e in events :: PlainEvent(e, bases)
    ensures base !in Run(st, bases, events).storage
    decreases |events|
  {
    if events != [] {
      assert events[0] in events;
      StepStaysBound(st, bases, events[0]);
      StepKeepsBareGone(st, bases, events[0], base);
      BareForGood(Step(st, bases, events[0]), bases, events[1..], base);
    }
  }

  lemma {:induction false} ChainForGood(st: State, bases: seq<string>, events: seq<Event>, base: string, chain: string)
    requires PlainBases(bases) && ':' !in ACTIVE_CHAIN_KEY && ':' !in ACTIVE_BROKER_KEY
    requires base in bases && '@' !in chain && Bound(st)
    requires base !in st.storage && ChainKey(base, chain) !in st.storage
    requires forall e | e in events :: PlainEvent(e, bases)
    requires NoBrokerlessWrite(st, bases, events, base, chain)
    ensures ChainKey(base, chain) !in Run(st, bases, events).storage
    decreases |events|
  {
    if events != [] {
      assert events[0] in events;
      StepStaysBound(st, bases, events[0]);
      StepKeepsBareGone(st, bases, events[0], base);
      ChainKeyReturnsExactly(st, bases, events[0], base, chain);
      ChainForGood(Step(st, bases, events[0]), bases, events[1..], base, chain);
    }
  }

  /** A stack that adopts an older key's value holds it afterwards; over any further run of switches, reloads, writes
      and clears no stack adopts that key again. A bare key is gone whatever is written; a chain's key as long as the
      pointer is not written while that chain is bound without a broker. */
  lemma AdoptedAtMostOnce(st: State, events: seq<Event>, base: string, legacy: string, chain: string, broker: string)
    requires base in NAMESPACED && '@' !in chain && Adopts(st, base, legacy, chain, broker)
    requires forall e | e in events :: PlainEvent(e, NAMESPACED)
    ensures var bound := Bind(st, NAMESPACED, chain, broker);
      && Get(bound.storage, StackKey(base, chain, broker)) == Get(st.storage, legacy)
      && var later := Run(bound, NAMESPACED, events);
         legacy == base || NoBrokerlessWrite(bound, NAMESPACED, events, base, chain) ==>
           && legacy !in later.storage
           && forall chain', broker' :: !Adopts(later, base, legacy, chain', broker')
  {
    NamespacedIsPlain();
    var bound := Bind(st, NAMESPACED, chain, broker);
    BindExactly(st, NAMESPACED, chain, broker, base);
    SwitchBinds(st, NAMESPACED, chain, broker);
    if legacy == base {
      BareForGood(bound, NAMESPACED, events, base);
    } else if NoBrokerlessWrite(bound, NAMESPACED, events, base, chain) {
      ChainForGood(bound, NAMESPACED, events, base, chain);
    }
  }
}
