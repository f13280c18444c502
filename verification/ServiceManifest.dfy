/** The local services' manifest and key files: what `prepare` may create, and what no run ever changes. A run
    that fails and a process that dies leave the same files behind. */
module ServiceManifest {
  import opened Options
  import opened Hex
  import opened Text

  const MANIFEST_VERSION: nat := 11
  const BROWSER_PORTS_VERSION: nat := 10
  const RUNTIME_VERSION: nat := 5

  datatype Runtime = Runtime(image: string, socket: string, namespace: string, diskPolicy: Option<string>)
  /** `runtime` and `browserPorts` are None while the manifest has no such entry. */
  datatype Manifest = Manifest(
    version: nat, profile: string, brokerPort: nat, initialized: bool, runtime: Option<Option<Runtime>>,
    browserPorts: Option<map<string, nat>>, webPort: Option<nat>)
  /** `dirty`: the services directory is not empty. */
  datatype State = State(files: map<string, string>, manifest: Option<Manifest>, dirty: bool)

  /** A key or state file, and the manifest version from which an initialized deployment must have it. */
  datatype KeyFile = KeyFile(path: string, since: nat)

  const KEY_FILES := [
    KeyFile("broker/oidc.json", 1), KeyFile("broker/session.json", 1),
    KeyFile("credentials/development.key", 1), KeyFile("config/development.key", 1),
    KeyFile("memory/development.key", 1), KeyFile("channel/development.key", 1),
    KeyFile("signer/master.key", 2), KeyFile("relay/admin.key", 3), KeyFile("relay/keys.json", 3),
    KeyFile("audit/service.key", MANIFEST_VERSION), KeyFile("audit/archive.db", MANIFEST_VERSION),
    KeyFile("bundler/submitter.key", 4)]

  const BROWSER_SERVICES := ["signer", "credentials", "config", "memory", "channel", "classify"]

  const POLICY_LIMIT: nat := 4096

  /** A disk policy: the text typed on the command line, and the text `json.dumps` writes for the object read from it
      (None when it is no JSON object). */
  datatype Policy = Policy(typed: string, stored: Option<string>)

  /** What a run is given, and what the system answers it: `modelReady` and `web` (None: refused) stand for the
      other configurations, `contents` for the key material it manages to write (None: creation fails or the
      process dies there), `finishes` for the checks after the keys, `bound` for the ports the system hands out. */
  datatype Args = Args(
    profile: string, port: Option<int>, availablePort: nat, image: Option<string>, socket: Option<string>,
    policy: Option<Policy>, suffix: string, modelReady: bool, web: Option<Option<nat>>,
    contents: map<string, string>, finishes: bool, bound: seq<nat>)

  // ---------------------------------------------------------------- the manifest

  predicate ValidManifest(m: Manifest, profile: string) {
    1 <= m.version <= MANIFEST_VERSION && m.profile == profile && 1 <= m.brokerPort <= 65535
  }

  /** The manifest a run works with; None refuses. */
  function Open(s: State, a: Args): Option<Manifest> {
    if s.manifest.Some? then
      if ValidManifest(s.manifest.value, a.profile) && (a.port.None? || a.port.value == s.manifest.value.brokerPort)
      then s.manifest else None
    else if s.dirty || (a.port.Some? && !(1 <= a.port.value <= 65535)) then None
    else Some(Manifest(MANIFEST_VERSION, a.profile, if a.port.Some? then a.port.value else a.availablePort, false,
                       None, None, None))
  }

  // ---------------------------------------------------------------- the runtime

  predicate NamespaceChar(c: char) { ('a' <= c <= 'z') || ('0' <= c <= '9') || c == '-' }

  predicate Contains(s: string, t: string) { StartsWith(s, t) || (s != "" && Contains(s[1..], t)) }

  predicate ValidRuntime(r: Runtime) {
    && r.image != "" && r.image[0] != '-' && (forall c | c in r.image :: !Blank(c))
    && StartsWith(r.socket, "/") && !Contains(r.socket, "://")
    && StartsWith(r.namespace, "terrier-") && |r.namespace| <= 48 && (forall c | c in r.namespace :: NamespaceChar(c))
    && (r.diskPolicy.Some? ==> |r.diskPolicy.value| <= POLICY_LIMIT)
  }

  /** `runtime_configuration`; the outer None refuses. */
  function RuntimeConfiguration(m: Manifest, a: Args): Option<Option<Runtime>> {
    var previous := if m.runtime.Some? then m.runtime.value else None;
    if a.image.None? != a.socket.None? then None
    else if m.version >= RUNTIME_VERSION && m.initialized && m.runtime.None? then None
    else if previous.Some? && !ValidRuntime(previous.value) then None
    else if a.policy.Some? && |a.policy.value.typed| > POLICY_LIMIT then None
    else if a.policy.Some? && a.policy.value.stored.None? then None
    else if a.image.None? then
      if a.policy.None? then Some(previous)
      else if previous.None? then None
      else Some(Some(previous.value.(diskPolicy := a.policy.value.stored)))
    else
      var configured := Runtime(
        a.image.value, a.socket.value, if previous.Some? then previous.value.namespace else "terrier-" + a.suffix,
        if a.policy.Some? then a.policy.value.stored else if previous.Some? then previous.value.diskPolicy else None);
      if !ValidRuntime(configured) || (previous.Some? && previous.value.socket != configured.socket) then None
      else Some(Some(configured))
  }

  // ---------------------------------------------------------------- key files

  /** The loop over the key files: what exists stays, what must exist is demanded, the rest is created. */
  function CreateKeys(files: map<string, string>, keys: seq<KeyFile>, m: Manifest, contents: map<string, string>)
    : (map<string, string>, bool)
    decreases |keys|
  {
    if keys == [] then (files, true)
    else
      var k := keys[0];
      if k.path in files then CreateKeys(files, keys[1..], m, contents)
      else if m.initialized && m.version >= k.since then (files, false)
      else if k.path !in contents then (files, false)
      else CreateKeys(files[k.path := contents[k.path]], keys[1..], m, contents)
  }

  // ---------------------------------------------------------------- browser ports

  function Excluded(m: Manifest, web: Option<nat>): set<nat> {
    if web.Some? then {m.brokerPort, web.value} else {m.brokerPort}
  }

  predicate ValidPorts(ports: map<string, nat>, names: seq<string>, excluded: set<nat>) {
    && ports.Keys == (set n | n in names)
    && (forall n | n in ports :: 1 <= ports[n] <= 65535 && ports[n] !in excluded)
    && (forall n, k | n in ports && k in ports && n != k :: ports[n] != ports[k])
  }

  /** The first of the bound ports that is not excluded; every listener stays open, so no port is bound twice. */
  function Pick(bound: seq<nat>, excluded: set<nat>): Option<(nat, seq<nat>)> {
    if bound == [] then None
    else if bound[0] in excluded then Pick(bound[1..], excluded)
    else Some((bound[0], bound[1..]))
  }

  function PickAll(names: seq<string>, bound: seq<nat>, excluded: set<nat>): Option<map<string, nat>>
    decreases |names|
  {
    if names == [] then Some(map[])
    else
      var first := Pick(bound, excluded);
      if first.None? then None
      else
        var rest := PickAll(names[1..], first.value.1, excluded);
        if rest.None? then None else Some(rest.value[names[0] := first.value.0])
  }

  function BrowserPorts(m: Manifest, names: seq<string>, web: Option<nat>, bound: seq<nat>): Option<map<string, nat>> {
    if m.browserPorts.Some? then
      if ValidPorts(m.browserPorts.value, names, Excluded(m, web)) then m.browserPorts else None
    else if m.version >= BROWSER_PORTS_VERSION && m.initialized then None
    else PickAll(names, bound, Excluded(m, web))
  }

  // ---------------------------------------------------------------- prepare

  /** One run, over a list of key files and browser services; the flag says that it completed. */
  function Prepared(s: State, keys: seq<KeyFile>, names: seq<string>, a: Args): (State, bool) {
    var working := Open(s, a);
    if working.None? then (s, false)
    else
      var m := working.value;
      var s1 := s.(manifest := working, dirty := true);
      var runtime := RuntimeConfiguration(m, a);
      if runtime.None? || !a.modelReady || a.web.None? then (s1, false)
      else
        var (files, complete) := CreateKeys(s.files, keys, m, a.contents);
        var s2 := s1.(files := files);
        if !complete || !a.finishes then (s2, false)
        else
          var ports := BrowserPorts(m, names, a.web.value, a.bound);
          if ports.None? then (s2, false)
          else
            var m' := Manifest(MANIFEST_VERSION, m.profile, m.brokerPort, true, runtime, ports, a.web.value);
            (s2.(manifest := Some(m')), true)
  }

  /** `stop` of services of an older schema saves the ports they run on, once it finds them valid. */
  function SavePorts(s: State, names: seq<string>, ports: map<string, nat>): State {
    if s.manifest.None? || !ValidPorts(ports, names, Excluded(s.manifest.value, s.manifest.value.webPort)) then s
    else s.(manifest := Some(s.manifest.value.(browserPorts := Some(ports))))
  }

  /** The services directory, changed in place. */
  class Services {
    var files: map<string, string>
    var manifest: Option<Manifest>
    var dirty: bool

    ghost function View(): State
      reads this
    {
      State(files, manifest, dirty)
    }

    method PrepareKeys(m: Manifest, contents: map<string, string>) returns (complete: bool)
      modifies this`files
      ensures (files, complete) == CreateKeys(old(files), KEY_FILES, m, contents)
    {
      for i := 0 to |KEY_FILES|
        invariant CreateKeys(files, KEY_FILES[i..], m, contents) == CreateKeys(old(files), KEY_FILES, m, contents)
      {
        assert KEY_FILES[i..][1..] == KEY_FILES[i + 1..];
        var k := KEY_FILES[i];
        if k.path !in files {
          if (m.initialized && m.version >= k.since) || k.path !in contents {
            return false;
          }
          files := files[k.path := contents[k.path]];
        }
      }
      complete := true;
    }

    method Prepare(a: Args) returns (done: bool)
      modifies this
      ensures (View(), done) == Prepared(old(View()), KEY_FILES, BROWSER_SERVICES, a)
    {
      done := false;
      var working := Open(State(files, manifest, dirty), a);
      if working.None? {
        return;
      }
      var m := working.value;
      manifest, dirty := working, true;
      var runtime := RuntimeConfiguration(m, a);
      if runtime.None? || !a.modelReady || a.web.None? {
        return;
      }
      var complete := PrepareKeys(m, a.contents);
      if !complete || !a.finishes {
        return;
      }
      var ports := BrowserPorts(m, BROWSER_SERVICES, a.web.value, a.bound);
      if ports.None? {
        return;
      }
      manifest := Some(Manifest(MANIFEST_VERSION, m.profile, m.brokerPort, true, runtime, ports, a.web.value));
      done := true;
    }
  }

  // ---------------------------------------------------------------- ports that are picked stay acceptable

  predicate Distinct<T(==)>(s: seq<T>) { forall i, j | 0 <= i < j < |s| :: s[i] != s[j] }

  lemma {:induction false} PickExactly(bound: seq<nat>, excluded: set<nat>)
    requires Distinct(bound) && Pick(bound, excluded).Some?
    ensures var (port, rest) := Pick(bound, excluded).value;
      port in bound && port !in excluded && port !in rest && Distinct(rest) && forall p | p in rest :: p in bound
  {
    if bound[0] in excluded {
      PickExactly(bound[1..], excluded);
    }
  }

  lemma {:induction false} PickAllExactly(names: seq<string>, bound: seq<nat>, excluded: set<nat>)
    requires Distinct(names) && Distinct(bound) && PickAll(names, bound, excluded).Some?
    requires forall p | p in bound :: 1 <= p <= 65535
    ensures var ports := PickAll(names, bound, excluded).value;
      ValidPorts(ports, names, excluded) && forall n | n in ports :: ports[n] in bound
    decreases |names|
  {
    if names != [] {
      PickExactly(bound, excluded);
      var (port, rest) := Pick(bound, excluded).value;
      PickAllExactly(names[1..], rest, excluded);
      var others := PickAll(names[1..], rest, excluded).value;
      assert names == [names[0]] + names[1..];
      assert forall n | n in others :: others[n] != port;
      assert names[0] !in others;
    }
  }

  // ---------------------------------------------------------------- what one run keeps

  /** An initialized manifest of this version demands the file. */
  ghost predicate Required(m: Manifest, keys: seq<KeyFile>, path: string) {
    && m.initialized
    && forall k | k in keys && k.path == path :: m.version >= k.since
  }

  lemma {:induction false} CreateKeysExactly(files: map<string, string>, keys: seq<KeyFile>, m: Manifest,
                                             contents: map<string, string>)
    ensures var (after, complete) := CreateKeys(files, keys, m, contents);
      && (forall path | path in files :: path in after && after[path] == files[path])
      && (forall path | Required(m, keys, path) && path !in files :: path !in after)
      && (complete ==> forall k | k in keys :: k.path in after)
    decreases |keys|
  {
    if keys != [] {
      var k := keys[0];
      assert keys == [k] + keys[1..];
      CreateKeysExactly(if k.path in files || k.path !in contents then files else files[k.path := contents[k.path]],
                        keys[1..], m, contents);
    }
  }

  lemma {:induction false} CompleteKeysStay(files: map<string, string>, keys: seq<KeyFile>, m: Manifest,
                                            contents: map<string, string>)
    requires forall k | k in keys :: k.path in files
    ensures CreateKeys(files, keys, m, contents) == (files, true)
    decreases |keys|
  {
    if keys != [] {
      assert keys[0] in keys && forall k | k in keys[1..] :: k in keys;
      CompleteKeysStay(files, keys[1..], m, contents);
    }
  }

  /** `m'` carries on from `m`: same deployment and broker port, no younger, and an assigned runtime keeps its
      namespace and socket. */
  ghost predicate CarriesOn(m: Manifest, m': Manifest) {
    && m'.profile == m.profile && m'.brokerPort == m.brokerPort
    && m'.version >= m.version && (m.initialized ==> m'.initialized)
    && (m.runtime.Some? && m.runtime.value.Some? ==>
          && m'.runtime.Some? && m'.runtime.value.Some?
          && m'.runtime.value.value.namespace == m.runtime.value.value.namespace
          && m'.runtime.value.value.socket == m.runtime.value.value.socket)
  }

  lemma PrepareKeeps(s: State, keys: seq<KeyFile>, names: seq<string>, a: Args)
    ensures var (t, done) := Prepared(s, keys, names, a);
      && (s.manifest.Some? ==> t.manifest.Some? && CarriesOn(s.manifest.value, t.manifest.value))
      && (s.manifest.Some? && s.manifest.value.browserPorts.Some? ==>
            t.manifest.value.browserPorts == s.manifest.value.browserPorts)
      && (forall path | path in s.files :: path in t.files && t.files[path] == s.files[path])
      && (s.manifest.Some? ==>
            forall path | Required(s.manifest.value, keys, path) && path !in s.files :: path !in t.files)
  {
    var working := Open(s, a);
    if working.Some? {
      CreateKeysExactly(s.files, keys, working.value, a.contents);
    }
  }

  // ---------------------------------------------------------------- runs

  datatype Event = Run(args: Args) | Stop(ports: map<string, nat>) | Lose(path: string)

  function Step(s: State, keys: seq<KeyFile>, names: seq<string>, e: Event): State {
    match e
    case Run(a) => Prepared(s, keys, names, a).0
    case Stop(ports) => SavePorts(s, names, ports)
    case Lose(path) => s.(files := s.files - {path})
  }

  function Steps(s: State, keys: seq<KeyFile>, names: seq<string>, events: seq<Event>): State
    decreases |events|
  {
    if events == [] then s else Steps(Step(s, keys, names, events[0]), keys, names, events[1..])
  }

  lemma StepKeeps(s: State, keys: seq<KeyFile>, names: seq<string>, e: Event)
    requires s.manifest.Some?
    ensures var t := Step(s, keys, names, e);
      && t.manifest.Some? && CarriesOn(s.manifest.value, t.manifest.value)
      && (forall path | path in s.files && e != Lose(path) :: path in t.files && t.files[path] == s.files[path])
      && (forall path | Required(s.manifest.value, keys, path) && path in t.files ::
            path in s.files && t.files[path] == s.files[path])
      && (!e.Stop? && s.manifest.value.browserPorts.Some? ==>
            t.manifest.value.browserPorts == s.manifest.value.browserPorts)
  {
    if e.Run? {
      PrepareKeeps(s, keys, names, e.args);
    }
  }

  /** Once there is a manifest, no sequence of runs, crashes, stops and losses changes the deployment, the broker
      port, or an assigned runtime namespace or socket; nor, stops of older schemas aside, the browser ports. */
  lemma {:induction false} BindingsAreFixed(s: State, keys: seq<KeyFile>, names: seq<string>, events: seq<Event>)
    requires s.manifest.Some?
    ensures var t := Steps(s, keys, names, events);
      && t.manifest.Some? && CarriesOn(s.manifest.value, t.manifest.value)
      && ((forall e | e in events :: !e.Stop?) && s.manifest.value.browserPorts.Some? ==>
            t.manifest.value.browserPorts == s.manifest.value.browserPorts)
    decreases |events|
  {
    if events != [] {
      assert events[0] in events && forall e | e in events[1..] :: e in events;
      StepKeeps(s, keys, names, events[0]);
      BindingsAreFixed(Step(s, keys, names, events[0]), keys, names, events[1..]);
    }
  }

  /** A key file that is not lost keeps its contents for ever. */
  lemma {:induction false} ExistingKeysAreKept(s: State, keys: seq<KeyFile>, names: seq<string>, events: seq<Event>,
                                               path: string)
    requires s.manifest.Some? && path in s.files && Lose(path) !in events
    ensures var t := Steps(s, keys, names, events); path in t.files && t.files[path] == s.files[path]
    decreases |events|
  {
    if events != [] {
      assert events[0] in events && forall e | e in events[1..] :: e in events;
      StepKeeps(s, keys, names, events[0]);
      ExistingKeysAreKept(Step(s, keys, names, events[0]), keys, names, events[1..], path);
    }
  }

  /** A file the manifest demands is never created anew: whatever happens, it is the file that was there, or
      missing. */
  lemma {:induction false} RequiredKeysAreNeverReplaced(s: State, keys: seq<KeyFile>, names: seq<string>,
                                                        events: seq<Event>, path: string)
    requires s.manifest.Some? && Required(s.manifest.value, keys, path)
    ensures var t := Steps(s, keys, names, events);
      path in t.files ==> path in s.files && t.files[path] == s.files[path]
    decreases |events|
  {
    if events != [] {
      StepKeeps(s, keys, names, events[0]);
      RequiredKeysAreNeverReplaced(Step(s, keys, names, events[0]), keys, names, events[1..], path);
    }
  }

  /** A run cannot complete while a demanded file is missing, and a run that completes leaves every file there. */
  lemma CompletedRunsHaveAllKeys(s: State, keys: seq<KeyFile>, names: seq<string>, a: Args, k: KeyFile)
    requires k in keys && Prepared(s, keys, names, a).1
    ensures k.path in Prepared(s, keys, names, a).0.files
    ensures s.manifest.Some? && Required(s.manifest.value, keys, k.path) ==> k.path in s.files
  {
    CreateKeysExactly(s.files, keys, Open(s, a).value, a.contents);
  }

  /** A run that asks for nothing new. */
  predicate Plain(t: State, a: Args) {
    && t.manifest.Some? && a.profile == t.manifest.value.profile
    && a.port.None? && a.image.None? && a.socket.None? && a.policy.None?
    && a.modelReady && a.web == Some(t.manifest.value.webPort) && a.finishes
  }

  lemma PortsAfterwards(s: State, keys: seq<KeyFile>, names: seq<string>, a: Args)
    requires Distinct(names) && Distinct(a.bound) && forall p | p in a.bound :: 1 <= p <= 65535
    requires 1 <= a.availablePort <= 65535 && Prepared(s, keys, names, a).1
    ensures var m := Prepared(s, keys, names, a).0.manifest.value;
      && ValidManifest(m, a.profile) && m.initialized && m.runtime.Some?
      && m.browserPorts.Some? && ValidPorts(m.browserPorts.value, names, Excluded(m, m.webPort))
  {
    var m := Open(s, a).value;
    if m.browserPorts.None? {
      PickAllExactly(names, a.bound, Excluded(m, a.web.value));
    }
  }

  /** The run sets a disk policy and nothing else of the runtime, and the policy is over the limit as stored. */
  predicate SetsLongPolicy(a: Args) {
    && a.image.None? && a.policy.Some? && a.policy.value.stored.Some?
    && |a.policy.value.stored.value| > POLICY_LIMIT
  }

  /** After a completed run a plain run completes and changes nothing, exactly when the first did not set a disk
      policy alone that is over the limit as stored: such a policy is stored without the validation every later run
      makes. */
  lemma PlainRerunExactly(s: State, keys: seq<KeyFile>, names: seq<string>, a: Args, again: Args)
    requires Distinct(names) && Distinct(a.bound) && forall p | p in a.bound :: 1 <= p <= 65535
    requires 1 <= a.availablePort <= 65535 && Prepared(s, keys, names, a).1
    requires Plain(Prepared(s, keys, names, a).0, again)
    ensures var t := Prepared(s, keys, names, a).0;
      && (Prepared(t, keys, names, again).1 <==> !SetsLongPolicy(a))
      && (!SetsLongPolicy(a) ==> Prepared(t, keys, names, again) == (t, true))
  {
    var t := Prepared(s, keys, names, a).0;
    PortsAfterwards(s, keys, names, a);
    CreateKeysExactly(s.files, keys, Open(s, a).value, a.contents);
    CompleteKeysStay(t.files, keys, t.manifest.value, again.contents);
  }

  /** The services as a completed run leaves them, with a runtime. */
  predicate Settled(t: State, keys: seq<KeyFile>, names: seq<string>, profile: string) {
    && t.manifest.Some? && ValidManifest(t.manifest.value, profile)
    && t.manifest.value.runtime.Some? && t.manifest.value.runtime.value.Some?
    && ValidRuntime(t.manifest.value.runtime.value.value)
    && t.manifest.value.browserPorts.Some?
    && ValidPorts(t.manifest.value.browserPorts.value, names, Excluded(t.manifest.value, t.manifest.value.webPort))
    && (forall k | k in keys :: k.path in t.files)
  }

  /** A policy typed within the limit whose stored form is over it: the run that sets it completes, and no plain run
      completes afterwards. */
  lemma LongPolicyLocksOut(t: State, keys: seq<KeyFile>, names: seq<string>, a: Args, again: Args, policy: Policy)
    requires Settled(t, keys, names, a.profile)
    requires a.policy == Some(policy) && Plain(t, a.(policy := None))
    requires |policy.typed| <= POLICY_LIMIT && policy.stored.Some? && |policy.stored.value| > POLICY_LIMIT
    requires Plain(Prepared(t, keys, names, a).0, again)
    ensures Prepared(t, keys, names, a).1
    ensures !Prepared(Prepared(t, keys, names, a).0, keys, names, again).1
  {
    CompleteKeysStay(t.files, keys, t.manifest.value, a.contents);
  }

  // ---------------------------------------------------------------- policies that grow when they are stored

  /** A character of a JSON string that may stand for itself, in what is typed. */
  predicate RawChar(c: char) { c >= ' ' && c != '"' && c != '\\' }

  function UnicodeEscape(n: nat): (s: string)
    requires n < 0x10000
    ensures |s| == 6
  {
    "\\u" + [HexDigit(n / 4096), HexDigit(n / 256 % 16), HexDigit(n / 16 % 16), HexDigit(n % 16)]
  }

  /** How `json.dumps` writes such a character: printable ASCII as it is, others escaped, above the first 65536 as a
      surrogate pair. */
  function DumpChar(c: char): string {
    var n := c as int;
    if c <= '~' then [c]
    else if n < 0x10000 then UnicodeEscape(n)
    else UnicodeEscape(0xD800 + (n - 0x10000) / 1024) + UnicodeEscape(0xDC00 + (n - 0x10000) % 1024)
  }

  function DumpText(s: string): string { if s == "" then "" else DumpChar(s[0]) + DumpText(s[1..]) }

  /** The object with the one member `a`, whose value is `s`: as typed without blanks, and as `json.dumps` writes it. */
  function OneMember(s: string): Policy {
    Policy("{\"a\":\"" + s + "\"}", Some("{\"a\": \"" + DumpText(s) + "\"}"))
  }

  function Escapes(s: string): nat {
    if s == "" then 0
    else (if s[0] <= '~' then 0 else if s[0] as int < 0x10000 then 5 else 11) + Escapes(s[1..])
  }

  lemma {:induction false} DumpedLength(s: string)
    ensures |DumpText(s)| == |s| + Escapes(s)
  {
    if s != "" {
      DumpedLength(s[1..]);
    }
  }

  /** A policy of one text is accepted as typed and then locks out exactly within these bounds: by the blank
      `json.dumps` puts after the colon and by what it escapes. */
  lemma OneMemberGrowsExactly(s: string)
    requires forall c | c in s :: RawChar(c)
    ensures var p := OneMember(s);
      (|p.typed| <= POLICY_LIMIT < |p.stored.value|) <==> |s| <= 4088 < |s| + 1 + Escapes(s)
  {
    DumpedLength(s);
  }

  lemma {:induction false} EscapesOf(c: char, n: nat)
    requires '~' < c && c as int < 0x10000
    ensures Escapes(seq(n, i => c)) == 5 * n
  {
    if n > 0 {
      EscapesOf(c, n - 1);
      assert seq(n, i => c)[1..] == seq(n - 1, i => c);
    }
  }

  /** Such policies exist: a thousand times the letter é makes 1008 characters typed and 6009 stored. */
  lemma LongPolicyExists()
    ensures var p := OneMember(seq(1000, i => '\U{E9}'));
      |p.typed| == 1008 && p.stored.Some? && |p.stored.value| == 6009
  {
    EscapesOf('\U{E9}', 1000);
    DumpedLength(seq(1000, i => '\U{E9}'));
  }
}
