/** The deterministic validators every classify output must pass, against the catalog they must agree with. */
module Validators {
  import opened Catalogs
  import opened Options
  import opened Text

  datatype Json =
    | Null
    | Bool(b: bool)
    | Number(n: real)
    | Str(s: string)
    | List(items: seq<Json>)
    | Object(fields: seq<Field>)
  datatype Field = Field(key: string, value: Json)

  datatype Mode = TagMode | CompileMode | RequestMode

  datatype Proposal = Proposal(category: string, sensitivity: Sensitivity)
  datatype Compiled = Compiled(categories: seq<Proposal>, engine: string)
  datatype Limit = Limit(finite: bool, amount: real, currency: string)
  datatype Intent = Intent(
    operation: string, entity: string, category: string, dataClass: Option<string>, limit: Option<Limit>,
    attributes: seq<string>, sensitivity: Sensitivity, confidence: real, engine: string, unresolved: seq<string>)

  /** An output: its JSON tree, and what it reads as in each mode (None: not of that shape). */
  datatype Document = Document(
    tree: Json, tag: Option<Classification>, compiled: Option<Compiled>, intent: Option<Intent>)

  datatype Error =
    | ForbiddenField(key: string)
    | ShapeInvalid(mode: Mode)
    | ConfidenceOutOfRange
    | BelowFloor(category: string)
    | UnknownEngine(engine: string)
    | UnknownOperation(operation: string)
    | UnknownDataClass(dataClass: string)
    | BadAmount
    | BadCurrency(currency: string)
    | AdversarialConfident
    | AdversarialGrounded
    | AdversarialNotAbstained
    | CategoryContradicts(category: string)
    | EntityMismatch(entity: string)
    | AmountMismatch
    | CurrencyMismatch
    | MccMismatch(attribute: string)

  /** The closed lists the validators know. */
  datatype Tables = Tables(
    forbidden: set<string>, operations: set<string>, dataClasses: set<string>, engines: set<string>)

  const TABLES := Tables(
    {"allow", "deny", "requires_approval", "require_approval", "risk", "verdict", "approved", "authorized", "decision"},
    {"cred.store", "cred.fetch", "memory.put", "memory.get", "payment.direct", "payment.escrow_redeem", "scope.grant",
     "scope.revoke", "email.send", "email.receive", "config.put", "config.get",
     "device.control", "credential.expose", "sandbox.execute"},
    {"credentials", "memory", "config"},
    {"catalog", "catalog-rules", "llm", "seed", "unknown", "overlay"})

  const ADVERSARIAL_MAX_CONFIDENCE := 0.34

  // ---------------------------------------------------------------- the single checks

  /** A report with one more finding if a check failed. */
  function Push(report: seq<Error>, failed: bool, e: Error): (r: seq<Error>)
    ensures r == [] <==> report == [] && !failed
  {
    if failed then report + [e] else report
  }

  function Size(v: Json): nat {
    match v
    case List(items) => |items|
    case Object(fields) => |fields|
    case _ => 0
  }

  function Child(v: Json, i: nat): (child: Json)
    requires i < Size(v)
    ensures child < v
  {
    if v.List? then v.items[i] else v.fields[i].value
  }

  /** The `i`th child stands under a forbidden key. */
  predicate ForbiddenChild(keys: set<string>, v: Json, i: nat)
    requires i < Size(v)
  {
    v.Object? && v.fields[i].key in keys
  }

  /** The scan's findings from the `i`th child on, in depth-first order. */
  function Scan(keys: set<string>, v: Json, i: nat): seq<Error>
    requires i <= Size(v)
    decreases v, Size(v) - i
  {
    if i == Size(v) then []
    else (if ForbiddenChild(keys, v, i) then [ForbiddenField(v.fields[i].key)] else [])
         + Scan(keys, Child(v, i), 0) + Scan(keys, v, i + 1)
  }

  /** The part of an engine name before its first colon. */
  function EngineBase(engine: string): string {
    if engine == "" || engine[0] == ':' then "" else [engine[0]] + EngineBase(engine[1..])
  }

  function CheckConfidence(r: seq<Error>, confidence: real): seq<Error> {
    Push(r, !(0.0 <= confidence <= 1.0), ConfidenceOutOfRange)
  }

  function CheckFloor(r: seq<Error>, c: Content, category: string, claimed: Sensitivity): seq<Error> {
    Push(r, Below(claimed, Floor(c.floors, category)), BelowFloor(category))
  }

  function CheckEngine(r: seq<Error>, t: Tables, engine: string): seq<Error> {
    Push(r, EngineBase(engine) !in t.engines, UnknownEngine(engine))
  }

  function CheckFloors(r: seq<Error>, c: Content, proposals: seq<Proposal>): seq<Error> {
    if proposals == [] then r
    else
      var last := proposals[|proposals| - 1];
      CheckFloor(CheckFloors(r, c, proposals[..|proposals| - 1]), c, last.category, last.sensitivity)
  }

  predicate CurrencyCode(s: string) { |s| == 3 && forall i | 0 <= i < 3 :: 'A' <= s[i] <= 'Z' }

  // ---------------------------------------------------------------- the modes

  function TagReport(r: seq<Error>, t: Tables, c: Content, tag: Classification, adversarial: bool): seq<Error> {
    var r := CheckConfidence(r, tag.confidence);
    var r := CheckFloor(r, c, tag.category, tag.sensitivity);
    var r := CheckEngine(r, t, tag.source);
    if !adversarial then r
    else
      var r := Push(r, tag.confidence > ADVERSARIAL_MAX_CONFIDENCE, AdversarialConfident);
      Push(r, !tag.sensitivity.Sensitive? && tag.category != "unknown", AdversarialNotAbstained)
  }

  function CompileReport(r: seq<Error>, t: Tables, c: Content, compiled: Compiled): seq<Error> {
    CheckFloors(CheckEngine(r, t, compiled.engine), c, compiled.categories)
  }

  function LimitReport(r: seq<Error>, limit: Limit): seq<Error> {
    var r := Push(r, !(limit.finite && limit.amount >= 0.0), BadAmount);
    Push(r, !CurrencyCode(limit.currency), BadCurrency(limit.currency))
  }

  function AbstainReport(r: seq<Error>, intent: Intent): seq<Error> {
    var r := Push(r, intent.confidence > ADVERSARIAL_MAX_CONFIDENCE, AdversarialConfident);
    var r := Push(r, intent.unresolved == [], AdversarialGrounded);
    Push(r, !(intent.sensitivity.Sensitive? || intent.category == "unknown"), AdversarialNotAbstained)
  }

  function IntentReport(r: seq<Error>, t: Tables, c: Content, intent: Intent, adversarial: bool): seq<Error> {
    var r := Push(r, intent.operation !in t.operations, UnknownOperation(intent.operation));
    var r := if intent.dataClass.None? then r
             else Push(r, intent.dataClass.value !in t.dataClasses, UnknownDataClass(intent.dataClass.value));
    var r := CheckFloor(r, c, intent.category, intent.sensitivity);
    var r := CheckConfidence(r, intent.confidence);
    var r := CheckEngine(r, t, intent.engine);
    var r := if intent.limit.None? then r else LimitReport(r, intent.limit.value);
    if adversarial then AbstainReport(r, intent) else r
  }

  function ModeReport(r: seq<Error>, t: Tables, c: Content, mode: Mode, doc: Document, adversarial: bool): seq<Error> {
    match mode
    case TagMode => if doc.tag.None? then r + [ShapeInvalid(mode)] else TagReport(r, t, c, doc.tag.value, adversarial)
    case CompileMode =>
      if doc.compiled.None? then r + [ShapeInvalid(mode)] else CompileReport(r, t, c, doc.compiled.value)
    case RequestMode =>
      if doc.intent.None? then r + [ShapeInvalid(mode)] else IntentReport(r, t, c, doc.intent.value, adversarial)
  }

  /** The report on one output; an empty one admits it. */
  function Validate(t: Tables, c: Content, mode: Mode, doc: Document, adversarial: bool): seq<Error> {
    ModeReport(Scan(t.forbidden, doc.tree, 0), t, c, mode, doc, adversarial)
  }

  // ---------------------------------------------------------------- grounding on runtime facts

  datatype Facts = Facts(
    service: Option<string>, merchant: Option<string>, device: Option<string>, amount: Option<real>,
    currency: Option<string>, mcc: Option<string>)

  function EntityFact(f: Facts): Option<string> {
    if f.service.Some? then Some(Key(f.service.value))
    else if f.merchant.Some? then Some(Key(f.merchant.value))
    else if f.device.Some? then Some(Key(f.device.value))
    else None
  }

  /** An entity the catalog resolves must get the catalog's category. */
  function CatalogTruth(r: seq<Error>, c: Content, fact: Option<string>, claimed: string): seq<Error> {
    if fact.None? then r
    else
      Push(r, Tag(c, fact.value).confidence > 0.0 && claimed != Tag(c, fact.value).category,
           CategoryContradicts(claimed))
  }

  function Distance(a: real, b: real): real { if a >= b then a - b else b - a }

  function MccReport(r: seq<Error>, mcc: string, attributes: seq<string>): seq<Error> {
    if attributes == [] then r
    else
      var last := attributes[|attributes| - 1];
      Push(MccReport(r, mcc, attributes[..|attributes| - 1]), StartsWith(last, "mcc:") && last != "mcc:" + mcc,
           MccMismatch(last))
  }

  function LimitGrounding(r: seq<Error>, f: Facts, limit: Limit): seq<Error> {
    var r := if f.amount.None? then r else Push(r, Distance(limit.amount, f.amount.value) > 0.000001, AmountMismatch);
    if f.currency.None? then r else Push(r, limit.currency != f.currency.value, CurrencyMismatch)
  }

  function IntentGrounding(r: seq<Error>, c: Content, f: Facts, intent: Intent): seq<Error> {
    var fact := EntityFact(f);
    var r := if fact.None? then r else Push(r, Key(intent.entity) != fact.value, EntityMismatch(intent.entity));
    var r := CatalogTruth(r, c, fact, intent.category);
    var r := if intent.limit.None? then r else LimitGrounding(r, f, intent.limit.value);
    if f.mcc.None? then r else MccReport(r, f.mcc.value, intent.attributes)
  }

  function Ground(c: Content, mode: Mode, f: Facts, doc: Document): seq<Error> {
    match mode
    case TagMode => if doc.tag.None? then [] else CatalogTruth([], c, EntityFact(f), doc.tag.value.category)
    case RequestMode => if doc.intent.None? then [] else IntentGrounding([], c, f, doc.intent.value)
    case CompileMode => []
  }

  // ---------------------------------------------------------------- the report the validators fill

  class Report {
    var errors: seq<Error>

    constructor ()
      ensures errors == []
    {
      errors := [];
    }

    method Add(failed: bool, e: Error)
      modifies this
      ensures errors == Push(old(errors), failed, e)
    {
      if failed {
        errors := errors + [e];
      }
    }
  }

  lemma Regroup(a: seq<Error>, b: seq<Error>, c: seq<Error>, d: seq<Error>)
    ensures a + (b + c + d) == a + b + c + d
  {
  }

  method ScanForbiddenKeys(keys: set<string>, v: Json, report: Report)
    modifies report
    ensures report.errors == old(report.errors) + Scan(keys, v, 0)
    decreases v
  {
    for i := 0 to Size(v)
      invariant report.errors + Scan(keys, v, i) == old(report.errors) + Scan(keys, v, 0)
    {
      ghost var before := report.errors;
      ghost var here := if ForbiddenChild(keys, v, i) then [ForbiddenField(v.fields[i].key)] else [];
      if v.Object? && v.fields[i].key in keys {
        report.Add(true, ForbiddenField(v.fields[i].key));
      }
      assert report.errors == before + here;
      ScanForbiddenKeys(keys, Child(v, i), report);
      Regroup(before, here, Scan(keys, Child(v, i), 0), Scan(keys, v, i + 1));
    }
  }

  method ValidateTag(t: Tables, c: Content, tag: Classification, adversarial: bool, report: Report)
    modifies report
    ensures report.errors == TagReport(old(report.errors), t, c, tag, adversarial)
  {
    report.Add(!(0.0 <= tag.confidence <= 1.0), ConfidenceOutOfRange);
    report.Add(Below(tag.sensitivity, Floor(c.floors, tag.category)), BelowFloor(tag.category));
    report.Add(EngineBase(tag.source) !in t.engines, UnknownEngine(tag.source));
    if adversarial {
      report.Add(tag.confidence > ADVERSARIAL_MAX_CONFIDENCE, AdversarialConfident);
      report.Add(tag.sensitivity != Sensitive && tag.category != "unknown", AdversarialNotAbstained);
    }
  }

  method ValidateCompile(t: Tables, c: Content, compiled: Compiled, report: Report)
    modifies report
    ensures report.errors == CompileReport(old(report.errors), t, c, compiled)
  {
    report.Add(EngineBase(compiled.engine) !in t.engines, UnknownEngine(compiled.engine));
    ghost var before := report.errors;
    for i := 0 to |compiled.categories|
      invariant report.errors == CheckFloors(before, c, compiled.categories[..i])
    {
      assert compiled.categories[..i + 1][..i] == compiled.categories[..i];
      var p := compiled.categories[i];
      report.Add(Below(p.sensitivity, Floor(c.floors, p.category)), BelowFloor(p.category));
    }
    assert compiled.categories[..|compiled.categories|] == compiled.categories;
  }

  method ValidateLimit(limit: Limit, report: Report)
    modifies report
    ensures report.errors == LimitReport(old(report.errors), limit)
  {
    report.Add(!(limit.finite && limit.amount >= 0.0), BadAmount);
    report.Add(!CurrencyCode(limit.currency), BadCurrency(limit.currency));
  }

  method ValidateAbstention(intent: Intent, report: Report)
    modifies report
    ensures report.errors == AbstainReport(old(report.errors), intent)
  {
    report.Add(intent.confidence > ADVERSARIAL_MAX_CONFIDENCE, AdversarialConfident);
    report.Add(intent.unresolved == [], AdversarialGrounded);
    report.Add(intent.sensitivity != Sensitive && intent.category != "unknown", AdversarialNotAbstained);
  }

  method ValidateRequest(t: Tables, c: Content, intent: Intent, adversarial: bool, report: Report)
    modifies report
    ensures report.errors == IntentReport(old(report.errors), t, c, intent, adversarial)
  {
    report.Add(intent.operation !in t.operations, UnknownOperation(intent.operation));
    if intent.dataClass.Some? {
      report.Add(intent.dataClass.value !in t.dataClasses, UnknownDataClass(intent.dataClass.value));
    }
    report.Add(Below(intent.sensitivity, Floor(c.floors, intent.category)), BelowFloor(intent.category));
    report.Add(!(0.0 <= intent.confidence <= 1.0), ConfidenceOutOfRange);
    report.Add(EngineBase(intent.engine) !in t.engines, UnknownEngine(intent.engine));
    if intent.limit.Some? {
      ValidateLimit(intent.limit.value, report);
    }
    if adversarial {
      ValidateAbstention(intent, report);
    }
  }

  method ValidateMode(t: Tables, c: Content, mode: Mode, doc: Document, adversarial: bool, report: Report)
    modifies report
    ensures report.errors == ModeReport(old(report.errors), t, c, mode, doc, adversarial)
  {
    match mode
    case TagMode =>
      if doc.tag.None? { report.Add(true, ShapeInvalid(mode)); }
      else { ValidateTag(t, c, doc.tag.value, adversarial, report); }
    case CompileMode =>
      if doc.compiled.None? { report.Add(true, ShapeInvalid(mode)); }
      else { ValidateCompile(t, c, doc.compiled.value, report); }
    case RequestMode =>
      if doc.intent.None? { report.Add(true, ShapeInvalid(mode)); }
      else { ValidateRequest(t, c, doc.intent.value, adversarial, report); }
  }

  method ValidateOutput(t: Tables, c: Content, mode: Mode, doc: Document, adversarial: bool)
    returns (errors: seq<Error>)
    ensures errors == Validate(t, c, mode, doc, adversarial)
  {
    var report := new Report();
    ScanForbiddenKeys(t.forbidden, doc.tree, report);
    assert report.errors == Scan(t.forbidden, doc.tree, 0);
    ValidateMode(t, c, mode, doc, adversarial, report);
    errors := report.errors;
  }

  method GroundIntent(c: Content, f: Facts, intent: Intent, report: Report)
    modifies report
    ensures report.errors == IntentGrounding(old(report.errors), c, f, intent)
  {
    var fact := EntityFact(f);
    if fact.Some? {
      report.Add(Key(intent.entity) != fact.value, EntityMismatch(intent.entity));
    }
    GroundCategory(c, fact, intent.category, report);
    if intent.limit.Some? {
      if f.amount.Some? {
        report.Add(Distance(intent.limit.value.amount, f.amount.value) > 0.000001, AmountMismatch);
      }
      if f.currency.Some? {
        report.Add(intent.limit.value.currency != f.currency.value, CurrencyMismatch);
      }
    }
    if f.mcc.Some? {
      ghost var before := report.errors;
      for i := 0 to |intent.attributes|
        invariant report.errors == MccReport(before, f.mcc.value, intent.attributes[..i])
      {
        assert intent.attributes[..i + 1][..i] == intent.attributes[..i];
        var attribute := intent.attributes[i];
        report.Add(StartsWith(attribute, "mcc:") && attribute != "mcc:" + f.mcc.value, MccMismatch(attribute));
      }
      assert intent.attributes[..|intent.attributes|] == intent.attributes;
    }
  }

  method GroundCategory(c: Content, fact: Option<string>, claimed: string, report: Report)
    modifies report
    ensures report.errors == CatalogTruth(old(report.errors), c, fact, claimed)
  {
    if fact.Some? {
      var tagged := Tag(c, fact.value);
      report.Add(tagged.confidence > 0.0 && claimed != tagged.category, CategoryContradicts(claimed));
    }
  }

  method ValidateGrounding(c: Content, mode: Mode, f: Facts, doc: Document) returns (errors: seq<Error>)
    ensures errors == Ground(c, mode, f, doc)
  {
    var report := new Report();
    match mode {
      case TagMode => if doc.tag.Some? { GroundCategory(c, EntityFact(f), doc.tag.value.category, report); }
      case RequestMode => if doc.intent.Some? { GroundIntent(c, f, doc.intent.value, report); }
      case CompileMode =>
    }
    errors := report.errors;
  }

  // ---------------------------------------------------------------- forbidden keys, once per occurrence

  /** A way down the tree: the child to take at each level. */
  type Path = seq<nat>

  /** The path ends at an object field with a forbidden key. */
  ghost predicate Occurs(keys: set<string>, v: Json, path: Path)
    decreases |path|
  {
    && path != [] && path[0] < Size(v)
    && if |path| == 1 then ForbiddenChild(keys, v, path[0]) else Occurs(keys, Child(v, path[0]), path[1..])
  }

  ghost function KeyAt(keys: set<string>, v: Json, path: Path): string
    requires Occurs(keys, v, path)
    decreases |path|
  {
    if |path| == 1 then v.fields[path[0]].key else KeyAt(keys, Child(v, path[0]), path[1..])
  }

  ghost function Descend(i: nat, paths: seq<Path>): (r: seq<Path>)
    ensures |r| == |paths| && forall k | 0 <= k < |r| :: r[k] == [i] + paths[k]
  {
    seq(|paths|, k requires 0 <= k < |paths| => [i] + paths[k])
  }

  /** Where the scan's findings stand, in the order of the findings. */
  ghost function Paths(keys: set<string>, v: Json, i: nat): seq<Path>
    requires i <= Size(v)
    decreases v, Size(v) - i
  {
    if i == Size(v) then []
    else (if ForbiddenChild(keys, v, i) then [[i]] else [])
         + Descend(i, Paths(keys, Child(v, i), 0)) + Paths(keys, v, i + 1)
  }

  ghost predicate Distinct(paths: seq<Path>) { forall j, k | 0 <= j < k < |paths| :: paths[j] != paths[k] }

  /** `errors` names the key at each of `paths`, all of them occurrences from child `i` on. */
  ghost predicate Names(keys: set<string>, v: Json, i: nat, paths: seq<Path>, errors: seq<Error>) {
    && |paths| == |errors|
    && forall k | 0 <= k < |paths| ::
         Occurs(keys, v, paths[k]) && paths[k][0] >= i && errors[k] == ForbiddenField(KeyAt(keys, v, paths[k]))
  }

  lemma NamesAppend(keys: set<string>, v: Json, i: nat, p: seq<Path>, e: seq<Error>, q: seq<Path>, f: seq<Error>)
    requires Names(keys, v, i, p, e) && Names(keys, v, i, q, f)
    ensures Names(keys, v, i, p + q, e + f)
  {
  }

  lemma NamesBelow(keys: set<string>, v: Json, i: nat, paths: seq<Path>, errors: seq<Error>)
    requires i < Size(v) && Names(keys, Child(v, i), 0, paths, errors)
    ensures Names(keys, v, i, Descend(i, paths), errors)
  {
    forall k | 0 <= k < |paths|
      ensures Occurs(keys, v, Descend(i, paths)[k])
           && errors[k] == ForbiddenField(KeyAt(keys, v, Descend(i, paths)[k]))
    {
      assert Descend(i, paths)[k][1..] == paths[k];
    }
  }

  lemma {:induction false} ScanNames(keys: set<string>, v: Json, i: nat)
    requires i <= Size(v)
    ensures Names(keys, v, i, Paths(keys, v, i), Scan(keys, v, i))
    decreases v, Size(v) - i
  {
    if i < Size(v) {
      var inner, errors := Paths(keys, Child(v, i), 0), Scan(keys, Child(v, i), 0);
      ScanNames(keys, Child(v, i), 0);
      ScanNames(keys, v, i + 1);
      NamesBelow(keys, v, i, inner, errors);
      var here: seq<Path> := if ForbiddenChild(keys, v, i) then [[i]] else [];
      var error := if ForbiddenChild(keys, v, i) then [ForbiddenField(v.fields[i].key)] else [];
      NamesAppend(keys, v, i, here, error, Descend(i, inner), errors);
      NamesAppend(keys, v, i, here + Descend(i, inner), error + errors, Paths(keys, v, i + 1), Scan(keys, v, i + 1));
    }
  }

  lemma DescendDistinct(i: nat, paths: seq<Path>)
    requires Distinct(paths)
    ensures Distinct(Descend(i, paths))
  {
    forall j, k | 0 <= j < k < |paths| ensures Descend(i, paths)[j] != Descend(i, paths)[k] {
      assert Descend(i, paths)[j][1..] == paths[j] && Descend(i, paths)[k][1..] == paths[k];
    }
  }

  lemma AppendDistinct(p: seq<Path>, q: seq<Path>)
    requires Distinct(p) && Distinct(q) && forall x, y | x in p && y in q :: x != y
    ensures Distinct(p + q)
  {
    forall j, k | 0 <= j < k < |p + q| ensures (p + q)[j] != (p + q)[k] {
      if j < |p| <= k {
        assert (p + q)[j] in p && (p + q)[k] in q;
      }
    }
  }

  lemma DescendStarts(keys: set<string>, v: Json, i: nat, paths: seq<Path>, errors: seq<Error>)
    requires Names(keys, v, 0, paths, errors)
    ensures forall x | x in Descend(i, paths) :: |x| > 1 && x[0] == i
  {
    forall x | x in Descend(i, paths) ensures |x| > 1 && x[0] == i {
      var k :| 0 <= k < |paths| && Descend(i, paths)[k] == x;
      assert Occurs(keys, v, paths[k]);
    }
  }

  /** The paths from one child on: the child itself, those below it, and those of later children. */
  lemma JoinDistinct(i: nat, here: seq<Path>, below: seq<Path>, later: seq<Path>)
    requires here == [] || here == [[i]]
    requires Distinct(below) && forall x | x in below :: |x| > 1 && x[0] == i
    requires Distinct(later) && forall y | y in later :: |y| > 0 && y[0] > i
    ensures Distinct(here + below + later)
  {
    AppendDistinct(here, below);
    AppendDistinct(here + below, later);
  }

  lemma NamedPathsStart(keys: set<string>, v: Json, i: nat, paths: seq<Path>, errors: seq<Error>)
    requires Names(keys, v, i, paths, errors)
    ensures forall y | y in paths :: |y| > 0 && y[0] >= i
  {
    forall y | y in paths ensures |y| > 0 && y[0] >= i {
      var k :| 0 <= k < |paths| && paths[k] == y;
      assert Occurs(keys, v, paths[k]);
    }
  }

  lemma {:induction false} PathsDistinct(keys: set<string>, v: Json, i: nat)
    requires i <= Size(v)
    ensures Distinct(Paths(keys, v, i))
    decreases v, Size(v) - i
  {
    if i < Size(v) {
      var inner, later := Paths(keys, Child(v, i), 0), Paths(keys, v, i + 1);
      PathsDistinct(keys, Child(v, i), 0);
      PathsDistinct(keys, v, i + 1);
      ScanNames(keys, Child(v, i), 0);
      ScanNames(keys, v, i + 1);
      DescendDistinct(i, inner);
      DescendStarts(keys, Child(v, i), i, inner, Scan(keys, Child(v, i), 0));
      NamedPathsStart(keys, v, i + 1, later, Scan(keys, v, i + 1));
      JoinDistinct(i, if ForbiddenChild(keys, v, i) then [[i]] else [], Descend(i, inner), later);
    }
  }

  lemma {:induction false} ScanMissesNothing(keys: set<string>, v: Json, i: nat, path: Path)
    requires i <= Size(v) && Occurs(keys, v, path) && path[0] >= i
    ensures path in Paths(keys, v, i)
    decreases v, Size(v) - i
  {
    if path[0] > i {
      ScanMissesNothing(keys, v, i + 1, path);
    } else if |path| > 1 {
      var inner := Paths(keys, Child(v, i), 0);
      ScanMissesNothing(keys, Child(v, i), 0, path[1..]);
      var k :| 0 <= k < |inner| && inner[k] == path[1..];
      assert Descend(i, inner)[k] == [i] + path[1..] == path;
    } else {
      assert path == [i];
    }
  }

  /** At any depth, each forbidden key is reported exactly once per occurrence: the findings correspond one to one
      to the places in the tree where a forbidden key stands, each naming the key there. */
  lemma ForbiddenKeysExactly(keys: set<string>, v: Json)
    ensures Names(keys, v, 0, Paths(keys, v, 0), Scan(keys, v, 0))
    ensures Distinct(Paths(keys, v, 0))
    ensures forall path :: path in Paths(keys, v, 0) <==> Occurs(keys, v, path)
  {
    ScanNames(keys, v, 0);
    PathsDistinct(keys, v, 0);
    forall path | Occurs(keys, v, path) ensures path in Paths(keys, v, 0) {
      ScanMissesNothing(keys, v, 0, path);
    }
  }

  // ---------------------------------------------------------------- agreement with the catalog

  /** Every claimed tier is at or above its category's floor. */
  predicate ClaimsHold(c: Content, mode: Mode, doc: Document) {
    match mode
    case TagMode => doc.tag.Some? ==> !Below(doc.tag.value.sensitivity, Floor(c.floors, doc.tag.value.category))
    case CompileMode => doc.compiled.Some? ==>
      forall i | 0 <= i < |doc.compiled.value.categories| ::
        !Below(doc.compiled.value.categories[i].sensitivity, Floor(c.floors, doc.compiled.value.categories[i].category))
    case RequestMode =>
      doc.intent.Some? ==> !Below(doc.intent.value.sensitivity, Floor(c.floors, doc.intent.value.category))
  }

  lemma {:induction false} CheckFloorsExactly(r: seq<Error>, c: Content, proposals: seq<Proposal>)
    ensures CheckFloors(r, c, proposals) == [] <==>
      r == [] &&
      forall i | 0 <= i < |proposals| :: !Below(proposals[i].sensitivity, Floor(c.floors, proposals[i].category))
  {
    if proposals != [] {
      CheckFloorsExactly(r, c, proposals[..|proposals| - 1]);
    }
  }

  /** `after` has floors no lower than `c`. */
  ghost predicate Tightens(c: Content, after: Content) {
    forall category :: !Below(Floor(after.floors, category), Floor(c.floors, category))
  }

  lemma TighterTag(r: seq<Error>, t: Tables, c: Content, after: Content, tag: Classification, adversarial: bool)
    requires Tightens(c, after)
    ensures TagReport(r, t, after, tag, adversarial) == []
       <==> TagReport(r, t, c, tag, adversarial) == [] && !Below(tag.sensitivity, Floor(after.floors, tag.category))
  {
    assert !Below(Floor(after.floors, tag.category), Floor(c.floors, tag.category));
  }

  lemma TighterCompile(r: seq<Error>, t: Tables, c: Content, after: Content, compiled: Compiled)
    requires Tightens(c, after)
    ensures CompileReport(r, t, after, compiled) == []
       <==> CompileReport(r, t, c, compiled) == []
            && forall i | 0 <= i < |compiled.categories| ::
                 !Below(compiled.categories[i].sensitivity, Floor(after.floors, compiled.categories[i].category))
  {
    CheckFloorsExactly(CheckEngine(r, t, compiled.engine), c, compiled.categories);
    CheckFloorsExactly(CheckEngine(r, t, compiled.engine), after, compiled.categories);
  }

  lemma TighterIntent(r: seq<Error>, t: Tables, c: Content, after: Content, intent: Intent, adversarial: bool)
    requires Tightens(c, after)
    ensures IntentReport(r, t, after, intent, adversarial) == []
       <==> IntentReport(r, t, c, intent, adversarial) == []
            && !Below(intent.sensitivity, Floor(after.floors, intent.category))
  {
    assert !Below(Floor(after.floors, intent.category), Floor(c.floors, intent.category));
  }

  /** Overlays tighten acceptance by exactly the floors they raise: an output passes under the overlaid catalog
      if and only if it passes under the base and its claims meet the overlaid floors. */
  lemma OverlaidAcceptanceExactly(t: Tables, c: Content, overlays: seq<Overlay>, mode: Mode, doc: Document,
                                  adversarial: bool)
    requires c.version <= MAX_VERSION
    ensures Validate(t, ApplyAll(c, overlays), mode, doc, adversarial) == []
       <==> Validate(t, c, mode, doc, adversarial) == [] && ClaimsHold(ApplyAll(c, overlays), mode, doc)
  {
    forall category ensures !Below(Floor(ApplyAll(c, overlays).floors, category), Floor(c.floors, category)) {
      FloorIsTheMaximum(c, overlays, category);
    }
    var after, r := ApplyAll(c, overlays), Scan(t.forbidden, doc.tree, 0);
    match mode
    case TagMode => if doc.tag.Some? { TighterTag(r, t, c, after, doc.tag.value, adversarial); }
    case CompileMode => if doc.compiled.Some? { TighterCompile(r, t, c, after, doc.compiled.value); }
    case RequestMode => if doc.intent.Some? { TighterIntent(r, t, c, after, doc.intent.value, adversarial); }
  }

  /** The adversarial bar only adds findings: the ordinary report is a prefix of the adversarial one. */
  lemma AdversarialIsStricter(t: Tables, c: Content, mode: Mode, doc: Document)
    ensures Validate(t, c, mode, doc, false) <= Validate(t, c, mode, doc, true)
    ensures Validate(t, c, mode, doc, true) == [] ==> Validate(t, c, mode, doc, false) == []
  {
  }

  /** A classification as it is serialized. */
  function Serialized(t: Classification): Document {
    Document(
      Object([Field("category", Str(t.category)),
              Field("sensitivity", Str(if t.sensitivity.Safe? then "safe" else "sensitive")),
              Field("confidence", Number(t.confidence)), Field("source", Str(t.source))]),
      Some(t), None, None)
  }

  lemma {:induction false} FlatScan(keys: set<string>, v: Json, i: nat)
    requires v.Object? && i <= |v.fields|
    requires forall k | 0 <= k < |v.fields| :: v.fields[k].key !in keys && Size(v.fields[k].value) == 0
    ensures Scan(keys, v, i) == []
    decreases |v.fields| - i
  {
    if i < |v.fields| {
      FlatScan(keys, v, i + 1);
    }
  }

  lemma StartsStep(s: string, prefix: string)
    requires s != "" && prefix != ""
    ensures StartsWith(s, prefix) <==> s[0] == prefix[0] && StartsWith(s[1..], prefix[1..])
  {
    if |prefix| <= |s| {
      assert s[1..][..|prefix| - 1] == s[..|prefix|][1..];
      assert s[..|prefix|] == [s[0]] + s[..|prefix|][1..] && prefix == [prefix[0]] + prefix[1..];
    }
  }

  /** An engine name's base is `name` exactly when the name itself, or the name and a colon, begins it. */
  lemma {:induction false} BaseExactly(engine: string, name: string)
    requires ':' !in name
    ensures EngineBase(engine) == name <==> engine == name || StartsWith(engine, name + ":")
  {
    if engine != "" && engine[0] != ':' && name != "" {
      BaseExactly(engine[1..], name[1..]);
      assert name == [name[0]] + name[1..] && engine == [engine[0]] + engine[1..];
      assert (name + ":")[1..] == name[1..] + ":";
      StartsStep(engine, name + ":");
    } else if name != "" && |engine| > 0 {
      assert (name + ":")[0] == name[0];
    }
  }

  lemma CatalogSources(source: string)
    requires source == "catalog" || source == "unknown" || StartsWith(source, "overlay:")
    ensures EngineBase(source) in {"catalog", "unknown", "overlay"}
  {
    if source == "catalog" {
      BaseExactly(source, "catalog");
    } else if source == "unknown" {
      BaseExactly(source, "unknown");
    } else {
      assert "overlay" + ":" == "overlay:";
      BaseExactly(source, "overlay");
    }
  }

  lemma OwnTablesFit()
    ensures {"catalog", "unknown", "overlay"} <= TABLES.engines
    ensures {"category", "sensitivity", "confidence", "source"} !! TABLES.forbidden
  {
  }

  lemma TagValidates(t: Tables, c: Content, entity: string)
    requires {"catalog", "unknown", "overlay"} <= t.engines
    requires {"category", "sensitivity", "confidence", "source"} !! t.forbidden
    requires WellFormed(c)
    ensures var doc := Serialized(Tag(c, entity));
      && Validate(t, c, TagMode, doc, false) == []
      && (Validate(t, c, TagMode, doc, true) == [] <==> Key(entity) !in c.entities)
  {
    var tag := Tag(c, entity);
    FlatScan(t.forbidden, Serialized(tag).tree, 0);
    CatalogSources(tag.source);
  }

  lemma TagIsGrounded(c: Content, entity: string, facts: Facts)
    requires EntityFact(facts) == Some(Key(entity))
    ensures Ground(c, TagMode, facts, Serialized(Tag(c, entity))) == []
  {
    KeyOfKey(entity);
  }

  /** The catalog's own tags pass: after any overlays, the tag of any entity validates, is grounded on every fact
      that names the entity, and passes the adversarial bar exactly when the catalog does not know the entity. */
  lemma CatalogTagsPass(overlays: seq<Overlay>, entity: string, facts: Facts)
    requires EntityFact(facts) == Some(Key(entity))
    ensures
      var c := ApplyAll(Bundled(), overlays);
      var doc := Serialized(Tag(c, entity));
      && Validate(TABLES, c, TagMode, doc, false) == []
      && Ground(c, TagMode, facts, doc) == []
      && (Validate(TABLES, c, TagMode, doc, true) == [] <==> Key(entity) !in c.entities)
  {
    BundledIsWellFormed();
    OverlaysKeepForm(Bundled(), overlays);
    OwnTablesFit();
    TagValidates(TABLES, ApplyAll(Bundled(), overlays), entity);
    TagIsGrounded(ApplyAll(Bundled(), overlays), entity, facts);
  }
}
