/** The classification catalog: entities, category floors, and vendor overlays that may only raise a floor. */
module Catalogs {
  import opened Text
  import opened Options

  datatype Sensitivity = Safe | Sensitive

  function Max(a: Sensitivity, b: Sensitivity): Sensitivity {
    if a.Sensitive? || b.Sensitive? then Sensitive else Safe
  }

  predicate Below(a: Sensitivity, b: Sensitivity) { a.Safe? && b.Sensitive? }

  datatype Entry = Entry(category: string, source: string)
  datatype Classification = Classification(category: string, sensitivity: Sensitivity, confidence: real, source: string)
  type Floors = map<string, Sensitivity>
  datatype Content = Content(version: nat, entities: map<string, Entry>, floors: Floors)

  /** Proposals and entries in the order the overlay's maps are walked. */
  datatype Overlay = Overlay(vendor: string, proposals: seq<(string, Sensitivity)>, entries: seq<(string, string)>)

  const MAX_VERSION: nat := 0xFFFF_FFFF

  // ---------------------------------------------------------------- lookups

  function Floor(floors: Floors, category: string): Sensitivity {
    if category in floors then floors[category] else Sensitive
  }

  function Tag(c: Content, entity: string): Classification {
    var key := Key(entity);
    if key in c.entities then
      var e := c.entities[key];
      Classification(e.category, Floor(c.floors, e.category), if e.source == "catalog" then 0.95 else 0.85, e.source)
    else Classification("unknown", Sensitive, 0.0, "unknown")
  }

  function ClassifyNamespace(c: Content, namespace: string): Classification {
    var key := Key(namespace);
    Classification(key, Floor(c.floors, key), if key in c.floors then 0.9 else 0.5, "catalog")
  }

  // ---------------------------------------------------------------- overlays

  function Raise(floors: Floors, proposals: seq<(string, Sensitivity)>): Floors
    decreases |proposals|
  {
    if proposals == [] then floors
    else
      var (category, proposed) := proposals[0];
      Raise(floors[category := Max(Floor(floors, category), proposed)], proposals[1..])
  }

  function Vouch(floors: Floors, entries: seq<(string, string)>): Floors
    decreases |entries|
  {
    if entries == [] then floors
    else Vouch(if entries[0].1 in floors then floors else floors[entries[0].1 := Sensitive], entries[1..])
  }

  function Enter(entities: map<string, Entry>, entries: seq<(string, string)>, source: string): map<string, Entry>
    decreases |entries|
  {
    if entries == [] then entities
    else Enter(entities[Key(entries[0].0) := Entry(entries[0].1, source)], entries[1..], source)
  }

  function Apply(c: Content, o: Overlay): Content {
    Content(
      if c.version < MAX_VERSION then c.version + 1 else c.version,
      Enter(c.entities, o.entries, "overlay:" + o.vendor),
      Vouch(Raise(c.floors, o.proposals), o.entries))
  }

  function ApplyAll(c: Content, overlays: seq<Overlay>): Content
    decreases |overlays|
  {
    if overlays == [] then c else ApplyAll(Apply(c, overlays[0]), overlays[1..])
  }

  /** The catalog as the program keeps it, changed in place. */
  class Catalog {
    var version: nat
    var entities: map<string, Entry>
    var floors: Floors

    ghost function View(): Content
      reads this
    {
      Content(version, entities, floors)
    }

    constructor ()
      ensures View() == Bundled()
    {
      version, entities, floors := 1, BundledEntities(), BundledFloors();
    }

    method ApplyOverlay(o: Overlay)
      modifies this
      ensures View() == Apply(old(View()), o)
    {
      var source := "overlay:" + o.vendor;
      for i := 0 to |o.proposals|
        invariant version == old(version) && entities == old(entities)
        invariant Raise(floors, o.proposals[i..]) == Raise(old(floors), o.proposals)
      {
        assert o.proposals[i..][1..] == o.proposals[i + 1..];
        var (category, proposed) := o.proposals[i];
        floors := floors[category := Max(Floor(floors, category), proposed)];
      }
      ghost var raised := floors;
      for i := 0 to |o.entries|
        invariant version == old(version)
        invariant Vouch(floors, o.entries[i..]) == Vouch(raised, o.entries)
        invariant Enter(entities, o.entries[i..], source) == Enter(old(entities), o.entries, source)
      {
        assert o.entries[i..][1..] == o.entries[i + 1..];
        var (entity, category) := o.entries[i];
        if category !in floors {
          floors := floors[category := Sensitive];
        }
        entities := entities[Key(entity) := Entry(category, source)];
      }
      if version < MAX_VERSION {
        version := version + 1;
      }
    }
  }

  // ---------------------------------------------------------------- the bundled catalog

  function AtTier(categories: set<string>, tier: Sensitivity): Floors { map c | c in categories :: tier }

  function BundledFloors(): Floors {
    AtTier({"ai-services", "productivity", "communication", "developer", "media", "social", "shopping", "travel",
            "news"},
           Safe)
    + AtTier({"payments", "exchange", "financial", "banking", "access-control", "health", "cloud-infra", "identity",
              "credentials"}, Sensitive)
  }

  ghost predicate SourcesKnown(entities: map<string, Entry>) {
    forall key | key in entities :: entities[key].source == "catalog" || StartsWith(entities[key].source, "overlay:")
  }

  /** `m` with the `names` added under a category. */
  function With(m: map<string, Entry>, names: set<string>, category: string): (r: map<string, Entry>)
    requires SourcesKnown(m)
    ensures SourcesKnown(r)
  {
    m + map n | n in names :: Entry(category, "catalog")
  }

  function BundledSafe(): (m: map<string, Entry>)
    ensures SourcesKnown(m)
  {
    var m := With(map[], {"openrouter", "openai", "anthropic", "groq", "together", "huggingface"}, "ai-services");
    var m := With(m, {"github", "gitlab", "vercel", "netlify", "npm"}, "developer");
    var m := With(m, {"notion", "linear", "asana", "trello", "airtable"}, "productivity");
    var m := With(m, {"slack", "discord", "twilio", "sendgrid"}, "communication");
    var m := With(m, {"spotify", "youtube", "netflix"}, "media");
    With(m, {"amazon", "shopify"}, "shopping")
  }

  function BundledEntities(): (m: map<string, Entry>)
    ensures SourcesKnown(m)
  {
    var m := With(BundledSafe(), {"stripe", "paypal", "square"}, "payments");
    var m := With(m, {"plaid", "wise"}, "financial");
    var m := With(m, {"binance", "coinbase", "kraken"}, "exchange");
    var m := With(m, {"chase"}, "banking");
    var m := With(m, {"aws", "gcp", "azure", "cloudflare"}, "cloud-infra");
    var m := With(m, {"auth0", "okta"}, "identity");
    var m := With(m, {"august-lock", "yale-lock", "ring"}, "access-control");
    With(m, {"epic", "fitbit"}, "health")
  }

  function Bundled(): Content { Content(1, BundledEntities(), BundledFloors()) }

  // ---------------------------------------------------------------- floors

  predicate Proposed(overlays: seq<Overlay>, category: string) {
    exists i | 0 <= i < |overlays| :: (category, Sensitive) in overlays[i].proposals
  }

  lemma {:induction false} RaiseExactly(floors: Floors, proposals: seq<(string, Sensitivity)>, category: string)
    ensures Floor(Raise(floors, proposals), category).Sensitive?
       <==> Floor(floors, category).Sensitive? || (category, Sensitive) in proposals
    decreases |proposals|
  {
    if proposals != [] {
      var (c, p) := proposals[0];
      RaiseExactly(floors[c := Max(Floor(floors, c), p)], proposals[1..], category);
      assert proposals == [proposals[0]] + proposals[1..];
    }
  }

  lemma {:induction false} VouchKeepsFloors(floors: Floors, entries: seq<(string, string)>, category: string)
    ensures Floor(Vouch(floors, entries), category) == Floor(floors, category)
    decreases |entries|
  {
    if entries != [] {
      VouchKeepsFloors(if entries[0].1 in floors then floors else floors[entries[0].1 := Sensitive], entries[1..],
                       category);
    }
  }

  lemma ApplyExactly(c: Content, o: Overlay, category: string)
    ensures Floor(Apply(c, o).floors, category).Sensitive?
       <==> Floor(c.floors, category).Sensitive? || (category, Sensitive) in o.proposals
  {
    RaiseExactly(c.floors, o.proposals, category);
    VouchKeepsFloors(Raise(c.floors, o.proposals), o.entries, category);
  }

  /** After any overlays a category's floor is the maximum of where it started and everything proposed for it;
      the version counts the overlays and sticks at its maximum. */
  lemma {:induction false} FloorIsTheMaximum(c: Content, overlays: seq<Overlay>, category: string)
    requires c.version <= MAX_VERSION
    ensures Floor(ApplyAll(c, overlays).floors, category)
         == Max(Floor(c.floors, category), if Proposed(overlays, category) then Sensitive else Safe)
    ensures ApplyAll(c, overlays).version
         == if c.version + |overlays| <= MAX_VERSION then c.version + |overlays| else MAX_VERSION
    decreases |overlays|
  {
    if overlays != [] {
      ApplyExactly(c, overlays[0], category);
      FloorIsTheMaximum(Apply(c, overlays[0]), overlays[1..], category);
      assert forall i | 0 <= i < |overlays| - 1 :: overlays[1..][i] == overlays[i + 1];
      assert Proposed(overlays, category)
        <==> (category, Sensitive) in overlays[0].proposals || Proposed(overlays[1..], category);
    }
  }

  /** Floors never drop, and do not depend on the order of the overlays, only on which there are. */
  lemma FloorsIgnoreOrder(c: Content, a: seq<Overlay>, b: seq<Overlay>, category: string)
    requires c.version <= MAX_VERSION && forall o :: o in a <==> o in b
    ensures Floor(ApplyAll(c, a).floors, category) == Floor(ApplyAll(c, b).floors, category)
    ensures !Below(Floor(ApplyAll(c, a).floors, category), Floor(c.floors, category))
  {
    FloorIsTheMaximum(c, a, category);
    FloorIsTheMaximum(c, b, category);
    forall i | 0 <= i < |a| ensures a[i] in b { assert a[i] in a; }
    forall i | 0 <= i < |b| ensures b[i] in a { assert b[i] in b; }
  }

  // ---------------------------------------------------------------- tags

  /** Every entry is bundled or came with an overlay; `unknown` is not vouched to be safe. */
  ghost predicate WellFormed(c: Content) {
    && SourcesKnown(c.entities)
    && Floor(c.floors, "unknown").Sensitive?
  }

  lemma BundledIsWellFormed()
    ensures WellFormed(Bundled())
  {
    assert "unknown" !in BundledFloors();
  }

  lemma {:induction false} EnterKeepsSources(entities: map<string, Entry>, entries: seq<(string, string)>,
                                             source: string)
    requires StartsWith(source, "overlay:")
    requires SourcesKnown(entities)
    ensures SourcesKnown(Enter(entities, entries, source))
    decreases |entries|
  {
    if entries != [] {
      EnterKeepsSources(entities[Key(entries[0].0) := Entry(entries[0].1, source)], entries[1..], source);
    }
  }

  lemma {:induction false} OverlaysKeepForm(c: Content, overlays: seq<Overlay>)
    requires WellFormed(c)
    ensures WellFormed(ApplyAll(c, overlays))
    decreases |overlays|
  {
    if overlays != [] {
      var o := overlays[0];
      EnterKeepsSources(c.entities, o.entries, "overlay:" + o.vendor);
      ApplyExactly(c, o, "unknown");
      OverlaysKeepForm(Apply(c, o), overlays[1..]);
    }
  }

  /** Whatever overlays were applied to the bundled catalog, a tag always carries its category's floor, for
      entities the catalog does not know as well. */
  lemma TagCarriesTheFloor(overlays: seq<Overlay>, entity: string)
    ensures var c := ApplyAll(Bundled(), overlays);
      Tag(c, entity).sensitivity == Floor(c.floors, Tag(c, entity).category)
  {
    BundledIsWellFormed();
    OverlaysKeepForm(Bundled(), overlays);
  }

  /** A namespace is its own category, so no overlay lowers its tier. */
  lemma NamespaceNeverDrops(c: Content, overlays: seq<Overlay>, namespace: string)
    requires c.version <= MAX_VERSION
    ensures !Below(ClassifyNamespace(ApplyAll(c, overlays), namespace).sensitivity,
                   ClassifyNamespace(c, namespace).sensitivity)
  {
    FloorIsTheMaximum(c, overlays, Key(namespace));
  }

  /** The category the overlay's last entry for a key names, if it has one. */
  function Remapped(entries: seq<(string, string)>, key: string): Option<string> {
    if entries == [] then None
    else if Key(entries[|entries| - 1].0) == key then Some(entries[|entries| - 1].1)
    else Remapped(entries[..|entries| - 1], key)
  }

  lemma {:induction false} EnterExactly(entities: map<string, Entry>, entries: seq<(string, string)>, source: string,
                                        key: string)
    ensures var after := Enter(entities, entries, source);
      && (Remapped(entries, key).Some? ==> key in after && after[key] == Entry(Remapped(entries, key).value, source))
      && (Remapped(entries, key).None? && key in entities ==> key in after && after[key] == entities[key])
      && (Remapped(entries, key).None? && key !in entities ==> key !in after)
    decreases |entries|
  {
    if entries != [] {
      var next := entities[Key(entries[0].0) := Entry(entries[0].1, source)];
      EnterExactly(next, entries[1..], source, key);
      RemappedFromFront(entries, key);
    }
  }

  lemma {:induction false} RemappedFromFront(entries: seq<(string, string)>, key: string)
    requires entries != []
    ensures Remapped(entries, key)
         == if Remapped(entries[1..], key).Some? then Remapped(entries[1..], key)
            else if Key(entries[0].0) == key then Some(entries[0].1) else None
  {
    if |entries| > 1 {
      assert entries[..|entries| - 1][1..] == entries[1..][..|entries| - 2];
      RemappedFromFront(entries[..|entries| - 1], key);
    }
  }

  /** An entity, unlike a category, can drop: exactly when it was sensitive and the overlay's last entry for it
      names a category that is safe and stays so under the overlay's own proposals. */
  lemma EntityDropsExactly(c: Content, o: Overlay, entity: string)
    ensures Below(Tag(Apply(c, o), entity).sensitivity, Tag(c, entity).sensitivity) <==>
      && Tag(c, entity).sensitivity.Sensitive?
      && Remapped(o.entries, Key(entity)).Some?
      && var category := Remapped(o.entries, Key(entity)).value;
         Floor(c.floors, category).Safe? && (category, Sensitive) !in o.proposals
  {
    EnterExactly(c.entities, o.entries, "overlay:" + o.vendor, Key(entity));
    ApplyExactly(c, o, Tag(Apply(c, o), entity).category);
    if Remapped(o.entries, Key(entity)).Some? {
      ApplyExactly(c, o, Remapped(o.entries, Key(entity)).value);
    }
  }

  lemma MediaIsSafe()
    ensures Floor(BundledFloors(), "media") == Safe
  {
  }

  lemma PaymentsAreSensitive()
    ensures Floor(BundledFloors(), "payments") == Sensitive
  {
  }

  /** `m` files the entity under the category. */
  ghost predicate Files(m: map<string, Entry>, key: string, category: string) {
    SourcesKnown(m) && key in m && m[key].category == category
  }

  lemma MoneyKeepsStripe(m: map<string, Entry>, r: map<string, Entry>)
    requires Files(m, "stripe", "payments")
    requires r == With(With(With(m, {"plaid", "wise"}, "financial"), {"binance", "coinbase", "kraken"}, "exchange"),
                       {"chase"}, "banking")
    ensures Files(r, "stripe", "payments")
  {
    assert "stripe" !in {"plaid", "wise"} && "stripe" !in {"binance", "coinbase", "kraken"} && "stripe" !in {"chase"};
  }

  lemma CloudKeepsStripe(m: map<string, Entry>, r: map<string, Entry>)
    requires Files(m, "stripe", "payments")
    requires r == With(With(m, {"aws", "gcp", "azure", "cloudflare"}, "cloud-infra"), {"auth0", "okta"}, "identity")
    ensures Files(r, "stripe", "payments")
  {
    assert "stripe" !in {"aws", "gcp", "azure", "cloudflare"} && "stripe" !in {"auth0", "okta"};
  }

  lemma HomeKeepsStripe(m: map<string, Entry>, r: map<string, Entry>)
    requires Files(m, "stripe", "payments")
    requires r == With(With(m, {"august-lock", "yale-lock", "ring"}, "access-control"), {"epic", "fitbit"}, "health")
    ensures Files(r, "stripe", "payments")
  {
    assert "stripe" !in {"august-lock", "yale-lock", "ring"} && "stripe" !in {"epic", "fitbit"};
  }

  lemma StripeIsPayments()
    ensures Files(BundledEntities(), "stripe", "payments")
  {
    var a := With(BundledSafe(), {"stripe", "paypal", "square"}, "payments");
    assert Files(a, "stripe", "payments");
    var b := With(With(With(a, {"plaid", "wise"}, "financial"), {"binance", "coinbase", "kraken"}, "exchange"),
                  {"chase"}, "banking");
    MoneyKeepsStripe(a, b);
    var c := With(With(b, {"aws", "gcp", "azure", "cloudflare"}, "cloud-infra"), {"auth0", "okta"}, "identity");
    CloudKeepsStripe(b, c);
    HomeKeepsStripe(c, BundledEntities());
  }

  lemma StripeIsTrimmed()
    ensures Key("stripe") == "stripe"
  {
    assert Trim("stripe") == "stripe";
  }

  /** One does: an overlay that files "stripe" under media, a safe category, takes it from sensitive to safe. */
  lemma StripeDrops(o: Overlay)
    requires o == Overlay("v", [], [("stripe", "media")])
    ensures Tag(Bundled(), "stripe").sensitivity.Sensitive?
    ensures Tag(Apply(Bundled(), o), "stripe").sensitivity.Safe?
  {
    StripeIsTrimmed();
    StripeIsPayments();
    PaymentsAreSensitive();
    MediaIsSafe();
    assert o.entries[|o.entries| - 1] == ("stripe", "media");
    EntityDropsExactly(Bundled(), o, "stripe");
  }
}
