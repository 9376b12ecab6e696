/** The Local SEO analyzer: name/address/phone, local schema and local signals (app.py:729-829). */
module Local {
  import opened Options
  import opened Text
  import opened Lists
  import opened Checks
  import opened Page
  import opened Rules

  /** Number of records the analyzer emits on every page. */
  const Count: nat := 15

  const LocalSchemaTypes: seq<string> := ["LocalBusiness", "Organization", "Store", "Restaurant", "Hotel", "Place"]
  const ServiceAreaTerms: seq<string> := ["serving", "service area", "we serve", "locations"]
  const LocalTerms: seq<string> := ["near me", "local", "nearby", "in your area"]
  const ReviewTerms: seq<string> := ["review", "testimonial", "rating", "stars"]

  /** Some JSON-LD block names one of the local business types. */
  predicate HasLocalSchema(p: Page) {
    exists i :: 0 <= i < |p.body.jsonLd| && MentionsAny(p.body.jsonLd[i], LocalSchemaTypes)
  }

  /** Some JSON-LD block names `Organization`. */
  predicate HasOrganizationSchema(p: Page) {
    exists i :: 0 <= i < |p.body.jsonLd| && Contains(p.body.jsonLd[i], "Organization")
  }

  predicate HasContactPoint(p: Page) {
    Contains(p.html, "ContactPoint") || Contains(p.html, "contactPoint")
  }

  predicate HasOpeningHours(p: Page) {
    Contains(p.html, "openingHours") || Contains(p.html, "OpeningHoursSpecification")
  }

  /** `'GeoCoordinates' in html or 'geo' in html.lower()` */
  predicate HasGeo(p: Page) {
    Contains(p.html, "GeoCoordinates") || Contains(Lower(p.html), "geo")
  }

  /** `'Found' if flag else 'Not found'` */
  function FoundValue(flag: bool): string {
    if flag then "Found" else "Not found"
  }

  // ----- Checks 1-5: name, address, phone -----

  function ContactTextVerdicts(p: Page): (vs: seq<Verdict>)
    ensures |vs| == 3
  {
    [ Verdict("Phone Number", PassIf(p.patterns.phone, Info)),
      Verdict("Physical Address", PassIf(p.patterns.address, Info)),
      Verdict("Email Address", PassIf(p.patterns.email, Info)) ]
  }

  function ContactLinkVerdicts(p: Page): (vs: seq<Verdict>)
    ensures |vs| == 2
  {
    [ Verdict("Click-to-Call", PassIf(HrefScheme(p.body.anchors, "tel:") != [], Info)),
      Verdict("Click-to-Email", PassIf(HrefScheme(p.body.anchors, "mailto:") != [], Info)) ]
  }

  function NapVerdicts(p: Page): (vs: seq<Verdict>)
    ensures |vs| == 5
  {
    ContactTextVerdicts(p) + ContactLinkVerdicts(p)
  }

  // ----- Checks 6-10: local schema -----

  function BusinessSchemaVerdicts(p: Page): (vs: seq<Verdict>)
    ensures |vs| == 3
  {
    [ Verdict("LocalBusiness Schema", PassIf(HasLocalSchema(p), Warning)),
      Verdict("Organization Schema", PassIf(HasOrganizationSchema(p), Info)),
      Verdict("ContactPoint Schema", PassIf(HasContactPoint(p), Info)) ]
  }

  function PlaceSchemaVerdicts(p: Page): (vs: seq<Verdict>)
    ensures |vs| == 2
  {
    [ Verdict("Opening Hours Schema", PassIf(HasOpeningHours(p), Info)),
      Verdict("GeoCoordinates", PassIf(HasGeo(p), Info)) ]
  }

  function SchemaVerdicts(p: Page): (vs: seq<Verdict>)
    ensures |vs| == 5
  {
    BusinessSchemaVerdicts(p) + PlaceSchemaVerdicts(p)
  }

  // ----- Checks 11-15: local signals -----

  function MapVerdicts(p: Page): (vs: seq<Verdict>)
    ensures |vs| == 3
  {
    [ Verdict("Google Maps Embed", PassIf(p.patterns.mapsEmbed, Info)),
      Verdict("Directions Link", PassIf(p.patterns.directions, Info)),
      Verdict("Service Area", PassIf(MentionsAny(Lower(p.text), ServiceAreaTerms), Info)) ]
  }

  function ReputationVerdicts(p: Page): (vs: seq<Verdict>)
    ensures |vs| == 2
  {
    [ Verdict("Local Keywords", PassIf(MentionsAny(Lower(p.text), LocalTerms), Info)),
      Verdict("Reviews Section", PassIf(MentionsAny(Lower(p.html), ReviewTerms), Info)) ]
  }

  function SignalVerdicts(p: Page): (vs: seq<Verdict>)
    ensures |vs| == 5
  {
    MapVerdicts(p) + ReputationVerdicts(p)
  }

  /** Name and outcome of each record, in the order the analyzer emits them. */
  function Verdicts(p: Page): (vs: seq<Verdict>)
    ensures |vs| == Count
  {
    NapVerdicts(p) + SchemaVerdicts(p) + SignalVerdicts(p)
  }

  /**
   * `vs` are the verdicts this analyzer reaches on the page `p`. The equation
   * is stated for every page `q` that is `p`, so that the verifier expands the
   * table only in proofs that mention `Verdicts` itself.
   */
  ghost predicate Yields(vs: seq<Verdict>, p: Page) {
    forall q {:trigger Verdicts(q)} :: SamePage(q, p) ==> vs == Verdicts(q)
  }

  /** The analyzer reaches one outcome per page. */
  lemma YieldsUnique(vs: seq<Verdict>, ws: seq<Verdict>, p: Page)
    requires Yields(vs, p) && Yields(ws, p)
    ensures vs == ws
  {
    assert vs == Verdicts(p);
  }

  /** The table yields itself. */
  lemma YieldsVerdicts(p: Page)
    ensures Yields(Verdicts(p), p)
  { }

  /** What the analyzer yields has one verdict per check. */
  lemma YieldsCount(vs: seq<Verdict>, p: Page)
    requires Yields(vs, p)
    ensures |vs| == Count
  {
    assert vs == Verdicts(p);
  }

  // ----- The analyzer -----

  method AddContactTextChecks(checks: CheckList, p: Page)
    modifies checks
    ensures Project(checks.checks) == Project(old(checks.checks)) + ContactTextVerdicts(p)
    ensures ValuesBounded(old(checks.checks)) ==> ValuesBounded(checks.checks)
    ensures old(checks.checks) <= checks.checks
  {
    ghost var before := Project(checks.checks);
    ghost var c0 := checks.checks;
    var phone := p.patterns.phone;
    checks.AddCheck("Phone Number", PassIf(phone, Info), "Phone displayed",
                    FoundValue(phone), "Display phone number for local SEO", High, Some("NAP"));
    ghost var c1 := checks.checks;
    var address := p.patterns.address;
    checks.AddCheck("Physical Address", PassIf(address, Info), "Address displayed",
                    FoundValue(address), "Display physical address", High, Some("NAP"));
    ghost var c2 := checks.checks;
    var email := p.patterns.email;
    checks.AddCheck("Email Address", PassIf(email, Info), "Email displayed",
                    FoundValue(email), "Display contact email", Medium, Some("NAP"));
    Appended3(before, ContactTextVerdicts(p));
    Prefixes3(c0, c1, c2, checks.checks);
  }

  method AddContactLinkChecks(checks: CheckList, p: Page)
    modifies checks
    ensures Project(checks.checks) == Project(old(checks.checks)) + ContactLinkVerdicts(p)
    ensures ValuesBounded(old(checks.checks)) ==> ValuesBounded(checks.checks)
    ensures old(checks.checks) <= checks.checks
  {
    ghost var before := Project(checks.checks);
    ghost var c0 := checks.checks;
    var tel := HrefScheme(p.body.anchors, "tel:");
    checks.AddCheck("Click-to-Call", PassIf(tel != [], Info), "Tel: links",
                    NatToString(|tel|) + " found", "Add tel: links for mobile users", Medium, Some("NAP"));
    ghost var c1 := checks.checks;
    var mailto := HrefScheme(p.body.anchors, "mailto:");
    checks.AddCheck("Click-to-Email", PassIf(mailto != [], Info), "Mailto: links",
                    NatToString(|mailto|) + " found", "Add mailto: links", Low, Some("NAP"));
    Appended2(before, ContactLinkVerdicts(p));
    Prefixes2(c0, c1, checks.checks);
  }

  method AddNapChecks(checks: CheckList, p: Page)
    modifies checks
    ensures Project(checks.checks) == Project(old(checks.checks)) + NapVerdicts(p)
    ensures ValuesBounded(old(checks.checks)) ==> ValuesBounded(checks.checks)
    ensures old(checks.checks) <= checks.checks
  {
    ghost var c0 := checks.checks;
    AddContactTextChecks(checks, p);
    ghost var c1 := checks.checks;
    AddContactLinkChecks(checks, p);
    Prefixes2(c0, c1, checks.checks);
  }

  method AddBusinessSchemaChecks(checks: CheckList, p: Page)
    modifies checks
    ensures Project(checks.checks) == Project(old(checks.checks)) + BusinessSchemaVerdicts(p)
    ensures ValuesBounded(old(checks.checks)) ==> ValuesBounded(checks.checks)
    ensures old(checks.checks) <= checks.checks
  {
    ghost var before := Project(checks.checks);
    ghost var c0 := checks.checks;
    var local := HasLocalSchema(p);
    checks.AddCheck("LocalBusiness Schema", PassIf(local, Warning), "Local business markup",
                    FoundValue(local), "Add LocalBusiness schema", High, Some("Schema"));
    ghost var c1 := checks.checks;
    var org := HasOrganizationSchema(p);
    checks.AddCheck("Organization Schema", PassIf(org, Info), "Organization markup",
                    FoundValue(org), "Add Organization schema", Medium, Some("Schema"));
    ghost var c2 := checks.checks;
    var contact := HasContactPoint(p);
    checks.AddCheck("ContactPoint Schema", PassIf(contact, Info), "Contact point markup",
                    FoundValue(contact), "Add ContactPoint schema", Medium, Some("Schema"));
    Appended3(before, BusinessSchemaVerdicts(p));
    Prefixes3(c0, c1, c2, checks.checks);
  }

  method AddPlaceSchemaChecks(checks: CheckList, p: Page)
    modifies checks
    ensures Project(checks.checks) == Project(old(checks.checks)) + PlaceSchemaVerdicts(p)
    ensures ValuesBounded(old(checks.checks)) ==> ValuesBounded(checks.checks)
    ensures old(checks.checks) <= checks.checks
  {
    ghost var before := Project(checks.checks);
    ghost var c0 := checks.checks;
    var hours := HasOpeningHours(p);
    checks.AddCheck("Opening Hours Schema", PassIf(hours, Info), "Hours markup",
                    FoundValue(hours), "Add opening hours schema", Medium, Some("Schema"));
    ghost var c1 := checks.checks;
    var geo := HasGeo(p);
    checks.AddCheck("GeoCoordinates", PassIf(geo, Info), "Location coordinates",
                    FoundValue(geo), "Add geo coordinates schema", Medium, Some("Schema"));
    Appended2(before, PlaceSchemaVerdicts(p));
    Prefixes2(c0, c1, checks.checks);
  }

  method AddSchemaChecks(checks: CheckList, p: Page)
    modifies checks
    ensures Project(checks.checks) == Project(old(checks.checks)) + SchemaVerdicts(p)
    ensures ValuesBounded(old(checks.checks)) ==> ValuesBounded(checks.checks)
    ensures old(checks.checks) <= checks.checks
  {
    ghost var c0 := checks.checks;
    AddBusinessSchemaChecks(checks, p);
    ghost var c1 := checks.checks;
    AddPlaceSchemaChecks(checks, p);
    Prefixes2(c0, c1, checks.checks);
  }

  method AddMapChecks(checks: CheckList, p: Page)
    modifies checks
    ensures Project(checks.checks) == Project(old(checks.checks)) + MapVerdicts(p)
    ensures ValuesBounded(old(checks.checks)) ==> ValuesBounded(checks.checks)
    ensures old(checks.checks) <= checks.checks
  {
    ghost var before := Project(checks.checks);
    ghost var c0 := checks.checks;
    var maps := p.patterns.mapsEmbed;
    checks.AddCheck("Google Maps Embed", PassIf(maps, Info), "Map embedded",
                    FoundValue(maps), "Embed Google Maps", Medium, Some("Local Signals"));
    ghost var c1 := checks.checks;
    var directions := p.patterns.directions;
    checks.AddCheck("Directions Link", PassIf(directions, Info), "Get directions link",
                    FoundValue(directions), "Add directions link", Low, Some("Local Signals"));
    ghost var c2 := checks.checks;
    var serviceArea := MentionsAny(Lower(p.text), ServiceAreaTerms);
    checks.AddCheck("Service Area", PassIf(serviceArea, Info), "Service area mentioned",
                    FoundValue(serviceArea), "Mention service areas", Medium, Some("Local Signals"));
    Appended3(before, MapVerdicts(p));
    Prefixes3(c0, c1, c2, checks.checks);
  }

  method AddReputationChecks(checks: CheckList, p: Page)
    modifies checks
    ensures Project(checks.checks) == Project(old(checks.checks)) + ReputationVerdicts(p)
    ensures ValuesBounded(old(checks.checks)) ==> ValuesBounded(checks.checks)
    ensures old(checks.checks) <= checks.checks
  {
    ghost var before := Project(checks.checks);
    ghost var c0 := checks.checks;
    var localTerms := MentionsAny(Lower(p.text), LocalTerms);
    checks.AddCheck("Local Keywords", PassIf(localTerms, Info), "Local terms used",
                    FoundValue(localTerms), "Include local keywords", Low, Some("Local Signals"));
    ghost var c1 := checks.checks;
    var reviews := MentionsAny(Lower(p.html), ReviewTerms);
    checks.AddCheck("Reviews Section", PassIf(reviews, Info), "Reviews/testimonials",
                    FoundValue(reviews), "Display customer reviews", High, Some("Local Signals"));
    Appended2(before, ReputationVerdicts(p));
    Prefixes2(c0, c1, checks.checks);
  }

  method AddSignalChecks(checks: CheckList, p: Page)
    modifies checks
    ensures Project(checks.checks) == Project(old(checks.checks)) + SignalVerdicts(p)
    ensures ValuesBounded(old(checks.checks)) ==> ValuesBounded(checks.checks)
    ensures old(checks.checks) <= checks.checks
  {
    ghost var c0 := checks.checks;
    AddMapChecks(checks, p);
    ghost var c1 := checks.checks;
    AddReputationChecks(checks, p);
    Prefixes2(c0, c1, checks.checks);
  }

  /** `analyze_local_seo(url, soup, response, load_time)` */
  method Analyze(p: Page) returns (r: CategoryResult)
    ensures Consistent(r) && |r.checks| == Count
    ensures Yields(Project(r.checks), p)
    ensures ValuesBounded(r.checks)
  {
    var checks := new CheckList();
    ghost var v0 := Project(checks.checks);
    AddNapChecks(checks, p);
    ghost var v1 := Project(checks.checks);
    AddSchemaChecks(checks, p);
    ghost var v2 := Project(checks.checks);
    AddSignalChecks(checks, p);
    Chained3(v0, v1, v2, Project(checks.checks), NapVerdicts(p), SchemaVerdicts(p), SignalVerdicts(p));
    r := Summarize(checks.checks);
  }

  // ----- Properties -----

  /** `Organization` is itself a local schema type, so an Organization block also satisfies "LocalBusiness Schema". */
  lemma OrganizationIsLocal(p: Page)
    requires BusinessSchemaVerdicts(p)[1].status == Pass
    ensures BusinessSchemaVerdicts(p)[0].status == Pass
  {
    var i :| 0 <= i < |p.body.jsonLd| && Contains(p.body.jsonLd[i], "Organization");
    assert LocalSchemaTypes[1] == "Organization";
    assert MentionsAny(p.body.jsonLd[i], LocalSchemaTypes);
  }

  /**
   * The `GeoCoordinates` test adds nothing: lower-cased, that word contains
   * `geo`, so the check passes exactly when the lower-cased markup mentions `geo`.
   */
  lemma GeoMeansLowercaseGeo(p: Page)
    ensures PlaceSchemaVerdicts(p)[1].status == Pass <==> Contains(Lower(p.html), "geo")
  {
    if Contains(p.html, "GeoCoordinates") {
      ContainsAt(p.html, "GeoCoordinates");
      var i :| OccursAt(p.html, "GeoCoordinates", i);
      assert "GeoCoordinates" == "Geo" + "Coordinates";
      OccursPrefix(p.html, "Geo", "Coordinates", i);
      LowerOccurs(p.html, "Geo", i);
      assert Lower("Geo") == "geo";
      ContainsAt(Lower(p.html), "geo");
    }
  }
}
