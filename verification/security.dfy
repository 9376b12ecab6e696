/** The Security analyzer: HTTPS, security headers, login forms and script sources (app.py:595-664). */
module Security {
  import opened Options
  import opened Text
  import opened Lists
  import opened Checks
  import opened Page

  /** Number of records the analyzer emits on every page. */
  const Count: nat := 12

  /** Script hosts the analyzer does not count as unknown. */
  const TrustedDomains: seq<string> := ["google", "facebook", "twitter", "cloudflare", "jquery", "bootstrap", "cdn"]

  predicate IsHttps(t: Target) {
    t.scheme == "https"
  }

  /** Elements whose `href` or `src` starts with `http://`. */
  function MixedContent(p: Page): nat {
    |PrefixedBy(p.body.hrefValues, "http://")| + |PrefixedBy(p.body.srcValues, "http://")|
  }

  /** A `Set-Cookie` header, when there is one, mentions `Secure`. */
  predicate SecureCookie(p: Page) {
    var cookies := Header(p, "Set-Cookie");
    if cookies != "" then Contains(cookies, "Secure") else true
  }

  function PermissionsPolicy(p: Page): string {
    OrElse(Header(p, "Permissions-Policy"), Header(p, "Feature-Policy"))
  }

  /** Absolute script sources that mention none of the trusted hosts. */
  function UntrustedScripts(p: Page): seq<Script> {
    Filter(p.body.scripts, (s: Script) =>
      (StartsWith(s.src, "http://") || StartsWith(s.src, "https://")) && !MentionsAny(s.src, TrustedDomains))
  }

  /** No Mixed Content: a page not on HTTPS fails outright; otherwise any `http://` resource warns. */
  function MixedContentStatus(t: Target, p: Page): Status {
    if IsHttps(t) then PassIf(MixedContent(p) == 0, Warning) else Fail
  }

  /** HTTPS and TLS, first half. */
  function ProtocolVerdicts(t: Target, p: Page): (vs: seq<Verdict>)
    ensures |vs| == 2
  {
    [ Verdict("HTTPS Protocol", PassIf(IsHttps(t), Fail)),
      Verdict("No Mixed Content", MixedContentStatus(t, p)) ]
  }

  /** HTTPS and TLS, second half. */
  function CookieVerdicts(t: Target, p: Page): (vs: seq<Verdict>)
    ensures |vs| == 2
  {
    [ Verdict("Secure Cookies", PassIf(SecureCookie(p), Warning)),
      Verdict("HTTPS Redirect", PassIf(IsHttps(t), Warning)) ]
  }

  /** Security headers, first half. */
  function TransportHeaderVerdicts(p: Page): (vs: seq<Verdict>)
    ensures |vs| == 2
  {
    [ Verdict("HSTS Header", PassIf(Header(p, "Strict-Transport-Security") != "", Warning)),
      Verdict("X-Content-Type-Options", PassIf(Header(p, "X-Content-Type-Options") == "nosniff", Warning)) ]
  }

  /** Security headers, second half. */
  function FramingHeaderVerdicts(p: Page): (vs: seq<Verdict>)
    ensures |vs| == 2
  {
    [ Verdict("X-Frame-Options", PassIf(Header(p, "X-Frame-Options") != "", Warning)),
      Verdict("Content-Security-Policy", PassIf(Header(p, "Content-Security-Policy") != "", Info)) ]
  }

  /** Additional security, policy headers. */
  function PolicyVerdicts(p: Page): (vs: seq<Verdict>)
    ensures |vs| == 2
  {
    [ Verdict("Referrer-Policy", PassIf(Header(p, "Referrer-Policy") != "", Info)),
      Verdict("Permissions-Policy", PassIf(PermissionsPolicy(p) != "", Info)) ]
  }

  /** Additional security, login forms and script sources. */
  function FormScriptVerdicts(t: Target, p: Page): (vs: seq<Verdict>)
    ensures |vs| == 2
  {
    [ Verdict("Secure Login Forms", PassIf(p.body.passwordFields == 0 || IsHttps(t), Fail)),
      Verdict("Trusted Scripts", PassIf(|UntrustedScripts(p)| < 3, Warning)) ]
  }

  /** Name and outcome of each record, in the order the analyzer emits them. */
  function Verdicts(t: Target, p: Page): (vs: seq<Verdict>)
    ensures |vs| == Count
  {
    HttpsVerdicts(t, p) + HeaderVerdicts(p) + AdditionalVerdicts(t, p)
  }

  /**
   * `vs` are the verdicts this analyzer reaches on the page `p`. The equation
   * is stated for every page `q` that is `p`, so that the verifier expands the
   * table only in proofs that mention `Verdicts` itself.
   */
  ghost predicate Yields(vs: seq<Verdict>, t: Target, p: Page) {
    forall q {:trigger Verdicts(t, q)} :: SamePage(q, p) ==> vs == Verdicts(t, q)
  }

  /** The analyzer reaches one outcome per page. */
  lemma YieldsUnique(vs: seq<Verdict>, ws: seq<Verdict>, t: Target, p: Page)
    requires Yields(vs, t, p) && Yields(ws, t, p)
    ensures vs == ws
  {
    assert vs == Verdicts(t, p);
  }

  /** The table yields itself. */
  lemma YieldsVerdicts(t: Target, p: Page)
    ensures Yields(Verdicts(t, p), t, p)
  { }

  /** What the analyzer yields has one verdict per check. */
  lemma YieldsCount(vs: seq<Verdict>, t: Target, p: Page)
    requires Yields(vs, t, p)
    ensures |vs| == Count
  {
    assert vs == Verdicts(t, p);
  }

  function HttpsVerdicts(t: Target, p: Page): (vs: seq<Verdict>)
    ensures |vs| == 4
  {
    ProtocolVerdicts(t, p) + CookieVerdicts(t, p)
  }

  function HeaderVerdicts(p: Page): (vs: seq<Verdict>)
    ensures |vs| == 4
  {
    TransportHeaderVerdicts(p) + FramingHeaderVerdicts(p)
  }

  function AdditionalVerdicts(t: Target, p: Page): (vs: seq<Verdict>)
    ensures |vs| == 4
  {
    PolicyVerdicts(p) + FormScriptVerdicts(t, p)
  }

  method AddHttpsChecks(checks: CheckList, t: Target, p: Page)
    modifies checks
    ensures Project(checks.checks) == Project(old(checks.checks)) + HttpsVerdicts(t, p)
    ensures ValuesBounded(old(checks.checks)) ==> ValuesBounded(checks.checks)
    ensures old(checks.checks) <= checks.checks
  {
    ghost var c0 := checks.checks;
    AddProtocolChecks(checks, t, p);
    ghost var c1 := checks.checks;
    AddCookieChecks(checks, t, p);
    Prefixes2(c0, c1, checks.checks);
  }

  method AddHeaderChecks(checks: CheckList, p: Page)
    modifies checks
    ensures Project(checks.checks) == Project(old(checks.checks)) + HeaderVerdicts(p)
    ensures ValuesBounded(old(checks.checks)) ==> ValuesBounded(checks.checks)
    ensures old(checks.checks) <= checks.checks
  {
    ghost var c0 := checks.checks;
    AddTransportHeaderChecks(checks, p);
    ghost var c1 := checks.checks;
    AddFramingHeaderChecks(checks, p);
    Prefixes2(c0, c1, checks.checks);
  }

  method AddAdditionalChecks(checks: CheckList, t: Target, p: Page)
    modifies checks
    ensures Project(checks.checks) == Project(old(checks.checks)) + AdditionalVerdicts(t, p)
    ensures ValuesBounded(old(checks.checks)) ==> ValuesBounded(checks.checks)
    ensures old(checks.checks) <= checks.checks
  {
    ghost var c0 := checks.checks;
    AddPolicyChecks(checks, p);
    ghost var c1 := checks.checks;
    AddFormScriptChecks(checks, t, p);
    Prefixes2(c0, c1, checks.checks);
  }

  method AddProtocolChecks(checks: CheckList, t: Target, p: Page)
    modifies checks
    ensures Project(checks.checks) == Project(old(checks.checks)) + ProtocolVerdicts(t, p)
    ensures ValuesBounded(old(checks.checks)) ==> ValuesBounded(checks.checks)
    ensures old(checks.checks) <= checks.checks
  {
    ghost var before := Project(checks.checks);
    ghost var c0 := checks.checks;
    var https := t.scheme == "https";
    checks.AddCheck("HTTPS Protocol", PassIf(https, Fail),
                    "Secure connection", Upper(t.scheme), "Enable HTTPS", Critical, Some("HTTPS"));
    ghost var c1 := checks.checks;
    if https {
      var mixed := MixedContent(p);
      checks.AddCheck("No Mixed Content", PassIf(mixed == 0, Warning),
                      "Mixed content", NatToString(mixed) + " insecure resources", "Fix mixed content issues", High, Some("HTTPS"));
    } else {
      checks.AddCheck("No Mixed Content", Fail, "Mixed content", "Site not on HTTPS", "Enable HTTPS first", High, Some("HTTPS"));
    }
    Appended2(before, ProtocolVerdicts(t, p));
    Prefixes2(c0, c1, checks.checks);
  }

  method AddCookieChecks(checks: CheckList, t: Target, p: Page)
    modifies checks
    ensures Project(checks.checks) == Project(old(checks.checks)) + CookieVerdicts(t, p)
    ensures ValuesBounded(old(checks.checks)) ==> ValuesBounded(checks.checks)
    ensures old(checks.checks) <= checks.checks
  {
    ghost var before := Project(checks.checks);
    ghost var c0 := checks.checks;
    var cookies := Header(p, "Set-Cookie");
    var secureCookie := if cookies != "" then Contains(cookies, "Secure") else true;
    checks.AddCheck("Secure Cookies", PassIf(secureCookie, Warning),
                    "Cookie security", if secureCookie then "Secure flag set" else "Missing Secure flag",
                    "Add Secure flag to cookies", Medium, Some("HTTPS"));
    ghost var c1 := checks.checks;
    var https := t.scheme == "https";
    checks.AddCheck("HTTPS Redirect", PassIf(https, Warning),
                    "HTTP redirects to HTTPS", if https then "Yes" else "Unknown", "Redirect HTTP to HTTPS", High, Some("HTTPS"));
    Appended2(before, CookieVerdicts(t, p));
    Prefixes2(c0, c1, checks.checks);
  }

  method AddTransportHeaderChecks(checks: CheckList, p: Page)
    modifies checks
    ensures Project(checks.checks) == Project(old(checks.checks)) + TransportHeaderVerdicts(p)
    ensures ValuesBounded(old(checks.checks)) ==> ValuesBounded(checks.checks)
    ensures old(checks.checks) <= checks.checks
  {
    ghost var before := Project(checks.checks);
    ghost var c0 := checks.checks;
    var hsts := Header(p, "Strict-Transport-Security");
    checks.AddCheck("HSTS Header", PassIf(hsts != "", Warning),
                    "HTTP Strict Transport Security", if hsts != "" then "Enabled" else "Not set",
                    "Enable HSTS header", High, Some("Security Headers"));
    ghost var c1 := checks.checks;
    var xcto := Header(p, "X-Content-Type-Options");
    checks.AddCheck("X-Content-Type-Options", PassIf(xcto == "nosniff", Warning),
                    "MIME sniffing protection", OrElse(xcto, "Not set"), "Add X-Content-Type-Options: nosniff", Medium, Some("Security Headers"));
    Appended2(before, TransportHeaderVerdicts(p));
    Prefixes2(c0, c1, checks.checks);
  }

  method AddFramingHeaderChecks(checks: CheckList, p: Page)
    modifies checks
    ensures Project(checks.checks) == Project(old(checks.checks)) + FramingHeaderVerdicts(p)
    ensures ValuesBounded(old(checks.checks)) ==> ValuesBounded(checks.checks)
    ensures old(checks.checks) <= checks.checks
  {
    ghost var before := Project(checks.checks);
    ghost var c0 := checks.checks;
    var xfo := Header(p, "X-Frame-Options");
    checks.AddCheck("X-Frame-Options", PassIf(xfo != "", Warning),
                    "Clickjacking protection", OrElse(xfo, "Not set"), "Add X-Frame-Options header", Medium, Some("Security Headers"));
    ghost var c1 := checks.checks;
    var csp := Header(p, "Content-Security-Policy");
    checks.AddCheck("Content-Security-Policy", PassIf(csp != "", Info),
                    "CSP header", if csp != "" then "Configured" else "Not set", "Implement Content Security Policy", Medium, Some("Security Headers"));
    Appended2(before, FramingHeaderVerdicts(p));
    Prefixes2(c0, c1, checks.checks);
  }

  method AddPolicyChecks(checks: CheckList, p: Page)
    modifies checks
    ensures Project(checks.checks) == Project(old(checks.checks)) + PolicyVerdicts(p)
    ensures ValuesBounded(old(checks.checks)) ==> ValuesBounded(checks.checks)
    ensures old(checks.checks) <= checks.checks
  {
    ghost var before := Project(checks.checks);
    ghost var c0 := checks.checks;
    var referrer := Header(p, "Referrer-Policy");
    checks.AddCheck("Referrer-Policy", PassIf(referrer != "", Info),
                    "Referrer policy", OrElse(referrer, "Not set"), "Set Referrer-Policy header", Low, Some("Security Headers"));
    ghost var c1 := checks.checks;
    var permissions := PermissionsPolicy(p);
    checks.AddCheck("Permissions-Policy", PassIf(permissions != "", Info),
                    "Permissions policy", if permissions != "" then "Set" else "Not set", "Configure Permissions-Policy", Low, Some("Security Headers"));
    Appended2(before, PolicyVerdicts(p));
    Prefixes2(c0, c1, checks.checks);
  }

  method AddFormScriptChecks(checks: CheckList, t: Target, p: Page)
    modifies checks
    ensures Project(checks.checks) == Project(old(checks.checks)) + FormScriptVerdicts(t, p)
    ensures ValuesBounded(old(checks.checks)) ==> ValuesBounded(checks.checks)
    ensures old(checks.checks) <= checks.checks
  {
    ghost var before := Project(checks.checks);
    ghost var c0 := checks.checks;
    var passwords := p.body.passwordFields;
    checks.AddCheck("Secure Login Forms", PassIf(passwords == 0 || IsHttps(t), Fail),
                    "Password fields on HTTPS", NatToString(passwords) + " fields", "Use HTTPS for login pages", Critical, Some("Forms"));
    ghost var c1 := checks.checks;
    var untrusted := UntrustedScripts(p);
    checks.AddCheck("Trusted Scripts", PassIf(|untrusted| < 3, Warning),
                    "External scripts", NatToString(|untrusted|) + " from unknown sources", "Review external script sources", Medium, Some("Scripts"));
    Appended2(before, FormScriptVerdicts(t, p));
    Prefixes2(c0, c1, checks.checks);
  }

  /** `analyze_security_seo(url, soup, response, load_time)` */
  method Analyze(t: Target, p: Page) returns (r: CategoryResult)
    ensures Consistent(r) && |r.checks| == Count
    ensures Yields(Project(r.checks), t, p)
    ensures ValuesBounded(r.checks)
  {
    var checks := new CheckList();
    ghost var v0 := Project(checks.checks);
    AddHttpsChecks(checks, t, p);
    ghost var v1 := Project(checks.checks);
    AddHeaderChecks(checks, p);
    ghost var v2 := Project(checks.checks);
    AddAdditionalChecks(checks, t, p);
    Chained3(v0, v1, v2, Project(checks.checks), HttpsVerdicts(t, p), HeaderVerdicts(p), AdditionalVerdicts(t, p));
    r := Summarize(checks.checks);
  }

  /**
   * On a page not served over HTTPS, "HTTPS Protocol" and "No Mixed Content"
   * fail and "HTTPS Redirect" warns, so at most 9 of the 12 checks pass.
   */
  lemma PlainHttpPassCount(t: Target, p: Page)
    requires !IsHttps(t)
    ensures PassCount(Verdicts(t, p)) <= Count - 3
  {
    var protocol, cookie := ProtocolVerdicts(t, p), CookieVerdicts(t, p);
    assert protocol[0].status == Fail && protocol[1].status == Fail;
    PassCountBounds(protocol);
    assert cookie[1].status == Warning;
    assert cookie == cookie[..1] + cookie[1..];
    PassCountAppend(cookie[..1], cookie[1..]);
    PassCountBounds(cookie[..1]);
    PassCountBounds(cookie[1..]);
    PassCountAppend(protocol, cookie);
    PassCountBounds(HeaderVerdicts(p));
    PassCountBounds(AdditionalVerdicts(t, p));
    PassCountAppend(HttpsVerdicts(t, p), HeaderVerdicts(p));
    PassCountAppend(HttpsVerdicts(t, p) + HeaderVerdicts(p), AdditionalVerdicts(t, p));
  }

  /** A plain-HTTP page therefore scores at most 75% in this category. */
  lemma PlainHttpScore(t: Target, p: Page, cs: seq<Check>)
    requires !IsHttps(t) && Project(cs) == Verdicts(t, p)
    ensures Summarize(cs).score <= 750
  {
    PlainHttpPassCount(t, p);
    SummaryScore(cs);
    var r := Summarize(cs);
    assert r.total == 12 && r.passed <= 9;
    MulLeCancel(2 * r.score, 1501, 12);
  }
}
