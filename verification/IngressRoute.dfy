/**
 The ingress mutator as a compiler from an auth policy to a table of Traefik rules.

 The table's meaning is given independently: rules are read back from the strings that were written, a request goes
 to a longest matching rule (Traefik v2.10's default priority), and the middlewares of that rule are what counts.
 */
module IngressRoute {
  import opened Names
  import opened Wrappers

  datatype IngressError = BadHost | NoIngressRoutePort | InvalidAuthConfig

  datatype AuthConfig =
    AuthConfig(pathPrefix: string, serviceName: NamespacedName, servicePort: string, middleware: NamespacedName)
  {
    predicate Valid() {
      && "/" <= pathPrefix && HasSlashSuffix(pathPrefix)
      && serviceName.name != "" && servicePort != "" && middleware.name != ""
    }
  }

  datatype Config = Config(defaultMiddlewares: seq<NamespacedName>, cnameTarget: string, auth: AuthConfig)

  datatype IngressAuth = IngressAuth(enabled: bool, excludePathPrefixes: seq<string>)

  datatype Ingress =
    Ingress(host: string, portName: string, middlewares: seq<NamespacedName>, auth: Option<IngressAuth>)
  {
    predicate Protected() {
      auth.Some? && auth.value.enabled
    }
  }

  datatype Backend = Backend(service: NamespacedName, port: string)

  datatype Route = Route(rule: string, middlewares: seq<NamespacedName>, backend: Backend)

  predicate HasSlashSuffix(s: string) {
    s != "" && s[|s| - 1] == '/'
  }

  // ---------- Hosts and ports ----------

  predicate Alphanumeric(c: char) {
    'a' <= c <= 'z' || 'A' <= c <= 'Z' || '0' <= c <= '9'
  }

  predicate ValidLabel(s: string) {
    && s != "" && Alphanumeric(s[0]) && Alphanumeric(s[|s| - 1])
    && forall i :: 0 <= i < |s| ==> Alphanumeric(s[i]) || s[i] == '-'
  }

  /** Dot-separated labels of letters, digits and inner hyphens. */
  predicate ValidHostname(s: string)
    decreases |s|
  {
    var dot := IndexOf(s, '.');
    if dot == |s| then ValidLabel(s) else ValidLabel(s[..dot]) && ValidHostname(s[dot + 1..])
  }

  lemma {:induction false} HostnameHasNoBacktick(s: string)
    requires ValidHostname(s)
    ensures '`' !in s
    decreases |s|
  {
    var dot := IndexOf(s, '.');
    if dot < |s| {
      HostnameHasNoBacktick(s[dot + 1..]);
      assert s == s[..dot] + ['.'] + s[dot + 1..];
    }
  }

  /** The explicit port name, or the first port called "http" or "web"; empty when there is none. */
  function ResolvePort(explicit: string, ports: seq<string>): (r: string)
    ensures explicit != "" ==> r == explicit
    ensures explicit == "" && r != "" ==> r in ports && (r == "http" || r == "web")
    ensures r == "" <==> explicit == "" && "http" !in ports && "web" !in ports
  {
    if explicit != "" then explicit
    else if ports == [] then ""
    else if ports[0] == "http" || ports[0] == "web" then ports[0]
    else
      assert ports == [ports[0]] + ports[1..];
      ResolvePort("", ports[1..])
  }

  lemma {:induction false} ResolvesFirst(ports: seq<string>)
    ensures ResolvePort("", ports) != "" ==> FirstOf(ports, {"http", "web"}, ResolvePort("", ports))
  {
    if ports != [] {
      ResolvesFirst(ports[1..]);
      if ports[0] in {"http", "web"} {
        assert FirstOf(ports, {"http", "web"}, ports[0]);
      } else if ResolvePort("", ports[1..]) != "" {
        FirstOfRest(ports, {"http", "web"}, ResolvePort("", ports[1..]));
      }
    }
  }

  // ---------- Hosts, character by character ----------

  /** Letters, digits, hyphens and dots, with a letter or digit at either end and on both sides of every dot. */
  predicate HostCharacters(s: string) {
    && s != "" && Alphanumeric(s[0]) && Alphanumeric(s[|s| - 1])
    && (forall i :: 0 <= i < |s| ==> Alphanumeric(s[i]) || s[i] == '-' || s[i] == '.')
    && (forall i :: 0 < i < |s| - 1 && s[i] == '.' ==> Alphanumeric(s[i - 1]) && Alphanumeric(s[i + 1]))
  }

  lemma {:induction false} HostnameIff(s: string)
    ensures ValidHostname(s) <==> HostCharacters(s)
    decreases |s|
  {
    var dot := IndexOf(s, '.');
    if dot == |s| {
      assert forall i :: 0 <= i < |s| ==> s[i] != '.';
    } else {
      var first, rest := s[..dot], s[dot + 1..];
      HostnameIff(rest);
      assert forall i :: 0 <= i < dot ==> s[i] == first[i] && s[i] != '.';
      assert forall i :: dot < i < |s| ==> s[i] == rest[i - dot - 1];
      if ValidLabel(first) && HostCharacters(rest) {
        DotJoins(s, dot);
      } else if HostCharacters(s) {
        DotSplits(s, dot);
      }
    }
  }

  lemma DotJoins(s: string, dot: nat)
    requires dot < |s| && s[dot] == '.' && ValidLabel(s[..dot]) && HostCharacters(s[dot + 1..])
    requires forall i :: 0 <= i < dot ==> s[i] != '.'
    ensures HostCharacters(s)
  {
    var first, rest := s[..dot], s[dot + 1..];
    assert first[0] == s[0] && first[dot - 1] == s[dot - 1];
    assert rest[0] == s[dot + 1] && rest[|rest| - 1] == s[|s| - 1];
    forall i | 0 <= i < |s|
      ensures Alphanumeric(s[i]) || s[i] == '-' || s[i] == '.'
    {
      assert i < dot ==> s[i] == first[i];
      assert i > dot ==> s[i] == rest[i - dot - 1];
    }
    forall i | 0 < i < |s| - 1 && s[i] == '.'
      ensures Alphanumeric(s[i - 1]) && Alphanumeric(s[i + 1])
    {
      if i > dot {
        var k := i - dot - 1;
        assert rest[k] == s[i] && rest[k + 1] == s[i + 1];
        assert k > 0;
        assert rest[k - 1] == s[i - 1];
      }
    }
  }

  lemma DotSplits(s: string, dot: nat)
    requires dot < |s| && s[dot] == '.' && HostCharacters(s) && forall i :: 0 <= i < dot ==> s[i] != '.'
    ensures ValidLabel(s[..dot]) && HostCharacters(s[dot + 1..])
  {
    var first, rest := s[..dot], s[dot + 1..];
    assert 0 < dot < |s| - 1;
    assert forall i :: 0 <= i < dot ==> first[i] == s[i];
    assert forall i :: 0 <= i < |rest| ==> rest[i] == s[dot + 1 + i];
  }

  // ---------- The compiler ----------

  function BaseMiddlewares(cfg: Config, ing: Ingress): seq<NamespacedName> {
    if ing.middlewares != [] then ing.middlewares else cfg.defaultMiddlewares
  }

  function ExcludedRule(host: string, path: string): Rule {
    Rule(host, if HasSlashSuffix(path) then Prefix(path) else Exact(path))
  }

  function ExcludedRoutes(host: string, paths: seq<string>, base: seq<NamespacedName>, target: Backend): (r: seq<Route>)
    ensures |r| == |paths|
    ensures forall i :: 0 <= i < |paths| ==> r[i] == Route(Render(ExcludedRule(host, paths[i])), base, target)
  {
    seq(|paths|, i requires 0 <= i < |paths| => Route(Render(ExcludedRule(host, paths[i])), base, target))
  }

  lemma OneMoreExcluded(host: string, paths: seq<string>, i: nat, base: seq<NamespacedName>, target: Backend)
    requires i < |paths|
    ensures ExcludedRoutes(host, paths[..i + 1], base, target)
         == ExcludedRoutes(host, paths[..i], base, target) + [Route(Render(ExcludedRule(host, paths[i])), base, target)]
  {
  }

  function Compile(cfg: Config, app: NamespacedName, ing: Ingress, ports: seq<string>)
    : Result<seq<Route>, IngressError>
  {
    var port := ResolvePort(ing.portName, ports);
    var base := BaseMiddlewares(cfg, ing);
    var target := Backend(app, port);
    if !ValidHostname(ing.host) then Failure(BadHost)
    else if port == "" then Failure(NoIngressRoutePort)
    else if !ing.Protected() then Success([Route(Render(Rule(ing.host, AnyPath)), base, target)])
    else if !cfg.auth.Valid() then Failure(InvalidAuthConfig)
    else Success(
      [Route(Render(Rule(ing.host, Prefix(cfg.auth.pathPrefix))), base, Backend(cfg.auth.serviceName, cfg.auth.servicePort))]
      + ExcludedRoutes(ing.host, ing.auth.value.excludePathPrefixes, base, target)
      + [Route(Render(Rule(ing.host, AnyPath)), base + [cfg.auth.middleware], target)])
  }

  /** The spec asks for authentication. */
  predicate AsksForAuth(ing: Ingress) {
    match ing.auth
    case Some(auth) => auth.enabled
    case None => false
  }

  predicate EndsInSlash(p: string) {
    |p| > 0 && p[|p| - 1] == '/'
  }

  /** What the spec and the configuration must get right for an ingress to compile. */
  predicate Compilable(cfg: Config, ing: Ingress, ports: seq<string>) {
    && HostCharacters(ing.host)
    && (ing.portName != "" || "http" in ports || "web" in ports)
    && (AsksForAuth(ing) ==>
          && EndsInSlash(cfg.auth.pathPrefix) && cfg.auth.pathPrefix[0] == '/'
          && cfg.auth.serviceName.name != "" && cfg.auth.servicePort != "" && cfg.auth.middleware.name != "")
  }

  lemma CompilesIffCompilable(cfg: Config, app: NamespacedName, ing: Ingress, ports: seq<string>)
    ensures Compile(cfg, app, ing, ports).Success? <==> Compilable(cfg, ing, ports)
  {
    HostnameIff(ing.host);
  }

  // ---------- The meaning of a rule table ----------

  datatype PathMatch = AnyPath | Prefix(path: string) | Exact(path: string)

  datatype Rule = Rule(host: string, paths: PathMatch) {
    predicate Matches(requestHost: string, requestPath: string) {
      && requestHost == host
      && match paths
         case AnyPath => true
         case Prefix(p) => p <= requestPath
         case Exact(p) => p == requestPath
    }
  }

  function Render(rule: Rule): string {
    "Host(`" + rule.host +
    match rule.paths
    case AnyPath => "`)"
    case Prefix(p) => "`) && PathPrefix(`" + p + "`)"
    case Exact(p) => "`) && Path(`" + p + "`)"
  }

  /** Reads back a rule of the three written forms; anything else is no rule and matches no request. */
  function Read(s: string): Option<Rule> {
    if !("Host(`" <= s) then None
    else
      var rest := s[6..];
      var q := IndexOf(rest, '`');
      match ReadPaths(rest[q..])
      case Some(paths) => Some(Rule(rest[..q], paths))
      case None => None
  }

  /** Reads what follows the host, from its closing quote on. */
  function ReadPaths(tail: string): Option<PathMatch> {
    if tail == "`)" then Some(AnyPath)
    else if "`) && PathPrefix(`" <= tail then
      match ReadQuoted(tail[18..])
      case Some(p) => Some(Prefix(p))
      case None => None
    else if "`) && Path(`" <= tail then
      match ReadQuoted(tail[12..])
      case Some(p) => Some(Exact(p))
      case None => None
    else None
  }

  function ReadQuoted(s: string): Option<string> {
    var q := IndexOf(s, '`');
    if s[q..] == "`)" then Some(s[..q]) else None
  }

  /** A path written literally: no quote, and no brace, which Traefik reads as a template. */
  predicate LiteralPath(p: string) {
    '`' !in p && '{' !in p && '}' !in p
  }

  lemma QuotedReads(p: string)
    requires '`' !in p
    ensures ReadQuoted(p + "`)") == Some(p)
  {
    assert p + "`)" == p + ['`'] + ")";
    IndexAfterPrefix(p, ")", '`');
  }

  lemma PrefixReads(p: string)
    requires '`' !in p
    ensures ReadPaths("`) && PathPrefix(`" + p + "`)") == Some(Prefix(p))
  {
    var tail := "`) && PathPrefix(`" + (p + "`)");
    assert tail == "`) && PathPrefix(`" + p + "`)" && |tail| > 2;
    assert tail[18..] == p + "`)";
    QuotedReads(p);
  }

  lemma ExactReads(p: string)
    requires '`' !in p
    ensures ReadPaths("`) && Path(`" + p + "`)") == Some(Exact(p))
  {
    var tail := "`) && Path(`" + (p + "`)");
    assert tail == "`) && Path(`" + p + "`)" && |tail| > 2;
    assert tail[10] == '(' && "`) && PathPrefix(`"[10] == 'P';
    assert tail[12..] == p + "`)";
    QuotedReads(p);
  }

  lemma HostReads(host: string, tail: string)
    requires '`' !in host && tail != [] && tail[0] == '`'
    ensures Read("Host(`" + host + tail)
         == match ReadPaths(tail) { case Some(paths) => Some(Rule(host, paths)) case None => None }
  {
    var s := "Host(`" + host + tail;
    assert tail == ['`'] + tail[1..];
    assert s[6..] == host + ['`'] + tail[1..];
    IndexAfterPrefix(host, tail[1..], '`');
    assert s[6..][|host|..] == tail && s[6..][..|host|] == host;
  }

  predicate LiteralRule(rule: Rule) {
    '`' !in rule.host && (rule.paths.AnyPath? || LiteralPath(rule.paths.path))
  }

  /** Reading undoes writing, so the strings in the table denote the rules that were meant. */
  lemma ReadUndoesRender(rule: Rule)
    requires LiteralRule(rule)
    ensures Read(Render(rule)) == Some(rule)
  {
    match rule.paths
    case AnyPath => HostReads(rule.host, "`)");
    case Prefix(p) =>
      PrefixReads(p);
      HostReads(rule.host, "`) && PathPrefix(`" + p + "`)");
    case Exact(p) =>
      ExactReads(p);
      HostReads(rule.host, "`) && Path(`" + p + "`)");
  }

  ghost predicate RouteMatches(route: Route, host: string, path: string) {
    var rule := Read(route.rule);
    rule.Some? && rule.value.Matches(host, path)
  }

  /** Route i may serve the request: it matches, and no matching rule is longer. Ties may go either way. */
  ghost predicate Selected(routes: seq<Route>, host: string, path: string, i: nat) {
    && i < |routes|
    && RouteMatches(routes[i], host, path)
    && forall j :: 0 <= j < |routes| && RouteMatches(routes[j], host, path) ==> |routes[j].rule| <= |routes[i].rule|
  }

  /** An exclusion that ends in a slash exempts what begins with it, any other exactly itself. */
  predicate Exempts(exclusion: string, path: string) {
    if EndsInSlash(exclusion) then exclusion <= path else exclusion == path
  }

  ghost predicate Excluded(paths: seq<string>, path: string) {
    exists i :: 0 <= i < |paths| && Exempts(paths[i], path)
  }

  /** The policy: what the middlewares of a request to the host should be. */
  ghost function Policy(cfg: Config, ing: Ingress, path: string): seq<NamespacedName> {
    var base := if |ing.middlewares| > 0 then ing.middlewares else cfg.defaultMiddlewares;
    if !AsksForAuth(ing) || cfg.auth.pathPrefix <= path || Excluded(ing.auth.value.excludePathPrefixes, path)
    then base
    else base + [cfg.auth.middleware]
  }

  ghost predicate LiteralPolicy(cfg: Config, ing: Ingress) {
    ing.Protected() ==>
      && LiteralPath(cfg.auth.pathPrefix)
      && forall p :: p in ing.auth.value.excludePathPrefixes ==> LiteralPath(p)
  }

  /** The catch-all rule is strictly shorter than any rule with a path, hence never preferred to one. */
  lemma FallbackIsShortest(host: string, paths: PathMatch)
    requires !paths.AnyPath?
    ensures |Render(Rule(host, AnyPath))| < |Render(Rule(host, paths))|
  {
    var any := Render(Rule(host, AnyPath));
    assert |any| == 6 + |host| + 2;
    match paths
    case Prefix(p) => assert |Render(Rule(host, paths))| == 6 + |host| + 18 + |p| + 2;
    case Exact(p) => assert |Render(Rule(host, paths))| == 6 + |host| + 12 + |p| + 2;
  }

  /** The rule meant by row i of a compiled protected table. */
  ghost function RowRule(cfg: Config, ing: Ingress, i: nat): Rule
    requires ing.Protected()
  {
    var paths := ing.auth.value.excludePathPrefixes;
    if i == 0 then Rule(ing.host, Prefix(cfg.auth.pathPrefix))
    else if i <= |paths| then ExcludedRule(ing.host, paths[i - 1])
    else Rule(ing.host, AnyPath)
  }

  lemma RowIsWritten(cfg: Config, app: NamespacedName, ing: Ingress, ports: seq<string>, i: nat)
    requires Compile(cfg, app, ing, ports).Success? && ing.Protected()
    requires i < |Compile(cfg, app, ing, ports).value|
    ensures |Compile(cfg, app, ing, ports).value| == |ing.auth.value.excludePathPrefixes| + 2
    ensures Compile(cfg, app, ing, ports).value[i].rule == Render(RowRule(cfg, ing, i))
    ensures Compile(cfg, app, ing, ports).value[i].middlewares
         == BaseMiddlewares(cfg, ing)
            + if i == |ing.auth.value.excludePathPrefixes| + 1 then [cfg.auth.middleware] else []
  {
  }

  lemma RowIsLiteral(cfg: Config, ing: Ingress, i: nat)
    requires ValidHostname(ing.host) && ing.Protected() && LiteralPolicy(cfg, ing)
    ensures LiteralRule(RowRule(cfg, ing, i))
  {
    HostnameHasNoBacktick(ing.host);
  }

  /** Row i of the table reads back as the rule it was written for, and only the last row is the catch-all. */
  lemma RowsReadBack(cfg: Config, app: NamespacedName, ing: Ingress, ports: seq<string>, i: nat)
    requires Compile(cfg, app, ing, ports).Success? && ing.Protected() && LiteralPolicy(cfg, ing)
    requires i < |Compile(cfg, app, ing, ports).value|
    ensures var routes := Compile(cfg, app, ing, ports).value;
            && Read(routes[i].rule) == Some(RowRule(cfg, ing, i))
            && (i < |routes| - 1 ==> |routes[|routes| - 1].rule| < |routes[i].rule|)
  {
    RowIsWritten(cfg, app, ing, ports, i);
    RowIsLiteral(cfg, ing, i);
    ReadUndoesRender(RowRule(cfg, ing, i));
    var last := |ing.auth.value.excludePathPrefixes| + 1;
    if i < last {
      RowIsWritten(cfg, app, ing, ports, last);
      FallbackIsShortest(ing.host, RowRule(cfg, ing, i).paths);
    }
  }

  lemma UnprotectedTable(cfg: Config, app: NamespacedName, ing: Ingress, ports: seq<string>, path: string)
    requires Compile(cfg, app, ing, ports).Success? && !ing.Protected()
    ensures var routes := Compile(cfg, app, ing, ports).value;
            |routes| == 1 && RouteMatches(routes[0], ing.host, path) && routes[0].middlewares == BaseMiddlewares(cfg, ing)
  {
    HostnameHasNoBacktick(ing.host);
    ReadUndoesRender(Rule(ing.host, AnyPath));
  }

  /** If the catch-all is selected, no other row matches. */
  lemma CatchAllIsLastResort(
    cfg: Config, app: NamespacedName, ing: Ingress, ports: seq<string>, path: string, i: nat, j: nat)
    requires Compile(cfg, app, ing, ports).Success? && LiteralPolicy(cfg, ing) && ing.Protected()
    requires Selected(Compile(cfg, app, ing, ports).value, ing.host, path, i)
    requires j < i == |ing.auth.value.excludePathPrefixes| + 1
    ensures !RowRule(cfg, ing, j).Matches(ing.host, path)
  {
    RowIsWritten(cfg, app, ing, ports, j);
    RowsReadBack(cfg, app, ing, ports, j);
    assert !RouteMatches(Compile(cfg, app, ing, ports).value[j], ing.host, path);
  }

  /** The catch-all is selected only for a path that neither the auth prefix nor an exclusion matches. */
  lemma LastRowGuards(cfg: Config, app: NamespacedName, ing: Ingress, ports: seq<string>, path: string, i: nat)
    requires Compile(cfg, app, ing, ports).Success? && LiteralPolicy(cfg, ing) && ing.Protected()
    requires Selected(Compile(cfg, app, ing, ports).value, ing.host, path, i)
    requires i == |ing.auth.value.excludePathPrefixes| + 1
    ensures !(cfg.auth.pathPrefix <= path) && !Excluded(ing.auth.value.excludePathPrefixes, path)
  {
    var paths := ing.auth.value.excludePathPrefixes;
    CatchAllIsLastResort(cfg, app, ing, ports, path, i, 0);
    forall k: nat | k < |paths|
      ensures !Exempts(paths[k], path)
    {
      CatchAllIsLastResort(cfg, app, ing, ports, path, i, k + 1);
    }
  }

  /** Any other row is selected only for a path that the auth prefix or an exclusion matches. */
  lemma OtherRowsExempt(cfg: Config, app: NamespacedName, ing: Ingress, ports: seq<string>, path: string, i: nat)
    requires Compile(cfg, app, ing, ports).Success? && LiteralPolicy(cfg, ing) && ing.Protected()
    requires Selected(Compile(cfg, app, ing, ports).value, ing.host, path, i)
    requires i <= |ing.auth.value.excludePathPrefixes|
    ensures cfg.auth.pathPrefix <= path || Excluded(ing.auth.value.excludePathPrefixes, path)
  {
    RowsReadBack(cfg, app, ing, ports, i);
    if i > 0 {
      assert RowRule(cfg, ing, i) == ExcludedRule(ing.host, ing.auth.value.excludePathPrefixes[i - 1]);
    }
  }

  /** A selected row carries the middlewares the policy asks for. */
  lemma ProtectedTable(cfg: Config, app: NamespacedName, ing: Ingress, ports: seq<string>, path: string, i: nat)
    requires Compile(cfg, app, ing, ports).Success? && LiteralPolicy(cfg, ing) && ing.Protected()
    requires Selected(Compile(cfg, app, ing, ports).value, ing.host, path, i)
    ensures Compile(cfg, app, ing, ports).value[i].middlewares == Policy(cfg, ing, path)
  {
    RowIsWritten(cfg, app, ing, ports, i);
    if i == |ing.auth.value.excludePathPrefixes| + 1 {
      LastRowGuards(cfg, app, ing, ports, path, i);
    } else {
      OtherRowsExempt(cfg, app, ing, ports, path, i);
    }
  }

  /** For every path on the host some route is selected, and every selected route carries the policy's middlewares. */
  lemma CompiledTableMeansPolicy(cfg: Config, app: NamespacedName, ing: Ingress, ports: seq<string>, path: string)
    requires Compile(cfg, app, ing, ports).Success? && LiteralPolicy(cfg, ing)
    ensures var routes := Compile(cfg, app, ing, ports).value;
            && (exists i: nat :: Selected(routes, ing.host, path, i))
            && forall i: nat :: Selected(routes, ing.host, path, i) ==> routes[i].middlewares == Policy(cfg, ing, path)
  {
    var routes := Compile(cfg, app, ing, ports).value;
    if ing.Protected() {
      var last := |ing.auth.value.excludePathPrefixes| + 1;
      assert |routes| == last + 1 by { RowIsWritten(cfg, app, ing, ports, 0); }
      RowsReadBack(cfg, app, ing, ports, last);
      LongestExists(routes, ing.host, path, last);
      forall i: nat | Selected(routes, ing.host, path, i)
        ensures routes[i].middlewares == Policy(cfg, ing, path)
      {
        ProtectedTable(cfg, app, ing, ports, path, i);
      }
    } else {
      UnprotectedTable(cfg, app, ing, ports, path);
      LongestExists(routes, ing.host, path, 0);
    }
  }

  lemma {:induction false} LongestIndex(good: seq<bool>, lengths: seq<nat>) returns (best: nat)
    requires |good| == |lengths| && true in good
    ensures best < |good| && good[best]
    ensures forall j :: 0 <= j < |good| && good[j] ==> lengths[j] <= lengths[best]
  {
    var last := |good| - 1;
    if last > 0 && true in good[..last] {
      best := LongestIndex(good[..last], lengths[..last]);
      if good[last] && lengths[best] < lengths[last] {
        best := last;
      }
    } else {
      best := last;
      assert good == good[..last] + [good[last]];
    }
  }

  lemma LongestExists(routes: seq<Route>, host: string, path: string, some: nat)
    requires some < |routes| && RouteMatches(routes[some], host, path)
    ensures exists i: nat :: Selected(routes, host, path, i)
  {
    var good := seq(|routes|, i requires 0 <= i < |routes| => RouteMatches(routes[i], host, path));
    var lengths: seq<nat> := seq(|routes|, i requires 0 <= i < |routes| => |routes[i].rule|);
    assert good[some];
    var best := LongestIndex(good, lengths);
    assert forall j :: 0 <= j < |routes| ==> good[j] == RouteMatches(routes[j], host, path);
    assert Selected(routes, host, path, best);
  }

  // ---------- Where requests go ----------

  /** The Application's own service, on the port asked for or else the first one called http or web. */
  ghost predicate IsOwn(app: NamespacedName, ing: Ingress, ports: seq<string>, b: Backend) {
    && b.service == app
    && (if ing.portName != "" then b.port == ing.portName else FirstOf(ports, {"http", "web"}, b.port))
  }

  predicate IsAuth(cfg: Config, b: Backend) {
    b.service == cfg.auth.serviceName && b.port == cfg.auth.servicePort
  }

  /** How an exclusion's rule compares in length with a prefix rule: an exact rule is written six characters shorter. */
  function Weight(exclusion: string): int {
    if EndsInSlash(exclusion) then |exclusion| else |exclusion| - 6
  }

  /** Some exclusion that exempts the path has a rule at least as heavy. */
  ghost predicate Contested(ing: Ingress, path: string, weight: int)
    requires AsksForAuth(ing)
  {
    exists i :: 0 <= i < |ing.auth.value.excludePathPrefixes|
                && Exempts(ing.auth.value.excludePathPrefixes[i], path)
                && weight <= Weight(ing.auth.value.excludePathPrefixes[i])
  }

  ghost predicate AllGo(routes: seq<Route>, host: string, path: string, wanted: Backend -> bool) {
    forall i: nat {:trigger Selected(routes, host, path, i)} :: Selected(routes, host, path, i) ==> wanted(routes[i].backend)
  }

  ghost predicate SomeGo(routes: seq<Route>, host: string, path: string, wanted: Backend -> bool) {
    exists i: nat {:trigger Selected(routes, host, path, i)} :: Selected(routes, host, path, i) && wanted(routes[i].backend)
  }

  /**
   Where requests for the path go, whichever of the longest rules is taken: to the Application's service, except that with
   authentication what begins with the auth prefix goes to the auth service, provided no exclusion that exempts the path
   has a longer rule; when the longest such rule is just as long, either may happen.
   */
  ghost predicate GoesWhereWanted(
    routes: seq<Route>, cfg: Config, app: NamespacedName, ing: Ingress, ports: seq<string>, path: string) {
    var own, auth := (b: Backend) => IsOwn(app, ing, ports, b), (b: Backend) => IsAuth(cfg, b);
    var weight := |cfg.auth.pathPrefix|;
    if !AsksForAuth(ing) || !(cfg.auth.pathPrefix <= path) || Contested(ing, path, weight + 1)
    then AllGo(routes, ing.host, path, own)
    else if !Contested(ing, path, weight) then AllGo(routes, ing.host, path, auth)
    else SomeGo(routes, ing.host, path, own) && SomeGo(routes, ing.host, path, auth)
  }

  lemma OwnPort(app: NamespacedName, ing: Ingress, ports: seq<string>)
    requires ResolvePort(ing.portName, ports) != ""
    ensures IsOwn(app, ing, ports, Backend(app, ResolvePort(ing.portName, ports)))
  {
    ResolvesFirst(ports);
  }

  /** The first row goes to the auth service, every other to the Application's. */
  lemma RowGoes(cfg: Config, app: NamespacedName, ing: Ingress, ports: seq<string>, i: nat)
    requires Compile(cfg, app, ing, ports).Success? && ing.Protected() && i < |Compile(cfg, app, ing, ports).value|
    ensures var b := Compile(cfg, app, ing, ports).value[i].backend;
            if i == 0 then IsAuth(cfg, b) else IsOwn(app, ing, ports, b)
  {
    OwnPort(app, ing, ports);
  }

  /** Row k + 1 is for exclusion k: it matches what that exempts, and compares in length with the first row by weight. */
  ghost predicate ExclusionRanked(routes: seq<Route>, cfg: Config, ing: Ingress, path: string, k: nat)
    requires AsksForAuth(ing) && k < |ing.auth.value.excludePathPrefixes| && |routes| > k + 1
  {
    var exclusion := ing.auth.value.excludePathPrefixes[k];
    && (RouteMatches(routes[k + 1], ing.host, path) <==> Exempts(exclusion, path))
    && |routes[k + 1].rule| - |routes[0].rule| == Weight(exclusion) - |cfg.auth.pathPrefix|
  }

  /** A row for the auth prefix, one for each exclusion, and a shorter one for everything. */
  ghost predicate Ranked(routes: seq<Route>, cfg: Config, ing: Ingress, path: string)
    requires AsksForAuth(ing)
  {
    && |routes| == |ing.auth.value.excludePathPrefixes| + 2
    && (RouteMatches(routes[0], ing.host, path) <==> cfg.auth.pathPrefix <= path)
    && |routes[|routes| - 1].rule| < |routes[0].rule|
    && (forall k: nat {:trigger ExclusionRanked(routes, cfg, ing, path, k)} ::
          k < |ing.auth.value.excludePathPrefixes| ==> ExclusionRanked(routes, cfg, ing, path, k))
  }

  lemma RowMatches(cfg: Config, app: NamespacedName, ing: Ingress, ports: seq<string>, path: string, i: nat)
    requires Compile(cfg, app, ing, ports).Success? && ing.Protected() && LiteralPolicy(cfg, ing)
    requires i < |Compile(cfg, app, ing, ports).value|
    ensures RouteMatches(Compile(cfg, app, ing, ports).value[i], ing.host, path)
            <==> RowRule(cfg, ing, i).Matches(ing.host, path)
  {
    RowsReadBack(cfg, app, ing, ports, i);
  }

  lemma RowLength(cfg: Config, app: NamespacedName, ing: Ingress, ports: seq<string>, i: nat)
    requires Compile(cfg, app, ing, ports).Success? && ing.Protected()
    requires i < |Compile(cfg, app, ing, ports).value|
    ensures |Compile(cfg, app, ing, ports).value[i].rule| == RuleSize(ing.host, RowRule(cfg, ing, i).paths)
    ensures RowRule(cfg, ing, i).host == ing.host
  {
    RowIsWritten(cfg, app, ing, ports, i);
    RuleLength(ing.host, RowRule(cfg, ing, i).paths);
  }

  function RuleSize(host: string, paths: PathMatch): nat {
    match paths
    case AnyPath => 8 + |host|
    case Prefix(p) => 26 + |host| + |p|
    case Exact(p) => 20 + |host| + |p|
  }

  lemma RuleLength(host: string, paths: PathMatch)
    ensures |Render(Rule(host, paths))| == RuleSize(host, paths)
  {
  }

  lemma ExclusionRow(cfg: Config, app: NamespacedName, ing: Ingress, ports: seq<string>, path: string, k: nat)
    requires Compile(cfg, app, ing, ports).Success? && ing.Protected() && LiteralPolicy(cfg, ing)
    requires k < |ing.auth.value.excludePathPrefixes| && k + 1 < |Compile(cfg, app, ing, ports).value|
    ensures ExclusionRanked(Compile(cfg, app, ing, ports).value, cfg, ing, path, k)
  {
    RowMatches(cfg, app, ing, ports, path, k + 1);
    RowLength(cfg, app, ing, ports, 0);
    RowLength(cfg, app, ing, ports, k + 1);
  }

  lemma TableIsRanked(cfg: Config, app: NamespacedName, ing: Ingress, ports: seq<string>, path: string)
    requires Compile(cfg, app, ing, ports).Success? && ing.Protected() && LiteralPolicy(cfg, ing)
    ensures Ranked(Compile(cfg, app, ing, ports).value, cfg, ing, path)
  {
    RowIsWritten(cfg, app, ing, ports, 0);
    RowMatches(cfg, app, ing, ports, path, 0);
    RowsReadBack(cfg, app, ing, ports, 0);
    forall k: nat | k < |ing.auth.value.excludePathPrefixes|
      ensures ExclusionRanked(Compile(cfg, app, ing, ports).value, cfg, ing, path, k)
    {
      ExclusionRow(cfg, app, ing, ports, path, k);
    }
  }

  /** The first row is never selected where it does not match or a matching exclusion's rule is longer. */
  lemma AuthRowOutdone(routes: seq<Route>, cfg: Config, ing: Ingress, path: string)
    requires AsksForAuth(ing) && Ranked(routes, cfg, ing, path)
    requires !(cfg.auth.pathPrefix <= path) || Contested(ing, path, |cfg.auth.pathPrefix| + 1)
    ensures !Selected(routes, ing.host, path, 0)
  {
    var paths := ing.auth.value.excludePathPrefixes;
    if k: nat :| k < |paths| && Exempts(paths[k], path) && |cfg.auth.pathPrefix| + 1 <= Weight(paths[k]) {
      assert ExclusionRanked(routes, cfg, ing, path, k);
    }
  }

  /** Below a weight that no matching exclusion reaches, every matching row but the first is shorter by the difference. */
  lemma RowWeighsLess(routes: seq<Route>, cfg: Config, ing: Ingress, path: string, weight: int, i: nat)
    requires AsksForAuth(ing) && Ranked(routes, cfg, ing, path)
    requires |cfg.auth.pathPrefix| <= weight && !Contested(ing, path, weight)
    requires 0 < i < |routes| && RouteMatches(routes[i], ing.host, path)
    ensures |routes[i].rule| < |routes[0].rule| + weight - |cfg.auth.pathPrefix|
  {
    if i <= |ing.auth.value.excludePathPrefixes| {
      assert ExclusionRanked(routes, cfg, ing, path, i - 1);
    }
  }

  /** Where it matches and no matching exclusion's rule is as long, only the first row is selected. */
  lemma AuthRowAlone(routes: seq<Route>, cfg: Config, ing: Ingress, path: string, i: nat)
    requires AsksForAuth(ing) && Ranked(routes, cfg, ing, path)
    requires cfg.auth.pathPrefix <= path && !Contested(ing, path, |cfg.auth.pathPrefix|)
    requires Selected(routes, ing.host, path, i)
    ensures i == 0
  {
    if i > 0 {
      RowWeighsLess(routes, cfg, ing, path, |cfg.auth.pathPrefix|, i);
    }
  }

  /** With the same length as a longest matching rule, a matching one is selected as well. */
  lemma AsLongIsSelected(routes: seq<Route>, host: string, path: string, i: nat, k: nat)
    requires Selected(routes, host, path, i) && k < |routes| && RouteMatches(routes[k], host, path)
    requires |routes[i].rule| <= |routes[k].rule|
    ensures Selected(routes, host, path, k)
  {
  }

  lemma AuthRowSelected(routes: seq<Route>, cfg: Config, ing: Ingress, path: string)
    requires AsksForAuth(ing) && Ranked(routes, cfg, ing, path)
    requires cfg.auth.pathPrefix <= path && !Contested(ing, path, |cfg.auth.pathPrefix| + 1)
    ensures Selected(routes, ing.host, path, 0)
  {
    forall j | 0 <= j < |routes| && RouteMatches(routes[j], ing.host, path)
      ensures |routes[j].rule| <= |routes[0].rule|
    {
      if j > 0 {
        RowWeighsLess(routes, cfg, ing, path, |cfg.auth.pathPrefix| + 1, j);
      }
    }
  }

  /** Where a matching exclusion's rule is as long and none is longer, both are selected. */
  lemma AuthRowTies(routes: seq<Route>, cfg: Config, ing: Ingress, path: string) returns (k: nat)
    requires AsksForAuth(ing) && Ranked(routes, cfg, ing, path)
    requires cfg.auth.pathPrefix <= path && Contested(ing, path, |cfg.auth.pathPrefix|)
    requires !Contested(ing, path, |cfg.auth.pathPrefix| + 1)
    ensures k > 0 && Selected(routes, ing.host, path, 0) && Selected(routes, ing.host, path, k)
  {
    var paths := ing.auth.value.excludePathPrefixes;
    var e: nat :| e < |paths| && Exempts(paths[e], path) && |cfg.auth.pathPrefix| <= Weight(paths[e]);
    k := e + 1;
    AuthRowSelected(routes, cfg, ing, path);
    assert ExclusionRanked(routes, cfg, ing, path, e);
    AsLongIsSelected(routes, ing.host, path, 0, k);
  }

  /** Requests go where the policy wants them, by longest-rule priority, however ties are broken. */
  lemma CompiledTableGoesWhereWanted(
    cfg: Config, app: NamespacedName, ing: Ingress, ports: seq<string>, path: string)
    requires Compile(cfg, app, ing, ports).Success? && LiteralPolicy(cfg, ing)
    ensures GoesWhereWanted(Compile(cfg, app, ing, ports).value, cfg, app, ing, ports, path)
  {
    var routes := Compile(cfg, app, ing, ports).value;
    if !ing.Protected() {
      OwnPort(app, ing, ports);
    } else {
      forall i: nat | i < |routes|
        ensures if i == 0 then IsAuth(cfg, routes[i].backend) else IsOwn(app, ing, ports, routes[i].backend)
      {
        RowGoes(cfg, app, ing, ports, i);
      }
      TableIsRanked(cfg, app, ing, ports, path);
      if !(cfg.auth.pathPrefix <= path) || Contested(ing, path, |cfg.auth.pathPrefix| + 1) {
        AuthRowOutdone(routes, cfg, ing, path);
      } else if !Contested(ing, path, |cfg.auth.pathPrefix|) {
        forall i: nat | Selected(routes, ing.host, path, i)
          ensures i == 0
        {
          AuthRowAlone(routes, cfg, ing, path, i);
        }
      } else {
        var k := AuthRowTies(routes, cfg, ing, path);
        assert IsOwn(app, ing, ports, routes[k].backend) && IsAuth(cfg, routes[0].backend);
      }
    }
  }

  /** The auth middleware guards a path exactly when neither the auth prefix nor an exclusion matches it. */
  lemma AuthGuardsExactlyTheRest(cfg: Config, app: NamespacedName, ing: Ingress, ports: seq<string>, path: string, i: nat)
    requires Compile(cfg, app, ing, ports).Success? && LiteralPolicy(cfg, ing) && ing.Protected()
    requires Selected(Compile(cfg, app, ing, ports).value, ing.host, path, i)
    ensures Compile(cfg, app, ing, ports).value[i].middlewares == BaseMiddlewares(cfg, ing) + [cfg.auth.middleware]
            <==> !(cfg.auth.pathPrefix <= path) && !Excluded(ing.auth.value.excludePathPrefixes, path)
  {
    CompiledTableMeansPolicy(cfg, app, ing, ports, path);
    assert |BaseMiddlewares(cfg, ing)| < |BaseMiddlewares(cfg, ing) + [cfg.auth.middleware]|;
  }

  // ---------- The mutator ----------

  const DNS_TARGET := "external-dns.alpha.kubernetes.io/target"

  /** The object the mutator edits in place. */
  class RouteObject {
    var annotations: map<string, string>
    var routes: seq<Route>

    constructor (annotations: map<string, string>, routes: seq<Route>)
      ensures this.annotations == annotations && this.routes == routes
    {
      this.annotations, this.routes := annotations, routes;
    }
  }

  method CopyMiddlewares(middlewares: seq<NamespacedName>) returns (result: seq<NamespacedName>)
    ensures result == middlewares
  {
    result := [];
    for i := 0 to |middlewares|
      invariant result == middlewares[..i]
    {
      result := result + [middlewares[i]];
    }
  }

  method FindPort(explicit: string, ports: seq<string>) returns (port: string)
    ensures port == ResolvePort(explicit, ports)
  {
    port := explicit;
    if port == "" {
      var i := 0;
      while i < |ports|
        invariant 0 <= i <= |ports|
        invariant ResolvePort("", ports) == ResolvePort("", ports[i..])
      {
        assert ports[i..][1..] == ports[i + 1..];
        if ports[i] == "http" {
          return "http";
        }
        if ports[i] == "web" {
          return "web";
        }
        i := i + 1;
      }
    }
  }

  /** An invalid auth configuration is found only after the annotation was written; the routes are then untouched. */
  method Mutate(cfg: Config, app: NamespacedName, ing: Ingress, ports: seq<string>, obj: RouteObject)
    returns (error: Option<IngressError>)
    modifies obj
    ensures match Compile(cfg, app, ing, ports)
            case Success(routes) => error.None? && obj.routes == routes
            case Failure(e) => error == Some(e) && obj.routes == old(obj.routes)
    ensures obj.annotations == if error.None? || error == Some(InvalidAuthConfig)
                               then old(obj.annotations)[DNS_TARGET := cfg.cnameTarget]
                               else old(obj.annotations)
  {
    if !ValidHostname(ing.host) {
      return Some(BadHost);
    }
    var port := FindPort(ing.portName, ports);
    if port == "" {
      return Some(NoIngressRoutePort);
    }
    obj.annotations := obj.annotations[DNS_TARGET := cfg.cnameTarget];
    var middlewares := cfg.defaultMiddlewares;
    if |ing.middlewares| > 0 {
      middlewares := CopyMiddlewares(ing.middlewares);
    }
    var target := Backend(app, port);
    if ing.auth.Some? && ing.auth.value.enabled {
      if !cfg.auth.Valid() {
        return Some(InvalidAuthConfig);
      }
      var copy := CopyMiddlewares(middlewares);
      ghost var first := Route(Render(Rule(ing.host, Prefix(cfg.auth.pathPrefix))), middlewares,
                               Backend(cfg.auth.serviceName, cfg.auth.servicePort));
      obj.routes := [Route("Host(`" + ing.host + "`) && PathPrefix(`" + cfg.auth.pathPrefix + "`)", copy,
                           Backend(cfg.auth.serviceName, cfg.auth.servicePort))];
      assert obj.routes == [first] by { assert obj.routes[0].rule == first.rule; }
      var paths := ing.auth.value.excludePathPrefixes;
      for i := 0 to |paths|
        invariant obj.routes == [first] + ExcludedRoutes(ing.host, paths[..i], middlewares, target)
        invariant obj.annotations == old(obj.annotations)[DNS_TARGET := cfg.cnameTarget]
      {
        var rule;
        if HasSlashSuffix(paths[i]) {
          rule := "Host(`" + ing.host + "`) && PathPrefix(`" + paths[i] + "`)";
        } else {
          rule := "Host(`" + ing.host + "`) && Path(`" + paths[i] + "`)";
        }
        assert rule == Render(ExcludedRule(ing.host, paths[i]));
        copy := CopyMiddlewares(middlewares);
        obj.routes := obj.routes + [Route(rule, copy, target)];
        OneMoreExcluded(ing.host, paths, i, middlewares, target);
      }
      assert paths[..|paths|] == paths;
      copy := CopyMiddlewares(middlewares + [cfg.auth.middleware]);
      obj.routes := obj.routes + [Route("Host(`" + ing.host + "`)", copy, target)];
    } else {
      var copy := CopyMiddlewares(middlewares);
      obj.routes := [Route("Host(`" + ing.host + "`)", copy, target)];
    }
    return None;
  }
}
