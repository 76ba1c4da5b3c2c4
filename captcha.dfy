/**
 * The middleware itself: its configuration and how construction normalises
 * and validates it, the gates that decide whether a request is subject to
 * rate limiting, the three stores it keeps, the challenge verification, and
 * how a snapshot read from the shared state file is folded back in.
 *
 * Time is a logical clock `now` in seconds, passed to every operation that
 * reads or writes a store. Library code that is not part of this model
 * (CIDR matching, the good-bot lookup, IP parsing and masking, the regular
 * expression engine, the file system and template parser that load the
 * challenge template) is given as functions in `Oracles`.
 */
module Captcha {
  import opened Base
  import opened GoStrings
  import opened UrlQuery
  import opened TtlCache
  import opened RateEngine
  import opened StateSync
  import opened Classifier
  import opened ClientIp

  /** The plugin's configuration; the keys, stats page and log level are not part of this model. */
  datatype Config = Config(
    rateLimit: Uint,
    window: int,
    ipv4SubnetMask: int,
    ipv6SubnetMask: int,
    ipForwardedHeader: string,
    ipDepth: int,
    protectParameters: string,
    protectRoutes: seq<string>,
    excludeRoutes: seq<string>,
    protectFileExtensions: seq<string>,
    protectHttpMethods: seq<string>,
    goodBots: seq<string>,
    exemptIps: seq<string>,
    exemptUserAgents: seq<string>,
    challengeURL: string,
    challengeTmpl: string,
    challengeStatusCode: int,
    captchaProvider: string,
    persistentStateFile: string,
    mode: string)

  /** The defaults `CreateConfig` fills in. */
  const DefaultConfig := Config(20, 86400, 16, 64, "", 0, "false", [], [], [], [], [], [], [],
                                "/challenge", "challenge.tmpl.html", 0, "turnstile", "", "prefix")

  /** Library behaviour the middleware relies on but that is not part of this model. */
  datatype Oracles = Oracles(
    ipExcluded: (string, seq<string>) -> bool,
    goodBot: (string, seq<string>) -> bool,
    regexMatch: (string, string) -> bool,
    regexCompiles: string -> bool,
    cidrParses: string -> bool,
    parseIp: string -> Option<IpFamily>,
    subnet: (string, IpFamily, int) -> string,
    statTemplate: string -> FileStat,
    templateParses: string -> bool,
    defaultTemplateParses: bool)

  /** What `os.Stat` says of the template path: absent, failing for another reason, or present. */
  datatype FileStat = FileMissing | StatFailed | FileFound

  /** What the middleware reads of an incoming request. */
  datatype Request = Request(
    verb: string,
    path: string,
    query: map<string, seq<string>>,
    header: map<string, string>,
    remoteAddr: string,
    userAgent: string)

  /** The front-end script, the form field prefix and the verification endpoint of a provider. */
  datatype CaptchaConfig = CaptchaConfig(js: string, key: string, validate: string)

  /** How the call to the provider's verification endpoint ended. */
  datatype ProviderOutcome = PostFailed | Undecodable | Decoded(success: bool)

  datatype ConfigError =
    | NoProtectedRoutes
    | InvalidProtectRegex(pattern: string)
    | InvalidExcludeRegex(pattern: string)
    | UnknownMode(mode: string)
    | ChallengeUrlIsSite
    | DefaultTemplateUnparsable
    | TemplateStatFailed(path: string)
    | TemplateUnparsable(path: string)
    | InvalidCidr(cidr: string)
    | InvalidIpv4Mask(width: int)
    | InvalidIpv6Mask(width: int)
    | InvalidProvider(name: string)

  /** The challenge URL that means "challenge on the page that tripped the limit". */
  const ChallengeMarker := "?challenge=true"

  /** Private and loopback ranges that are always exempt, ahead of the configured ones. */
  const BuiltinExemptRanges := ["127.0.0.0/8", "10.0.0.0/8", "172.16.0.0/12", "192.168.0.0/16", "fc00::/8"]

  const StatusOK := 200
  const StatusFound := 302
  const StatusBadRequest := 400
  const StatusForbidden := 403
  const StatusTooManyRequests := 429
  const StatusInternalServerError := 500

  /** `ChallengeOnPage`. */
  predicate ChallengeOnPage(cfg: Config)
  {
    cfg.challengeURL == ChallengeMarker
  }

  /** The provider table; an unknown provider has no entry. */
  function ProviderConfig(name: string): (r: Option<CaptchaConfig>)
    ensures r.Some? <==> name == "hcaptcha" || name == "recaptcha" || name == "turnstile"
  {
    if name == "hcaptcha" then
      Some(CaptchaConfig("https://hcaptcha.com/1/api.js", "h-captcha", "https://api.hcaptcha.com/siteverify"))
    else if name == "recaptcha" then
      Some(CaptchaConfig("https://www.google.com/recaptcha/api.js", "g-recaptcha",
                         "https://www.google.com/recaptcha/api/siteverify"))
    else if name == "turnstile" then
      Some(CaptchaConfig("https://challenges.cloudflare.com/turnstile/v0/api.js", "cf-turnstile",
                         "https://challenges.cloudflare.com/turnstile/v0/siteverify"))
    else None
  }

  /** The first entry, from the left, that `ok` refuses. */
  function FirstRefused(items: seq<string>, ok: string -> bool): (r: Option<string>)
    ensures r.None? <==> forall i :: 0 <= i < |items| ==> ok(items[i])
    ensures r.Some? ==> r.value in items && !ok(r.value)
  {
    if items == [] then None
    else if !ok(items[0]) then Some(items[0])
    else FirstRefused(items[1..], ok)
  }

  lemma {:induction false} FirstRefusedAt(items: seq<string>, ok: string -> bool, i: nat)
    requires i < |items| && !ok(items[i])
    requires forall k :: 0 <= k < i ==> ok(items[k])
    ensures FirstRefused(items, ok) == Some(items[i])
  {
    if i > 0 {
      FirstRefusedAt(items[1..], ok, i - 1);
    }
  }

  /** Every range the exemption test consults: the built-in ones, then the configured ones. */
  function ExemptRanges(cfg: Config): seq<string>
  {
    BuiltinExemptRanges + cfg.exemptIps
  }

  /** Whether construction accepts a configuration, with no regard to the order of the checks. */
  predicate ConfigAccepted(cfg: Config, o: Oracles)
  {
    && PreparationAccepted(cfg, o)
    && 8 <= cfg.ipv4SubnetMask <= 32
    && 8 <= cfg.ipv6SubnetMask <= 128
    && ProviderConfig(cfg.captchaProvider).Some?
  }

  /** The part of `ConfigAccepted` checked while the configuration is normalised. */
  predicate PreparationAccepted(cfg: Config, o: Oracles)
  {
    && (|cfg.protectRoutes| > 0 || cfg.mode == "suffix")
    && (cfg.mode == "prefix" || cfg.mode == "suffix" || cfg.mode == "regex")
    && (cfg.mode == "regex" ==> forall i :: 0 <= i < |cfg.protectRoutes| ==> o.regexCompiles(cfg.protectRoutes[i]))
    && (cfg.mode == "regex" ==> forall i :: 0 <= i < |cfg.excludeRoutes| ==> o.regexCompiles(cfg.excludeRoutes[i]))
    && cfg.challengeURL != "/"
    && TemplateLoads(cfg, o)
    && (forall i :: 0 <= i < |ExemptRanges(cfg)| ==> o.cidrParses(ExemptRanges(cfg)[i]))
  }

  /** The challenge template loads: the configured file when it exists, the built-in one when it does not. */
  predicate TemplateLoads(cfg: Config, o: Oracles)
  {
    match o.statTemplate(cfg.challengeTmpl)
    case FileMissing => o.defaultTemplateParses
    case StatFailed => false
    case FileFound => o.templateParses(cfg.challengeTmpl)
  }

  /** The error loading the challenge template reports, if any. */
  function TemplateCheck(cfg: Config, o: Oracles): (r: Option<ConfigError>)
    ensures r.None? <==> TemplateLoads(cfg, o)
    ensures o.statTemplate(cfg.challengeTmpl) == FileMissing && r.Some? ==> r == Some(DefaultTemplateUnparsable)
  {
    match o.statTemplate(cfg.challengeTmpl)
    case FileMissing => if o.defaultTemplateParses then None else Some(DefaultTemplateUnparsable)
    case StatFailed => Some(TemplateStatFailed(cfg.challengeTmpl))
    case FileFound => if o.templateParses(cfg.challengeTmpl) then None else Some(TemplateUnparsable(cfg.challengeTmpl))
  }

  /**
   * The error construction reports: the checks run in the order the
   * constructor makes them, and the first that fails decides.
   */
  function ConfigCheck(cfg: Config, o: Oracles): (r: Option<ConfigError>)
    ensures r.None? <==> ConfigAccepted(cfg, o)
  {
    if PreparationCheck(cfg, o).Some? then PreparationCheck(cfg, o) else AssemblyCheck(cfg)
  }

  /**
   * The checks made while the configuration is normalised, the first
   * failure deciding: it reports an error exactly when the configuration
   * fails one of them, a missing route before anything else, and a refused
   * pattern or range is named in the error.
   */
  function PreparationCheck(cfg: Config, o: Oracles): (r: Option<ConfigError>)
    ensures r.None? <==> PreparationAccepted(cfg, o)
    ensures r == Some(NoProtectedRoutes) <==> |cfg.protectRoutes| == 0 && cfg.mode != "suffix"
    ensures r.Some? && r.value.InvalidProtectRegex? ==>
              cfg.mode == "regex" && r.value.pattern in cfg.protectRoutes && !o.regexCompiles(r.value.pattern)
    ensures r.Some? && r.value.InvalidExcludeRegex? ==>
              cfg.mode == "regex" && r.value.pattern in cfg.excludeRoutes && !o.regexCompiles(r.value.pattern)
    ensures r.Some? && r.value.UnknownMode? ==> r.value.mode == cfg.mode
    ensures r.Some? && r.value.InvalidCidr? ==>
              r.value.cidr in ExemptRanges(cfg) && !o.cidrParses(r.value.cidr)
    ensures r.Some? && r.value.InvalidCidr? ==> TemplateLoads(cfg, o) && cfg.challengeURL != "/"
  {
    if |cfg.protectRoutes| == 0 && cfg.mode != "suffix" then Some(NoProtectedRoutes)
    else if cfg.mode == "regex" && FirstRefused(cfg.protectRoutes, o.regexCompiles).Some? then
      Some(InvalidProtectRegex(FirstRefused(cfg.protectRoutes, o.regexCompiles).value))
    else if cfg.mode == "regex" && FirstRefused(cfg.excludeRoutes, o.regexCompiles).Some? then
      Some(InvalidExcludeRegex(FirstRefused(cfg.excludeRoutes, o.regexCompiles).value))
    else if cfg.mode != "regex" && cfg.mode != "prefix" && cfg.mode != "suffix" then Some(UnknownMode(cfg.mode))
    else if cfg.challengeURL == "/" then Some(ChallengeUrlIsSite)
    else if TemplateCheck(cfg, o).Some? then TemplateCheck(cfg, o)
    else if FirstRefused(ExemptRanges(cfg), o.cidrParses).Some? then
      Some(InvalidCidr(FirstRefused(ExemptRanges(cfg), o.cidrParses).value))
    else None
  }

  /** The checks made once the middleware value exists: the two mask widths, then the provider. */
  function AssemblyCheck(cfg: Config): (r: Option<ConfigError>)
    ensures r.None? <==>
              8 <= cfg.ipv4SubnetMask <= 32 && 8 <= cfg.ipv6SubnetMask <= 128 && ProviderConfig(cfg.captchaProvider).Some?
  {
    if cfg.ipv4SubnetMask < 8 || cfg.ipv4SubnetMask > 32 then Some(InvalidIpv4Mask(cfg.ipv4SubnetMask))
    else if cfg.ipv6SubnetMask < 8 || cfg.ipv6SubnetMask > 128 then Some(InvalidIpv6Mask(cfg.ipv6SubnetMask))
    else if ProviderConfig(cfg.captchaProvider).None? then Some(InvalidProvider(cfg.captchaProvider))
    else None
  }

  /**
   * The configuration as construction leaves it: exempt user agents
   * lower-cased, a blank challenge URL turned into the on-page marker, GET
   * and HEAD protected when no method is listed, `html` always among the
   * protected extensions, and an unset status code defaulted to 429 when
   * challenging on the page and 200 otherwise. Nothing else changes.
   */
  function Normalized(cfg: Config): (n: Config)
    ensures n.exemptUserAgents == LowerAll(cfg.exemptUserAgents)
    ensures n.challengeURL == if cfg.challengeURL == "" then ChallengeMarker else cfg.challengeURL
    ensures ChallengeOnPage(n) <==> cfg.challengeURL == "" || cfg.challengeURL == ChallengeMarker
    ensures |cfg.protectHttpMethods| == 0 ==> n.protectHttpMethods == ["GET", "HEAD"]
    ensures |cfg.protectHttpMethods| > 0 ==> n.protectHttpMethods == cfg.protectHttpMethods
    ensures "html" in n.protectFileExtensions
    ensures cfg.protectFileExtensions <= n.protectFileExtensions
    ensures "html" in cfg.protectFileExtensions ==> n.protectFileExtensions == cfg.protectFileExtensions
    ensures cfg.challengeStatusCode != 0 ==> n.challengeStatusCode == cfg.challengeStatusCode
    ensures cfg.challengeStatusCode == 0 && ChallengeOnPage(n) ==> n.challengeStatusCode == StatusTooManyRequests
    ensures cfg.challengeStatusCode == 0 && !ChallengeOnPage(n) ==> n.challengeStatusCode == StatusOK
    ensures n.(exemptUserAgents := cfg.exemptUserAgents, challengeURL := cfg.challengeURL,
               protectHttpMethods := cfg.protectHttpMethods, protectFileExtensions := cfg.protectFileExtensions,
               challengeStatusCode := cfg.challengeStatusCode) == cfg
  {
    var url := if cfg.challengeURL == "" then ChallengeMarker else cfg.challengeURL;
    var status :=
      if cfg.challengeStatusCode != 0 then cfg.challengeStatusCode
      else if url == ChallengeMarker then StatusTooManyRequests
      else StatusOK;
    cfg.(
      exemptUserAgents := LowerAll(cfg.exemptUserAgents),
      challengeURL := url,
      protectHttpMethods := if |cfg.protectHttpMethods| == 0 then ["GET", "HEAD"] else cfg.protectHttpMethods,
      protectFileExtensions :=
        if "html" in cfg.protectFileExtensions then cfg.protectFileExtensions else cfg.protectFileExtensions + ["html"],
      challengeStatusCode := status)
  }

  /** Normalising twice is normalising once: the stored configuration is a fixed point. */
  lemma NormalizedIdempotent(cfg: Config)
    ensures Normalized(Normalized(cfg)) == Normalized(cfg)
  {
    var n := Normalized(cfg);
    forall i | 0 <= i < |cfg.exemptUserAgents|
      ensures ToLower(ToLower(cfg.exemptUserAgents[i])) == ToLower(cfg.exemptUserAgents[i])
    {
      ToLowerIdempotent(cfg.exemptUserAgents[i]);
    }
    assert LowerAll(n.exemptUserAgents) == n.exemptUserAgents;
  }

  /** The defaults alone are refused: no route is protected in prefix mode. */
  lemma DefaultConfigNeedsRoutes(o: Oracles)
    ensures ConfigCheck(DefaultConfig, o) == Some(NoProtectedRoutes)
  {
  }

  /** `isGoodBot` answers false without looking anything up when parameters force a challenge. */
  predicate QueryForcesChallenge(cfg: Config, req: Request)
  {
    cfg.protectParameters == "true" && |req.query| > 0
  }

  /** Whether `isGoodBot` has to consult the good-bot lookup (and store its answer). */
  predicate BotLookedUp(cfg: Config, bots: Cache<bool>, req: Request, ip: string, now: nat)
  {
    !QueryForcesChallenge(cfg, req) && Get(bots, ip, now).None?
  }

  /** `isGoodBot`'s answer: false under forced challenge, else the stored verdict, else the lookup's. */
  function BotVerdict(cfg: Config, o: Oracles, bots: Cache<bool>, req: Request, ip: string, now: nat): bool
  {
    if QueryForcesChallenge(cfg, req) then false
    else match Get(bots, ip, now)
      case Some(verdict) => verdict
      case None => o.goodBot(ip, cfg.goodBots)
  }

  /** The bot store after `isGoodBot`: a looked-up verdict is stored under the client IP. */
  function BotCacheAfter(cfg: Config, o: Oracles, bots: Cache<bool>, req: Request, ip: string, now: nat): Cache<bool>
  {
    if BotLookedUp(cfg, bots, req, ip, now) then Set(bots, ip, o.goodBot(ip, cfg.goodBots), now) else bots
  }

  /**
   * A verdict that had to be looked up is remembered for the whole window:
   * a later request from the same IP, not forced by parameters, gets the
   * same verdict with no second lookup.
   */
  lemma BotVerdictRemembered(cfg: Config, o: Oracles, bots: Cache<bool>, req: Request, later: Request,
                             ip: string, now: nat, t: nat)
    requires BotLookedUp(cfg, bots, req, ip, now)
    requires !QueryForcesChallenge(cfg, later)
    requires now <= t && (bots.defaultExpiration <= 0 || t <= now + bots.defaultExpiration)
    ensures !BotLookedUp(cfg, BotCacheAfter(cfg, o, bots, req, ip, now), later, ip, t)
    ensures BotVerdict(cfg, o, BotCacheAfter(cfg, o, bots, req, ip, now), later, ip, t)
              == BotVerdict(cfg, o, bots, req, ip, now)
  {
    var after := BotCacheAfter(cfg, o, bots, req, ip, now);
    assert after.items[ip] == Entry(o.goodBot(ip, cfg.goodBots), ExpiryAt(bots, now));
  }

  /** The route test of the configured mode; any mode other than regex and suffix is prefix. */
  predicate RouteProtected(cfg: Config, o: Oracles, path: string)
  {
    if cfg.mode == "regex" then
      RegexProtected(path, cfg.protectRoutes, cfg.excludeRoutes, cfg.protectFileExtensions, o.regexMatch)
    else if cfg.mode == "suffix" then
      SuffixProtected(path, cfg.protectRoutes, cfg.excludeRoutes, cfg.protectFileExtensions)
    else PrefixProtected(path, cfg.protectRoutes, cfg.excludeRoutes, cfg.protectFileExtensions)
  }

  /** The first three gates of `shouldApply`, which run before the bot lookup. */
  predicate ReachesBotGate(cfg: Config, o: Oracles, exemptIps: seq<string>, verified: Cache<bool>,
                           req: Request, ip: string, now: nat)
  {
    && req.verb in cfg.protectHttpMethods
    && Get(verified, ip, now).None?
    && !o.ipExcluded(ip, exemptIps)
  }

  /**
   * `shouldApply`: a protected method, a caller who has not solved a
   * challenge, is not exempt, is not a good bot and has no exempt user
   * agent, on a protected route.
   */
  predicate Applies(cfg: Config, o: Oracles, exemptIps: seq<string>, bots: Cache<bool>, verified: Cache<bool>,
                    req: Request, ip: string, now: nat)
  {
    && ReachesBotGate(cfg, o, exemptIps, verified, req, ip, now)
    && !BotVerdict(cfg, o, bots, req, ip, now)
    && !SomePrefixOf(ToLower(req.userAgent), cfg.exemptUserAgents)
    && RouteProtected(cfg, o, req.path)
  }

  /** A form field's first value, or empty. */
  function FormValue(form: map<string, string>, key: string): string
  {
    if key in form then form[key] else ""
  }

  /**
   * Where a solved challenge sends the caller: the unescaped destination,
   * with an absent destination meaning the site root and a destination that
   * does not unescape falling back to the site root.
   */
  function RedirectTarget(destination: string): (u: string)
    ensures destination == "" ==> u == "/"
    ensures u == "/" || QueryUnescape(destination) == Some(u)
    ensures destination != "" && QueryUnescape(destination).Some? ==> u == QueryUnescape(destination).value
  {
    var d := if destination == "" then "%2F" else destination;
    RootUnescapes();
    match QueryUnescape(d)
    case Some(u) => u
    case None => "/"
  }

  lemma RootUnescapes()
    ensures QueryUnescape("%2F") == Some("/")
  {
    var s := "%2F";
    assert s[0] == '%' && IsHex(s[1]) && IsHex(s[2]);
    assert s[3..] == [] && QueryUnescape(s[3..]) == Some([]);
    assert Unhex(s[1]) * 16 + Unhex(s[2]) == 47;
    assert QueryUnescape(s) == Some([47 as char] + []);
    assert [47 as char] + [] == "/";
  }

  /**
   * The challenge page carries the escaped request URI as its destination,
   * so a solved challenge lands the caller back on the page they asked for.
   */
  lemma DestinationRoundTrip(requestUri: string)
    requires requestUri != [] && IsByteString(requestUri)
    ensures RedirectTarget(QueryEscape(requestUri)) == requestUri
  {
    UnescapeEscape(requestUri);
  }

  /** The live entries of the three stores, as `state.GetState` snapshots them. */
  function Snapshot(rate: Cache<Uint>, bots: Cache<bool>, verified: Cache<bool>, now: nat): (s: State)
    ensures forall k :: k in s.rate <==> Get(rate, k, now).Some?
    ensures forall k :: k in s.rate ==> Some(s.rate[k]) == Get(rate, k, now)
    ensures forall k :: k in s.bots <==> Get(bots, k, now).Some?
    ensures forall k :: k in s.bots ==> Some(s.bots[k]) == Get(bots, k, now)
    ensures forall k :: k in s.verified <==> Get(verified, k, now).Some?
    ensures forall k :: k in s.verified ==> Some(s.verified[k]) == Get(verified, k, now)
    ensures s.memory == map[]
  {
    State(Items(rate, now), Items(bots, now), Items(verified, now), map[])
  }

  /**
   * A reload never lowers a live count and never loses one from the file:
   * after it, every key that was live in memory or present in the file is
   * live with a count at least as large as either side's.
   */
  lemma ReloadNeverUndercounts(file: State, rate: Cache<Uint>, bots: Cache<bool>, verified: Cache<bool>,
                               now: nat, key: string)
    requires Get(rate, key, now).Some? || key in file.rate
    ensures var after := SetAll(Flush(rate), Reconciled(file, Snapshot(rate, bots, verified, now)).rate, now);
            && Get(after, key, now).Some?
            && (Get(rate, key, now).Some? ==> Get(after, key, now).value >= Get(rate, key, now).value)
            && (key in file.rate ==> Get(after, key, now).value >= file.rate[key])
  {
    var rec := Reconciled(file, Snapshot(rate, bots, verified, now));
    ReinstallRestoresItems(rate, rec.rate, now);
    assert key in Items(rate, now) || key in file.rate;
    assert key in rec.rate;
  }

  /**
   * With persistence on, a reload brings back every rate count and verified
   * mark of the file's snapshot with a fresh lifetime, live for a whole
   * window after the reload, even when memory's copy had already expired.
   */
  lemma ReloadRevivesFileEntries(file: State, rate: Cache<Uint>, bots: Cache<bool>, verified: Cache<bool>,
                                 now: nat, key: string, t: nat)
    requires now <= t && (rate.defaultExpiration <= 0 || t <= now + rate.defaultExpiration)
    requires now <= t && (verified.defaultExpiration <= 0 || t <= now + verified.defaultExpiration)
    ensures var rec := Reconciled(file, Snapshot(rate, bots, verified, now));
            key in file.rate ==> Get(SetAll(Flush(rate), rec.rate, now), key, t).Some?
    ensures var rec := Reconciled(file, Snapshot(rate, bots, verified, now));
            key in file.verified ==> Get(SetAll(Flush(verified), rec.verified, now), key, t).Some?
  {
    var rec := Reconciled(file, Snapshot(rate, bots, verified, now));
    if key in file.rate {
      assert key in rec.rate;
      assert SetAll(Flush(rate), rec.rate, now).items[key].expiration == ExpiryAt(rate, now);
    }
    if key in file.verified {
      assert key in rec.verified;
      assert SetAll(Flush(verified), rec.verified, now).items[key].expiration == ExpiryAt(verified, now);
    }
  }

  /**
   * `ChallengeOnPage` on an accepted, normalised configuration: the challenge
   * is served on the tripped page exactly when no challenge URL, or the
   * marker, was configured; otherwise clients are redirected to a dedicated
   * page that is neither empty nor the site root. On the page an unset
   * status code becomes 429.
   */
  lemma ChallengeModeOfAcceptedConfig(cfg: Config, o: Oracles)
    requires ConfigAccepted(cfg, o)
    ensures ChallengeOnPage(Normalized(cfg)) <==> cfg.challengeURL == "" || cfg.challengeURL == ChallengeMarker
    ensures !ChallengeOnPage(Normalized(cfg)) ==>
              Normalized(cfg).challengeURL == cfg.challengeURL && cfg.challengeURL != "" && cfg.challengeURL != "/"
    ensures ChallengeOnPage(Normalized(cfg)) && cfg.challengeStatusCode == 0 ==>
              Normalized(cfg).challengeStatusCode == StatusTooManyRequests
  {
  }

  class CaptchaProtect {
    const config: Config
    const oracles: Oracles
    /** The parsed exempt ranges: the built-in ones followed by the configured ones. */
    const exemptIps: seq<string>
    /** Whether a state file is configured, and with it the save signal. */
    const persistent: bool
    var captcha: CaptchaConfig
    /** Widths of the subnet masks applied to IPv4 and IPv6 client addresses. */
    var ipv4Mask: int
    var ipv6Mask: int
    /** Request counts by subnet key. */
    var rateCache: Cache<Uint>
    /** Good-bot verdicts by client IP. */
    var botCache: Cache<bool>
    /** Solved challenges by client IP. */
    var verifiedCache: Cache<bool>
    /** The one-slot save signal holds a token. */
    var savePending: bool

    /**
     * The masks have widths construction accepts, a save is only signalled
     * with persistence on, and every store writes with the window as its
     * lifetime.
     */
    ghost predicate Valid()
      reads this`ipv4Mask, this`ipv6Mask, this`savePending, this`rateCache, this`botCache, this`verifiedCache
    {
      && 8 <= ipv4Mask <= 32
      && 8 <= ipv6Mask <= 128
      && (savePending ==> persistent)
      && rateCache.defaultExpiration == config.window
      && botCache.defaultExpiration == config.window
      && verifiedCache.defaultExpiration == config.window
    }

    /** The struct literal of `NewCaptchaProtect`: three empty stores sharing the window as lifetime. */
    constructor (config: Config, oracles: Oracles, exemptIps: seq<string>)
      ensures this.config == config && this.oracles == oracles && this.exemptIps == exemptIps
      ensures persistent == (config.persistentStateFile != "")
      ensures rateCache == New(config.window) && botCache == New(config.window) && verifiedCache == New(config.window)
      ensures ipv4Mask == 0 && ipv6Mask == 0 && captcha == CaptchaConfig("", "", "") && !savePending
    {
      this.config := config;
      this.oracles := oracles;
      this.exemptIps := exemptIps;
      persistent := config.persistentStateFile != "";
      rateCache := New(config.window);
      botCache := New(config.window);
      verifiedCache := New(config.window);
      ipv4Mask, ipv6Mask := 0, 0;
      captcha := CaptchaConfig("", "", "");
      savePending := false;
    }

    /** `SetIpv4Mask`: widths outside 8..32 are refused and leave the mask as it was. */
    method SetIpv4Mask(m: int) returns (err: Option<ConfigError>)
      modifies this`ipv4Mask
      ensures (m < 8 || m > 32) ==> err == Some(InvalidIpv4Mask(m)) && ipv4Mask == old(ipv4Mask)
      ensures 8 <= m <= 32 ==> err.None? && ipv4Mask == m
    {
      if m < 8 || m > 32 {
        return Some(InvalidIpv4Mask(m));
      }
      ipv4Mask := m;
      return None;
    }

    /** `SetIpv6Mask`: widths outside 8..128 are refused and leave the mask as it was. */
    method SetIpv6Mask(m: int) returns (err: Option<ConfigError>)
      modifies this`ipv6Mask
      ensures (m < 8 || m > 128) ==> err == Some(InvalidIpv6Mask(m)) && ipv6Mask == old(ipv6Mask)
      ensures 8 <= m <= 128 ==> err.None? && ipv6Mask == m
    {
      if m < 8 || m > 128 {
        return Some(InvalidIpv6Mask(m));
      }
      ipv6Mask := m;
      return None;
    }

    /** `notifyStateChange`: puts a token in the save signal unless one is already waiting. */
    method NotifyStateChange()
      requires Valid()
      modifies this`savePending
      ensures Valid()
      ensures savePending == (old(savePending) || persistent)
    {
      if persistent {
        if !savePending {
          savePending := true;
        }
      }
    }

    /** The saver's receive on the signal: takes the waiting token, if any. */
    method TakeSaveSignal() returns (signalled: bool)
      requires Valid()
      modifies this`savePending
      ensures Valid()
      ensures signalled == old(savePending) && !savePending
    {
      signalled := savePending;
      savePending := false;
    }

    /** `isGoodBot`. */
    method IsGoodBot(req: Request, clientIP: string, now: nat) returns (b: bool)
      requires Valid()
      modifies this`botCache, this`savePending
      ensures Valid()
      ensures b == BotVerdict(config, oracles, old(botCache), req, clientIP, now)
      ensures botCache == BotCacheAfter(config, oracles, old(botCache), req, clientIP, now)
      ensures savePending == (old(savePending) || (persistent && BotLookedUp(config, old(botCache), req, clientIP, now)))
      ensures QueryForcesChallenge(config, req) ==> !b
    {
      if config.protectParameters == "true" {
        if |req.query| > 0 {
          return false;
        }
      }
      match Get(botCache, clientIP, now)
      case Some(bot) =>
        return bot;
      case None =>
        var v := oracles.goodBot(clientIP, config.goodBots);
        botCache := Set(botCache, clientIP, v, now);
        NotifyStateChange();
        return v;
    }

    /** `shouldApply`: the gates in their order; the bot gate is the only one with an effect. */
    method ShouldApply(req: Request, clientIP: string, now: nat) returns (r: bool)
      requires Valid()
      modifies this`botCache, this`savePending
      ensures Valid()
      ensures r == Applies(config, oracles, exemptIps, old(botCache), verifiedCache, req, clientIP, now)
      ensures ReachesBotGate(config, oracles, exemptIps, verifiedCache, req, clientIP, now) ==>
                botCache == BotCacheAfter(config, oracles, old(botCache), req, clientIP, now) &&
                savePending == (old(savePending) || (persistent && BotLookedUp(config, old(botCache), req, clientIP, now)))
      ensures !ReachesBotGate(config, oracles, exemptIps, verifiedCache, req, clientIP, now) ==>
                botCache == old(botCache) && savePending == old(savePending)
      ensures oracles.ipExcluded(clientIP, exemptIps) || Get(verifiedCache, clientIP, now).Some? ==> !r
    {
      if req.verb !in config.protectHttpMethods {
        return false;
      }
      if Get(verifiedCache, clientIP, now).Some? {
        return false;
      }
      if oracles.ipExcluded(clientIP, exemptIps) {
        return false;
      }
      var bot := IsGoodBot(req, clientIP, now);
      if bot {
        return false;
      }
      var goodAgent := IsGoodUserAgent(config.exemptUserAgents, req.userAgent);
      if goodAgent {
        return false;
      }
      if config.mode == "regex" {
        r := RouteIsProtectedRegex(config.protectRoutes, config.excludeRoutes, config.protectFileExtensions,
                                   req.path, oracles.regexMatch);
        return;
      }
      if config.mode == "suffix" {
        r := RouteIsProtectedSuffix(config.protectRoutes, config.excludeRoutes, config.protectFileExtensions, req.path);
        return;
      }
      r := RouteIsProtectedPrefix(config.protectRoutes, config.excludeRoutes, config.protectFileExtensions, req.path);
    }

    /** `registerRequest`: counts one request for the subnet key and signals a save. */
    method RegisterRequest(ipRange: string, now: nat)
      requires Valid()
      modifies this`rateCache, this`savePending
      ensures Valid()
      ensures rateCache == Register(old(rateCache), ipRange, now)
      ensures savePending == (old(savePending) || persistent)
    {
      match Add(rateCache, ipRange, 1, now)
      case Some(added) =>
        rateCache := added;
        NotifyStateChange();
      case None =>
        match IncrementUint(rateCache, ipRange, 1, now)
        case Some(incremented) =>
          rateCache := incremented;
          NotifyStateChange();
        case None =>
          assert false;
    }

    /** `trippedRateLimit`. */
    method TrippedRateLimit(ipRange: string, now: nat) returns (b: bool)
      ensures b == Tripped(rateCache, ipRange, now, config.rateLimit)
    {
      match Get(rateCache, ipRange, now)
      case None =>
        return false;
      case Some(count) =>
        return count > config.rateLimit;
    }

    /** `getClientIP`: the client IP, and the subnet key the rate store is keyed by. */
    method GetClientIP(req: Request) returns (clientIP: string, ipRange: string)
      ensures (clientIP, ipRange)
                == ParseIp(ClientAddress(config.ipForwardedHeader, req.header, config.ipDepth, req.remoteAddr,
                                         ip => oracles.ipExcluded(ip, exemptIps)),
                           oracles.parseIp, oracles.subnet, ipv4Mask, ipv6Mask)
    {
      var exempt := ip => oracles.ipExcluded(ip, exemptIps);
      var ip := HeaderGet(req.header, config.ipForwardedHeader);
      if config.ipForwardedHeader != "" && ip != "" {
        ip := SelectForwarded(ip, config.ipDepth, exempt);
        if ip == "" {
          ip := req.remoteAddr;
        }
      } else {
        ip := req.remoteAddr;
      }
      if ':' in ip {
        // `net.SplitHostPort`; an address it refuses (a bare IPv6 address)
        // is kept whole rather than replaced by the empty host
        match SplitHostPort(ip) {
          case Some(hostPort) => ip := hostPort.0;
          case None =>
        }
      }
      clientIP, ipRange := ParseIp(ip, oracles.parseIp, oracles.subnet, ipv4Mask, ipv6Mask).0,
                           ParseIp(ip, oracles.parseIp, oracles.subnet, ipv4Mask, ipv6Mask).1;
    }

    /**
     * `verifyChallengePage`, with the provider call's outcome given: no
     * token is a bad request, a failed call an internal error, a refusal
     * forbidden; success records the caller's IP as verified and redirects
     * to the destination.
     */
    method VerifyChallengePage(form: map<string, string>, outcome: ProviderOutcome, clientIP: string, now: nat)
      returns (status: int, location: string)
      requires Valid()
      modifies this`verifiedCache, this`savePending
      ensures Valid()
      ensures FormValue(form, captcha.key + "-response") == "" ==>
                status == StatusBadRequest && verifiedCache == old(verifiedCache) && savePending == old(savePending)
      ensures FormValue(form, captcha.key + "-response") != "" && !outcome.Decoded? ==>
                status == StatusInternalServerError && verifiedCache == old(verifiedCache) && savePending == old(savePending)
      ensures FormValue(form, captcha.key + "-response") != "" && outcome == Decoded(false) ==>
                status == StatusForbidden && verifiedCache == old(verifiedCache) && savePending == old(savePending)
      ensures FormValue(form, captcha.key + "-response") != "" && outcome == Decoded(true) ==>
                && status == StatusFound
                && location == RedirectTarget(FormValue(form, "destination"))
                && verifiedCache == Set(old(verifiedCache), clientIP, true, now)
                && savePending == (old(savePending) || persistent)
      ensures status != StatusFound ==> location == ""
    {
      location := "";
      var response := FormValue(form, captcha.key + "-response");
      if response == "" {
        return StatusBadRequest, location;
      }
      match outcome
      case PostFailed =>
        return StatusInternalServerError, location;
      case Undecodable =>
        return StatusInternalServerError, location;
      case Decoded(success) =>
        if success {
          verifiedCache := Set(verifiedCache, clientIP, true, now);
          NotifyStateChange();
          var destination := FormValue(form, "destination");
          if destination == "" {
            destination := "%2F";
          }
          var u := QueryUnescape(destination);
          location := if u.Some? then u.value else "/";
          return StatusFound, location;
        }
        return StatusForbidden, location;
    }

    /** The tail of `loadState`: every entry of the file's snapshot is `Set` with a fresh lifetime. */
    method LoadState(fileState: State, now: nat)
      requires Valid()
      modifies this`rateCache, this`botCache, this`verifiedCache
      ensures Valid()
      ensures rateCache == SetAll(old(rateCache), fileState.rate, now)
      ensures botCache == SetAll(old(botCache), fileState.bots, now)
      ensures verifiedCache == SetAll(old(verifiedCache), fileState.verified, now)
    {
      rateCache := SetEach(rateCache, fileState.rate, now);
      botCache := SetEach(botCache, fileState.bots, now);
      verifiedCache := SetEach(verifiedCache, fileState.verified, now);
    }

    /**
     * `reloadStateFromFile` after the read: an empty snapshot changes
     * nothing; otherwise the stores are emptied and refilled with the
     * reconciliation of the file's snapshot and memory's.
     */
    method ReloadStateFromFile(fileState: State, now: nat)
      requires Valid()
      modifies this`rateCache, this`botCache, this`verifiedCache
      ensures Valid()
      ensures IsEmpty(fileState) ==>
                rateCache == old(rateCache) && botCache == old(botCache) && verifiedCache == old(verifiedCache)
      ensures !IsEmpty(fileState) ==>
                var rec := Reconciled(fileState, Snapshot(old(rateCache), old(botCache), old(verifiedCache), now));
                && rateCache == SetAll(Flush(old(rateCache)), rec.rate, now)
                && botCache == SetAll(Flush(old(botCache)), rec.bots, now)
                && verifiedCache == SetAll(Flush(old(verifiedCache)), rec.verified, now)
      ensures forall key, t: nat :: key in fileState.rate && now <= t && (config.window <= 0 || t <= now + config.window) ==>
                Get(rateCache, key, t).Some?
      ensures forall key, t: nat :: key in fileState.verified && now <= t && (config.window <= 0 || t <= now + config.window) ==>
                Get(verifiedCache, key, t).Some?
    {
      forall key, t: nat | now <= t && (config.window <= 0 || t <= now + config.window)
        ensures var rec := Reconciled(fileState, Snapshot(rateCache, botCache, verifiedCache, now));
                && (key in fileState.rate ==> Get(SetAll(Flush(rateCache), rec.rate, now), key, t).Some?)
                && (key in fileState.verified ==> Get(SetAll(Flush(verifiedCache), rec.verified, now), key, t).Some?)
      {
        ReloadRevivesFileEntries(fileState, rateCache, botCache, verifiedCache, now, key, t);
      }
      if |fileState.rate| == 0 && |fileState.bots| == 0 && |fileState.verified| == 0 {
        return;
      }
      var memoryState := Snapshot(rateCache, botCache, verifiedCache, now);
      var reconciled := ReconcileStates(fileState, memoryState);
      Reinstall(reconciled, now);
    }

    /** The last step of a reload: the three stores emptied, then refilled from `s` with a fresh lifetime. */
    method Reinstall(s: State, now: nat)
      modifies this`rateCache, this`botCache, this`verifiedCache
      ensures rateCache == SetAll(Flush(old(rateCache)), s.rate, now)
      ensures botCache == SetAll(Flush(old(botCache)), s.bots, now)
      ensures verifiedCache == SetAll(Flush(old(verifiedCache)), s.verified, now)
    {
      rateCache := Flush(rateCache);
      botCache := Flush(botCache);
      verifiedCache := Flush(verifiedCache);
      rateCache := SetEach(rateCache, s.rate, now);
      botCache := SetEach(botCache, s.bots, now);
      verifiedCache := SetEach(verifiedCache, s.verified, now);
    }
  }

  /** The loops that compile each pattern or parse each range, stopping at the first failure. */
  method FindRefused(items: seq<string>, ok: string -> bool) returns (bad: Option<string>)
    ensures bad == FirstRefused(items, ok)
  {
    for i := 0 to |items|
      invariant forall k :: 0 <= k < i ==> ok(items[k])
    {
      if !ok(items[i]) {
        FirstRefusedAt(items, ok, i);
        return Some(items[i]);
      }
    }
    return None;
  }

  /** The loop that lower-cases the exempt user agents. */
  method LowerAgents(agents: seq<string>) returns (ua: seq<string>)
    ensures ua == LowerAll(agents)
  {
    ua := [];
    for i := 0 to |agents|
      invariant ua == LowerAll(agents[..i])
    {
      ua := ua + [ToLower(agents[i])];
    }
    assert agents[..|agents|] == agents;
  }

  /**
   * `NewCaptchaProtect`: validates the configuration in the constructor's
   * order, normalises it, builds the middleware and, when a state file is
   * configured, loads the file's snapshot (`fileState`, empty when the file
   * could not be read) into the stores.
   */
  method NewCaptchaProtect(cfg: Config, oracles: Oracles, fileState: State, now: nat)
    returns (r: Result<CaptchaProtect, ConfigError>)
    ensures r.Failure? <==> ConfigCheck(cfg, oracles).Some?
    ensures r.Failure? ==> r.error == ConfigCheck(cfg, oracles).value
    ensures r.Success? ==>
              && fresh(r.value)
              && r.value.Valid()
              && r.value.config == Normalized(cfg)
              && r.value.oracles == oracles
              && r.value.exemptIps == ExemptRanges(cfg)
              && r.value.ipv4Mask == cfg.ipv4SubnetMask
              && r.value.ipv6Mask == cfg.ipv6SubnetMask
              && r.value.captcha == ProviderConfig(cfg.captchaProvider).value
              && r.value.persistent == (cfg.persistentStateFile != "")
              && !r.value.savePending
    ensures r.Success? && cfg.persistentStateFile == "" ==>
              r.value.rateCache == New(cfg.window) && r.value.botCache == New(cfg.window)
              && r.value.verifiedCache == New(cfg.window)
    ensures r.Success? && cfg.persistentStateFile != "" ==>
              && r.value.rateCache == SetAll(New(cfg.window), fileState.rate, now)
              && r.value.botCache == SetAll(New(cfg.window), fileState.bots, now)
              && r.value.verifiedCache == SetAll(New(cfg.window), fileState.verified, now)
  {
    var prepared := PrepareConfig(cfg, oracles);
    if prepared.Failure? {
      return Failure(prepared.error);
    }
    var config := prepared.value;
    assert AssemblyCheck(config) == AssemblyCheck(cfg);
    r := Assemble(config, oracles, ExemptRanges(config), fileState, now);
  }

  /**
   * The part of `NewCaptchaProtect` that validates and rewrites the
   * configuration, in the constructor's order. The default status code,
   * which the constructor sets just after building the middleware value, is
   * set here; nothing in between reads it.
   */
  method PrepareConfig(cfg: Config, oracles: Oracles) returns (r: Result<Config, ConfigError>)
    ensures r.Failure? <==> PreparationCheck(cfg, oracles).Some?
    ensures r.Failure? ==> r.error == PreparationCheck(cfg, oracles).value
    ensures r.Success? ==> r.value == Normalized(cfg)
  {
    var config := cfg;
    if |config.protectRoutes| == 0 && config.mode != "suffix" {
      return Failure(NoProtectedRoutes);
    }
    if config.mode == "regex" {
      var bad := FindRefused(config.protectRoutes, oracles.regexCompiles);
      if bad.Some? {
        return Failure(InvalidProtectRegex(bad.value));
      }
      bad := FindRefused(config.excludeRoutes, oracles.regexCompiles);
      if bad.Some? {
        return Failure(InvalidExcludeRegex(bad.value));
      }
    } else if config.mode != "prefix" && config.mode != "suffix" {
      return Failure(UnknownMode(config.mode));
    }

    var ua := LowerAgents(config.exemptUserAgents);
    config := config.(exemptUserAgents := ua);

    if config.challengeURL == "/" {
      return Failure(ChallengeUrlIsSite);
    }
    if config.challengeURL == "" {
      config := config.(challengeURL := ChallengeMarker);
    }
    if |config.protectHttpMethods| == 0 {
      config := config.(protectHttpMethods := ["GET", "HEAD"]);
    }
    match oracles.statTemplate(config.challengeTmpl) {
      case FileMissing =>
        if !oracles.defaultTemplateParses {
          return Failure(DefaultTemplateUnparsable);
        }
      case StatFailed =>
        return Failure(TemplateStatFailed(config.challengeTmpl));
      case FileFound =>
        if !oracles.templateParses(config.challengeTmpl) {
          return Failure(TemplateUnparsable(config.challengeTmpl));
        }
    }
    if "html" !in config.protectFileExtensions {
      config := config.(protectFileExtensions := config.protectFileExtensions + ["html"]);
    }

    var exemptIps := BuiltinExemptRanges + config.exemptIps;
    var badCidr := FindRefused(exemptIps, oracles.cidrParses);
    if badCidr.Some? {
      return Failure(InvalidCidr(badCidr.value));
    }

    if config.challengeStatusCode == 0 {
      config := config.(challengeStatusCode := StatusOK);
      if ChallengeOnPage(config) {
        config := config.(challengeStatusCode := StatusTooManyRequests);
      }
    }
    return Success(config);
  }

  /**
   * The rest of `NewCaptchaProtect` once the configuration is normalised:
   * the middleware value with its three empty stores, the two masks, the
   * provider, and the snapshot load when a state file is configured.
   */
  method Assemble(config: Config, oracles: Oracles, exemptIps: seq<string>, fileState: State, now: nat)
    returns (r: Result<CaptchaProtect, ConfigError>)
    ensures r.Failure? <==> AssemblyCheck(config).Some?
    ensures r.Failure? ==> r.error == AssemblyCheck(config).value
    ensures r.Success? ==>
              && fresh(r.value)
              && r.value.Valid()
              && r.value.config == config
              && r.value.oracles == oracles
              && r.value.exemptIps == exemptIps
              && r.value.ipv4Mask == config.ipv4SubnetMask
              && r.value.ipv6Mask == config.ipv6SubnetMask
              && r.value.captcha == ProviderConfig(config.captchaProvider).value
              && r.value.persistent == (config.persistentStateFile != "")
              && !r.value.savePending
    ensures r.Success? && config.persistentStateFile == "" ==>
              r.value.rateCache == New(config.window) && r.value.botCache == New(config.window)
              && r.value.verifiedCache == New(config.window)
    ensures r.Success? && config.persistentStateFile != "" ==>
              && r.value.rateCache == SetAll(New(config.window), fileState.rate, now)
              && r.value.botCache == SetAll(New(config.window), fileState.bots, now)
              && r.value.verifiedCache == SetAll(New(config.window), fileState.verified, now)
  {
    var bc := new CaptchaProtect(config, oracles, exemptIps);
    var err := bc.SetIpv4Mask(config.ipv4SubnetMask);
    if err.Some? {
      return Failure(err.value);
    }
    err := bc.SetIpv6Mask(config.ipv6SubnetMask);
    if err.Some? {
      return Failure(err.value);
    }
    var provider := ProviderConfig(config.captchaProvider);
    if provider.None? {
      return Failure(InvalidProvider(config.captchaProvider));
    }
    bc.captcha := provider.value;

    if config.persistentStateFile != "" {
      bc.LoadState(fileState, now);
    }
    return Success(bc);
  }
}
