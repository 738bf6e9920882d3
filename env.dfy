/** Environment validation (src/utils/validateEnv.ts): the environment
    schema's checks and defaults, the error message listing every issue, and
    `validateEnv`'s cache, which is filled by the first successful parse and
    never re-parsed. `process.env` is a map from names to strings; the URL
    check of the schema library is a parameter. */
module EnvValidation {
  import opened Wrappers
  import opened Strings
  import opened ErrorHandling

  type EnvInput = map<string, string>

  datatype Env = Env(
    nodeEnv: string,
    baseUrl: string,
    frontendUrl: string,
    databaseUrl: string,
    jwtSecret: string,
    jwtRefreshSecret: string,
    stripeSecretKey: string,
    stripeWebhookKey: string,
    productImagePath: string,
    postgresUrl: Option<string>,
    prismaDatabaseUrl: Option<string>,
    vercelOidcToken: Option<string>)

  datatype EnvKey =
    | NodeEnvKey | BaseUrlKey | FrontendUrlKey | DatabaseUrlKey | JwtSecretKey | JwtRefreshSecretKey
    | StripeSecretKeyKey | StripeWebhookKeyKey | ProductImagePathKey | PostgresUrlKey | PrismaDatabaseUrlKey
    | VercelOidcTokenKey

  /** `validateEnv()` gives the whole env, `validateEnv(key)` one field of it. */
  datatype EnvValue = WholeEnv(env: Env) | FieldValue(value: Option<string>)

  const NodeEnvValues: seq<string> := ["development", "production", "test"]
  const DefaultNodeEnv: string := "development"
  const DefaultBaseUrl: string := "https://phstore-backend-production.up.railway.app"
  const DefaultProductImagePath: string := "media/products/"

  /** The messages of the schema's checks. */
  const NodeEnvMessage: string := "Invalid enum value. Expected 'development' | 'production' | 'test', received '"
  const FrontendUrlMessage: string := "FRONTEND_URL must be a valid URL (e.g., http://localhost:3000)"
  const DatabaseUrlMessage: string := "DATABASE_URL is required for database connection"
  const JwtSecretMessage: string := "JWT_SECRET is required for signing access tokens (minimum 32 characters)"
  const JwtRefreshSecretMessage: string := "JWT_REFRESH_SECRET is required for signing refresh tokens (minimum 32 characters)"
  const StripeSecretKeyRequiredMessage: string := "STRIPE_SECRET_KEY is required for payment processing"
  const StripeSecretKeyPrefixMessage: string := "STRIPE_SECRET_KEY must start with 'sk_'"
  const StripeWebhookKeyRequiredMessage: string := "STRIPE_WEBHOOK_KEY is required for webhook signature verification"
  const StripeWebhookKeyPrefixMessage: string := "STRIPE_WEBHOOK_KEY must start with 'whsec_'"

  function Lookup(input: EnvInput, name: string): Option<string> {
    if name in input then Some(input[name]) else None
  }

  function Issue(name: string, message: string): ZodIssue {
    ZodIssue([Key(name)], message)
  }

  /** `z.enum([...]).default("development")`. */
  function NodeEnvIssues(value: Option<string>): (issues: seq<ZodIssue>)
    ensures issues == [] <==> value.None? || value.value in NodeEnvValues
  {
    match value
    case None => []
    case Some(s) =>
      if s in NodeEnvValues then []
      else [Issue("NODE_ENV", NodeEnvMessage + s + "'")]
  }

  /** `z.string().url(...)`, with `.default(...)` when `required` is false. */
  function UrlIssues(name: string, value: Option<string>, required: bool, message: string, isUrl: string -> bool)
    : (issues: seq<ZodIssue>)
    ensures issues == [] <==> if value.None? then !required else isUrl(value.value)
  {
    match value
    case None => if required then [Issue(name, "Required")] else []
    case Some(s) => if isUrl(s) then [] else [Issue(name, message)]
  }

  /** `z.string().min(n, message)`. */
  function MinIssues(name: string, value: Option<string>, n: nat, message: string): (issues: seq<ZodIssue>)
    ensures issues == [] <==> value.Some? && |value.value| >= n
  {
    match value
    case None => [Issue(name, "Required")]
    case Some(s) => if |s| < n then [Issue(name, message)] else []
  }

  /** `z.string().min(1, …).refine(startsWith(prefix), …)`: the refinement
      still runs after a failed minimum, so an empty key reports both. */
  function KeyIssues(name: string, value: Option<string>, prefix: string, requiredMessage: string, prefixMessage: string)
    : (issues: seq<ZodIssue>)
    requires |prefix| >= 1
    ensures issues == [] <==> value.Some? && IsPrefix(prefix, value.value)
  {
    match value
    case None => [Issue(name, "Required")]
    case Some(s) =>
      (if |s| < 1 then [Issue(name, requiredMessage)] else [])
      + (if IsPrefix(prefix, s) then [] else [Issue(name, prefixMessage)])
  }

  /** The issues of the three addresses the server runs with. */
  function ServerUrlIssues(input: EnvInput, isUrl: string -> bool): (issues: seq<ZodIssue>)
    ensures issues == [] <==> ServerUrlRequirements(input, isUrl)
  {
    NodeEnvIssues(Lookup(input, "NODE_ENV"))
    + UrlIssues("BASE_URL", Lookup(input, "BASE_URL"), false, "Invalid url", isUrl)
    + UrlIssues("FRONTEND_URL", Lookup(input, "FRONTEND_URL"), true,
        FrontendUrlMessage, isUrl)
  }

  /** The issues of the database address and the two token secrets. */
  function SecretIssues(input: EnvInput): (issues: seq<ZodIssue>)
    ensures issues == [] <==> SecretRequirements(input)
  {
    MinIssues("DATABASE_URL", Lookup(input, "DATABASE_URL"), 1, DatabaseUrlMessage)
    + MinIssues("JWT_SECRET", Lookup(input, "JWT_SECRET"), 32,
        JwtSecretMessage)
    + MinIssues("JWT_REFRESH_SECRET", Lookup(input, "JWT_REFRESH_SECRET"), 32,
        JwtRefreshSecretMessage)
  }

  /** The issues of the two payment keys. */
  function StripeIssues(input: EnvInput): (issues: seq<ZodIssue>)
    ensures issues == [] <==> StripeRequirements(input)
  {
    KeyIssues("STRIPE_SECRET_KEY", Lookup(input, "STRIPE_SECRET_KEY"), "sk_",
      StripeSecretKeyRequiredMessage, StripeSecretKeyPrefixMessage)
    + KeyIssues("STRIPE_WEBHOOK_KEY", Lookup(input, "STRIPE_WEBHOOK_KEY"), "whsec_",
        StripeWebhookKeyRequiredMessage, StripeWebhookKeyPrefixMessage)
  }

  /** Every issue of `envSchema`, in the order of its keys. */
  function EnvIssues(input: EnvInput, isUrl: string -> bool): (issues: seq<ZodIssue>)
    ensures issues == [] <==> EnvRequirements(input, isUrl)
  {
    ServerUrlIssues(input, isUrl) + SecretIssues(input) + StripeIssues(input)
  }

  predicate ServerUrlRequirements(input: EnvInput, isUrl: string -> bool) {
    && ("NODE_ENV" in input ==> input["NODE_ENV"] in NodeEnvValues)
    && ("BASE_URL" in input ==> isUrl(input["BASE_URL"]))
    && "FRONTEND_URL" in input && isUrl(input["FRONTEND_URL"])
  }

  predicate SecretRequirements(input: EnvInput) {
    && "DATABASE_URL" in input && |input["DATABASE_URL"]| >= 1
    && "JWT_SECRET" in input && |input["JWT_SECRET"]| >= 32
    && "JWT_REFRESH_SECRET" in input && |input["JWT_REFRESH_SECRET"]| >= 32
  }

  predicate StripeRequirements(input: EnvInput) {
    && "STRIPE_SECRET_KEY" in input && IsPrefix("sk_", input["STRIPE_SECRET_KEY"])
    && "STRIPE_WEBHOOK_KEY" in input && IsPrefix("whsec_", input["STRIPE_WEBHOOK_KEY"])
  }

  /** The requirements of the schema, stated directly on the environment. */
  predicate EnvRequirements(input: EnvInput, isUrl: string -> bool) {
    ServerUrlRequirements(input, isUrl) && SecretRequirements(input) && StripeRequirements(input)
  }

  /** The parsed environment, defaults filled in. */
  function EnvOf(input: EnvInput): Env
    requires "FRONTEND_URL" in input && "DATABASE_URL" in input && "JWT_SECRET" in input
    requires "JWT_REFRESH_SECRET" in input && "STRIPE_SECRET_KEY" in input && "STRIPE_WEBHOOK_KEY" in input
  {
    Env(
      Lookup(input, "NODE_ENV").GetOr(DefaultNodeEnv),
      Lookup(input, "BASE_URL").GetOr(DefaultBaseUrl),
      input["FRONTEND_URL"], input["DATABASE_URL"], input["JWT_SECRET"], input["JWT_REFRESH_SECRET"],
      input["STRIPE_SECRET_KEY"], input["STRIPE_WEBHOOK_KEY"],
      Lookup(input, "PRODUCT_IMAGE_PATH").GetOr(DefaultProductImagePath),
      Lookup(input, "POSTGRES_URL"), Lookup(input, "PRISMA_DATABASE_URL"), Lookup(input, "VERCEL_OIDC_TOKEN"))
  }

  /** `envSchema.parse(process.env)`, with a thrown `ZodError` as `Err`. */
  function ParseEnv(input: EnvInput, isUrl: string -> bool): (r: Result<Env, seq<ZodIssue>>)
    ensures r.Ok? <==> EnvRequirements(input, isUrl)
    ensures r.Err? ==> r.error != []
    ensures r.Ok? ==> r.value == EnvOf(input)
  {
    var issues := EnvIssues(input, isUrl);
    if issues != [] then Err(issues) else Ok(EnvOf(input))
  }

  /** An accepted environment meets every bound, and missing optional
      settings take their defaults. */
  lemma ParsedEnvSpec(input: EnvInput, isUrl: string -> bool)
    requires ParseEnv(input, isUrl).Ok?
    ensures var env := ParseEnv(input, isUrl).value;
      && env.nodeEnv in NodeEnvValues
      && |env.jwtSecret| >= 32 && |env.jwtRefreshSecret| >= 32 && |env.databaseUrl| >= 1
      && IsPrefix("sk_", env.stripeSecretKey) && IsPrefix("whsec_", env.stripeWebhookKey)
      && ("NODE_ENV" !in input ==> env.nodeEnv == "development")
      && ("BASE_URL" !in input ==> env.baseUrl == "https://phstore-backend-production.up.railway.app")
      && ("PRODUCT_IMAGE_PATH" !in input ==> env.productImagePath == "media/products/")
  {
  }

  function IssueLine(issue: ZodIssue): string {
    "  - " + FieldOf(issue.path) + ": " + issue.message
  }

  const HeaderTitle: string := "\U{274C} Environment variable validation failed:"
  const AdviceStart: string := "Please check your .env file and"
  const AdviceEnd: string := " ensure all required variables are set."
  const FooterAdvice: string := AdviceStart + AdviceEnd
  const FooterReference: string := "See .env.example for reference."
  const HeaderLines: seq<string> := [HeaderTitle, ""]
  const FooterLines: seq<string> := ["", FooterAdvice, FooterReference]

  function MessageLines(issues: seq<ZodIssue>): (lines: seq<string>)
    ensures |lines| == |issues| + 5
  {
    HeaderLines + seq(|issues|, i requires 0 <= i < |issues| => IssueLine(issues[i])) + FooterLines
  }

  /** The text of the error `validateEnv` throws. */
  function EnvErrorMessage(issues: seq<ZodIssue>): string {
    Join(MessageLines(issues), '\n')
  }

  lemma HeaderTitleUnbroken()
    ensures '\n' !in HeaderTitle
  {
  }

  lemma AdviceStartUnbroken()
    ensures '\n' !in AdviceStart
  {
  }

  lemma AdviceEndUnbroken()
    ensures '\n' !in AdviceEnd
  {
  }

  lemma FooterReferenceUnbroken()
    ensures '\n' !in FooterReference
  {
  }

  lemma FixedLinesUnbroken()
    ensures forall i | 0 <= i < |HeaderLines| :: '\n' !in HeaderLines[i]
    ensures forall i | 0 <= i < |FooterLines| :: '\n' !in FooterLines[i]
  {
    HeaderTitleUnbroken();
    AdviceStartUnbroken();
    AdviceEndUnbroken();
    assert '\n' !in FooterAdvice;
    FooterReferenceUnbroken();
  }

  lemma MessageLinesUnbroken(issues: seq<ZodIssue>)
    requires forall i | 0 <= i < |issues| :: '\n' !in IssueLine(issues[i])
    ensures forall i | 0 <= i < |MessageLines(issues)| :: '\n' !in MessageLines(issues)[i]
    ensures forall i | 0 <= i < |issues| :: MessageLines(issues)[i + 2] == IssueLine(issues[i])
    ensures MessageLines(issues)[0] == HeaderLines[0]
  {
    var lines := MessageLines(issues);
    FixedLinesUnbroken();
    forall i | 0 <= i < |lines|
      ensures '\n' !in lines[i]
    {
      if i < 2 {
        assert lines[i] == HeaderLines[i];
      } else if i < |issues| + 2 {
        assert lines[i] == IssueLine(issues[i - 2]);
      } else {
        assert lines[i] == FooterLines[i - 2 - |issues|];
      }
    }
  }

  /** The message has one line per issue, `  - <field>: <message>`, after
      its fixed header line and a blank line, as long as no issue line itself
      holds a line break. */
  lemma EnvErrorMessageLines(issues: seq<ZodIssue>)
    requires forall i | 0 <= i < |issues| :: '\n' !in IssueLine(issues[i])
    ensures var lines := Split(EnvErrorMessage(issues), '\n');
      && |lines| == |issues| + 5
      && lines[0] == HeaderLines[0]
      && forall i | 0 <= i < |issues| :: lines[i + 2] == IssueLine(issues[i])
  {
    MessageLinesUnbroken(issues);
    SplitJoin(MessageLines(issues), '\n');
  }

  function EnvField(env: Env, key: EnvKey): Option<string> {
    match key
    case NodeEnvKey => Some(env.nodeEnv)
    case BaseUrlKey => Some(env.baseUrl)
    case FrontendUrlKey => Some(env.frontendUrl)
    case DatabaseUrlKey => Some(env.databaseUrl)
    case JwtSecretKey => Some(env.jwtSecret)
    case JwtRefreshSecretKey => Some(env.jwtRefreshSecret)
    case StripeSecretKeyKey => Some(env.stripeSecretKey)
    case StripeWebhookKeyKey => Some(env.stripeWebhookKey)
    case ProductImagePathKey => Some(env.productImagePath)
    case PostgresUrlKey => env.postgresUrl
    case PrismaDatabaseUrlKey => env.prismaDatabaseUrl
    case VercelOidcTokenKey => env.vercelOidcToken
  }

  function Select(env: Env, key: Option<EnvKey>): EnvValue {
    match key
    case None => WholeEnv(env)
    case Some(k) => FieldValue(EnvField(env, k))
  }

  /** The module-level `cachedEnv`. */
  class EnvCache {
    var cached: Option<Env>

    constructor ()
      ensures cached.None?
    {
      cached := None;
    }

    /** `validateEnv(key?)`: parses only while nothing is cached; a failed
        parse throws the issue list and leaves the cache empty. */
    method ValidateEnv(input: EnvInput, isUrl: string -> bool, key: Option<EnvKey>) returns (r: Result<EnvValue, string>)
      modifies this
      ensures old(cached).Some? ==> cached == old(cached) && r == Ok(Select(old(cached).value, key))
      ensures old(cached).None? ==>
        match ParseEnv(input, isUrl)
        case Err(issues) => cached.None? && r == Err(EnvErrorMessage(issues))
        case Ok(env) => cached == Some(env) && r == Ok(Select(env, key))
    {
      if cached.None? {
        var parsed := ParseEnv(input, isUrl);
        if parsed.Err? {
          return Err(EnvErrorMessage(parsed.error));
        }
        cached := Some(parsed.value);
      }
      r := Ok(Select(cached.value, key));
    }
  }

  /** Once the cache is filled, a changed environment is not looked at. */
  method CachedEnvIsStable(cache: EnvCache, first: EnvInput, second: EnvInput, isUrl: string -> bool)
    returns (a: Result<EnvValue, string>, b: Result<EnvValue, string>)
    requires cache.cached.None? && ParseEnv(first, isUrl).Ok?
    modifies cache
    ensures a == b == Ok(WholeEnv(ParseEnv(first, isUrl).value))
  {
    a := cache.ValidateEnv(first, isUrl, None);
    b := cache.ValidateEnv(second, isUrl, None);
  }
}
