/**
  The value types shared by the store, the configuration panel and the view
  router: the application configuration, the navigation step, posts and the
  sitemap cache.

  The `types` module of the application is not part of this model; the
  configuration schema below is the one that DEFAULT_CONFIG and the
  configuration panel use.
 */
module Types {

  datatype Option<T> = None | Some(value: T)

  /**
    One configuration entry: a string, a number or a boolean. The two numeric
    fields are JavaScript numbers (doubles); nothing in this core computes
    with them, so they are modelled as integers.
   */
  datatype Value = Str(text: string) | Num(number: int) | Flag(on: bool)

  /** The fields of AppConfig. */
  datatype Field =
    | AmazonTag | AmazonAccessKey | AmazonSecretKey | AmazonRegion
    | WpUrl | WpUser | WpAppPassword | SerpApiKey
    | AutoPublishThreshold | ConcurrencyLimit | EnableSchema | EnableStickyBar
    | BoxStyle | AiProvider | AiModel | CustomModel
    | GeminiApiKey | OpenaiApiKey | AnthropicApiKey | GroqApiKey | OpenrouterApiKey

  /**
    AppConfig is a record: a map from its fields to their values. A
    Partial<AppConfig> is the same map with fewer keys, so it shares the type.
   */
  type AppConfig = map<Field, Value>

  /** The kinds of configuration field. */
  datatype Kind = TextKind | NumberKind | FlagKind | ProviderKind

  /** The AI providers the panel offers. */
  datatype Provider = Gemini | OpenAI | Anthropic | Groq | OpenRouter

  function ProviderName(p: Provider): string {
    match p
    case Gemini => "gemini"
    case OpenAI => "openai"
    case Anthropic => "anthropic"
    case Groq => "groq"
    case OpenRouter => "openrouter"
  }

  /**
    The provider a stored name denotes, if any: the branches
    `config.aiProvider === 'gemini'`, ... of the form. A name no provider
    carries selects none of them.
   */
  function ParseProvider(name: string): (r: Option<Provider>)
    ensures r.Some? ==> ProviderName(r.value) == name
    ensures r.None? ==> forall p :: ProviderName(p) != name
  {
    if name == "gemini" then Some(Gemini)
    else if name == "openai" then Some(OpenAI)
    else if name == "anthropic" then Some(Anthropic)
    else if name == "groq" then Some(Groq)
    else if name == "openrouter" then Some(OpenRouter)
    else None
  }

  /** Every provider's name parses back to that provider. */
  lemma ParseProviderName(p: Provider)
    ensures ParseProvider(ProviderName(p)) == Some(p)
  {
  }

  /** The kind of value each field holds. */
  function KindOf(f: Field): Kind {
    match f
    case AutoPublishThreshold | ConcurrencyLimit => NumberKind
    case EnableSchema | EnableStickyBar => FlagKind
    case AiProvider => ProviderKind
    case _ => TextKind
  }

  /**
    The fields every AppConfig carries. The rest are optional: the form reads
    each of them as `config.field || ''`.
   */
  predicate Required(f: Field) {
    !(f.SerpApiKey? || f.CustomModel? || f.GeminiApiKey? || f.OpenaiApiKey? || f.AnthropicApiKey?
      || f.GroqApiKey? || f.OpenrouterApiKey?)
  }

  predicate Fits(v: Value, kind: Kind) {
    match kind
    case TextKind => v.Str?
    case NumberKind => v.Num?
    case FlagKind => v.Flag?
    case ProviderKind => v.Str? && ParseProvider(v.text).Some?
  }

  /** A Partial<AppConfig>: every field present holds a value of its kind. */
  predicate WellTyped(c: AppConfig) {
    forall f :: f in c ==> Fits(c[f], KindOf(f))
  }

  /** A complete AppConfig: well typed and carrying every required field. */
  predicate WellFormed(c: AppConfig) {
    WellTyped(c) && forall f: Field :: Required(f) ==> f in c
  }

  /**
    The string a text field holds, read as `c.field || ''`: a missing
    (undefined) field reads as the empty string.
   */
  function Text(c: AppConfig, f: Field): string {
    if f in c && c[f].Str? then c[f].text else ""
  }

  /** The navigation step, AppStep.SITEMAP or AppStep.EDITOR. */
  datatype AppStep = Sitemap | Editor

  /** A post is opaque to this core except for its identity. */
  datatype BlogPost = BlogPost(id: int, fields: map<string, Value>)

  /** The scanned site and the posts discovered on it, in order. */
  datatype SitemapState = SitemapState(url: string, posts: seq<BlogPost>)
}
