/**
  The application store (stores/app-store.ts): one process-wide state holding
  the entry flag, the committed configuration, the sitemap cache, the
  navigation step and the selected post, changed only through five named
  setters. Only the entry flag, the configuration and the sitemap are
  persisted.
 */
module AppStore {
  import opened Types

  /** DEFAULT_CONFIG. */
  function DefaultConfig(): AppConfig {
    map[
      AmazonTag := Str(""),
      AmazonAccessKey := Str(""),
      AmazonSecretKey := Str(""),
      AmazonRegion := Str("us-east-1"),
      WpUrl := Str(""),
      WpUser := Str(""),
      WpAppPassword := Str(""),
      SerpApiKey := Str(""),
      AutoPublishThreshold := Num(85),
      ConcurrencyLimit := Num(5),
      EnableSchema := Flag(true),
      EnableStickyBar := Flag(true),
      BoxStyle := Str("PREMIUM"),
      AiProvider := Str("gemini"),
      AiModel := Str("gemini-2.0-flash")
    ]
  }

  /** DEFAULT_CONFIG is complete; besides the required fields it sets only the SerpApi key. */
  lemma DefaultConfigWellFormed()
    ensures WellFormed(DefaultConfig())
    ensures forall f :: f in DefaultConfig() <==> Required(f) || f == SerpApiKey
  {
  }

  /**
    The shallow merge `{ ...config, ...partial }`: every key of `partial` takes
    its value from `partial`, every other key keeps its value in `config`.
   */
  function Merge(config: AppConfig, partial: AppConfig): (r: AppConfig)
    ensures r.Keys == config.Keys + partial.Keys
    ensures forall k :: k in partial ==> r[k] == partial[k]
    ensures forall k :: k in config && k !in partial ==> r[k] == config[k]
  {
    config + partial
  }

  /** Merging the empty partial record changes nothing. */
  lemma MergeEmpty(config: AppConfig)
    ensures Merge(config, map[]) == config
  {
  }

  /** Two successive merges are one merge with the two partials merged, the later winning. */
  lemma MergeTwice(config: AppConfig, p1: AppConfig, p2: AppConfig)
    ensures Merge(Merge(config, p1), p2) == Merge(config, Merge(p1, p2))
  {
  }

  /** Merging a well-typed partial record into a complete configuration yields a complete configuration. */
  lemma MergeWellFormed(config: AppConfig, partial: AppConfig)
    requires WellFormed(config) && WellTyped(partial)
    ensures WellFormed(Merge(config, partial))
  {
  }

  /** A snapshot of the store's data fields. */
  datatype StoreState = StoreState(
    hasEntered: bool,
    config: AppConfig,
    sitemap: SitemapState,
    currentStep: AppStep,
    selectedPost: Option<BlogPost>)

  /** The state the store is created with. */
  function InitialState(): StoreState {
    StoreState(false, DefaultConfig(), SitemapState("", []), Sitemap, None)
  }

  /** The persisted subset `{ hasEntered, config, sitemap }`. */
  datatype Persisted = Persisted(hasEntered: bool, config: AppConfig, sitemap: SitemapState)

  /** `partialize`: the part of the state written to durable storage. */
  function Partialize(s: StoreState): Persisted {
    Persisted(s.hasEntered, s.config, s.sitemap)
  }

  /**
    Two states persist alike exactly when they agree on the entry flag, the
    configuration and the sitemap: the step and the selected post never reach
    durable storage.
   */
  lemma PartializeExactly(s: StoreState, t: StoreState)
    ensures Partialize(s) == Partialize(t) <==>
      s.hasEntered == t.hasEntered && s.config == t.config && s.sitemap == t.sitemap
  {
  }

  /** Navigation does not change what is persisted. */
  lemma PartializeIgnoresNavigation(s: StoreState, step: AppStep, post: Option<BlogPost>)
    ensures Partialize(s.(currentStep := step, selectedPost := post)) == Partialize(s)
  {
  }

  /** The store created by `create(persist(...))`, with its setters. */
  class Store {
    var hasEntered: bool
    var config: AppConfig
    var sitemap: SitemapState
    var currentStep: AppStep
    var selectedPost: Option<BlogPost>

    /** The configuration stays a complete, well-typed AppConfig. */
    ghost predicate Valid()
      reads this
    {
      WellFormed(config)
    }

    function State(): StoreState
      reads this
    {
      StoreState(hasEntered, config, sitemap, currentStep, selectedPost)
    }

    constructor ()
      ensures Valid()
      ensures State() == InitialState()
    {
      hasEntered := false;
      config := DefaultConfig();
      sitemap := SitemapState("", []);
      currentStep := Sitemap;
      selectedPost := None;
      DefaultConfigWellFormed();
    }

    /** `enter`: sets the entry flag; nothing else changes. */
    method Enter()
      requires Valid()
      modifies this
      ensures Valid()
      ensures State() == old(State()).(hasEntered := true)
    {
      hasEntered := true;
    }

    /** `updateConfig`: shallow-merges `partial` into the configuration; nothing else changes. */
    method UpdateConfig(partial: AppConfig)
      requires Valid() && WellTyped(partial)
      modifies this
      ensures Valid()
      ensures State() == old(State()).(config := Merge(old(config), partial))
    {
      MergeWellFormed(config, partial);
      config := Merge(config, partial);
    }

    /** `setSitemap`: replaces the sitemap cache wholesale. */
    method SetSitemap(state: SitemapState)
      requires Valid()
      modifies this
      ensures Valid()
      ensures State() == old(State()).(sitemap := state)
    {
      sitemap := state;
    }

    /** `setStep`: replaces the step; there is no transition guard. */
    method SetStep(step: AppStep)
      requires Valid()
      modifies this
      ensures Valid()
      ensures State() == old(State()).(currentStep := step)
    {
      currentStep := step;
    }

    /** `setSelectedPost`: replaces the selection; `None` (null) clears it. */
    method SetSelectedPost(post: Option<BlogPost>)
      requires Valid()
      modifies this
      ensures Valid()
      ensures State() == old(State()).(selectedPost := post)
    {
      selectedPost := post;
    }
  }

  /** Entering twice is the same as entering once. */
  method EnterTwice(store: Store)
    requires store.Valid()
    modifies store
    ensures store.State() == old(store.State()).(hasEntered := true)
  {
    store.Enter();
    ghost var once := store.State();
    store.Enter();
    assert store.State() == once;
  }
}
