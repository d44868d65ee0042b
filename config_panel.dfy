/**
  The configuration panel (components/ConfigPanel.tsx): a local draft of the
  configuration with its seven API-key fields decrypted, edited field by field
  behind four tabs, tested against the site and, on submit, handed back with
  those seven fields encrypted again.

  The obfuscation functions and the connection test belong to a `utils`
  module that is not part of this model: the two string transforms are
  passed in as a `Cipher` of which nothing is assumed (no round-trip law),
  and the connection test's outcome is a parameter.
 */
module ConfigPanel {
  import opened Types

  /** SecureStorage.encrypt and SecureStorage.decrypt, left uninterpreted. */
  datatype Cipher = Cipher(encrypt: string -> string, decrypt: string -> string)

  /** Whether a field is one of the seven secret fields, encrypted at rest. */
  predicate Secret(f: Field) {
    f.AmazonAccessKey? || f.AmazonSecretKey? || f.GeminiApiKey? || f.OpenaiApiKey?
    || f.AnthropicApiKey? || f.GroqApiKey? || f.OpenrouterApiKey?
  }

  /** The same seven fields as a finite set, the domain the recoding adds. */
  const SecretFields: set<Field> := {
    AmazonAccessKey, AmazonSecretKey,
    GeminiApiKey, OpenaiApiKey, AnthropicApiKey, GroqApiKey, OpenrouterApiKey
  }

  lemma SecretFieldsAreSecret()
    ensures forall f :: f in SecretFields <==> Secret(f)
  {
  }

  /**
    The object spread `{ ...config, amazonAccessKey: t(config.amazonAccessKey || ''), ... }`
    over the seven secret fields: each one is replaced by the transform of its
    old string, every other field is carried over untouched, and a complete
    configuration stays complete.
   */
  function Recode(config: AppConfig, t: string -> string): (r: AppConfig)
    ensures forall f :: f in r <==> f in config || Secret(f)
    ensures forall f :: Secret(f) ==> r[f] == Str(t(Text(config, f)))
    ensures forall f :: f in config && !Secret(f) ==> r[f] == config[f]
  {
    map f | f in config.Keys + SecretFields :: if Secret(f) then Str(t(Text(config, f))) else config[f]
  }

  /** A secret field after recoding holds the transform of its old text. */
  lemma RecodeSecret(config: AppConfig, t: string -> string, f: Field)
    requires Secret(f)
    ensures f in Recode(config, t) && Text(Recode(config, t), f) == t(Text(config, f))
    ensures Recode(config, t)[f] == Str(t(Text(config, f)))
  {
  }

  /** Recoding a complete configuration yields a complete configuration: the secret fields are text fields. */
  lemma RecodeWellFormed(config: AppConfig, t: string -> string)
    requires WellFormed(config)
    ensures WellFormed(Recode(config, t))
  {
    var r := Recode(config, t);
    forall f | f in r
      ensures Fits(r[f], KindOf(f))
    {
      if Secret(f) {
        assert KindOf(f) == TextKind;
      } else {
        assert f in config && r[f] == config[f];
      }
    }
    assert WellTyped(r);
    forall f: Field | Required(f)
      ensures f in r
    {
      assert f in config;
    }
  }

  /** The initial draft: `initialConfig` with the seven secret fields decrypted. */
  function Unseal(initialConfig: AppConfig, decrypt: string -> string): AppConfig {
    Recode(initialConfig, decrypt)
  }

  /**
    The record `handleSubmit` hands to `onSave`: the draft with exactly the
    seven secret fields encrypted; the WordPress application password, the
    SerpApi key and every other field pass through as they are.
    `handleSubmit` encrypts the two Amazon keys without the `|| ''` default
    it gives the provider keys; the two agree on every draft the panel holds,
    since its invariant keeps both keys present as strings.
   */
  function Seal(draft: AppConfig, encrypt: string -> string): AppConfig {
    Recode(draft, encrypt)
  }

  /** The four tabs. */
  datatype Tab = Wp | Amazon | Ai | Sota

  /** The connection-test indicator. */
  datatype TestStatus = Idle | Testing | Success | Error

  /** The API-key field shown for each provider. */
  function KeyField(p: Provider): Field {
    match p
    case Gemini => GeminiApiKey
    case OpenAI => OpenaiApiKey
    case Anthropic => AnthropicApiKey
    case Groq => GroqApiKey
    case OpenRouter => OpenrouterApiKey
  }

  /** The options of the model selector; Groq and OpenRouter have a free-text model field instead. */
  function ModelOptions(p: Provider): seq<string> {
    match p
    case Gemini => ["gemini-2.0-flash", "gemini-1.5-flash", "gemini-1.5-pro"]
    case OpenAI => ["gpt-4o", "gpt-4o-mini", "gpt-4-turbo", "gpt-3.5-turbo"]
    case Anthropic => ["claude-3-5-sonnet-20241022", "claude-3-5-haiku-20241022", "claude-3-opus-20240229"]
    case Groq => []
    case OpenRouter => []
  }

  /** One `onChange` of a form control. */
  datatype Edit =
    | SetText(field: Field, text: string)
    | SetFlag(field: Field, on: bool)
    | SwitchProvider(provider: Provider)

  /** The draft fields an edit writes. */
  function Touched(e: Edit): set<Field> {
    match e
    case SetText(f, _) => {f}
    case SetFlag(f, _) => {f}
    case SwitchProvider(_) => {AiProvider, AiModel}
  }

  /**
    `setConfig({ ...config, field: value })`: the edited field takes the new
    value, a provider switch also empties the model, and every other field
    keeps its value.
   */
  function ApplyEdit(draft: AppConfig, e: Edit): (r: AppConfig)
    ensures r.Keys == draft.Keys + Touched(e)
    ensures forall f :: f in draft && f !in Touched(e) ==> r[f] == draft[f]
    ensures e.SetText? ==> r[e.field] == Str(e.text)
    ensures e.SetFlag? ==> r[e.field] == Flag(e.on)
    ensures e.SwitchProvider? ==>
      r[AiProvider] == Str(ProviderName(e.provider)) && r[AiModel] == Str("")
  {
    match e
    case SetText(f, text) => draft[f := Str(text)]
    case SetFlag(f, on) => draft[f := Flag(on)]
    case SwitchProvider(p) => draft[AiProvider := Str(ProviderName(p))][AiModel := Str("")]
  }

  /** A sequence of edits, applied in order. */
  function ApplyEdits(draft: AppConfig, es: seq<Edit>): AppConfig
    decreases |es|
  {
    if es == [] then draft else ApplyEdits(ApplyEdit(draft, es[0]), es[1..])
  }

  /** The fields whose controls sit on each tab. */
  function TabFields(tab: Tab): set<Field> {
    match tab
    case Wp => {WpUrl, WpUser, WpAppPassword}
    case Amazon => {AmazonTag, SerpApiKey}
    case Ai => {AiProvider, AiModel, CustomModel,
                GeminiApiKey, OpenaiApiKey, AnthropicApiKey, GroqApiKey, OpenrouterApiKey}
    case Sota => {EnableSchema, EnableStickyBar}
  }

  /**
    Whether the form shows the control that produces `e`, given the active
    tab and the selected provider: the WordPress fields on the first tab, the
    associate tag and SerpApi key on the second, the provider selector, the
    selected provider's key and its model control on the third, the two
    feature switches on the fourth. A `<select>` fires no change event when
    its current option is chosen again, so a provider switch always picks a
    different provider. The model selector is not narrowed the same way:
    after a switch `aiModel` is empty, the select displays its first option,
    and choosing that option fires no event in the browser, whereas `Shows`
    still admits it; every property below quantifies over all shown edits,
    so this only adds edits, it hides none.
   */
  predicate Shows(e: Edit, tab: Tab, provider: Option<Provider>): (r: bool)
    ensures r ==> Touched(e) <= TabFields(tab)
  {
    match e
    case SetText(f, text) =>
      (match f
       case WpUrl | WpUser | WpAppPassword => tab == Wp
       case AmazonTag | SerpApiKey => tab == Amazon
       case AiModel => tab == Ai && provider.Some? && text in ModelOptions(provider.value)
       case CustomModel => tab == Ai && (provider == Some(Groq) || provider == Some(OpenRouter))
       case _ => tab == Ai && provider.Some? && f == KeyField(provider.value))
    case SetFlag(f, _) => tab == Sota && (f == EnableSchema || f == EnableStickyBar)
    case SwitchProvider(p) => tab == Ai && provider != Some(p)
  }

  /** The fields that have a control in the form. */
  const InputFields: set<Field> := {
    WpUrl, WpUser, WpAppPassword, AmazonTag, SerpApiKey,
    AiProvider, AiModel, CustomModel,
    GeminiApiKey, OpenaiApiKey, AnthropicApiKey, GroqApiKey, OpenrouterApiKey,
    EnableSchema, EnableStickyBar
  }

  /** A shown control only writes fields that have a control, with values of their kind. */
  lemma ShownEdit(e: Edit, tab: Tab, provider: Option<Provider>)
    requires Shows(e, tab, provider)
    ensures Touched(e) <= InputFields
    ensures e.SetText? ==> KindOf(e.field) == TextKind
    ensures e.SetFlag? ==> KindOf(e.field) == FlagKind
  {
  }

  /** On the AI tab the only API-key control shown is the selected provider's. */
  lemma OnlySelectedKeyShown(f: Field, text: string, p: Provider)
    requires Shows(SetText(f, text), Ai, Some(p))
    requires f in [GeminiApiKey, OpenaiApiKey, AnthropicApiKey, GroqApiKey, OpenrouterApiKey]
    ensures f == KeyField(p)
  {
  }

  /** An edit made through a shown control keeps the draft well formed. */
  lemma ShownEditWellFormed(draft: AppConfig, e: Edit, tab: Tab, provider: Option<Provider>)
    requires WellFormed(draft) && Shows(e, tab, provider)
    ensures WellFormed(ApplyEdit(draft, e))
  {
    ShownEdit(e, tab, provider);
    var r := ApplyEdit(draft, e);
    forall f | f in r
      ensures Fits(r[f], KindOf(f))
    {
      if f !in Touched(e) {
        assert r[f] == draft[f];
      } else if e.SwitchProvider? && f == AiProvider {
        ParseProviderName(e.provider);
      }
    }
  }

  /**
    Edits made through the form's controls never touch a field without a
    control: such a field keeps its presence and its value.
   */
  lemma {:induction false} EditsKeepUncontrolled(draft: AppConfig, es: seq<Edit>, f: Field)
    requires forall i :: 0 <= i < |es| ==> Touched(es[i]) <= InputFields
    requires f !in InputFields
    ensures f in ApplyEdits(draft, es) <==> f in draft
    ensures f in draft ==> ApplyEdits(draft, es)[f] == draft[f]
    decreases |es|
  {
    if es != [] {
      EditsKeepUncontrolled(ApplyEdit(draft, es[0]), es[1..], f);
    }
  }

  /** The form has no control for the Amazon access and secret keys. */
  lemma AmazonKeysUncontrolled()
    ensures AmazonAccessKey !in InputFields && AmazonSecretKey !in InputFields
  {
  }

  /** A field without a control reads the same text after any edits through the form. */
  lemma EditsKeepText(draft: AppConfig, es: seq<Edit>, f: Field)
    requires forall i :: 0 <= i < |es| ==> Touched(es[i]) <= InputFields
    requires f !in InputFields
    ensures Text(ApplyEdits(draft, es), f) == Text(draft, f)
  {
    EditsKeepUncontrolled(draft, es, f);
  }

  /** Sealing after edits through the form encrypts the unedited text of a secret field without a control. */
  lemma SealAfterEdits(draft: AppConfig, encrypt: string -> string, es: seq<Edit>, f: Field)
    requires Secret(f) && f !in InputFields
    requires forall i :: 0 <= i < |es| ==> Touched(es[i]) <= InputFields
    ensures Seal(ApplyEdits(draft, es), encrypt)[f] == Str(encrypt(Text(draft, f)))
  {
    EditsKeepText(draft, es, f);
    RecodeSecret(ApplyEdits(draft, es), encrypt, f);
  }

  /**
    The Amazon access and secret keys have no control in the form, so
    whatever is edited in between, submitting stores the encryption of the
    decryption of the value the panel was mounted with.
   */
  lemma AmazonKeysReencrypted(initialConfig: AppConfig, c: Cipher, es: seq<Edit>, f: Field)
    requires f == AmazonAccessKey || f == AmazonSecretKey
    requires forall i :: 0 <= i < |es| ==> Touched(es[i]) <= InputFields
    ensures Seal(ApplyEdits(Unseal(initialConfig, c.decrypt), es), c.encrypt)[f]
      == Str(c.encrypt(c.decrypt(Text(initialConfig, f))))
  {
    AmazonKeysUncontrolled();
    RecodeSecret(initialConfig, c.decrypt, f);
    SealAfterEdits(Unseal(initialConfig, c.decrypt), c.encrypt, es, f);
  }

  /** Switching the provider and saving stores the new provider with an empty model. */
  lemma SwitchThenSave(draft: AppConfig, p: Provider, encrypt: string -> string)
    requires WellFormed(draft)
    ensures WellFormed(ApplyEdit(draft, SwitchProvider(p)))
    ensures Seal(ApplyEdit(draft, SwitchProvider(p)), encrypt)[AiProvider] == Str(ProviderName(p))
    ensures Seal(ApplyEdit(draft, SwitchProvider(p)), encrypt)[AiModel] == Str("")
  {
    ShownEditWellFormed(draft, SwitchProvider(p), Ai, None);
  }

  /** The panel component's state. */
  class Panel {
    const cipher: Cipher
    var draft: AppConfig
    var isOpen: bool
    var activeTab: Tab
    var testStatus: TestStatus
    /** The records handed to `onSave`, oldest first. */
    ghost var saves: seq<AppConfig>

    /** The draft is a complete configuration and holds all seven secret fields. */
    ghost predicate Valid()
      reads this
    {
      WellFormed(draft) && forall f :: Secret(f) ==> f in draft
    }

    /** The provider the draft selects. */
    function SelectedProvider(): Option<Provider>
      reads this
    {
      ParseProvider(Text(draft, AiProvider))
    }

    /**
      The browser submits the form only when it is shown and every `required`
      control on the visible tab is filled in.
     */
    predicate CanSubmit()
      reads this
    {
      && isOpen
      && (activeTab == Wp ==>
            Text(draft, WpUrl) != "" && Text(draft, WpUser) != "" && Text(draft, WpAppPassword) != "")
      && (activeTab == Amazon ==> Text(draft, AmazonTag) != "")
    }

    /** Mounting: the draft is seeded from `initialConfig` with the secrets decrypted, the panel closed. */
    constructor (initialConfig: AppConfig, cipher: Cipher)
      requires WellFormed(initialConfig)
      ensures Valid()
      ensures this.cipher == cipher
      ensures draft == Unseal(initialConfig, cipher.decrypt)
      ensures !isOpen && activeTab == Wp && testStatus == Idle && saves == []
    {
      var seeded := Unseal(initialConfig, cipher.decrypt);
      RecodeWellFormed(initialConfig, cipher.decrypt);
      this.cipher := cipher;
      draft := seeded;
      isOpen := false;
      activeTab := Wp;
      testStatus := Idle;
      saves := [];
    }

    /** The gear button: opens the panel; the draft is not re-seeded. */
    method Open()
      requires Valid()
      modifies this`isOpen
      ensures Valid() && isOpen
    {
      isOpen := true;
    }

    /** The close button: closes the panel without saving; the draft is kept. */
    method Close()
      requires Valid() && isOpen
      modifies this`isOpen
      ensures Valid() && !isOpen
    {
      isOpen := false;
    }

    /** A tab button: changes only the active tab. */
    method SelectTab(t: Tab)
      requires Valid() && isOpen
      modifies this`activeTab
      ensures Valid() && activeTab == t
    {
      activeTab := t;
    }

    /** The `onChange` of a shown control. */
    method Change(e: Edit)
      requires Valid() && isOpen && Shows(e, activeTab, SelectedProvider())
      modifies this`draft
      ensures Valid()
      ensures draft == ApplyEdit(old(draft), e)
    {
      ShownEditWellFormed(draft, e, activeTab, SelectedProvider());
      draft := ApplyEdit(draft, e);
    }

    /**
      The first half of `handleTestConnection`: the indicator shows the test
      running, and the test is sent the current draft.
     */
    method BeginTest() returns (probe: AppConfig)
      requires Valid() && isOpen && activeTab == Wp
      modifies this`testStatus
      ensures Valid() && testStatus == Testing
      ensures probe == draft
    {
      testStatus := Testing;
      probe := draft;
    }

    /** The second half, when the awaited test resolves. */
    method FinishTest(succeeded: bool)
      requires Valid()
      modifies this`testStatus
      ensures Valid()
      ensures testStatus == if succeeded then Success else Error
    {
      if succeeded {
        testStatus := Success;
      } else {
        testStatus := Error;
      }
    }

    /** `handleSubmit`: the record for `onSave`, which is called once, after which the panel closes. */
    method Submit() returns (saved: AppConfig)
      requires Valid() && CanSubmit()
      modifies this`isOpen, this`saves
      ensures Valid() && !isOpen
      ensures saved == Seal(draft, cipher.encrypt)
      ensures saves == old(saves) + [saved]
      ensures WellFormed(saved)
    {
      saved := Seal(draft, cipher.encrypt);
      RecodeWellFormed(draft, cipher.encrypt);
      saves := saves + [saved];
      isOpen := false;
    }
  }
}
