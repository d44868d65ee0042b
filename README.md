# AmzWP Automator: application state, view routing and configuration panel

This project models the small state machine at the core of the AmzWP
Automator browser front end:

- the application store (`stores/app-store.ts`): the entry flag, the
  committed configuration, the sitemap cache, the navigation step and the
  selected post, changed only by five named setters; the configuration setter
  shallow-merges a partial record; `partialize` picks what is persisted;
- the view router and its callbacks (`App.tsx`): the landing page before
  entry, then the configuration panel plus the sitemap scanner or the post
  editor, and the store mutations behind selecting a post, going back and
  switching posts;
- the configuration panel (`components/ConfigPanel.tsx`): a local draft of the
  configuration whose seven API-key fields are decrypted when the panel is
  mounted, edited one field at a time behind four tabs, tested against the
  WordPress site, and on submit handed to the store with those seven fields
  encrypted again.

Files:

- `types.dfy` (module `Types`): `AppConfig` as a map from the configuration
  fields to string, number or boolean values (a `Partial<AppConfig>` is the
  same map with fewer keys, so the object spread becomes Dafny's right-biased
  map union), the field kinds, the required fields, the AI providers, the
  navigation step, posts and the sitemap cache.
- `app_store.dfy` (module `AppStore`): `DEFAULT_CONFIG`, the merge, the store
  snapshot, `partialize`, and the store as a class with one method per setter.
- `config_panel.dfy` (module `ConfigPanel`): the secret-field recoding, the
  field edits, which controls the form shows, and the panel as a class.
- `app.dfy` (module `App`): the rendered view tree as a function of the store,
  the callbacks as events, the reachable-state invariant, and the callbacks
  as methods on a store.

`SecureStorage.encrypt`, `SecureStorage.decrypt` and `testConnection` live in a
`utils` module that is not part of this model. The two string transforms are
parameters (`ConfigPanel.Cipher`) about which nothing is assumed, not even a
round trip; the connection test's outcome is a boolean parameter of
`Panel.FinishTest`.

Behaviour of the code that a reader might not expect, modelled as written:

- The draft is seeded once, when the panel is mounted. Opening the panel does
  not re-seed it and closing it does not discard it: edits made before a close
  are still in the draft when the panel is reopened, and a later submit
  commits them (`Panel.Open`, `Panel.Close`, `App.DiscardProviderSwitch`).
- Only the seven API-key fields are encrypted. The WordPress application
  password and the SerpApi key are stored as typed (`ConfigPanel.Recode`).
- The Amazon access and secret keys have no control in the form, so every
  submit stores `encrypt(decrypt(v))` for them, where `v` is the value the
  panel was mounted with (`ConfigPanel.AmazonKeysReencrypted`).
- Switching the provider empties `aiModel`, and saving then stores the empty
  model (`ConfigPanel.SwitchThenSave`).
- After a provider switch `aiModel` is empty, so the model selector displays
  its first (recommended) option while a save stores the empty model
  (`ConfigPanel.SwitchThenSave`); choosing that displayed option fires no
  change event in the browser, which `ConfigPanel.Shows` does not narrow.
- The editor's `onSwitchPost` is the raw `setSelectedPost`, which accepts null;
  switching to null leaves the editor step with nothing selected, and the main
  area then renders nothing (`App.SwitchToNullEmptiesMain`).

## Model

| member | source | states |
|---|---|---|
| Types.ParseProvider | components/ConfigPanel.tsx:122-184 | the `config.aiProvider === '…'` branches: a stored name selects the provider carrying exactly that name, and a name no provider carries selects none |
| Types.ParseProviderName | components/ConfigPanel.tsx:113-119 | every provider the selector offers is stored under a name that reads back as that provider |
| AppStore.DefaultConfig | stores/app-store.ts:5-21 | DEFAULT_CONFIG, value for value: empty credentials, region `us-east-1`, threshold 85, concurrency 5, schema and sticky bar on, box style `PREMIUM`, provider `gemini` with model `gemini-2.0-flash` |
| AppStore.DefaultConfigWellFormed | stores/app-store.ts:5-21 | DEFAULT_CONFIG is a complete, well-typed configuration and sets exactly the required fields plus the optional SerpApi key |
| AppStore.Merge | stores/app-store.ts:47-48 | after the merge a key of the partial record has the partial's value, every other key keeps its old value, and the keys are the union |
| AppStore.MergeEmpty | stores/app-store.ts:47-48 | `updateConfig({})` leaves the configuration unchanged |
| AppStore.MergeTwice | stores/app-store.ts:47-48 | two successive updates equal one update with the two partials merged, the later winning on shared keys |
| AppStore.MergeWellFormed | stores/app-store.ts:31 | merging a well-typed `Partial<AppConfig>` into a complete configuration keeps it complete and well typed |
| AppStore.InitialState | stores/app-store.ts:40-44 | the state the store is created with: not entered, DEFAULT_CONFIG, an empty sitemap cache (no URL, no posts), the sitemap step and no selected post |
| AppStore.Partialize | stores/app-store.ts:56-60 | the persisted subset `{ hasEntered, config, sitemap }` |
| AppStore.PartializeExactly | stores/app-store.ts:56-60 | two states persist alike if and only if they agree on `hasEntered`, `config` and `sitemap` |
| AppStore.PartializeIgnoresNavigation | stores/app-store.ts:56-60 | changing `currentStep` or `selectedPost` never changes what is persisted |
| AppStore.Store.constructor | stores/app-store.ts:40-44 | the store starts not entered, with DEFAULT_CONFIG, an empty sitemap, the sitemap step and no selected post |
| AppStore.Store.Enter | stores/app-store.ts:46 | `enter` sets `hasEntered` and changes nothing else |
| AppStore.EnterTwice | stores/app-store.ts:46 | entering twice leaves the same state as entering once |
| AppStore.Store.UpdateConfig | stores/app-store.ts:47-48 | `updateConfig` replaces `config` by the merge and leaves the four other fields untouched |
| AppStore.Store.SetSitemap | stores/app-store.ts:49 | `setSitemap` replaces only the sitemap |
| AppStore.Store.SetStep | stores/app-store.ts:50 | `setStep` replaces only the step, from any state to any step, with no guard |
| AppStore.Store.SetSelectedPost | stores/app-store.ts:51 | `setSelectedPost` replaces only the selection; null clears it |
| ConfigPanel.Unseal | components/ConfigPanel.tsx:12-21 | the draft seeded at mount: `initialConfig` with the seven API-key fields decrypted (their properties are `Recode`'s) |
| ConfigPanel.Seal | components/ConfigPanel.tsx:29-38 | the record `handleSubmit` builds: the draft with the seven API-key fields encrypted (their properties are `Recode`'s) |
| ConfigPanel.Recode | components/ConfigPanel.tsx:12-21 | the seven-field spread replaces each API-key field by the transform of its old string (missing reads as empty) and carries every other field, the application password and SerpApi key included, unchanged |
| ConfigPanel.RecodeWellFormed | components/ConfigPanel.tsx:29-37 | the record handed to `onSave` (and the seeded draft) is a complete, well-typed configuration |
| ConfigPanel.ModelOptions | components/ConfigPanel.tsx:128-161 | the option values of the model selector for Gemini, OpenAI and Anthropic, recommended option first; Groq and OpenRouter have none (a free-text model field instead) |
| ConfigPanel.ApplyEdit | components/ConfigPanel.tsx:113 | an edit writes exactly its own field, a provider switch writes the provider and an empty model, and every other draft field keeps its value |
| ConfigPanel.Shows | components/ConfigPanel.tsx:79-226 | which control renders for the active tab and the selected provider; a shown control writes only fields whose controls sit on the active tab; the provider select changes only to a different provider |
| ConfigPanel.ShownEdit | components/ConfigPanel.tsx:79-226 | every control the form can show writes only fields that have a control, with a value of the field's kind |
| ConfigPanel.OnlySelectedKeyShown | components/ConfigPanel.tsx:122-196 | on the AI tab the only API-key control shown is that of the selected provider |
| ConfigPanel.ShownEditWellFormed | components/ConfigPanel.tsx:83-224 | an edit through a shown control keeps the draft a complete, well-typed configuration |
| ConfigPanel.EditsKeepUncontrolled | components/ConfigPanel.tsx:83-224 | any sequence of edits through the form leaves every field without a control exactly as it was |
| ConfigPanel.AmazonKeysReencrypted | components/ConfigPanel.tsx:14-32 | whatever is edited, submitting stores `encrypt(decrypt(v))` for the Amazon access and secret keys, where `v` is the mounted value |
| ConfigPanel.SwitchThenSave | components/ConfigPanel.tsx:113 | switching the provider and saving commits the new provider with an empty model |
| ConfigPanel.Panel.constructor | components/ConfigPanel.tsx:12-25 | the draft is `initialConfig` with the seven API-key fields decrypted; the panel starts closed on the WordPress tab with the test idle and nothing saved |
| ConfigPanel.Panel.SelectedProvider | components/ConfigPanel.tsx:113-122 | the provider the draft's `aiProvider` selects, if any |
| ConfigPanel.Panel.CanSubmit | components/ConfigPanel.tsx:77-99 | the form submits only while shown and with the `required` controls of the visible tab (site URL, user and application password; associate tag) non-empty |
| ConfigPanel.Panel.Open | components/ConfigPanel.tsx:56 | the gear button sets only `isOpen`; the draft is not re-seeded |
| ConfigPanel.Panel.Close | components/ConfigPanel.tsx:66 | the close button clears only `isOpen`; nothing is saved (the log of saved records is outside its frame) |
| ConfigPanel.Panel.SelectTab | components/ConfigPanel.tsx:71 | a tab button changes only the active tab |
| ConfigPanel.Panel.Change | components/ConfigPanel.tsx:83-224 | the `onChange` of a shown control replaces the draft by the edited draft and changes nothing else |
| ConfigPanel.Panel.BeginTest | components/ConfigPanel.tsx:42-44 | the test shows as running and is sent the current draft, not `initialConfig` |
| ConfigPanel.Panel.FinishTest | components/ConfigPanel.tsx:45-51 | the indicator becomes success when the test succeeded and error otherwise |
| ConfigPanel.Panel.Submit | components/ConfigPanel.tsx:27-40 | submit hands `onSave` the draft with the seven API-key fields encrypted, exactly once (the ghost log of saved records grows by that record), then closes the panel; it fires only when the visible required fields are filled |
| App.Render | App.tsx:37-76 | landing alone before entry; after entry the panel always, with the committed config; the scanner iff on the sitemap step, given the sitemap cache and the config; the editor iff on the editor step with a post selected, keyed by its id and given the post, the config and the cached posts; never both |
| App.RunKeepsCoherent | App.tsx:50-73 | callbacks available in the rendered views, none switching to null, keep "editor step iff a post is selected" |
| App.RunKeepsEntered | App.tsx:37-47 | once entered, no callback returns the application to the landing page |
| App.ReachableShowsOneView | App.tsx:50-73 | in every entered state reached from the initial one through available callbacks that never switch the editor to null, exactly one of the scanner and the editor renders |
| App.SwitchToNullEmptiesMain | App.tsx:73 | switching the editor to null is reachable and then neither the scanner nor the editor renders |
| App.Enabled | App.tsx:37-76 | a callback is available only while the view holding it renders: enter on the landing page, save with the workspace, scan updates and post selection with the scanner, back and switch with the editor |
| App.Apply | App.tsx:40-73 | the store change each callback makes: `enter`, `updateConfig`, `setSitemap`, select (post and editor step), back (null and sitemap step), raw `setSelectedPost` |
| App.PostSelectOpensEditor | App.tsx:52-55 | selecting a post in the scanner shows the editor for that post instead of the scanner |
| App.BackShowsScanner | App.tsx:68-71 | going back clears the selection and shows the scanner |
| App.SwitchPostKeepsEditor | App.tsx:73 | switching to another post keeps the editor step and shows the editor for the new post |
| App.OnPostSelect | App.tsx:52-55 | `onPostSelect` sets the selected post and the editor step and nothing else |
| App.OnBack | App.tsx:68-71 | `onBack` clears the selection and sets the sitemap step and nothing else |
| App.OnSwitchPost | App.tsx:73 | `onSwitchPost` changes only the selected post |
| App.SaveFromPanel | App.tsx:47 | saving logs the panel's sealed draft once, merges it into the committed configuration and closes the panel |
| App.DiscardProviderSwitch | components/ConfigPanel.tsx:66 | opening, switching to a different provider and closing leaves the committed store state and the log of saved records unchanged while the draft keeps the switch |

## Left out

- Durable storage: the localStorage access, the JSON serialisation, writing on every change and the rehydration merge at start-up are library behaviour; only `partialize` is modelled; the storage name `amzwp-store-v1` is a constant of that library call.
- `SecureStorage.encrypt`, `SecureStorage.decrypt` and `testConnection`: their bodies are not part of this model; they are uninterpreted parameters, with no round-trip law.
- The connection test's asynchrony: it is split into `BeginTest` and `FinishTest`, and other events may run in between; two overlapping tests are allowed, as in the code.
- Toast notifications, all markup and styling, the loading spinner, and the lazy loading of the post editor with its `Suspense` fallback: presentation and resource loading only.
- `index.tsx` and `shell/app-shell.tsx`: framework wiring and a layout wrapper with no logic.
- The `types` module is not part of this model: the configuration schema is inferred from DEFAULT_CONFIG and the panel, and `BlogPost` is opaque except for its id. The fields the form reads as `config.field || ''` (the SerpApi key, the custom model and the five provider keys) are taken as optional; every other field as required.
- ConfigPanel.Panel.Submit: the browser's `type="url"` check on the site URL is not modelled; only the `required` checks of the visible tab are.
- The scanner and the editor components are not part of this model; their callbacks are modelled as events they may fire while rendered, with any argument.
- The panel is mounted when the workspace first renders and then reads `initialConfig` only once; the model builds it with its constructor and does not tie that moment to the store.
