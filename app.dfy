/**
  The top-level view router and its callbacks (App.tsx): which views render
  for a given store state, and the store mutations that the landing page,
  the configuration panel, the scanner and the editor trigger.
 */
module App {
  import opened Types
  import opened AppStore
  import ConfigPanel

  /** The props of the configuration panel; its `onSave` is the store's `updateConfig`. */
  datatype PanelProps = PanelProps(initialConfig: AppConfig)

  /** The props of the sitemap scanner. */
  datatype ScannerProps = ScannerProps(savedState: SitemapState, config: AppConfig)

  /** The props of the post editor, keyed by the post's id. */
  datatype EditorProps = EditorProps(key: int, post: BlogPost, config: AppConfig, allPosts: seq<BlogPost>)

  /**
    What `App` renders: the landing page alone, or the workspace holding the
    configuration panel and, in its main area, the scanner and the editor
    each behind its own condition.
   */
  datatype Screen =
    | Landing
    | Workspace(panel: PanelProps, scanner: Option<ScannerProps>, editor: Option<EditorProps>)

  /**
    The view selection. Before entry only the landing page renders. After
    entry the panel always renders with the committed configuration; the
    scanner renders exactly on the sitemap step; the editor renders exactly on
    the editor step with a post selected; never both.
   */
  function Render(s: StoreState): (r: Screen)
    ensures r.Landing? <==> !s.hasEntered
    ensures r.Workspace? ==> r.panel.initialConfig == s.config
    ensures r.Workspace? && r.scanner.Some? ==> r.scanner.value == ScannerProps(s.sitemap, s.config)
    ensures r.Workspace? && r.editor.Some? ==>
      r.editor.value.config == s.config && r.editor.value.allPosts == s.sitemap.posts
    ensures r.Workspace? ==> (r.scanner.Some? <==> s.currentStep == Sitemap)
    ensures r.Workspace? ==> (r.editor.Some? <==> s.currentStep == Editor && s.selectedPost.Some?)
    ensures r.Workspace? && r.editor.Some? ==>
      r.editor.value.post == s.selectedPost.value && r.editor.value.key == s.selectedPost.value.id
    ensures r.Workspace? ==> !(r.scanner.Some? && r.editor.Some?)
  {
    if !s.hasEntered then Landing
    else
      Workspace(
        PanelProps(s.config),
        if s.currentStep == Sitemap then Some(ScannerProps(s.sitemap, s.config)) else None,
        if s.currentStep == Editor && s.selectedPost.Some? then
          Some(EditorProps(s.selectedPost.value.id, s.selectedPost.value, s.config, s.sitemap.posts))
        else None)
  }

  /** The callbacks the rendered views can invoke. */
  datatype Event =
    | Enter                                 // LandingPage onEnter
    | Save(saved: AppConfig)                // ConfigPanel onSave
    | ScanUpdate(sitemap: SitemapState)     // SitemapScanner onStateChange
    | PostSelect(post: BlogPost)            // SitemapScanner onPostSelect
    | Back                                  // PostEditor onBack
    | SwitchPost(target: Option<BlogPost>)  // PostEditor onSwitchPost

  /** A callback is available only while the view that holds it is rendered. */
  predicate Enabled(s: StoreState, e: Event) {
    var r := Render(s);
    match e
    case Enter => r.Landing?
    case Save(_) => r.Workspace?
    case ScanUpdate(_) => r.Workspace? && r.scanner.Some?
    case PostSelect(_) => r.Workspace? && r.scanner.Some?
    case Back => r.Workspace? && r.editor.Some?
    case SwitchPost(_) => r.Workspace? && r.editor.Some?
  }

  /** The store state after a callback runs. */
  function Apply(s: StoreState, e: Event): StoreState {
    match e
    case Enter => s.(hasEntered := true)
    case Save(saved) => s.(config := Merge(s.config, saved))
    case ScanUpdate(sitemap) => s.(sitemap := sitemap)
    case PostSelect(post) => s.(selectedPost := Some(post), currentStep := Editor)
    case Back => s.(selectedPost := None, currentStep := Sitemap)
    case SwitchPost(post) => s.(selectedPost := post)
  }

  /** Every event of `es`, in turn, is available when it runs. */
  predicate Allowed(s: StoreState, es: seq<Event>)
    decreases |es|
  {
    es == [] || (Enabled(s, es[0]) && Allowed(Apply(s, es[0]), es[1..]))
  }

  function Run(s: StoreState, es: seq<Event>): StoreState
    decreases |es|
  {
    if es == [] then s else Run(Apply(s, es[0]), es[1..])
  }

  /** The editor only ever switches to a real post, never to null. */
  predicate SwitchesToPosts(es: seq<Event>) {
    forall i :: 0 <= i < |es| ==> es[i] != SwitchPost(None)
  }

  /** The step and the selection agree: the editor step exactly when a post is selected. */
  predicate Coherent(s: StoreState) {
    s.currentStep == Editor <==> s.selectedPost.Some?
  }

  /** Available callbacks that do not switch to null keep the step and the selection coherent. */
  lemma {:induction false} RunKeepsCoherent(s: StoreState, es: seq<Event>)
    requires Coherent(s) && Allowed(s, es) && SwitchesToPosts(es)
    ensures Coherent(Run(s, es))
    decreases |es|
  {
    if es != [] {
      assert es[0] != SwitchPost(None);
      assert SwitchesToPosts(es[1..]) by {
        forall i | 0 <= i < |es[1..]| ensures es[1..][i] != SwitchPost(None) {
          assert es[1..][i] == es[i + 1];
        }
      }
      RunKeepsCoherent(Apply(s, es[0]), es[1..]);
    }
  }

  /** Once entered, the application never returns to the landing page. */
  lemma {:induction false} RunKeepsEntered(s: StoreState, es: seq<Event>)
    requires s.hasEntered
    ensures Run(s, es).hasEntered
    decreases |es|
  {
    if es != [] {
      RunKeepsEntered(Apply(s, es[0]), es[1..]);
    }
  }

  /**
    In every state reached from the initial one through available callbacks
    that never switch to null, an entered application shows exactly one of
    the scanner and the editor.
   */
  lemma ReachableShowsOneView(es: seq<Event>)
    requires Allowed(InitialState(), es) && SwitchesToPosts(es)
    ensures Run(InitialState(), es).hasEntered ==>
      var r := Render(Run(InitialState(), es));
      r.Workspace? && (r.scanner.Some? <==> !r.editor.Some?)
  {
    RunKeepsCoherent(InitialState(), es);
  }

  /**
    The editor's `onSwitchPost` is the raw `setSelectedPost`, so switching to
    null is not excluded: it leaves the editor step with nothing selected,
    and the main area then renders neither view.
   */
  lemma SwitchToNullEmptiesMain(post: BlogPost)
    ensures Allowed(InitialState(), [Enter, PostSelect(post), SwitchPost(None)])
    ensures var r := Render(Run(InitialState(), [Enter, PostSelect(post), SwitchPost(None)]));
      r.Workspace? && r.scanner.None? && r.editor.None?
  {
    var s1 := Apply(InitialState(), Enter);
    var s2 := Apply(s1, PostSelect(post));
    assert [Enter, PostSelect(post), SwitchPost(None)][1..] == [PostSelect(post), SwitchPost(None)];
    assert [PostSelect(post), SwitchPost(None)][1..] == [SwitchPost(None)];
    assert Run(s2, [SwitchPost(None)]) == s2.(selectedPost := None);
  }

  /** Selecting a post in the scanner replaces the scanner by the editor for that post. */
  lemma PostSelectOpensEditor(s: StoreState, post: BlogPost)
    requires Enabled(s, PostSelect(post))
    ensures var r := Render(Apply(s, PostSelect(post)));
      r.Workspace? && r.scanner.None? && r.editor.Some? && r.editor.value.post == post
  {
  }

  /** Going back from the editor shows the scanner again with nothing selected. */
  lemma BackShowsScanner(s: StoreState)
    requires Enabled(s, Back)
    ensures Apply(s, Back).selectedPost.None?
    ensures var r := Render(Apply(s, Back));
      r.Workspace? && r.scanner.Some? && r.editor.None?
  {
  }

  /** Switching to another post keeps the editor step and shows the editor for the new post. */
  lemma SwitchPostKeepsEditor(s: StoreState, post: BlogPost)
    requires Enabled(s, SwitchPost(Some(post)))
    ensures Apply(s, SwitchPost(Some(post))).currentStep == Editor
    ensures var r := Render(Apply(s, SwitchPost(Some(post))));
      r.Workspace? && r.editor.Some? && r.editor.value.post == post && r.scanner.None?
  {
  }

  /** `onPostSelect`: `setSelectedPost(post)` then `setStep(EDITOR)`. */
  method OnPostSelect(store: Store, post: BlogPost)
    requires store.Valid()
    modifies store
    ensures store.Valid()
    ensures store.State() == Apply(old(store.State()), PostSelect(post))
  {
    store.SetSelectedPost(Some(post));
    store.SetStep(Editor);
  }

  /** `onBack`: `setSelectedPost(null)` then `setStep(SITEMAP)`. */
  method OnBack(store: Store)
    requires store.Valid()
    modifies store
    ensures store.Valid()
    ensures store.State() == Apply(old(store.State()), Back)
  {
    store.SetSelectedPost(None);
    store.SetStep(Sitemap);
  }

  /** `onSwitchPost`: `setSelectedPost` itself; only the selection changes. */
  method OnSwitchPost(store: Store, post: Option<BlogPost>)
    requires store.Valid()
    modifies store
    ensures store.Valid()
    ensures store.State() == Apply(old(store.State()), SwitchPost(post))
  {
    store.SetSelectedPost(post);
  }

  /**
    Saving the panel: `handleSubmit` hands the sealed draft to `onSave`,
    which is the store's `updateConfig`, and closes the panel.
   */
  method SaveFromPanel(store: Store, panel: ConfigPanel.Panel)
    requires store.Valid() && panel.Valid() && panel.CanSubmit()
    modifies store, panel`isOpen, panel`saves
    ensures store.Valid() && !panel.isOpen
    ensures panel.saves == old(panel.saves) + [ConfigPanel.Seal(old(panel.draft), panel.cipher.encrypt)]
    ensures store.State() ==
      Apply(old(store.State()), Save(ConfigPanel.Seal(old(panel.draft), panel.cipher.encrypt)))
  {
    var saved := panel.Submit();
    store.UpdateConfig(saved);
  }

  /**
    Opening the panel, switching the provider and closing it without saving
    leaves the committed configuration as it was.
   */
  method DiscardProviderSwitch(store: Store, panel: ConfigPanel.Panel, p: Provider)
    requires panel.Valid() && panel.SelectedProvider() != Some(p)
    modifies panel`isOpen, panel`activeTab, panel`draft
    ensures store.State() == old(store.State())
    ensures panel.saves == old(panel.saves)
    ensures !panel.isOpen
    ensures panel.draft == ConfigPanel.ApplyEdit(old(panel.draft), ConfigPanel.SwitchProvider(p))
  {
    panel.Open();
    panel.SelectTab(ConfigPanel.Ai);
    panel.Change(ConfigPanel.SwitchProvider(p));
    panel.Close();
  }
}
