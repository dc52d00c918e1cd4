/**
 * The provider side of sharing: an instance that shares, has a store key
 * and brings some source of its own writes the merged record for that key
 * and announces it.
 */
module GlobalSourceProvider {
  import opened Wrappers
  import opened Types
  import opened Store

  datatype ProviderProps = ProviderProps(
    sourceId: Option<string>,
    share: Option<bool>,
    initialHTML: Option<string>,
    initialCSS: Option<string>,
    initialJS: Option<string>,
    images: Option<ImageMap>,
    htmlPath: Option<string>,
    cssPath: Option<string>,
    jsPath: Option<string>,
    hasInitialHTML: bool,
    hasInitialCSS: bool,
    hasInitialJS: bool)
  {
    function Initial(k: EditorKey): Option<string> {
      match k
      case Html => initialHTML
      case Css => initialCSS
      case Js => initialJS
    }

    function HasInitial(k: EditorKey): bool {
      match k
      case Html => hasInitialHTML
      case Css => hasInitialCSS
      case Js => hasInitialJS
    }
  }

  /** `hasSourceInputs`: an owned editor, a non-empty image map or a path override. */
  predicate HasSourceInputs(p: ProviderProps) {
    p.hasInitialHTML || p.hasInitialCSS || p.hasInitialJS
    || (p.images.Some? && |p.images.value| > 0)
    || p.htmlPath.Some? || p.cssPath.Some? || p.jsPath.Some?
  }

  /** `isSourceProvider`, with `share` defaulting to true. */
  predicate IsSourceProvider(p: ProviderProps) {
    p.share.GetOr(true) && Truthy(p.sourceId) && HasSourceInputs(p)
  }

  /** The record an absent key is treated as. */
  const EmptyRecord := SourceCodeState("", "", "", None, None, None, None)

  /** `updated`: the provider's own fields over the existing record. */
  function MergedRecord(p: ProviderProps, existing: Option<SourceCodeState>): (r: SourceCodeState)
    // owned editors are written, an undefined value as the empty string
    ensures forall k :: p.HasInitial(k) ==> r.Code(k) == p.Initial(k).GetOr("")
    // the others keep what the store held, or the empty string
    ensures forall k :: !p.HasInitial(k) ==> r.Code(k) == existing.GetOr(EmptyRecord).Code(k)
    // given images and paths replace, missing ones are inherited
    ensures r.images == if p.images.Some? then p.images else existing.GetOr(EmptyRecord).images
    ensures r.htmlPath == if p.htmlPath.Some? then p.htmlPath else existing.GetOr(EmptyRecord).htmlPath
    ensures r.cssPath == if p.cssPath.Some? then p.cssPath else existing.GetOr(EmptyRecord).cssPath
    ensures r.jsPath == if p.jsPath.Some? then p.jsPath else existing.GetOr(EmptyRecord).jsPath
  {
    var e := existing.GetOr(EmptyRecord);
    // `initialX || ''` is the empty string exactly when the value is undefined or empty
    SourceCodeState(
      if p.hasInitialHTML then p.initialHTML.GetOr("") else e.html,
      if p.hasInitialCSS then p.initialCSS.GetOr("") else e.css,
      if p.hasInitialJS then p.initialJS.GetOr("") else e.js,
      p.images.OrElse(e.images),
      if p.htmlPath.Some? then p.htmlPath else e.htmlPath,
      if p.cssPath.Some? then p.cssPath else e.cssPath,
      if p.jsPath.Some? then p.jsPath else e.jsPath)
  }

  /** The store effect: a provider sets its key to the merged record, then notifies that key. */
  method Provide(p: ProviderProps, store: SourceCodeStore)
    modifies store
    ensures !IsSourceProvider(p) ==> store.records == old(store.records) && store.notified == old(store.notified)
    ensures IsSourceProvider(p) ==>
      && store.records == old(store.records)[p.sourceId.value := MergedRecord(p, old(store.Get(p.sourceId.value)))]
      && store.notified == old(store.notified) + [p.sourceId.value]
    ensures store.subscriptions == old(store.subscriptions)
  {
    if Truthy(p.sourceId) && IsSourceProvider(p) {
      var key := p.sourceId.value;
      var existing := store.Get(key);
      var updated := MergedRecord(p, existing);
      store.Set(key, updated);
      store.Notify(key);
    }
  }

  /** Writing a second time over one's own write stores the same record. */
  lemma MergeIsIdempotent(p: ProviderProps, existing: Option<SourceCodeState>)
    ensures MergedRecord(p, Some(MergedRecord(p, existing))) == MergedRecord(p, existing)
  {
    var r := MergedRecord(p, existing);
    var r2 := MergedRecord(p, Some(r));
    assert r2.Code(Html) == r.Code(Html);
    assert r2.Code(Css) == r.Code(Css);
    assert r2.Code(Js) == r.Code(Js);
  }

  /**
   * A provider never clears what it does not bring: every field it neither
   * owns nor overrides is the one already stored.
   */
  lemma MergeNeverClearsByOmission(p: ProviderProps, stored: SourceCodeState)
    ensures var r := MergedRecord(p, Some(stored));
      && (forall k :: !p.HasInitial(k) ==> r.Code(k) == stored.Code(k))
      && (p.images.None? ==> r.images == stored.images)
      && (p.htmlPath.None? ==> r.htmlPath == stored.htmlPath)
      && (p.cssPath.None? ==> r.cssPath == stored.cssPath)
      && (p.jsPath.None? ==> r.jsPath == stored.jsPath)
  {
  }

  /** An instance that owns every editor and gives images and all paths writes a record independent of the store. */
  lemma CompleteProviderIgnoresExisting(p: ProviderProps, e1: Option<SourceCodeState>, e2: Option<SourceCodeState>)
    requires p.hasInitialHTML && p.hasInitialCSS && p.hasInitialJS
    requires p.images.Some? && p.htmlPath.Some? && p.cssPath.Some? && p.jsPath.Some?
    ensures MergedRecord(p, e1) == MergedRecord(p, e2)
  {
    var r1 := MergedRecord(p, e1);
    var r2 := MergedRecord(p, e2);
    assert r1.Code(Html) == r2.Code(Html);
    assert r1.Code(Css) == r2.Code(Css);
    assert r1.Code(Js) == r2.Code(Js);
  }

  /** Eligibility: `share=false`, a falsy key or no inputs each rule a provider out; an empty image map is no input. */
  lemma ProviderEligibility(p: ProviderProps)
    ensures p.share == Some(false) ==> !IsSourceProvider(p)
    ensures !Truthy(p.sourceId) ==> !IsSourceProvider(p)
    ensures p.share != Some(false) && Truthy(p.sourceId) && (exists k :: p.HasInitial(k)) ==> IsSourceProvider(p)
    ensures ((forall k :: !p.HasInitial(k)) && p.htmlPath.None? && p.cssPath.None? && p.jsPath.None?
             && (p.images.None? || p.images == Some(map[]))) ==> !IsSourceProvider(p)
  {
    if (forall k :: !p.HasInitial(k)) {
      assert !p.HasInitial(Html) && !p.HasInitial(Css) && !p.HasInitial(Js);
    }
  }
}
