/**
 * Where a preview instance's initial sources come from: a prop that is
 * defined wins; otherwise, when the instance has a store key and the store
 * holds a record for it, the stored value is used.
 */
module SourceCodeUtils {
  import opened Wrappers
  import opened Types

  datatype ResolveSourceProps = ResolveSourceProps(
    sourceId: Option<string>,
    storedState: Option<SourceCodeState>,
    initialHTML: Option<string>,
    initialCSS: Option<string>,
    initialJS: Option<string>,
    images: Option<ImageMap>,
    htmlPath: Option<string>,
    cssPath: Option<string>,
    jsPath: Option<string>)
  {
    /** The prop for one editor's code. */
    function Initial(k: EditorKey): Option<string> {
      match k
      case Html => initialHTML
      case Css => initialCSS
      case Js => initialJS
    }

    /** The stored record is consulted only for a truthy key and an existing record. */
    predicate UsesStore() {
      Truthy(sourceId) && storedState.Some?
    }
  }

  datatype ResolvedSource = ResolvedSource(
    resolvedHTML: Option<string>,
    resolvedCSS: Option<string>,
    resolvedJS: Option<string>,
    resolvedImages: Option<ImageMap>,
    resolvedHtmlPath: Option<string>,
    resolvedCssPath: Option<string>,
    resolvedJsPath: Option<string>,
    hasInitialHTML: bool,
    hasInitialCSS: bool,
    hasInitialJS: bool)
  {
    function Resolved(k: EditorKey): Option<string> {
      match k
      case Html => resolvedHTML
      case Css => resolvedCSS
      case Js => resolvedJS
    }

    function HasInitial(k: EditorKey): bool {
      match k
      case Html => hasInitialHTML
      case Css => hasInitialCSS
      case Js => hasInitialJS
    }
  }

  /** `resolveInitialSource`. */
  function ResolveInitialSource(p: ResolveSourceProps): (r: ResolvedSource)
    // the flags record whether the prop is defined; an empty string counts
    ensures forall k :: r.HasInitial(k) <==> p.Initial(k).Some?
    // a defined prop always wins
    ensures forall k :: p.Initial(k).Some? ==> r.Resolved(k) == p.Initial(k)
    ensures p.images.Some? ==> r.resolvedImages == p.images
    ensures p.htmlPath.Some? ==> r.resolvedHtmlPath == p.htmlPath
    ensures p.cssPath.Some? ==> r.resolvedCssPath == p.cssPath
    ensures p.jsPath.Some? ==> r.resolvedJsPath == p.jsPath
    // without a key or a record every field is its prop, unchanged
    ensures !p.UsesStore() ==>
      && (forall k :: r.Resolved(k) == p.Initial(k))
      && r.resolvedImages == p.images
      && r.resolvedHtmlPath == p.htmlPath && r.resolvedCssPath == p.cssPath && r.resolvedJsPath == p.jsPath
    // otherwise a missing prop falls back to the stored field
    ensures p.UsesStore() ==>
      && (forall k :: p.Initial(k).None? ==> r.Resolved(k) == Some(p.storedState.value.Code(k)))
      && (p.images.None? ==> r.resolvedImages == p.storedState.value.images)
      && (p.htmlPath.None? ==> r.resolvedHtmlPath == p.storedState.value.htmlPath)
      && (p.cssPath.None? ==> r.resolvedCssPath == p.storedState.value.cssPath)
      && (p.jsPath.None? ==> r.resolvedJsPath == p.storedState.value.jsPath)
  {
    var hasInitialHTML := p.initialHTML.Some?;
    var hasInitialCSS := p.initialCSS.Some?;
    var hasInitialJS := p.initialJS.Some?;
    if !p.UsesStore() then
      ResolvedSource(p.initialHTML, p.initialCSS, p.initialJS, p.images, p.htmlPath, p.cssPath, p.jsPath,
                     hasInitialHTML, hasInitialCSS, hasInitialJS)
    else
      var stored := p.storedState.value;
      ResolvedSource(
        if !hasInitialHTML then Some(stored.html) else p.initialHTML,
        if !hasInitialCSS then Some(stored.css) else p.initialCSS,
        if !hasInitialJS then Some(stored.js) else p.initialJS,
        p.images.OrElse(stored.images),
        p.htmlPath.OrElse(stored.htmlPath),
        p.cssPath.OrElse(stored.cssPath),
        p.jsPath.OrElse(stored.jsPath),
        hasInitialHTML, hasInitialCSS, hasInitialJS)
  }

  /** The flags depend on the initial props alone: neither the key nor the record moves them. */
  lemma FlagsIgnoreStore(p: ResolveSourceProps, sourceId: Option<string>, storedState: Option<SourceCodeState>)
    ensures var q := p.(sourceId := sourceId, storedState := storedState);
      forall k :: ResolveInitialSource(p).HasInitial(k) == ResolveInitialSource(q).HasInitial(k)
  {
  }

  /** With a key and a record, each editor's code is always defined. */
  lemma StoreDefinesEveryCode(p: ResolveSourceProps, k: EditorKey)
    requires p.UsesStore()
    ensures ResolveInitialSource(p).Resolved(k).Some?
  {
  }

  /**
   * Resolution is a fixed point: feeding the resolved values back in as
   * props, against the same key and record, resolves to the same values.
   */
  lemma ResolveIsIdempotent(p: ResolveSourceProps)
    ensures var r := ResolveInitialSource(p);
      var q := p.(initialHTML := r.resolvedHTML, initialCSS := r.resolvedCSS, initialJS := r.resolvedJS,
                  images := r.resolvedImages, htmlPath := r.resolvedHtmlPath, cssPath := r.resolvedCssPath,
                  jsPath := r.resolvedJsPath);
      var r2 := ResolveInitialSource(q);
      && (forall k :: r2.Resolved(k) == r.Resolved(k))
      && r2.resolvedImages == r.resolvedImages
      && r2.resolvedHtmlPath == r.resolvedHtmlPath && r2.resolvedCssPath == r.resolvedCssPath
      && r2.resolvedJsPath == r.resolvedJsPath
  {
  }
}
