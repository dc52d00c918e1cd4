/**
 * The per-instance state (`useSourceCodeStore`): the store key scoped by
 * the page path, the initial buffers and reset snapshot, the two store
 * effects, and reset.
 */
module SourceCodeStoreHook {
  import opened Wrappers
  import opened Types
  import opened Store
  import opened SourceCodeUtils
  import opened GlobalSourceSync
  import opened GlobalSourceProvider

  // ---------------------------------------------------------------------
  // The scoped key

  /** `scopedSourceId`: no key without a sourceId, the bare id without a path, else `id:path`. */
  function ScopedSourceId(sourceId: Option<string>, pathname: Option<string>): (r: Option<string>)
    ensures r.Some? <==> Truthy(sourceId)
    ensures r.Some? ==> Truthy(r)
    ensures Truthy(sourceId) && !Truthy(pathname) ==> r == sourceId
    ensures Truthy(sourceId) && Truthy(pathname) ==>
      |r.value| == |sourceId.value| + 1 + |pathname.value|
      && r.value[..|sourceId.value|] == sourceId.value && r.value[|sourceId.value|] == ':'
      && r.value[|sourceId.value| + 1..] == pathname.value
  {
    if !Truthy(sourceId) then None
    else if !Truthy(pathname) then sourceId
    else Some(sourceId.value + ":" + pathname.value)
  }

  /** For one sourceId, two different page paths give two different keys. */
  lemma PathsAreIsolated(sourceId: Option<string>, p1: Option<string>, p2: Option<string>)
    requires Truthy(sourceId) && Truthy(p1) && Truthy(p2) && p1 != p2
    ensures ScopedSourceId(sourceId, p1) != ScopedSourceId(sourceId, p2)
  {
  }

  /** A key scoped by a path is never the unscoped key of the same sourceId. */
  lemma ScopedKeyIsNotUnscoped(sourceId: Option<string>, pathname: Option<string>)
    requires Truthy(sourceId) && Truthy(pathname)
    ensures ScopedSourceId(sourceId, pathname) != ScopedSourceId(sourceId, None)
  {
  }

  /** Without `:` in either sourceId, the scoped key determines both the sourceId and the path. */
  lemma ScopedKeyDeterminesBoth(id1: string, path1: string, id2: string, path2: string)
    requires id1 != "" && id2 != "" && path1 != "" && path2 != ""
    requires ':' !in id1 && ':' !in id2
    requires ScopedSourceId(Some(id1), Some(path1)) == ScopedSourceId(Some(id2), Some(path2))
    ensures id1 == id2 && path1 == path2
  {
  }

  /** With a `:` in a sourceId, two different instances on two different paths can share a key. */
  lemma ColonInSourceIdCanCollide()
    ensures ScopedSourceId(Some("a"), Some("/b:/c")) == ScopedSourceId(Some("a:/b"), Some("/c"))
  {
    assert "a" + ":" + "/b:/c" == "a:/b:/c" == "a:/b" + ":" + "/c";
  }

  /** `getSnapshot`: nothing without a truthy key, else the store's record for it. */
  function GetSnapshot(records: map<string, SourceCodeState>, key: Option<string>): (r: Option<SourceCodeState>)
    ensures !Truthy(key) ==> r.None?
    ensures Truthy(key) ==> (r.Some? <==> key.value in records)
    ensures r.Some? ==> r.value == records[key.value]
  {
    if !Truthy(key) then None else Lookup(records, key.value)
  }

  /** `subscribe` for the snapshot: a no-op without a truthy key. */
  method SubscribeSnapshot(store: SourceCodeStore, key: Option<string>)
    modifies store
    ensures !Truthy(key) ==> store.subscriptions == old(store.subscriptions)
    ensures Truthy(key) ==> store.subscriptions == old(store.subscriptions) + [key.value]
    ensures store.records == old(store.records) && store.notified == old(store.notified)
  {
    if Truthy(key) {
      store.Subscribe(key.value);
    }
  }

  // ---------------------------------------------------------------------
  // One instance as functions of the store's records

  datatype SourceCodeStoreProps = SourceCodeStoreProps(
    sourceId: Option<string>,
    share: Option<bool>,
    initialHTML: Option<string>,
    initialCSS: Option<string>,
    initialJS: Option<string>,
    images: Option<ImageMap>,
    htmlPath: Option<string>,
    cssPath: Option<string>,
    jsPath: Option<string>)
  {
    function Initial(k: EditorKey): Option<string> {
      match k
      case Html => initialHTML
      case Css => initialCSS
      case Js => initialJS
    }
  }

  /** What resolution is given: the normalised props and the snapshot for the scoped key. */
  function ResolveInputs(p: SourceCodeStoreProps, key: Option<string>, records: map<string, SourceCodeState>,
                         normalize: Option<string> -> Option<string>): ResolveSourceProps
  {
    ResolveSourceProps(key, GetSnapshot(records, key),
                       normalize(p.initialHTML), normalize(p.initialCSS), normalize(p.initialJS),
                       p.images, p.htmlPath, p.cssPath, p.jsPath)
  }

  /** What the provider is given: the same normalised props and the flags resolution computed. */
  function ProviderInputs(p: SourceCodeStoreProps, key: Option<string>, resolved: ResolvedSource,
                          normalize: Option<string> -> Option<string>): ProviderProps
  {
    ProviderProps(key, p.share, normalize(p.initialHTML), normalize(p.initialCSS), normalize(p.initialJS),
                  p.images, p.htmlPath, p.cssPath, p.jsPath,
                  resolved.hasInitialHTML, resolved.hasInitialCSS, resolved.hasInitialJS)
  }

  /** The resolution an instance on a page path makes against the store's records. */
  function ResolvedFor(p: SourceCodeStoreProps, pathname: Option<string>, records: map<string, SourceCodeState>,
                       normalize: Option<string> -> Option<string>): ResolvedSource
  {
    ResolveInitialSource(ResolveInputs(p, ScopedSourceId(p.sourceId, pathname), records, normalize))
  }

  /** The records after the instance's provider effect. */
  function RecordsAfterProvide(p: SourceCodeStoreProps, pathname: Option<string>, records: map<string, SourceCodeState>,
                               normalize: Option<string> -> Option<string>): map<string, SourceCodeState>
  {
    var key := ScopedSourceId(p.sourceId, pathname);
    var q := ProviderInputs(p, key, ResolvedFor(p, pathname, records, normalize), normalize);
    if IsSourceProvider(q) then records[key.value := MergedRecord(q, Lookup(records, key.value))] else records
  }

  /** The normalised props feed resolution and the provider alike: the provider's ownership flags are resolution's. */
  lemma ProviderSeesResolvedFlags(p: SourceCodeStoreProps, pathname: Option<string>, records: map<string, SourceCodeState>,
                                  normalize: Option<string> -> Option<string>)
    ensures var key := ScopedSourceId(p.sourceId, pathname);
      var q := ProviderInputs(p, key, ResolvedFor(p, pathname, records, normalize), normalize);
      forall k :: q.HasInitial(k) <==> q.Initial(k).Some?
  {
    var key := ScopedSourceId(p.sourceId, pathname);
    var r := ResolvedFor(p, pathname, records, normalize);
    assert forall k :: r.HasInitial(k) <==> ResolveInputs(p, key, records, normalize).Initial(k).Some?;
    var q := ProviderInputs(p, key, r, normalize);
    forall k ensures q.HasInitial(k) <==> q.Initial(k).Some? {
      assert r.HasInitial(k) <==> ResolveInputs(p, key, records, normalize).Initial(k).Some?;
    }
  }

  /**
   * Two instances with one sourceId on one page share: after the provider
   * writes, a consumer that does not bring HTML resolves the provider's.
   */
  lemma SamePathShares(a: SourceCodeStoreProps, b: SourceCodeStoreProps, pathname: Option<string>,
                       records: map<string, SourceCodeState>, normalize: Option<string> -> Option<string>)
    requires Truthy(a.sourceId) && a.sourceId == b.sourceId
    requires a.share != Some(false) && normalize(a.initialHTML).Some?
    requires normalize(b.initialHTML).None?
    ensures ResolvedFor(b, pathname, RecordsAfterProvide(a, pathname, records, normalize), normalize).resolvedHTML
            == Some(normalize(a.initialHTML).GetOr(""))
  {
    var key := ScopedSourceId(a.sourceId, pathname);
    var q := ProviderInputs(a, key, ResolvedFor(a, pathname, records, normalize), normalize);
    ProviderSeesResolvedFlags(a, pathname, records, normalize);
    assert q.HasInitial(Html);
    assert IsSourceProvider(q);
    var written := RecordsAfterProvide(a, pathname, records, normalize);
    assert written[key.value].html == normalize(a.initialHTML).GetOr("") by {
      assert written[key.value].Code(Html) == q.Initial(Html).GetOr("");
    }
    var inputs := ResolveInputs(b, key, written, normalize);
    assert inputs.UsesStore();
    assert inputs.Initial(Html).None?;
  }

  /** An instance on another page path resolves exactly as if the provider had not written. */
  lemma OtherPathIsIsolated(a: SourceCodeStoreProps, b: SourceCodeStoreProps, p1: Option<string>, p2: Option<string>,
                            records: map<string, SourceCodeState>, normalize: Option<string> -> Option<string>)
    requires a.sourceId == b.sourceId && Truthy(p1) && Truthy(p2) && p1 != p2
    ensures ResolvedFor(b, p2, RecordsAfterProvide(a, p1, records, normalize), normalize)
            == ResolvedFor(b, p2, records, normalize)
  {
    if Truthy(a.sourceId) {
      PathsAreIsolated(a.sourceId, p1, p2);
      var k1 := ScopedSourceId(a.sourceId, p1);
      var k2 := ScopedSourceId(b.sourceId, p2);
      assert GetSnapshot(RecordsAfterProvide(a, p1, records, normalize), k2) == GetSnapshot(records, k2);
    }
  }

  // ---------------------------------------------------------------------
  // Reset

  /** Reset puts an editor's reset target into its buffer. */
  function Reset(f: FieldState): (r: FieldState)
    ensures r.code == f.initial && r.initial == f.initial && r.captured == f.captured
  {
    f.(code := f.initial)
  }

  /** Resetting twice is resetting once, and a reset field stays put under further resets. */
  lemma ResetIsIdempotent(f: FieldState)
    ensures Reset(Reset(f)) == Reset(f)
  {
  }

  /** Reset never changes the reset target, so values the store delivers afterwards are the only source of change. */
  lemma ResetKeepsTargets(f: FieldState, owned: bool, stored: string, nl: string -> string)
    requires f.captured
    ensures Deliver(Reset(f), owned, stored, nl).initial == f.initial
  {
  }

  // ---------------------------------------------------------------------
  // The instance

  class SourceCodeInstance {
    const props: SourceCodeStoreProps
    const pathname: Option<string>
    const store: SourceCodeStore
    const normalizeInitialCode: Option<string> -> Option<string>
    const ensureTrailingNewline: string -> string
    const scopedSourceId: Option<string>
    const resolved: ResolvedSource
    const buffers: EditorBuffers
    const sync: SourceSync

    /** The instance's parts are wired together as the hook wires them. */
    ghost predicate Valid()
      reads this, sync
    {
      && sync.buffers == buffers && sync.store == store
      && scopedSourceId == ScopedSourceId(props.sourceId, pathname)
      && sync.sourceId == scopedSourceId
      && sync.ensureTrailingNewline == ensureTrailingNewline
      && (forall k :: sync.Owned(k) == resolved.HasInitial(k))
      && resolved.hasInitialHTML == normalizeInitialCode(props.initialHTML).Some?
      && resolved.hasInitialCSS == normalizeInitialCode(props.initialCSS).Some?
      && resolved.hasInitialJS == normalizeInitialCode(props.initialJS).Some?
      && sync.Valid()
    }

    /**
     * The render: normalise once, scope the key, resolve against the
     * current snapshot, and seed the buffers and the reset snapshot with
     * the same values.
     */
    constructor(props: SourceCodeStoreProps, pathname: Option<string>, store: SourceCodeStore,
                normalizeInitialCode: Option<string> -> Option<string>, ensureTrailingNewline: string -> string)
      ensures Valid()
      ensures this.props == props && this.pathname == pathname && this.store == store
      ensures this.normalizeInitialCode == normalizeInitialCode && this.ensureTrailingNewline == ensureTrailingNewline
      ensures scopedSourceId == ScopedSourceId(props.sourceId, pathname)
      ensures resolved == ResolvedFor(props, pathname, store.records, normalizeInitialCode)
      ensures fresh(buffers) && fresh(sync)
      ensures forall k :: buffers.Code(k) == ensureTrailingNewline(resolved.Resolved(k).GetOr(""))
      ensures forall k :: buffers.Initial(k) == buffers.Code(k)
      ensures forall k :: sync.Captured(k) == InitialCaptured(scopedSourceId, resolved.HasInitial(k))
      ensures forall k :: !sync.Captured(k) <==> Truthy(scopedSourceId) && !resolved.HasInitial(k)
      ensures forall k :: resolved.HasInitial(k) ==> resolved.Resolved(k) == normalizeInitialCode(props.Initial(k))
    {
      this.props := props;
      this.pathname := pathname;
      this.store := store;
      this.normalizeInitialCode := normalizeInitialCode;
      this.ensureTrailingNewline := ensureTrailingNewline;
      var key := ScopedSourceId(props.sourceId, pathname);
      this.scopedSourceId := key;
      var storedState := GetSnapshot(store.records, key);
      var r := ResolveInitialSource(ResolveSourceProps(key, storedState,
        normalizeInitialCode(props.initialHTML), normalizeInitialCode(props.initialCSS), normalizeInitialCode(props.initialJS),
        props.images, props.htmlPath, props.cssPath, props.jsPath));
      this.resolved := r;
      var b := new EditorBuffers(ensureTrailingNewline(r.resolvedHTML.GetOr("")),
                                 ensureTrailingNewline(r.resolvedCSS.GetOr("")),
                                 ensureTrailingNewline(r.resolvedJS.GetOr("")));
      this.buffers := b;
      this.sync := new SourceSync(key, r.hasInitialHTML, r.hasInitialCSS, r.hasInitialJS, ensureTrailingNewline, store, b);
    }

    /**
     * The subscribing effects in hook order: the snapshot subscription,
     * then the consumer sync. No record changes.
     */
    method SubscribeAndSync()
      requires Valid()
      modifies buffers, sync, store
      ensures Valid()
      ensures store.records == old(store.records) && store.notified == old(store.notified)
      ensures !Truthy(scopedSourceId) ==> forall k :: sync.Field(k) == old(sync.Field(k))
      ensures Truthy(scopedSourceId) ==>
        forall k :: sync.Field(k) == sync.Updated(old(sync.Field(k)), k, Lookup(old(store.records), scopedSourceId.value))
      // a field not yet captured takes the stored value as its reset target
      ensures forall k :: Truthy(scopedSourceId) && !resolved.HasInitial(k) && !old(sync.Captured(k))
                          && scopedSourceId.value in old(store.records) ==>
        && sync.Captured(k)
        && buffers.Initial(k) == ensureTrailingNewline(old(store.records)[scopedSourceId.value].Code(k))
        && buffers.Code(k) == buffers.Initial(k)
      // an owned editor, and every editor without a key, is left alone
      ensures forall k :: resolved.HasInitial(k) || !Truthy(scopedSourceId) ==> sync.Field(k) == old(sync.Field(k))
      // a buffer that agreed with an uncaptured target still agrees with it
      ensures forall k :: old(buffers.Code(k)) == old(buffers.Initial(k)) && !old(sync.Captured(k)) ==>
        buffers.Code(k) == buffers.Initial(k)
      // the snapshot subscription, then the sync's
      ensures store.subscriptions == old(store.subscriptions) + (if Truthy(scopedSourceId) then [scopedSourceId.value, scopedSourceId.value] else [])
    {
      SubscribeSnapshot(store, scopedSourceId);
      sync.Start();
      forall k | Truthy(scopedSourceId) && !resolved.HasInitial(k) && !old(sync.Captured(k))
                 && scopedSourceId.value in old(store.records)
        ensures sync.Captured(k)
        ensures buffers.Initial(k) == ensureTrailingNewline(old(store.records)[scopedSourceId.value].Code(k))
        ensures buffers.Code(k) == buffers.Initial(k)
      {
        var stored := old(store.records)[scopedSourceId.value];
        assert Lookup(old(store.records), scopedSourceId.value) == Some(stored);
        assert !sync.Owned(k) && sync.ensureTrailingNewline == ensureTrailingNewline;
        assert sync.Field(k) == FieldState(ensureTrailingNewline(stored.Code(k)), ensureTrailingNewline(stored.Code(k)), true);
      }
      forall k | old(buffers.Code(k)) == old(buffers.Initial(k)) && !old(sync.Captured(k))
        ensures buffers.Code(k) == buffers.Initial(k)
      {
        assert old(sync.Field(k)).code == old(sync.Field(k)).initial;
        assert Truthy(scopedSourceId) && !sync.Owned(k);
        assert sync.Field(k).code == sync.Field(k).initial;
      }
    }

    /**
     * The effects in hook order: the snapshot subscription, the consumer
     * sync, then the provider write.
     */
    method RunEffects()
      requires Valid()
      modifies buffers, sync, store
      ensures Valid()
      ensures store.records == RecordsAfterProvide(props, pathname, old(store.records), normalizeInitialCode)
      ensures !Truthy(scopedSourceId) ==> forall k :: sync.Field(k) == old(sync.Field(k))
      ensures Truthy(scopedSourceId) ==>
        forall k :: sync.Field(k) == sync.Updated(old(sync.Field(k)), k, Lookup(old(store.records), scopedSourceId.value))
      // a field not yet captured takes the stored value as its reset target
      ensures forall k :: Truthy(scopedSourceId) && !resolved.HasInitial(k) && !old(sync.Captured(k))
                          && scopedSourceId.value in old(store.records) ==>
        && sync.Captured(k)
        && buffers.Initial(k) == ensureTrailingNewline(old(store.records)[scopedSourceId.value].Code(k))
        && buffers.Code(k) == buffers.Initial(k)
      // an owned editor, and every editor without a key, is left alone
      ensures forall k :: resolved.HasInitial(k) || !Truthy(scopedSourceId) ==> sync.Field(k) == old(sync.Field(k))
      // a buffer that agreed with an uncaptured target still agrees with it
      ensures forall k :: old(buffers.Code(k)) == old(buffers.Initial(k)) && !old(sync.Captured(k)) ==>
        buffers.Code(k) == buffers.Initial(k)
      // the snapshot subscription, then the sync's
      ensures store.subscriptions == old(store.subscriptions) + (if Truthy(scopedSourceId) then [scopedSourceId.value, scopedSourceId.value] else [])
      ensures IsSourceProvider(ProviderInputs(props, scopedSourceId, resolved, normalizeInitialCode)) ==>
        store.notified == old(store.notified) + [scopedSourceId.value]
      ensures !IsSourceProvider(ProviderInputs(props, scopedSourceId, resolved, normalizeInitialCode)) ==>
        store.notified == old(store.notified)
    {
      ghost var r0 := ResolvedFor(props, pathname, store.records, normalizeInitialCode);
      assert r0.HasInitial(Html) == resolved.hasInitialHTML;
      assert r0.HasInitial(Css) == resolved.hasInitialCSS;
      assert r0.HasInitial(Js) == resolved.hasInitialJS;
      SubscribeAndSync();
      var q := ProviderProps(scopedSourceId, props.share,
        normalizeInitialCode(props.initialHTML), normalizeInitialCode(props.initialCSS), normalizeInitialCode(props.initialJS),
        props.images, props.htmlPath, props.cssPath, props.jsPath,
        resolved.hasInitialHTML, resolved.hasInitialCSS, resolved.hasInitialJS);
      Provide(q, store);
    }

    /** A notification of the instance's key re-runs the sync's update. */
    method OnStoreNotification()
      requires Valid() && Truthy(scopedSourceId)
      modifies buffers, sync
      ensures Valid()
      ensures forall k :: sync.Field(k) == sync.Updated(old(sync.Field(k)), k, store.Get(scopedSourceId.value))
    {
      sync.UpdateFromStore();
    }

    /** `resetCodes`: every buffer takes its reset target, which stays as it was. */
    method ResetCodes()
      requires Valid()
      modifies buffers
      ensures Valid()
      ensures forall k :: sync.Field(k) == Reset(old(sync.Field(k)))
    {
      buffers.SetCode(Html, buffers.Initial(Html));
      buffers.SetCode(Css, buffers.Initial(Css));
      buffers.SetCode(Js, buffers.Initial(Js));
    }
  }

  /**
   * Mounting an instance: the render, then its effects. A keyed editor the
   * instance does not own starts with the stored code, newline-terminated,
   * both in its buffer and as its reset target; an owned editor keeps the
   * normalised prop.
   */
  method Mount(props: SourceCodeStoreProps, pathname: Option<string>, store: SourceCodeStore,
               normalizeInitialCode: Option<string> -> Option<string>, ensureTrailingNewline: string -> string)
    returns (inst: SourceCodeInstance)
    modifies store
    ensures inst.Valid() && inst.store == store
    ensures store.records == RecordsAfterProvide(props, pathname, old(store.records), normalizeInitialCode)
    ensures forall k :: inst.buffers.Code(k) == inst.buffers.Initial(k)
    ensures var key := ScopedSourceId(props.sourceId, pathname);
      forall k :: Truthy(key) && !inst.resolved.HasInitial(k) && key.value in old(store.records) ==>
        inst.sync.Captured(k)
        && inst.buffers.Initial(k) == ensureTrailingNewline(old(store.records)[key.value].Code(k))
    ensures forall k :: inst.resolved.HasInitial(k) ==>
      inst.buffers.Initial(k) == ensureTrailingNewline(normalizeInitialCode(props.Initial(k)).GetOr(""))
  {
    inst := new SourceCodeInstance(props, pathname, store, normalizeInitialCode, ensureTrailingNewline);
    inst.RunEffects();
    assert inst.scopedSourceId == ScopedSourceId(props.sourceId, pathname);
  }
}
