/**
 * The consumer side of sharing: an instance with a store key copies every
 * editor it does not own from the stored record into its buffer, and the
 * first value it receives for such an editor becomes that editor's reset
 * target.
 */
module GlobalSourceSync {
  import opened Wrappers
  import opened Types
  import opened Store

  /** The three editor buffers of an instance and the reset snapshot beside them. */
  class EditorBuffers {
    var htmlCode: string
    var cssCode: string
    var jsCode: string
    var initialHtml: string
    var initialCss: string
    var initialJs: string

    /** The buffers and the snapshot start from the same three values. */
    constructor(html: string, css: string, js: string)
      ensures forall k :: Code(k) == Initial(k)
      ensures Code(Html) == html && Code(Css) == css && Code(Js) == js
    {
      htmlCode, cssCode, jsCode := html, css, js;
      initialHtml, initialCss, initialJs := html, css, js;
    }

    function Code(k: EditorKey): string
      reads this
    {
      match k
      case Html => htmlCode
      case Css => cssCode
      case Js => jsCode
    }

    function Initial(k: EditorKey): string
      reads this
    {
      match k
      case Html => initialHtml
      case Css => initialCss
      case Js => initialJs
    }

    /** A buffer setter (`setHtmlCode` and its siblings). */
    method SetCode(k: EditorKey, code: string)
      modifies this
      ensures Code(k) == code
      ensures forall k' :: k' != k ==> Code(k') == old(Code(k'))
      ensures forall k' :: Initial(k') == old(Initial(k'))
    {
      match k
      case Html => htmlCode := code;
      case Css => cssCode := code;
      case Js => jsCode := code;
    }

    /** A write to one field of the snapshot. */
    method SetInitial(k: EditorKey, code: string)
      modifies this
      ensures Initial(k) == code
      ensures forall k' :: k' != k ==> Initial(k') == old(Initial(k'))
      ensures forall k' :: Code(k') == old(Code(k'))
    {
      match k
      case Html => initialHtml := code;
      case Css => initialCss := code;
      case Js => initialJs := code;
    }
  }

  /** One editor as the sync sees it: the buffer, the reset target and the capture flag. */
  datatype FieldState = FieldState(code: string, initial: string, captured: bool)

  /** The capture flag an editor starts with: owned editors, and every editor without a key, start captured. */
  function InitialCaptured(sourceId: Option<string>, owned: bool): (r: bool)
    ensures owned ==> r
    ensures !Truthy(sourceId) ==> r
    ensures !r ==> Truthy(sourceId) && !owned
  {
    if Truthy(sourceId) then owned else true
  }

  /** One delivery of a stored value to one editor. */
  function Deliver(f: FieldState, owned: bool, stored: string, ensureTrailingNewline: string -> string): FieldState {
    if owned then f
    else
      var code := ensureTrailingNewline(stored);
      if !f.captured then FieldState(code, code, true) else f.(code := code)
  }

  /** Successive deliveries, oldest first. */
  function DeliverAll(f: FieldState, owned: bool, stored: seq<string>, ensureTrailingNewline: string -> string): FieldState {
    if stored == [] then f
    else Deliver(DeliverAll(f, owned, stored[..|stored| - 1], ensureTrailingNewline), owned, stored[|stored| - 1], ensureTrailingNewline)
  }

  /** An owned editor is never touched, however many values arrive. */
  lemma {:induction false} OwnedFieldIsNeverTouched(f: FieldState, stored: seq<string>, nl: string -> string)
    ensures DeliverAll(f, true, stored, nl) == f
  {
    if stored != [] {
      OwnedFieldIsNeverTouched(f, stored[..|stored| - 1], nl);
    }
  }

  /**
   * After values arrive for an editor the instance does not own, the buffer
   * holds the latest, the flag is set, and the reset target is the first
   * value received (or what it already was, if it had been captured).
   */
  lemma {:induction false} ResetTargetIsFirstDelivery(f: FieldState, stored: seq<string>, nl: string -> string)
    requires stored != []
    ensures var r := DeliverAll(f, false, stored, nl);
      && r.code == nl(stored[|stored| - 1])
      && r.captured
      && r.initial == if f.captured then f.initial else nl(stored[0])
  {
    var init := stored[..|stored| - 1];
    if init != [] {
      ResetTargetIsFirstDelivery(f, init, nl);
      assert init[0] == stored[0];
    }
  }

  /** A captured reset target stays captured and never changes. */
  lemma {:induction false} CaptureIsFinal(f: FieldState, owned: bool, stored: seq<string>, nl: string -> string)
    requires f.captured
    ensures DeliverAll(f, owned, stored, nl).captured
    ensures DeliverAll(f, owned, stored, nl).initial == f.initial
  {
    if stored != [] {
      CaptureIsFinal(f, owned, stored[..|stored| - 1], nl);
    }
  }

  /** Delivering the same value twice is the same as delivering it once. */
  lemma DeliverIsIdempotent(f: FieldState, owned: bool, stored: string, nl: string -> string)
    ensures Deliver(Deliver(f, owned, stored, nl), owned, stored, nl) == Deliver(f, owned, stored, nl)
  {
  }

  /** The store subscription of one instance (`useGlobalSourceSync`). */
  class SourceSync {
    const sourceId: Option<string>
    const hasInitialHTML: bool
    const hasInitialCSS: bool
    const hasInitialJS: bool
    const ensureTrailingNewline: string -> string
    const store: SourceCodeStore
    const buffers: EditorBuffers
    /** `capturedInitialRef.current`. */
    var capturedHtml: bool
    var capturedCss: bool
    var capturedJs: bool

    function Owned(k: EditorKey): bool {
      match k
      case Html => hasInitialHTML
      case Css => hasInitialCSS
      case Js => hasInitialJS
    }

    function Captured(k: EditorKey): bool
      reads this
    {
      match k
      case Html => capturedHtml
      case Css => capturedCss
      case Js => capturedJs
    }

    function Field(k: EditorKey): FieldState
      reads this, buffers
    {
      FieldState(buffers.Code(k), buffers.Initial(k), Captured(k))
    }

    /** An owned editor, and every editor of a keyless instance, has its reset target captured. */
    ghost predicate Valid()
      reads this
    {
      forall k :: (Owned(k) || !Truthy(sourceId)) ==> Captured(k)
    }

    constructor(sourceId: Option<string>, hasInitialHTML: bool, hasInitialCSS: bool, hasInitialJS: bool,
                ensureTrailingNewline: string -> string, store: SourceCodeStore, buffers: EditorBuffers)
      ensures this.sourceId == sourceId && this.store == store && this.buffers == buffers
      ensures this.hasInitialHTML == hasInitialHTML && this.hasInitialCSS == hasInitialCSS && this.hasInitialJS == hasInitialJS
      ensures this.ensureTrailingNewline == ensureTrailingNewline
      ensures forall k :: Captured(k) == InitialCaptured(sourceId, Owned(k))
      ensures Valid()
    {
      this.sourceId := sourceId;
      this.hasInitialHTML, this.hasInitialCSS, this.hasInitialJS := hasInitialHTML, hasInitialCSS, hasInitialJS;
      this.ensureTrailingNewline := ensureTrailingNewline;
      this.store := store;
      this.buffers := buffers;
      capturedHtml := InitialCaptured(sourceId, hasInitialHTML);
      capturedCss := InitialCaptured(sourceId, hasInitialCSS);
      capturedJs := InitialCaptured(sourceId, hasInitialJS);
    }

    /** The new state of one editor after an update given the stored record. */
    function Updated(f: FieldState, k: EditorKey, stored: Option<SourceCodeState>): FieldState {
      if stored.None? then f else Deliver(f, Owned(k), stored.value.Code(k), ensureTrailingNewline)
    }

    method SetCaptured(k: EditorKey)
      modifies this
      ensures Captured(k)
      ensures forall k' :: k' != k ==> Captured(k') == old(Captured(k'))
    {
      match k
      case Html => capturedHtml := true;
      case Css => capturedCss := true;
      case Js => capturedJs := true;
    }

    /** One editor's part of `updateFromStore`. */
    method UpdateField(k: EditorKey, stored: SourceCodeState)
      modifies this, buffers
      ensures Field(k) == Deliver(old(Field(k)), Owned(k), stored.Code(k), ensureTrailingNewline)
      ensures forall k' :: k' != k ==> Field(k') == old(Field(k'))
    {
      if !Owned(k) {
        var code := ensureTrailingNewline(stored.Code(k));
        buffers.SetCode(k, code);
        if !Captured(k) {
          buffers.SetInitial(k, code);
          SetCaptured(k);
        }
      }
    }

    /** `updateFromStore`: reads the record of the key and delivers each editor's value. */
    method UpdateFromStore()
      requires Truthy(sourceId)
      requires Valid()
      modifies this, buffers
      ensures Valid()
      ensures forall k :: Field(k) == Updated(old(Field(k)), k, store.Get(sourceId.value))
    {
      var stored := store.Get(sourceId.value);
      if stored.Some? {
        UpdateField(Html, stored.value);
        UpdateField(Css, stored.value);
        UpdateField(Js, stored.value);
      }
    }

    /** The effect: without a key nothing happens; otherwise an immediate update, then a subscription to the key. */
    method Start()
      requires Valid()
      modifies this, buffers, store
      ensures Valid()
      ensures store.records == old(store.records) && store.notified == old(store.notified)
      ensures !Truthy(sourceId) ==>
        (forall k :: Field(k) == old(Field(k))) && store.subscriptions == old(store.subscriptions)
      ensures Truthy(sourceId) ==>
        && (forall k :: Field(k) == Updated(old(Field(k)), k, store.Get(sourceId.value)))
        && store.subscriptions == old(store.subscriptions) + [sourceId.value]
    {
      if !Truthy(sourceId) {
        return;
      }
      UpdateFromStore();
      store.Subscribe(sourceId.value);
    }
  }
}
