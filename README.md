# code-preview: a Dafny model of where each preview's HTML, CSS and JS comes from

`code-preview` is a React component that shows HTML, CSS and JavaScript side
by side in editors, with a live preview. This project models how the
component decides which source it shows and how instances that share a
`sourceId` exchange that source through a shared store. It does not model
the editors or the preview.

- **Code-block extraction** (`CodeBlockParser`, `code_block_parser.dfy`).
  The children of the component are a tree of text and elements. The
  extractor walks it depth-first. It keeps the first block per language,
  named by an explicit hint (`language`, `lang`, `data-language`,
  `data-lang`) or by a `language-xxx` class, and takes its code from the
  `code`/`value` props or its text. When no non-empty block is found, it
  searches all the text for fenced blocks.
  - The tree walk is a `CodeBlockCollector` class, and the fence search is
    a `while` loop over a regex `exec`. Each is proved against a
    specification function.
- **The extractor as written** (`CodeBlockParserAsWritten`). The same
  extractor, with the alias table as a plain JavaScript object, whose
  inherited keys are reachable (see Findings).
- **Resolution** (`SourceCodeUtils`). `resolveInitialSource`: a prop that
  is defined wins. Otherwise, with a sourceId and a stored record, the
  store fills it. The `hasInitialX` flags record only the props.
- **The store** (`Store`). Keyed records with `get`, `set`, `notify` and
  `subscribe`. Notifications and subscriptions are kept as logs.
- **The provider** (`GlobalSourceProvider`). It decides which instances
  publish, and merges their values into the existing record.
- **The sync** (`GlobalSourceSync`). It delivers stored values into the
  editor buffers for the fields the instance does not own. It captures
  each field's reset target once.
- **The pathname observer** (`Pathname`). A module-level listener set. It
  patches `history.pushState`/`replaceState` and listens to `popstate`
  while it has listeners. Notifications are batched into one scheduled run.
  It is modelled as a state machine over an `Observer` value, with a
  `PathnameObserver` class whose methods are proved against the step
  functions. Cleanup can leave a run queued while lowering the flag, so a
  later change can queue a second run (see Findings).
- **The store hook** (`SourceCodeStoreHook`). The path-scoped key
  `sourceId:pathname`, the snapshot, and an instance whose render and
  effects are composed from the pieces above. `resetCodes` is modelled too.
- **The client and server components** (`CodePreviewClient`, `Server`).
  The gate before parsing, the `??` merge of props over parsed blocks, and
  what is forwarded. The server parses and renders the client without
  children.

`normalizeInitialCode` and `ensureTrailingNewline` are passed in as
function values (`Option<string> -> Option<string>` and `string -> string`).
The model's promises hold for any such functions.

## Model

| member | source | states |
|---|---|---|
| CodeBlockParser.ExtractedCodeBlocks.Set | src/components/CodePreview/utils/codeBlockParser.ts:139-142 | Storing a language's code defines that slot and leaves the other two unchanged |
| CodeBlockParser.ToParsed | src/components/CodePreview/utils/codeBlockParser.ts:157-161 | The returned `initialHTML/CSS/JS` are exactly the extracted slots |
| CodeBlockParser.ShouldParseCodeBlocksFromChildren | src/components/CodePreview/utils/codeBlockParser.ts:16-23 | The gate: parse exactly when there are children and at least one of the three initial values is undefined; `ServerGateIsShouldParse` and `ParsedSource` state what depends on it |
| CodeBlockParser.Lower | src/components/CodePreview/utils/codeBlockParser.ts:39 | Lower-casing keeps the length and maps every character |
| CodeBlockParser.TokenLanguage | src/components/CodePreview/utils/codeBlockParser.ts:25-30 | A token names html, css or js exactly when its lower-cased form is `html`, `css`, or `js`/`javascript` (both directions) |
| CodeBlockParser.RunEnd | src/components/CodePreview/utils/codeBlockParser.ts:45 | The `[a-z0-9_-]+` group ends inside the text, at its end or before a character outside the class |
| CodeBlockParser.RunEndIsTokenRun | src/components/CodePreview/utils/codeBlockParser.ts:45 | Every character of the group is in the class, so the group is the longest run |
| CodeBlockParser.RunEndAt | src/components/CodePreview/utils/codeBlockParser.ts:85 | A run of token characters followed by a non-token character ends exactly there |
| CodeBlockParser.FindClassMatch | src/components/CodePreview/utils/codeBlockParser.ts:45 | Finds the leftmost `language-` followed by a token character, case-insensitively, or reports that there is none |
| CodeBlockParser.ClassNameToken | src/components/CodePreview/utils/codeBlockParser.ts:44-48 | There is no token exactly when no position matches; otherwise the token is the maximal run after the leftmost match |
| CodeBlockParser.ExplicitHint | src/components/CodePreview/utils/codeBlockParser.ts:39 | `language \|\| lang \|\| dataLanguage \|\| dataLang`: the first non-empty hint; `ExplicitHintIsFirstNonEmpty` states it |
| CodeBlockParser.ExplicitHintIsFirstNonEmpty | src/components/CodePreview/utils/codeBlockParser.ts:39 | The explicit hint is the first non-empty of language, lang, data-language, data-lang; it is absent exactly when all four are empty or undefined |
| CodeBlockParser.ClassLanguage | src/components/CodePreview/utils/codeBlockParser.ts:44-49 | The language a `className` names: none when it is absent or empty, else the alias of its `language-` token; `NoHintMeansClassName` and `LanguagePrecedence` use it |
| CodeBlockParser.ExtractLanguage | src/components/CodePreview/utils/codeBlockParser.ts:32-50 | Detection: the first truthy explicit hint if it names a language, else the class name; the order and both fall-backs are stated by `ExplicitHintIsFirstNonEmpty`, `LanguagePrecedence` and `NoHintMeansClassName` |
| CodeBlockParser.LanguagePrecedence | src/components/CodePreview/utils/codeBlockParser.ts:39-49 | The first non-empty hint decides when it names a language; when it does not, the class name decides |
| CodeBlockParser.NoHintMeansClassName | src/components/CodePreview/utils/codeBlockParser.ts:44-49 | Without any explicit hint the language comes from the class name |
| CodeBlockParser.FullPrecedenceOrder | src/components/CodePreview/utils/codeBlockParser.spec.ts:72-114 | The precedence examples of the tests: language, then lang, data-language, data-lang, className |
| CodeBlockParser.HtmlClassNamesHtml | src/components/CodePreview/utils/codeBlockParser.ts:44-49 | The class `language-html` names html |
| CodeBlockParser.TextOf | src/components/CodePreview/utils/codeBlockParser.ts:52-66 | The in-order text of a tree's string and number leaves; `TextOfIsJoinedLeaves` states it |
| CodeBlockParser.TextOfAll | src/components/CodePreview/utils/codeBlockParser.ts:55-63 | The text of a list of children, visited in order; `TextOfAllIsJoinedLeaves` states it |
| CodeBlockParser.ExtractText | src/components/CodePreview/utils/codeBlockParser.ts:52-66 | The loop over children returns the node's text |
| CodeBlockParser.TextOfIsJoinedLeaves | src/components/CodePreview/utils/codeBlockParser.ts:52-66 | A node's text is the in-order concatenation of its string leaves |
| CodeBlockParser.TextOfAllIsJoinedLeaves | src/components/CodePreview/utils/codeBlockParser.ts:55-63 | An array's text is the concatenation of its items' leaves |
| CodeBlockParser.Join | src/components/CodePreview/utils/codeBlockParser.ts:154 | `rawSegments.join('')`; `JoinAppend` states how it splits |
| CodeBlockParser.JoinAppend | src/components/CodePreview/utils/codeBlockParser.ts:154 | Joining two segment lists equals joining each and concatenating |
| CodeBlockParser.CodeOf | src/components/CodePreview/utils/codeBlockParser.ts:68-81 | A block's text: a string `code` prop, else a string `value` prop, else its children's text; `ExtractCodeFromNode` computes it and `ReachedBlockFillsEmptySlot` uses it |
| CodeBlockParser.ExtractCodeFromNode | src/components/CodePreview/utils/codeBlockParser.ts:68-81 | The code is the `code` prop if it is a string, else the `value` prop if it is a string, else the children's text |
| CodeBlockParser.CollectSpec | src/components/CodePreview/utils/codeBlockParser.ts:101-145 | The walk as a function: a hinted element with an empty slot fills it and is not entered, other elements are entered, leaves become raw segments; `Collect` is proved equal to it, and the lemmas below are about it |
| CodeBlockParser.CollectAllSpec | src/components/CodePreview/utils/codeBlockParser.ts:104-106 | The walk over an array, children in order; `CollectAllAppend` states that order |
| CodeBlockParser.CodeBlockCollector.constructor | src/components/CodePreview/utils/codeBlockParser.ts:148-149 | The walk starts with no blocks and no raw segments |
| CodeBlockParser.CodeBlockCollector.Collect | src/components/CodePreview/utils/codeBlockParser.ts:101-145 | The in-place walk leaves the collector in the state of the recursive walk |
| CodeBlockParser.CollectAllAppend | src/components/CodePreview/utils/codeBlockParser.ts:104-106 | Walking `xs + ys` is walking `xs`, then `ys` |
| CodeBlockParser.CollectKeepsFilledSlots | src/components/CodePreview/utils/codeBlockParser.ts:139-142 | A filled slot is never overwritten, and raw segments are only appended |
| CodeBlockParser.CollectAllKeepsFilledSlots | src/components/CodePreview/utils/codeBlockParser.ts:104-106 | The same for a sequence of siblings |
| CodeBlockParser.FirstChildWins | src/components/CodePreview/utils/codeBlockParser.ts:104-106 | When the first child fills a language, later siblings cannot change it |
| CodeBlockParser.ReachedBlockFillsEmptySlot | src/components/CodePreview/utils/codeBlockParser.ts:139-142 | A child hinted as a language whose slot is still empty when the walk reaches it fills that slot with its block text, and the later siblings keep it |
| CodeBlockParser.CollectIsSound | src/components/CodePreview/utils/codeBlockParser.ts:101-145 | Every collected value was already there or is the code of a block in the tree that names that language |
| CodeBlockParser.CollectAllIsSound | src/components/CodePreview/utils/codeBlockParser.ts:104-106 | The same for a sequence of siblings |
| CodeBlockParser.CollectPlainTree | src/components/CodePreview/utils/codeBlockParser.ts:109-112 | A tree without language hints only adds its leaves, in order, to the raw segments |
| CodeBlockParser.CollectAllPlain | src/components/CodePreview/utils/codeBlockParser.ts:104-106 | The same for a sequence of siblings |
| CodeBlockParser.FindTicks | src/components/CodePreview/utils/codeBlockParser.ts:85 | The lazy content group stops at three backticks at or after its start |
| CodeBlockParser.FindTicksIsLeftmost | src/components/CodePreview/utils/codeBlockParser.ts:85 | Those are the first backticks, and none are found only when there are none |
| CodeBlockParser.FindTicksAt | src/components/CodePreview/utils/codeBlockParser.ts:85 | The first backticks after the start are the ones found |
| CodeBlockParser.BlankEnd | src/components/CodePreview/utils/codeBlockParser.ts:85 | `[ \t]*` stops at the end or before a character that is not a space or tab |
| CodeBlockParser.BlankEndIsBlankRun | src/components/CodePreview/utils/codeBlockParser.ts:85 | Every character it skips is a space or a tab |
| CodeBlockParser.FenceAt | src/components/CodePreview/utils/codeBlockParser.ts:85 | A match starts with three backticks and ends inside the text |
| CodeBlockParser.NextFence | src/components/CodePreview/utils/codeBlockParser.ts:85-88 | A reported match starts at or after `lastIndex` and the pattern matches there |
| CodeBlockParser.NextFenceStep | src/components/CodePreview/utils/codeBlockParser.ts:88 | A match at the current position is reported; where none starts the scan moves on, and it ends with none at the end of the text |
| CodeBlockParser.NextFenceIsLeftmost | src/components/CodePreview/utils/codeBlockParser.ts:88 | No position between `lastIndex` and the reported match holds a match |
| CodeBlockParser.NoFenceReportedMeansNone | src/components/CodePreview/utils/codeBlockParser.ts:88 | Reporting no match means no position from `lastIndex` on holds one |
| CodeBlockParser.NextFenceIsFirstMatch | src/components/CodePreview/utils/codeBlockParser.ts:88 | Conversely, the first position that holds a match is the one reported |
| CodeBlockParser.NoMatchMeansNoFence | src/components/CodePreview/utils/codeBlockParser.ts:88 | Conversely, with no match at any position, none is reported |
| CodeBlockParser.Exec | src/components/CodePreview/utils/codeBlockParser.ts:88 | The position-by-position scan returns the leftmost match |
| CodeBlockParser.ParseFencedBlocks | src/components/CodePreview/utils/codeBlockParser.ts:83-99 | The `exec` loop returns the fenced-block result |
| CodeBlockParser.RecordFence | src/components/CodePreview/utils/codeBlockParser.ts:89-95 | One `exec` match: its content fills the slot of the language its token names, only when that slot is empty; `RecordFenceGet` states it slot by slot |
| CodeBlockParser.FencedFrom | src/components/CodePreview/utils/codeBlockParser.ts:88-96 | The rest of the `exec` loop from a `lastIndex`; `FencedFromFirst` and `FencedFromKeeps` state what it keeps |
| CodeBlockParser.FencedBlocks | src/components/CodePreview/utils/codeBlockParser.ts:83-99 | `parseFencedBlocks` as a function; `ParseFencedBlocks` is proved equal to it, and `FencedBlocksKeepFirstPerLanguage` states its result |
| CodeBlockParser.RecordFenceGet | src/components/CodePreview/utils/codeBlockParser.ts:89-95 | A match fills its language only when that language is still missing |
| CodeBlockParser.FencedFromFirst | src/components/CodePreview/utils/codeBlockParser.ts:88-96 | Each slot keeps its value, or takes the first later match naming its language |
| CodeBlockParser.FencedBlocksKeepFirstPerLanguage | src/components/CodePreview/utils/codeBlockParser.ts:83-99 | For each language the result is the content of the first match naming it, and nothing else |
| CodeBlockParser.FencedFromKeeps | src/components/CodePreview/utils/codeBlockParser.ts:93-95 | A filled slot survives the rest of the scan |
| CodeBlockParser.FenceText | src/components/CodePreview/utils/codeBlockParser.ts:85 | A fence as written: "```", token, blanks, line break, content, "```"; `FenceMatchesAt` and `FenceRoundTrip` are about it |
| CodeBlockParser.IsBlanks | src/components/CodePreview/utils/codeBlockParser.ts:85 | The text `[ \t]*` takes: spaces and tabs only |
| CodeBlockParser.NoTicksInside | src/components/CodePreview/utils/codeBlockParser.ts:85 | Where the lazy content group stops: no "```" starts inside the content, not even one running into the closing backticks |
| CodeBlockParser.FenceMatchesAt | src/components/CodePreview/utils/codeBlockParser.ts:85 | A written fence matches where it starts, with blanks after the token, a "\n" or "\r\n" break, and content that may hold single or double backticks but no "```": the match has that token, that content verbatim and ends after the closing backticks |
| CodeBlockParser.FenceTextParts | src/components/CodePreview/utils/codeBlockParser.ts:85 | The text at a match splits back into the opening backticks, the token, the blanks, the line break and the content followed by "```" |
| CodeBlockParser.FenceAtParts | src/components/CodePreview/utils/codeBlockParser.ts:85 | Where each part of the pattern ends decides the match: the token and the content are the text between those ends |
| CodeBlockParser.BlankEndAt | src/components/CodePreview/utils/codeBlockParser.ts:85 | A run of blanks that cannot be extended ends where `BlankEnd` says |
| CodeBlockParser.NextFenceSkipsPlainText | src/components/CodePreview/utils/codeBlockParser.ts:85-88 | Backtick-free text before a match is skipped |
| CodeBlockParser.NoFenceInPlainText | src/components/CodePreview/utils/codeBlockParser.ts:85-88 | Backtick-free text holds no match |
| CodeBlockParser.SingleFence | src/components/CodePreview/utils/codeBlockParser.ts:83-99 | One fence in backtick-free text yields its content, and with nothing else after it yields only that |
| CodeBlockParser.FenceRoundTrip | src/components/CodePreview/utils/codeBlockParser.ts:83-99 | Writing a fence (any blanks, either line break, content without "```") after backtick-free prose and parsing it gives the content back verbatim for its language, and no other language when nothing but backtick-free text follows |
| CodeBlockParser.NeedsFallback | src/components/CodePreview/utils/codeBlockParser.ts:153 | The fallback condition: all three slots are undefined or empty |
| CodeBlockParser.Parse | src/components/CodePreview/utils/codeBlockParser.ts:147-162 | `parseCodeBlocksFromChildren` as a function; the method is proved equal to it, and `ParseFallbackRule`, `ParseIsSound`, `ParsePlainTree` and `NestedBlockIsLost` are about it |
| CodeBlockParser.Spread | src/components/CodePreview/utils/codeBlockParser.ts:154 | `{ ...result, ...fenced }`: a defined fenced slot overrides, otherwise the tree's slot stays |
| CodeBlockParser.ParseCodeBlocksFromChildren | src/components/CodePreview/utils/codeBlockParser.ts:147-162 | The extractor, with its class and loops, computes `Parse` |
| CodeBlockParser.ParseFallbackRule | src/components/CodePreview/utils/codeBlockParser.ts:152-155 | The fenced search runs exactly when no slot holds non-empty text; otherwise the tree's slots are returned |
| CodeBlockParser.ParseIsSound | src/components/CodePreview/utils/codeBlockParser.ts:157-161 | Every returned value is a block's code from the tree, or a fenced block's content from the joined raw text |
| CodeBlockParser.ParsePlainTree | src/components/CodePreview/utils/codeBlockParser.ts:147-162 | A tree without hints is parsed as fences over its whole text |
| CodeBlockParser.RawFenceIsRecovered | src/components/CodePreview/CodePreview.spec.tsx:25-36 | A raw fenced block as the only child yields its content for its language and nothing for the others |
| CodeBlockParser.WrappedBlockIsExtracted | src/components/CodePreview/utils/codeBlockParser.spec.ts:15-49 | A hinted block inside an unhinted wrapper yields its code, and the other languages stay undefined |
| CodeBlockParser.NestedBlockIsLost | src/components/CodePreview/utils/codeBlockParser.ts:139-142 | A hinted element is consumed whole: a block hinted with another language inside it is in the tree but never reaches its slot, and the outer block takes all the text |
| CodeBlockParserAsWritten.LookupAsWritten | src/components/CodePreview/utils/codeBlockParser.ts:25-30 | The plain-object lookup: own aliases, and the inherited `constructor` and `__proto__`; `TokenSlotAsWritten` and `ConstructorIsInherited` state it |
| CodeBlockParserAsWritten.ExtractLanguageAsWritten | src/components/CodePreview/utils/codeBlockParser.ts:32-50 | Detection with that lookup; `ConstructorHintDetection` and `DetectionAgrees` state where it differs and where it agrees |
| CodeBlockParserAsWritten.CollectAsWritten | src/components/CodePreview/utils/codeBlockParser.ts:101-145 | The walk with that detection; `InheritedHintHidesBlock` and `CollectAgrees` are about it |
| CodeBlockParserAsWritten.FencedFromAsWritten | src/components/CodePreview/utils/codeBlockParser.ts:88-96 | The `exec` loop with that lookup; `FencedAgrees` states it fills the editor slots as the intended loop does |
| CodeBlockParserAsWritten.ParseAsWritten | src/components/CodePreview/utils/codeBlockParser.ts:147-162 | The extractor as written; `ConstructorHintHidesBlock` and `AsWrittenAgreesWithoutInheritedHints` are about it |
| CodeBlockParserAsWritten.TokenSlotAsWritten | src/components/CodePreview/utils/codeBlockParser.ts:25-30 | A lookup in the alias object that lands on an editor key agrees with `TokenLanguage` |
| CodeBlockParserAsWritten.InheritedHintHidesBlock | src/components/CodePreview/utils/codeBlockParser.ts:139-142 | As written, a block whose hint reaches an inherited key fills a hidden slot, and nothing is returned |
| CodeBlockParserAsWritten.ConstructorHintDetection | src/components/CodePreview/utils/codeBlockParser.ts:39-42 | As written, `language="constructor"` is detected as the inherited `constructor`; the intended table gives html from the class |
| CodeBlockParserAsWritten.ConstructorIsInherited | src/components/CodePreview/utils/codeBlockParser.ts:25-30 | As written, the token `constructor` reaches an inherited value, while the own entries name no language for it |
| CodeBlockParserAsWritten.ConstructorHintHidesBlock | src/components/CodePreview/utils/codeBlockParser.ts:25-49 | The counterexample: as written no HTML is returned; the intended extractor returns the block's text |
| CodeBlockParserAsWritten.WrappedBlockIsExtractedBare | src/components/CodePreview/utils/codeBlockParser.ts:139-145 | The intended extractor returns a hinted block's code when the block is the root |
| CodeBlockParserAsWritten.DetectionAgrees | src/components/CodePreview/utils/codeBlockParser.ts:32-50 | Without inherited keys, as-written and intended detection agree, in both directions |
| CodeBlockParserAsWritten.RecordFenceAgrees | src/components/CodePreview/utils/codeBlockParser.ts:89-95 | Recording a fence keeps the two maps in agreement on the editor keys |
| CodeBlockParserAsWritten.FencedAgrees | src/components/CodePreview/utils/codeBlockParser.ts:83-99 | The fenced scans agree on the editor keys |
| CodeBlockParserAsWritten.CollectAgrees | src/components/CodePreview/utils/codeBlockParser.ts:101-145 | Without inherited hints the tree walks agree on the editor keys and the raw segments |
| CodeBlockParserAsWritten.CollectAllAgrees | src/components/CodePreview/utils/codeBlockParser.ts:104-106 | The same for a sequence of siblings |
| CodeBlockParserAsWritten.AsWrittenAgreesWithoutInheritedHints | src/components/CodePreview/utils/codeBlockParser.ts:147-162 | Without inherited hints, the extractor as written returns exactly what the corrected one does |
| SourceCodeUtils.ResolveInitialSource | src/components/CodePreview/utils/sourceCodeUtils.ts:15-60 | The hasInitial flags are set exactly when the prop is defined. A defined prop wins. Without a sourceId or stored record, the props are returned unchanged. Otherwise each missing code comes from the store and each missing path or image map from the stored record |
| SourceCodeUtils.FlagsIgnoreStore | src/components/CodePreview/utils/sourceCodeUtils.ts:18-20 | The flags do not depend on the sourceId or the stored record |
| SourceCodeUtils.StoreDefinesEveryCode | src/components/CodePreview/utils/sourceCodeUtils.ts:30-34 | With a sourceId and a stored record, every code is defined |
| SourceCodeUtils.ResolveIsIdempotent | src/components/CodePreview/utils/sourceCodeUtils.ts:15-60 | Resolving the resolved values again changes nothing |
| Store.Lookup | src/components/CodePreview/hooks/useSourceCodeStore.ts:43-48 | `get` returns a record exactly for a key that is set, and that key's record |
| Store.SourceCodeStore.Get | src/components/CodePreview/hooks/useGlobalSourceProvider.ts:51 | `get` of one key is `Lookup` in the current records |
| Store.SourceCodeStore.Set | src/components/CodePreview/hooks/useGlobalSourceProvider.ts:61 | `set` replaces one key's record and nothing else |
| Store.SourceCodeStore.Notify | src/components/CodePreview/hooks/useGlobalSourceProvider.ts:62 | `notify` logs one key and changes no record |
| Store.SourceCodeStore.Subscribe | src/components/CodePreview/hooks/useSourceCodeStore.ts:36-41 | `subscribe` logs one key and changes no record |
| GlobalSourceProvider.HasSourceInputs | src/components/CodePreview/hooks/useGlobalSourceProvider.ts:38-46 | An owned editor, a non-empty image map or a defined path counts as an input; `ProviderEligibility` states the cases |
| GlobalSourceProvider.IsSourceProvider | src/components/CodePreview/hooks/useGlobalSourceProvider.ts:47 | `share` (true by default), a truthy key and some input; `ProviderEligibility` and `Provide` are about it |
| GlobalSourceProvider.EmptyRecord | src/components/CodePreview/hooks/useGlobalSourceProvider.ts:51 | The record an unset key is read as: three empty codes, no images and no paths; `MergedRecord` uses it |
| GlobalSourceProvider.MergedRecord | src/components/CodePreview/hooks/useGlobalSourceProvider.ts:51-60 | An owned code takes the prop, or "" when it is undefined. A code the instance does not own keeps the existing record's code. Images and paths are replaced when given and inherited otherwise |
| GlobalSourceProvider.Provide | src/components/CodePreview/hooks/useGlobalSourceProvider.ts:49-63 | A non-provider leaves the store alone. A provider stores the merged record under its key and notifies that key once |
| GlobalSourceProvider.MergeIsIdempotent | src/components/CodePreview/hooks/useGlobalSourceProvider.ts:52-60 | Providing the same props twice stores the same record as providing them once |
| GlobalSourceProvider.MergeNeverClearsByOmission | src/components/CodePreview/hooks/useGlobalSourceProvider.ts:52-60 | A field the provider does not give keeps its stored value |
| GlobalSourceProvider.CompleteProviderIgnoresExisting | src/components/CodePreview/hooks/useGlobalSourceProvider.ts:52-60 | A provider that gives every field stores the same record whatever was there |
| GlobalSourceProvider.ProviderEligibility | src/components/CodePreview/hooks/useGlobalSourceProvider.ts:25-47 | `share=false` or no sourceId means not a provider. Any owned code with sharing on means a provider. No codes, paths or images means not a provider |
| GlobalSourceSync.EditorBuffers.constructor | src/components/CodePreview/hooks/useSourceCodeStore.ts:79-87 | Each buffer starts at its given code, with the reset target equal to it |
| GlobalSourceSync.EditorBuffers.SetCode | src/components/CodePreview/hooks/useGlobalSourceSync.ts:42 | Sets one editor's code and nothing else |
| GlobalSourceSync.EditorBuffers.SetInitial | src/components/CodePreview/hooks/useGlobalSourceSync.ts:44 | Sets one reset target and nothing else |
| GlobalSourceSync.InitialCaptured | src/components/CodePreview/hooks/useGlobalSourceSync.ts:28-32 | A field starts captured when its prop is owned or there is no sourceId, and only then |
| GlobalSourceSync.Deliver | src/components/CodePreview/hooks/useGlobalSourceSync.ts:40-47 | One delivery: an owned field is left alone; otherwise the buffer takes the value and, if not yet captured, so does the reset target; the lemmas below are about it |
| GlobalSourceSync.DeliverAll | src/components/CodePreview/hooks/useGlobalSourceSync.ts:37-65 | Successive deliveries, oldest first; `OwnedFieldIsNeverTouched`, `ResetTargetIsFirstDelivery` and `CaptureIsFinal` are about it |
| GlobalSourceSync.OwnedFieldIsNeverTouched | src/components/CodePreview/hooks/useGlobalSourceSync.ts:40 | A field whose prop is defined is never written by any delivery sequence |
| GlobalSourceSync.ResetTargetIsFirstDelivery | src/components/CodePreview/hooks/useGlobalSourceSync.ts:40-47 | After deliveries, a field that is not owned holds the last stored value and is captured. Its reset target is the first delivered value, unless one was captured before |
| GlobalSourceSync.CaptureIsFinal | src/components/CodePreview/hooks/useGlobalSourceSync.ts:43-46 | Once captured, the reset target never changes again |
| GlobalSourceSync.DeliverIsIdempotent | src/components/CodePreview/hooks/useGlobalSourceSync.ts:40-47 | Delivering the same stored value twice equals delivering it once |
| GlobalSourceSync.SourceSync.constructor | src/components/CodePreview/hooks/useGlobalSourceSync.ts:28-32 | The capture flags start as the rule says, and the invariant holds |
| GlobalSourceSync.SourceSync.SetCaptured | src/components/CodePreview/hooks/useGlobalSourceSync.ts:45 | Sets one capture flag and nothing else |
| GlobalSourceSync.SourceSync.Updated | src/components/CodePreview/hooks/useGlobalSourceSync.ts:39-63 | One field after an update: unchanged without a record, else the record's value delivered; `UpdateFromStore` is proved against it |
| GlobalSourceSync.SourceSync.UpdateField | src/components/CodePreview/hooks/useGlobalSourceSync.ts:40-47 | One field takes one delivery; the other fields are unchanged |
| GlobalSourceSync.SourceSync.UpdateFromStore | src/components/CodePreview/hooks/useGlobalSourceSync.ts:37-65 | With a stored record each field takes its delivery; without one nothing changes; the invariant is kept |
| GlobalSourceSync.SourceSync.Start | src/components/CodePreview/hooks/useGlobalSourceSync.ts:35-70 | Without a sourceId nothing happens. Otherwise the store is read once and the key is subscribed; no record is changed |
| Pathname.Add | src/components/CodePreview/hooks/usePathname.ts:85 | Adding a listener to the set gives the old members plus it, keeps them distinct, and is never empty |
| Pathname.Remove | src/components/CodePreview/hooks/usePathname.ts:88 | Deleting a listener gives the old members without it, and changes nothing when it is absent |
| Pathname.TailIsDistinct | src/components/CodePreview/hooks/usePathname.ts:5-11 | The rest of a duplicate-free listener list is duplicate-free and does not hold the head |
| Pathname.RemoveKeepsDistinct | src/components/CodePreview/hooks/usePathname.ts:88 | Deleting keeps the listener list duplicate-free |
| Pathname.Loaded | src/components/CodePreview/hooks/usePathname.ts:5-11 | At module load the observer is valid, idle, and knows the location only with a window |
| Pathname.Valid | src/components/CodePreview/hooks/usePathname.ts:37-77 | The observer's invariant: the patch, saved originals and handler are installed exactly while someone listens, the cache is the location while initialised, a raised flag has a queued run |
| Pathname.Scheduled | src/components/CodePreview/hooks/usePathname.ts:13-27 | `scheduleNotify`: a raised flag changes nothing; otherwise the flag is raised and one run is queued |
| Pathname.Notified | src/components/CodePreview/hooks/usePathname.ts:29-35 | `notifyListeners`: no window or an unchanged path does nothing; a new path is cached and a run scheduled; `NotifyDetectsChange` states it |
| Pathname.Initialized | src/components/CodePreview/hooks/usePathname.ts:37-60 | `ensureInitialized`: installs the handler and patches history once, caching the location; `InitializeOnce` states it |
| Pathname.CleanedUp | src/components/CodePreview/hooks/usePathname.ts:62-77 | `cleanup`: removes the handler and patches, forgets the listeners and the path, and lowers the flag while any queued run stays queued |
| Pathname.Subscribed | src/components/CodePreview/hooks/usePathname.ts:79-86 | `subscribe`: initialise, then add the listener |
| Pathname.Unsubscribed | src/components/CodePreview/hooks/usePathname.ts:87-92 | The function `subscribe` returns: remove the listener, and clean up after the last one |
| Pathname.AfterRun | src/components/CodePreview/hooks/usePathname.ts:17-20 | The queued `run`: lowers the flag and calls the current listeners, in insertion order |
| Pathname.AfterHistoryCall | src/components/CodePreview/hooks/usePathname.ts:47-59 | A `pushState` or `replaceState`: the location moves, and the patched function notifies only while it is installed |
| Pathname.AfterPopState | src/components/CodePreview/hooks/usePathname.ts:42 | Back/forward navigation: the location moves, and the handler notifies only while it is attached |
| Pathname.Burst | src/components/CodePreview/hooks/usePathname.ts:47-59 | Successive history calls with no run between them; `BurstQueuesOneRun` is about it |
| Pathname.StepsPreserveValid | src/components/CodePreview/hooks/usePathname.ts:13-93 | subscribe, unsubscribe, notify, the scheduled run and the history events keep the observer valid: patches and popstate listening happen exactly while there are listeners |
| Pathname.NoWindowIsInert | src/components/CodePreview/hooks/usePathname.ts:79-82 | Without a window, subscribing, unsubscribing and notifying change nothing, and there is no pathname |
| Pathname.InitializeOnce | src/components/CodePreview/hooks/usePathname.ts:37-39 | Initialization runs once: it does nothing when already initialized or without a window |
| Pathname.CleanupIsIdempotent | src/components/CodePreview/hooks/usePathname.ts:62-77 | Cleaning up twice is cleaning up once |
| Pathname.NotifyDetectsChange | src/components/CodePreview/hooks/usePathname.ts:29-35 | Listeners are called only when the location differs from the remembered pathname, and then the pathname is updated |
| Pathname.LastUnsubscribeTearsDown | src/components/CodePreview/hooks/usePathname.ts:87-92 | Subscribing one listener and unsubscribing it restores history and removes the popstate listener |
| Pathname.BurstQueuesOneRun | src/components/CodePreview/hooks/usePathname.ts:13-27 | From any state, a burst of history calls adds at most one queued run, and only when it raises the flag; nobody is called and the listeners stay. A start with only the flagged run queued stays so |
| Pathname.RunCallsEachListenerOnce | src/components/CodePreview/hooks/usePathname.ts:17-20 | A run lowers the flag and appends exactly the current listeners to the calls: each listener once, and nobody else |
| Pathname.DistinctCountsOnce | src/components/CodePreview/hooks/usePathname.ts:5-11 | Each member of a duplicate-free list occurs once in its multiset |
| Pathname.OneRunAtMost | src/components/CodePreview/hooks/usePathname.ts:13-27 | No more runs are queued than the flag shows: one when it is raised, none otherwise |
| Pathname.CleanupLeavesStaleRun | src/components/CodePreview/hooks/usePathname.ts:62-77 | As written: after the last listener leaves with a run queued and a new one subscribes, one path change queues a second run, and the new listener is called twice |
| Pathname.CleanedUpKeepingRun | src/components/CodePreview/hooks/usePathname.ts:62-77 | `cleanup` without lowering the flag: otherwise the same as `CleanedUp`, and the queued runs and the flag stay |
| Pathname.UnsubscribedKeepingRun | src/components/CodePreview/hooks/usePathname.ts:87-92 | Unsubscribing with that cleanup: the listener is removed, and the queued runs and the flag stay |
| Pathname.KeepingRunQueuesOneAtMost | src/components/CodePreview/hooks/usePathname.ts:13-92 | With that cleanup every step keeps the invariant and at most one queued run |
| Pathname.KeepingRunCallsOnce | src/components/CodePreview/hooks/usePathname.ts:13-92 | With that cleanup the same scenario queues one run, which calls the new listener once with the new path cached |
| Pathname.PathnameObserver.constructor | src/components/CodePreview/hooks/usePathname.ts:5-11 | The object starts in the module-load state |
| Pathname.PathnameObserver.ScheduleNotify | src/components/CodePreview/hooks/usePathname.ts:13-27 | Moves to the scheduled state |
| Pathname.PathnameObserver.NotifyListeners | src/components/CodePreview/hooks/usePathname.ts:29-35 | Moves to the notified state |
| Pathname.PathnameObserver.EnsureInitialized | src/components/CodePreview/hooks/usePathname.ts:37-60 | Moves to the initialized state |
| Pathname.PathnameObserver.Cleanup | src/components/CodePreview/hooks/usePathname.ts:62-77 | Moves to the cleaned-up state |
| Pathname.PathnameObserver.Subscribe | src/components/CodePreview/hooks/usePathname.ts:79-86 | Moves to the subscribed state |
| Pathname.PathnameObserver.Unsubscribe | src/components/CodePreview/hooks/usePathname.ts:87-92 | Moves to the unsubscribed state |
| Pathname.PathnameObserver.RunScheduled | src/components/CodePreview/hooks/usePathname.ts:17-20 | Moves to the state after the queued run |
| Pathname.PathnameObserver.PushState | src/components/CodePreview/hooks/usePathname.ts:47-52 | The location moves to the new path; while the patch is installed, `notifyListeners` runs, which schedules a run only for a path other than the cached one and queues nothing while one is pending |
| Pathname.PathnameObserver.ReplaceState | src/components/CodePreview/hooks/usePathname.ts:54-59 | The same for `replaceState`: the location moves, and only the installed patch runs `notifyListeners` |
| Pathname.PathnameObserver.PopState | src/components/CodePreview/hooks/usePathname.ts:42 | Back/forward navigation: the location moves, and only an attached `popstate` handler runs `notifyListeners` |
| Pathname.PathnameObserver.GetSnapshot | src/components/CodePreview/hooks/usePathname.ts:95 | While initialized this is the current location, and without a window it is undefined |
| Pathname.GetServerSnapshot | src/components/CodePreview/hooks/usePathname.ts:96 | On the server the pathname is undefined |
| SourceCodeStoreHook.ScopedSourceId | src/components/CodePreview/hooks/useSourceCodeStore.ts:30-34 | There is a key exactly when the sourceId is non-empty. Without a pathname the key is the sourceId. Otherwise it is the sourceId, ':' and the pathname |
| SourceCodeStoreHook.PathsAreIsolated | src/components/CodePreview/hooks/useSourceCodeStore.ts:30-34 | Two different pathnames give different keys for one sourceId |
| SourceCodeStoreHook.ScopedKeyIsNotUnscoped | src/components/CodePreview/hooks/useSourceCodeStore.ts:30-34 | A scoped key differs from the bare sourceId |
| SourceCodeStoreHook.ScopedKeyDeterminesBoth | src/components/CodePreview/hooks/useSourceCodeStore.ts:30-34 | When the sourceIds hold no ':', the key determines both the sourceId and the pathname |
| SourceCodeStoreHook.ColonInSourceIdCanCollide | src/components/CodePreview/hooks/useSourceCodeStore.ts:30-34 | A ':' in a sourceId lets two different pairs share a key |
| SourceCodeStoreHook.GetSnapshot | src/components/CodePreview/hooks/useSourceCodeStore.ts:43-48 | Without a truthy key there is no snapshot. With one the snapshot is that key's record, or nothing when it is unset |
| SourceCodeStoreHook.SubscribeSnapshot | src/components/CodePreview/hooks/useSourceCodeStore.ts:36-41 | Subscribes exactly when the key is truthy, and changes no record |
| SourceCodeStoreHook.ResolveInputs | src/components/CodePreview/hooks/useSourceCodeStore.ts:67-77 | What resolution receives: the scoped key, the snapshot for it and the normalised props |
| SourceCodeStoreHook.ProviderInputs | src/components/CodePreview/hooks/useSourceCodeStore.ts:101-115 | What the provider receives: the same normalised props and the flags resolution computed |
| SourceCodeStoreHook.ResolvedFor | src/components/CodePreview/hooks/useSourceCodeStore.ts:55-77 | The resolution an instance on a path makes against the records; `SamePathShares` and `OtherPathIsIsolated` are about it |
| SourceCodeStoreHook.RecordsAfterProvide | src/components/CodePreview/hooks/useSourceCodeStore.ts:101-115 | The records after the provider effect; `RunEffects` is proved against it |
| SourceCodeStoreHook.ProviderSeesResolvedFlags | src/components/CodePreview/hooks/useSourceCodeStore.ts:101-115 | The provider's hasInitial flags are those of the normalized props |
| SourceCodeStoreHook.SamePathShares | src/components/CodePreview/CodePreview.spec.tsx:1011-1076 | After a provider on a path writes its HTML, a consumer with the same sourceId on that path resolves it |
| SourceCodeStoreHook.OtherPathIsIsolated | src/components/CodePreview/CodePreview.spec.tsx:1011-1076 | A provider on one path does not change what a consumer on another path resolves |
| SourceCodeStoreHook.Reset | src/components/CodePreview/hooks/useSourceCodeStore.ts:117-121 | `resetCodes` puts each code back to its reset target, and keeps the targets and capture flags |
| SourceCodeStoreHook.ResetIsIdempotent | src/components/CodePreview/hooks/useSourceCodeStore.ts:117-121 | Resetting twice is resetting once |
| SourceCodeStoreHook.ResetKeepsTargets | src/components/CodePreview/hooks/useSourceCodeStore.ts:117-121 | After a reset, a later delivery to a captured field keeps its target |
| SourceCodeStoreHook.SourceCodeInstance.constructor | src/components/CodePreview/hooks/useSourceCodeStore.ts:25-87 | The render computes the scoped key and the resolved source from the store's records. It starts each buffer at the resolved code with a trailing newline, and each target at the buffer. A field starts captured exactly when it is owned or there is no key, and an owned field resolves to its normalised prop |
| SourceCodeStoreHook.SourceCodeInstance.SubscribeAndSync | src/components/CodePreview/hooks/useSourceCodeStore.ts:36-99 | The snapshot subscription, then the sync. No record changes. Without a key nothing changes; with one the key is subscribed twice and each field takes the old record's delivery. An uncaptured field takes the stored code, newline-terminated, as both its buffer and its reset target; owned fields are left alone |
| SourceCodeStoreHook.SourceCodeInstance.RunEffects | src/components/CodePreview/hooks/useSourceCodeStore.ts:36-115 | The effects in hook order: the snapshot subscription, the sync, then the provider write. The records become `RecordsAfterProvide` of the old ones. Without a key no field changes and nothing is subscribed; with one each field takes the old record's delivery, an uncaptured field takes the stored code as its reset target, and the key is subscribed twice (snapshot and sync). Owned fields are untouched; the key is notified once exactly when the instance is a provider |
| SourceCodeStoreHook.SourceCodeInstance.OnStoreNotification | src/components/CodePreview/hooks/useGlobalSourceSync.ts:37-69 | A notification re-runs the delivery from the current record |
| SourceCodeStoreHook.SourceCodeInstance.ResetCodes | src/components/CodePreview/hooks/useSourceCodeStore.ts:117-121 | Every buffer is reset as `Reset` states |
| SourceCodeStoreHook.Mount | src/components/CodePreview/hooks/useSourceCodeStore.ts:25-115 | Render then effects: every buffer agrees with its reset target; a keyed editor the instance does not own gets the stored code, newline-terminated, as its captured reset target; an owned editor gets its normalised prop |
| CodePreviewClient.ParsedSource | src/components/CodePreview/CodePreviewClient.tsx:23-28 | Nothing is parsed without children or when all three values are given. Otherwise the parsed blocks are returned |
| CodePreviewClient.ClientHookProps | src/components/CodePreview/CodePreviewClient.tsx:12-41 | Each defined prop is kept and each undefined one takes the parsed block; the paths and the rest are forwarded, and `title` is not part of what the hook receives |
| CodePreviewClient.ClientLayoutTitle | src/components/CodePreview/CodePreviewClient.tsx:46 | The layout's `title` is the prop itself; `TitleGoesToLayoutOnly` and `ServerThenClientAgrees` state it |
| CodePreviewClient.TitleGoesToLayoutOnly | src/components/CodePreview/CodePreviewClient.tsx:12-48 | The layout gets the title prop itself, and the hook's input is the same whatever the title |
| CodePreviewClient.NothingToParsePassesThrough | src/components/CodePreview/CodePreviewClient.tsx:23-32 | Without children, or with all three values, the values pass through unchanged |
| CodePreviewClient.PropBeatsChildren | src/components/CodePreview/CodePreview.spec.tsx:38-96 | An explicit value, even "", beats the children |
| CodePreviewClient.RawFenceReachesHook | src/components/CodePreview/CodePreview.spec.tsx:25-36 | A raw fence as the only child becomes the hook's value for its language; the others stay undefined |
| Server.ServerForward | src/server.tsx:5-31 | The client receives no children, the merged values, and the title, paths and other props unchanged |
| Server.ServerShouldParse | src/server.tsx:14-16 | The server's own gate; `ServerGateIsShouldParse` states it is the extractor's |
| Server.ServerParsedSource | src/server.tsx:17-19 | The blocks the server parses behind that gate; `ServerGateIsShouldParse` states they are the client's |
| Server.ServerGateIsShouldParse | src/server.tsx:14-19 | The server's gate is the extractor's gate, so it parses the same |
| Server.ServerThenClientAgrees | src/server.tsx:14-31 | After the server step the client parses nothing, hands its hook the values the client alone would have computed, and gives the layout the same title |
| Server.AllGivenPassThrough | src/server.tsx:14-22 | With all three values given no parse happens, and only the children are dropped |

## Left out

- Asset-path rewriting, editor height, visibility and console capture are outside this model; they do not affect which source is shown.
- React scheduling is not modelled: when effects run, effect re-runs on dependency changes, `useSyncExternalStore` tearing and re-renders. The instance runs its render once, then its effects once, in that order.
- The store's implementation is not part of this model. Only the calls the hooks make are kept, and notifications and subscriptions are logs rather than dispatched callbacks.
- SourceCodeStoreHook.SourceCodeInstance.RunEffects: the provider's `notify` synchronously calls the instance's own `updateFromStore`, subscribed one effect earlier. In the source a provider's unowned editor is therefore captured at once, with the merged record's code (`ensureTrailingNewline('')` for a key that had no record) as its reset target; in the model that field stays uncaptured until `OnStoreNotification` runs. `Mount` has the same gap.
- SourceCodeStoreHook.Mount: after the last listener leaves, `cleanup` clears the cached path, so an instance mounted later reads no pathname on its first render and runs its first effects under the bare `sourceId` key until the re-render with the path. The model mounts with whatever pathname it is given; this first-render window, which hydration with the server snapshot also has, is not modelled as its own step.
- CodeBlockParser.Lower: lower-cases ASCII letters only, because no Unicode case mapping is available; every token that can name a language is ASCII.
- CodeBlockParser.ParseCodeBlocksFromChildren: children are a closed tree. `null`, `undefined` and booleans are `Nil`; a string or a number is a `Text` leaf, a number given by its decimal text (`String(node)` is not computed here); arrays and elements carry the seven props read. Other values, which the source skips as non-elements, have no separate form.
- CodeBlockParser.ExtractLanguage: a truthy hint prop or a `className` that is not a string makes the source throw a TypeError (`toLowerCase` or `match` is not a function), aborting the parse and the render; the model reads such a prop as absent and moves on to the next hint.
- `normalizeInitialCode` and `ensureTrailingNewline` are taken as parameters. Their bodies (trimming, dedenting, appending "\n") are not modelled.
- `useCodePreview` and the component's rendering are not part of this model.
- GlobalSourceSync.SourceSync.UpdateFromStore: the source's checks of `stored.html !== undefined` (and css, js) always hold for a stored record, whose codes are strings, so they are not modelled as separate branches.
- Pathname.PathnameObserver.RunScheduled: a listener that subscribes or unsubscribes while `run` is calling it is not modelled; listeners are opaque ids, and a call is recorded in a log.
- Pathname.PathnameObserver.ScheduleNotify: `queueMicrotask` and the `setTimeout` fallback are one kind of deferred run, counted by `pendingRuns`.
- SourceCodeStoreHook.ScopedKeyDeterminesBoth: holds only for sourceIds without ':'; with one, `ColonInSourceIdCanCollide` shows two pairs that share a key.
- The preview's `images` map is carried through as an opaque string map.
- Pathname.PathnameObserver.Cleanup: the observer class follows `cleanup` as written, including the lowered flag; the corrected cleanup of the second finding is modelled on the `Observer` value only (`CleanedUpKeepingRun`, `UnsubscribedKeepingRun`).

## Findings

| source | as written | input that shows it | evidently intended | confidence | as-written member | corrected member |
|---|---|---|---|---|---|---|
| src/components/CodePreview/utils/codeBlockParser.ts:25-42 | `LANGUAGE_ALIASES` is a plain object literal, so a lower-cased hint of `constructor` or `__proto__` finds a truthy inherited value and is taken as the block's language. The block's code is then stored under that hidden key, and no editor receives it | an element with `className="language-html"` and `language="constructor"` whose text is `<p>x</p>` | a hint that is not an alias yields no language, and detection falls back to the class name: the block is the HTML source `<p>x</p>` | not executed | CodeBlockParserAsWritten.ConstructorHintHidesBlock | CodeBlockParser.LanguagePrecedence |
| src/components/CodePreview/hooks/usePathname.ts:62-77 | `cleanup` sets `notifyScheduled = false` while the `run` queued by `scheduleNotify` is still pending. If the last listener leaves in that window and a new one subscribes, the next path change queues a second run, and both runs call the new listener | a run queued for listener 0 on "/a"; 0 unsubscribes, 1 subscribes, `pushState` to "/b": two runs are queued and listener 1 is called twice for one change | at most one notification run is pending at a time, so each listener is called once per batch of changes; `cleanup` leaves the flag to the queued run, which lowers it when it runs | not executed | Pathname.CleanupLeavesStaleRun | Pathname.KeepingRunQueuesOneAtMost |
