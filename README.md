# wiktionary-fi-bot, modelled in Dafny

This project models a Telegram bot that answers a word query with the
Finnish entry of an English Wiktionary page. The model covers the part of the
bot that has real logic in it:

- how an update becomes a query (`get_query`);
- how the article text is extracted from the parsed page (`domops.rs`):
  - the section walk after the `#Finnish` anchor;
  - the recursive renderer, with whitespace collapse, `*` removal, `_…_`
    emphasis and harvesting of link titles;
  - the heading label helper;
  - the noun and verb stem lines;
- the fixed selector table (`selectors.rs`) and skip list (`appstate.rs`);
- how the reply is assembled: the article message, the keyboard of reference
  buttons in rows of four, and the fallback from the article link to a
  full-text search (`messagestate.rs`).

Modules:

- `RustStr` (`rust_str.dfy`): the Rust string operations used, and the
  ascending order of a `BTreeSet<String>`. `IsWhitespace` is `char::is_whitespace`,
  written out as the Unicode White_Space list.
- `Html` (`html.dfy`): the document tree, and a parsed page as the selector
  engine reports it.
- `Selection` (`selectors.dfy`): `selectors.rs`.
- `DomOps` (`domops.dfy`): `domops.rs`. Each step-by-step operation is a
  method proved equal to a specification function.
- `DomOpsProps` (`domops_props.dfy`): the extractor's promises, proved about
  those specification functions.
- `App` (`appstate.dfy`): `appstate.rs`.
- `Messages` (`messagestate.dfy`): `messagestate.rs`:
  - `get_query`, the keyboard and the article message;
  - the class `MessageState`, whose methods update `link`, `refs` and the
    outbox of sent messages;
  - `GetUpdate`, proved equal to the pure `Respond`.

Mutable arguments (`&mut String`, `&mut BTreeSet<String>`) become in/out
parameters of the methods. Fetching a page becomes a parameter
`fetch: string -> Page`. Sending a message appends to `outbox`.

Points where the code's behaviour is easy to misread:

- Both stems use `trim_end_matches`, which removes every trailing copy of its pattern, not just one:
  - the verb stem drops every trailing 'n' (src/domops.rs:55-56);
  - the noun stem drops every trailing "lle" (src/domops.rs:44-45).
  The model computes both stems this way, and so does the article it sends. The noun stem's behaviour is listed under "## Findings". There, `DomOps.NounStem` is the one-ending stem, and `DomOps.NounStemAgrees` shows the two stems agree unless the form ends in "llelle".
- The noun stem is the allative form minus its ending, not the nominative. For "mainokselle" and "mainoksille" the stems are "mainokse" and "mainoksi" (`DomOpsProps.MainosStems`).
- `push_no_double_whitespace` (src/domops.rs:21-28) keeps rendered text free of whitespace after whitespace (`DomOpsProps.RenderIsClean`). The section walk pushes '\n' directly (src/domops.rs:127-129, 142), so the article as a whole can still hold " \n" after a block that ends in a space, or "\n\n" after an empty kept block.

## Model

| member | source | states |
|---|---|---|
| RustStr.StripPrefix | src/messagestate.rs:133 | `strip_prefix`: a result exactly when `s` starts with `p`, and then `s == p + rest` |
| RustStr.TrimEndMatches | src/domops.rs:17 | `trim_end_matches`: the result is a prefix of the input that no longer ends in the pattern |
| RustStr.TrimEndMatchesRemovesCopies | src/domops.rs:17 | what `trim_end_matches` removed is a whole number of copies of the pattern |
| RustStr.TrimEndOneCopy | src/domops.rs:17 | appending one more copy of a non-empty pattern does not change what `trim_end_matches` leaves |
| RustStr.TrimStartMatches | src/messagestate.rs:140 | `trim_start_matches('/')`: only leading `c` characters are removed, and the result does not start with `c` |
| RustStr.ToLower | src/messagestate.rs:127 | `to_lowercase` maps each character and keeps the length |
| RustStr.ToLowerIsLower | src/messagestate.rs:127 | the lower-cased text is lower case |
| RustStr.WhitespaceClass | src/domops.rs:23 | ' ', '\t', '\n' and '\r' are whitespace; '*', '_', digits and ASCII letters are not |
| RustStr.StrLessIrreflexive | src/messagestate.rs:55-58 | no title sorts before itself in `String` order |
| RustStr.StrLessTransitive | src/messagestate.rs:55-58 | `String` order is transitive |
| RustStr.StrLessTotal | src/messagestate.rs:55-58 | of two different titles, one sorts before the other |
| RustStr.StrLessAsymmetric | src/messagestate.rs:55-58 | two titles never sort before each other |
| RustStr.LeastExists | src/messagestate.rs:55-58 | every non-empty set of titles has a least element in `String` order |
| RustStr.Ascending | src/messagestate.rs:55-58 | `BTreeSet` iteration: every element exactly once, in strictly ascending order |
| Html.Attr | src/domops.rs:88 | `attr(name)` is present exactly when the attribute is, and then has its value |
| Html.TextContent | src/domops.rs:36 | `text().collect()`: no children give "", a single text child gives its text |
| Html.SelectFirst | src/domops.rs:34-35 | `select(sel).next()` is the page's first match for `sel`, or none |
| Selection.FlatMapIndex | src/selectors.rs:18-33 | `flat_map` puts `f(outer[i], inner[j])` at index `i * |inner| + j` |
| Selection.FlatMapTwoByTwo | src/selectors.rs:18-33 | a two-by-two `flat_map` lists the pairs with the outer loop varying slowest |
| Selection.New | src/selectors.rs:15-36 | anchor `#Finnish`; nouns `par\|s`, `par\|p`, `all\|s`, `all\|p`; verbs pres-1, pres-3, past-1, past-3; the search-result selector |
| Selection.SlotOrder | src/selectors.rs:18-33 | slot `i` uses case/tense `i / 2` and number/person `i % 2` |
| Selection.SlotsDistinct | src/selectors.rs:18-33 | the four noun selectors differ from each other, and so do the four verb selectors |
| DomOps.HeaderText | src/domops.rs:9-19 | the label has no trailing "edit"; the label markup is the label plus whole "edit" copies; no element first child gives "" |
| DomOps.PushText | src/domops.rs:73-78 | a text node only appends to the buffer, at most one character per character of the text |
| DomOps.RenderNode | src/domops.rs:70-108 | rendering a node only appends to the buffer and only adds references |
| DomOps.RenderSeq | src/domops.rs:70-108 | the same for a sequence of children |
| DomOps.Step | src/domops.rs:119-143 | one sibling only appends; a heading sets `add` to whether its label is kept; outside a kept section, or on a `div`/`table`/`style`, nothing changes; output is written only while `add` holds |
| DomOps.Walk | src/domops.rs:118-145 | the walk only appends to the buffer and only adds references |
| DomOps.PushChar | src/domops.rs:21-28 | the buffer is unchanged exactly when its last character and `c` are both whitespace; otherwise `c` is appended |
| DomOps.PushNoDoubleWhitespace | src/domops.rs:21-28 | the method leaves the buffer `PushChar` describes |
| DomOps.WriteContent | src/domops.rs:70-108 | the loop over children leaves the buffer and references that `RenderSeq` describes |
| DomOps.GetMainContent | src/domops.rs:110-146 | the sibling loop with its `add` flag and `break` at `h2` returns what `Walk` describes |
| DomOps.FormsOf | src/domops.rs:30-40 | one slot per selector, present exactly when the selector matches, holding the match's text |
| DomOps.GetForms | src/domops.rs:30-40 | one noun form per noun selector and one verb form per verb selector; slot `i` is present exactly when selector `i` has a match on the page, and then holds the text of that first match |
| DomOps.NounFormsFromSelectors | src/domops.rs:30-45 | with the bot's selectors, four noun forms exist exactly when all four selectors match; slots 2 and 3 are the allatives |
| DomOps.VerbFormsFromSelectors | src/domops.rs:30-40 | with the bot's selectors, four verb forms exist exactly when all four match, in the order pres-1, pres-3, past-1, past-3 |
| DomOps.NounStemAsWritten | src/domops.rs:44-45 | the stem as written never ends in "lle", and the form is the stem plus whole "lle" copies |
| DomOps.NounStem | src/domops.rs:44-45 | the intended stem removes one final "lle" when present and otherwise keeps the form |
| DomOps.NounStemRoundTrip | src/domops.rs:44-45 | removing the ending undoes adding it, whatever the stem ends in |
| DomOps.NounStemAsWrittenOverTrims | src/domops.rs:44 | "nallelle" gives "na" as written but "nalle" as intended |
| DomOps.NalleiStems | src/domops.rs:45 | "nalleille" gives "nallei" both ways |
| DomOps.NounBlockAsWritten | src/domops.rs:42-51 | the block as written is empty exactly when the four forms are not all present |
| DomOps.NounBlock | src/domops.rs:42-51 | the block is empty exactly when the four forms are not all present |
| DomOps.NounBlockAsWrittenDiffers | src/domops.rs:42-51 | for "nalle" the as-written block is three characters shorter than the intended one |
| DomOps.WriteNounForms | src/domops.rs:42-51 | appends exactly `NounBlockAsWritten`: the stems with every trailing "lle" trimmed, as the code computes them |
| DomOps.NounStemAgrees | src/domops.rs:44-45 | the stem as written equals the one-ending stem for every form that does not end in "llelle" |
| DomOps.NounBlockAgrees | src/domops.rs:42-51 | when neither allative ends in "llelle", the block as written equals the block with the one-ending stem |
| DomOps.VerbStem | src/domops.rs:55-56 | the verb stem is a prefix of the form with no trailing 'n' |
| DomOps.VerbStemRemovesCopies | src/domops.rs:55-56 | what the verb stem drops is a run of 'n' |
| DomOps.P3Note | src/domops.rs:58-62 | no note exactly when the stem is empty or the third person is the stem with its last letter doubled; otherwise " p3. " and the form |
| DomOps.Past3Note | src/domops.rs:63-65 | no note exactly when the past third person equals the past stem; otherwise " past3. " and the form |
| DomOps.VerbBlock | src/domops.rs:53-67 | the block is empty exactly when the four forms are not all present |
| DomOps.WriteVerbForms | src/domops.rs:53-67 | the writes, with both annotation tests, append exactly `VerbBlock` |
| DomOpsProps.CleanAppend | src/domops.rs:21-28 | appending a non-'*' character that is not whitespace after whitespace keeps the buffer clean |
| DomOpsProps.PushTextClean | src/domops.rs:73-78 | what a text node appends is clean: no '*', and whitespace only as a single ' ' |
| DomOpsProps.RenderNodeClean | src/domops.rs:70-108 | rendering a node keeps the new text clean |
| DomOpsProps.RenderSeqClean | src/domops.rs:70-108 | the same for a sequence of children |
| DomOpsProps.RenderIsClean | src/domops.rs:70-108 | the text `write_content` appends has no '*' and never whitespace after whitespace, even across nodes |
| DomOpsProps.CollapseAcrossNodes | src/domops.rs:73-78 | "b " and " c" in two text nodes after "a" give "ab c" |
| DomOpsProps.ItalicWraps | src/domops.rs:95-99 | an `i` element renders as '_', its children, '_' |
| DomOpsProps.PushTextPlain | src/domops.rs:73-78 | text without '*' and without whitespace is appended verbatim |
| DomOpsProps.ItalicExample | src/domops.rs:95-99 | `<i>mainos</i>` appends exactly "_mainos_" |
| DomOpsProps.TitlesOfNode | src/domops.rs:87-94 | every harvested title passes the `w:` / `Reconstruction:` filter |
| DomOpsProps.TitlesOfSeq | src/domops.rs:87-94 | the same for a sequence of children |
| DomOpsProps.RenderNodeRefs | src/domops.rs:84-94 | rendering a node adds exactly the titles of its `a` elements outside discarded subtrees |
| DomOpsProps.RenderSeqRefs | src/domops.rs:84-94 | the same for a sequence; a repeated title is added once |
| DomOpsProps.PruneNodeClean | src/domops.rs:84-86 | the pruned node has no `table`, `sup` or `style` left at any depth |
| DomOpsProps.PruneSeqClean | src/domops.rs:84-86 | the pruned sequence has no discarded element left at any depth |
| DomOpsProps.RenderNodePrune | src/domops.rs:84-86 | removing discarded subtrees changes neither the text nor the references |
| DomOpsProps.RenderSeqPrune | src/domops.rs:84-86 | the same for a sequence: discarded subtrees contribute nothing at any depth |
| DomOpsProps.WalkStopsAtH2 | src/domops.rs:120-122 | nothing after the first `h2` matters |
| DomOpsProps.WalkIgnoresNonElements | src/domops.rs:119 | non-element siblings are ignored |
| DomOpsProps.WalkAppend | src/domops.rs:115-146 | without an `h2` in `a`, walking `a + b` is walking `a` and then `b` |
| DomOpsProps.WalkQuiet | src/domops.rs:133-138 | outside a kept section, siblings without headings change nothing |
| DomOpsProps.NothingBeforeFirstHeading | src/domops.rs:111-115 | since `add` starts false, everything before the first `h3`/`h4`/`h5` is dropped |
| DomOpsProps.SkippedSectionEmitsNothing | src/domops.rs:123-131 | a heading whose label is in the skip set silences the blocks up to the next heading |
| DomOpsProps.KeptHeadingLine | src/domops.rs:123-131 | a heading whose label is not skipped opens a kept section and writes "\n_label_\n" |
| DomOpsProps.KeptBlockOneLine | src/domops.rs:139-143 | a kept block appends its clean rendering, with no '\n' inside, and then exactly one '\n' |
| DomOpsProps.SkippedBlockIgnored | src/domops.rs:133-138 | a `div`, `table` or `style` block between headings is passed over |
| DomOpsProps.WalkEndsLines | src/domops.rs:126-143 | every write of the walk ends with '\n', so a buffer that ends a line still does after the walk |
| DomOpsProps.NounBlockTwoLines | src/domops.rs:43-49 | with forms free of line breaks, the noun block as written is the "_Vartalot_" line and one more line |
| DomOpsProps.VerbBlockTwoLines | src/domops.rs:57-66 | with forms free of line breaks, the verb block is the "_Vartalot_" line and one more line |
| DomOpsProps.MainosStems | src/domops.rs:44-45 | "mainokselle" and "mainoksille" give "mainokse" and "mainoksi" |
| DomOpsProps.SanoaIsRegular | src/domops.rs:53-67 | "sanon/sanoo/sanoin/sanoi" gives "sano" and "sanoi", with no annotation |
| DomOpsProps.OllaIsAnnotated | src/domops.rs:58-62 | "olen/on" gives stem "ole", annotated " p3. on" |
| App.New | src/appstate.rs:11-29 | the token is kept, the selectors are `Selectors::new()`, and the skip set is exactly the eight listed labels |
| App.EmptyLabelAlwaysSkipped | src/appstate.rs:17 | a section heading whose first child is not an element opens a skipped section and writes nothing |
| App.PronunciationSkipped | src/appstate.rs:16 | a "Pronunciation" heading opens a skipped section |
| App.NounSectionKept | src/appstate.rs:15-27 | a "Noun" heading opens a kept section and writes its label line |
| Messages.GroupCommand | src/messagestate.rs:133 | in groups, "/w " is stripped if present, else a single "/"; a text is a query exactly when it starts with "/" |
| Messages.QueryOfMessage | src/messagestate.rs:123-142 | non-text gives none; the query is lower case and keeps the chat; outside groups a text always gives a query |
| Messages.GetQuery | src/messagestate.rs:108-143 | other update kinds give none; callback data passes through verbatim to the sender's private chat; message queries are lower case |
| Messages.PrivateQuery | src/messagestate.rs:139-141 | outside groups the query is the lower-cased text after its leading run of '/' |
| Messages.CallbackNotLowered | src/messagestate.rs:112-127 | callback data "Koira" stays "Koira"; the typed message "Koira" becomes "koira" |
| Messages.GroupPrefixes | src/messagestate.rs:132-138 | "/w koira" and "/koira" ask for "koira" in a group; "koira" is ignored |
| Messages.Chunks | src/messagestate.rs:60 | `chunks(n)`: the rows read in order give the input back; every row has 1 to `n` items, and all but the last have `n` |
| Messages.Buttons | src/messagestate.rs:58 | one button per title, with label equal to callback data |
| Messages.Keyboard | src/messagestate.rs:54-61 | no keyboard without references; otherwise rows of at most four, all but the last full, one button per reference in ascending order |
| Messages.KeyboardCoversRefs | src/messagestate.rs:54-61 | every reference gets a button |
| Messages.NineRefsRows | src/messagestate.rs:60 | nine buttons make rows of four, four and one |
| Messages.WikiLink | src/messagestate.rs:149 | the first link is the wiki base followed by the query |
| Messages.Anchor | src/messagestate.rs:88-92 | present exactly when the page has a `#Finnish` match with a parent, and then holds the siblings after that parent |
| Messages.SearchLink | src/messagestate.rs:25-27 | the search link is the site's search path, then the query verbatim, then the full-text flags |
| Messages.SearchHit | src/messagestate.rs:29-36 | present exactly when the first search result has an `href`, and then holds it |
| Messages.ArticleBody | src/messagestate.rs:73-78 | the body is the kept sections, then the noun block and the verb block as written, then the link and '\n'; the references are those the sections held, added to the given ones |
| Messages.LinkOnOwnLine | src/messagestate.rs:73-78 | the link starts a line: what comes before it in the body is empty or ends in '\n' |
| Messages.ArticleMessage | src/messagestate.rs:80-82 | the article is "*q*\n" followed by exactly the article body, and carries the keyboard of the collected references |
| Messages.Respond | src/messagestate.rs:145-169 | no query gives no message; at most one message is sent, in the query's chat, starting with "*q*\n" |
| Messages.DirectHit | src/messagestate.rs:158-159 | when the query's own page has a Finnish entry, that article is the answer |
| Messages.NothingFound | src/messagestate.rs:164-166 | with no entry and no search result, "*q*\nNo article found" is sent, without a keyboard |
| Messages.SecondMissIsSilent | src/messagestate.rs:162-163 | when the search result's page has no entry either, nothing is sent |
| Messages.SearchHitRetried | src/messagestate.rs:161-163 | when the query's page has no entry but the first search result's page has one, the article of that page is sent, with the result's link |
| Messages.NotFoundText | src/messagestate.rs:165 | the text is "*q*\n" followed by "No article found" |
| Messages.MessageState.constructor | src/messagestate.rs:149-156 | the link is the wiki link of the query, with no references and nothing sent |
| Messages.MessageState.TryFullSearch | src/messagestate.rs:24-39 | true exactly on a result with an `href`, which then becomes the link; nothing else changes |
| Messages.MessageState.SendMarkdown | src/messagestate.rs:51-64 | sends the text with the keyboard of the current references |
| Messages.MessageState.SendArticle | src/messagestate.rs:72-83 | sends "*q*\n" plus the article body, and keeps the collected references |
| Messages.MessageState.SendLink | src/messagestate.rs:85-99 | `Sent` with the article exactly when the page has an anchor, else `Missing` with nothing changed; never `Err` |
| Messages.GetUpdate | src/messagestate.rs:145-169 | the messages sent are exactly those `Respond` describes |

## Left out

- HTTP fetching and sending are not modelled. This covers `src/req.rs`, `get`, `load` and `send`. A page is given by the `fetch` parameter, and sending appends to the outbox. The same link is assumed to give the same page.
- `Respond` and `MessageState.SendLink`: `load` always returns a page, so `State::Err` is never produced. The model keeps the variant and proves `SendLink` never returns it.
- `src/main.rs` is not part of this model. It holds the server bootstrap and an older copy of the section walk.
- Markup parsing, selector parsing and selector matching are not modelled. A page is given as its first match per selector, plus the siblings after that match's parent.
- `inner_html` is not modelled: it is a given field of each element. `ElementRef::text` is modelled as the concatenation of descendant text nodes.
- Telegram serialisation, the Markdown parse mode and the exact `MessageChat` payloads are not modelled. Chats are reduced to an identifier.
- `async`/`await`, logging with `println!` and the `expect` panics in `send` and `make_selector` are not modelled.
- RustStr.ToLower: only ASCII letters are lower-cased. Unicode case mapping, which can change a string's length, is not modelled.
- `AppState.skip_chapters` is a `HashSet` in the source. Only membership is used, so it is a set here.

## Findings

| source | as written | input that shows it | evidently intended | confidence | as-written member | corrected member |
|---|---|---|---|---|---|---|
| src/domops.rs:44-45 | `trim_end_matches("lle")` removes every trailing "lle", so a stem that itself ends in "lle" loses it too | allative singular "nallelle" (of "nalle") gives the stem "na" | remove the allative ending once: the allative is a single "-lle" ending, so "nallelle" should give "nalle" | not executed | DomOps.NounStemAsWrittenOverTrims | DomOps.NounStemRoundTrip |
