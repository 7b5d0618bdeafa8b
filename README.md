# Dobby AI Research, modelled in Dafny

Dobby AI Research is a Next.js research assistant. A question goes to a chat
endpoint, which runs one search adapter per requested source (web search
through Tavily with a canned fallback, GitHub, a synthetic Twitter link, and
CoinGecko). The endpoint groups the results into a context text, splices that
context into the model's system prompt, and relays the model's streamed
answer to the browser as Server-Sent-Events frames. The browser decodes those
frames into one assistant message. Around this pipeline sit `localStorage`
stores (research sessions, custom research templates, the API key) and small
rule functions in the UI components: follow-up suggestions, confidence
badges, source counting, the source picker, compare mode, tags, session
search, template placeholders, and splitting code blocks out of answers.

The model has one module per source file:

| module | file | what it holds |
|---|---|---|
| `MultiSource` | multi_source.dfy | the three adapters, the aggregator, the grouped context |
| `WebSearch` | web_search.dfy | the Tavily mapping, the fallback list, the numbered context |
| `ChatRoute` | chat_route.dfy | `POST`: key check, prompt splice, frame relay (class `EventStream`) |
| `ChatInterface` | chat_interface.dfy | submit, stream decoding and bookmark toggle (class `ChatView`) |
| `Sessions` | session_storage.dfy | the session store (class `SessionStore`) |
| `Templates` | research_templates.dfy | built-in templates, the custom store (class `TemplateStore`), `fillTemplate` |
| `Selector` | template_selector.dfy | placeholder extraction and the template dialog (class `TemplateDialog`) |
| `ApiKeys` | api_key_storage.dfy | key validation and the key entry (class `KeyStore`) |
| `Bubble` | message_bubble.dfy | code-block splitting, source styles, the collapse rule |
| `Suggestions` | smart_suggestions.dfy | follow-up rules and the panel (class `SuggestionPanel`) |
| `Quality` | quality_indicator.dfy | official sources, confidence level, badges |
| `Distribution` | source_distribution.dfy | per-source counts |
| `SourcePicker` | source_selector.dfy | `toggleSource` |
| `Compare` | compare_mode.dfy | the comparison query and dialog (class `CompareDialog`) |
| `TagEditing` | tag_manager.dfy | tag normalisation, suggested tags, the editor (class `TagEditor`) |
| `History` | session_manager.dfy | session search and the delete handlers (class `HistoryPanel`) |
| `Base`, `Text`, `Json` | base.dfy, text.dfy, json.dfy | shared sequence lemmas; JavaScript string operations (`trim`, ASCII `toLowerCase`, `split`, `encodeURIComponent`); `JSON.stringify` of a string and its reader |

Everything outside the program is an input:
- the network replies (Tavily, GitHub, CoinGecko, the upstream model);
- the reads of a response body;
- what `JSON.parse` gives for each `data:` line;
- the clock (`now` parameters);
- the answer to `confirm()`.

Stateful code is modelled as classes whose methods change their fields:
- the stores;
- the component state the handlers update;
- the event stream the relay writes.

The loops of the source are methods with loop invariants. Each is proved
equal to a specification function. The properties are proved as lemmas
about those functions.

Three behaviours of the code are kept as written:
- Each read of a response body is split into lines by itself, on both the
  server and the client. A line cut across two reads is lost; there is no
  buffering across reads.
- The error path of the relay sends the apology frame and closes the stream
  without a final `data: [DONE]` frame.
- `handleTemplateClick` tests `!vars[key]` on a plain object. A placeholder
  whose key names a member inherited from `Object.prototype` (for example
  `[constructor]`) therefore never gets a form field. The model keeps this
  behaviour (`Selector.Record`, `Selector.GatherKeys`).

## Model

| member | source | states |
|---|---|---|
| MultiSource.SourceOfTag | lib/multi-source-search.ts:135-150 | the switch picks GitHub, Twitter or crypto only for exactly "github", "twitter" or "crypto"; every other tag falls through to web search |
| MultiSource.SourceOfTagName | lib/multi-source-search.ts:135-150 | each source's own tag selects that source's adapter |
| MultiSource.SearchGitHub | lib/multi-source-search.ts:20-57 | [] on an exception, a non-success status, a missing `items` array, or a repository without an owner; otherwise one result per repository, in order, with its name and url, its description or "No description available" as snippet, the description-stars-language-forks text as content, and its counts and owner as metadata, all tagged github |
| MultiSource.RepoResult | lib/multi-source-search.ts:40-51 | a repository's result is tagged github, always has a snippet, and its content opens with the description |
| MultiSource.SearchTwitter | lib/multi-source-search.ts:60-78 | always exactly one result, tagged twitter, titled "Twitter Search: " plus the query, linking to a Twitter search |
| MultiSource.KeptCoins | lib/multi-source-search.ts:92 | at most the first three coins found, all of them when fewer than three |
| MultiSource.CoinIds | lib/multi-source-search.ts:97 | the market-data request asks for the kept coins' ids, in order |
| MultiSource.SearchCrypto | lib/multi-source-search.ts:81-129 | [] on a failed coin search or when no coin is found; once coins are kept, a throwing market-data call gives [], a failed one gives exactly the name-and-link result of each kept coin, in coin order, and a successful one gives exactly one result per quote, in quote order; every result is tagged crypto |
| MultiSource.QuoteResult | lib/multi-source-search.ts:113-124 | a quote's result is tagged crypto, links to the coin's page, and its content opens with its title |
| MultiSource.RetagAll | lib/multi-source-search.ts:143-148 | web results keep their order and fields and are all tagged web |
| MultiSource.AdapterResults | lib/multi-source-search.ts:135-150 | every result an adapter contributes carries that adapter's tag |
| MultiSource.MultiSourceSearch | lib/multi-source-search.ts:132-158 | the loop's results equal the aggregate (each requested source's list, in request order), and exactly one adapter runs per requested tag, the one the switch selects |
| MultiSource.AggregateAppend | lib/multi-source-search.ts:134-156 | the aggregate of two request lists is the first's aggregate followed by the second's |
| MultiSource.AggregateProvenance | lib/multi-source-search.ts:134-156 | every aggregated result comes from an adapter selected by some requested tag, so sources that were not requested contribute nothing |
| MultiSource.Aggregate | lib/multi-source-search.ts:135-150 | a single requested tag gives just its adapter's list; "web" and unknown tags give the re-tagged web results |
| MultiSource.Sources | lib/multi-source-search.ts:165-172 | one tag per result, in order |
| MultiSource.Members | lib/multi-source-search.ts:165-172 | a group holds only results with its tag |
| MultiSource.Group | lib/multi-source-search.ts:165-172 | the grouping reduce: the keys are the tags in first-seen order, and each key's group is exactly its results in input order |
| MultiSource.AppendEntries | lib/multi-source-search.ts:176-181 | the inner loop appends one numbered entry per group member, in order |
| MultiSource.BuildMultiSourceContext | lib/multi-source-search.ts:160-186 | the loop's text equals the grouped context: the header, then per tag in first-seen order a "## <Label> Results" heading and its results numbered from 1 |
| MultiSource.MultiContext | lib/multi-source-search.ts:160-186 | the context is "" exactly for no results; otherwise it starts with the header |
| MultiSource.MembersInOrder | lib/multi-source-search.ts:165-172 | each section keeps the input order of its results |
| MultiSource.MembersComplete | lib/multi-source-search.ts:165-172 | every result appears in the section of its tag |
| MultiSource.MembersCount | lib/multi-source-search.ts:165-172 | a section has as many entries as its tag has results |
| MultiSource.GroupsPartitionResults | lib/multi-source-search.ts:165-183 | the sections partition the results: one section per distinct tag, tags distinct and in first-seen order, every result's tag has a section, and the section sizes add up to the number of results |
| WebSearch.FallbackResults | lib/search.ts:46-111 | the fallback list is never empty |
| WebSearch.FallbackDispatch | lib/search.ts:47-110 | "sentient" gives 3 results; otherwise "dobby" gives 1; otherwise "crypto", "blockchain" or "decentrali" gives 2; any other query gives exactly one Google-search link for the encoded query |
| WebSearch.FallbackIgnoresCase | lib/search.ts:47-102 | queries that lower-case alike fall back to the same results whenever a keyword matches |
| WebSearch.GoogleUrlKeepsPlainQuery | lib/search.ts:104-110 | a query of unreserved characters appears unchanged in the Google url |
| WebSearch.SnippetOf | lib/search.ts:36 | the snippet is the first 200 characters of the content (all of it when shorter) followed by "..." |
| WebSearch.PerformWebSearch | lib/search.ts:8-44 | a failed or throwing request, or a hit without content, gives the fallback list; a reply without `results` gives []; otherwise one result per hit, in order, with its title and url, the whole content, and as snippet the first 200 characters of the content followed by "..." |
| WebSearch.BuildContextFromResults | lib/search.ts:113-125 | the loop's text equals the numbered context of the results |
| WebSearch.WebContext | lib/search.ts:113-125 | the context is "" exactly for no results and otherwise starts with the fixed header |
| WebSearch.BlocksInOrder | lib/search.ts:118-122 | the blocks come in input order, block k+1 for result k following the blocks of the results before it |
| WebSearch.WebContextListsEveryResult | lib/search.ts:118-122 | every result's numbered block occurs in the context |
| Json.Quote | app/api/chat/route.ts:103 | a quoted JSON string begins and ends with a double quote and holds no control character, so no line break |
| Json.UnescapeEscape | app/api/chat/route.ts:103 | reading an escaped string back gives the original string |
| ChatRoute.ContentPayload | app/api/chat/route.ts:103 | a content payload is one line starting with "{" |
| ChatRoute.SourcesPayload | app/api/chat/route.ts:121 | a sources payload is one line starting with "{" |
| ChatRoute.ReadContentPayloadInverts | app/api/chat/route.ts:103 | a content payload reads back as the text it was built from |
| ChatRoute.RenderLines | app/api/chat/route.ts:104 | a rendered frame split on line breaks gives its data line and two empty lines |
| ChatRoute.LineFrames | app/api/chat/route.ts:93-107 | one upstream line gives at most one frame, a content frame with non-empty text |
| ChatRoute.LineFramesIff | app/api/chat/route.ts:93-107 | a line gives a frame exactly when it starts with "data: ", its rest is not "[DONE]", it parses, and it carries non-empty content; the frame holds that content |
| ChatRoute.StreamFramesAppend | app/api/chat/route.ts:86-111 | each read is handled by itself, and the frames keep the read order |
| ChatRoute.StreamFramesAreContent | app/api/chat/route.ts:86-111 | upstream lines only ever give non-empty content frames, never a sources frame or an end marker |
| ChatRoute.SourceEntries | app/api/chat/route.ts:114-120 | the sources frame lists every result, in order, as title, url, snippet and source |
| ChatRoute.RelayFrames | app/api/chat/route.ts:77-134 | the stream always sends a frame; it ends with the end marker exactly when the upstream streamed to the end, and with the apology otherwise |
| ChatRoute.RelaySuccessOrder | app/api/chat/route.ts:86-126 | on success: content frames first, then one sources frame exactly when there were results, then the end marker, which occurs nowhere else |
| ChatRoute.RelayFailureEndsWithApology | app/api/chat/route.ts:127-134 | on any failure the last frame is the apology, nothing before it changes, and no end marker is sent |
| ChatRoute.EventStream.Enqueue | app/api/chat/route.ts:104 | a frame is appended to what the stream has sent |
| ChatRoute.EventStream.Close | app/api/chat/route.ts:126 | closing keeps the frames sent |
| ChatRoute.ForwardRead | app/api/chat/route.ts:90-108 | the line loop of one read sends exactly that read's frames |
| ChatRoute.ForwardReads | app/api/chat/route.ts:86-111 | the read loop sends exactly the frames of all reads, in order |
| ChatRoute.SearchSpliceIff | app/api/chat/route.ts:64 | the prompt has a "CURRENT SEARCH RESULTS:" section exactly when the context is non-empty, and the section holds the context |
| ChatRoute.Relay | app/api/chat/route.ts:77-134 | the stream carries exactly the relay frames for the upstream outcome and then closes |
| ChatRoute.Start | app/api/chat/route.ts:24-137 | the search results are the aggregate for the requested tags, the prompt splice is built from their context, one adapter runs per tag, and the stream carries the relay frames and is closed |
| ChatRoute.RequestedSources | app/api/chat/route.ts:6 | `sources` defaults to ["web"] only when the field is absent; an explicit list is used as given |
| ChatRoute.Streaming | app/api/chat/route.ts:24-64 | a streaming reply runs exactly one adapter per requested tag, and its prompt has the results section exactly when the search found something |
| ChatRoute.StreamReply | app/api/chat/route.ts:22-146 | once the body and key are accepted, the reply is the stream built from the aggregate |
| ChatRoute.Post | app/api/chat/route.ts:4-160 | a body that is not JSON gives a 500 internal error; a missing or empty key gives a 500 configuration error; neither runs a search or an upstream call; otherwise the results are the aggregate for the requested tags and the reply is their stream |
| ChatInterface.LineEvents | components/chat-interface.tsx:205-234 | one line gives at most two events: its content, then its sources |
| ChatInterface.AccumulatedAppend | components/chat-interface.tsx:216-217 | the accumulated content of two event runs is the first's followed by the second's |
| ChatInterface.LastListAppend | components/chat-interface.tsx:225-231 | the sources shown after two event runs are the last list of the second run, or else of the first |
| ChatInterface.Apply | components/chat-interface.tsx:218-230 | an update never changes a message's id, role, timestamp or bookmark |
| ChatInterface.ApplyAll | components/chat-interface.tsx:218-230 | a series of updates never changes a message's id, role, timestamp or bookmark |
| ChatInterface.UpdateOnlyById | components/chat-interface.tsx:218-260 | updates by id change only the messages with that id; every other message stays identical, and the count stays the same |
| ChatInterface.UpdateStep | components/chat-interface.tsx:218-230 | one more update by id extends the series of updates |
| ChatInterface.UpdatesFrom | components/chat-interface.tsx:216-231 | one update per event: content updates exactly for content events, and each sources list is shown as it came |
| ChatInterface.UpdatesFromAppend | components/chat-interface.tsx:216-231 | the decode updates for two event runs are the first run's followed by the second's, which start from the content the first accumulated |
| ChatInterface.DecodedMessage | components/chat-interface.tsx:199-231 | after decoding, the assistant message holds the accumulated text of every content event, in order, and the sources of the last list |
| ChatInterface.SubmitOutcome | components/chat-interface.tsx:166-262 | after a finished stream the assistant message holds the concatenated content and the last sources and is not streaming; an abort appends "[Response stopped]" to what had arrived; any other failure replaces the content with the apology |
| ChatInterface.ChatView.Submit | components/chat-interface.tsx:151-267 | no change when the trimmed input is empty or a request is loading; otherwise the user message and the empty streaming assistant message are appended, the input is cleared, the request carries the trimmed input and the selection, the assistant message gets the submit's updates, and loading ends |
| ChatInterface.ChatView.ReceiveReply | components/chat-interface.tsx:192-262 | the messages with the assistant id receive exactly the reply's updates: the decoded reads then the end of streaming, the stop notice or the apology; nothing else in the view changes |
| ChatInterface.ChatView.DecodeReads | components/chat-interface.tsx:201-237 | the read loop accumulates the content of all reads and applies their updates to the assistant id only |
| ChatInterface.ChatView.DecodeRead | components/chat-interface.tsx:205-235 | the line loop of one read accumulates that read's content and applies its updates |
| ChatInterface.ChatView.HandleLine | components/chat-interface.tsx:206-234 | a data line other than "[DONE]" that parses appends its content and shows it, then shows its sources |
| ChatInterface.ChatView.ToggleBookmark | components/chat-interface.tsx:136-140 | no change without a current session; otherwise the store flips the flag in the session and the view flips it on the messages with that id |
| ChatInterface.LineUpdates | components/chat-interface.tsx:215-231 | the updates of one parsed line are the content update (when the content is truthy) and then the sources update |
| ChatInterface.FlipBookmarksFlips | components/chat-interface.tsx:138 | exactly the flags of the messages with the id flip, and flipping twice is the identity |
| ChatInterface.DataLineEvents | components/chat-interface.tsx:208-231 | the data line of a frame the endpoint sends decodes to that frame's events |
| ChatInterface.DecodesFrame | components/chat-interface.tsx:203-235 | a rendered frame arriving as one read decodes to its events |
| ChatInterface.DecodesWire | components/chat-interface.tsx:201-237 | frames sent one per read decode to their events, in order |
| ChatInterface.AccumulatedFrames | components/chat-interface.tsx:216-217 | the accumulated content of decoded frames is the text of their content frames |
| ChatInterface.NoListsInStream | components/chat-interface.tsx:225-231 | the content frames relayed from upstream never change the sources |
| ChatInterface.RelayThenDecode | components/chat-interface.tsx:199-239 | end to end, after a successful relay the assistant message holds exactly the upstream contents, in order, and the result list exactly when the search found something |
| Sessions.Find | lib/session-storage.ts:41-44 | `get` finds a session exactly when one has the id, and returns one with that id |
| Sessions.UpsertLength | lib/session-storage.ts:47-57 | the count grows by one exactly when the id was absent |
| Sessions.UpsertKnown | lib/session-storage.ts:51-54 | a known id is replaced, stamped with `now`, at its first position; every other session stays where it was |
| Sessions.UpsertUnknown | lib/session-storage.ts:51-57 | an unknown id is appended as given |
| Sessions.UpsertUnique | lib/session-storage.ts:47-57 | saving keeps ids unique, and the stored session is the only one with its id |
| Sessions.Upsert | lib/session-storage.ts:47-57 | saving adds at most one session, and every session with another id keeps its place and value |
| Sessions.SortNewestFirst | lib/session-storage.ts:60 | the sort orders by decreasing `updatedAt` and is a permutation |
| Sessions.SortIsStable | lib/session-storage.ts:60 | sessions updated at the same time keep their relative order |
| Sessions.SaveThenGet | lib/session-storage.ts:41-66 | after a save, `get` finds the saved session (stamped when it replaced one), ids stay unique in the sorted list (so saves chain), and the list is newest first |
| Sessions.GenerateTitleCases | lib/session-storage.ts:108-116 | "New Research Session" without a user message; otherwise the trimmed first user message when it has at most 50 characters, else its first 47 characters and "..."; never more than 50 characters |
| Sessions.GenerateTitle | lib/session-storage.ts:108-116 | a title never exceeds 50 characters, and is "New Research Session" when no message is from the user |
| Sessions.ToggleBookmarksFlips | lib/session-storage.ts:137-144 | only the flags of the messages with the id flip, every other field and message is unchanged, and toggling twice is the identity |
| Sessions.ToggleBookmarks | lib/session-storage.ts:137-144 | the list keeps its length, every message keeps its id and content, and the messages with other ids are untouched |
| Sessions.MarkedInIff | lib/session-storage.ts:151-155 | a session's pairs are exactly its bookmarked messages |
| Sessions.BookmarkedIff | lib/session-storage.ts:146-159 | a pair is listed exactly when its message is a bookmarked message of a stored session |
| Sessions.Bookmarked | lib/session-storage.ts:146-159 | every listed pair is a bookmarked message with a stored session |
| Sessions.MessagesTextAround | lib/session-storage.ts:164-177 | the text of the messages is the text before message i, its block, and the text after it |
| Sessions.ShareTextHolds | lib/session-storage.ts:161-180 | the shareable text starts with the title and contains every message's block |
| Sessions.ShareText | lib/session-storage.ts:161-180 | the text opens with the title, and is the title and a blank line alone for a session without messages |
| Sessions.SessionStore.All | lib/session-storage.ts:22-38 | `getAll` gives the stored list, and [] when the entry is absent or does not parse |
| Sessions.SessionStore.Get | lib/session-storage.ts:41-44 | `get` is the first stored session with the id |
| Sessions.SessionStore.Save | lib/session-storage.ts:47-66 | the stored list becomes the upserted list sorted newest first; the current id is unchanged |
| Sessions.SessionStore.Delete | lib/session-storage.ts:69-82 | every session with the id goes, the rest keep their order, and the current id is cleared only when it is the deleted one |
| Sessions.SessionStore.DeleteAll | lib/session-storage.ts:85-89 | both entries are removed |
| Sessions.SessionStore.CurrentSessionId | lib/session-storage.ts:92-95 | the stored current id |
| Sessions.SessionStore.SetCurrentSessionId | lib/session-storage.ts:98-105 | a non-empty id is stored and read back; None or "" makes the read give None; sessions are unchanged |
| Sessions.SessionStore.AddTag | lib/session-storage.ts:118-127 | no change when the session is missing or has the tag; otherwise the tag is appended and the session saved |
| Sessions.SessionStore.RemoveTag | lib/session-storage.ts:129-135 | every occurrence of the tag goes and the session is saved, also when it did not have the tag |
| Sessions.SessionStore.ToggleBookmark | lib/session-storage.ts:137-144 | the session's messages with the id flip their flag and the session is saved; no change without the session |
| Sessions.SessionStore.BookmarkedMessages | lib/session-storage.ts:146-159 | the loops collect exactly the bookmarked messages, session order then message order |
| Sessions.GenerateShareableText | lib/session-storage.ts:161-180 | the loop's text equals the shareable text of the session |
| Sessions.AppendMessage | lib/session-storage.ts:165-176 | one message's block, with its sources list for an answer, is appended |
| Sessions.AppendSourceLines | lib/session-storage.ts:171-173 | one "- title: url" line per source is appended, in order |
| Templates.Saved | lib/research-templates.ts:128-133 | after `save` the template comes last, no earlier template has its id, and every other custom template stays, in order |
| Templates.Deleted | lib/research-templates.ts:135-140 | after `delete` no template has the id, and every other custom template stays, in order |
| Templates.SavedOnce | lib/research-templates.ts:128-133 | exactly one custom template has the saved id, the saved one, in last position |
| Templates.TemplateStore.Custom | lib/research-templates.ts:116-126 | `getCustom` is the stored list, and [] when nothing is stored or it does not parse |
| Templates.TemplateStore.All | lib/research-templates.ts:103-114 | `getAll` is the built-in templates followed by the custom ones |
| Templates.TemplateStore.Save | lib/research-templates.ts:128-133 | the stored list becomes the saved list |
| Templates.TemplateStore.Delete | lib/research-templates.ts:135-140 | the stored list becomes the list without the id |
| Templates.Placeholder | lib/research-templates.ts:146 | a placeholder is its key in square brackets |
| Templates.Expand | lib/research-templates.ts:146 | a replacement text without "$" is inserted as it is |
| Templates.ReplaceFirstAt | lib/research-templates.ts:146 | `replace` with a string pattern changes only the first occurrence; the text before it and everything after it stay |
| Templates.ReplaceAbsent | lib/research-templates.ts:146 | without an occurrence, `replace` changes nothing |
| Templates.Filled | lib/research-templates.ts:144-148 | a question without "[" is left unchanged by any variables |
| Templates.FillQuestion | lib/research-templates.ts:144-148 | the `forEach` over the entries leaves the question filled with every variable, in entry order |
| Templates.FilledOneVariable | lib/research-templates.ts:144-148 | one variable replaces only the first occurrence of its placeholder, and a later one stays |
| Templates.FillTemplate | lib/research-templates.ts:142-150 | one filled question per question, in order, each with the variables applied in entry order |
| Selector.Placeholders | components/template-selector.tsx:47-54 | every extracted key is non-empty and holds no "]" |
| Selector.PlaceholdersOccur | components/template-selector.tsx:47-54 | every extracted key occurs in the text as its placeholder |
| Selector.NoBracketNoPlaceholders | components/template-selector.tsx:47-54 | a text without "[" has no placeholder |
| Selector.LeadingPlaceholder | components/template-selector.tsx:47-54 | a placeholder at the start of the text is its first key |
| Selector.Gather | components/template-selector.tsx:45-55 | the keys recorded before stay in front, and each key adds at most one entry |
| Selector.GatherKeys | components/template-selector.tsx:45-55 | the form's keys are each placeholder key once, in first-seen order, leaving out names inherited from `Object.prototype` |
| Selector.Blank | components/template-selector.tsx:51-52 | every recorded key starts with an empty value |
| Selector.ExtractKeys | components/template-selector.tsx:45-55 | the nested loops record the keys of all the questions' placeholders |
| Selector.Assign | components/template-selector.tsx:138 | typing a value updates that key in place, or adds it last, and no other entry changes |
| Selector.CategoryTab | components/template-selector.tsx:177-181 | a tab lists only templates of its category, no more than the two lists hold |
| Selector.CategoryTabLists | components/template-selector.tsx:177-181 | a category tab lists exactly the templates of that category, built-in ones first, each part in its own order |
| Selector.TemplateDialog.Listed | components/template-selector.tsx:164-182 | the "all" tab lists every built-in template, then every custom one; a category tab lists exactly the built-in and custom templates of that category |
| Selector.TemplateDialog.constructor | components/template-selector.tsx:37-40 | the dialog starts closed with nothing selected, and reads the custom templates once |
| Selector.TemplateDialog.TemplateClick | components/template-selector.tsx:42-62 | the template is selected; without placeholders its questions and sources are handed over and the dialog closes; otherwise the form shows every key with an empty value |
| Selector.TemplateDialog.SetVariable | components/template-selector.tsx:138 | the form gets the typed value; nothing else changes |
| Selector.TemplateDialog.ApplyTemplate | components/template-selector.tsx:64-72 | no change without a selected template; otherwise the filled questions go out with the template's sources, the dialog closes, and the selection and form are cleared |
| Selector.PlainTemplate | components/template-selector.tsx:56-58 | a template without placeholders has no form keys, and filling it changes none of its questions |
| ApiKeys.Validate | lib/api-key-storage.ts:19-33 | a key is valid exactly when there is no error message |
| ApiKeys.ValidateIff | lib/api-key-storage.ts:19-33 | valid exactly when the untrimmed key starts with "fw_" and has at least 20 characters; a blank key gets the empty-key error, another prefix the prefix error, and a short "fw_" key the length error |
| ApiKeys.KeyStore.Save | lib/api-key-storage.ts:4-7 | the key is stored as given |
| ApiKeys.KeyStore.Get | lib/api-key-storage.ts:9-12 | the stored key, or None |
| ApiKeys.KeyStore.Remove | lib/api-key-storage.ts:14-17 | the entry is removed |
| ApiKeys.SaveGetRemove | lib/api-key-storage.ts:4-17 | saving then reading gives the key; removing then reading gives None |
| Bubble.WordRun | components/message-bubble.tsx:114 | the language word is the longest run of word characters |
| Bubble.BlockAt | components/message-bubble.tsx:114 | a match opens and closes with a fence inside the content |
| Bubble.NextBlock | components/message-bubble.tsx:119 | `exec` finds the leftmost match at or after the search position, or reports that none follows |
| Bubble.Scan | components/message-bubble.tsx:119-129 | text pieces are never empty and are always followed by a block |
| Bubble.ScanTiles | components/message-bubble.tsx:119-129 | the pieces put back together give the content |
| Bubble.BlockBodyFenceFree | components/message-bubble.tsx:114 | the lazy body stops at the first closing fence: it holds no fence |
| Bubble.BlockShape | components/message-bubble.tsx:114 | a block's text is the fence, the language word, a line break, the body and the closing fence |
| Bubble.Parts | components/message-bubble.tsx:113-133 | there is always a part, and without a block the only part is the whole content |
| Bubble.PartsShape | components/message-bubble.tsx:113-133 | there is always a part; without a block the only part is the whole content; text parts are non-empty and never adjacent; code bodies are trimmed |
| Bubble.FormattedContent | components/message-bubble.tsx:113-133 | the splitting loop gives exactly the parts |
| Bubble.SourceStyles | components/message-bubble.tsx:38-78 | a missing tag is shown as web; two tags get the same label, icon or colour exactly when they are the same tag |
| Bubble.Shown | components/message-bubble.tsx:243 | expanded shows all sources; collapsed shows the first three (all when fewer) |
| Bubble.CollapseRule | components/message-bubble.tsx:153-243 | with three or fewer sources both states show the same list; with more, collapsing shows exactly the first three |
| Suggestions.Contextual | components/smart-suggestions.tsx:44-82 | at most three suggestions, and none exactly when the question or the answer is missing or empty |
| Suggestions.FirstRuleWins | components/smart-suggestions.tsx:44-82 | at most 3 suggestions; none when a text is missing or empty; otherwise the follow-ups of the first rule that fires (question, crypto, code, Sentient), else the generic three |
| Suggestions.CaseInsensitive | components/smart-suggestions.tsx:48-49 | the case of either text does not change the suggestions |
| Suggestions.GenerateContextualSuggestions | components/smart-suggestions.tsx:44-82 | the pushes and the slice give exactly the rule-defined suggestions |
| Suggestions.LastContent | components/smart-suggestions.tsx:31-32 | None exactly when no message has the role; otherwise the content of the last message with the role |
| Suggestions.SuggestionPanel.MessagesChanged | components/smart-suggestions.tsx:21-36 | suggestions are regenerated from the last question and answer exactly when there are at least two messages and their number is even; otherwise they stay |
| Suggestions.VisibleAfterExchange | components/smart-suggestions.tsx:84 | after an exchange regenerates the suggestions, the panel shows exactly when the last question and the last answer both have text |
| Quality.ConfidenceLevel | components/quality-indicator.tsx:18-22 | Low exactly below three sources; High only with five or more of which one is official |
| Quality.Indicate | components/quality-indicator.tsx:11-14 | nothing is rendered exactly when the list is absent or empty; the count is the number of sources |
| Quality.IndicatorIff | components/quality-indicator.tsx:14-49 | High exactly with at least five sources one of which is official; otherwise Medium exactly from three sources, Low below; "Verified" exactly from three; "Official Sources" exactly when some source is tagged github or has "docs" in its url |
| Quality.MoreSourcesNoLower | components/quality-indicator.tsx:18-22 | one more source never lowers the confidence |
| Quality.OfficialGivesHigh | components/quality-indicator.tsx:16-19 | an official source anywhere among five or more gives High |
| Distribution.Tags | components/source-distribution.tsx:15 | an untagged source counts as web |
| Distribution.Entries | components/source-distribution.tsx:13-23 | no more rows than sources, and no tag in two rows |
| Distribution.Distribute | components/source-distribution.tsx:13-23 | the reduce gives exactly the rows: each tag in first-seen order with its count |
| Distribution.EntriesTotal | components/source-distribution.tsx:13-22 | the counts add up to the number of sources |
| Distribution.EntriesCounted | components/source-distribution.tsx:13-23 | every row is a carried tag with a count of at least one, and every source's tag has a row |
| Distribution.EntriesFirstSeenOrder | components/source-distribution.tsx:13-23 | the rows come in the order their tags first appear |
| Distribution.UntaggedCountsAsWeb | components/source-distribution.tsx:15 | the web count is the untagged sources plus the web-tagged ones |
| Distribution.Card | components/source-distribution.tsx:51 | nothing is rendered exactly when there are no sources; otherwise the rows, which are non-empty |
| SourcePicker.Toggle | components/source-selector.tsx:45-54 | the source is selected afterwards exactly when it was not, or was the only one; the selection grows by at most one |
| SourcePicker.ToggleAdds | components/source-selector.tsx:45-54 | an unselected source is appended |
| SourcePicker.ToggleRemoves | components/source-selector.tsx:45-54 | a selected source among several is removed, and the others stay in order |
| SourcePicker.ToggleDistinct | components/source-selector.tsx:45-54 | toggling keeps a selection free of repeats |
| SourcePicker.ToggleKeepsOne | components/source-selector.tsx:45-54 | the only selected source stays selected, so the selection never becomes empty |
| SourcePicker.ToggleOnOff | components/source-selector.tsx:45-54 | switching a source on then off restores the selection |
| Compare.SourcesFor | components/compare-mode.tsx:32-33 | web search always, last; crypto exactly for a crypto comparison; GitHub exactly for a code comparison; never Twitter; no repeats |
| Compare.CompareQuery | components/compare-mode.tsx:35-42 | the query starts with "Compare <a> and <b>." and ends with the fixed instructions |
| Compare.CompareDialog.HandleCompare | components/compare-mode.tsx:29-49 | no change when either item is blank; otherwise the query for both items goes out with the sources for the comparison, the dialog closes and both items are cleared |
| TagEditing.Normalize | components/tag-manager.tsx:23 | the stored form is no longer than the typed tag, and empty exactly when the tag is blank |
| TagEditing.NormalizeIdempotent | components/tag-manager.tsx:23 | a normalised tag is already normal |
| TagEditing.Addable | components/tag-manager.tsx:23 | a tag is accepted exactly when its stored form is non-empty and not yet among the tags |
| TagEditing.AddedTagRefused | components/tag-manager.tsx:22-29 | a tag just added is refused in any case or padding |
| TagEditing.Offered | components/tag-manager.tsx:83-85 | no more offers than suggestions, each a suggestion the session lacks |
| TagEditing.OfferedIff | components/tag-manager.tsx:83-85 | a tag is offered exactly when it is suggested and the session lacks it, in suggestion order |
| TagEditing.TagEditor.HandleAddTag | components/tag-manager.tsx:22-29 | the tag is added exactly when it is not blank and new; then its normal form goes into the stored session and the input clears and hides; otherwise nothing changes |
| TagEditing.TagEditor.HandleRemoveTag | components/tag-manager.tsx:31-34 | every occurrence of the tag leaves the stored session |
| History.Search | components/session-manager.tsx:86-90 | no more sessions than loaded, each a loaded one that matches the query |
| History.SearchIff | components/session-manager.tsx:86-90 | a session is shown exactly when it is loaded and matches the query in its title or a message, and the shown list keeps the loaded order |
| History.EmptySearchKeepsAll | components/session-manager.tsx:86-90 | an empty search shows every session |
| History.SearchCaseInsensitive | components/session-manager.tsx:86-90 | the search ignores the query's case |
| History.HistoryPanel.Load | components/session-manager.tsx:46-48 | the panel lists the stored sessions |
| History.HistoryPanel.HandleDelete | components/session-manager.tsx:54-61 | when confirmed, the session leaves the store, the current id is cleared if it was that session and kept otherwise, the list is reloaded and the id is passed on; otherwise nothing changes |
| History.HistoryPanel.HandleDeleteAll | components/session-manager.tsx:63-69 | when confirmed, the store is emptied, the list is empty, and a new session starts; otherwise nothing changes |

## Left out

- Network requests themselves (urls, headers, bodies, timeouts): their replies are inputs. A request that never answers is not modelled.
- The dialogs' user-event setters: `onOpenChange={setOpen}` (components/template-selector.tsx:110, components/compare-mode.tsx:70), the compare inputs' `onChange` and example buttons (components/compare-mode.tsx:104-133) and the compare-type buttons (components/compare-mode.tsx:93). Each only copies a user event into one field. As a result, no modelled method opens `Selector.TemplateDialog` or `Compare.CompareDialog`, or sets `itemA`, `itemB` or `compareType`; the modelled handlers only close and clear them, and `HandleCompare` works on whatever values those fields hold.
- The upstream model's system prompt text: only its search-results splice is modelled (`ChatRoute.SearchSplice`).
- Both stream decoders as written split each read on its own. A line that spans two reads is lost, and the model keeps this behaviour rather than buffering across reads.
- `JSON.parse` of upstream lines and of the browser's `data:` payloads is an input function. `ChatInterface.RelayThenDecode` requires only that it reads the endpoint's own payloads back.
- A `sources` request field that is present but not an array is not modelled: the field is a list of tags or absent.
- `ChatRoute.Post`: the body's `message` is a string. A body without a string `message` (for example `{}`) is not modelled; the source then hands `undefined` to the search, where a failed web search makes the fallback's `toLowerCase` throw and the stream carries only the apology.
- Text is `seq<char>` rather than UTF-16 code units, and `toLowerCase` maps ASCII letters only. Lengths (the 200-character snippet, the 50-character title, the 20-character key) count characters.
- Floating point: the percentage in the source-distribution card and the coin figures are not computed; the coin figures arrive already formatted.
- `Object.entries` lists integer-like keys first. The source-distribution tags are never integer-like, so `Distribution.Entries` loses nothing by keeping insertion order.
- `Templates.FillTemplate`: applies the variables in insertion order. `Object.entries` lists integer-like keys (a placeholder such as "[1]") before the others, so with such keys the source applies them in a different order.
- `Templates.FillQuestion`: the same insertion-order simplification as `Templates.FillTemplate`.
- `Selector.Assign`: keeps the form's keys in insertion order; `applyTemplate` hands the form to `fillTemplate`, whose `Object.entries` would put integer-like keys first.
- `Selector.Gather`: records keys in insertion order. The form lists its fields with `Object.keys` (components/template-selector.tsx:132), which puts integer-like keys first.
- `Sessions.SessionStore.Save`: always writes. The source catches a failing `localStorage.setItem` (a full quota, say) and then leaves the store unchanged.
- `Sessions.SessionStore.Delete`: always writes and clears the current id. The source catches a failing `localStorage.setItem` and then changes neither the list nor the current id.
- `Sessions.SortNewestFirst`: the stable sort is an insertion sort. `updatedAt` is a number of milliseconds rather than a `Date`, and revival of dates from JSON is not modelled.
- The stored JSON texts of the session and template entries are abstracted as absent, corrupt or holding a list. `JSON.parse` of the text "null" is not distinguished.
- React effects that are not handlers are not modelled: session autosave, scrolling, keyboard shortcuts, focus, and the suggestion loading flag.
- `handleStop` and the abort controller run concurrently with the stream. The model sees only their effect: an aborted outcome of the request.
- File downloads (`exportSession`, `exportAsMarkdown`), the clipboard copy of code blocks, and icons beyond their identity are not modelled.
- `confirm()` answers are inputs to the delete handlers.
- `SourcePicker.ToggleKeepsOne`: requires a selection without repeats. The picker builds only such selections; with a repeated tag, toggling it could empty the selection.
- `Quality.IndicatorIff`: states the badge rules for a non-empty list only; the empty list renders nothing (`Quality.Indicate`).
- The summarize endpoint, the page, the API-key modal and the session summary, share and chart components are not part of this model.
