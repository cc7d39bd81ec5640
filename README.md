# A verified model of the MikeGPT chat core

MikeGPT is a small GPT-style model trained on one person's iMessage history,
so that it answers the way that person texts. The repository has four parts.
This project models each of them in Dafny and proves what each part promises.

- **The backend model** (`model.py`).
  - The 256-token context window: cropping to the last 256 tokens and pushing a
    sampled token.
  - Priming and `next_token`.
  - The beam tree that `build_beam_tree` grows from top-k candidates.
  - The reply generator `generate_response_stream`. It cuts the sampled text
    into segments at the speaker markers, yields reaction tokens on their own,
    and retries when nothing came out.
- **The Flask endpoints** (`app.py`): `/api/generate` with its per-session
  history, `/api/reset`, `/api/beam-tree`, `/api/expand-depth` with its
  path-keyed `children_map`, `/api/grpo-generate`, `/api/grpo-train` and
  `/api/train`. Each is a function from the request to a status code and a
  response. The session store is a class.
- **The "drive" explorer in the browser** (`static/js/drive-navigation.js`,
  `drive-api.js`, `drive-grpo.js`).
  - The client-side token tree. Children are loaded lazily and merged by
    token id.
  - The cursor: index, page and path.
  - The paged and depth-wise loaders.
  - The GRPO ranking screen: eight streamed responses ranked with the keys
    a to h, and the training request built from the ranking.
- **The dataset builders.**
  - `data_dashboard.py`: message filtering, de-duplication, the date sort, the
    one-hour merge of the other party's messages, the 72-hour conversation
    starts, and the training file writer.
  - `get_convos.py`: the older filter and the numbered dataset format.
  - `visualizer.py`, and the same code in `data_dashboard.py`: per-contact
    summaries merged across databases and sorted by message count.

The transformer, the tokenizer, the databases and the server are not
modelled. Each becomes a function parameter (an "oracle") about which nothing
is assumed:

- the sampler maps a context buffer and a draw number to a token id;
- `encode`, `decode` and the top-k query are functions;
- every HTTP call of the browser code is a server function;
- each database is the list of rows its queries return.

What a call does is proved for every such oracle.

Where the code changes state step by step, the model is imperative:

- `Server` and `Model` are classes;
- the drive's `Drive` and the ranking screen's `Grpo` are classes with the
  fields the JavaScript mutates;
- every loop is a `while` loop.

Each method is proved equal to a specification function, and the properties
are proved about those functions as lemmas.

Files:

- `wrappers.dfy`: `Option` and `Result`.
- `text.dfy`: `strip`, decimal rendering and path keys.
- `context_window.dfy`, `beam_tree.dfy` and `reply.dfy`: `model.py`.
- `server.dfy`: `app.py`.
- `drive_state.dfy`, `drive_tree.dfy`, `drive_api.dfy` and `drive_navigation.dfy`:
  the drive explorer.
- `drive_grpo.dfy`: the ranking screen.
- `chat_text.dfy`: the text tests both dataset builders apply.
- `dashboard.dfy`, `get_convos.dfy` and `contacts.dfy`: the dataset builders
  and the contact summaries.

## Model

| member | source | states |
|---|---|---|
| ContextWindow.Truncate | model.py:83-84 | the result has length min(ContextLength, input length) and is the final segment of the input |
| ContextWindow.PushKeepsRecent | model.py:144-151 | a push stays within ContextLength, ends with the new token, grows by one until the buffer is full, and keeps the most recent old tokens in order |
| ContextWindow.PushIsTruncate | model.py:144-151 | on a buffer within the bound, the crop-and-append of `next_token` is truncation of buffer plus token |
| ContextWindow.TruncateAbsorbs | model.py:83-84 | truncating and then appending and truncating again equals truncating the whole concatenation |
| ContextWindow.ReplayIsTruncatedConcat | model.py:216-220 | pushing a path token by token leaves exactly the last ContextLength tokens of buffer followed by path |
| ContextWindow.ReplaySnoc | model.py:216-220 | replaying one more token is one more push |
| ContextWindow.Model.constructor | model.py:15-78 | a new model is unprimed (`current_tokens = None`) and has drawn nothing |
| ContextWindow.Model.Prime | model.py:80-87 | the buffer becomes the truncated encoding of the prompt, and the model is primed |
| ContextWindow.Model.NextToken | model.py:105-153 | before `prime` it fails (the RuntimeError) and changes nothing; after it the sampled token is pushed into the buffer and its decoded text returned |
| BeamTree.WrapPrompt | model.py:196 | the tree prompt starts with `<\|ConversationStart\|><\|Them\|>`, ends with `<\|Me\|>`, and holds exactly the prompt in between |
| BeamTree.BuildNode | model.py:204-235 | `None` at or past the depth bound, otherwise `None` exactly when the top-k answer is empty |
| BeamTree.BuildList | model.py:211-233 | one child per top-k candidate, the i-th built from the i-th candidate |
| BeamTree.Child | model.py:213-232 | a child carries its candidate's id, text and probability, cumulative = parent's times its own, the parent's depth, and the subtree grown from the parent buffer with its token pushed |
| BeamTree.BuildNodeAnswers | model.py:209-235 | every child list answers the oracle's top-k for its buffer, in oracle order |
| BeamTree.BuildNodeConsistent | model.py:204-235 | every list in the tree is non-empty, depths go up by one per level and stay below n, and cumulative probabilities are products along the path |
| BeamTree.ChildConsistent | model.py:223-232 | the consistency above holds for a single child record and its subtree |
| BeamTree.BuildBeamTreeShape | model.py:195-243 | the tree's prompt is the wrapped prompt; it has no children exactly when n = 0 or the top-k answer for the truncated encoding is empty; otherwise the top-level children answer that top-k, are consistent from depth 0, and each has cumulative probability equal to its own |
| BeamTree.FirstWithId | model.py:223-233 | the position found holds the id, and no earlier node holds it; `None` means no node holds it |
| BeamTree.BuildNodeGrown | model.py:204-235 | every subtree of a built tree is what `build_node` grows from that node's own buffer |
| BeamTree.DescendBuilds | model.py:216-231 | the node reached along a path has the subtree `build_node` grows from the buffer the path replays into, one level per step |
| Reply.Classify | model.py:282-310 | a token is a boundary exactly when it is one of the four speaker/end markers, a stop exactly when it is one of the three of line 294, and a reaction exactly when it is one of the six reaction markers |
| Reply.Flush | model.py:312-314 | the stripped text is yielded when it is non-blank; otherwise nothing is yielded |
| Reply.FlushProperties | model.py:288-291 | a flush appends at most one segment, keeps what was yielded, and keeps every segment well formed |
| Reply.StepProperties | model.py:281-310 | one token appends at most one segment; a reaction is yielded alone; plain text is appended to the accumulator; a stop leaves nothing to flush |
| Reply.AttemptYields | model.py:278-314 | what an attempt yields extends what was yielded before it, and every segment is a reaction token or non-blank stripped text |
| Reply.AttemptCounts | model.py:275-314 | an attempt draws at most 200 tokens and yields at most one segment per draw plus the final flush |
| Reply.AttemptBufBound | model.py:144-151 | the buffer stays within the context length through a whole attempt |
| Reply.Context | model.py:266-271 | in auto-start mode with a non-empty prompt, the context is that prompt; otherwise it is the history, `<\|Them\|>`, the message and `<\|Me\|>` |
| Reply.AfterAttemptSegments | model.py:316-324 | after the retry policy, the outcome is exhausted exactly when nothing was yielded, every segment is well formed or "Hey", and the buffer stays within bound |
| Reply.ReplySegments | model.py:245-324 | a reply call yields at least one segment unless the retry bound runs out, and every segment is a reaction, non-blank stripped text, or "Hey" |
| Reply.AutoStartAnswers | model.py:316-320 | auto-start mode never retries: it yields the first attempt's segments, or "Hey" when there are none |
| Reply.AfterAttemptFuelMonotone | model.py:321-324 | more retry budget does not change a call that finished |
| Reply.ReplyFuelMonotone | model.py:321-324 | more retry budget does not change the result of a reply call that finished |
| Reply.AttemptAdvance | model.py:278-310 | one loop iteration of an attempt, with the state after the step: a stop flushes and ends, otherwise the rest of the attempt continues from the new state |
| Reply.Absorb | model.py:281-310 | the branch taken for one token gives exactly the accumulator, output and stop flag of the step function |
| Reply.SampleAttempt | model.py:273-314 | the loop run on the model yields the segments of the attempt function, and leaves the model's buffer and draw count where that attempt ends |
| Reply.GenerateResponseStream | model.py:245-324 | the method returns the segments, buffer and draw count of the reply function, retries included |
| Reply.AnswerOrRetry | model.py:316-324 | after an attempt: keep its segments, answer "Hey" in auto-start mode, or retry from the current draw count |
| Server.SessionHistory | app.py:50-52 | a non-empty request history is used as is; an empty one is replaced by the stored history of the session when there is one, and stays empty otherwise |
| Server.InitialHistory | app.py:54-65 | auto-start begins with `<\|ConversationStart\|><\|Me\|>`; otherwise the history (or `<\|ConversationStart\|>` when there is none) is followed by `<\|Them\|>` and the message |
| Server.PromptFollowsHistory | app.py:54-73 | the model's context is the new history in auto-start mode and the new history plus `<\|Me\|>` otherwise, except that a first message is given to the model without the leading `<\|ConversationStart\|>` that the stored history has |
| Server.AppendSegment | app.py:74-82 | the history grows and ends with the segment; a marker segment is appended bare; text gets `<\|Me\|>` in front, except for the first reply of an auto-started conversation |
| Server.AppendSegmentsGrows | app.py:74-82 | every intermediate history is an initial part of the final one |
| Server.AppendSegmentsEnds | app.py:74-82 | after segment j the history ends with segment j |
| Server.AppendSegmentsKeepsStart | app.py:74-88 | the stored history begins with the history the request started from |
| Server.Responses | app.py:84-85 | one `response` event per segment, with that segment, in order |
| Server.Forget | app.py:107-108 | the session's entry is gone, every other entry is kept with its value, and no entry is added |
| Server.ForgetIdempotent | app.py:101-110 | resetting twice is resetting once, and resetting an absent session changes nothing |
| Server.StreamSegments | app.py:74-85 | the loop builds the history of the segments and emits their `response` events |
| Server.Server.constructor | app.py:22-25 | the server starts with an empty conversation store |
| Server.Server.Generate | app.py:28-98 | a normal request with a blank message gets the 400 and leaves the store alone; otherwise the events are one `response` per reply segment and a final `done` carrying the new history, which is stored under the session id; the model's buffer and draw count are those the reply leaves, and the 400 leaves the model alone |
| Server.Server.Reset | app.py:101-110 | the store loses only the session's entry, and success is always reported |
| Server.BeamTreeEndpoint | app.py:113-153 | a blank prompt, k > 500 and n > 10 get their 400s in that order; the answer is a tree exactly when 0 <= k, 1 <= n and the root's top-k is non-empty, and it is then the tree built from the stripped prompt |
| Server.LeafChild | app.py:216-227 | a fetched child carries the candidate's fields, cumulative probability equal to its own, depth 0 and no children |
| Server.LeafChildren | app.py:216-227 | the list answers the candidates one for one, every child unloaded at depth 0 |
| Server.ChildrenMapKeys | app.py:229-231 | every key of `children_map` is the comma-joined full path of a requested node |
| Server.FullPathKeyInjective | app.py:229-230 | two requests with the same path key are the same request |
| Server.ChildrenMapValues | app.py:188-231 | every requested node is in `children_map` under its path key, mapped to the children of its own replayed buffer |
| Server.ReplayPath | app.py:195-207 | the loop leaves the truncated prompt encoding with the path and the node pushed token by token |
| Server.FetchChildren | app.py:188-231 | the loop returns the children map of the requests |
| Server.ExpandDepth | app.py:156-235 | a blank prompt gets the 400; a k below 0 or above the vocabulary size 8192 (model.py:19, where `torch.topk` raises) with a node to expand gets the 500; otherwise the result is the children map of the requests |
| Server.WrappedPromptStripped | app.py:175 | the tree prompt a client sends back survives the server's strip unchanged |
| Server.ExpandAgreesWithTree | app.py:156-235 | expanding a node of a built tree fetches the oracle answer for the same buffer the full build used at that node, and the node's depth is its path length |
| Server.KeepToken | app.py:288-301 | keeping a non-marker token extends the kept ids and their text |
| Server.GrpoFromProperties | app.py:276-301 | a response keeps at most 100 tokens, none of them a marker, and its text is the concatenated text of its kept tokens |
| Server.GrpoFromBuffer | app.py:276-301 | the buffer stays within the context length while a response is sampled |
| Server.GrpoRunProperties | app.py:273-301 | the three facts above for one whole response from a primed buffer |
| Server.GrpoBatchSnoc | app.py:272-307 | one more response is sampled from the same primed buffer at the draw count the earlier responses leave |
| Server.GrpoBatchLength | app.py:272 | a batch of count samples holds count responses |
| Server.GrpoBatchAt | app.py:272-307 | response j is the stripped response sampled from the primed buffer after the draws of responses 0..j-1 |
| Server.GrpoBatchProperties | app.py:272-307 | every response of a batch is the stripped text of at most 100 kept tokens, none a marker |
| Server.GrpoAdvance | app.py:278-301 | one loop step: a marker is popped and ends the response; any other token is kept and sampling continues |
| Server.SampleResponse | app.py:276-301 | the loop returns the text and kept tokens of the response function and leaves the model where it ends |
| Server.GrpoSample | app.py:273-307 | priming with the framed prompt and sampling yields the stripped response of the response function |
| Server.RunnerApply | app.py:273-301 | the runner samples one response |
| Server.GrpoGenerate | app.py:238-318 | a blank prompt gets the 400; otherwise the result is the batch of eight responses, each sampled after priming with the framed prompt |
| Server.GrpoLoop | app.py:269-309 | the loop returns the batch of count responses and leaves the draw count after the batch |
| Server.GrpoTrainRequest | app.py:334-350 | a request is accepted exactly when the prompt is non-empty and there are eight ranked entries; a missing field and a wrong count get their own 400s; the step gets the encoded framed prompt and the eight entries |
| Server.GrpoTrainAlwaysFails | app.py:344-366 | every request to the endpoint as written fails, with a 500 even when it passes the checks |
| Server.TrainRequest | app.py:381-396 | a request is accepted exactly when the prompt and both path lists are non-empty, and the step gets the encoded prompt, the first positive and first negative path, and both path counts |
| DriveState.Slots | static/js/drive-api.js:60-77 | a list of nodes seen as array entries: one filled slot per node, in order |
| DriveState.WriteAt | static/js/drive-api.js:117-120 | the JavaScript assignment `xs[i] = v`: position i holds v, other positions keep their entries, and writing past the end leaves holes in the gap |
| DriveState.Drive.constructor | static/js/drive-api.js:60-77 | `startGame`: empty path, index 0, page 0, `totalK = initialK + 1`, page 0 loaded, and every loading and loaded set empty |
| DriveTree.Indices | static/js/drive-navigation.js:53-55 | the index path of `currentPath`, one index per selection |
| DriveTree.FollowIsNodeAt | static/js/drive-navigation.js:51-59 | an entry of the level reached along an index path is the node at that path extended by its index |
| DriveTree.FollowBelow | static/js/drive-navigation.js:51-59 | the same fact for a path followed inside one node's children |
| DriveTree.GetCurrentNodes | static/js/drive-navigation.js:51-59 | the loop returns the level reached by following the path's indices, `[]` when an index is missing |
| DriveTree.PathIdsComplete | static/js/drive-navigation.js:80-98 | when every step of the path exists, the id list has one id per step followed by the id of the current selection |
| DriveTree.GetCurrentTokenIds | static/js/drive-navigation.js:80-98 | the loop returns the ids along the path, stopping at a missing step, and the current selection's id when it exists |
| DriveTree.FindIndex | static/js/drive-navigation.js:41-45 | `find` stops at the first filled entry with the id, none earlier has it, and `None` means none has it |
| DriveTree.FindNodeByPath | static/js/drive-navigation.js:37-49 | the loop returns the node the id path looks up: null for an empty path, and null as soon as a step has no match or no children |
| DriveTree.FindUnique | static/js/drive-navigation.js:41-45 | when ids are unique in a list, finding an entry's id finds that entry |
| DriveTree.TokenIdsFindSelection | static/js/drive-navigation.js:37-98 | with ids unique per list, looking up the ids `getCurrentTokenIds` reports finds the currently selected node |
| DriveTree.NeedingHereSound | static/js/drive-navigation.js:6-24 | at the parent level only children without children whose key is not loading are collected |
| DriveTree.NeedingHereComplete | static/js/drive-navigation.js:6-24 | at the parent level every child without children whose key is not loading is collected |
| DriveTree.NeedingHereExactly | static/js/drive-navigation.js:6-24 | the collection at the parent level is exactly those children, both directions |
| DriveTree.NeedingLocates | static/js/drive-navigation.js:3-35 | every collected entry names, by index path, a node `target - depth` levels down that has no children, with its id, its id path, and a key that is the comma-joined id path and is not loading; a call at or below the target level collects nothing |
| DriveTree.NeedingBelowLocates | static/js/drive-navigation.js:27-34 | the same for the recursion over a node's children |
| DriveTree.CollectNodesNeedingChildren | static/js/drive-navigation.js:3-35 | the procedure appends to `result` exactly the entries of the collection function, in traversal order |
| DriveNavigation.AdvanceMoves | static/js/drive-navigation.js:233-256 | `selectAndAdvance` moves exactly when the selected entry has non-empty children; it then pushes one selection with that index and id and resets index and page to 0 |
| DriveNavigation.BackUndoesAdvance | static/js/drive-navigation.js:233-275 | when the page matches the index, `goBack` after `selectAndAdvance` restores the cursor |
| DriveNavigation.FollowSnoc | static/js/drive-navigation.js:51-59 | following one more index lands on the children of the entry at that index |
| DriveNavigation.AdvanceDescends | static/js/drive-navigation.js:233-256 | after a step down the current level is the selected entry's children |
| DriveNavigation.PreviousPage | static/js/drive-navigation.js:107-111 | stepping back one index changes the page exactly when the old index is the first of its page |
| DriveNavigation.LeftLoadsGrow | static/js/drive-navigation.js:100-120 | what `navigateLeft` loads only adds to the tree and `totalK`, and nothing is loaded when it does not move or stays on its page |
| DriveNavigation.NavigateLeft | static/js/drive-navigation.js:100-120 | with an empty level, `totalK` zero or index 0, nothing changes; otherwise the index goes down by one and the page is recomputed; the tree and `totalK` become the left-move load function: on a page change the load `animatePageTransition` starts at once, the next page after the new one at the root or more children deeper |
| DriveNavigation.PageTurnLoadsGrow | static/js/drive-navigation.js:193-202 | the load a page turn starts only adds to the tree and `totalK`, and there is none without a page change |
| DriveNavigation.TurnPage | static/js/drive-navigation.js:193-202 | on a page change the tree and `totalK` become the page-turn load function; without one nothing changes |
| DriveNavigation.EndPreload | static/js/drive-navigation.js:162-168 | on one of the last two indices of a page the tree becomes the load function of the following page or of more children; elsewhere nothing changes |
| DriveNavigation.FollowGrows | static/js/drive-navigation.js:51-59 | when a tree only grows, so does every level reached along an index path |
| DriveNavigation.StepLoadsGrow | static/js/drive-navigation.js:138-168 | the load `navigateRight` starts (the next page at the root, more children deeper) changes only the tree and `totalK`, only adds, keeps the roots within `totalK`, and never lowers `maxLoaded` |
| DriveNavigation.WaitLoadsGrow | static/js/drive-navigation.js:137-155 | the wait for an unloaded next index has the same effect, and none when the index is loaded |
| DriveNavigation.MoveAtGrow | static/js/drive-navigation.js:158-174 | the page-end preload followed by the page turn only adds to the tree and `totalK`, and loads nothing when neither is due |
| DriveNavigation.RightLoadsGrow | static/js/drive-navigation.js:122-174 | all that `navigateRight` loads, the wait, the page-end preload and the page-turn load together, only adds to the tree and `totalK`, and the cursor moves exactly when the level is non-empty and the next index is within the final `maxLoaded` |
| DriveNavigation.NavigateRight | static/js/drive-navigation.js:122-179 | the new tree and `totalK` are the load function of the wait and then, after a move, of the page-end preload and of the page-turn load; on an empty level nothing changes; otherwise the index goes up by one, with the page recomputed, exactly when the new index is below `maxLoaded` after the wait; when it was already loaded, no preload is due and the page stays, the tree and `totalK` stay as they were |
| DriveNavigation.MoveTo | static/js/drive-navigation.js:158-174 | the cursor goes to the next index and its page; the tree and `totalK` become the move load function (page-end preload, then page-turn load), which only adds, and stay as they were when neither is due |
| DriveNavigation.WaitForIndex | static/js/drive-navigation.js:137-155 | the tree and `totalK` become the wait's load function; the answer is whether the next index is below the re-read `maxLoaded`; nothing is loaded when it already was |
| DriveNavigation.StepLoad | static/js/drive-navigation.js:140-149 | the page load at the root or the children load deeper leaves the state its load function gives; the tree only grows and `maxLoaded` never decreases |
| DriveNavigation.SettleLoadsGrow | static/js/drive-navigation.js:205-230 | the 420 ms callback of a root-level page turn only adds children, keeps the roots, `totalK` and the loaded pages, marks at most the new page and the one after it, and does nothing deeper |
| DriveNavigation.SettlePageTransition | static/js/drive-navigation.js:205-230 | at the root the page's depth load and then the full-depth preload of the next page run, and the state is the settle load function; deeper, nothing changes |
| DriveNavigation.SelectAndAdvance | static/js/drive-navigation.js:233-265 | the cursor becomes the step-down function of the current level |
| DriveNavigation.GoBack | static/js/drive-navigation.js:267-275 | the cursor becomes the pop function: last selection removed, its index restored, page recomputed; no change on an empty path |
| DriveApi.GrowsRefl | static/js/drive-api.js:276-293 | a node grows into itself |
| DriveApi.GrowsTrans | static/js/drive-api.js:276-293 | growth composes |
| DriveApi.SlotsGrowRefl | static/js/drive-api.js:276-293 | a tree grows into itself |
| DriveApi.SlotsGrowTrans | static/js/drive-api.js:138-159 | a sequence of loads grows the tree as each of them does |
| DriveApi.RebasedAppend | static/js/drive-api.js:279-281 | rescaling cumulative probabilities distributes over concatenation |
| DriveApi.FreshExactly | static/js/drive-api.js:286-291 | a fetched child is among the new ones exactly when its id is not among the existing children's ids |
| DriveApi.MergeAddsFresh | static/js/drive-api.js:286-291 | every fetched child with a new id is appended, its cumulative probability the base times its own |
| DriveApi.MergeAddsOnlyFresh | static/js/drive-api.js:286-291 | everything appended is such a fetched child, rescaled |
| DriveApi.MergeSpec | static/js/drive-api.js:276-293 | a node without children takes the whole fetched list rescaled; otherwise the existing children stay in place and order and exactly the fetched children with new ids are appended, rescaled |
| DriveApi.MergeGrows | static/js/drive-api.js:276-293 | a merge keeps what the node had |
| DriveApi.MergeChildren | static/js/drive-api.js:276-293 | the merge loop, with `existingIds` taken once before it, returns the merge function's result |
| DriveApi.SetBelowHits | static/js/drive-api.js:201 | writing a node's children changes that node's children and nothing else about it |
| DriveApi.SetBelowGrows | static/js/drive-api.js:201 | when the new children extend the old, the node above grows |
| DriveApi.SetBelowSame | static/js/drive-api.js:201 | writing back the children a node already has changes nothing |
| DriveApi.SetAtSpec | static/js/drive-api.js:194-204 | setting children at an index path gives that node exactly those children, keeps every root entry's place and token, and grows the tree when the new children extend the old |
| DriveApi.ApplyOneSpec | static/js/drive-api.js:194-204 | applying one answered entry grows the tree and keeps the roots; a loader that only fills childless nodes leaves a node with children untouched |
| DriveApi.ApplyAllGrows | static/js/drive-api.js:276-294 | applying all answered entries grows the tree and keeps the roots |
| DriveApi.ApplyChildren | static/js/drive-api.js:276-294 | the loop over the collected entries leaves the tree the apply function gives |
| DriveApi.Requests | static/js/drive-api.js:184 | one request entry per collected entry, with its path and id |
| DriveApi.Overlay | static/js/drive-api.js:117-120 | positions from `from` up to the fetched length hold the fetched nodes, earlier and later positions keep their entries, and a gap past the old end is holes |
| DriveApi.OverlayGrows | static/js/drive-api.js:359-361 | when nothing is loaded at or past `from`, the write only adds entries |
| DriveApi.WriteFrom | static/js/drive-api.js:359-361 | the write loop leaves the overlay of the fetched nodes |
| DriveApi.LoadsGrowRefl | static/js/drive-api.js:138-159 | a load state grows into itself |
| DriveApi.LoadsGrowTrans | static/js/drive-api.js:88-135 | loads run one after another grow the state as each of them does |
| DriveApi.SecondPageLoadsSpec | static/js/drive-api.js:94-135 | with no answer nothing changes; with one, the fetched tokens from `initialK+1` on are in place and have only grown since, `totalK` is the larger of itself and the fetched count, and page 1 is marked loaded |
| DriveApi.SecondPageLoadsGrow | static/js/drive-api.js:94-135 | while page 1 holds no entry, the second page's load, its chained depth preload included, only adds, and marks no page loaded but page 1 |
| DriveApi.LoadSecondPageTokens | static/js/drive-api.js:94-135 | asks for `2k+1` first-layer tokens; the new state is the second page's load function of the answer: on failure nothing changes; on an answer the fetched tokens are written from `initialK+1` on, `totalK` and page 1 are updated, and the chained `preloadPageFullDepth(1)` runs |
| DriveApi.AdoptSecondPage | static/js/drive-api.js:113-130 | the answered branch: write, count, mark page 1, then the full-depth preload of page 1 on that state |
| DriveApi.StartLoadsGrow | static/js/drive-api.js:88-91 | from a tree of at most `k+1` roots, the loads `startGame` starts only add, and mark no pages loaded but pages 0 and 1 |
| DriveApi.StartGame | static/js/drive-api.js:60-92 | the explorer is reset around the fetched roots (empty path, index 0, page 0, `totalK = k+1`, page 0 loaded) and its load state is that of the second page's load followed by page 0's depth load |
| DriveApi.StartLoading | static/js/drive-api.js:87-91 | the two loads `startGame` starts, in order, leave the state the start load function gives |
| DriveApi.LoadNextPage | static/js/drive-api.js:312-376 | no request when `(pageNum+1)*initialK+1 <= totalK`; otherwise entries from the old `totalK` on become the fetched ones and `totalK` becomes the maximum; the tree only grows and `totalK` never decreases; the state is the next-page load function |
| DriveApi.NextPageMonotone | static/js/drive-api.js:359-364 | `totalK` never decreases, entries below the old `totalK` are untouched, and the tree grows when nothing was loaded at or past it |
| DriveApi.NextPageLoadsGrow | static/js/drive-api.js:312-376 | while the roots lie within `totalK`, the next-page load only adds, keeps them within `totalK`, and marks no page |
| DriveApi.PageTargetsExactly | static/js/drive-api.js:229-245 | a root of the page range is collected exactly when it is filled, its key is not loading and it has fewer than `initialK+1` children |
| DriveApi.CollectPage | static/js/drive-api.js:229-245 | the collection loop returns exactly those roots, in index order |
| DriveApi.PageTargetKeys | static/js/drive-api.js:254-308 | every key marked loading is among the keys the `finally` block clears |
| DriveApi.PageKeysSame | static/js/drive-api.js:305-308 | the keys to clear depend only on the roots' tokens, which a load does not change |
| DriveApi.LoadPageDepths | static/js/drive-api.js:215-310 | nothing happens for a page loaded or loading; otherwise the qualifying roots are asked for `initialK+1` children, an answer merges them and marks the page loaded (as does finding none), and the page's keys stop being marked loading; the state is the page-depth load function |
| DriveApi.PageDepthsLoadsGrow | static/js/drive-api.js:215-310 | a page's depth load only adds children, keeps the roots' places and tokens, marks at most that page, and leaves `totalK` and the token pages alone |
| DriveApi.PageDepthsTry | static/js/drive-api.js:226-309 | the body past the skip test, with the `finally` clearing of the page's keys, as above |
| DriveApi.RequestRoots | static/js/drive-api.js:254-300 | the request names the collected entries with `initialK+1`; an answer is merged in and marks the page; the entries' keys are marked loading |
| DriveApi.LevelTargetsLocate | static/js/drive-api.js:161-169 | every entry collected for a page names a childless node at the target depth below a root of the range, keyed by its comma-joined id path, which is not loading |
| DriveApi.CollectLevel | static/js/drive-api.js:165-169 | the collection loop returns the collection function's entries |
| DriveApi.PreloadDepthLevel | static/js/drive-api.js:161-213 | no request when nothing is collected; otherwise the answer fills only childless nodes, and the loading keys are as before afterwards; the state is the layer load function |
| DriveApi.LevelLoadsGrow | static/js/drive-api.js:161-213 | one layer's preload only adds children and changes nothing but the tree |
| DriveApi.LevelsLoadsGrow | static/js/drive-api.js:149-156 | the layers from a target depth to 4, one after another, only add children and change nothing but the tree |
| DriveApi.FullDepthLayers | static/js/drive-api.js:138-159 | for a page below `totalK`, the full-depth preload is the page's depth load followed by layer 2, then 3, then 4 |
| DriveApi.FullDepthGrows | static/js/drive-api.js:138-159 | the full-depth preload only adds children, keeps the roots, marks at most that page and clears the loading keys its depth load clears |
| DriveApi.PreloadPageFullDepth | static/js/drive-api.js:138-159 | the new tree, page-depth set and loading keys are the full-depth load function: nothing for a page at or past `totalK`, otherwise the page's depth load and then layers 2, 3 and 4; the page-loading set is unchanged |
| DriveApi.SelectedIds | static/js/drive-api.js:416 | the recorded token ids of `currentPath`, in order |
| DriveApi.LoadMoreChildrenForCurrentNode | static/js/drive-api.js:379-462 | nothing at the root or when the selected node is missing or childless; otherwise one request for `children + initialK + 1` children under the parent path and node id, and the answer under the path key is merged in with the fallback base; the state is the more-children load function |
| DriveApi.MoreChildrenLoadsGrow | static/js/drive-api.js:379-462 | loading more children only adds to the tree and changes nothing else |
| DriveApi.LoadNextLayer | static/js/drive-api.js:760-816 | one request for the given nodes with `initialK+1`; a node that already has children is never overwritten, and the others take the answer under their path key |
| DriveGrpo.LetterIndex | static/js/drive-grpo.js:166 | the index is in 0..7 exactly when the letter is one of 'a' to 'h' |
| DriveGrpo.Letter | static/js/drive-grpo.js:273 | the letter of row i is in 'a'..'h' and maps back to i |
| DriveGrpo.Press | static/js/drive-grpo.js:162-176 | the list is unchanged or gains exactly the pressed row at its end, and it gains it exactly when not generating, fewer than eight are ranked and the row is not yet ranked; a key press keeps the ranking invariant |
| DriveGrpo.Undo | static/js/drive-grpo.js:179-188 | nothing changes while generating or on an empty list; otherwise exactly the last entry is removed; the invariant is kept |
| DriveGrpo.UndoPress | static/js/drive-grpo.js:162-188 | Backspace after a key press that ranked a row restores the list |
| DriveGrpo.PressUndo | static/js/drive-grpo.js:162-188 | pressing the letter of the row Backspace dropped restores the list |
| DriveGrpo.DistinctCard | static/js/drive-grpo.js:164-172 | a list of distinct rows has as many values as entries |
| DriveGrpo.Pigeonhole | static/js/drive-grpo.js:164-172 | n distinct values below n are all the values below n |
| DriveGrpo.FullRanking | static/js/drive-grpo.js:164-172 | a list of eight ranked rows holds every row: a complete ranking is a permutation of the rows |
| DriveGrpo.OrdinalSuffix | static/js/drive-grpo.js:222-227 | "st" exactly for 1, "nd" exactly for 2, "rd" exactly for 3, and "th" for everything else |
| DriveGrpo.BadgeInjective | static/js/drive-grpo.js:216 | no two ranks show the same badge |
| DriveGrpo.Round | static/js/drive-grpo.js:45 | `Math.round` gives the integer within half of x, halves rounded up |
| DriveGrpo.GenerateRequest | static/js/drive-grpo.js:42-61 | top-k rounds the parameter into `top_k` with `top_p` 0.9; top-p sends it as `top_p` with `top_k` 5; the temperature is 1 |
| DriveGrpo.SplitLines | static/js/drive-grpo.js:136 | `split('\n')` gives at least one piece and no piece holds a newline |
| DriveGrpo.JoinSplitLines | static/js/drive-grpo.js:136-137 | joining the pieces with newlines gives the text back |
| DriveGrpo.SplitLine | static/js/drive-grpo.js:146 | text without a newline splits into itself |
| DriveGrpo.SplitFirstLine | static/js/drive-grpo.js:136 | a line followed by a newline splits off as the first piece |
| DriveGrpo.SplitJoinLines | static/js/drive-grpo.js:136-137 | splitting newline-joined lines gives the lines back |
| DriveGrpo.JoinAppend | static/js/drive-grpo.js:133-141 | joining two non-empty lists of lines puts one newline between them |
| DriveGrpo.ApplyLinesIsLastAllDone | static/js/drive-grpo.js:68-127 | processing lines leaves the responses of the last `all_done` event and clears the generating flag, or changes nothing when there is none |
| DriveGrpo.ApplyLinesAppend | static/js/drive-grpo.js:139-141 | processing two batches one after the other is processing their concatenation |
| DriveGrpo.BlankIsNoEvent | static/js/drive-grpo.js:145 | a blank tail is not an event line |
| DriveGrpo.RankedPayload | static/js/drive-grpo.js:237-240 | the payload exists exactly when every ranked row has a response; entry i is that response's tokens with rank i+1 |
| DriveGrpo.PayloadAccepted | static/js/drive-grpo.js:230-251 | a complete ranking of eight responses gives a payload the server's field checks accept, and every row is in it |
| DriveGrpo.Preview | static/js/drive-grpo.js:278 | text of at most 40 characters is kept; longer text becomes its first 40 characters followed by "..." |
| DriveGrpo.RankedPaths | static/js/drive-grpo.js:276-279 | one history line per ranked row |
| DriveGrpo.HistorySplitsRanking | static/js/drive-grpo.js:272-289 | the positive paths are ranks 1 to 4 and the negative paths ranks 5 to 8, each starting with its rank and its row's letter, and together they are all ranked paths in order |
| DriveGrpo.Grpo.constructor | static/js/drive-grpo.js:305-310 | nothing generated, nothing ranked, not generating, no history |
| DriveGrpo.Grpo.KeyPress | static/js/drive-grpo.js:162-176 | the ranking becomes the key-press function of the old ranking, and stays at most eight distinct rows |
| DriveGrpo.Grpo.Backspace | static/js/drive-grpo.js:179-188 | the ranking becomes the undo function of the old ranking |
| DriveGrpo.Grpo.Reset | static/js/drive-grpo.js:305-310 | responses and rankings are emptied, generation is off and the index is 0 |
| DriveGrpo.Grpo.BeginGeneration | static/js/drive-grpo.js:28-61 | the state is reset with generation on, and the request is the one built from the sampling settings |
| DriveGrpo.Grpo.ProcessLine | static/js/drive-grpo.js:68-127 | the responses and flag become what one event line makes of them |
| DriveGrpo.Grpo.ProcessLines | static/js/drive-grpo.js:139-141 | the same for a batch of lines, in order |
| DriveGrpo.Grpo.ReceiveStream | static/js/drive-grpo.js:129-158 | however the text is cut into chunks, the responses end as those of the last `all_done` line of the whole text (minus the tail when a read fails), and generation is over |
| DriveGrpo.Grpo.Submit | static/js/drive-grpo.js:230-269 | nothing while generating, short of eight rankings, when a row has no response, or when the server fails; otherwise the payload is sent, the history entry appended, and a new generation begun |
| DriveGrpo.StepJoin | static/js/drive-grpo.js:133-137 | the carried tail plus the new chunk is the next batch of lines, so the lines processed so far joined with the tail are all text read |
| Dashboard.ExtractText | data_dashboard.py:28-35 | non-blank plain text is returned stripped; blank text with no attributed body gives None; otherwise the attributed body's decoding is the result |
| Dashboard.FilterText | data_dashboard.py:229-255 | a kept body was non-blank and held no URL; a reaction is dropped unless it is mine, when it becomes its token; any other body is kept, with U+FFFC removed and stripped, exactly when that is non-blank and holds no U+FFFD; every kept body is trimmed and free of both special characters |
| Dashboard.Clean | data_dashboard.py:248-255 | the body is kept exactly when, with U+FFFC removed and stripped, it is non-empty and has no U+FFFD; the kept text is that cleaned text |
| Dashboard.ContactMatch | data_dashboard.py:209-214 | a match exists exactly when some row's sender is set and is not the own address, and the match is such a sender |
| Dashboard.ContactMatchIsFirst | data_dashboard.py:210-214 | the match is the sender of the first such row: every earlier row has no sender or the own address |
| Dashboard.DedupProperties | data_dashboard.py:257-266 | the de-duplicated list has no repeated key, holds exactly the input's messages, and is no longer than the input |
| Dashboard.DedupSnoc | data_dashboard.py:259-266 | a message whose key was seen is skipped, any other is appended |
| Dashboard.CollectChat | data_dashboard.py:229-277 | the seen set and the list after one chat's rows are the key set and the de-duplication of the earlier messages followed by that chat's filtered messages |
| Dashboard.CollectRow | data_dashboard.py:229-277 | one row updates the seen set and the list to the key set and de-duplication of the messages so far followed by that row's filtered message |
| Dashboard.CandidatesStep | data_dashboard.py:229-277 | a chat's filtered messages up to row i+1 are those up to row i followed by row i's |
| Dashboard.AllCandidatesStep | data_dashboard.py:169-226 | the messages of the first c+1 chats are those of the first c, followed by chat c's when it is a one-contact chat with that contact and without the own address |
| Dashboard.CollectMessages | data_dashboard.py:157-283 | the collected list is the de-duplication of the filtered messages of every matching chat in database order |
| Dashboard.Insert | data_dashboard.py:286 | inserting a message adds exactly that message to the multiset |
| Dashboard.SortByDate | data_dashboard.py:286 | the sort is a permutation of its input |
| Dashboard.InsertSorted | data_dashboard.py:286 | inserting into a date-sorted list keeps it sorted and adds one element |
| Dashboard.InsertStable | data_dashboard.py:286 | an insertion places the new message after the others of its date |
| Dashboard.SortByDateSorted | data_dashboard.py:286 | the sorted list is ordered by date and is a permutation of its input |
| Dashboard.SortByDateStable | data_dashboard.py:286 | the sort is stable: the messages of each date keep their input order |
| Dashboard.MergeNearbyShape | data_dashboard.py:297-320 | the merge never lengthens the list, and its last message has the role and date of the last input message |
| Dashboard.MergeNearbyMine | data_dashboard.py:301 | my messages come out unchanged and in order; only theirs are merged |
| Dashboard.MergeNearbyApart | data_dashboard.py:297-320 | on date-sorted input, no two successive messages of theirs in the result are within the one-hour window |
| Dashboard.MergeStepApart | data_dashboard.py:299-320 | one merge step keeps the successive-messages-of-theirs spacing when the new message is not earlier than the last one |
| Dashboard.MergeMessages | data_dashboard.py:297-320 | the loop computes the merge of the whole sorted list |
| Dashboard.AutoStarts | data_dashboard.py:334-335 | the start list always begins with index 0 |
| Dashboard.AutoStartsProperties | data_dashboard.py:334-350 | the start list is strictly increasing and holds an index exactly when it is 0 or at least 72 hours separate it from the message before |
| Dashboard.DetectStarts | data_dashboard.py:334-350 | the loop computes exactly the start list |
| Dashboard.FormattedOf | data_dashboard.py:332-354 | the result's start list begins with 0 |
| Dashboard.GetFormattedConversation | data_dashboard.py:157-354 | the method returns the de-duplicated, sorted, merged messages with their start list |
| Dashboard.FormattedMessagesClean | data_dashboard.py:285-320 | the sorted messages are in date order; the result has only my role or theirs, no two of theirs within the hour in a row, and all my messages in order |
| Dashboard.AllCandidatesRoles | data_dashboard.py:268 | every collected message has my role or theirs |
| Dashboard.CandidatesRoles | data_dashboard.py:268-277 | every message of a chat has my role or theirs |
| Dashboard.MergeRoles | data_dashboard.py:315-320 | merging keeps every role my role or theirs |
| Dashboard.WithStartsUnmarked | data_dashboard.py:614-621 | dropping the inserted start markers gives back the messages unchanged |
| Dashboard.WithStartsLength | data_dashboard.py:614-621 | one marker is inserted per start index below the message count |
| Dashboard.SerializeStartsWithFirst | data_dashboard.py:624-628 | a written list opening with a special token opens with that token's text |
| Dashboard.WithStartsFirst | data_dashboard.py:615-620 | when 0 is a start index the list opens with a start marker |
| Dashboard.ConversationFraming | data_dashboard.py:601-630 | a written conversation begins with `<\|ConversationStart\|>` and ends with `<\|endoftext\|>` |
| Dashboard.ManualStarts | data_dashboard.py:605 | a contact without manual indices has none; otherwise the set holds exactly its listed indices |
| Dashboard.WriteConversation | data_dashboard.py:611-630 | the text written is the serialisation of the messages with a marker before each start index |
| Dashboard.WriteConversations | data_dashboard.py:593-630 | the file text is each contact's conversation in turn, an empty conversation writing nothing |
| Contacts.GatherSkipsUnread | visualizer.py:19-112 | a database that is missing or fails while being read adds no conversation row and no message row |
| Contacts.GatherAppendConversations | visualizer.py:19-106 | the conversation rows of two database lists are those of the first followed by those of the second |
| Contacts.GatherAppendMessages | visualizer.py:19-107 | the message rows of two database lists are those of the first followed by those of the second |
| Contacts.Gather | visualizer.py:19-112 | the loop gathers exactly every readable database's rows, in database order |
| Contacts.Combine | visualizer.py:124-135 | combining keeps the contact, sums the three counts, and takes each date from one of the two rows |
| Contacts.MergedMapKeys | visualizer.py:116-121 | the map has exactly the contacts of the rows as keys, each entry carries its own contact, and the insertion order lists each contact once |
| Contacts.MergedCounts | visualizer.py:123-127 | a contact's merged counts are the sums over all its rows |
| Contacts.MergedFirst | visualizer.py:129-131 | a contact's merged first date is empty exactly when all its rows' are, and otherwise is one of them and no other non-empty one is smaller |
| Contacts.MergedLast | visualizer.py:133-135 | a contact's merged last date is empty exactly when all its rows' are, and otherwise is one of them and no other non-empty one is larger |
| Contacts.MergedAbsent | visualizer.py:118-121 | a contact missing from the map has no row |
| Contacts.Values | visualizer.py:138 | the list of values has one entry per key of the order, that key's entry |
| Contacts.InsertDesc | visualizer.py:139 | inserting adds exactly that summary to the multiset |
| Contacts.SortByCount | visualizer.py:139 | the sort is a permutation of its input |
| Contacts.InsertDescSorted | visualizer.py:139 | inserting into a list in descending count order keeps it in that order |
| Contacts.SortByCountCorrect | visualizer.py:139 | the sorted list is in descending order of message count and is a permutation of its input |
| Contacts.InsertDescStable | visualizer.py:139 | inserting one entry keeps, among entries of equal count, the order they had, the new one last |
| Contacts.SortByCountStable | visualizer.py:139 | the sort is stable: the entries of each count appear in their input order |
| Contacts.ValuesOnce | visualizer.py:138 | with each contact listed once, no summary occurs twice among the values |
| Contacts.MergedEntries | visualizer.py:116-138 | every entry of the result is the map's entry for its contact |
| Contacts.MergedOnePerContact | visualizer.py:137-139 | the result is in descending count order and holds no contact twice |
| Contacts.MergedCoversContacts | visualizer.py:116-138 | every contact of the rows has an entry in the result, and every entry's contact has a row |
| Contacts.MergeLoopStep | visualizer.py:118-135 | one more row adds a new contact to the map and the order, or combines the row into its contact's entry with the order unchanged |
| Contacts.MergeConversations | data_dashboard.py:509-539 | the loop computes the merged, count-sorted list |
| GetConvos.FilterRow | get_convos.py:54-68 | a row is kept exactly when its body is non-blank, holds no URL, is not a quoted reaction of theirs, and is non-blank with U+FFFC removed; the kept line is the cleaned, trimmed body with the sender's role |
| GetConvos.FilterChatLines | get_convos.py:53-68 | every kept line is trimmed, has no U+FFFC, has role `Me:` or `Them:`, and is the filter's output for one of the chat's rows |
| GetConvos.FetchedKept | get_convos.py:48-78 | every fetched conversation is non-empty, has a line of mine, and is the filtered lines of a chat without the own address |
| GetConvos.FilterMessages | get_convos.py:53-68 | the loop computes exactly the filtered lines of the chat |
| GetConvos.FetchConversations | get_convos.py:32-81 | the loop collects exactly the kept chats' filtered lines, in chat order |
| GetConvos.NonBlank | get_convos.py:88-96 | the whitespace filter never lengthens the list and leaves only non-blank lines |
| GetConvos.NonBlankIdempotent | get_convos.py:88-96 | filtering twice is filtering once, so the second filter of write_dataset changes nothing |
| GetConvos.MergeThemShape | get_convos.py:98-104 | the merge never lengthens the list and ends on the role of the last line |
| GetConvos.MergeThemMine | get_convos.py:101 | my lines come out unchanged and in order |
| GetConvos.MergeThemNoAdjacent | get_convos.py:98-104 | no two successive lines of the result are both theirs |
| GetConvos.NoAdjacentReplaceLast | get_convos.py:101-102 | replacing the last line by one of the same role keeps the no-two-of-theirs-in-a-row property |
| GetConvos.NoAdjacentSnoc | get_convos.py:103-104 | appending a line keeps the property unless both it and the last line are theirs |
| GetConvos.MineSnoc | get_convos.py:98-104 | appending a line of mine adds its text to my lines; a line of theirs adds nothing |
| GetConvos.WriteNumbersKept | get_convos.py:86-93 | the counter equals the number of conversations with a non-blank line, and the file numbers exactly those from 1 in order |
| GetConvos.MergeLines | get_convos.py:99-104 | the loop computes the merge |
| GetConvos.WriteLines | get_convos.py:106-107 | each line is written as role, space, text and `<\|endoftext\|>` with a newline |
| GetConvos.WriteStep | get_convos.py:87-93 | one conversation adds nothing when it has no non-blank line, and otherwise its header with the next number and its block |
| GetConvos.ConversationBlock | get_convos.py:95-108 | the block is the merged, written lines followed by a blank line |
| GetConvos.WriteDataset | get_convos.py:84-108 | the loop writes exactly the numbered file text |
| ChatText.FirstVerb | data_dashboard.py:17-19 | a verb is found exactly when the text starts with some listed verb and a space, and the one found is such a verb |
| ChatText.DashboardReaction | data_dashboard.py:238 | a match captures a listed verb the stripped text starts with, followed by a space; no match means no listed verb starts it so |
| ChatText.ReactionTokenKnown | data_dashboard.py:242-243 | each token a reaction of mine becomes is one of the reaction tokens of model.py:297-304 |
| ChatText.ReactionTokenPlain | data_dashboard.py:243 | a reaction token is trimmed and holds neither U+FFFC nor U+FFFD |
| ChatText.StripKeeps | data_dashboard.py:249 | stripping adds no character to a text |
| ChatText.RemoveAbsentChar | data_dashboard.py:249 | removing a character the text does not hold leaves it unchanged |
| ChatText.CleanReactionToken | data_dashboard.py:243-249 | a reaction token passes the U+FFFC removal and the stripping unchanged |
| ChatText.CleanBody | get_convos.py:63 | the cleaned text has no U+FFFC, is empty exactly when the text without U+FFFC is blank, and is otherwise trimmed |
| Text.TrimLeft | model.py:288 | trimming the left never lengthens a text, and the result does not start with whitespace |
| Text.TrimRight | model.py:288 | trimming the right never lengthens a text, and the result keeps the first character and does not end with whitespace |
| Text.TrimLeftRemovesBlankPrefix | model.py:288 | the left trim removes exactly a prefix of whitespace |
| Text.TrimRightRemovesBlankSuffix | model.py:288 | the right trim removes exactly a suffix of whitespace |
| Text.Strip | app.py:38 | `str.strip()` never lengthens a text and leaves no whitespace at either end |
| Text.StripEmptyIffBlank | model.py:288-289 | a stripped text is empty exactly when the text is blank |
| Text.StripIdentity | app.py:38 | a text with no whitespace at either end strips to itself |
| Text.StripIdempotent | app.py:38 | stripping twice is stripping once |
| Text.TrimmedIffOwnStrip | model.py:289 | a text is trimmed exactly when it is non-empty and strips to itself |
| Text.RemoveChar | get_convos.py:63 | removing a character leaves none of it, never lengthens the text, and keeps every other character's count |
| Text.NatToString | get_convos.py:93 | the decimal rendering is a non-empty digit string |
| Text.ParseNatToString | get_convos.py:93 | parsing the decimal rendering gives the number back |
| Text.NatToStringInjective | get_convos.py:93 | distinct numbers render differently |
| Text.PathKey | app.py:230 | a non-empty path has a non-empty key, and a key without a comma comes from a path of at most one id |
| Text.FirstField | static/js/drive-api.js:434 | the first field is the comma-free prefix up to the first comma |
| Text.FirstFieldOfDigits | static/js/drive-api.js:434 | the first field of a digit string followed by more text is the digit string followed by the first field of the rest |
| Text.ParseKeyRoundTrip | app.py:230 | splitting a path's key at the commas gives the path back |
| Text.PathKeyInjective | static/js/drive-api.js:434 | distinct paths have distinct keys, so a key names one path |

## Left out

- The transformer's forward pass, softmax, temperature, top-k and nucleus sampling (model.py:108-142, 167-181) are floating-point numerics and randomness. Sampling is a function parameter from the context buffer and a draw count to a token id, and the top-k query is a function parameter returning the candidate list.
- The BPE tokenizer is foreign code. `encode` and `decode` are function parameters, and nothing is assumed about them, for example that `decode` inverts `encode`.
- Probabilities and cumulative probabilities are `real`. Floating-point rounding is not modelled.
- The DPO and GRPO training steps (`do_dpo_step`, model.py:326-333) are external training mathematics. A training request is modelled up to the arguments it hands to the step, and the step's result is a parameter.
- Flask routing, JSON bodies, the SSE `Response` framing and the argparse start-up are I/O plumbing. An endpoint is a function from the request fields to a status and a result. A reply stream is the list of events it sends. The GRPO stream (app.py:238-318) is reduced to its final batch of responses; its per-token and per-response events (app.py:302, 308) are not modelled.
- Server.GrpoGenerate: the sampler is a total parameter, so a `top_k` outside the range `torch.topk` accepts, for which app.py:313-314 send an `error` event, is not modelled.
- The `except` branch of the reply stream in app.py (an `error` event on an exception inside the model) is not modelled. The model's calls cannot fail after priming.
- Reply.ReplySegments: `generate_response_stream` retries without bound while an attempt yields nothing. The model takes a `fuel` budget of retries and sets the `exhausted` flag of its outcome when the budget runs out. The lemmas show that more budget never changes a call that finished.
- async/await, `fetch`, the promise-based guards that de-duplicate concurrent loads, the `setTimeout` debounce and the page animation timer (static/js/drive-api.js:325-341, 554-564; static/js/drive-navigation.js:182-186, 205-230) are concurrency machinery. A load the source starts without awaiting it (the loads `startGame` starts, the chained `preloadPageFullDepth(1)`, the page-end preload of `navigateRight` and the load `animatePageTransition` starts at once) runs to completion where it is started, in the order the source starts them, so its interleaving with later events is not modelled. A request is a server function parameter.
- DOM rendering and event wiring are UI code: `renderGrpoView`, `updateGrpoRankDisplay`, `showError`, the rendering half of `animatePageTransition` (its loads are modelled), and all of drive-render.js, drive-events.js, drive-training.js and app.js. drive-state.js appears only as the fields of the `Drive` class.
- Tree nodes in the browser are shared JavaScript objects. The model addresses them by index paths into a value tree, so aliasing between two references to one node is not modelled.
- DriveApi.LoadNextLayer: the JavaScript receives node objects that exist by construction. The model requires the index paths it receives to name existing nodes.
- `topUpCurrentLevelChildren`, `doEnsureCurrentTokenHasDepth` and `ensurePreviewLayersLoaded` (static/js/drive-api.js:465-758) fill children through the same merge as `loadMoreChildrenForCurrentNode`, which is modelled by DriveApi.MergeChildren and the `TopUpMerge` policy. Their own choice of which nodes to request is not modelled.
- `getCurrentFullPath` (static/js/drive-navigation.js:61-78) only formats the path for display, and is not modelled.
- `startDrive` (static/js/drive-api.js:3-53) reads the form and fetches the first tree. The model starts from DriveApi.StartGame on the fetched roots.
- DriveNavigation.NavigateRight: the closing `ensureCurrentTokenHasDepth` (static/js/drive-navigation.js:178) only schedules a debounced call, and the model leaves it out. The 420 ms callback of a page turn is the separate event DriveNavigation.SettlePageTransition, and a later page turn that cancels it (`clearTimeout`) is not modelled. When `initialK <= 2` the page-end preload and the page-turn load can request the same page; they run one after the other, and the promise guard that shares one fetch between them is not modelled.
- DriveNavigation.NavigateLeft: the closing `ensureCurrentTokenHasDepth` (static/js/drive-navigation.js:119) only schedules a debounced call, and the model leaves it out. The page turn's 420 ms callback is DriveNavigation.SettlePageTransition, as for `navigateRight`.
- DriveNavigation.SettlePageTransition: below the root the callback's `topUpCurrentLevelChildren` and, at every level, its `ensureCurrentTokenHasDepth` (static/js/drive-navigation.js:217-223) are not modelled; the event then changes nothing.
- The ranking screen's `TextDecoder` and `JSON.parse` become a parser parameter from a `data: ` line to an optional event. Its `Date.now()` is the parameter `now`. The `|| 0` of a missing probability change is the function `ChangeAt`.
- Message dates in the dashboard are integer seconds. `datetime.fromisoformat` and its `except` path, which skip a merge or a start when a date does not parse, are not modelled.
- SQLite queries, contact-database loading and the `NSKeyedUnarchiver` and binary-plist decoding of `attributedBody` (data_dashboard.py:37-148) are I/O and foreign APIs. A database is the list of rows its queries return, and the attributed-body decoding is a function parameter. A missing database or one whose read fails contributes no rows.
- Contact-name lookup, display names, the percentage field (data_dashboard.py:542-546) and the debug prints are presentation, and are not modelled.
- DriveGrpo.Preview: JavaScript's `length` and `substring` count UTF-16 code units, and the model counts characters, so a response holding characters outside the Basic Multilingual Plane is cut at a different place.
- Regular expressions (`\S`, `https?://\S+` and the reaction patterns) are written out as explicit predicates over the text. Whitespace in the Python code is the set `str.isspace` accepts (ASCII whitespace, U+001C-U+001F, U+0085, U+00A0, U+1680, U+2000-U+200A, U+2028, U+2029, U+202F, U+205F and U+3000), which Text.IsSpace lists. Whitespace for the JavaScript `trim` is that set without U+001C-U+001F and U+0085 and with U+FEFF, which DriveGrpo.IsJsSpace lists.
- tokenization.py and vocab/view_vocab.py are thin scripts around library calls, and are not part of this model.

## Findings

| source | as written | input that shows it | evidently intended | confidence | as-written member | corrected member |
|---|---|---|---|---|---|---|
| app.py:352-354 | `grpo_train` calls `model.do_grpo_step`, but `Model` defines only `do_dpo_step` (model.py:326-333); the `AttributeError` is caught and every request that passes the field checks gets a 500 | a non-empty prompt with exactly eight ranked entries | the request reaches a GRPO training step and succeeds with its probability changes | not executed | Server.GrpoTrainAlwaysFails | Server.GrpoTrainRequest |

The first ordinary turn of a session primes the model with `<|Them|>` and the message and `<|Me|>`, without `<|ConversationStart|>`, although the stored history begins with `<|ConversationStart|>` (app.py:54-73, model.py:266-271). Server.PromptFollowsHistory states this.
