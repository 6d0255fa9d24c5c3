# EasyDiet core in Dafny

EasyDiet is a nutrition chat assistant: a FastAPI backend stores conversations,
messages and a per-user nutrition profile, asks a Gemini model for replies, and
keeps the profile up to date from what the user says; a React page shows the
conversation; a demo script asks the model for recipes and validates the text it
returns. This project models and proves the logic at its core:

- `profile_utils.dfy` (module `ProfileUtils`) — the profile diff engine of
  `backend/profile_utils.py`: `_normalize`, `format_profile_context`,
  `parse_profile_update` (the decoded JSON value is the datatype `Json`) and
  `diff_profile`, each loop as a method proved against a specification function.
- `server.dfy` (module `Server`) — the parts of `backend/server.py` that need
  neither the database nor the model: `supabase_single`, the bearer-header split
  of `get_current_user`, the row-to-history transformation of `fetch_history`,
  the `put_profile` filter, the 140-character preview of `touch_conversation`,
  the `ensure_conversation_owner` check, the system instruction of
  `conversation_model`, the reply fallback and `detect_profile_updates`.
- `chat_store.dfy` (module `ChatStore`) — the tables as an in-memory class
  `Store` (the `messages` rows as a sequence in creation order, `conversations`
  and `user_profiles` as maps), with `ensure_profile`, `update_profile`,
  `put_profile`, `create_conversation`, `insert_message`, `touch_conversation`,
  `fetch_history` and the step order of the `chat` handler as methods. The chat
  model, the extraction model and JSON decoding are parameters.
- `gemini_demo.dfy` (module `GeminiDemo`) — `format_ingredients_for_prompt`,
  `build_prompt_contents` and `validate_recipe_output` of `demo/gemini_demo.py`,
  including the block split `re.split(r"\n{2,}(?=[^\n]+\nServings:)", …)`, the
  line patterns, and the `idx` cursor loops as methods; plus a renderer of
  recipes whose output the validator provably accepts and reads back.
- `chat_page.dfy` (module `ChatPage`) — from `frontend/src/pages/Chat.jsx`:
  `normalizeMessages`, the trimmed-input guard and optimistic append of
  `handleSend`, the delete filter, and the `currentTitle` lookup, with the page
  state as the class `ChatView`.
- `strings.dfy` (module `Strings`) and `wrappers.dfy` (module `Wrappers`) — the
  string primitives the code relies on (Python `str.strip`, `str.split`,
  `str.join`, `str.splitlines`, `int` and `str` on decimals, JavaScript
  `String.trim`) and `Option`/`Result`.

Exceptions become `Result` values: `HttpError(status, detail)` for the
`HTTPException`s of the server and `RecipeError` for the `ValueError`s of the
validator, each with the source's status code and message.

`backend/tests/test_gemini_rotation.py` expects credential rotation, but
`backend/server.py` configures a single Gemini key (line 24) and defines none of
it; the model follows the code. `parse_profile_update` catches only
`JSONDecodeError`, so a well-formed payload that is not an object raises
(`AttributeError` on `payload.get`), which the model makes the explicit error
`NotAnObject`.

## Model

| member | source | states |
|---|---|---|
| Strings.TrimIsTrimmed | backend/profile_utils.py:10 | `strip()` removes whitespace from the two ends only: the result is a clean infix of the input with nothing but whitespace on either side |
| Strings.TrimUnique | backend/profile_utils.py:10 | any clean infix with only whitespace around it is the stripped string, so `Trim` meets that independent definition exactly |
| Strings.TrimIdempotent | backend/profile_utils.py:10 | stripping a stripped string changes nothing |
| Strings.TrimEmptyIff | backend/profile_utils.py:10-11 | the stripped string is empty exactly when every character is whitespace |
| Strings.TrimClean | backend/profile_utils.py:10 | a string with no whitespace at either end is its own strip |
| Strings.SplitConcat | backend/server.py:220 | splitting at newlines a text cut by one newline gives the lines of each side, one after the other |
| Strings.SplitJoin | backend/profile_utils.py:22 | splitting a newline-joined list of lines without newlines at the newlines gives the lines back |
| Strings.NatToString | demo/gemini_demo.py:86 | the decimal form of `n` is a non-empty run of digits whose value is `n`, with no leading zero |
| Strings.NatToStringInjective | demo/gemini_demo.py:86 | two counts with the same decimal form are equal |
| ProfileUtils.Normalize | backend/profile_utils.py:7-11 | `None` and blank strings give `None` (both directions); any other result is non-empty and stripped |
| ProfileUtils.NormalizeIdempotent | backend/profile_utils.py:7-11 | normalising a normalised value changes nothing |
| ProfileUtils.FormatProfileContext | backend/profile_utils.py:14-22 | the loop over `PROFILE_FIELDS` builds exactly the summary `ProfileContext` specifies, `None` read as the empty profile |
| ProfileUtils.DisplayValueCases | backend/profile_utils.py:20 | an absent, `None` or blank field shows "Not provided"; any other shows its stripped, non-empty value |
| ProfileUtils.AllContextLines | backend/profile_utils.py:17-21 | the summary's lines are the header, then "- Fitness Goals: …", then "- Dietary Restrictions: …" |
| ProfileUtils.ProfileContextLines | backend/profile_utils.py:14-22 | split at newlines, the summary is exactly the header and one "- Label: value" line per field in `PROFILE_FIELDS` order, when no shown value holds a newline |
| ProfileUtils.EmptyProfileContext | backend/profile_utils.py:16-21 | a `None` profile renders both fields as "Not provided" |
| ProfileUtils.ParseProfileUpdate | backend/profile_utils.py:25-40 | the loop over `PROFILE_FIELDS` returns what `ProfileUpdate` specifies for the decoded payload |
| ProfileUtils.UpdatesFromContents | backend/profile_utils.py:33-39 | after the first `n` fields, a field is in the updates exactly when it is one of them with a non-blank string value, and then holds that value normalised |
| ProfileUtils.ProfileUpdateContents | backend/profile_utils.py:32-40 | a key is kept exactly when it is a known field whose payload value is a non-blank string; its value is that string stripped and non-empty; unknown keys, null, non-string and blank values are dropped |
| ProfileUtils.ParsedUpdatesAreNormal | backend/profile_utils.py:27-40 | a decode error yields `{}`, not an error; the result is an error exactly when the payload decodes to something that is not an object; the keys of a parsed update are among `PROFILE_FIELDS` and every value is non-empty and stripped |
| ProfileUtils.ProfileDiff | backend/profile_utils.py:43-51 | the diff is a sub-map of the updates, with the same value at each key |
| ProfileUtils.DiffProfile | backend/profile_utils.py:43-51 | the loop over `updates` returns exactly `ProfileDiff` |
| ProfileUtils.DiffMembership | backend/profile_utils.py:47-50 | a field is in the diff exactly when it is updated and the normalised stored value is absent or different |
| ProfileUtils.DiffOfSameValues | backend/profile_utils.py:47-50 | updates that repeat the normalised stored values give `{}` |
| ProfileUtils.Merge | backend/server.py:105-109 | the merged profile has the union of the keys, the update's value at each updated key, and the old value elsewhere |
| ProfileUtils.DiffAfterMergeIsEmpty | backend/profile_utils.py:43-51 | applying the diff of normalised updates and diffing the same updates again gives `{}` |
| ProfileUtils.DiffExamples | backend/profile_utils.py:43-51 | a changed field and a field stored as `None` are both kept; identical values are dropped |
| Server.SupabaseSingle | backend/server.py:83-90 | an error is a 500 with its text; missing or empty data gives `None`, and only then; otherwise the first row |
| Server.AfterFirstSpaceAt | backend/server.py:75 | `split(" ", 1)[1]` is everything after the first space |
| Server.BearerToken | backend/server.py:72-75 | a header not starting with "Bearer " is a 401 "Invalid auth header", and only such a header; otherwise "Bearer " followed by the token gives the header back |
| Server.CurrentUser | backend/server.py:72-80 | a header without the prefix is a 401 "Invalid auth header"; with it, a rejected token is a 401 carrying the verifier's message, a payload without "sub" is a 500, and a payload with one returns it; so a user id is returned only when the verifier accepted the token after the prefix |
| Server.HistoryOf | backend/server.py:171-175 | the history has at most one entry per row, each with role "user" or "model" and one part |
| Server.HistoryOfKnownRoles | backend/server.py:171-175 | when every row has a known role, the history is the rows one for one, in order, each content wrapped as `parts` with a missing content as "" |
| Server.HistoryOfAppend | backend/server.py:171-175 | the history of two row sequences one after the other is the two histories one after the other |
| Server.Reverse | backend/server.py:170 | `[::-1]` keeps the length and puts element `i` at position `len-1-i` |
| Server.Newest | backend/server.py:163-164 | the query keeps the newest `min(len, 60)` rows, which are a suffix of the rows in creation order |
| Server.HistoryQuery | backend/server.py:158-166 | the query returns at most `MAX_TURNS * 2` = 60 rows (`MAX_TURNS` is set at line 44) |
| Server.FetchHistory | backend/server.py:158-176 | a query error is a 500 with its text; otherwise the loop yields the history of the reversed rows |
| Server.HistoryWindow | backend/server.py:158-176 | the history is that of the newest 60 rows in creation order, filtered after the limit, so at most 60 entries |
| Server.HistoryEndsWithNewest | backend/server.py:158-176 | a conversation whose newest row is a user message has that message as the last history entry |
| Server.PayloadUpdates | backend/server.py:246 | a field is in the updates exactly when it was sent (not `None`), with the value as sent; no other keys |
| Server.Snippet | backend/server.py:195 | the preview is a prefix of the text of length `min(len, 140)` |
| Server.OwnedConversation | backend/server.py:142-147 | the check passes exactly for a found row owned by the user, returning it; otherwise a 404 "Conversation not found" |
| Server.SystemInstructionLines | backend/server.py:219-221 | the chat model's system instruction, split at newlines, is the prompt's lines, an empty line, the profile summary header, then "- Fitness Goals: …" and "- Dietary Restrictions: …" with the user's shown values |
| Server.ChatReply | backend/server.py:293 | the reply is never empty: the model's text when non-empty, "(no response)" otherwise |
| Server.UpdatesFromReply | backend/server.py:206-216 | the detected updates name known fields only, hold normal values, and each differs from the stored value |
| Server.DetectProfileUpdates | backend/server.py:206-216 | a failed extraction call gives `{}`; otherwise the updates name known fields only, hold normal values, and each differs from the profile's stored value |
| Server.DetectSwallowsFailures | backend/server.py:208-216 | a failed extraction call, an undecodable reply and a non-object payload all give `{}` |
| Server.DetectAfterMergeIsEmpty | backend/server.py:206-302 | once the detected updates are applied, the same reply detects nothing more |
| ChatStore.WithProfile | backend/server.py:93-102 | after `ensure_profile` the user has a profile and every other profile is unchanged |
| ChatStore.ContextEndsWithUserMessage | backend/server.py:284-287 | because the user's message is stored before the history is read, the history ends with it and has between 1 and 60 entries |
| ChatStore.OtherConversationsIgnored | backend/server.py:158-162 | a message of another conversation does not change a conversation's rows |
| ChatStore.Touched | backend/server.py:194-203 | touching an existing conversation keeps every key and every other conversation, and of the target changes only the preview, to the first 140 characters |
| ChatStore.DeleteConversationRows | backend/server.py:150-155 | after a conversation's messages are deleted its rows are empty, and every other conversation's rows are as before |
| ChatStore.Store.constructor | backend/server.py:31 | the store starts with no messages, conversations or profiles |
| ChatStore.Store.EnsureProfile | backend/server.py:93-102 | returns the stored profile, creating the empty one on first use; nothing else changes |
| ChatStore.Store.UpdateProfile | backend/server.py:105-109 | merges the updates into an existing profile; for a user without one, creates the empty profile and writes nothing |
| ChatStore.Store.PutProfile | backend/server.py:244-249 | with no field sent, nothing is written beyond `ensure_profile`; otherwise exactly the sent fields are merged in |
| ChatStore.Store.CreateConversation | backend/server.py:125-139 | adds one conversation with the fresh id, the user, the title or "New conversation", and no preview |
| ChatStore.Store.OwnedBy | backend/server.py:142-147 | succeeds exactly when the conversation exists and belongs to the user |
| ChatStore.Store.InsertMessage | backend/server.py:179-191 | appends exactly one row, with a user id only when one is given |
| ChatStore.Store.TouchConversation | backend/server.py:194-203 | sets the conversation's preview to the first 140 characters and changes nothing else |
| ChatStore.Store.FetchHistory | backend/server.py:158-176 | returns the history window of the conversation's stored rows |
| ChatStore.Store.ConversationMessages | backend/server.py:269-272 | a 404 unless the user owns the conversation; otherwise its history window, at most 60 entries |
| ChatStore.Store.DeleteConversation | backend/server.py:150-155 | a 404 with nothing deleted unless the user owns the conversation; otherwise exactly its messages and then the conversation row are removed |
| ChatStore.Store.OpenConversation | backend/server.py:277-282 | a named conversation must belong to the user (404 otherwise, nothing written); without one a conversation with the user as owner and the default title is created; the result exists |
| ChatStore.Store.BeginTurn | backend/server.py:284-288 | stores the user message, makes it the preview of that conversation and changes no other conversation or field, reads a history that ends with it, and ensures the profile |
| ChatStore.Store.FinishTurn | backend/server.py:297-302 | stores the reply as a "model" row without user id, makes it the preview and changes no other conversation or field, and updates the profile only when the detected updates are non-empty |
| ChatStore.Store.Respond | backend/server.py:284-304 | on model failure a 500 "Gemini error: …" with the user message stored and no model message; otherwise the user row then the model row, the profile update and the reply; in both cases the conversations table differs only in the target's preview |
| ChatStore.Store.Chat | backend/server.py:275-304 | the whole turn: a 404 with nothing changed for a foreign or missing named conversation; otherwise the conversation is owned by the caller (a created one has the default title), the conversations table is the opened one with only the target's preview changed, and the messages, profile and reply are as `Respond` says |
| GeminiDemo.ParseQuotedJoin | demo/gemini_demo.py:51 | the quoted, comma-joined list reads back as the items when no item holds a quote |
| GeminiDemo.FormatIngredientsRoundTrip | demo/gemini_demo.py:49-52 | the `INGREDIENTS = [...]` line reads back as the items when no item holds a quote |
| GeminiDemo.PromptContentsParts | demo/gemini_demo.py:55-58 | the prompt contents are the stripped prompt, "\n\n", and a line from which the ingredients read back |
| GeminiDemo.PromptIgnoresSurroundingSpace | demo/gemini_demo.py:58 | whitespace around the prompt text does not change the contents |
| GeminiDemo.WrongCountMessageInjective | demo/gemini_demo.py:86 | the count error message determines the count |
| GeminiDemo.RunEnd | demo/gemini_demo.py:78 | the run of newlines starting at `p` ends at the first non-newline |
| GeminiDemo.NextMatch | demo/gemini_demo.py:78 | the separator position found is the leftmost match at or after `p`, or the end |
| GeminiDemo.NextMatchIs | demo/gemini_demo.py:78 | any position that matches with no match before it is the one found |
| GeminiDemo.StripNonBlank | demo/gemini_demo.py:76-80 | every kept block is non-empty and stripped, and there are no more blocks than pieces |
| GeminiDemo.ParseLines | demo/gemini_demo.py:91-143 | a block's error is one of the per-block errors; a parsed recipe has ingredients and instructions and accounts for every line |
| GeminiDemo.ParseAll | demo/gemini_demo.py:90-145 | one recipe per block, each complete, or a per-block error |
| GeminiDemo.Validate | demo/gemini_demo.py:71-145 | a success holds between 2 and 4 complete recipes |
| GeminiDemo.CollectIngredients | demo/gemini_demo.py:111-115 | the cursor loop collects exactly the "- " items from the start line on, prefix removed and stripped |
| GeminiDemo.CollectInstructions | demo/gemini_demo.py:123-127 | the cursor loop collects exactly the numbered steps from the start line on, without their numbers |
| GeminiDemo.ParseRecipeLines | demo/gemini_demo.py:91-143 | the per-block checks, with the cursor, return exactly what `ParseLines` specifies |
| GeminiDemo.ParseBlocks | demo/gemini_demo.py:88-145 | the loop over the blocks returns exactly `ParseAll`: recipes in order, or the first failing block's error |
| GeminiDemo.ValidateRecipeOutput | demo/gemini_demo.py:71-145 | `validate_recipe_output` returns exactly what `Validate` specifies |
| GeminiDemo.EmptyOutputIff | demo/gemini_demo.py:73-74 | the output is rejected as empty exactly when it is all whitespace |
| GeminiDemo.SplitKeepsFirst | demo/gemini_demo.py:78 | the first piece of the split keeps the first character of a text that does not start with a newline |
| GeminiDemo.NoBlocksUnreachable | demo/gemini_demo.py:82-83 | "No recipe blocks were found" is never raised: non-blank output always yields a block |
| GeminiDemo.WrongCountIff | demo/gemini_demo.py:85-86 | the count error with `n` is raised exactly for non-blank output with `n` blocks outside 2..4 |
| GeminiDemo.FirstFailingBlock | demo/gemini_demo.py:90-133 | when the blocks before `i` parse and block `i` does not, the result is block `i`'s error |
| GeminiDemo.AllBlocksParse | demo/gemini_demo.py:135-145 | when every block parses, the result is the recipes in block order |
| GeminiDemo.ServingsLineParses | demo/gemini_demo.py:98-101 | "Servings: n" matches the servings pattern and yields `n` |
| GeminiDemo.TimeLineParses | demo/gemini_demo.py:103-106 | "Time: n minutes" matches the time pattern and yields `n` |
| GeminiDemo.InstructionLineParses | demo/gemini_demo.py:125-126 | "k. step" matches the instruction pattern and yields the step |
| GeminiDemo.StepTextParses | demo/gemini_demo.py:126 | the text after the number's spaces is the step |
| GeminiDemo.IngredientLineParses | demo/gemini_demo.py:113-114 | "- item" is an ingredient line whose stripped rest is the item |
| GeminiDemo.IngredientsAreItems | demo/gemini_demo.py:113-115 | the ingredient run is the generic item run with the "- " reader |
| GeminiDemo.InstructionsAreItems | demo/gemini_demo.py:125-127 | the instruction run is the generic item run with the pattern reader |
| GeminiDemo.ItemsFromAt | demo/gemini_demo.py:113-127 | a run of lines each read as the next item, then a line that is not, reads as exactly those items |
| GeminiDemo.BlockLinesOfRender | demo/gemini_demo.py:91 | the non-blank stripped lines of a rendered recipe are its lines |
| GeminiDemo.ParseLinesOfRender | demo/gemini_demo.py:91-143 | the lines of a well-formed recipe parse back to that recipe |
| GeminiDemo.SplitAtSeparator | demo/gemini_demo.py:78 | a block, a blank line and a text whose first line is followed by "Servings:" split at that blank line |
| GeminiDemo.SplitBlocks | demo/gemini_demo.py:76-80 | blocks joined by blank lines, each followed by a "Servings:" line, split back into those blocks |
| GeminiDemo.RenderValidates | demo/gemini_demo.py:71-145 | 2 to 4 well-formed recipes, rendered one per block, validate back to exactly those recipes in order |
| ChatPage.FirstPart | frontend/src/pages/Chat.jsx:12 | the text is the first part, or "" when the parts are missing or empty |
| ChatPage.NormalizeMessages | frontend/src/pages/Chat.jsx:8-14 | one bubble per entry at the same position; a missing history gives none |
| ChatPage.BubbleIdsDiffer | frontend/src/pages/Chat.jsx:10 | ids of two different positions differ, whatever the roles |
| ChatPage.NormalizedBubbles | frontend/src/pages/Chat.jsx:8-14 | ids are pairwise distinct, the sender is the user exactly for role "user", and the text is the first part |
| ChatPage.NoHistoryNoBubbles | frontend/src/pages/Chat.jsx:9 | a null or undefined history gives `[]` |
| ChatPage.Without | frontend/src/pages/Chat.jsx:111 | a conversation is kept exactly when it was there and its id is not the deleted one |
| ChatPage.WithoutKeepsOrder | frontend/src/pages/Chat.jsx:111 | the kept conversations are in their old order |
| ChatPage.WithoutIdempotent | frontend/src/pages/Chat.jsx:111 | deleting the same id twice is deleting it once |
| ChatPage.WithoutAbsent | frontend/src/pages/Chat.jsx:111 | deleting an id no conversation has changes nothing |
| ChatPage.FindIndex | frontend/src/pages/Chat.jsx:122 | the index found is the first conversation with the open chat's id, or the end |
| ChatPage.CurrentTitleCases | frontend/src/pages/Chat.jsx:121-124 | the title is the first matching conversation's non-empty title, else "New Chat"; never empty |
| ChatPage.DeletedConversationHasNoTitle | frontend/src/pages/Chat.jsx:111-124 | after deleting a conversation, its id shows "New Chat" |
| ChatPage.ChatView.constructor | frontend/src/pages/Chat.jsx:20-22 | the page starts with no messages, no conversations and an empty input |
| ChatPage.ChatView.HandleSend | frontend/src/pages/Chat.jsx:76-85 | a blank input, no session or no conversation sends and changes nothing; otherwise the trimmed text is appended as a user bubble, the input is cleared, and the text and conversation are sent |
| ChatPage.ChatView.HandleDelete | frontend/src/pages/Chat.jsx:107-114 | without a session or when the server refuses, nothing changes; otherwise the list loses exactly that id and deleting the open chat leaves no open chat |
| ChatPage.ChatView.Title | frontend/src/pages/Chat.jsx:121-124 | the title shown is never empty |
| ChatPage.BlankInputIff | frontend/src/pages/Chat.jsx:78-79 | the input counts as blank exactly when it is all JavaScript whitespace |

## Left out

- Credential rotation and failover: `backend/server.py` configures a single key and defines none of the rotation functions its tests name, so there is nothing to model.
- Supabase, FastAPI routing and CORS, `jwt.decode` signature checking and the Gemini calls are external: query responses, the token verifier and the model outcomes are parameters.
- `now_iso`, timestamps and `uuid4` ids are not modelled: rows are kept in creation order, and a fresh conversation id is a parameter that the caller guarantees is unused (the `requires` of `CreateConversation`, `OpenConversation` and `Chat`).
- Ties in `created_at` are not modelled: two rows inserted in one turn are taken to be ordered as inserted.
- The text of the extraction prompt (`Current profile: {profile}` with Python's dict repr) is not modelled; the extraction call receives the message and the profile as values.
- `json.loads` is the parameter `decode`; JSON numbers, booleans and arrays are all `JOther`, since only strings are told apart.
- A `messages` row whose `content` is SQL null gives `None` in Python, not ""; the model's `Row.content` is `None` only for a missing key, as in the tests.
- Dictionary insertion order is not modelled: updates are maps.
- `list_conversations` (`backend/server.py:112-122`) selects the user's conversations ordered by `updated_at`, newest first; timestamps are not modelled, so neither is that order, and the endpoint is left out.
- `get_profile` is `ensure_profile`, which `ChatStore.Store.EnsureProfile` models; `health` returns constants and is left out.
- In `ChatStore.Store`, the database never fails: the 500s raised on a query error (`insert_message`, `touch_conversation`, `fetch_history`, `delete_conversation`) and on an empty insert ("Unable to create profile", "Unable to create conversation") are not modelled; `Server.SupabaseSingle` and `Server.FetchHistory` model that error path on query responses.
- `generate_recipe_text`, `create_client` and `main` in `demo/gemini_demo.py` are network and printing code.
- The regular-expression engine is replaced by the specific matchers; `\d` is taken as the ASCII digits, although Python also accepts other Unicode decimal digits there.
- `str.splitlines()` is modelled as a split at every line-break character, which treats "\r\n" as two breaks; with the blank pieces dropped afterwards the lines are the same.
- `cli.py` and every other frontend file: UI rendering, routing, session plumbing and thin HTTP wrappers.
- In `Chat.jsx`, the rendering, the status messages, the asynchronous loads after a send or a delete, and the navigation after creating or sending are not modelled; the created conversation id and the outcome of the delete request are parameters, and the `crypto.randomUUID` bubble id is the parameter `freshId`.
- ChatPage.ChatView.HandleSend: does not model that creating a conversation navigates to it, so `chatId` is left unchanged.
- GeminiDemo.RenderValidates: covers one layout of valid text, with no blank lines inside a recipe and exactly one blank line between recipes; other accepted layouts are covered by `Validate` itself but not by a round trip.
