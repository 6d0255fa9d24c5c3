/** The request-independent logic of backend/server.py: the response selector,
    the bearer-header split, the history window, the profile payload filter, the
    preview truncation, the ownership check and the best-effort profile
    extraction. The database and the language model are not modelled here:
    query responses and model replies arrive as values. */
module Server {
  import opened Wrappers
  import opened Strings
  import opened ProfileUtils

  /** `MAX_TURNS`: the newest user+model pairs kept in the model's context. */
  const MaxTurns: nat := 30

  /** The number of newest rows `fetch_history` reads: `MAX_TURNS * 2`. */
  const HistoryLimit: nat := MaxTurns * 2

  /** An `HTTPException`: status code and detail. */
  datatype HttpError = HttpError(status: int, detail: string)

  /** A query response: its `error`, if any, and its `data` rows, if any. */
  datatype Response<T> = Response(error: Option<string>, data: Option<seq<T>>)

  // ------------------------------------------------------------ supabase_single

  /** `supabase_single`: an error becomes a 500; no rows give `None`; otherwise
      the first row. */
  function SupabaseSingle<T>(response: Response<T>): (r: Result<Option<T>, HttpError>)
    ensures r.Failure? <==> response.error.Some?
    ensures r.Failure? ==> r.error == HttpError(500, response.error.value)
    ensures r == Success(None) <==> response.error.None? && response.data.GetOr([]) == []
    ensures r.Success? && r.value.Some? ==> r.value.value == response.data.value[0]
  {
    if response.error.Some? then Failure(HttpError(500, response.error.value))
    else
      var data := response.data.GetOr([]);
      if data == [] then Success(None) else Success(Some(data[0]))
  }

  // ----------------------------------------------------------- get_current_user

  const BearerPrefix: string := "Bearer "

  /** `s.split(" ", 1)[1]`: everything after the first space. */
  function AfterFirstSpace(s: string): string
    requires ' ' in s
  {
    if s[0] == ' ' then s[1..] else AfterFirstSpace(s[1..])
  }

  lemma {:induction false} AfterFirstSpaceAt(s: string, i: nat)
    requires i < |s| && s[i] == ' ' && ' ' !in s[..i]
    ensures AfterFirstSpace(s) == s[i + 1..]
  {
    if i > 0 {
      assert s[0] in s[..i];
      assert s[1..][..i - 1] == s[1..i];
      assert forall c :: c in s[1..i] ==> c in s[..i];
      AfterFirstSpaceAt(s[1..], i - 1);
      assert s[1..][i..] == s[i + 1..];
    }
  }

  /** The header check and split of `get_current_user`: a header that does not
      start with "Bearer " is a 401; otherwise the token is everything after the
      first space, so that prefix and token give back the header. */
  function BearerToken(authorization: string): (r: Result<string, HttpError>)
    ensures r.Success? <==> BearerPrefix <= authorization
    ensures r.Success? ==> authorization == BearerPrefix + r.value
    ensures r.Failure? ==> r.error == HttpError(401, "Invalid auth header")
  {
    if !(BearerPrefix <= authorization) then Failure(HttpError(401, "Invalid auth header"))
    else
      assert authorization[..7] == BearerPrefix;
      assert authorization[6] == ' ' && ' ' !in authorization[..6];
      AfterFirstSpaceAt(authorization, 6);
      assert authorization == BearerPrefix + authorization[7..];
      Success(AfterFirstSpace(authorization))
  }

  /** The outcome of `jwt.decode`: the payload's "sub" claim (`None` when the
      payload lacks one), or the `PyJWTError` message. */
  datatype JwtOutcome = Claims(sub: Option<string>) | Rejected(reason: string)

  /** `get_current_user`, with token verification as the parameter `verify`. A
      rejected token is a 401 carrying the error text; a payload without "sub"
      raises `KeyError`, which the framework turns into a 500. */
  function CurrentUser(authorization: string, verify: string -> JwtOutcome): (r: Result<string, HttpError>)
    ensures !(BearerPrefix <= authorization) ==> r == Failure(HttpError(401, "Invalid auth header"))
    ensures BearerPrefix <= authorization ==>
      match verify(authorization[|BearerPrefix|..])
      case Rejected(reason) => r == Failure(HttpError(401, reason))
      case Claims(None) => r == Failure(HttpError(500, "Internal Server Error"))
      case Claims(Some(sub)) => r == Success(sub)
    ensures r.Success? ==>
      (BearerPrefix <= authorization && verify(authorization[|BearerPrefix|..]) == Claims(Some(r.value)))
  {
    match BearerToken(authorization)
    case Failure(e) => Failure(e)
    case Success(token) =>
      match verify(token)
      case Rejected(reason) => Failure(HttpError(401, reason))
      case Claims(None) => Failure(HttpError(500, "Internal Server Error"))
      case Claims(Some(sub)) => Success(sub)
  }

  // -------------------------------------------------------------- fetch_history

  /** One `messages` row as the history query selects it: `role` and `content`,
      `None` where the key is missing. */
  datatype Row = Row(role: Option<string>, content: Option<string>)

  /** A history entry: `{"role": role, "parts": [content]}`. */
  datatype HistoryEntry = HistoryEntry(role: string, parts: seq<string>)

  predicate IsHistoryRole(role: Option<string>) {
    role == Some("user") || role == Some("model")
  }

  function EntryOf(row: Row): HistoryEntry
    requires IsHistoryRole(row.role)
  {
    HistoryEntry(row.role.value, [row.content.GetOr("")])
  }

  /** The history built from rows in chronological order: rows with another
      role are dropped, a missing content becomes "". */
  function HistoryOf(rows: seq<Row>): (h: seq<HistoryEntry>)
    ensures |h| <= |rows|
    ensures forall e :: e in h ==> (e.role == "user" || e.role == "model") && |e.parts| == 1
  {
    if rows == [] then []
    else
      var last := rows[|rows| - 1];
      HistoryOf(rows[..|rows| - 1]) + (if IsHistoryRole(last.role) then [EntryOf(last)] else [])
  }

  function Reverse<T>(s: seq<T>): (r: seq<T>)
    ensures |r| == |s|
    ensures forall i :: 0 <= i < |s| ==> r[i] == s[|s| - 1 - i]
  {
    if s == [] then [] else Reverse(s[1..]) + [s[0]]
  }

  /** The rows the history query returns for a conversation whose rows, in
      creation order, are `rows`: `.order("created_at", desc=True)` then
      `.limit(MAX_TURNS * 2)`, so the newest rows, newest first. */
  function HistoryQuery(rows: seq<Row>): (r: seq<Row>)
    ensures |r| <= HistoryLimit
  {
    Reverse(Newest(rows))
  }

  /** The newest `MAX_TURNS * 2` rows, in creation order. */
  function Newest(rows: seq<Row>): (r: seq<Row>)
    ensures |r| == if |rows| < HistoryLimit then |rows| else HistoryLimit
    ensures r == rows[|rows| - |r|..]
  {
    if |rows| <= HistoryLimit then rows else rows[|rows| - HistoryLimit..]
  }

  /** The row-to-history transformation of `fetch_history`: a query error is a
      500; otherwise the rows are reversed into creation order, rows with an
      unknown role are skipped, and each content is wrapped as `parts`. */
  method FetchHistory(response: Response<Row>) returns (r: Result<seq<HistoryEntry>, HttpError>)
    ensures response.error.Some? ==> r == Failure(HttpError(500, response.error.value))
    ensures response.error.None? ==> r == Success(HistoryOf(Reverse(response.data.GetOr([]))))
  {
    if response.error.Some? {
      return Failure(HttpError(500, response.error.value));
    }
    var history: seq<HistoryEntry> := [];
    var rows := Reverse(response.data.GetOr([]));
    for i := 0 to |rows|
      invariant history == HistoryOf(rows[..i])
    {
      var row := rows[i];
      assert rows[..i + 1][..i] == rows[..i];
      if row.role == Some("user") || row.role == Some("model") {
        history := history + [HistoryEntry(row.role.value, [row.content.GetOr("")])];
      }
    }
    assert rows[..|rows|] == rows;
    return Success(history);
  }

  lemma {:induction false} HistoryOfAppend(a: seq<Row>, b: seq<Row>)
    ensures HistoryOf(a + b) == HistoryOf(a) + HistoryOf(b)
  {
    if b != [] {
      assert (a + b)[..|a + b| - 1] == a + b[..|b| - 1];
      assert (a + b)[|a + b| - 1] == b[|b| - 1];
      HistoryOfAppend(a, b[..|b| - 1]);
      var tail := if IsHistoryRole(b[|b| - 1].role) then [EntryOf(b[|b| - 1])] else [];
      assert HistoryOf(a + b) == HistoryOf(a + b[..|b| - 1]) + tail;
      assert HistoryOf(b) == HistoryOf(b[..|b| - 1]) + tail;
      assert HistoryOf(a) + HistoryOf(b[..|b| - 1]) + tail == HistoryOf(a) + (HistoryOf(b[..|b| - 1]) + tail);
    } else {
      assert a + b == a;
    }
  }

  /** When every row has a known role, the history is the rows one for one, in
      the same order. */
  lemma {:induction false} HistoryOfKnownRoles(rows: seq<Row>)
    requires forall i :: 0 <= i < |rows| ==> IsHistoryRole(rows[i].role)
    ensures |HistoryOf(rows)| == |rows|
    ensures forall i :: 0 <= i < |rows| ==> HistoryOf(rows)[i] == EntryOf(rows[i])
  {
    if rows != [] {
      HistoryOfKnownRoles(rows[..|rows| - 1]);
    }
  }

  /** The history the query yields: the newest `MAX_TURNS * 2` rows in creation
      order, filtered; so at most 60 entries, possibly fewer. */
  lemma HistoryWindow(rows: seq<Row>)
    ensures HistoryOf(Reverse(HistoryQuery(rows))) == HistoryOf(Newest(rows))
    ensures |HistoryOf(Newest(rows))| <= HistoryLimit
  {
    assert Reverse(Reverse(Newest(rows))) == Newest(rows);
  }

  /** A conversation whose newest row is a user message has that message as the
      last entry of its history window. */
  lemma HistoryEndsWithNewest(rows: seq<Row>, text: string)
    ensures var h := HistoryOf(Newest(rows + [Row(Some("user"), Some(text))]));
      |h| >= 1 && h[|h| - 1] == HistoryEntry("user", [text])
  {
    var all := rows + [Row(Some("user"), Some(text))];
    var n := Newest(all);
    assert n[|n| - 1] == all[|all| - 1];
  }

  // ---------------------------------------------------------------- put_profile

  /** The body of `PUT /api/profile`: each field optional. */
  datatype ProfilePayload = ProfilePayload(fitnessGoals: Option<string>, dietaryRestrictions: Option<string>)

  /** `payload.dict()`. */
  function PayloadDict(payload: ProfilePayload): map<string, Option<string>> {
    map[FitnessGoals := payload.fitnessGoals, DietaryRestrictions := payload.dietaryRestrictions]
  }

  /** `{k: v for k, v in payload.dict().items() if v is not None}`: the fields
      that were sent, with their values as sent (an empty string is kept). */
  function PayloadUpdates(payload: ProfilePayload): (updates: Updates)
    ensures FitnessGoals in updates <==> payload.fitnessGoals.Some?
    ensures DietaryRestrictions in updates <==> payload.dietaryRestrictions.Some?
    ensures FitnessGoals in updates ==> updates[FitnessGoals] == payload.fitnessGoals.value
    ensures DietaryRestrictions in updates ==> updates[DietaryRestrictions] == payload.dietaryRestrictions.value
    ensures updates.Keys <= {FitnessGoals, DietaryRestrictions}
  {
    var fields := PayloadDict(payload);
    map k | k in fields && fields[k].Some? :: fields[k].value
  }

  // --------------------------------------------------------- touch_conversation

  /** The longest preview `touch_conversation` stores. */
  const PreviewLength: nat := 140

  /** `preview[:140]`. */
  function Snippet(preview: string): (r: string)
    ensures r <= preview
    ensures |r| == if |preview| < PreviewLength then |preview| else PreviewLength
  {
    if |preview| <= PreviewLength then preview else preview[..PreviewLength]
  }

  // -------------------------------------------------- ensure_conversation_owner

  /** A `conversations` row. */
  datatype Conversation = Conversation(id: string, userId: string, title: string, lastMessagePreview: Option<string>)

  /** The check of `ensure_conversation_owner` on the row the lookup found: a
      missing row and another user's row are both a 404. */
  function OwnedConversation(found: Option<Conversation>, userId: string): (r: Result<Conversation, HttpError>)
    ensures r.Success? <==> found.Some? && found.value.userId == userId
    ensures r.Success? ==> r.value == found.value
    ensures r.Failure? ==> r.error == HttpError(404, "Conversation not found")
  {
    if found.None? || found.value.userId != userId then Failure(HttpError(404, "Conversation not found"))
    else Success(found.value)
  }

  // ------------------------------------------------------------------- the model

  /** The outcome of one `generate_content` call: the reply's `text` (which
      may be `None`), or the exception it raised. */
  datatype ModelOutcome = Replied(text: Option<string>) | Failed(reason: string)

  /** `response.text or "(no response)"`. */
  function ChatReply(text: Option<string>): (reply: string)
    ensures reply != ""
    ensures text.Some? && text.value != "" ==> reply == text.value
    ensures text.None? || text.value == "" ==> reply == "(no response)"
  {
    if text.None? || text.value == "" then "(no response)" else text.value
  }

  /** The system instruction of `conversation_model`: the static prompt, a blank
      line, then the profile summary. */
  function SystemInstruction(systemPrompt: string, profile: Profile): string {
    systemPrompt + "\n\n" + ProfileContext(Some(profile))
  }

  /** Read line by line, the system instruction is the prompt's own lines, one
      empty line, the summary header and one "- Label: value" line per field,
      so the chat model always sees the stored profile as its last three
      lines (as long as no shown value holds a newline). */
  lemma SystemInstructionLines(systemPrompt: string, profile: Profile)
    requires forall f :: f in ProfileFields ==> '\n' !in DisplayValue(profile, f)
    ensures SplitWhere(SystemInstruction(systemPrompt, profile), IsNewline)
      == SplitWhere(systemPrompt, IsNewline) + ["", ContextHeader,
           "- Fitness Goals: " + DisplayValue(profile, FitnessGoals),
           "- Dietary Restrictions: " + DisplayValue(profile, DietaryRestrictions)]
  {
    var context := ProfileContext(Some(profile));
    ProfileContextLines(Some(profile));
    assert SystemInstruction(systemPrompt, profile) == systemPrompt + ['\n'] + ([] + ['\n'] + context);
    SplitConcat(systemPrompt, '\n', [] + ['\n'] + context, IsNewline);
    SplitConcat([], '\n', context, IsNewline);
  }

  // ----------------------------------------------------- detect_profile_updates

  /** What `detect_profile_updates` returns for the extraction model's outcome:
      a failed call, an undecodable reply and a payload that is not an object all
      give `{}`; otherwise the fields that differ from the stored profile. */
  function UpdatesFromReply(reply: ModelOutcome, profile: Profile, decode: string -> Option<Json>): (updates: Updates)
    ensures updates.Keys <= set f | f in ProfileFields
    ensures AllNormal(updates)
    ensures forall f :: f in updates ==> StoredValue(Some(profile), f) != Some(updates[f])
  {
    match reply
    case Failed(_) => map[]
    case Replied(text) =>
      var decoded := decode(text.GetOr(""));
      ParsedUpdatesAreNormal(decoded);
      match ProfileUpdate(decoded)
      case Failure(_) => map[]
      case Success(parsed) => ProfileDiff(Some(profile), parsed)
  }

  /** `detect_profile_updates`, with the extraction call as the parameter
      `extract` (given the message and the profile) and `json.loads` as `decode`. */
  function DetectProfileUpdates(message: string, profile: Profile, extract: (string, Profile) -> ModelOutcome,
                                decode: string -> Option<Json>): (updates: Updates)
    ensures extract(message, profile).Failed? ==> updates == map[]
    ensures updates.Keys <= set f | f in ProfileFields
    ensures AllNormal(updates)
    ensures forall f :: f in updates ==> StoredValue(Some(profile), f) != Some(updates[f])
  {
    UpdatesFromReply(extract(message, profile), profile, decode)
  }

  /** Every failure on the way is swallowed into an empty update set. */
  lemma DetectSwallowsFailures(reply: ModelOutcome, profile: Profile, decode: string -> Option<Json>)
    ensures reply.Failed? ==> UpdatesFromReply(reply, profile, decode) == map[]
    ensures reply.Replied? && decode(reply.text.GetOr("")).None? ==> UpdatesFromReply(reply, profile, decode) == map[]
    ensures reply.Replied? && decode(reply.text.GetOr("")).Some? && !decode(reply.text.GetOr("")).value.JObject?
      ==> UpdatesFromReply(reply, profile, decode) == map[]
  {
  }

  /** Once the detected updates are applied, the same reply detects nothing more. */
  lemma DetectAfterMergeIsEmpty(reply: ModelOutcome, profile: Profile, decode: string -> Option<Json>)
    ensures var updates := UpdatesFromReply(reply, profile, decode);
      UpdatesFromReply(reply, Merge(profile, updates), decode) == map[]
  {
    if reply.Replied? {
      var decoded := decode(reply.text.GetOr(""));
      ParsedUpdatesAreNormal(decoded);
      if ProfileUpdate(decoded).Success? {
        var parsed := ProfileUpdate(decoded).value;
        DiffAfterMergeIsEmpty(Some(profile), parsed);
      }
    }
  }
}
