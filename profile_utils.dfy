/** The profile diff engine of backend/profile_utils.py: normalising optional
    strings, rendering the profile summary, reducing a decoded JSON payload to the
    known fields, and computing the fields that actually changed. */
module ProfileUtils {
  import opened Wrappers
  import opened Strings

  const FitnessGoals: string := "fitness_goals"
  const DietaryRestrictions: string := "dietary_restrictions"

  /** `PROFILE_FIELDS`, in declaration order. */
  const ProfileFields: seq<string> := [FitnessGoals, DietaryRestrictions]

  /** A stored profile: a missing key and a `None` value both mean "not provided". */
  type Profile = map<string, Option<string>>

  /** Field name to new value. */
  type Updates = map<string, string>

  /** A decoded JSON value, as `json.loads` returns it; numbers, booleans and
      arrays are all `JOther`, since the engine only tells strings apart. */
  datatype Json = JObject(members: map<string, Json>) | JString(text: string) | JNull | JOther

  /** The exception that escapes `parse_profile_update`: `payload.get` on a
      well-formed payload that is not an object raises `AttributeError`. */
  datatype ParseError = NotAnObject

  predicate IsBlank(s: string) {
    AllIn(s, IsPySpace)
  }

  /** A value `_normalize` can return: non-empty and already stripped. */
  predicate IsNormal(s: string) {
    s != "" && Clean(s, IsPySpace)
  }

  /** `_normalize`: `None` and blank strings become `None`, anything else is stripped. */
  function Normalize(value: Option<string>): (r: Option<string>)
    ensures r.None? <==> value.None? || IsBlank(value.value)
    ensures r.Some? ==> IsNormal(r.value)
  {
    match value
    case None => None
    case Some(v) =>
      var cleaned := Strip(v);
      TrimEmptyIff(v, IsPySpace);
      if cleaned != "" then Some(cleaned) else None
  }

  /** Normalising twice changes nothing more than normalising once. */
  lemma NormalizeIdempotent(value: Option<string>)
    ensures Normalize(Normalize(value)) == Normalize(value)
  {
    if value.Some? && Normalize(value).Some? {
      TrimClean(Normalize(value).value, IsPySpace);
    }
  }

  /** `profile.get(field)`. */
  function Lookup(profile: Profile, field: string): Option<string> {
    if field in profile then profile[field] else None
  }

  /** The stored value of `field` as the engine sees it: `profile or {}`, then
      `_normalize(profile.get(field))`. */
  function StoredValue(current: Option<Profile>, field: string): Option<string> {
    Normalize(Lookup(current.GetOr(map[]), field))
  }

  // ---------------------------------------------------------------- rendering

  const ContextHeader: string := "User Profile Context"
  const NotProvided: string := "Not provided"

  /** `field.replace("_", " ").title()` for each field of `ProfileFields`. */
  const ProfileLabels: seq<string> := ["Fitness Goals", "Dietary Restrictions"]

  /** `_normalize(profile.get(field)) or "Not provided"`. */
  function DisplayValue(profile: Profile, field: string): string {
    Normalize(Lookup(profile, field)).GetOr(NotProvided)
  }

  /** The line for the `i`-th field: "- Label: value". */
  function ContextLine(profile: Profile, i: nat): string
    requires i < |ProfileFields|
  {
    "- " + ProfileLabels[i] + ": " + DisplayValue(profile, ProfileFields[i])
  }

  /** The lines `format_profile_context` joins: the header, then one line for
      each of the first `n` fields, in `PROFILE_FIELDS` order. */
  function ContextLines(profile: Profile, n: nat): seq<string>
    requires n <= |ProfileFields|
  {
    if n == 0 then [ContextHeader]
    else ContextLines(profile, n - 1) + [ContextLine(profile, n - 1)]
  }

  /** The summary `format_profile_context` returns; `None` is the empty profile. */
  function ProfileContext(profile: Option<Profile>): string {
    Join(ContextLines(profile.GetOr(map[]), |ProfileFields|), "\n")
  }

  /** `format_profile_context`: the loop over `PROFILE_FIELDS` that appends one
      line per field, then joins the lines with newlines. */
  method FormatProfileContext(profile: Option<Profile>) returns (text: string)
    ensures text == ProfileContext(profile)
  {
    var p := profile.GetOr(map[]);
    var lines := [ContextHeader];
    for i := 0 to |ProfileFields|
      invariant lines == ContextLines(p, i)
    {
      var field, title := ProfileFields[i], ProfileLabels[i];
      var value := Normalize(Lookup(p, field)).GetOr(NotProvided);
      lines := lines + ["- " + title + ": " + value];
    }
    text := Join(lines, "\n");
  }

  /** A field that is absent, `None` or blank shows "Not provided"; any other
      shows its stripped value. */
  lemma DisplayValueCases(profile: Profile, field: string)
    ensures Lookup(profile, field).None? || IsBlank(Lookup(profile, field).value)
      ==> DisplayValue(profile, field) == NotProvided
    ensures Lookup(profile, field).Some? && !IsBlank(Lookup(profile, field).value)
      ==> DisplayValue(profile, field) == Strip(Lookup(profile, field).value) != ""
  {
    var v := Lookup(profile, field);
    if v.Some? {
      TrimEmptyIff(v.value, IsPySpace);
    }
  }

  /** The three lines of the summary, spelled out. */
  lemma {:induction false} AllContextLines(p: Profile)
    ensures ContextLines(p, |ProfileFields|) == [
      ContextHeader,
      "- Fitness Goals: " + DisplayValue(p, FitnessGoals),
      "- Dietary Restrictions: " + DisplayValue(p, DietaryRestrictions)]
  {
    assert "- " + ProfileLabels[0] + ": " == "- Fitness Goals: ";
    assert "- " + ProfileLabels[1] + ": " == "- Dietary Restrictions: ";
    assert ContextLines(p, 1) == [ContextHeader, ContextLine(p, 0)];
  }

  lemma NoNewlineIn(prefix: string, value: string)
    requires NoneIn(prefix, IsNewline) && '\n' !in value
    ensures NoneIn(prefix + value, IsNewline)
  {
    forall k | 0 <= k < |prefix + value|
      ensures !IsNewline((prefix + value)[k])
    {
      if k >= |prefix| {
        assert (prefix + value)[k] == value[k - |prefix|];
      }
    }
  }

  /** The summary starts with the header line and then holds exactly one
      "- Label: value" line per field, in `PROFILE_FIELDS` order, as long as no
      displayed value itself contains a newline. */
  lemma ProfileContextLines(profile: Option<Profile>)
    requires forall f :: f in ProfileFields ==> '\n' !in DisplayValue(profile.GetOr(map[]), f)
    ensures SplitWhere(ProfileContext(profile), IsNewline) == [
      ContextHeader,
      "- Fitness Goals: " + DisplayValue(profile.GetOr(map[]), FitnessGoals),
      "- Dietary Restrictions: " + DisplayValue(profile.GetOr(map[]), DietaryRestrictions)]
  {
    var p := profile.GetOr(map[]);
    var lines := ContextLines(p, |ProfileFields|);
    AllContextLines(p);
    NoNewlineIn("- Fitness Goals: ", DisplayValue(p, FitnessGoals));
    NoNewlineIn("- Dietary Restrictions: ", DisplayValue(p, DietaryRestrictions));
    assert NoneIn(ContextHeader, IsNewline);
    SplitJoin(lines, '\n', IsNewline);
  }

  /** With nothing stored, both fields render as "Not provided". */
  lemma EmptyProfileContext()
    ensures ProfileContext(None) == Join([
      "User Profile Context",
      "- Fitness Goals: Not provided",
      "- Dietary Restrictions: Not provided"], "\n")
  {
    AllContextLines(map[]);
    assert DisplayValue(map[], FitnessGoals) == NotProvided;
    assert DisplayValue(map[], DietaryRestrictions) == NotProvided;
    assert "- Fitness Goals: " + NotProvided == "- Fitness Goals: Not provided";
    assert "- Dietary Restrictions: " + NotProvided == "- Dietary Restrictions: Not provided";
  }

  // ------------------------------------------------------------------ parsing

  /** The value `parse_profile_update` keeps for `field`, if any: a JSON string
      that is not blank, stripped. */
  function FieldUpdate(members: map<string, Json>, field: string): Option<string> {
    if field in members && members[field].JString? then Normalize(Some(members[field].text))
    else None
  }

  /** The updates kept from the first `n` fields of `PROFILE_FIELDS`. */
  function UpdatesFrom(members: map<string, Json>, n: nat): Updates
    requires n <= |ProfileFields|
  {
    if n == 0 then map[]
    else
      var updates := UpdatesFrom(members, n - 1);
      var field := ProfileFields[n - 1];
      match FieldUpdate(members, field)
      case Some(cleaned) => updates[field := cleaned]
      case None => updates
  }

  /** What `parse_profile_update` returns for the outcome of `json.loads`
      (`None` for a `JSONDecodeError`). */
  function ProfileUpdate(decoded: Option<Json>): Result<Updates, ParseError> {
    match decoded
    case None => Success(map[])
    case Some(JObject(members)) => Success(UpdatesFrom(members, |ProfileFields|))
    case Some(_) => Failure(NotAnObject)
  }

  /** `parse_profile_update`; the textual decoding `json.loads` is the parameter
      `decode`, which yields `None` where it would raise `JSONDecodeError`. */
  method ParseProfileUpdate(rawText: string, decode: string -> Option<Json>)
    returns (r: Result<Updates, ParseError>)
    ensures r == ProfileUpdate(decode(rawText))
  {
    var payload := decode(rawText);
    if payload.None? {
      return Success(map[]);
    }
    var updates: Updates := map[];
    for i := 0 to |ProfileFields|
      invariant i > 0 ==> payload.value.JObject?
      invariant payload.value.JObject? ==> updates == UpdatesFrom(payload.value.members, i)
    {
      if !payload.value.JObject? {
        return Failure(NotAnObject);
      }
      var field := ProfileFields[i];
      var members := payload.value.members;
      if field in members && members[field].JString? {
        var cleaned := Normalize(Some(members[field].text));
        if cleaned.Some? {
          updates := updates[field := cleaned.value];
        }
      }
    }
    return Success(updates);
  }

  lemma {:induction false} UpdatesFromContents(members: map<string, Json>, n: nat, field: string)
    requires n <= |ProfileFields|
    ensures field in UpdatesFrom(members, n) <==> field in ProfileFields[..n] && FieldUpdate(members, field).Some?
    ensures field in UpdatesFrom(members, n) ==> UpdatesFrom(members, n)[field] == FieldUpdate(members, field).value
  {
    if n > 0 {
      UpdatesFromContents(members, n - 1, field);
      assert ProfileFields[..n] == ProfileFields[..n - 1] + [ProfileFields[n - 1]];
    }
  }

  /** What a parsed update holds: only known fields; each exactly when the
      payload has a non-blank string there; and then its stripped text. */
  lemma ProfileUpdateContents(members: map<string, Json>, field: string)
    ensures var u := ProfileUpdate(Some(JObject(members))).value;
      && (field in u <==> field in ProfileFields && field in members
                          && members[field].JString? && !IsBlank(members[field].text))
      && (field in u ==> IsNormal(u[field]) && u[field] == Strip(members[field].text))
  {
    UpdatesFromContents(members, |ProfileFields|, field);
    assert ProfileFields[..|ProfileFields|] == ProfileFields;
    if field in members && members[field].JString? {
      TrimEmptyIff(members[field].text, IsPySpace);
    }
  }

  /** Every value a parsed update holds is already normal. */
  predicate AllNormal(updates: Updates) {
    forall f :: f in updates ==> IsNormal(updates[f])
  }

  /** A decode error yields no updates rather than an error; a well-formed
      payload that is not an object is the one error that escapes; and a parsed
      update names known fields only, and only with normal values. */
  lemma ParsedUpdatesAreNormal(decoded: Option<Json>)
    ensures decoded.None? ==> ProfileUpdate(decoded) == Success(map[])
    ensures ProfileUpdate(decoded).Failure? <==> decoded.Some? && !decoded.value.JObject?
    ensures ProfileUpdate(decoded).Success? ==>
      && ProfileUpdate(decoded).value.Keys <= set f | f in ProfileFields
      && AllNormal(ProfileUpdate(decoded).value)
  {
    if decoded.Some? && decoded.value.JObject? {
      var u := ProfileUpdate(decoded).value;
      forall f | f in u
        ensures f in ProfileFields && IsNormal(u[f])
      {
        ProfileUpdateContents(decoded.value.members, f);
      }
    }
  }

  // ------------------------------------------------------------------ diffing

  /** The minimal update set: the updates whose value differs from the
      normalised stored value (an absent, `None` or blank stored value differs
      from every string). */
  function ProfileDiff(current: Option<Profile>, updates: Updates): (diff: Updates)
    ensures diff.Keys <= updates.Keys
    ensures forall f :: f in diff ==> diff[f] == updates[f]
  {
    map f | f in updates && Some(updates[f]) != StoredValue(current, f) :: updates[f]
  }

  /** `diff_profile`: the loop over `updates` that keeps the changed entries. */
  method DiffProfile(current: Option<Profile>, updates: Updates) returns (diff: Updates)
    ensures diff == ProfileDiff(current, updates)
  {
    var stored := current.GetOr(map[]);
    diff := map[];
    var pending := updates.Keys;
    while pending != {}
      invariant pending <= updates.Keys
      invariant diff == map f | f in updates.Keys - pending && Some(updates[f]) != StoredValue(current, f) :: updates[f]
      decreases pending
    {
      var field :| field in pending;
      var existing := Normalize(Lookup(stored, field));
      if Some(updates[field]) != existing {
        diff := diff[field := updates[field]];
      }
      pending := pending - {field};
    }
  }

  /** A field is in the diff exactly when it is updated to a value other than
      the one stored. */
  lemma DiffMembership(current: Option<Profile>, updates: Updates, field: string)
    ensures field in ProfileDiff(current, updates) <==>
      field in updates && (StoredValue(current, field).None? || StoredValue(current, field).value != updates[field])
  {
  }

  /** Updates that repeat the stored values yield an empty diff. */
  lemma DiffOfSameValues(current: Option<Profile>, updates: Updates)
    requires forall f :: f in updates ==> StoredValue(current, f) == Some(updates[f])
    ensures ProfileDiff(current, updates) == map[]
  {
  }

  /** The merge-patch the persistence layer applies for an update set. */
  function Merge(profile: Profile, updates: Updates): (merged: Profile)
    ensures merged.Keys == profile.Keys + updates.Keys
    ensures forall f :: f in updates ==> merged[f] == Some(updates[f])
    ensures forall f :: f in profile && f !in updates ==> merged[f] == profile[f]
  {
    map f | f in profile.Keys + updates.Keys :: if f in updates then Some(updates[f]) else profile[f]
  }

  /** Applying a diff and diffing the same normal updates again finds nothing. */
  lemma DiffAfterMergeIsEmpty(current: Option<Profile>, updates: Updates)
    requires AllNormal(updates)
    ensures ProfileDiff(Some(Merge(current.GetOr(map[]), ProfileDiff(current, updates))), updates) == map[]
  {
    var diff := ProfileDiff(current, updates);
    var merged := Merge(current.GetOr(map[]), diff);
    forall f | f in updates
      ensures StoredValue(Some(merged), f) == Some(updates[f])
    {
      if f in diff {
        TrimClean(updates[f], IsPySpace);
        TrimEmptyIff(updates[f], IsPySpace);
      }
    }
    DiffOfSameValues(Some(merged), updates);
  }

  /** The two scenarios the tests pin down: a changed field and a field with no
      stored value are both kept; identical values are dropped. */
  lemma DiffExamples()
    ensures ProfileDiff(Some(map[FitnessGoals := Some("Maintain weight"), DietaryRestrictions := None]),
                        map[FitnessGoals := "Gain muscle", DietaryRestrictions := "dairy-free"])
         == map[FitnessGoals := "Gain muscle", DietaryRestrictions := "dairy-free"]
    ensures ProfileDiff(Some(map[FitnessGoals := Some("Maintain"), DietaryRestrictions := Some("vegan")]),
                        map[FitnessGoals := "Maintain", DietaryRestrictions := "vegan"])
         == map[]
  {
    TrimClean("Maintain", IsPySpace);
    TrimClean("vegan", IsPySpace);
    TrimClean("Maintain weight", IsPySpace);
  }
}
