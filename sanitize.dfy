/**
 * Input sanitisation: character filtering, truncation, the e-mail shape
 * check and numeric clamping. DOMPurify (`sanitizeText`, `sanitizeHtml`) is a
 * foreign library; each of its uses is a `Purifier` parameter the caller supplies.
 */
module Sanitize {
  import opened Wrappers
  import opened Text
  import Json

  /** A DOMPurify configuration: any string-to-string function. */
  type Purifier = string -> string

  // ---- sanitizePhone ----

  /** `[\d+\-\s()]`. */
  predicate PhoneChar(c: char) {
    IsDigit(c) || c == '+' || c == '-' || IsSpace(c) || c == '(' || c == ')'
  }

  /** `phone.replace(/[^\d+\-\s()]/g, '').trim()`. */
  function SanitizePhone(phone: string): (r: string)
    ensures forall c :: c in r ==> PhoneChar(c) && c in phone
    ensures Trimmed(r)
  {
    Trim(KeepIf(phone, PhoneChar))
  }

  /** Nothing but the disallowed characters and the surrounding white space is lost: every allowed character that is not white space survives. */
  lemma SanitizePhoneKeeps(phone: string, c: char)
    requires c in phone && PhoneChar(c) && !IsSpace(c)
    ensures c in SanitizePhone(phone)
  {
    var kept := KeepIf(phone, PhoneChar);
    assert c in kept;
    var k :| 0 <= k < |kept| && kept[k] == c;
    TrimIsSlice(kept);
    var i := |kept| - |TrimStart(kept)|;
    assert !(k < i) && !(i + |Trim(kept)| <= k);
    assert Trim(kept)[k - i] == c;
  }

  /** Sanitising a sanitised phone number changes nothing. */
  lemma SanitizePhoneIdempotent(phone: string)
    ensures SanitizePhone(SanitizePhone(phone)) == SanitizePhone(phone)
  {
    var r := SanitizePhone(phone);
    assert forall k :: 0 <= k < |r| ==> PhoneChar(r[k]) by {
      forall k | 0 <= k < |r| ensures PhoneChar(r[k]) {
        assert r[k] in r;
      }
    }
    assert KeepIf(r, PhoneChar) == r;
  }

  // ---- sanitizeSearchQuery ----

  /** `[<>"'%;()&+]`. */
  predicate QueryForbidden(c: char) {
    c == '<' || c == '>' || c == '"' || c == '\'' || c == '%' || c == ';' || c == '(' || c == ')' || c == '&' || c == '+'
  }

  predicate QueryAllowed(c: char) { !QueryForbidden(c) }

  const MaxQueryLength: nat := 100

  /** `sanitizeText(query).replace(/[<>"'%;()&+]/g, '').trim().slice(0, 100)`. */
  function SanitizeSearchQuery(query: string, sanitizeText: Purifier): (r: string)
    ensures |r| <= MaxQueryLength
    ensures forall c :: c in r ==> !QueryForbidden(c) && c in sanitizeText(query)
  {
    var t := Trim(KeepIf(sanitizeText(query), QueryAllowed));
    if |t| <= MaxQueryLength then t
    else
      var r := t[..MaxQueryLength];
      assert forall c :: c in r ==> c in t by {
        forall c | c in r ensures c in t {
          var k :| 0 <= k < |r| && r[k] == c;
          assert t[k] == c;
        }
      }
      r
  }

  /** A query the purifier leaves alone, that holds none of the forbidden characters, has no surrounding white space and fits the limit passes unchanged. */
  lemma SanitizeSearchQueryClean(query: string, sanitizeText: Purifier)
    requires sanitizeText(query) == query && Trimmed(query) && |query| <= MaxQueryLength
    requires forall k :: 0 <= k < |query| ==> QueryAllowed(query[k])
    ensures SanitizeSearchQuery(query, sanitizeText) == query
  {
    assert KeepIf(query, QueryAllowed) == query;
  }

  // ---- sanitizeEmail ----

  /** `/^[^\s@]+@[^\s@]+\.[^\s@]+$/`, read off the regular expression: `local@name.tld` with non-empty parts and no white space or second `@`. */
  ghost predicate MatchesEmailPattern(s: string) {
    exists at, dot ::
      && 0 < at && at + 1 < dot && dot + 1 < |s|
      && s[at] == '@' && s[dot] == '.'
      && (forall k :: 0 <= k < |s| ==> !IsSpace(s[k]) && (s[k] == '@' ==> k == at))
  }

  /** The index of the first `c` in `s`, or `|s|` when there is none. */
  function IndexOf(s: string, c: char): (i: nat)
    ensures i <= |s|
    ensures i < |s| ==> s[i] == c
    ensures forall k :: 0 <= k < i ==> s[k] != c
  {
    if s == [] then 0 else if s[0] == c then 0 else 1 + IndexOf(s[1..], c)
  }

  /** The executable shape check: no white space, one `@` after a non-empty local part, and a dot strictly inside the domain. */
  predicate EmailShaped(s: string) {
    var at := IndexOf(s, '@');
    && (forall k | 0 <= k < |s| :: !IsSpace(s[k]))
    && 0 < at < |s|
    && (forall k | at < k < |s| :: s[k] != '@')
    && (exists dot | at + 1 < dot < |s| - 1 :: s[dot] == '.')
  }

  /** The shape check accepts exactly the strings the regular expression matches. */
  lemma EmailShapedIsPattern(s: string)
    ensures EmailShaped(s) <==> MatchesEmailPattern(s)
  {
    if EmailShaped(s) {
      var at := IndexOf(s, '@');
      var dot :| at + 1 < dot < |s| - 1 && s[dot] == '.';
      assert forall k :: 0 <= k < |s| ==> !IsSpace(s[k]) && (s[k] == '@' ==> k == at);
    }
    if MatchesEmailPattern(s) {
      var at, dot :| && 0 < at && at + 1 < dot && dot + 1 < |s|
        && s[at] == '@' && s[dot] == '.'
        && (forall k :: 0 <= k < |s| ==> !IsSpace(s[k]) && (s[k] == '@' ==> k == at));
      assert IndexOf(s, '@') == at;
    }
  }

  /** `sanitizeEmail`: the purified, trimmed, lower-cased address, or the error it throws. */
  function SanitizeEmail(email: string, sanitizeText: Purifier): (r: Result<string, string>)
    ensures var s := Lower(Trim(sanitizeText(email)));
      && (r.Success? <==> MatchesEmailPattern(s))
      && (r.Success? ==> r.value == s)
      && (r.Failure? ==> r.error == "Invalid email format")
    ensures r.Success? ==> Trimmed(r.value) && forall k :: 0 <= k < |r.value| ==> !IsUpper(r.value[k])
  {
    var s := Lower(Trim(sanitizeText(email)));
    EmailShapedIsPattern(s);
    if EmailShaped(s) then Success(s) else Failure("Invalid email format")
  }

  // ---- sanitizeFormData ----

  /** What `sanitizeFormData` makes of one field: strings are purified (with HTML only where allowed), everything else is kept. */
  function SanitizedField(f: Json.Field, allowHtml: Option<seq<string>>, sanitizeHtml: Purifier, sanitizeText: Purifier): (g: Json.Field)
    ensures g.key == f.key
    ensures !f.value.Str? ==> g == f
    ensures f.value.Str? ==> g.value.Str?
  {
    match f.value
    case Str(s) =>
      if allowHtml.Some? && f.key in allowHtml.value then Json.Field(f.key, Json.Str(sanitizeHtml(s)))
      else Json.Field(f.key, Json.Str(sanitizeText(s)))
    case _ => f
  }

  /** `sanitizeFormData`: copies the object and overwrites its string fields one by one. */
  method SanitizeFormData(data: seq<Json.Field>, allowHtml: Option<seq<string>>, sanitizeHtml: Purifier, sanitizeText: Purifier)
    returns (sanitized: seq<Json.Field>)
    ensures |sanitized| == |data|
    ensures Json.Keys(sanitized) == Json.Keys(data)
    ensures forall i :: 0 <= i < |data| ==> sanitized[i] == SanitizedField(data[i], allowHtml, sanitizeHtml, sanitizeText)
  {
    sanitized := data;
    for i := 0 to |data|
      invariant |sanitized| == |data|
      invariant forall j :: 0 <= j < i ==> sanitized[j] == SanitizedField(data[j], allowHtml, sanitizeHtml, sanitizeText)
      invariant forall j :: i <= j < |data| ==> sanitized[j] == data[j]
    {
      var field := sanitized[i];
      if field.value.Str? {
        if allowHtml.Some? && field.key in allowHtml.value {
          sanitized := sanitized[i := Json.Field(field.key, Json.Str(sanitizeHtml(field.value.s)))];
        } else {
          sanitized := sanitized[i := Json.Field(field.key, Json.Str(sanitizeText(field.value.s)))];
        }
      }
    }
  }

  /** Only string fields change, and HTML survives only in the allowed ones. */
  lemma SanitizedFieldFacts(f: Json.Field, allowHtml: Option<seq<string>>, sanitizeHtml: Purifier, sanitizeText: Purifier)
    ensures f.value.Str? && allowHtml.Some? && f.key in allowHtml.value ==>
      SanitizedField(f, allowHtml, sanitizeHtml, sanitizeText).value == Json.Str(sanitizeHtml(f.value.s))
    ensures f.value.Str? && !(allowHtml.Some? && f.key in allowHtml.value) ==>
      SanitizedField(f, allowHtml, sanitizeHtml, sanitizeText).value == Json.Str(sanitizeText(f.value.s))
  {
  }

  // ---- sanitizePropertyRequirement ----

  /** A requirement as the form hands it over; every field may be missing. */
  datatype RequirementInput = RequirementInput(
    propertyType: Option<string>, location: Option<string>,
    budgetMin: Option<int>, budgetMax: Option<int>,
    bedrooms: Option<int>, bathrooms: Option<int>,
    sizeMin: Option<int>, sizeMax: Option<int>,
    amenities: Option<seq<string>>, notes: Option<string>)

  datatype Requirement = Requirement(
    propertyType: string, location: string,
    budgetMin: Option<int>, budgetMax: Option<int>,
    bedrooms: Option<int>, bathrooms: Option<int>,
    sizeMin: Option<int>, sizeMax: Option<int>,
    amenities: Option<seq<string>>, notes: Option<string>)

  /** `x ? Math.max(0, x) : undefined`: a missing or zero number is dropped, a negative one becomes 0. */
  function NonNegative(x: Option<int>): (r: Option<int>)
    ensures r.None? <==> x.None? || x.value == 0
    ensures r.Some? ==> r.value >= 0 && (x.value > 0 ==> r.value == x.value) && (x.value < 0 ==> r.value == 0)
  {
    if x.Some? && x.value != 0 then Some(if x.value > 0 then x.value else 0) else None
  }

  /** `x ? Math.max(0, Math.min(20, x)) : undefined`. */
  function RoomCount(x: Option<int>): (r: Option<int>)
    ensures r.None? <==> x.None? || x.value == 0
    ensures r.Some? ==> 0 <= r.value <= 20 && (0 <= x.value <= 20 ==> r.value == x.value)
    ensures r.Some? && x.value > 20 ==> r.value == 20
    ensures r.Some? && x.value < 0 ==> r.value == 0
  {
    if x.Some? && x.value != 0 then Some(if x.value > 20 then 20 else if x.value < 0 then 0 else x.value) else None
  }

  const MaxNotesLength: nat := 500

  /** `notes ? sanitizeText(notes).slice(0, 500) : undefined`. */
  function SanitizeNotes(notes: Option<string>, sanitizeText: Purifier): (r: Option<string>)
    ensures r.None? <==> notes.None? || notes.value == ""
    ensures r.Some? ==> |r.value| <= MaxNotesLength && |r.value| <= |sanitizeText(notes.value)| && r.value == sanitizeText(notes.value)[..|r.value|]
    ensures r.Some? && |sanitizeText(notes.value)| <= MaxNotesLength ==> r.value == sanitizeText(notes.value)
    ensures r.Some? && |sanitizeText(notes.value)| > MaxNotesLength ==> r.value == sanitizeText(notes.value)[..MaxNotesLength]
  {
    if notes.Some? && notes.value != "" then
      var n := sanitizeText(notes.value);
      Some(if |n| <= MaxNotesLength then n else n[..MaxNotesLength])
    else None
  }

  /** `amenities?.map(a => sanitizeText(a))`. */
  function SanitizeAmenities(amenities: Option<seq<string>>, sanitizeText: Purifier): (r: Option<seq<string>>)
    ensures r.None? <==> amenities.None?
    ensures r.Some? ==> |r.value| == |amenities.value|
    ensures r.Some? ==> forall i :: 0 <= i < |r.value| ==> r.value[i] == sanitizeText(amenities.value[i])
  {
    if amenities.Some? then
      Some(seq(|amenities.value|, i requires 0 <= i < |amenities.value| => sanitizeText(amenities.value[i])))
    else None
  }

  /** `sanitizePropertyRequirement`: text is purified, with `''` for a missing type or location; the numbers are dropped when falsy and clamped otherwise. */
  function SanitizePropertyRequirement(data: RequirementInput, sanitizeText: Purifier): (r: Requirement)
    ensures r.propertyType == sanitizeText(data.propertyType.GetOr(""))
    ensures r.location == sanitizeText(data.location.GetOr(""))
    ensures r.bedrooms.Some? ==> 0 <= r.bedrooms.value <= 20
    ensures r.bathrooms.Some? ==> 0 <= r.bathrooms.value <= 20
    ensures r.budgetMin.Some? ==> r.budgetMin.value >= 0
    ensures r.budgetMax.Some? ==> r.budgetMax.value >= 0
    ensures r.sizeMin.Some? ==> r.sizeMin.value >= 0
    ensures r.sizeMax.Some? ==> r.sizeMax.value >= 0
    ensures r.notes.Some? ==> |r.notes.value| <= MaxNotesLength
    ensures r.amenities.None? <==> data.amenities.None?
    ensures r.budgetMin == NonNegative(data.budgetMin) && r.budgetMax == NonNegative(data.budgetMax)
    ensures r.sizeMin == NonNegative(data.sizeMin) && r.sizeMax == NonNegative(data.sizeMax)
    ensures r.bedrooms == RoomCount(data.bedrooms) && r.bathrooms == RoomCount(data.bathrooms)
    ensures r.amenities == SanitizeAmenities(data.amenities, sanitizeText)
    ensures r.notes == SanitizeNotes(data.notes, sanitizeText)
  {
    Requirement(
      sanitizeText(if data.propertyType.Some? && data.propertyType.value != "" then data.propertyType.value else ""),
      sanitizeText(if data.location.Some? && data.location.value != "" then data.location.value else ""),
      NonNegative(data.budgetMin), NonNegative(data.budgetMax),
      RoomCount(data.bedrooms), RoomCount(data.bathrooms),
      NonNegative(data.sizeMin), NonNegative(data.sizeMax),
      SanitizeAmenities(data.amenities, sanitizeText),
      SanitizeNotes(data.notes, sanitizeText))
  }
}
