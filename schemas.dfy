/**
 * The input schemas, restated as predicates over the parsed input. Lengths are
 * string lengths; `min(1)` and `max(n)` bound them on both sides.
 */
module Schemas {
  import opened Wrappers

  predicate IsHexDigit(c: char) {
    ('0' <= c <= '9') || ('a' <= c <= 'f') || ('A' <= c <= 'F')
  }

  predicate IsDigit(c: char) {
    '0' <= c <= '9'
  }

  /**
   * The text form of a UUID (section 3 of RFC 4122): 8-4-4-4-12 hexadecimal digits separated
   * by hyphens, upper or lower case.
   */
  predicate IsUuid(s: string) {
    |s| == 36 &&
    forall i :: 0 <= i < 36 ==>
      if i == 8 || i == 13 || i == 18 || i == 23 then s[i] == '-' else IsHexDigit(s[i])
  }

  /** `userRoleSchema`: exactly `client` or `coach`. */
  predicate IsRole(s: string) {
    s == "client" || s == "coach"
  }

  /** `^\+[1-9]\d{1,14}$`: a plus sign, a non-zero digit, then 1 to 14 further digits. */
  predicate IsE164(s: string) {
    3 <= |s| <= 16 && s[0] == '+' && '1' <= s[1] <= '9' &&
    forall i :: 2 <= i < |s| ==> IsDigit(s[i])
  }

  /** `phoneSchema`: the empty string (no phone) or an E.164 number. */
  predicate IsValidPhone(s: string) {
    s == "" || IsE164(s)
  }

  /** A phone without the leading plus is rejected; a full E.164 number passes. */
  lemma PhoneExamples()
    ensures !IsValidPhone("5551234")
    ensures IsValidPhone("+14155551234")
    ensures !IsValidPhone("+1")
    ensures !IsValidPhone("+0123")
  {
    assert "5551234"[0] != '+';
    assert "+0123"[1] == '0';
  }

  /** `min(lo).max(hi)` on a string. */
  predicate LengthWithin(s: string, lo: nat, hi: nat) {
    lo <= |s| <= hi
  }

  /** `saveThemeSchema`: a UUID user id and a theme text of 1 to 500 characters. */
  predicate IsValidSaveTheme(userId: string, themeText: string) {
    IsUuid(userId) && LengthWithin(themeText, 1, 500)
  }

  /** `saveProgressSchema`: a UUID user id and an entry of 1 to 2000 characters. */
  predicate IsValidSaveProgress(userId: string, text: string) {
    IsUuid(userId) && LengthWithin(text, 1, 2000)
  }

  /** `weeklyActionSchema`: 1 to 500 characters. */
  predicate IsValidWeeklyAction(text: string) {
    LengthWithin(text, 1, 500)
  }

  /** `saveWeeklyActionsSchema`: a UUID user id and 1 to 10 valid actions. */
  predicate IsValidSaveWeeklyActions(userId: string, actions: seq<string>) {
    IsUuid(userId) && 1 <= |actions| <= 10 &&
    forall i :: 0 <= i < |actions| ==> IsValidWeeklyAction(actions[i])
  }

  /** `updateNudgePreferenceSchema` and `toggleActionCompleteSchema`: a UUID (the flag is typed). */
  predicate IsValidIdWithFlag(id: string) {
    IsUuid(id)
  }

  /** `sendNudgeSchema`: a UUID client id and a message of 1 to 320 characters. */
  predicate IsValidSendNudge(clientId: string, messageText: string) {
    IsUuid(clientId) && LengthWithin(messageText, 1, 320)
  }

  /**
   * `userProfileSchema`: a name of 1 to 100 characters, an email accepted by the schema library's
   * email check (the parameter `isEmail`), and any phone, which may be absent or null (`None`).
   */
  predicate IsValidUserProfile(name: string, email: string, phone: Option<string>, isEmail: string -> bool) {
    LengthWithin(name, 1, 100) && isEmail(email)
  }

  // ---------------------------------------------------------------------------
  // updateProfileSchema, with the message of the first violated constraint
  // ---------------------------------------------------------------------------

  datatype UpdateProfileInput = UpdateProfileInput(
    userId: string,
    name: Option<string>,
    phone: Option<string>,
    receiveWeeklyNudge: Option<bool>)

  /** A UUID user id; a name, if present, of 1 to 100 characters; a phone, if present, valid. */
  predicate IsValidUpdateProfile(input: UpdateProfileInput) {
    && IsUuid(input.userId)
    && (input.name.Some? ==> LengthWithin(input.name.value, 1, 100))
    && (input.phone.Some? ==> IsValidPhone(input.phone.value))
  }

  const InvalidUserIdMessage := "Invalid user ID"
  const NameRequiredMessage := "Name is required"
  /** The schema library's own message for a `max(100)` violation. */
  const NameTooLongMessage := "String must contain at most 100 character(s)"
  const PhoneFormatMessage := "Enter phone in format +1234567890"

  /**
   * Parses an update: `None` when it is valid, otherwise the message of the first problem,
   * fields taken in declaration order (userId, name, phone).
   */
  function ValidateUpdateProfile(input: UpdateProfileInput): (r: Option<string>)
    ensures r.None? <==> IsValidUpdateProfile(input)
    ensures !IsUuid(input.userId) ==> r == Some(InvalidUserIdMessage)
    ensures IsUuid(input.userId) && input.name.Some? && |input.name.value| < 1 ==> r == Some(NameRequiredMessage)
    ensures IsUuid(input.userId) && input.name.Some? && |input.name.value| > 100 ==> r == Some(NameTooLongMessage)
    ensures (&& IsUuid(input.userId)
             && (input.name.Some? ==> LengthWithin(input.name.value, 1, 100))
             && input.phone.Some? && !IsValidPhone(input.phone.value)) ==>
              r == Some(PhoneFormatMessage)
    ensures r.Some? ==> r.value in {InvalidUserIdMessage, NameRequiredMessage, NameTooLongMessage, PhoneFormatMessage}
  {
    if !IsUuid(input.userId) then Some(InvalidUserIdMessage)
    else if input.name.Some? && |input.name.value| < 1 then Some(NameRequiredMessage)
    else if input.name.Some? && |input.name.value| > 100 then Some(NameTooLongMessage)
    else if input.phone.Some? && !IsValidPhone(input.phone.value) then Some(PhoneFormatMessage)
    else None
  }

  /** Only the user id is required: an update that names no field at all is valid. */
  lemma OnlyUserIdRequired(userId: string)
    requires IsUuid(userId)
    ensures ValidateUpdateProfile(UpdateProfileInput(userId, None, None, None)) == None
  {
  }
}
