/**
 * The signed-in user's own profile: `updateProfile` validates the update, checks that the
 * caller edits their own profile, writes the `users` row and then the `settings` row, and
 * `getProfileData` reads both back for the settings page.
 */
module ProfileActions {
  import opened Wrappers
  import opened Db
  import opened Guards
  import opened Schemas

  const NotOwnProfile := "Unauthorized: Cannot modify another user's profile"
  const ProfileWriteFailed := "Failed to update profile"
  const SettingsWriteFailed := "Failed to update settings"
  const ProfileLoadFailed := "Failed to load profile"

  /** Whether the update names any column of the `users` row (`Object.keys(userUpdates).length > 0`). */
  predicate HasUserUpdates(input: UpdateProfileInput) {
    input.name.Some? || input.phone.Some?
  }

  /** The phone column a submitted phone becomes: the empty string is stored as null. */
  function StoredPhone(phone: string): (r: Option<string>)
    ensures r.None? <==> phone == ""
    ensures r.Some? ==> r.value == phone
  {
    if phone == "" then None else Some(phone)
  }

  /** A `users` row with the submitted name and phone applied; the other columns are kept. */
  function UserUpdate(row: UserRow, input: UpdateProfileInput): (r: UserRow)
    ensures r.role == row.role && r.email == row.email
    ensures r.leadershipPurpose == row.leadershipPurpose && r.padletUrl == row.padletUrl
    ensures r.name == (if input.name.Some? then input.name.value else row.name)
    ensures r.phone == (if input.phone.Some? then StoredPhone(input.phone.value) else row.phone)
  {
    var named := if input.name.Some? then row.(name := input.name.value) else row;
    if input.phone.Some? then named.(phone := StoredPhone(input.phone.value)) else named
  }

  /** The `users` table after the update; an update of a missing row changes nothing. */
  function UsersAfter(users: map<Id, UserRow>, input: UpdateProfileInput): map<Id, UserRow>
  {
    if input.userId in users && HasUserUpdates(input)
    then users[input.userId := UserUpdate(users[input.userId], input)]
    else users
  }

  /** The `settings` table after the update; an update of a missing row changes nothing. */
  function SettingsAfter(settings: map<Id, SettingsRow>, input: UpdateProfileInput): map<Id, SettingsRow>
  {
    if input.userId in settings && input.receiveWeeklyNudge.Some?
    then settings[input.userId := SettingsRow(input.receiveWeeklyNudge.value)]
    else settings
  }

  /**
   * `updateProfile`. The checks come in order: the schema (its first message), authentication,
   * ownership. Then the `users` write if the update names a column, then the `settings` write if
   * it names the nudge preference. The two writes are separate: when the second fails, the first
   * stays applied.
   */
  method UpdateProfile(db: Store, input: UpdateProfileInput, usersWriteFails: bool, settingsWriteFails: bool)
    returns (r: ActionResult<()>)
    modifies db
    ensures ValidateUpdateProfile(input).Some? ==> r == Failure(ValidateUpdateProfile(input).value)
    ensures ValidateUpdateProfile(input).None? && old(db.caller).None? ==> r == Failure(NotAuthenticated)
    ensures ValidateUpdateProfile(input).None? && old(db.caller).Some? && old(db.caller).value != input.userId ==>
              r == Failure(NotOwnProfile)
    ensures r.Success? <==>
              && IsValidUpdateProfile(input) && old(db.caller) == Some(input.userId)
              && !(HasUserUpdates(input) && usersWriteFails)
              && !(input.receiveWeeklyNudge.Some? && settingsWriteFails)
    ensures IsValidUpdateProfile(input) && old(db.caller) == Some(input.userId) && HasUserUpdates(input) && usersWriteFails ==>
              r == Failure(ProfileWriteFailed)
    ensures IsValidUpdateProfile(input) && old(db.caller) == Some(input.userId) && !(HasUserUpdates(input) && usersWriteFails)
            && input.receiveWeeklyNudge.Some? && settingsWriteFails ==>
              r == Failure(SettingsWriteFailed)
    ensures r == Failure(ProfileWriteFailed) ==> unchanged(db)
    ensures r == Failure(SettingsWriteFailed) ==>
              && db.users == UsersAfter(old(db.users), input)
              && unchanged(db`themes, db`actions, db`settings, db`copy, db`nudges, db`caller)
    ensures r.Success? ==>
              && db.users == UsersAfter(old(db.users), input)
              && db.settings == SettingsAfter(old(db.settings), input)
              && unchanged(db`themes, db`actions, db`copy, db`nudges, db`caller)
    ensures r.Failure? && r.error != SettingsWriteFailed ==> unchanged(db)
  {
    var invalid := ValidateUpdateProfile(input);
    if invalid.Some? {
      return Failure(invalid.value);
    }
    if db.caller.None? {
      return Failure(NotAuthenticated);
    }
    if db.caller.value != input.userId {
      return Failure(NotOwnProfile);
    }
    if HasUserUpdates(input) {
      if usersWriteFails {
        return Failure(ProfileWriteFailed);
      }
      db.users := UsersAfter(db.users, input);
    }
    if input.receiveWeeklyNudge.Some? {
      if settingsWriteFails {
        return Failure(SettingsWriteFailed);
      }
      db.settings := SettingsAfter(db.settings, input);
    }
    r := Success(());
  }

  /** The update touches only the caller's own rows; every other user's rows are kept. */
  lemma UpdateTouchesOnlyOwnRows(users: map<Id, UserRow>, settings: map<Id, SettingsRow>,
                                 input: UpdateProfileInput, other: Id)
    requires other != input.userId
    ensures other in UsersAfter(users, input) <==> other in users
    ensures other in users ==> UsersAfter(users, input)[other] == users[other]
    ensures other in SettingsAfter(settings, input) <==> other in settings
    ensures other in settings ==> SettingsAfter(settings, input)[other] == settings[other]
  {
  }

  /** Applying the same update twice leaves the tables as applying it once. */
  lemma UpdateIdempotent(users: map<Id, UserRow>, settings: map<Id, SettingsRow>, input: UpdateProfileInput)
    ensures UsersAfter(UsersAfter(users, input), input) == UsersAfter(users, input)
    ensures SettingsAfter(SettingsAfter(settings, input), input) == SettingsAfter(settings, input)
  {
  }

  /** Submitting an empty phone clears the stored phone; submitting no phone keeps it. */
  lemma EmptyPhoneClearsPhone(users: map<Id, UserRow>, input: UpdateProfileInput)
    requires input.userId in users
    ensures input.phone == Some("") ==> UsersAfter(users, input)[input.userId].phone.None?
    ensures input.phone.None? ==> UsersAfter(users, input)[input.userId].phone == users[input.userId].phone
  {
  }

  /** What the settings page receives about the signed-in user. */
  datatype ProfileView = ProfileView(id: Id, name: string, email: string, phone: Option<string>, receiveWeeklyNudge: bool)

  /**
   * `getProfileData`: authentication, then the caller's `users` row (a missing row is a failed
   * load); a missing `settings` row reads as the default, weekly nudges on.
   */
  function GetProfileData(users: map<Id, UserRow>, settings: map<Id, SettingsRow>, caller: Option<Id>): (r: ActionResult<ProfileView>)
    ensures caller.None? ==> r == Failure(NotAuthenticated)
    ensures caller.Some? && caller.value !in users ==> r == Failure(ProfileLoadFailed)
    ensures r.Success? <==> caller.Some? && caller.value in users
    ensures r.Success? ==>
              && r.data.id == caller.value
              && r.data.name == users[caller.value].name
              && r.data.email == users[caller.value].email
              && r.data.phone == users[caller.value].phone
              && r.data.receiveWeeklyNudge == (caller.value !in settings || settings[caller.value].receiveWeeklyNudge)
  {
    if caller.None? then Failure(NotAuthenticated)
    else if caller.value !in users then Failure(ProfileLoadFailed)
    else
      var row := users[caller.value];
      var nudge := if caller.value in settings then settings[caller.value].receiveWeeklyNudge else true;
      Success(ProfileView(caller.value, row.name, row.email, row.phone, nudge))
  }

  /** After a successful update, the profile read back shows the submitted name, phone and preference. */
  lemma UpdateThenReadBack(users: map<Id, UserRow>, settings: map<Id, SettingsRow>, input: UpdateProfileInput)
    requires input.userId in users && input.userId in settings
    ensures var view := GetProfileData(UsersAfter(users, input), SettingsAfter(settings, input), Some(input.userId));
            && view.Success?
            && (input.name.Some? ==> view.data.name == input.name.value)
            && (input.phone.Some? ==> view.data.phone == StoredPhone(input.phone.value))
            && (input.receiveWeeklyNudge.Some? ==> view.data.receiveWeeklyNudge == input.receiveWeeklyNudge.value)
            && view.data.email == users[input.userId].email
  {
  }
}
