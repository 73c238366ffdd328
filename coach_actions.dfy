/**
 * The coach's actions on a client's data. Each action runs a fixed chain of checks
 * (identifier shapes, text rules, `verifyCoachAccess`, ownership of the addressed row)
 * and only then issues its one write through the privileged store handle. The chain of
 * each action is a function (`...Checks`); the action is a method on the store that
 * writes exactly when its chain passes and the store accepts the write.
 */
module CoachActions {
  import opened Wrappers
  import opened Text
  import opened Db
  import opened Guards
  import opened Schemas

  const InvalidClientId := "Invalid client ID"
  const InvalidThemeId := "Invalid theme ID"
  const InvalidHypothesisId := "Invalid hypothesis ID"
  const ThemeNotFound := "Theme not found"
  const HypothesisNotFound := "Hypothesis not found"
  const ThemeNameRequired := "Theme name is required"
  const ThemeNameTooLong := "Theme name must be less than 100 characters"
  const HypothesisRequired := "Hypothesis text is required"
  const HypothesisTooLong := "Hypothesis must be less than 500 characters"
  const PurposeTooLong := "Purpose must be less than 500 characters"
  const DescriptionTooLong := "Description must be less than 2000 characters"
  const UrlTooLong := "URL is too long (max 2048 characters)"
  const UrlNotHttps := "Please enter a valid HTTPS URL"

  // ---------------------------------------------------------------------------
  // Text rules and normalisations
  // ---------------------------------------------------------------------------

  /** `text.trim() || null`: the trimmed text, or nothing when it is blank. */
  function NormalizeOptionalText(text: string): (r: Option<string>)
    ensures r.None? <==> IsBlank(text)
    ensures r.Some? ==> r.value != "" && Trim(r.value) == r.value && r.value == Trim(text)
  {
    TrimIdempotent(text);
    if IsBlank(text) then None else Some(Trim(text))
  }

  /** A required text: not blank (`!text || !text.trim()`), then at most `maxLength` characters as typed. */
  function RequiredTextCheck(text: string, maxLength: nat, required: string, tooLong: string): (g: Guard)
    ensures g.Pass? <==> !IsBlank(text) && |text| <= maxLength
    ensures IsBlank(text) ==> g == Fail(required)
    ensures !IsBlank(text) && |text| > maxLength ==> g == Fail(tooLong)
  {
    if IsBlank(text) then Fail(required)
    else if |text| > maxLength then Fail(tooLong)
    else Pass
  }

  /** An optional text: at most `maxLength` characters, blank allowed. */
  function MaxLengthCheck(text: string, maxLength: nat, tooLong: string): (g: Guard)
    ensures g.Pass? <==> |text| <= maxLength
    ensures g.Fail? ==> g.error == tooLong
  {
    if |text| > maxLength then Fail(tooLong) else Pass
  }

  predicate ThemeOwnedBy(themes: map<Id, ThemeRow>, themeId: Id, clientId: Id) {
    themeId in themes && themes[themeId].userId == clientId
  }

  predicate ActionOwnedBy(actions: map<Id, ActionRow>, actionId: Id, clientId: Id) {
    actionId in actions && actions[actionId].userId == clientId
  }

  function Ownership(owned: bool, notFound: string): (g: Guard)
    ensures g.Pass? <==> owned
    ensures g.Fail? ==> g.error == notFound
  {
    if owned then Pass else Fail(notFound)
  }

  // ---------------------------------------------------------------------------
  // verifyCoachAccess
  // ---------------------------------------------------------------------------

  /**
   * `verifyCoachAccess`: the client id's shape, then authentication, the caller's role lookup,
   * the coach role, the target lookup and the client role; the first failure is returned.
   */
  function VerifyCoachAccess(users: map<Id, UserRow>, caller: Option<Id>, clientId: string): (g: Guard)
    ensures g.Pass? <==> IsUuid(clientId) && CallerIsCoach(users, caller) && IsClient(users, clientId)
    ensures !IsUuid(clientId) ==> g == Fail(InvalidClientId)
  {
    IdCheck(clientId, InvalidClientId)
      .Then(CoachCheck(users, caller, "Only coaches can perform this action"))
      .Then(ClientCheck(users, clientId, "Can only modify data for clients"))
  }

  /** The six failures of `verifyCoachAccess`, each decided by the first check that fails. */
  lemma VerifyCoachAccessOrder(users: map<Id, UserRow>, caller: Option<Id>, clientId: string)
    ensures IsUuid(clientId) && caller.None? ==>
              VerifyCoachAccess(users, caller, clientId) == Fail(NotAuthenticated)
    ensures IsUuid(clientId) && caller.Some? && caller.value !in users ==>
              VerifyCoachAccess(users, caller, clientId) == Fail(PermissionCheckFailed)
    ensures IsUuid(clientId) && caller.Some? && caller.value in users && users[caller.value].role == Client ==>
              VerifyCoachAccess(users, caller, clientId) == Fail("Only coaches can perform this action")
    ensures IsUuid(clientId) && CallerIsCoach(users, caller) && clientId !in users ==>
              VerifyCoachAccess(users, caller, clientId) == Fail(ClientNotFound)
    ensures IsUuid(clientId) && CallerIsCoach(users, caller) && clientId in users && users[clientId].role == Coach ==>
              VerifyCoachAccess(users, caller, clientId) == Fail("Can only modify data for clients")
  {
  }

  /** A malformed id is refused whatever the store holds and whoever calls: no lookup decides it. */
  lemma MalformedIdIndependentOfStore(u1: map<Id, UserRow>, c1: Option<Id>, u2: map<Id, UserRow>, c2: Option<Id>, clientId: string)
    requires !IsUuid(clientId)
    ensures VerifyCoachAccess(u1, c1, clientId) == VerifyCoachAccess(u2, c2, clientId) == Fail(InvalidClientId)
  {
  }

  // ---------------------------------------------------------------------------
  // updateClientPadletUrl
  // ---------------------------------------------------------------------------

  /** `padletUrl?.trim() || null`. */
  function NormalizePadletUrl(padletUrl: Option<string>): (r: Option<string>)
    ensures r.None? <==> padletUrl.None? || IsBlank(padletUrl.value)
    ensures r.Some? ==> r == NormalizeOptionalText(padletUrl.value)
  {
    if padletUrl.None? then None else NormalizeOptionalText(padletUrl.value)
  }

  /**
   * The URL rules: no URL is fine; otherwise at most 2048 characters, and the URL parser must
   * read it with the `https:` protocol (`isHttpsUrl`, the parser being outside the model).
   */
  function PadletUrlCheck(url: Option<string>, isHttpsUrl: string -> bool): (g: Guard)
    ensures g.Pass? <==> url.None? || (|url.value| <= 2048 && isHttpsUrl(url.value))
    ensures g.Fail? ==> g.error in {UrlTooLong, UrlNotHttps}
  {
    if url.None? then Pass
    else if |url.value| > 2048 then Fail(UrlTooLong)
    else if !isHttpsUrl(url.value) then Fail(UrlNotHttps)
    else Pass
  }

  function PadletChecks(users: map<Id, UserRow>, caller: Option<Id>, clientId: string,
                        padletUrl: Option<string>, isHttpsUrl: string -> bool): (g: Guard)
    ensures g.Pass? <==> IsUuid(clientId) && PadletUrlCheck(NormalizePadletUrl(padletUrl), isHttpsUrl).Pass?
                         && CallerIsCoach(users, caller) && IsClient(users, clientId)
    ensures IsUuid(clientId) && PadletUrlCheck(NormalizePadletUrl(padletUrl), isHttpsUrl).Fail? ==>
              g == PadletUrlCheck(NormalizePadletUrl(padletUrl), isHttpsUrl)
  {
    IdCheck(clientId, InvalidClientId)
      .Then(PadletUrlCheck(NormalizePadletUrl(padletUrl), isHttpsUrl))
      .Then(CoachCheck(users, caller, "Only coaches can update client Padlet links"))
      .Then(ClientCheck(users, clientId, "Can only update Padlet links for clients"))
  }

  /** `updateClientPadletUrl`: stores the trimmed URL, or null for a blank or missing one. */
  method UpdateClientPadletUrl(db: Store, clientId: Id, padletUrl: Option<string>,
                               isHttpsUrl: string -> bool, writeFails: bool)
    returns (r: ActionResult<()>)
    modifies db
    ensures var g := PadletChecks(old(db.users), old(db.caller), clientId, padletUrl, isHttpsUrl);
            && (g.Fail? ==> r == Failure(g.error))
            && (g.Pass? && writeFails ==> r == Failure("Failed to update Padlet link"))
            && (g.Pass? && !writeFails ==> r == Success(()))
    ensures r.Failure? ==> unchanged(db)
    ensures r.Success? ==>
              && db.users == old(db.users)[clientId := old(db.users)[clientId].(padletUrl := NormalizePadletUrl(padletUrl))]
              && unchanged(db`themes, db`actions, db`settings, db`copy, db`nudges, db`caller)
  {
    var g := PadletChecks(db.users, db.caller, clientId, padletUrl, isHttpsUrl);
    if g.Fail? {
      return Failure(g.error);
    }
    if writeFails {
      return Failure("Failed to update Padlet link");
    }
    db.users := db.users[clientId := db.users[clientId].(padletUrl := NormalizePadletUrl(padletUrl))];
    r := Success(());
  }

  // ---------------------------------------------------------------------------
  // updateClientLeadershipPurpose
  // ---------------------------------------------------------------------------

  function PurposeChecks(users: map<Id, UserRow>, caller: Option<Id>, clientId: string, purpose: string): (g: Guard)
    ensures g.Pass? <==> |purpose| <= 500 && VerifyCoachAccess(users, caller, clientId).Pass?
    ensures |purpose| > 500 ==> g == Fail(PurposeTooLong)
  {
    MaxLengthCheck(purpose, 500, PurposeTooLong).Then(VerifyCoachAccess(users, caller, clientId))
  }

  /** `updateClientLeadershipPurpose`: stores the trimmed purpose, or null when it is blank. */
  method UpdateClientLeadershipPurpose(db: Store, clientId: Id, purpose: string, writeFails: bool)
    returns (r: ActionResult<()>)
    modifies db
    ensures var g := PurposeChecks(old(db.users), old(db.caller), clientId, purpose);
            && (g.Fail? ==> r == Failure(g.error))
            && (g.Pass? && writeFails ==> r == Failure("Failed to update leadership purpose"))
            && (g.Pass? && !writeFails ==> r == Success(()))
    ensures r.Failure? ==> unchanged(db)
    ensures r.Success? ==>
              && db.users == old(db.users)[clientId := old(db.users)[clientId].(leadershipPurpose := NormalizeOptionalText(purpose))]
              && unchanged(db`themes, db`actions, db`settings, db`copy, db`nudges, db`caller)
  {
    var g := PurposeChecks(db.users, db.caller, clientId, purpose);
    if g.Fail? {
      return Failure(g.error);
    }
    if writeFails {
      return Failure("Failed to update leadership purpose");
    }
    db.users := db.users[clientId := db.users[clientId].(leadershipPurpose := NormalizeOptionalText(purpose))];
    r := Success(());
  }

  // ---------------------------------------------------------------------------
  // updateClientThemeName
  // ---------------------------------------------------------------------------

  function ThemeNameChecks(users: map<Id, UserRow>, themes: map<Id, ThemeRow>, caller: Option<Id>,
                           clientId: string, themeId: string, themeText: string): (g: Guard)
    ensures g.Pass? <==> IsUuid(themeId) && !IsBlank(themeText) && |themeText| <= 100
                         && VerifyCoachAccess(users, caller, clientId).Pass? && ThemeOwnedBy(themes, themeId, clientId)
    ensures IsUuid(themeId) && RequiredTextCheck(themeText, 100, ThemeNameRequired, ThemeNameTooLong).Fail? ==>
              g == RequiredTextCheck(themeText, 100, ThemeNameRequired, ThemeNameTooLong)
  {
    IdCheck(themeId, InvalidThemeId)
      .Then(RequiredTextCheck(themeText, 100, ThemeNameRequired, ThemeNameTooLong))
      .Then(VerifyCoachAccess(users, caller, clientId))
      .Then(Ownership(ThemeOwnedBy(themes, themeId, clientId), ThemeNotFound))
  }

  /** A theme name of 100 characters passes the text rules; one of 101 is refused before any lookup. */
  lemma ThemeNameLengthBoundary(users: map<Id, UserRow>, themes: map<Id, ThemeRow>, caller: Option<Id>,
                                clientId: string, themeId: string, themeText: string)
    requires IsUuid(themeId) && !IsBlank(themeText)
    ensures |themeText| == 100 ==>
              ThemeNameChecks(users, themes, caller, clientId, themeId, themeText)
              == VerifyCoachAccess(users, caller, clientId).Then(Ownership(ThemeOwnedBy(themes, themeId, clientId), ThemeNotFound))
    ensures |themeText| == 101 ==>
              ThemeNameChecks(users, themes, caller, clientId, themeId, themeText) == Fail(ThemeNameTooLong)
  {
  }

  /** `updateClientThemeName`: stores the trimmed name on the addressed theme only. */
  method UpdateClientThemeName(db: Store, clientId: Id, themeId: Id, themeText: string, writeFails: bool)
    returns (r: ActionResult<()>)
    modifies db
    ensures var g := ThemeNameChecks(old(db.users), old(db.themes), old(db.caller), clientId, themeId, themeText);
            && (g.Fail? ==> r == Failure(g.error))
            && (g.Pass? && writeFails ==> r == Failure("Failed to update theme"))
            && (g.Pass? && !writeFails ==> r == Success(()))
    ensures r.Failure? ==> unchanged(db)
    ensures r.Success? ==>
              && db.themes == old(db.themes)[themeId := old(db.themes)[themeId].(themeText := Trim(themeText))]
              && unchanged(db`users, db`actions, db`settings, db`copy, db`nudges, db`caller)
  {
    var g := ThemeNameChecks(db.users, db.themes, db.caller, clientId, themeId, themeText);
    if g.Fail? {
      return Failure(g.error);
    }
    if writeFails {
      return Failure("Failed to update theme");
    }
    db.themes := db.themes[themeId := db.themes[themeId].(themeText := Trim(themeText))];
    r := Success(());
  }

  // ---------------------------------------------------------------------------
  // updateClientSuccessDescription
  // ---------------------------------------------------------------------------

  function DescriptionChecks(users: map<Id, UserRow>, themes: map<Id, ThemeRow>, caller: Option<Id>,
                             clientId: string, themeId: string, description: string): (g: Guard)
    ensures g.Pass? <==> IsUuid(themeId) && |description| <= 2000
                         && VerifyCoachAccess(users, caller, clientId).Pass? && ThemeOwnedBy(themes, themeId, clientId)
    ensures IsUuid(themeId) && |description| > 2000 ==> g == Fail(DescriptionTooLong)
  {
    IdCheck(themeId, InvalidThemeId)
      .Then(MaxLengthCheck(description, 2000, DescriptionTooLong))
      .Then(VerifyCoachAccess(users, caller, clientId))
      .Then(Ownership(ThemeOwnedBy(themes, themeId, clientId), ThemeNotFound))
  }

  /** `updateClientSuccessDescription`: stores the trimmed description, or null when it is blank. */
  method UpdateClientSuccessDescription(db: Store, clientId: Id, themeId: Id, description: string, writeFails: bool)
    returns (r: ActionResult<()>)
    modifies db
    ensures var g := DescriptionChecks(old(db.users), old(db.themes), old(db.caller), clientId, themeId, description);
            && (g.Fail? ==> r == Failure(g.error))
            && (g.Pass? && writeFails ==> r == Failure("Failed to update description"))
            && (g.Pass? && !writeFails ==> r == Success(()))
    ensures r.Failure? ==> unchanged(db)
    ensures r.Success? ==>
              && db.themes == old(db.themes)[themeId := old(db.themes)[themeId].(successDescription := NormalizeOptionalText(description))]
              && unchanged(db`users, db`actions, db`settings, db`copy, db`nudges, db`caller)
  {
    var g := DescriptionChecks(db.users, db.themes, db.caller, clientId, themeId, description);
    if g.Fail? {
      return Failure(g.error);
    }
    if writeFails {
      return Failure("Failed to update description");
    }
    db.themes := db.themes[themeId := db.themes[themeId].(successDescription := NormalizeOptionalText(description))];
    r := Success(());
  }

  // ---------------------------------------------------------------------------
  // addClientHypothesis, updateClientHypothesis, deleteClientHypothesis
  // ---------------------------------------------------------------------------

  function AddHypothesisChecks(users: map<Id, UserRow>, themes: map<Id, ThemeRow>, caller: Option<Id>,
                               clientId: string, themeId: string, text: string): (g: Guard)
    ensures g.Pass? <==> IsUuid(themeId) && !IsBlank(text) && |text| <= 500
                         && VerifyCoachAccess(users, caller, clientId).Pass? && ThemeOwnedBy(themes, themeId, clientId)
    ensures IsUuid(themeId) && RequiredTextCheck(text, 500, HypothesisRequired, HypothesisTooLong).Fail? ==>
              g == RequiredTextCheck(text, 500, HypothesisRequired, HypothesisTooLong)
  {
    IdCheck(themeId, InvalidThemeId)
      .Then(RequiredTextCheck(text, 500, HypothesisRequired, HypothesisTooLong))
      .Then(VerifyCoachAccess(users, caller, clientId))
      .Then(Ownership(ThemeOwnedBy(themes, themeId, clientId), ThemeNotFound))
  }

  /**
   * `addClientHypothesis`: inserts one open weekly action for the client under the theme and
   * returns its id. `newId` and `createdAt` are the values the store generates for the row.
   */
  method AddClientHypothesis(db: Store, clientId: Id, themeId: Id, hypothesisText: string,
                             newId: Id, createdAt: int, writeFails: bool)
    returns (r: ActionResult<Id>)
    requires newId !in db.actions
    modifies db
    ensures var g := AddHypothesisChecks(old(db.users), old(db.themes), old(db.caller), clientId, themeId, hypothesisText);
            && (g.Fail? ==> r == Failure(g.error))
            && (g.Pass? && writeFails ==> r == Failure("Failed to add hypothesis"))
            && (g.Pass? && !writeFails ==> r == Success(newId))
    ensures r.Failure? ==> unchanged(db)
    ensures r.Success? ==>
              && db.actions == old(db.actions)[newId := ActionRow(clientId, Some(themeId), Trim(hypothesisText), false, createdAt)]
              && |db.actions| == |old(db.actions)| + 1
              && unchanged(db`users, db`themes, db`settings, db`copy, db`nudges, db`caller)
  {
    var g := AddHypothesisChecks(db.users, db.themes, db.caller, clientId, themeId, hypothesisText);
    if g.Fail? {
      return Failure(g.error);
    }
    if writeFails {
      return Failure("Failed to add hypothesis");
    }
    db.actions := db.actions[newId := ActionRow(clientId, Some(themeId), Trim(hypothesisText), false, createdAt)];
    r := Success(newId);
  }

  function UpdateHypothesisChecks(users: map<Id, UserRow>, actions: map<Id, ActionRow>, caller: Option<Id>,
                                  clientId: string, hypothesisId: string, text: string): (g: Guard)
    ensures g.Pass? <==> IsUuid(hypothesisId) && !IsBlank(text) && |text| <= 500
                         && VerifyCoachAccess(users, caller, clientId).Pass? && ActionOwnedBy(actions, hypothesisId, clientId)
    ensures IsUuid(hypothesisId) && RequiredTextCheck(text, 500, HypothesisRequired, HypothesisTooLong).Fail? ==>
              g == RequiredTextCheck(text, 500, HypothesisRequired, HypothesisTooLong)
  {
    IdCheck(hypothesisId, InvalidHypothesisId)
      .Then(RequiredTextCheck(text, 500, HypothesisRequired, HypothesisTooLong))
      .Then(VerifyCoachAccess(users, caller, clientId))
      .Then(Ownership(ActionOwnedBy(actions, hypothesisId, clientId), HypothesisNotFound))
  }

  /** `updateClientHypothesis`: stores the trimmed text on the addressed action only. */
  method UpdateClientHypothesis(db: Store, clientId: Id, hypothesisId: Id, newText: string, writeFails: bool)
    returns (r: ActionResult<()>)
    modifies db
    ensures var g := UpdateHypothesisChecks(old(db.users), old(db.actions), old(db.caller), clientId, hypothesisId, newText);
            && (g.Fail? ==> r == Failure(g.error))
            && (g.Pass? && writeFails ==> r == Failure("Failed to update hypothesis"))
            && (g.Pass? && !writeFails ==> r == Success(()))
    ensures r.Failure? ==> unchanged(db)
    ensures r.Success? ==>
              && db.actions == old(db.actions)[hypothesisId := old(db.actions)[hypothesisId].(actionText := Trim(newText))]
              && unchanged(db`users, db`themes, db`settings, db`copy, db`nudges, db`caller)
  {
    var g := UpdateHypothesisChecks(db.users, db.actions, db.caller, clientId, hypothesisId, newText);
    if g.Fail? {
      return Failure(g.error);
    }
    if writeFails {
      return Failure("Failed to update hypothesis");
    }
    db.actions := db.actions[hypothesisId := db.actions[hypothesisId].(actionText := Trim(newText))];
    r := Success(());
  }

  function DeleteHypothesisChecks(users: map<Id, UserRow>, actions: map<Id, ActionRow>, caller: Option<Id>,
                                  clientId: string, hypothesisId: string): (g: Guard)
    ensures g.Pass? <==> IsUuid(hypothesisId) && VerifyCoachAccess(users, caller, clientId).Pass?
                         && ActionOwnedBy(actions, hypothesisId, clientId)
    ensures !IsUuid(hypothesisId) ==> g == Fail(InvalidHypothesisId)
  {
    IdCheck(hypothesisId, InvalidHypothesisId)
      .Then(VerifyCoachAccess(users, caller, clientId))
      .Then(Ownership(ActionOwnedBy(actions, hypothesisId, clientId), HypothesisNotFound))
  }

  /** `deleteClientHypothesis`: removes the addressed action only. */
  method DeleteClientHypothesis(db: Store, clientId: Id, hypothesisId: Id, writeFails: bool)
    returns (r: ActionResult<()>)
    modifies db
    ensures var g := DeleteHypothesisChecks(old(db.users), old(db.actions), old(db.caller), clientId, hypothesisId);
            && (g.Fail? ==> r == Failure(g.error))
            && (g.Pass? && writeFails ==> r == Failure("Failed to delete hypothesis"))
            && (g.Pass? && !writeFails ==> r == Success(()))
    ensures r.Failure? ==> unchanged(db)
    ensures r.Success? ==>
              && db.actions == old(db.actions) - {hypothesisId}
              && unchanged(db`users, db`themes, db`settings, db`copy, db`nudges, db`caller)
  {
    var g := DeleteHypothesisChecks(db.users, db.actions, db.caller, clientId, hypothesisId);
    if g.Fail? {
      return Failure(g.error);
    }
    if writeFails {
      return Failure("Failed to delete hypothesis");
    }
    db.actions := db.actions - {hypothesisId};
    r := Success(());
  }

  // ---------------------------------------------------------------------------
  // deleteClient
  // ---------------------------------------------------------------------------

  function DeleteClientChecks(users: map<Id, UserRow>, caller: Option<Id>, clientId: string): (g: Guard)
    ensures g.Pass? <==> IsUuid(clientId) && CallerIsCoach(users, caller) && IsClient(users, clientId)
    ensures IsUuid(clientId) && CallerIsCoach(users, caller) && clientId in users && users[clientId].role == Coach ==>
              g == Fail("Cannot delete coaches")
  {
    IdCheck(clientId, InvalidClientId)
      .Then(CoachCheck(users, caller, "Only coaches can delete clients"))
      .Then(ClientCheck(users, clientId, "Cannot delete coaches"))
  }

  /**
   * `deleteClient`: removes the client's identity; the store's cascade removes the rows the
   * client owns (themes, actions, settings, nudge history) and nothing else.
   */
  method DeleteClient(db: Store, clientId: Id, writeFails: bool)
    returns (r: ActionResult<()>)
    modifies db
    ensures var g := DeleteClientChecks(old(db.users), old(db.caller), clientId);
            && (g.Fail? ==> r == Failure(g.error))
            && (g.Pass? && writeFails ==> r == Failure("Failed to delete client"))
            && (g.Pass? && !writeFails ==> r == Success(()))
    ensures r.Failure? ==> unchanged(db)
    ensures r.Success? ==>
              && db.users == old(db.users) - {clientId}
              && db.themes == (map t | t in old(db.themes) && old(db.themes)[t].userId != clientId :: old(db.themes)[t])
              && db.actions == (map a | a in old(db.actions) && old(db.actions)[a].userId != clientId :: old(db.actions)[a])
              && db.settings == old(db.settings) - {clientId}
              && db.nudges == NudgesWithout(old(db.nudges), clientId)
              && unchanged(db`copy, db`caller)
  {
    var g := DeleteClientChecks(db.users, db.caller, clientId);
    if g.Fail? {
      return Failure(g.error);
    }
    if writeFails {
      return Failure("Failed to delete client");
    }
    db.DeleteUserCascade(clientId);
    r := Success(());
  }

  /**
   * Whatever the action, a signed-in client with a well-formed target id is refused by the
   * role check, and nothing is written.
   */
  lemma ClientCallerCannotActAsCoach(users: map<Id, UserRow>, caller: Id, clientId: string)
    requires caller in users && users[caller].role == Client && IsUuid(clientId)
    ensures VerifyCoachAccess(users, Some(caller), clientId) == Fail("Only coaches can perform this action")
    ensures DeleteClientChecks(users, Some(caller), clientId) == Fail("Only coaches can delete clients")
  {
  }
}
