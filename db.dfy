/**
 * The hosted relational store, reduced to what the modelled actions read and write:
 * one map per table, keyed by row id (the `settings` table by `user_id`, the
 * `onboarding_copy` table by `page_key`, on which it is unique), the append-only
 * `nudges_sent` log, and the identity of the signed-in caller, if any.
 */
module Db {
  import opened Wrappers
  import opened OnboardingDefaults

  type Id = string

  datatype Role = Client | Coach

  datatype UserRow = UserRow(
    role: Role,
    name: string,
    email: string,
    phone: Option<string>,
    leadershipPurpose: Option<string>,
    padletUrl: Option<string>)

  datatype ThemeRow = ThemeRow(userId: Id, themeText: string, successDescription: Option<string>, createdAt: int)

  datatype ActionRow = ActionRow(userId: Id, themeId: Option<Id>, actionText: string, isCompleted: bool, createdAt: int)

  datatype SettingsRow = SettingsRow(receiveWeeklyNudge: bool)

  datatype NudgeRow = NudgeRow(coachId: Id, clientId: Id, messageText: string)

  datatype CopyRow = CopyRow(copyData: Record, updatedBy: Id)

  /** The rows of the nudge log that do not concern `clientId`, in their original order. */
  function NudgesWithout(log: seq<NudgeRow>, clientId: Id): (r: seq<NudgeRow>)
    ensures forall j :: 0 <= j < |r| ==> r[j].clientId != clientId && r[j] in log
    ensures forall n :: n in log && n.clientId != clientId ==> n in r
  {
    if log == [] then []
    else if log[0].clientId == clientId then NudgesWithout(log[1..], clientId)
    else [log[0]] + NudgesWithout(log[1..], clientId)
  }

  /**
   * Removing a client's rows works row by row and keeps order and duplicates: the log split
   * anywhere loses the same rows from each part, and a single row survives exactly when it is
   * about another client.
   */
  lemma {:induction false} NudgesWithoutConcat(a: seq<NudgeRow>, b: seq<NudgeRow>, clientId: Id)
    ensures NudgesWithout(a + b, clientId) == NudgesWithout(a, clientId) + NudgesWithout(b, clientId)
    ensures forall n :: NudgesWithout([n], clientId) == if n.clientId == clientId then [] else [n]
  {
    if a == [] {
      assert a + b == b;
    } else {
      assert (a + b)[0] == a[0];
      assert (a + b)[1..] == a[1..] + b;
      NudgesWithoutConcat(a[1..], b, clientId);
    }
  }

  class Store {
    var users: map<Id, UserRow>
    var themes: map<Id, ThemeRow>
    var actions: map<Id, ActionRow>
    var settings: map<Id, SettingsRow>
    var copy: map<string, CopyRow>
    var nudges: seq<NudgeRow>
    /** The authenticated user of the current request (`getUser()`), or none. */
    var caller: Option<Id>

    constructor (caller: Option<Id>)
      ensures this.caller == caller
      ensures users == map[] && themes == map[] && actions == map[] && settings == map[]
      ensures copy == map[] && nudges == []
    {
      this.caller := caller;
      users, themes, actions, settings := map[], map[], map[], map[];
      copy, nudges := map[], [];
    }

    /**
     * Removing an identity row. The schema's foreign keys cascade: the user's themes,
     * weekly actions, settings row and nudge history go with it.
     */
    method DeleteUserCascade(id: Id)
      modifies this
      ensures users == old(users) - {id}
      ensures themes == map t | t in old(themes) && old(themes)[t].userId != id :: old(themes)[t]
      ensures actions == map a | a in old(actions) && old(actions)[a].userId != id :: old(actions)[a]
      ensures settings == old(settings) - {id}
      ensures nudges == NudgesWithout(old(nudges), id)
      ensures copy == old(copy) && caller == old(caller)
    {
      users := users - {id};
      themes := map t | t in themes && themes[t].userId != id :: themes[t];
      actions := map a | a in actions && actions[a].userId != id :: actions[a];
      settings := settings - {id};
      nudges := NudgesWithout(nudges, id);
    }
  }
}
