/**
 * The coach's writes to the `onboarding_copy` table: saving a page's override (cleaned of
 * empty values first), removing one page's override, and removing all of them.
 */
module OnboardingCopyActions {
  import opened Wrappers
  import opened OnboardingDefaults
  import opened Db
  import opened Guards

  const InvalidPageKey := "Invalid page key"
  const NotCoachToUpdate := "Only coaches can update onboarding copy"
  const NotCoachToReset := "Only coaches can reset onboarding copy"
  const UpsertFailed := "Failed to update onboarding copy"
  const ResetFailed := "Failed to reset onboarding copy"

  // ---------------------------------------------------------------------------
  // Cleaning an override
  // ---------------------------------------------------------------------------

  /** The array items that are not `''`, in order. */
  function DropEmpty(items: seq<string>): (r: seq<string>)
    ensures "" !in r
    ensures |r| <= |items|
    ensures forall x :: x in r <==> x in items && x != ""
  {
    if items == [] then []
    else if items[0] == "" then DropEmpty(items[1..])
    else [items[0]] + DropEmpty(items[1..])
  }

  /**
   * The filter keeps order: filtering two runs one after the other is filtering each. With the
   * one-item case (`DropEmpty([x])` is `[]` for `''` and `[x]` otherwise) this pins the result.
   */
  lemma {:induction false} DropEmptyConcat(a: seq<string>, b: seq<string>)
    ensures DropEmpty(a + b) == DropEmpty(a) + DropEmpty(b)
    ensures forall x :: DropEmpty([x]) == if x == "" then [] else [x]
  {
    if a == [] {
      assert a + b == b;
    } else {
      assert (a + b)[0] == a[0];
      assert (a + b)[1..] == a[1..] + b;
      DropEmptyConcat(a[1..], b);
    }
  }

  /** An array without empty items is its own filtered array. */
  lemma {:induction false} DropEmptyOfClean(items: seq<string>)
    requires "" !in items
    ensures DropEmpty(items) == items
  {
    if items != [] {
      assert items[0] != "";
      assert "" !in items[1..];
      DropEmptyOfClean(items[1..]);
      assert [items[0]] + items[1..] == items;
    }
  }

  /**
   * What one entry of the submitted copy becomes: `''` and `null` are dropped, an array keeps its
   * non-empty items and is dropped when none remain, any other value is kept as it is.
   */
  function CleanValue(v: Value): (r: Option<Value>)
    ensures r.Some? ==> IsSetValue(r.value)
    ensures r.Some? && r.value.Arr? ==> "" !in r.value.items
    ensures v.Str? ==> (r.Some? <==> v.s != "") && (r.Some? ==> r.value == v)
    ensures v.Null? ==> r.None?
    ensures v.Arr? ==> (r.Some? <==> DropEmpty(v.items) != []) && (r.Some? ==> r.value == Arr(DropEmpty(v.items)))
  {
    match v
    case Null => None
    case Str(s) => if s == "" then None else Some(v)
    case Arr(items) =>
      var filtered := DropEmpty(items);
      if |filtered| > 0 then Some(Arr(filtered)) else None
  }

  /** The cleaned override: every entry that survives `CleanValue`, under its own key. */
  ghost function Cleaned(copyData: Record): Record {
    map f | f in copyData && CleanValue(copyData[f]).Some? :: CleanValue(copyData[f]).value
  }

  /** The cleaning loop of `updateOnboardingCopy`, one entry at a time. */
  method CleanCopyData(copyData: Record) returns (cleaned: Record)
    ensures cleaned == Cleaned(copyData)
  {
    cleaned := map[];
    var remaining := copyData.Keys;
    while remaining != {}
      invariant remaining <= copyData.Keys
      invariant forall f :: f in cleaned <==> f in copyData && f !in remaining && CleanValue(copyData[f]).Some?
      invariant forall f :: f in cleaned ==> cleaned[f] == CleanValue(copyData[f]).value
      decreases remaining
    {
      var key :| key in remaining;
      var value := copyData[key];
      if value != Str("") && value != Null {
        if value.Arr? {
          var filtered := DropEmpty(value.items);
          if |filtered| > 0 {
            cleaned := cleaned[key := Arr(filtered)];
          }
        } else {
          cleaned := cleaned[key := value];
        }
      }
      remaining := remaining - {key};
    }
  }

  /** Nothing empty is stored: no cleaned entry is `null`, `''`, `[]` or an array holding `''`. */
  lemma CleanedHasNoEmptyValues(copyData: Record)
    ensures Cleaned(copyData).Keys <= copyData.Keys
    ensures forall f :: f in Cleaned(copyData) ==> IsSetValue(Cleaned(copyData)[f])
    ensures forall f :: f in Cleaned(copyData) && Cleaned(copyData)[f].Arr? ==> "" !in Cleaned(copyData)[f].items
  {
  }

  /** Cleaning a cleaned override changes nothing. */
  lemma CleanIdempotent(copyData: Record)
    ensures Cleaned(Cleaned(copyData)) == Cleaned(copyData)
  {
    var once := Cleaned(copyData);
    forall f | f in once
      ensures CleanValue(once[f]) == Some(once[f])
    {
      if once[f].Arr? {
        DropEmptyOfClean(once[f].items);
      }
    }
  }

  /** Cleaning works entry by entry: removing a field before or after cleaning gives the same record. */
  lemma CleanCommutesWithRemoval(copyData: Record, f: string)
    ensures Cleaned(copyData - {f}) == Cleaned(copyData) - {f}
  {
  }

  /**
   * For an override whose arrays hold no `''` items, cleaning does not change what the pages
   * show: the merge with the defaults is the same before and after.
   */
  lemma CleanPreservesMerge(k: PageKey, copyData: Record)
    requires forall f :: f in copyData && copyData[f].Arr? ==> "" !in copyData[f].items
    ensures Merge(k, Some(Cleaned(copyData))) == Merge(k, Some(copyData))
  {
    var c := Cleaned(copyData);
    forall f | f in DefaultCopy(k)
      ensures OverrideSets(c, f) <==> OverrideSets(copyData, f)
      ensures OverrideSets(c, f) ==> c[f] == copyData[f]
    {
      if f in copyData && copyData[f].Arr? {
        DropEmptyOfClean(copyData[f].items);
      }
    }
    MergeDependsOnlyOnSetFields(k, c, copyData);
  }

  // ---------------------------------------------------------------------------
  // The actions
  // ---------------------------------------------------------------------------

  /** The page key must be one of the four pages; the check comes before authentication. */
  function PageKeyCheck(pageKey: string): (g: Guard)
    ensures g.Pass? <==> ParsePageKey(pageKey).Some?
    ensures g.Fail? ==> g.error == InvalidPageKey
  {
    if ParsePageKey(pageKey).Some? then Pass else Fail(InvalidPageKey)
  }

  function UpdateCopyChecks(users: map<Id, UserRow>, caller: Option<Id>, pageKey: string): (g: Guard)
    ensures g.Pass? <==> ParsePageKey(pageKey).Some? && CallerIsCoach(users, caller)
    ensures ParsePageKey(pageKey).None? ==> g == Fail(InvalidPageKey)
  {
    PageKeyCheck(pageKey).Then(CoachCheck(users, caller, NotCoachToUpdate))
  }

  /**
   * `updateOnboardingCopy`: stores the cleaned override for the page (replacing any earlier
   * one, the key being unique) together with the coach who saved it.
   */
  method UpdateOnboardingCopy(db: Store, pageKey: string, copyData: Record, upsertFails: bool)
    returns (r: ActionResult<()>)
    modifies db
    ensures var g := UpdateCopyChecks(old(db.users), old(db.caller), pageKey);
            && (g.Fail? ==> r == Failure(g.error))
            && (g.Pass? && upsertFails ==> r == Failure(UpsertFailed))
            && (g.Pass? && !upsertFails ==> r == Success(()))
    ensures r.Failure? ==> unchanged(db)
    ensures r.Success? ==>
              && db.copy == old(db.copy)[pageKey := CopyRow(Cleaned(copyData), old(db.caller).value)]
              && unchanged(db`users, db`themes, db`actions, db`settings, db`nudges, db`caller)
  {
    var g := UpdateCopyChecks(db.users, db.caller, pageKey);
    if g.Fail? {
      return Failure(g.error);
    }
    var cleaned := CleanCopyData(copyData);
    if upsertFails {
      return Failure(UpsertFailed);
    }
    db.copy := db.copy[pageKey := CopyRow(cleaned, db.caller.value)];
    r := Success(());
  }

  function ResetCopyChecks(users: map<Id, UserRow>, caller: Option<Id>, pageKey: string): (g: Guard)
    ensures g.Pass? <==> ParsePageKey(pageKey).Some? && CallerIsCoach(users, caller)
    ensures ParsePageKey(pageKey).None? ==> g == Fail(InvalidPageKey)
  {
    PageKeyCheck(pageKey).Then(CoachCheck(users, caller, NotCoachToReset))
  }

  /** `resetOnboardingCopy`: deletes the page's override, so the page falls back to its defaults. */
  method ResetOnboardingCopy(db: Store, pageKey: string, deleteFails: bool)
    returns (r: ActionResult<()>)
    modifies db
    ensures var g := ResetCopyChecks(old(db.users), old(db.caller), pageKey);
            && (g.Fail? ==> r == Failure(g.error))
            && (g.Pass? && deleteFails ==> r == Failure(ResetFailed))
            && (g.Pass? && !deleteFails ==> r == Success(()))
    ensures r.Failure? ==> unchanged(db)
    ensures r.Success? ==>
              && db.copy == old(db.copy) - {pageKey}
              && unchanged(db`users, db`themes, db`actions, db`settings, db`nudges, db`caller)
  {
    var g := ResetCopyChecks(db.users, db.caller, pageKey);
    if g.Fail? {
      return Failure(g.error);
    }
    if deleteFails {
      return Failure(ResetFailed);
    }
    db.copy := db.copy - {pageKey};
    r := Success(());
  }

  /** The rows `resetAllOnboardingCopy` keeps: its filter deletes every row whose key is not `''`. */
  function RowsWithEmptyKey(copy: map<string, CopyRow>): (r: map<string, CopyRow>)
    ensures forall key :: key in r <==> key in copy && key == ""
    ensures forall key :: key in r ==> r[key] == copy[key]
  {
    map key | key in copy && key == "" :: copy[key]
  }

  /** `resetAllOnboardingCopy`: no page key check, the coach check, then the bulk delete. */
  method ResetAllOnboardingCopy(db: Store, deleteFails: bool)
    returns (r: ActionResult<()>)
    modifies db
    ensures var g := CoachCheck(old(db.users), old(db.caller), NotCoachToReset);
            && (g.Fail? ==> r == Failure(g.error))
            && (g.Pass? && deleteFails ==> r == Failure(ResetFailed))
            && (g.Pass? && !deleteFails ==> r == Success(()))
    ensures r.Failure? ==> unchanged(db)
    ensures r.Success? ==>
              && db.copy == RowsWithEmptyKey(old(db.copy))
              && unchanged(db`users, db`themes, db`actions, db`settings, db`nudges, db`caller)
  {
    var g := CoachCheck(db.users, db.caller, NotCoachToReset);
    if g.Fail? {
      return Failure(g.error);
    }
    if deleteFails {
      return Failure(ResetFailed);
    }
    db.copy := RowsWithEmptyKey(db.copy);
    r := Success(());
  }

  /** After the bulk delete no page has an override left, whatever was stored before. */
  lemma ResetAllClearsEveryPage(copy: map<string, CopyRow>, k: PageKey)
    ensures KeyText(k) !in RowsWithEmptyKey(copy)
  {
    ParseKeyText(k);
  }

  /** Resetting one page leaves the other pages' overrides as they were. */
  lemma ResetLeavesOtherPages(copy: map<string, CopyRow>, k: PageKey, other: PageKey)
    requires other != k && KeyText(other) in copy
    ensures KeyText(other) in copy - {KeyText(k)}
    ensures (copy - {KeyText(k)})[KeyText(other)] == copy[KeyText(other)]
  {
    ParseKeyText(k);
    ParseKeyText(other);
  }
}
