/**
 * The job-role onboarding page: the leadership purpose and a list of one to three theme names
 * edited in place, loaded from and saved to the stored onboarding record.
 */
module JobRolePage {
  import opened Wrappers
  import opened Text
  import opened Lists
  import opened OnboardingUser

  /** The most themes the add button allows. */
  const MaxThemes := 3

  /** The three list handlers: `addTheme`, `removeTheme(index)` and `updateTheme(index, value)`. */
  datatype ThemeEdit = AddTheme | RemoveTheme(index: int) | UpdateTheme(index: int, value: string)

  /** An update names an entry that is on screen; the other edits always apply. */
  predicate CanApply(themes: seq<string>, edit: ThemeEdit) {
    edit.UpdateTheme? ==> 0 <= edit.index < |themes|
  }

  /**
   * The list after one edit: an empty entry is appended only below the maximum, an entry is
   * removed only while more than one remains, and an update replaces one entry.
   */
  function Edited(themes: seq<string>, edit: ThemeEdit): (r: seq<string>)
    requires CanApply(themes, edit)
    ensures edit.AddTheme? && |themes| < MaxThemes ==> r == themes + [""]
    ensures edit.AddTheme? && |themes| >= MaxThemes ==> r == themes
    ensures edit.RemoveTheme? && |themes| > 1 && 0 <= edit.index < |themes| ==>
              |r| == |themes| - 1 && r == themes[..edit.index] + themes[edit.index + 1..]
    ensures edit.RemoveTheme? && (|themes| <= 1 || !(0 <= edit.index < |themes|)) ==> r == themes
    ensures edit.UpdateTheme? ==>
              |r| == |themes| && r[edit.index] == edit.value
              && forall j :: 0 <= j < |themes| && j != edit.index ==> r[j] == themes[j]
  {
    match edit
    case AddTheme => if |themes| < MaxThemes then themes + [""] else themes
    case RemoveTheme(index) => if |themes| > 1 then RemoveAt(themes, index) else themes
    case UpdateTheme(index, value) => themes[index := value]
  }

  /** A run of edits each of which applies to the list it meets. */
  predicate Applicable(themes: seq<string>, edits: seq<ThemeEdit>)
    decreases |edits|
  {
    edits != [] ==> CanApply(themes, edits[0]) && Applicable(Edited(themes, edits[0]), edits[1..])
  }

  function Replay(themes: seq<string>, edits: seq<ThemeEdit>): seq<string>
    requires Applicable(themes, edits)
    decreases |edits|
  {
    if edits == [] then themes else Replay(Edited(themes, edits[0]), edits[1..])
  }

  /** Whatever the user does, a list of one to three entries stays one of one to three entries. */
  lemma {:induction false} LengthStaysInRange(themes: seq<string>, edits: seq<ThemeEdit>)
    decreases |edits|
    requires 1 <= |themes| <= MaxThemes
    requires Applicable(themes, edits)
    ensures 1 <= |Replay(themes, edits)| <= MaxThemes
  {
    if edits != [] {
      LengthStaysInRange(Edited(themes, edits[0]), edits[1..]);
    }
  }

  /** Starting from the page's initial single empty entry, the list always has one to three entries. */
  lemma FromStartInRange(edits: seq<ThemeEdit>)
    requires Applicable([""], edits)
    ensures 1 <= |Replay([""], edits)| <= MaxThemes
  {
    LengthStaysInRange([""], edits);
  }

  // ---------------------------------------------------------------------------
  // Loading the stored record
  // ---------------------------------------------------------------------------

  /** The purpose shown after loading: the stored one when it is not empty, otherwise what was there. */
  function LoadedPurpose(u: DummyUser, current: string): (r: string)
    ensures Truthy(u.leadershipPurpose) ==> r == u.leadershipPurpose.value
    ensures !Truthy(u.leadershipPurpose) ==> r == current
  {
    if Truthy(u.leadershipPurpose) then u.leadershipPurpose.value else current
  }

  /**
   * The themes shown after loading: the stored theme list's names when there is a non-empty
   * list, else the older single theme name when it is not empty, else what was there.
   */
  function LoadedThemes(u: DummyUser, current: seq<string>): (r: seq<string>)
    ensures HasThemes(u) ==> r == ThemeNames(u.themes.value)
    ensures !HasThemes(u) && Truthy(u.themeName) ==> r == [u.themeName.value]
    ensures !HasThemes(u) && !Truthy(u.themeName) ==> r == current
    ensures |current| >= 1 ==> |r| >= 1
  {
    if HasThemes(u) then ThemeNames(u.themes.value)
    else if Truthy(u.themeName) then [u.themeName.value]
    else current
  }

  /** A stored theme list wins over the older single theme name, whatever that holds. */
  lemma ThemeListTakesPrecedence(u: DummyUser, name: Option<string>, current: seq<string>)
    requires HasThemes(u)
    ensures LoadedThemes(u.(themeName := name), current) == LoadedThemes(u, current)
    ensures LoadedThemes(u, current) == ThemeNames(u.themes.value)
  {
  }

  // ---------------------------------------------------------------------------
  // The page state
  // ---------------------------------------------------------------------------

  class JobRoleForm {
    /** The record read from storage; `None` until the page has loaded one. */
    var user: Option<DummyUser>
    var leadershipPurpose: string
    var themes: seq<string>

    /** The list on screen is never empty. */
    predicate Valid()
      reads this
    {
      |themes| >= 1
    }

    constructor ()
      ensures user.None? && leadershipPurpose == "" && themes == [""]
      ensures Valid()
    {
      user := None;
      leadershipPurpose := "";
      themes := [""];
    }

    /** The page's effect on mount: nothing without a stored record, else the record and what it holds. */
    method Load(stored: Option<DummyUser>)
      requires Valid()
      modifies this
      ensures Valid()
      ensures stored.None? ==> unchanged(this)
      ensures stored.Some? ==>
                && user == stored
                && leadershipPurpose == LoadedPurpose(stored.value, old(leadershipPurpose))
                && themes == LoadedThemes(stored.value, old(themes))
    {
      if stored.None? {
        return;
      }
      var userData := stored.value;
      user := stored;
      if Truthy(userData.leadershipPurpose) {
        leadershipPurpose := userData.leadershipPurpose.value;
      }
      if HasThemes(userData) {
        themes := ThemeNames(userData.themes.value);
      } else if Truthy(userData.themeName) {
        themes := [userData.themeName.value];
      }
    }

    /** `addTheme`. */
    method AddTheme()
      requires Valid()
      modifies this
      ensures Valid()
      ensures themes == Edited(old(themes), ThemeEdit.AddTheme)
      ensures user == old(user) && leadershipPurpose == old(leadershipPurpose)
    {
      if |themes| < MaxThemes {
        themes := themes + [""];
      }
    }

    /** `removeTheme(index)`. */
    method RemoveTheme(index: int)
      requires Valid()
      modifies this
      ensures Valid()
      ensures themes == Edited(old(themes), ThemeEdit.RemoveTheme(index))
      ensures user == old(user) && leadershipPurpose == old(leadershipPurpose)
    {
      if |themes| > 1 {
        themes := RemoveAt(themes, index);
      }
    }

    /** `updateTheme(index, value)`, for an entry on screen. */
    method UpdateTheme(index: int, value: string)
      requires Valid()
      requires 0 <= index < |themes|
      modifies this
      ensures Valid()
      ensures themes == Edited(old(themes), ThemeEdit.UpdateTheme(index, value))
      ensures user == old(user) && leadershipPurpose == old(leadershipPurpose)
    {
      themes := themes[index := value];
    }
  }

  // ---------------------------------------------------------------------------
  // Continuing
  // ---------------------------------------------------------------------------

  /** `hasValidTheme`: some entry is not blank. */
  predicate HasValidTheme(themes: seq<string>) {
    exists j :: 0 <= j < |themes| && !IsBlank(themes[j])
  }

  /** New theme entries carry only their name. */
  function NewEntries(names: seq<string>): (r: seq<ThemeEntry>)
    ensures |r| == |names|
    ensures forall i :: 0 <= i < |names| ==> r[i] == ThemeEntry(names[i], None)
  {
    seq(|names|, i requires 0 <= i < |names| => ThemeEntry(names[i], None))
  }

  /** `leadershipPurpose.trim() || undefined`. */
  function SavedPurpose(leadershipPurpose: string): (r: Option<string>)
    ensures r.None? <==> IsBlank(leadershipPurpose)
    ensures r.Some? ==> r.value == Trim(leadershipPurpose) && r.value != ""
  {
    if IsBlank(leadershipPurpose) then None else Some(Trim(leadershipPurpose))
  }

  /**
   * `handleContinue`: the record saved, or `None` when the page does nothing (no record loaded,
   * or every entry blank). The saved record keeps everything else from the loaded one.
   */
  function HandleContinue(user: Option<DummyUser>, leadershipPurpose: string, themes: seq<string>): (r: Option<DummyUser>)
    ensures r.Some? <==> user.Some? && NonBlank(themes) != []
    ensures r.Some? ==>
              && r.value == user.value.(leadershipPurpose := r.value.leadershipPurpose, themes := r.value.themes,
                                        themeName := r.value.themeName)
              && r.value.leadershipPurpose == SavedPurpose(leadershipPurpose)
  {
    var validThemes := NonBlank(themes);
    if |validThemes| == 0 || user.None? then None
    else
      Some(user.value.(
        leadershipPurpose := SavedPurpose(leadershipPurpose),
        themes := Some(NewEntries(TrimAll(validThemes))),
        themeName := Some(validThemes[0])))
  }

  /** The page saves exactly when a record is loaded and some entry is not blank (`hasValidTheme`). */
  lemma ContinueIffValidTheme(user: Option<DummyUser>, leadershipPurpose: string, themes: seq<string>)
    ensures HandleContinue(user, leadershipPurpose, themes).Some? <==> user.Some? && HasValidTheme(themes)
  {
    NonBlankEmptyIff(themes);
  }

  /** No kept entry trims to the empty name. */
  lemma TrimmedNamesNotEmpty(themes: seq<string>)
    ensures var names := TrimAll(NonBlank(themes));
            forall i :: 0 <= i < |names| ==> names[i] != ""
  {
    var valid := NonBlank(themes);
    var names := TrimAll(valid);
    forall i | 0 <= i < |names|
      ensures names[i] != ""
    {
      assert !IsBlank(valid[i]);
    }
  }

  /** Every kept name is already trimmed. */
  lemma TrimmedNamesAreTrimmed(themes: seq<string>)
    ensures var names := TrimAll(NonBlank(themes));
            forall i :: 0 <= i < |names| ==> Trim(names[i]) == names[i]
  {
    var valid := NonBlank(themes);
    var names := TrimAll(valid);
    forall i | 0 <= i < |names|
      ensures Trim(names[i]) == names[i]
    {
      TrimIdempotent(valid[i]);
    }
  }

  /** Every non-blank entry's trimmed text is among the kept names. */
  lemma NonBlankEntriesKept(themes: seq<string>)
    ensures var names := TrimAll(NonBlank(themes));
            forall j :: 0 <= j < |themes| && !IsBlank(themes[j]) ==> Trim(themes[j]) in names
  {
    var valid := NonBlank(themes);
    var names := TrimAll(valid);
    NonBlankMembers(themes);
    forall j | 0 <= j < |themes| && !IsBlank(themes[j])
      ensures Trim(themes[j]) in names
    {
      assert themes[j] in valid;
      var i :| 0 <= i < |valid| && valid[i] == themes[j];
      assert names[i] == Trim(themes[j]);
    }
  }

  /** The entry that the `i`-th kept name was trimmed from. */
  lemma EntryOfName(themes: seq<string>, i: int) returns (j: int)
    requires 0 <= i < |NonBlank(themes)|
    ensures 0 <= j < |themes| && !IsBlank(themes[j]) && TrimAll(NonBlank(themes))[i] == Trim(themes[j])
  {
    var valid := NonBlank(themes);
    NonBlankMembers(themes);
    assert valid[i] in valid;
    j :| 0 <= j < |themes| && themes[j] == valid[i];
  }

  /** Every kept name is the trimmed text of some non-blank entry. */
  lemma TrimmedNamesFromEntries(themes: seq<string>)
    ensures var names := TrimAll(NonBlank(themes));
            forall i :: 0 <= i < |names| ==> exists j :: 0 <= j < |themes| && !IsBlank(themes[j]) && names[i] == Trim(themes[j])
  {
    var names := TrimAll(NonBlank(themes));
    forall i | 0 <= i < |names|
      ensures exists j :: 0 <= j < |themes| && !IsBlank(themes[j]) && names[i] == Trim(themes[j])
    {
      var j := EntryOfName(themes, i);
      assert 0 <= j < |themes| && !IsBlank(themes[j]) && names[i] == Trim(themes[j]);
    }
  }

  /**
   * The non-blank entries, trimmed: each name is trimmed and not empty, each comes from a
   * non-blank entry, and each non-blank entry's text is among them.
   */
  lemma TrimmedNonBlank(themes: seq<string>)
    ensures var names := TrimAll(NonBlank(themes));
            && (forall i :: 0 <= i < |names| ==> names[i] != "" && Trim(names[i]) == names[i])
            && (forall i :: 0 <= i < |names| ==>
                  exists j :: 0 <= j < |themes| && !IsBlank(themes[j]) && names[i] == Trim(themes[j]))
            && (forall j :: 0 <= j < |themes| && !IsBlank(themes[j]) ==> Trim(themes[j]) in names)
  {
    var names := TrimAll(NonBlank(themes));
    TrimmedNamesNotEmpty(themes);
    TrimmedNamesAreTrimmed(themes);
    NonBlankEntriesKept(themes);
    forall i | 0 <= i < |names|
      ensures exists j :: 0 <= j < |themes| && !IsBlank(themes[j]) && names[i] == Trim(themes[j])
    {
      var j := EntryOfName(themes, i);
      assert 0 <= j < |themes| && !IsBlank(themes[j]) && names[i] == Trim(themes[j]);
    }
  }

  /**
   * The saved themes are exactly the non-blank entries, trimmed, in order: the `i`-th saved name
   * is the trimmed `i`-th entry that `NonBlank` keeps (which keeps order, see `NonBlankConcat`);
   * each saved name is trimmed, not empty and comes from a non-blank entry; and each non-blank
   * entry's trimmed text is saved. Any success description stored before is not carried over.
   */
  lemma SavedThemesAreTheNonBlankEntries(user: DummyUser, leadershipPurpose: string, themes: seq<string>)
    requires NonBlank(themes) != []
    ensures var saved := HandleContinue(Some(user), leadershipPurpose, themes).value.themes.value;
            && (forall i :: 0 <= i < |saved| ==> saved[i].name != "" && Trim(saved[i].name) == saved[i].name
                                                 && saved[i].successDescription.None?)
            && (forall j :: 0 <= j < |themes| && !IsBlank(themes[j]) ==> ThemeEntry(Trim(themes[j]), None) in saved)
            && (forall i :: 0 <= i < |saved| ==>
                  exists j :: 0 <= j < |themes| && !IsBlank(themes[j]) && saved[i].name == Trim(themes[j]))
            && |saved| == |NonBlank(themes)|
            && (forall i :: 0 <= i < |saved| ==> saved[i].name == Trim(NonBlank(themes)[i]))
  {
    var names := TrimAll(NonBlank(themes));
    var saved := HandleContinue(Some(user), leadershipPurpose, themes).value.themes.value;
    assert saved == NewEntries(names);
    forall i | 0 <= i < |saved|
      ensures saved[i].name != "" && Trim(saved[i].name) == saved[i].name && saved[i].successDescription.None?
    {
      assert saved[i] == ThemeEntry(names[i], None);
      assert names[i] != "" by {
        TrimmedNamesNotEmpty(themes);
      }
      assert Trim(names[i]) == names[i] by {
        TrimmedNamesAreTrimmed(themes);
      }
    }
    forall j | 0 <= j < |themes| && !IsBlank(themes[j])
      ensures ThemeEntry(Trim(themes[j]), None) in saved
    {
      assert Trim(themes[j]) in names by {
        NonBlankEntriesKept(themes);
      }
      var i :| 0 <= i < |names| && names[i] == Trim(themes[j]);
      assert saved[i] == ThemeEntry(names[i], None);
    }
    forall i | 0 <= i < |saved|
      ensures exists j :: 0 <= j < |themes| && !IsBlank(themes[j]) && saved[i].name == Trim(themes[j])
    {
      var j := EntryOfName(themes, i);
      assert saved[i].name == names[i];
      assert 0 <= j < |themes| && !IsBlank(themes[j]) && saved[i].name == Trim(themes[j]);
    }
  }

  /** The older single theme name is the first non-blank entry as typed, untrimmed. */
  lemma ThemeNameIsFirstNonBlankEntry(user: DummyUser, leadershipPurpose: string, themes: seq<string>)
    requires NonBlank(themes) != []
    ensures var name := HandleContinue(Some(user), leadershipPurpose, themes).value.themeName.value;
            exists k :: 0 <= k < |themes| && themes[k] == name && !IsBlank(name)
                        && forall j :: 0 <= j < k ==> IsBlank(themes[j])
  {
    NonBlankEmptyIff(themes);
    NonBlankHead(themes);
  }

  /** Trimming does not change whether a string is blank. */
  lemma BlankOfTrim(s: string)
    ensures IsBlank(Trim(s)) <==> IsBlank(s)
  {
    TrimIdempotent(s);
  }

  /** Reloading a saved purpose and saving it again stores the same purpose. */
  lemma PurposeSurvivesReload(leadershipPurpose: string)
    ensures var saved := SavedPurpose(leadershipPurpose);
            SavedPurpose(if Truthy(saved) then saved.value else "") == saved
  {
    TrimIdempotent(leadershipPurpose);
  }

  /** Reloading the saved theme names and saving them again stores the same names. */
  lemma NamesSurviveReload(themes: seq<string>)
    requires NonBlank(themes) != []
    ensures var names := TrimAll(NonBlank(themes));
            && names != [] && NonBlank(names) == names && TrimAll(names) == names
            && names[0] == Trim(NonBlank(themes)[0])
  {
    var valid := NonBlank(themes);
    var names := TrimAll(valid);
    assert names != [] by {
      NonBlankEmptyIff(themes);
    }
    assert NonBlank(names) == names by {
      assert forall j :: 0 <= j < |names| ==> !IsBlank(names[j]) by {
        TrimmedNamesNotEmpty(themes);
      }
      NonBlankOfNonBlank(names);
    }
    assert TrimAll(names) == names by {
      TrimmedNamesAreTrimmed(themes);
    }
  }

  /** Reading back the names of new entries gives the names. */
  lemma NamesOfNewEntries(names: seq<string>)
    ensures ThemeNames(NewEntries(names)) == names
  {
  }

  /** Opening the page afresh on a stored record and continuing straight away. */
  function ReloadAndContinue(u: DummyUser): Option<DummyUser> {
    HandleContinue(Some(u), LoadedPurpose(u, ""), LoadedThemes(u, [""]))
  }

  /**
   * Saving, reloading the page and saving again changes only the older single theme name,
   * which the second save stores trimmed.
   */
  lemma SaveReloadSave(user: DummyUser, leadershipPurpose: string, themes: seq<string>)
    requires NonBlank(themes) != []
    ensures var first := HandleContinue(Some(user), leadershipPurpose, themes).value;
            ReloadAndContinue(first) == Some(first.(themeName := Some(Trim(first.themeName.value))))
  {
    var valid := NonBlank(themes);
    var names := TrimAll(valid);
    var first := user.(leadershipPurpose := SavedPurpose(leadershipPurpose),
                       themes := Some(NewEntries(names)), themeName := Some(valid[0]));
    assert HandleContinue(Some(user), leadershipPurpose, themes) == Some(first);
    var purpose := LoadedPurpose(first, "");
    assert SavedPurpose(purpose) == SavedPurpose(leadershipPurpose) by {
      PurposeSurvivesReload(leadershipPurpose);
    }
    NamesOfNewEntries(names);
    assert LoadedThemes(first, [""]) == names;
    assert HandleContinue(Some(first), purpose, names) == Some(first.(themeName := Some(names[0]))) by {
      NamesSurviveReload(themes);
    }
  }

  /** After that second save, reloading and saving again changes nothing. */
  lemma ReloadAndContinueSettles(user: DummyUser, leadershipPurpose: string, themes: seq<string>)
    requires NonBlank(themes) != []
    ensures var second := ReloadAndContinue(HandleContinue(Some(user), leadershipPurpose, themes).value);
            second.Some? && ReloadAndContinue(second.value) == second
  {
    var first := HandleContinue(Some(user), leadershipPurpose, themes).value;
    SaveReloadSave(user, leadershipPurpose, themes);
    var second := first.(themeName := Some(Trim(first.themeName.value)));
    assert LoadedPurpose(second, "") == LoadedPurpose(first, "");
    assert LoadedThemes(second, [""]) == LoadedThemes(first, [""]);
  }
}
