/**
 * The company-info onboarding page: one success description per theme, seeded from the stored
 * onboarding record, edited in place and written back onto the themes.
 */
module CompanyInfoPage {
  import opened Wrappers
  import opened Text
  import opened Lists
  import opened OnboardingUser
  import JobRolePage

  const SingleThemeHeading := "What will be different?"
  const ManyThemesHeading := "Envision success for each theme"
  const ThemeFallback := "your theme"

  /** `t.successDescription || ''`. */
  function DescriptionOf(t: ThemeEntry): (r: string)
    ensures t.successDescription.Some? ==> r == t.successDescription.value
    ensures t.successDescription.None? ==> r == ""
  {
    t.successDescription.GetOr("")
  }

  /**
   * The descriptions shown after loading: one per stored theme when there is a non-empty theme
   * list, else the older single description when it is not empty, else one empty description.
   */
  function InitialDescriptions(u: DummyUser): (r: seq<string>)
    ensures |r| >= 1
    ensures HasThemes(u) ==> |r| == |u.themes.value| && forall i :: 0 <= i < |r| ==> r[i] == DescriptionOf(u.themes.value[i])
    ensures !HasThemes(u) && Truthy(u.successDescription) ==> r == [u.successDescription.value]
    ensures !HasThemes(u) && !Truthy(u.successDescription) ==> r == [""]
  {
    if HasThemes(u) then seq(|u.themes.value|, i requires 0 <= i < |u.themes.value| => DescriptionOf(u.themes.value[i]))
    else if Truthy(u.successDescription) then [u.successDescription.value]
    else [""]
  }

  class CompanyInfoForm {
    /** The record read from storage; `None` until the page has loaded one. */
    var user: Option<DummyUser>
    var descriptions: seq<string>

    constructor ()
      ensures user.None? && descriptions == []
    {
      user := None;
      descriptions := [];
    }

    /** The page's effect on mount: nothing without a stored record, else the record and its descriptions. */
    method Load(stored: Option<DummyUser>)
      modifies this
      ensures stored.None? ==> unchanged(this)
      ensures stored.Some? ==> user == stored && descriptions == InitialDescriptions(stored.value)
    {
      if stored.None? {
        return;
      }
      user := stored;
      descriptions := InitialDescriptions(stored.value);
    }

    /** `updateDescription(index, value)`, for a description on screen. */
    method UpdateDescription(index: int, value: string)
      requires 0 <= index < |descriptions|
      modifies this
      ensures |descriptions| == |old(descriptions)| && descriptions[index] == value
      ensures forall j :: 0 <= j < |descriptions| && j != index ==> descriptions[j] == old(descriptions)[j]
      ensures user == old(user)
    {
      descriptions := descriptions[index := value];
    }
  }

  // ---------------------------------------------------------------------------
  // Continuing
  // ---------------------------------------------------------------------------

  /** `hasValidDescription`: the first description exists and is not blank. */
  predicate HasValidDescription(descriptions: seq<string>) {
    |descriptions| > 0 && !IsBlank(descriptions[0])
  }

  /** `descriptions[i]?.trim() || ''`. */
  function TrimmedAt(descriptions: seq<string>, i: nat): (r: string)
    ensures i < |descriptions| ==> r == Trim(descriptions[i])
    ensures i >= |descriptions| ==> r == ""
  {
    if i < |descriptions| then Trim(descriptions[i]) else ""
  }

  /**
   * The themes saved: each stored theme with its name and everything else kept and the trimmed
   * description at its position, or `''` when there is none; no themes when none were stored.
   */
  function UpdatedThemes(themes: Option<seq<ThemeEntry>>, descriptions: seq<string>): (r: seq<ThemeEntry>)
    ensures themes.None? ==> r == []
    ensures themes.Some? ==> |r| == |themes.value|
    ensures themes.Some? ==> forall i :: 0 <= i < |r| ==>
              r[i].name == themes.value[i].name && r[i].successDescription == Some(TrimmedAt(descriptions, i))
  {
    if themes.None? then []
    else seq(|themes.value|, i requires 0 <= i < |themes.value| =>
               themes.value[i].(successDescription := Some(TrimmedAt(descriptions, i))))
  }

  /**
   * `handleContinue`: the record saved, or `None` when the page does nothing (no record loaded,
   * or the first description blank or missing).
   */
  function HandleContinue(user: Option<DummyUser>, descriptions: seq<string>): (r: Option<DummyUser>)
    ensures r.Some? <==> user.Some? && HasValidDescription(descriptions)
    ensures r.Some? ==>
              && r.value == user.value.(themes := r.value.themes, successDescription := r.value.successDescription)
              && r.value.themes == Some(UpdatedThemes(user.value.themes, descriptions))
              && r.value.successDescription == Some(Trim(descriptions[0]))
              && r.value.successDescription.value != ""
  {
    if !HasValidDescription(descriptions) || user.None? then None
    else Some(user.value.(themes := Some(UpdatedThemes(user.value.themes, descriptions)),
                          successDescription := Some(Trim(descriptions[0]))))
  }

  // ---------------------------------------------------------------------------
  // The heading
  // ---------------------------------------------------------------------------

  /**
   * `themeNames`: the stored themes' names whenever there is a theme list (an empty list
   * included, being truthy), otherwise the older single theme name or "your theme".
   */
  function ThemeNamesShown(user: Option<DummyUser>): (r: seq<string>)
    ensures user.Some? && user.value.themes.Some? ==> r == ThemeNames(user.value.themes.value)
    ensures !(user.Some? && user.value.themes.Some?) ==> |r| == 1 && r[0] != ""
  {
    if user.Some? && user.value.themes.Some? then ThemeNames(user.value.themes.value)
    else if user.Some? && Truthy(user.value.themeName) then [user.value.themeName.value]
    else [ThemeFallback]
  }

  function Heading(names: seq<string>): string {
    if |names| == 1 then SingleThemeHeading else ManyThemesHeading
  }

  /** The single-theme heading shows exactly when one theme name is shown. */
  lemma HeadingIff(user: Option<DummyUser>)
    ensures Heading(ThemeNamesShown(user)) == SingleThemeHeading <==> |ThemeNamesShown(user)| == 1
    ensures Heading(ThemeNamesShown(user)) == ManyThemesHeading <==> |ThemeNamesShown(user)| != 1
  {
  }

  /** Without a theme list the page shows one name, the older single name when set, and the single heading. */
  lemma NoThemeListShowsOneName(u: DummyUser)
    requires u.themes.None?
    ensures ThemeNamesShown(Some(u)) == [if Truthy(u.themeName) then u.themeName.value else ThemeFallback]
    ensures Heading(ThemeNamesShown(Some(u))) == SingleThemeHeading
  {
  }

  /** A present but empty theme list shows no names and the many-themes heading, while one description is kept. */
  lemma EmptyThemeListShowsNoNames(u: DummyUser)
    requires u.themes == Some([])
    ensures ThemeNamesShown(Some(u)) == []
    ensures Heading(ThemeNamesShown(Some(u))) == ManyThemesHeading
    ensures |InitialDescriptions(u)| == 1
  {
  }

  // ---------------------------------------------------------------------------
  // Round trips through storage
  // ---------------------------------------------------------------------------

  /** Each description trimmed, as the page shows it after a save and a reload. */
  lemma {:induction false} TrimmedDescriptionsReload(themes: seq<ThemeEntry>, descriptions: seq<string>)
    requires |descriptions| == |themes|
    ensures var saved := UpdatedThemes(Some(themes), descriptions);
            seq(|saved|, i requires 0 <= i < |saved| => DescriptionOf(saved[i])) == TrimAll(descriptions)
  {
    var saved := UpdatedThemes(Some(themes), descriptions);
    var shown := seq(|saved|, i requires 0 <= i < |saved| => DescriptionOf(saved[i]));
    forall i | 0 <= i < |saved|
      ensures shown[i] == TrimAll(descriptions)[i]
    {
      assert saved[i].successDescription == Some(Trim(descriptions[i]));
    }
  }

  /**
   * Saving and reloading the page shows each description trimmed, in place, when there is a
   * theme list with one description per theme; without a theme list it shows the first
   * description trimmed.
   */
  lemma SaveThenReload(user: DummyUser, descriptions: seq<string>)
    requires HasValidDescription(descriptions)
    ensures var saved := HandleContinue(Some(user), descriptions).value;
            && (HasThemes(user) && |descriptions| == |user.themes.value| ==> InitialDescriptions(saved) == TrimAll(descriptions))
            && (user.themes.None? ==> InitialDescriptions(saved) == [Trim(descriptions[0])])
  {
    var saved := HandleContinue(Some(user), descriptions).value;
    if HasThemes(user) && |descriptions| == |user.themes.value| {
      TrimmedDescriptionsReload(user.themes.value, descriptions);
    }
  }

  /**
   * After the job-role page saves, this page shows one empty description per saved theme and
   * the saved theme names, which are the non-blank entries trimmed.
   */
  lemma AfterJobRole(user: DummyUser, leadershipPurpose: string, themes: seq<string>)
    requires NonBlank(themes) != []
    ensures var saved := JobRolePage.HandleContinue(Some(user), leadershipPurpose, themes).value;
            && ThemeNamesShown(Some(saved)) == TrimAll(NonBlank(themes))
            && |InitialDescriptions(saved)| == |NonBlank(themes)|
            && forall i :: 0 <= i < |InitialDescriptions(saved)| ==> InitialDescriptions(saved)[i] == ""
  {
    var names := TrimAll(NonBlank(themes));
    JobRolePage.NamesOfNewEntries(names);
  }
}
