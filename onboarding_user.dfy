/**
 * The record the onboarding pages keep in the browser's storage under `dummyUser`, as the
 * job-role and company-info pages read and write it. An absent or `undefined` property is
 * `None`.
 */
module OnboardingUser {
  import opened Wrappers

  /** One leadership theme: its name and, once the company-info page has run, its success description. */
  datatype ThemeEntry = ThemeEntry(name: string, successDescription: Option<string>)

  datatype DummyUser = DummyUser(
    email: string,
    loginTime: string,
    leadershipPurpose: Option<string>,
    themes: Option<seq<ThemeEntry>>,
    // the single-theme properties kept for older records
    themeName: Option<string>,
    successDescription: Option<string>)

  /** JavaScript truthiness of an optional string: present and not `''`. */
  predicate Truthy(v: Option<string>) {
    v.Some? && v.value != ""
  }

  /** `themes.map(t => t.name)`. */
  function ThemeNames(themes: seq<ThemeEntry>): (r: seq<string>)
    ensures |r| == |themes|
    ensures forall i :: 0 <= i < |themes| ==> r[i] == themes[i].name
  {
    seq(|themes|, i requires 0 <= i < |themes| => themes[i].name)
  }

  /** The record has a non-empty theme list (`userData.themes && userData.themes.length > 0`). */
  predicate HasThemes(u: DummyUser) {
    u.themes.Some? && |u.themes.value| > 0
  }
}
