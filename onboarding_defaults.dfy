/**
 * Default copy of the four onboarding pages and the merge that overlays a sparse,
 * coach-supplied override record onto a page's defaults.
 *
 * A stored override is a JSON object; its values are modelled as `Value`:
 * a string, an array of strings, or `null`. A key that is absent from the map is
 * JavaScript's `undefined`.
 */
module OnboardingDefaults {
  import opened Wrappers

  datatype Value = Str(s: string) | Arr(items: seq<string>) | Null

  /** A copy record: field name to value. Both the defaults and the overrides have this shape. */
  type Record = map<string, Value>

  datatype PageKey = Onboarding | JobRole | CompanyInfo | Welcome

  /** The text form of a page key, as stored in the `page_key` column. */
  function KeyText(k: PageKey): string {
    match k
    case Onboarding => "onboarding"
    case JobRole => "job-role"
    case CompanyInfo => "company-info"
    case Welcome => "welcome"
  }

  /** Reads a page key; only the four known keys are accepted. */
  function ParsePageKey(s: string): (r: Option<PageKey>)
    ensures r.Some? ==> KeyText(r.value) == s
    ensures r.None? ==> forall k: PageKey :: KeyText(k) != s
  {
    if s == "onboarding" then Some(Onboarding)
    else if s == "job-role" then Some(JobRole)
    else if s == "company-info" then Some(CompanyInfo)
    else if s == "welcome" then Some(Welcome)
    else None
  }

  lemma ParseKeyText(k: PageKey)
    ensures ParsePageKey(KeyText(k)) == Some(k)
  {
  }

  // ---------------------------------------------------------------------------
  // The four default records
  // ---------------------------------------------------------------------------

  /** The fields of each page's copy, in the order its interface declares them. */
  function Fields(k: PageKey): seq<string> {
    match k
    case Onboarding => ["title", "subtitle", "step1", "step2", "step3", "buttonText"]
    case JobRole =>
      ["purposeTitle", "purposeSubtitle", "purposePlaceholder", "themesTitle", "themesSubtitle",
       "themePlaceholder", "themeSecondaryPlaceholder", "suggestionsLabel", "suggestions",
       "buttonText", "backButtonText"]
    case CompanyInfo =>
      ["titleSingle", "titleMultiple", "subtitleSingle", "subtitleMultiple", "placeholder",
       "footer", "buttonText", "backButtonText"]
    case Welcome =>
      ["title", "subtitle", "ideasTitle", "ideasSubtitle", "ideasPlaceholders", "phoneLabel",
       "phonePlaceholder", "phoneHelper", "nudgeLabel", "buttonText"]
  }

  const OnboardingDefaultsRecord: Record := map[
    "title" := Str("Welcome!"),
    "subtitle" := Str("Let's set up your leadership development journey."),
    "step1" := Str("Choose your development theme"),
    "step2" := Str("Envision what progress looks like"),
    "step3" := Str("Translate your theme into weekly actions"),
    "buttonText" := Str("Begin")
  ]

  const JobRoleDefaultsRecord: Record := map[
    "purposeTitle" := Str("Leadership Purpose"),
    "purposeSubtitle" := Str("Why do you do what you do? (optional)"),
    "purposePlaceholder" := Str("e.g., To create environments where people thrive and grow..."),
    "themesTitle" := Str("Development Themes"),
    "themesSubtitle" := Str("What do you want to work on as a leader? (up to 3)"),
    "themePlaceholder" := Str("e.g., Delegation, Presence, Clarity"),
    "themeSecondaryPlaceholder" := Str("Another theme (1-4 words)"),
    "suggestionsLabel" := Str("Or choose from suggestions:"),
    "suggestions" := Arr(["Delegation", "Presence", "Clarity", "Trust", "Boundaries", "Strategy", "Balance"]),
    "buttonText" := Str("Continue"),
    "backButtonText" := Str("Go back")
  ]

  const CompanyInfoDefaultsRecord: Record := map[
    "titleSingle" := Str("What will be different?"),
    "titleMultiple" := Str("Envision success for each theme"),
    "subtitleSingle" := Str("Describe your envisioned future. Start with 'I' and describe what you do, feel, and experience."),
    "subtitleMultiple" := Str("Describe what progress looks like for each theme. Start with 'I'..."),
    "placeholder" := Str("Start with \"I\" \U{2014} e.g., \"I feel calm and confident. I ask questions before giving advice. Others notice I'm more present.\""),
    "footer" := Str("This isn't a goal to complete \U{2014} it's a vision of who you're becoming."),
    "buttonText" := Str("Continue"),
    "backButtonText" := Str("Go back")
  ]

  const WelcomeDefaultsRecord: Record := map[
    "title" := Str("Almost there!"),
    "subtitle" := Str("What experiments, principles, or reminders will guide your progress?"),
    "ideasTitle" := Str("Ideas & Experiments"),
    "ideasSubtitle" := Str("Things to stop, start, or do differently. Mantras, principles, or small experiments."),
    "ideasPlaceholders" := Arr(["Pause before saying yes", "Ask 'What do you think?' first", "Delegate one thing each day"]),
    "phoneLabel" := Str("Phone Number"),
    "phonePlaceholder" := Str("+1234567890"),
    "phoneHelper" := Str("Required for SMS nudges. You can add this later in Settings."),
    "nudgeLabel" := Str("Receive leadership nudges"),
    "buttonText" := Str("Enter the app")
  ]

  /** The fixed default record of a page. */
  function DefaultCopy(k: PageKey): Record {
    match k
    case Onboarding => OnboardingDefaultsRecord
    case JobRole => JobRoleDefaultsRecord
    case CompanyInfo => CompanyInfoDefaultsRecord
    case Welcome => WelcomeDefaultsRecord
  }

  /** `getDefaultCopy`: defined on the four page keys, a failure (the thrown error) on any other text. */
  function GetDefaultCopy(key: string): (r: Option<Record>)
    ensures r.Some? <==> ParsePageKey(key).Some?
    ensures r.Some? ==> r.value == DefaultCopy(ParsePageKey(key).value)
  {
    match ParsePageKey(key)
    case Some(k) => Some(DefaultCopy(k))
    case None => None
  }

  /** `keys` lists the keys of `r`, each once. */
  ghost predicate KeysListed(keys: seq<string>, r: Record) {
    && (forall f :: f in keys <==> f in r)
    && (forall i, j :: 0 <= i < j < |keys| ==> keys[i] != keys[j])
  }

  /** Every value of `r` is set. */
  ghost predicate AllSet(r: Record) {
    forall f :: f in r ==> IsSetValue(r[f])
  }

  lemma OnboardingFieldsListed()
    ensures KeysListed(Fields(Onboarding), OnboardingDefaultsRecord)
  {
  }

  lemma JobRoleFieldsListed()
    ensures KeysListed(Fields(JobRole), JobRoleDefaultsRecord)
  {
  }

  lemma CompanyInfoFieldsListed()
    ensures KeysListed(Fields(CompanyInfo), CompanyInfoDefaultsRecord)
  {
  }

  lemma WelcomeFieldsListed()
    ensures KeysListed(Fields(Welcome), WelcomeDefaultsRecord)
  {
  }

  lemma OnboardingDefaultsSet()
    ensures AllSet(OnboardingDefaultsRecord)
  {
  }

  lemma JobRoleDefaultsSet()
    ensures AllSet(JobRoleDefaultsRecord)
  {
  }

  lemma CompanyInfoDefaultsSet()
    ensures AllSet(CompanyInfoDefaultsRecord)
  {
  }

  lemma WelcomeDefaultsSet()
    ensures AllSet(WelcomeDefaultsRecord)
  {
  }

  /** The declared field list of a page is exactly the key set of its default record, without repeats. */
  lemma FieldsAreDefaultKeys(k: PageKey)
    ensures forall f :: f in Fields(k) <==> f in DefaultCopy(k)
    ensures forall i, j :: 0 <= i < j < |Fields(k)| ==> Fields(k)[i] != Fields(k)[j]
  {
    match k
    case Onboarding => OnboardingFieldsListed();
    case JobRole => JobRoleFieldsListed();
    case CompanyInfo => CompanyInfoFieldsListed();
    case Welcome => WelcomeFieldsListed();
  }

  // ---------------------------------------------------------------------------
  // Merge
  // ---------------------------------------------------------------------------

  /** A value counts as set unless it is `null`, `''` or an empty array. */
  predicate IsSetValue(v: Value) {
    !(v.Null? || v == Str("") || v == Arr([]))
  }

  /** The override sets field `f` (an absent key is `undefined`, which is not set). */
  predicate OverrideSets(custom: Record, f: string) {
    f in custom && IsSetValue(custom[f])
  }

  /**
   * What `mergeCopyWithDefaults` returns: with no override, the defaults; otherwise every
   * default field, taken from the override where the override sets it.
   */
  function Merge(k: PageKey, custom: Option<Record>): Record {
    match custom
    case None => DefaultCopy(k)
    case Some(c) => Overlaid(DefaultCopy(k), c)
  }

  /** Every field of `defaults`, taken from `custom` where `custom` sets it. */
  function Overlaid(defaults: Record, custom: Record): Record {
    map f | f in defaults :: if OverrideSets(custom, f) then custom[f] else defaults[f]
  }

  /** `mergeCopyWithDefaults`: copies the defaults, then overwrites field by field. */
  method MergeCopyWithDefaults(pageKey: PageKey, customCopy: Option<Record>) returns (merged: Record)
    ensures merged == Merge(pageKey, customCopy)
  {
    var defaults := DefaultCopy(pageKey);
    if customCopy.None? {
      return defaults;
    }
    FieldsAreDefaultKeys(pageKey);
    merged := Overlay(defaults, Fields(pageKey), customCopy.value);
  }

  /** The loop of `mergeCopyWithDefaults` over the default record's keys. */
  method Overlay(defaults: Record, keys: seq<string>, custom: Record) returns (merged: Record)
    requires forall f :: f in keys <==> f in defaults
    ensures merged == Overlaid(defaults, custom)
  {
    merged := defaults;
    var i := 0;
    while i < |keys|
      invariant 0 <= i <= |keys|
      invariant merged.Keys == defaults.Keys
      invariant forall f :: f in merged ==>
                  merged[f] == if f in keys[..i] && OverrideSets(custom, f) then custom[f] else defaults[f]
    {
      var key := keys[i];
      assert keys[..i + 1] == keys[..i] + [key];
      if key in custom {
        var customValue := custom[key];
        if customValue != Null && customValue != Str("") {
          if customValue.Arr? && |customValue.items| == 0 {
            i := i + 1;
            continue;
          }
          merged := merged[key := customValue];
        }
      }
      i := i + 1;
    }
    assert keys[..i] == keys;
  }

  // ---------------------------------------------------------------------------
  // Properties of the merge
  // ---------------------------------------------------------------------------

  /** Every default value is a non-empty string or a non-empty array. */
  lemma DefaultsAreSet(k: PageKey)
    ensures forall f :: f in DefaultCopy(k) ==> IsSetValue(DefaultCopy(k)[f])
  {
    match k
    case Onboarding => OnboardingDefaultsSet();
    case JobRole => JobRoleDefaultsSet();
    case CompanyInfo => CompanyInfoDefaultsSet();
    case Welcome => WelcomeDefaultsSet();
  }

  /** With no override, or an empty one, the merge is exactly the page's defaults. */
  lemma MergeWithoutOverride(k: PageKey)
    ensures Merge(k, None) == DefaultCopy(k)
    ensures Merge(k, Some(map[])) == DefaultCopy(k)
  {
  }

  /**
   * The merged record has exactly the default's fields; each is the override's value when the
   * override sets it and the default otherwise. Keys the defaults do not have are ignored.
   */
  lemma MergeFields(k: PageKey, custom: Record)
    ensures Merge(k, Some(custom)).Keys == DefaultCopy(k).Keys
    ensures forall f :: f in DefaultCopy(k) && OverrideSets(custom, f) ==> Merge(k, Some(custom))[f] == custom[f]
    ensures forall f :: f in DefaultCopy(k) && !OverrideSets(custom, f) ==> Merge(k, Some(custom))[f] == DefaultCopy(k)[f]
  {
  }

  /** Defaults fill every gap: no merged field is ever `null`, `''` or `[]`. */
  lemma MergeNeverEmpty(k: PageKey, custom: Option<Record>)
    ensures forall f :: f in Merge(k, custom) ==> IsSetValue(Merge(k, custom)[f])
  {
    DefaultsAreSet(k);
  }

  /** Merging a merged record again changes nothing; merging the defaults as override gives the defaults. */
  lemma MergeIdempotent(k: PageKey, custom: Option<Record>)
    ensures Merge(k, Some(Merge(k, custom))) == Merge(k, custom)
    ensures Merge(k, Some(DefaultCopy(k))) == DefaultCopy(k)
  {
    DefaultsAreSet(k);
    OverlaidIdempotent(DefaultCopy(k), DefaultCopy(k));
    if custom.Some? {
      OverlaidIdempotent(DefaultCopy(k), custom.value);
    }
  }

  /** Over defaults that are all set, laying the result of an overlay over them again changes nothing. */
  lemma OverlaidIdempotent(defaults: Record, custom: Record)
    requires AllSet(defaults)
    ensures Overlaid(defaults, Overlaid(defaults, custom)) == Overlaid(defaults, custom)
    ensures Overlaid(defaults, defaults) == defaults
  {
  }

  /** Two overrides that agree on the fields they set merge to the same record. */
  lemma MergeDependsOnlyOnSetFields(k: PageKey, a: Record, b: Record)
    requires forall f :: f in DefaultCopy(k) ==> (OverrideSets(a, f) <==> OverrideSets(b, f))
    requires forall f :: f in DefaultCopy(k) && OverrideSets(a, f) && OverrideSets(b, f) ==> a[f] == b[f]
    ensures Merge(k, Some(a)) == Merge(k, Some(b))
  {
  }

  // ---------------------------------------------------------------------------
  // Page list and names
  // ---------------------------------------------------------------------------

  /** `getAllPageKeys`. */
  function AllPageKeys(): (r: seq<PageKey>)
    ensures |r| == 4
    ensures forall i, j :: 0 <= i < j < |r| ==> r[i] != r[j]
  {
    [Onboarding, JobRole, CompanyInfo, Welcome]
  }

  /** Every page key is listed. */
  lemma AllPageKeysComplete(k: PageKey)
    ensures k in AllPageKeys()
  {
    match k
    case Onboarding => assert AllPageKeys()[0] == k;
    case JobRole => assert AllPageKeys()[1] == k;
    case CompanyInfo => assert AllPageKeys()[2] == k;
    case Welcome => assert AllPageKeys()[3] == k;
  }

  /** `getPageName`: a readable name for the four keys; any other text is returned as it is. */
  function PageName(key: string): (r: string)
    ensures ParsePageKey(key).None? ==> r == key
  {
    if key == "onboarding" then "Welcome Screen"
    else if key == "job-role" then "Theme Selection"
    else if key == "company-info" then "Envisioned Future"
    else if key == "welcome" then "Ideas & Finish"
    else key
  }

  /** The four pages have four different names. */
  lemma PageNamesDistinct(a: PageKey, b: PageKey)
    ensures PageName(KeyText(a)) == PageName(KeyText(b)) ==> a == b
  {
  }
}
