/**
 * The reads of the `onboarding_copy` table: one page's copy merged with its defaults, all
 * four pages for the coach's settings page, and one page's raw override for the editor.
 * A failed query (`fails`) is logged by the source and then treated like a missing row.
 */
module OnboardingCopyQueries {
  import opened Wrappers
  import opened OnboardingDefaults
  import opened Db

  /** `getOnboardingCopy`: the stored override merged with the defaults, or the defaults alone. */
  function GetOnboardingCopy(copy: map<string, CopyRow>, k: PageKey, fails: bool): (r: Record)
    ensures fails || KeyText(k) !in copy ==> r == DefaultCopy(k)
    ensures r.Keys == DefaultCopy(k).Keys
    ensures !fails && KeyText(k) in copy ==>
              forall f :: f in r ==> r[f] == if OverrideSets(copy[KeyText(k)].copyData, f)
                                             then copy[KeyText(k)].copyData[f] else DefaultCopy(k)[f]
  {
    MergeWithoutOverride(k);
    if !fails && KeyText(k) in copy then
      MergeFields(k, copy[KeyText(k)].copyData);
      Merge(k, Some(copy[KeyText(k)].copyData))
    else Merge(k, None)
  }

  /** Whatever is stored, a page read never shows `null`, `''` or `[]` in any field. */
  lemma PageCopyNeverEmpty(copy: map<string, CopyRow>, k: PageKey, fails: bool)
    ensures forall f :: f in GetOnboardingCopy(copy, k, fails) ==> IsSetValue(GetOnboardingCopy(copy, k, fails)[f])
  {
    if !fails && KeyText(k) in copy {
      MergeNeverEmpty(k, Some(copy[KeyText(k)].copyData));
    } else {
      DefaultsAreSet(k);
    }
  }

  /** `getRawOnboardingCopy`: the override exactly as stored, or nothing. */
  function GetRawOnboardingCopy(copy: map<string, CopyRow>, k: PageKey, fails: bool): (r: Option<Record>)
    ensures r.Some? <==> !fails && KeyText(k) in copy
    ensures r.Some? ==> r.value == copy[KeyText(k)].copyData
  {
    if !fails && KeyText(k) in copy then Some(copy[KeyText(k)].copyData) else None
  }

  /** The raw override and the merged page agree: the page is the merge of what the editor sees. */
  lemma RawAndMergedAgree(copy: map<string, CopyRow>, k: PageKey, fails: bool)
    ensures GetOnboardingCopy(copy, k, fails) == Merge(k, GetRawOnboardingCopy(copy, k, fails))
  {
  }

  // ---------------------------------------------------------------------------
  // getAllOnboardingCopy
  // ---------------------------------------------------------------------------

  /** One row of `select page_key, copy_data`. */
  datatype CopyEntry = CopyEntry(pageKey: string, copyData: Record)

  /** The four pages' merged copy. */
  datatype AllCopy = AllCopy(onboarding: Record, jobRole: Record, companyInfo: Record, welcome: Record)

  /** The map the rows build, each row setting its key in turn, so the last row of a key wins. */
  function CopyMapOf(rows: seq<CopyEntry>): (m: map<string, Record>)
    ensures forall key :: key in m <==> exists i :: 0 <= i < |rows| && rows[i].pageKey == key
  {
    if rows == [] then map[]
    else
      var init := CopyMapOf(rows[..|rows| - 1]);
      var last := rows[|rows| - 1];
      assert forall i :: 0 <= i < |rows| - 1 ==> rows[..|rows| - 1][i] == rows[i];
      init[last.pageKey := last.copyData]
  }

  /** Each key of the built map holds the copy of the last row with that key. */
  lemma {:induction false} CopyMapLastRowWins(rows: seq<CopyEntry>, i: int)
    requires 0 <= i < |rows|
    requires forall j :: i < j < |rows| ==> rows[j].pageKey != rows[i].pageKey
    ensures rows[i].pageKey in CopyMapOf(rows)
    ensures CopyMapOf(rows)[rows[i].pageKey] == rows[i].copyData
  {
    if i < |rows| - 1 {
      var init := rows[..|rows| - 1];
      assert init[i] == rows[i];
      forall j | i < j < |init|
        ensures init[j].pageKey != init[i].pageKey
      {
        assert init[j] == rows[j];
      }
      CopyMapLastRowWins(init, i);
    }
  }

  /** The loop of `getAllOnboardingCopy` that builds the map from the rows. */
  method BuildCopyMap(rows: seq<CopyEntry>) returns (copyMap: map<string, Record>)
    ensures copyMap == CopyMapOf(rows)
  {
    copyMap := map[];
    for i := 0 to |rows|
      invariant copyMap == CopyMapOf(rows[..i])
    {
      assert rows[..i + 1][..i] == rows[..i];
      copyMap := copyMap[rows[i].pageKey := rows[i].copyData];
    }
    assert rows[..|rows|] == rows;
  }

  function Lookup(copyMap: map<string, Record>, key: string): Option<Record> {
    if key in copyMap then Some(copyMap[key]) else None
  }

  /**
   * `getAllOnboardingCopy`: every page merged with the row for its key, if any; a failed
   * query shows every page's defaults.
   */
  method GetAllOnboardingCopy(rows: seq<CopyEntry>, fails: bool) returns (all: AllCopy)
    ensures all.onboarding == Merge(Onboarding, StoredOverride(rows, fails, Onboarding))
    ensures all.jobRole == Merge(JobRole, StoredOverride(rows, fails, JobRole))
    ensures all.companyInfo == Merge(CompanyInfo, StoredOverride(rows, fails, CompanyInfo))
    ensures all.welcome == Merge(Welcome, StoredOverride(rows, fails, Welcome))
  {
    var copyMap: map<string, Record> := map[];
    if !fails {
      copyMap := BuildCopyMap(rows);
    }
    StoredOverrideOfMap(rows, fails, copyMap);
    var onboarding := MergeCopyWithDefaults(Onboarding, Lookup(copyMap, "onboarding"));
    var jobRole := MergeCopyWithDefaults(JobRole, Lookup(copyMap, "job-role"));
    var companyInfo := MergeCopyWithDefaults(CompanyInfo, Lookup(copyMap, "company-info"));
    var welcome := MergeCopyWithDefaults(Welcome, Lookup(copyMap, "welcome"));
    all := AllCopy(onboarding, jobRole, companyInfo, welcome);
  }

  /** The map the loop builds gives each page the override `StoredOverride` names. */
  lemma StoredOverrideOfMap(rows: seq<CopyEntry>, fails: bool, copyMap: map<string, Record>)
    requires copyMap == if fails then map[] else CopyMapOf(rows)
    ensures StoredOverride(rows, fails, Onboarding) == Lookup(copyMap, "onboarding")
    ensures StoredOverride(rows, fails, JobRole) == Lookup(copyMap, "job-role")
    ensures StoredOverride(rows, fails, CompanyInfo) == Lookup(copyMap, "company-info")
    ensures StoredOverride(rows, fails, Welcome) == Lookup(copyMap, "welcome")
  {
  }

  /** The override `getAllOnboardingCopy` merges into page `k`. */
  function StoredOverride(rows: seq<CopyEntry>, fails: bool, k: PageKey): Option<Record> {
    if fails then None else Lookup(CopyMapOf(rows), KeyText(k))
  }

  /** A failed query shows every page's defaults. */
  lemma AllDefaultsOnFailure(rows: seq<CopyEntry>, k: PageKey)
    ensures Merge(k, StoredOverride(rows, true, k)) == DefaultCopy(k)
  {
    MergeWithoutOverride(k);
  }

  /** The rows list the stored table: each stored key once, with its stored copy. */
  predicate RowsOfTable(rows: seq<CopyEntry>, copy: map<string, CopyRow>) {
    && (forall i :: 0 <= i < |rows| ==> rows[i].pageKey in copy && rows[i].copyData == copy[rows[i].pageKey].copyData)
    && (forall key :: key in copy ==> exists i :: 0 <= i < |rows| && rows[i].pageKey == key)
    && (forall i, j :: 0 <= i < j < |rows| ==> rows[i].pageKey != rows[j].pageKey)
  }

  /** Read from the whole table, each page gets the override a read of that one page gets. */
  lemma StoredOverrideIsRaw(rows: seq<CopyEntry>, copy: map<string, CopyRow>, fails: bool, k: PageKey)
    requires RowsOfTable(rows, copy)
    ensures StoredOverride(rows, fails, k) == GetRawOnboardingCopy(copy, k, fails)
  {
    var key := KeyText(k);
    if !fails && key in copy {
      var i :| 0 <= i < |rows| && rows[i].pageKey == key;
      CopyMapLastRowWins(rows, i);
    }
  }

  /** Read from the whole table, each page is what a read of that one page shows. */
  lemma AllCopyAgreesWithPageRead(rows: seq<CopyEntry>, copy: map<string, CopyRow>, fails: bool, k: PageKey)
    requires RowsOfTable(rows, copy)
    ensures Merge(k, StoredOverride(rows, fails, k)) == GetOnboardingCopy(copy, k, fails)
  {
    StoredOverrideIsRaw(rows, copy, fails, k);
    RawAndMergedAgree(copy, k, fails);
  }
}
