/**
 * The coach's editor for one page's copy. It keeps the override being edited (`editedCopy`,
 * seeded from the stored override), shows each field's edited value or its default, edits
 * list fields item by item, and saves or resets through the copy actions.
 */
module OnboardingCopyEditor {
  import opened Wrappers
  import opened Lists
  import opened OnboardingDefaults
  import opened Guards
  import OnboardingCopyActions

  /** A field whose default is a list (`suggestions`, `ideasPlaceholders`). */
  predicate IsArrayField(k: PageKey, field: string) {
    field in DefaultCopy(k) && DefaultCopy(k)[field].Arr?
  }

  function DefaultItems(k: PageKey, field: string): seq<string>
    requires IsArrayField(k, field)
  {
    DefaultCopy(k)[field].items
  }

  /** The characters of a string as one-character strings, which is what spreading a string yields. */
  function Characters(s: string): (r: seq<string>)
    ensures |r| == |s|
    ensures forall i :: 0 <= i < |s| ==> r[i] == [s[i]]
  {
    seq(|s|, i requires 0 <= i < |s| => [s[i]])
  }

  /**
   * The list the item handlers start from: `editedCopy[field] || defaults[field]`. An edited list
   * is used even when it is empty (an array is truthy); an edited non-empty string is spread into
   * its characters; an absent, `null` or `''` entry falls back to the default list.
   */
  function CurrentArray(edited: Record, k: PageKey, field: string): (r: seq<string>)
    requires IsArrayField(k, field)
    ensures field in edited && edited[field].Arr? ==> r == edited[field].items
    ensures field in edited && edited[field].Str? && edited[field].s != "" ==> r == Characters(edited[field].s)
    ensures !IsFieldCustomized(edited, field) ==> r == DefaultItems(k, field)
  {
    if field !in edited then DefaultItems(k, field)
    else match edited[field]
      case Arr(items) => items
      case Str(s) => if s == "" then DefaultItems(k, field) else Characters(s)
      case Null => DefaultItems(k, field)
  }

  /** `String(value)` of a list: its items joined with commas. */
  function JoinWithCommas(items: seq<string>): (r: string)
    ensures |items| == 1 ==> r == items[0]
    ensures items == [] ==> r == ""
  {
    if items == [] then ""
    else if |items| == 1 then items[0]
    else items[0] + "," + JoinWithCommas(items[1..])
  }

  /** `getFieldValue`: what the input box shows, the edited value as text or nothing. */
  function FieldValue(edited: Record, field: string): (r: string)
    ensures !IsFieldCustomized(edited, field) ==> r == ""
    ensures IsFieldCustomized(edited, field) && edited[field].Str? ==> r == edited[field].s
    ensures IsFieldCustomized(edited, field) && edited[field].Arr? ==> r == JoinWithCommas(edited[field].items)
  {
    if !IsFieldCustomized(edited, field) then ""
    else match edited[field]
      case Str(s) => s
      case Arr(items) => JoinWithCommas(items)
      case Null => ""
  }

  /** `getArrayFieldValue`: the edited list when it has items, otherwise the default list. */
  function ArrayFieldValue(edited: Record, k: PageKey, field: string): (r: seq<string>)
    requires IsArrayField(k, field)
    ensures field in edited && edited[field].Arr? && edited[field].items != [] ==> r == edited[field].items
    ensures !(field in edited && edited[field].Arr? && edited[field].items != []) ==> r == DefaultItems(k, field)
  {
    if field in edited && edited[field].Arr? && |edited[field].items| > 0 then edited[field].items
    else DefaultItems(k, field)
  }

  /** `isFieldCustomized`: the field holds something other than `null` or `''` (an empty list counts). */
  predicate IsFieldCustomized(edited: Record, field: string) {
    field in edited && edited[field] != Null && edited[field] != Str("")
  }

  /** What the editor says after a save or reset. */
  datatype Message = Message(isSuccess: bool, text: string)

  /** `result.error || fallback`. */
  function ErrorText(error: string, fallback: string): (r: string)
    ensures error != "" ==> r == error
    ensures error == "" ==> r == fallback
  {
    if error == "" then fallback else error
  }

  class CopyEditor {
    const pageKey: PageKey
    /** The override stored when the editor was opened, if any. */
    const customCopy: Option<Record>
    var editedCopy: Record
    var message: Option<Message>

    constructor (pageKey: PageKey, customCopy: Option<Record>)
      ensures this.pageKey == pageKey && this.customCopy == customCopy
      ensures editedCopy == (if customCopy.Some? then customCopy.value else map[])
      ensures message.None?
    {
      this.pageKey := pageKey;
      this.customCopy := customCopy;
      editedCopy := if customCopy.Some? then customCopy.value else map[];
      message := None;
    }

    /** `hasCustomizations`: the stored override has at least one key. */
    predicate HasCustomizations() {
      customCopy.Some? && |customCopy.value| > 0
    }

    /** `handleFieldChange`: sets one field and clears the message. */
    method HandleFieldChange(field: string, value: Value)
      modifies this
      ensures editedCopy == old(editedCopy)[field := value]
      ensures message.None?
    {
      editedCopy := editedCopy[field := value];
      message := None;
    }

    /** `handleArrayFieldChange`: replaces one item of the list shown. */
    method HandleArrayFieldChange(field: string, index: nat, value: string)
      requires IsArrayField(pageKey, field)
      requires index < |CurrentArray(editedCopy, pageKey, field)|
      modifies this
      ensures editedCopy == old(editedCopy)[field := Arr(CurrentArray(old(editedCopy), pageKey, field)[index := value])]
      ensures message.None?
    {
      var current := CurrentArray(editedCopy, pageKey, field);
      HandleFieldChange(field, Arr(current[index := value]));
    }

    /** `handleAddArrayItem`: appends an empty item. */
    method HandleAddArrayItem(field: string)
      requires IsArrayField(pageKey, field)
      modifies this
      ensures editedCopy == old(editedCopy)[field := Arr(CurrentArray(old(editedCopy), pageKey, field) + [""])]
      ensures message.None?
    {
      var current := CurrentArray(editedCopy, pageKey, field);
      HandleFieldChange(field, Arr(current + [""]));
    }

    /**
     * `handleRemoveArrayItem`: drops the item at `index`. An edited non-empty string in a list
     * field has no `filter`, so that state is excluded.
     */
    method HandleRemoveArrayItem(field: string, index: int)
      requires IsArrayField(pageKey, field)
      requires !(field in editedCopy && editedCopy[field].Str? && editedCopy[field].s != "")
      modifies this
      ensures editedCopy == old(editedCopy)[field := Arr(RemoveAt(CurrentArray(old(editedCopy), pageKey, field), index))]
      ensures message.None?
    {
      var current := CurrentArray(editedCopy, pageKey, field);
      HandleFieldChange(field, Arr(RemoveAt(current, index)));
    }

    /** `handleClearField`: removes the field from the edited override. */
    method HandleClearField(field: string)
      modifies this
      ensures editedCopy == old(editedCopy) - {field}
      ensures message.None?
    {
      editedCopy := editedCopy - {field};
      message := None;
    }

    /** `handleSave`, given what `updateOnboardingCopy` returned for the edited override. */
    method HandleSave(result: ActionResult<()>)
      modifies this
      ensures editedCopy == old(editedCopy)
      ensures result.Success? ==> message == Some(Message(true, "Saved successfully!"))
      ensures result.Failure? ==> message == Some(Message(false, ErrorText(result.error, "Failed to save")))
    {
      if result.Success? {
        message := Some(Message(true, "Saved successfully!"));
      } else {
        message := Some(Message(false, ErrorText(result.error, "Failed to save")));
      }
    }

    /** `handleReset`, given what `resetOnboardingCopy` returned: on success the edits are dropped. */
    method HandleReset(result: ActionResult<()>)
      modifies this
      ensures result.Success? ==> editedCopy == map[] && message == Some(Message(true, "Reset to defaults!"))
      ensures result.Failure? ==> editedCopy == old(editedCopy)
      ensures result.Failure? ==> message == Some(Message(false, ErrorText(result.error, "Failed to reset")))
    {
      if result.Success? {
        editedCopy := map[];
        message := Some(Message(true, "Reset to defaults!"));
      } else {
        message := Some(Message(false, ErrorText(result.error, "Failed to reset")));
      }
    }
  }

  // ---------------------------------------------------------------------------
  // Properties of the editing state
  // ---------------------------------------------------------------------------

  /** Typing into a text field shows what was typed; emptying it shows nothing and un-marks it. */
  lemma TypedTextReadsBack(edited: Record, field: string, s: string)
    ensures FieldValue(edited[field := Str(s)], field) == s
    ensures IsFieldCustomized(edited[field := Str(s)], field) <==> s != ""
  {
  }

  /** After an item is replaced, the list shown holds the new item at that position. */
  lemma ArrayEditReadsBack(edited: Record, k: PageKey, field: string, index: nat, value: string)
    requires IsArrayField(k, field)
    requires index < |CurrentArray(edited, k, field)|
    ensures var after := edited[field := Arr(CurrentArray(edited, k, field)[index := value])];
            && ArrayFieldValue(after, k, field)[index] == value
            && |ArrayFieldValue(after, k, field)| == |CurrentArray(edited, k, field)|
  {
  }

  /** Adding an item and then removing the last one gives back the list the handlers started from. */
  lemma AddThenRemoveRestores(edited: Record, k: PageKey, field: string)
    requires IsArrayField(k, field)
    ensures var current := CurrentArray(edited, k, field);
            var added := edited[field := Arr(current + [""])];
            && CurrentArray(added, k, field) == current + [""]
            && added[field := Arr(RemoveAt(CurrentArray(added, k, field), |current|))] == edited[field := Arr(current)]
  {
    var current := CurrentArray(edited, k, field);
    var grown := current + [""];
    assert grown[..|current|] == current;
    assert grown[|current| + 1..] == [];
    assert RemoveAt(grown, |current|) == current;
  }

  /** Clearing one field of an override laid over any default record reverts that field alone. */
  lemma ClearFieldOverlay(defaults: Record, edited: Record, field: string)
    ensures var before := Overlaid(defaults, OnboardingCopyActions.Cleaned(edited));
            var after := Overlaid(defaults, OnboardingCopyActions.Cleaned(edited - {field}));
            && after.Keys == before.Keys
            && (field in after ==> after[field] == defaults[field])
            && (forall g :: g in after && g != field ==> after[g] == before[g])
  {
    OnboardingCopyActions.CleanCommutesWithRemoval(edited, field);
  }

  /**
   * Clearing one field and saving: once cleaned and merged, that field shows its default and
   * every other field shows what it showed before.
   */
  lemma ClearFieldRevertsOnlyThatField(k: PageKey, edited: Record, field: string)
    ensures var before := Merge(k, Some(OnboardingCopyActions.Cleaned(edited)));
            var after := Merge(k, Some(OnboardingCopyActions.Cleaned(edited - {field})));
            && after.Keys == before.Keys
            && (field in after ==> after[field] == DefaultCopy(k)[field])
            && (forall g :: g in after && g != field ==> after[g] == before[g])
  {
    ClearFieldOverlay(DefaultCopy(k), edited, field);
  }
}
