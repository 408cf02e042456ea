/** The ignore-pattern list editor shared by the ignore-patterns modal and the settings
    page: add a typed pattern (trimmed, blank and duplicate input rejected) at the end, and
    remove the pattern at a list index. */
module PatternEditing {
  import opened JsStrings

  /** The warning shown when the trimmed input is already in the list. */
  const DuplicateWarning: string := "이미 존재하는 패턴입니다."

  /** No value occurs twice. */
  predicate NoDuplicates<T(==)>(s: seq<T>) {
    forall i, j :: 0 <= i < j < |s| ==> s[i] != s[j]
  }

  /** What `handleAddPattern` decides. */
  datatype AddResult = BlankInput | AlreadyPresent | Appended(patterns: seq<string>)

  /** `handleAddPattern`'s decision on the current list and the typed input: blank input is
      ignored; input whose trimmed form is already listed is refused; otherwise the trimmed
      form is appended. */
  function AddPattern(patterns: seq<string>, input: string): (r: AddResult)
    ensures r.BlankInput? <==> IsBlank(input)
    ensures r.AlreadyPresent? <==> !IsBlank(input) && Trim(input) in patterns
    ensures r.Appended? ==> |r.patterns| == |patterns| + 1 && r.patterns[..|patterns|] == patterns
  {
    TrimEmptyIffBlank(input);
    var t := Trim(input);
    if t == "" then BlankInput
    else if t in patterns then AlreadyPresent
    else Appended(patterns + [t])
  }

  /** An appended pattern is the trimmed input, is not blank, has no whitespace at either
      end and was not in the list before. */
  lemma AppendedIsTrimmedAndNew(patterns: seq<string>, input: string)
    requires AddPattern(patterns, input).Appended?
    ensures var added := AddPattern(patterns, input).patterns[|patterns|];
      && added == Trim(input) && added != "" && !IsBlank(added) && Trim(added) == added
      && !IsJsWhitespace(added[0]) && !IsJsWhitespace(added[|added| - 1])
      && added !in patterns
  {
    TrimIsCoreSlice(input);
    TrimIdempotent(input);
    TrimEmptyIffBlank(Trim(input));
  }

  /** Adding keeps a duplicate-free list duplicate-free. */
  lemma AddKeepsNoDuplicates(patterns: seq<string>, input: string)
    requires NoDuplicates(patterns)
    requires AddPattern(patterns, input).Appended?
    ensures NoDuplicates(AddPattern(patterns, input).patterns)
  {
    var r := AddPattern(patterns, input).patterns;
    forall i, j | 0 <= i < j < |r| ensures r[i] != r[j] {
      if j == |patterns| {
        assert r[i] == patterns[i];
      }
    }
  }

  /** Adding the same input again, or any input that trims to the same text, is refused as
      a duplicate. */
  lemma AddAgainIsRefused(patterns: seq<string>, input: string, again: string)
    requires AddPattern(patterns, input).Appended?
    requires Trim(again) == Trim(input)
    ensures AddPattern(AddPattern(patterns, input).patterns, again) == AlreadyPresent
  {
    var r := AddPattern(patterns, input).patterns;
    assert r[|patterns|] == Trim(input);
    TrimEmptyIffBlank(input);
    TrimEmptyIffBlank(again);
  }

  /** `items.filter((_, i) => i !== index)`: every item except the one at position
      `index`. */
  function RemoveAt<T>(items: seq<T>, index: int): seq<T> {
    if items == [] then []
    else (if index == 0 then [] else [items[0]]) + RemoveAt(items[1..], index - 1)
  }

  /** Removing a valid index drops exactly that item and keeps the others in order; any
      other index leaves the list as it was. */
  lemma {:induction false} RemoveAtSlices<T>(items: seq<T>, index: int)
    ensures 0 <= index < |items| ==> RemoveAt(items, index) == items[..index] + items[index + 1..]
    ensures !(0 <= index < |items|) ==> RemoveAt(items, index) == items
  {
    if items != [] {
      RemoveAtSlices(items[1..], index - 1);
      if index == 0 {
        assert items[1..] == items[..0] + items[1..];
      } else if 0 < index < |items| {
        assert items[..index] == [items[0]] + items[1..][..index - 1];
        assert items[index + 1..] == items[1..][index..];
      } else {
        assert items == [items[0]] + items[1..];
      }
    }
  }

  /** Removing keeps a duplicate-free list duplicate-free and shortens a list by one for a
      valid index. */
  lemma RemoveKeepsNoDuplicates<T>(items: seq<T>, index: int)
    requires NoDuplicates(items)
    ensures NoDuplicates(RemoveAt(items, index))
    ensures |RemoveAt(items, index)| == if 0 <= index < |items| then |items| - 1 else |items|
  {
    RemoveAtSlices(items, index);
    if 0 <= index < |items| {
      var r := RemoveAt(items, index);
      forall i, j | 0 <= i < j < |r| ensures r[i] != r[j] {
        var i' := if i < index then i else i + 1;
        var j' := if j < index then j else j + 1;
        assert r[i] == items[i'] && r[j] == items[j'];
      }
    }
  }
}
