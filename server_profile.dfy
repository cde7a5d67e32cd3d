/**
 * The health profile as the server receives it: parsed JSON in which any field may be
 * missing, and its rendering into the prompt annexes.
 */
module ServerProfile {
  import opened Wrappers
  import opened Strings

  /**
   * A received profile. A missing `age` or `gender` is read as "" (both are falsy);
   * a missing list is `None`.
   */
  datatype ProfileFields = ProfileFields(
    age: string,
    gender: string,
    conditions: Option<seq<string>>,
    medications: Option<seq<string>>,
    allergies: Option<seq<string>>)

  /**
   * `list?.join(', ') || fallback`: the fallback stands in exactly when the list is
   * missing or joins to the empty string, i.e. is `[]` or `[""]`.
   */
  function ListOr(list: Option<seq<string>>, fallback: string): (r: string)
    ensures list.None? || list.value == [] || list.value == [""] ==> r == fallback
    ensures list.Some? && list.value != [] && list.value != [""] ==> r == Join(list.value, ", ")
  {
    match list
    case None => fallback
    case Some(items) =>
      JoinEmpty(items, ", ");
      OrElse(Join(items, ", "), fallback)
  }

  /** Every non-empty item of a listed field is spelled out in its rendering. */
  lemma ListOrMentions(list: Option<seq<string>>, fallback: string, x: string)
    requires list.Some? && x in list.value && x != ""
    ensures Includes(ListOr(list, fallback), x)
  {
    assert list.value != [] && list.value != [""];
    JoinIncludes(list.value, ", ", x);
  }
}
