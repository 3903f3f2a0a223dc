/** The three dropdown loaders (`loadYears`, `loadScenarios`,
    `loadVariables`), identical in both scripts up to the endpoint and the
    preferred value. The fetched list keeps the JSON type of its elements,
    because the default is found with `includes`, which compares by
    SameValueZero, without type conversion; on these values (a `Num` is
    never NaN) that is structural equality. */
module Dropdown {
  import opened Js

  /** The preferred defaults: `2025` is a number literal in the source,
      the other two are strings. */
  const PreferredYear: Value := Num(2025.0)
  const PreferredScenario: Value := Str("ssp585")
  const PreferredVariable: Value := Str("pr")

  /** `list.includes(preferred) ? preferred : list[0]`. */
  function DefaultChoice(list: seq<Value>, preferred: Value): (r: Value)
    requires |list| > 0
    ensures r in list
    ensures r == preferred <==> preferred in list
    ensures preferred !in list ==> r == list[0]
  {
    if preferred in list then preferred else list[0]
  }

  /** A `<select>` element: its options in order and its value, None when
      it has no option. */
  class Selector {
    var options: seq<Value>
    var value: Option<Value>

    /** The selected value, when there is one, is one of the options. */
    ghost predicate Valid()
      reads this
    {
      (value == None <==> options == []) && (value.Some? ==> value.value in options)
    }

    constructor ()
      ensures Valid() && options == [] && value == None
    {
      options := [];
      value := None;
    }

    /** The body of a loader once the fetch has settled. `response` is None
        when the response is not ok or the request failed: the error is
        logged and the selector is left as it was. Otherwise the options are
        cleared; an empty list ends there; a non-empty one is appended in
        order and the default is selected. `refresh` is the argument of the
        `updateColors` call the loader makes, None when it makes none. */
    method Load(response: Option<seq<Value>>, preferred: Value) returns (refresh: Option<Value>)
      requires Valid()
      modifies this
      ensures Valid()
      ensures response == None ==> options == old(options) && value == old(value) && refresh == None
      ensures response.Some? && response.value == [] ==> options == [] && value == None && refresh == None
      ensures response.Some? && response.value != [] ==>
        && options == response.value
        && value == Some(DefaultChoice(response.value, preferred))
        && refresh == value
    {
      if response == None {
        return None;
      }
      var list := response.value;
      options := [];
      value := None;
      if |list| == 0 {
        return None;
      }
      var i := 0;
      while i < |list|
        invariant 0 <= i <= |list|
        invariant options == list[..i]
        invariant value == None
      {
        options := options + [list[i]];
        i := i + 1;
      }
      assert list[..i] == list;
      var choice := DefaultChoice(list, preferred);
      value := Some(choice);
      refresh := Some(choice);
    }
  }

  /** The backend lists the years as strings, so the number 2025 is not
      among them and the first year is the default. */
  lemma BackendYearsDefaultToFirst()
    ensures DefaultChoice([Str("1995"), Str("2025"), Str("2055"), Str("2085")], PreferredYear) == Str("1995")
  {
  }

  /** The year 2025 as either JSON type the backend could send it in. */
  predicate IsYear2025(v: Value) {
    v == Num(2025.0) || v == Str("2025")
  }

  /** The year default the comment above `loadYears`'s choice describes:
      2025 when the list has it, whether as a number or as a string,
      otherwise the first year. */
  function CorrectedYearDefault(list: seq<Value>): (r: Value)
    requires |list| > 0
    ensures r in list
    ensures IsYear2025(r) <==> exists i :: 0 <= i < |list| && IsYear2025(list[i])
    ensures !IsYear2025(r) ==> r == list[0]
  {
    if Str("2025") in list then Str("2025") else DefaultChoice(list, PreferredYear)
  }

  /** With the backend's year list, the corrected default is 2025. */
  lemma CorrectedYearDefaultOnBackendYears()
    ensures CorrectedYearDefault([Str("1995"), Str("2025"), Str("2055"), Str("2085")]) == Str("2025")
  {
  }

  /** Had the year list held numbers, 2025 would have been chosen. */
  lemma NumericYearsDefaultTo2025()
    ensures DefaultChoice([Num(1995.0), Num(2025.0), Num(2055.0), Num(2085.0)], PreferredYear) == Num(2025.0)
  {
  }

  /** The backend's scenario and variable lists contain the preferred values. */
  lemma BackendScenarioAndVariableDefaults()
    ensures DefaultChoice([Str("ssp126"), Str("ssp585")], PreferredScenario) == Str("ssp585")
    ensures DefaultChoice([Str("pr"), Str("et"), Str("rh")], PreferredVariable) == Str("pr")
  {
  }
}
