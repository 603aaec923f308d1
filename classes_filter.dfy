/** The filter bar of the public class list
    (components/classes/classes-filter.tsx): a type button or a grade
    choice rewrites one query parameter of the current URL and keeps the
    others. The query is a URLSearchParams list, whose `delete` and `set`
    follow section 6.2 of the WHATWG URL Standard. */
module ClassesFilter {
  import opened Types
  import Forms

  /** The name/value list of a query string, in order. */
  type Query = seq<(string, string)>

  /** The pairs whose name is not `name`, in order: `delete(name)`. */
  function RemoveName(q: Query, name: string): (r: Query)
    ensures |r| <= |q|
    ensures forall i :: 0 <= i < |r| ==> r[i].0 != name
  {
    if q == [] then []
    else if q[0].0 == name then RemoveName(q[1..], name)
    else [q[0]] + RemoveName(q[1..], name)
  }

  /** `set(name, value)`: the first pair of that name takes the value and
      the later ones go; with none, the pair is appended. */
  function SetName(q: Query, name: string, value: string): Query {
    if q == [] then [(name, value)]
    else if q[0].0 == name then [(name, value)] + RemoveName(q[1..], name)
    else [q[0]] + SetName(q[1..], name, value)
  }

  /** Number of pairs named `name`. */
  function Count(q: Query, name: string): nat {
    if q == [] then 0 else (if q[0].0 == name then 1 else 0) + Count(q[1..], name)
  }

  /** Removing a name leaves the other names' lookups as they were. */
  lemma {:induction false} RemoveNameLookup(q: Query, name: string, other: string)
    ensures Forms.Lookup(RemoveName(q, name), other) == if other == name then None else Forms.Lookup(q, other)
  {
    if q != [] {
      RemoveNameLookup(q[1..], name, other);
      if q[0].0 != name {
        assert RemoveName(q, name)[1..] == RemoveName(q[1..], name);
      }
    }
  }

  lemma {:induction false} RemoveNameIdempotent(q: Query, name: string)
    ensures RemoveName(RemoveName(q, name), name) == RemoveName(q, name)
    ensures Count(RemoveName(q, name), name) == 0
  {
    if q != [] {
      RemoveNameIdempotent(q[1..], name);
      if q[0].0 != name {
        assert RemoveName(q, name)[1..] == RemoveName(q[1..], name);
      }
    }
  }

  /** After `set`, the name answers the value and occurs once, and the list
      with that name taken out is what it was before: every other pair is
      kept, in order. */
  lemma {:induction false} SetNameSpec(q: Query, name: string, value: string)
    ensures Forms.Lookup(SetName(q, name, value), name) == Some(value)
    ensures Count(SetName(q, name, value), name) == 1
    ensures RemoveName(SetName(q, name, value), name) == RemoveName(q, name)
  {
    var r := SetName(q, name, value);
    if q == [] {
      assert r[1..] == [];
    } else if q[0].0 == name {
      RemoveNameIdempotent(q[1..], name);
      assert r[1..] == RemoveName(q[1..], name);
    } else {
      SetNameSpec(q[1..], name, value);
      assert r[1..] == SetName(q[1..], name, value);
    }
  }

  /** Setting an existing name keeps its place: the first pair of that name
      stays where it was. */
  lemma {:induction false} SetNameInPlace(q: Query, name: string, value: string, i: nat)
    requires i < |q| && q[i].0 == name && forall j :: 0 <= j < i ==> q[j].0 != name
    ensures |SetName(q, name, value)| > i && SetName(q, name, value)[i] == (name, value)
    ensures SetName(q, name, value)[..i] == q[..i]
  {
    if i > 0 {
      SetNameInPlace(q[1..], name, value, i - 1);
      var r := SetName(q, name, value);
      assert r[1..] == SetName(q[1..], name, value);
      assert r[..i] == [q[0]] + q[1..][..i - 1];
    }
  }

  /** A URLSearchParams object. */
  class SearchParams {
    var list: Query

    /** `new URLSearchParams(searchParams.toString())`: a copy. */
    constructor (init: Query)
      ensures list == init
    {
      list := init;
    }

    function Get(name: string): Option<string>
      reads this
    {
      Forms.Lookup(list, name)
    }

    method Delete(name: string)
      modifies this
      ensures list == RemoveName(old(list), name)
      ensures Get(name).None?
    {
      list := RemoveName(list, name);
      RemoveNameLookup(old(list), name, name);
    }

    method Set(name: string, value: string)
      modifies this
      ensures list == SetName(old(list), name, value)
      ensures Get(name) == Some(value)
    {
      list := SetName(list, name, value);
      SetNameSpec(old(list), name, value);
    }
  }

  /** updateFilter (components/classes/classes-filter.tsx:31-38): the query
      of the URL pushed. "all" drops the key, any other value sets it to
      exactly that value, and every other pair is kept in order. */
  method UpdateFilter(current: Query, key: string, value: string) returns (query: Query)
    ensures Forms.Lookup(query, key) == if value == "all" then None else Some(value)
    ensures RemoveName(query, key) == RemoveName(current, key)
    ensures forall other :: other != key ==> Forms.Lookup(query, other) == Forms.Lookup(current, other)
    ensures Count(query, key) == if value == "all" then 0 else 1
  {
    var params := new SearchParams(current);
    if value == "all" {
      params.Delete(key);
      RemoveNameIdempotent(current, key);
    } else {
      params.Set(key, value);
      SetNameSpec(current, key, value);
    }
    query := params.list;
    forall other | other != key
      ensures Forms.Lookup(query, other) == Forms.Lookup(current, other)
    {
      RemoveNameLookup(query, key, other);
      RemoveNameLookup(current, key, other);
    }
  }

  /** The type buttons (components/classes/classes-filter.tsx:7-12). */
  function TypeValues(): seq<string> {
    ["all", "in-person", "online", "individual"]
  }

  /** The active-button rule (components/classes/classes-filter.tsx:47). */
  predicate TypeActive(currentType: Option<string>, value: string) {
    currentType == Some(value) || (!Forms.Truthy(currentType) && value == "all")
  }

  /** With no type or one of the four, exactly one button is active. */
  lemma {:induction false} ExactlyOneTypeActive(currentType: Option<string>)
    requires currentType.None? || currentType.value in TypeValues()
    ensures exists i :: 0 <= i < |TypeValues()| && TypeActive(currentType, TypeValues()[i])
    ensures forall i, j ::
              (0 <= i < |TypeValues()| && 0 <= j < |TypeValues()|
               && TypeActive(currentType, TypeValues()[i]) && TypeActive(currentType, TypeValues()[j])) ==> i == j
  {
    if currentType.None? {
      assert TypeActive(currentType, TypeValues()[0]);
    } else {
      var k :| 0 <= k < |TypeValues()| && TypeValues()[k] == currentType.value;
      assert TypeActive(currentType, TypeValues()[k]);
    }
  }

  /** Clicking a type button makes that button the active one once the
      page reads `type` back from the URL UpdateFilter produced. */
  lemma {:induction false} ClickedTypeBecomesActive(query: Query, i: nat)
    requires i < |TypeValues()|
    requires Forms.Lookup(query, "type") == if TypeValues()[i] == "all" then None else Some(TypeValues()[i])
    ensures TypeActive(Forms.Lookup(query, "type"), TypeValues()[i])
    ensures forall j :: 0 <= j < |TypeValues()| && TypeActive(Forms.Lookup(query, "type"), TypeValues()[j]) ==> j == i
  {
    ExactlyOneTypeActive(Forms.Lookup(query, "type"));
  }

  /** The grade select's value (components/classes/classes-filter.tsx:61). */
  function GradeSelectValue(currentGrade: Option<string>): (v: string)
    ensures !Forms.Truthy(currentGrade) ==> v == "all"
    ensures Forms.Truthy(currentGrade) ==> v == currentGrade.value
  {
    if Forms.Truthy(currentGrade) then currentGrade.value else "all"
  }

  /** The grade options (components/classes/classes-filter.tsx:14-20). */
  function GradeFilterValues(): seq<string> {
    ["all", "tk-2", "3-5", "6-8", "9-12"]
  }

  /** Choosing a grade option shows that option in the select once the
      page reads `grade` back from the URL UpdateFilter produced; "all"
      is shown for a URL without a grade. */
  lemma {:induction false} ChosenGradeIsShown(query: Query, i: nat)
    requires i < |GradeFilterValues()|
    requires Forms.Lookup(query, "grade") == if GradeFilterValues()[i] == "all" then None else Some(GradeFilterValues()[i])
    ensures GradeSelectValue(Forms.Lookup(query, "grade")) == GradeFilterValues()[i]
  {
    assert GradeFilterValues()[i] != "";
  }

  /** The select shows "all" exactly when the URL has no grade, an empty
      one, or the literal grade "all". */
  lemma {:induction false} GradeSelectAllMeansNoGrade(currentGrade: Option<string>)
    ensures GradeSelectValue(currentGrade) == "all" <==> !Forms.Truthy(currentGrade) || currentGrade == Some("all")
  {
  }
}
