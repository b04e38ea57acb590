/**
 * The safety-net sort of reported issues by their `location` field. The sort
 * key is the location string, or "~" when the location is missing or null;
 * keys compare as Python strings, and issues with equal keys keep their input
 * order.
 */
module IssueSort {
  import opened Wrappers
  import opened JsonValues
  import opened Strings
  import opened StableSort

  /** The key that stands in for a missing or null location. */
  const MissingLocationKey: string := "~"

  function LocationKey(issue: Json): string
  {
    if issue.JObj? && "location" in issue.fields && issue.fields["location"].JStr?
    then issue.fields["location"].s
    else MissingLocationKey
  }

  /**
   * An issue the key function accepts: an object whose location is missing,
   * null or a string.
   */
  predicate HasSortableLocation(issue: Json)
  {
    issue.JObj? &&
    ("location" !in issue.fields || issue.fields["location"].JNull? || issue.fields["location"].JStr?)
  }

  /**
   * `_sort_issues_by_location`: an empty list comes back as it is; a list whose
   * elements the key function accepts comes back stably sorted by location
   * key; any other list makes the sort raise (`None`).
   */
  function SortIssuesByLocation(issues: seq<Json>): (r: Option<seq<Json>>)
    ensures r.Some? <==> forall i :: 0 <= i < |issues| ==> HasSortableLocation(issues[i])
    ensures r.Some? ==> IsStableSortOf(r.value, issues, LocationKey)
    ensures issues == [] ==> r == Some([])
  {
    if issues == [] then Some(issues)
    else if forall i :: 0 <= i < |issues| ==> HasSortableLocation(issues[i]) then
      SortByIsStableSort(issues, LocationKey);
      Some(SortBy(issues, LocationKey))
    else None
  }

  /** Sorting keeps the issues themselves: when the input is a list of objects, so is the output. */
  lemma SortedIssuesAreObjects(sorted: seq<Json>, issues: seq<Json>)
    requires IsStableSortOf(sorted, issues, LocationKey)
    requires forall i :: 0 <= i < |issues| ==> HasSortableLocation(issues[i])
    ensures forall i :: 0 <= i < |sorted| ==> sorted[i].JObj?
  {
    forall i | 0 <= i < |sorted|
      ensures sorted[i].JObj?
    {
      assert sorted[i] in multiset(sorted);
      assert sorted[i] in issues;
      var j :| 0 <= j < |issues| && issues[j] == sorted[i];
    }
  }

  /** The issues of the worked example below, one per kind of location. */
  function ExampleIssue(location: Json): Json
  {
    JObj(map["location" := location])
  }

  /** The last three issues of the worked example sort to ["", "a.py:1", null]. */
  lemma ExampleTailOrder()
    ensures
      var none, a, empty := ExampleIssue(JNull), ExampleIssue(JStr("a.py:1")), ExampleIssue(JStr(""));
      SortBy([none, a, empty], LocationKey) == [empty, a, none]
  {
    var none, a, empty := ExampleIssue(JNull), ExampleIssue(JStr("a.py:1")), ExampleIssue(JStr(""));
    assert LocationKey(none) == "~" && LocationKey(a) == "a.py:1" && LocationKey(empty) == "";
    assert !LexLe("a.py:1", "") && !LexLe("~", "") && !LexLe("~", "a.py:1");
    assert [none, a, empty][1..] == [a, empty] && [a, empty][1..] == [empty];
    assert [empty][1..] == [] && [empty, a][1..] == [a] && [a][1..] == [];
    assert SortBy([empty], LocationKey) == [empty];
    assert InsertBy(a, [empty], LocationKey) == [empty] + InsertBy(a, [], LocationKey);
    assert SortBy([a, empty], LocationKey) == [empty, a];
    assert InsertBy(none, [a], LocationKey) == [a] + InsertBy(none, [], LocationKey);
    assert InsertBy(none, [empty, a], LocationKey) == [empty] + InsertBy(none, [a], LocationKey);
  }

  /** The worked example: ["b.py:2", null, "a.py:1", ""] sorts to ["", "a.py:1", "b.py:2", null]. */
  lemma ExampleOrder()
    ensures
      var b, none := ExampleIssue(JStr("b.py:2")), ExampleIssue(JNull);
      var a, empty := ExampleIssue(JStr("a.py:1")), ExampleIssue(JStr(""));
      SortIssuesByLocation([b, none, a, empty]) == Some([empty, a, b, none])
  {
    var b, none := ExampleIssue(JStr("b.py:2")), ExampleIssue(JNull);
    var a, empty := ExampleIssue(JStr("a.py:1")), ExampleIssue(JStr(""));
    ExampleTailOrder();
    assert LocationKey(b) == "b.py:2" && LocationKey(none) == "~";
    assert LocationKey(a) == "a.py:1" && LocationKey(empty) == "";
    assert !LexLe("b.py:2", "") && !LexLe("b.py:2", "a.py:1") && LexLe("b.py:2", "~");
    assert [b, none, a, empty][1..] == [none, a, empty];
    assert [empty, a, none][1..] == [a, none] && [a, none][1..] == [none];
    assert InsertBy(b, [none], LocationKey) == [b, none];
    assert InsertBy(b, [a, none], LocationKey) == [a] + InsertBy(b, [none], LocationKey);
    assert InsertBy(b, [empty, a, none], LocationKey) == [empty] + InsertBy(b, [a, none], LocationKey);
    assert SortBy([b, none, a, empty], LocationKey) == [empty, a, b, none];
    assert HasSortableLocation(b) && HasSortableLocation(none);
    assert HasSortableLocation(a) && HasSortableLocation(empty);
  }

  /**
   * A missing location is keyed "~", which is not the largest string: a
   * location that extends "~" (or starts above it) sorts after it.
   */
  lemma MissingLocationIsNotLast()
    ensures
      var missing := JObj(map["severity" := JStr("low")]);
      var home := JObj(map["location" := JStr("~/notes.py:3")]);
      SortIssuesByLocation([home, missing]) == Some([missing, home])
  {
    var missing := JObj(map["severity" := JStr("low")]);
    var home := JObj(map["location" := JStr("~/notes.py:3")]);
    assert LocationKey(home) == "~/notes.py:3" && LocationKey(missing) == "~";
    assert "~/notes.py:3"[1..] != [];
    assert !LexLe("~/notes.py:3", "~");
    assert [home, missing][1..] == [missing] && [missing][1..] == [];
    assert SortBy([missing], LocationKey) == [missing];
    assert InsertBy(home, [], LocationKey) == [home];
    assert InsertBy(home, [missing], LocationKey) == [missing, home];
  }
}
