/** check_skipped_condition and check_skipped_wrapper of the pytest plugin. */
module Skips {

  import opened Items

  /** A marker that skips: `skip`, or `skipif` with at least one truthy argument. */
  predicate SkipMarker(m: Marker)
  {
    m.name == "skip" || (m.name == "skipif" && true in m.args)
  }

  /** Some marker of the list skips. */
  predicate SkipMarked(markers: seq<Marker>)
  {
    exists i :: 0 <= i < |markers| && SkipMarker(markers[i])
  }

  /** The item or one of its enclosing classes carries a skipping marker. */
  predicate SkippedAtAnyLevel(item: TestItem)
  {
    SkipMarked(item.markers) ||
    exists i :: 0 <= i < |item.classes| && SkipMarked(item.classes[i].markers)
  }

  /** check_skipped_condition: scans the markers and stops at the first one that skips. */
  method CheckSkippedCondition(markers: seq<Marker>) returns (skipped: bool)
    ensures skipped <==> SkipMarked(markers)
  {
    for i := 0 to |markers|
      invariant forall j :: 0 <= j < i ==> !SkipMarker(markers[j])
    {
      var marker := markers[i];
      var skipCondition := false;
      if marker.name == "skipif" {
        skipCondition := true in marker.args;
      }
      if marker.name == "skip" || skipCondition {
        return true;
      }
    }
    return false;
  }

  /**
   * check_skipped_wrapper: the item's own markers, then each enclosing
   * Class going outwards; the walk ends at the first parent that is not a
   * Class, so markers of the file are not consulted.
   */
  method CheckSkippedWrapper(item: TestItem) returns (skipped: bool)
    ensures skipped <==> SkippedAtAnyLevel(item)
  {
    if |item.markers| > 0 {
      skipped := CheckSkippedCondition(item.markers);
      if skipped {
        return;
      }
    }
    var i := 0;
    while i < |item.classes|
      invariant 0 <= i <= |item.classes|
      invariant !SkipMarked(item.markers)
      invariant forall j :: 0 <= j < i ==> !SkipMarked(item.classes[j].markers)
    {
      var parent := item.classes[i];
      if |parent.markers| > 0 {
        skipped := CheckSkippedCondition(parent.markers);
        if skipped {
          return;
        }
      }
      i := i + 1;
    }
    return false;
  }
}
