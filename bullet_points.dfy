/** BulletPoints: the bullet-list editor. It keeps a draft line, appends the
    trimmed draft when it is not blank, and removes or replaces one point by
    index. Every change works on a copy of the list and reports the copy. */
module BulletPoints {
  import opened Text
  import opened Seqs

  class BulletPointInput {
    /** The list as last reported to the parent (the `points` prop). */
    var points: seq<string>
    /** The draft line (`newPoint`). */
    var newPoint: string

    constructor(initial: seq<string>)
      ensures points == initial && newPoint == ""
    {
      points := initial;
      newPoint := "";
    }

    /** Typing into the draft input. */
    method SetDraft(value: string)
      modifies this
      ensures newPoint == value && points == old(points)
    {
      newPoint := value;
    }

    /** `addPoint`: a draft that is not blank is trimmed and appended, and the
      draft is cleared; a blank draft changes nothing. */
    method AddPoint()
      modifies this
      ensures !IsBlank(old(newPoint)) ==> points == old(points) + [Trim(old(newPoint))] && newPoint == ""
      ensures IsBlank(old(newPoint)) ==> points == old(points) && newPoint == old(newPoint)
    {
      var trimmed := Trim(newPoint);
      if trimmed != "" {
        points := points + [trimmed];
        newPoint := "";
      }
    }

    /** `removePoint`: copy the list, then close the gap at `index` by
      shifting the later points one place left. The delete buttons exist
      only for the points shown, so `index` is always in range. */
    method RemovePoint(index: nat)
      requires index < |points|
      modifies this
      ensures points == RemoveAt(old(points), index)
      ensures newPoint == old(newPoint)
    {
      var source := points;
      var n := |source|;
      var updated := new string[n];
      for k := 0 to n
        modifies updated
        invariant forall m :: 0 <= m < k ==> updated[m] == source[m]
      {
        updated[k] := source[k];
      }
      for k := index to n - 1
        modifies updated
        invariant forall m :: 0 <= m < index ==> updated[m] == source[m]
        invariant forall m :: index <= m < k ==> updated[m] == source[m + 1]
        invariant forall m :: k <= m < n ==> updated[m] == source[m]
      {
        updated[k] := updated[k + 1];
      }
      ghost var expected := RemoveAt(source, index);
      assert forall m :: 0 <= m < n - 1 ==> updated[..n - 1][m] == expected[m];
      points := updated[..n - 1];
    }

    /** `updatePoint`: copy the list and overwrite the point at `index`. The
      inputs exist only for the points shown, so `index` is always in range. */
    method UpdatePoint(index: nat, value: string)
      requires index < |points|
      modifies this
      ensures |points| == |old(points)|
      ensures points[index] == value
      ensures forall m :: 0 <= m < |points| && m != index ==> points[m] == old(points)[m]
      ensures newPoint == old(newPoint)
    {
      var source := points;
      var n := |source|;
      var updated := new string[n];
      for k := 0 to n
        modifies updated
        invariant forall m :: 0 <= m < k ==> updated[m] == source[m]
      {
        updated[k] := source[k];
      }
      updated[index] := value;
      points := updated[..];
    }

    /** `handleKeyDown`: Enter adds the draft exactly as the button does; any
      other key changes nothing. */
    method HandleKeyDown(key: string)
      modifies this
      ensures key == "Enter" && !IsBlank(old(newPoint)) ==>
        points == old(points) + [Trim(old(newPoint))] && newPoint == ""
      ensures key != "Enter" || IsBlank(old(newPoint)) ==>
        points == old(points) && newPoint == old(newPoint)
    {
      if key == "Enter" {
        AddPoint();
      }
    }
  }

  /** What `AddPoint` appends carries no surrounding white space and is never
      empty, and trimming it again changes nothing. */
  lemma AddedPointIsTrimmed(draft: string)
    requires !IsBlank(draft)
    ensures var p := Trim(draft);
      p != "" && !IsSpace(p[0]) && !IsSpace(p[|p| - 1]) && Trim(p) == p
  {
    TrimIdempotent(draft);
  }
}
