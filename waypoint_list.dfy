/**
 * Model of WaypointList.java: a first-in first-out queue of waypoints kept in a
 * growable list that the methods change in place. `points` is that list; index 0
 * is the head, the current navigation target.
 */
module Waypoints {
  import opened Wrappers
  import opened Vectors

  class WaypointList {
    var points: seq<Vector2>

    constructor ()
      ensures points == []
    {
      points := [];
    }

    /** The head waypoint, or None (the source's null) when the list is empty. */
    method Peek() returns (head: Option<Vector2>)
      ensures head.None? <==> points == []
      ensures head.Some? ==> head.value == points[0]
    {
      if |points| == 0 {
        return None;
      }
      return Some(points[0]);
    }

    method Clear()
      modifies this
      ensures points == []
    {
      points := [];
    }

    method Size() returns (n: nat)
      ensures n == |points|
    {
      n := |points|;
    }

    /** Removes the head; the source throws on an empty list, and its only caller
        checks the size first. */
    method Dequeue()
      requires points != []
      modifies this
      ensures points == old(points)[1..]
      ensures |points| == |old(points)| - 1
    {
      points := points[1..];
    }

    method Enqueue(v: Vector2)
      modifies this
      ensures points == old(points) + [v]
      ensures |points| == |old(points)| + 1 && points[|points| - 1] == v
    {
      points := points + [v];
    }

    /** Indexed read, used only to draw the path; out-of-range indices throw in the
        source. */
    method GetWaypoint(i: int) returns (v: Vector2)
      requires 0 <= i < |points|
      ensures v == points[i]
    {
      v := points[i];
    }
  }

  /** First in, first out: two waypoints enqueued on an empty list come out in the
      order they went in. */
  method FifoOrder(a: Vector2, b: Vector2) returns (first: Option<Vector2>, second: Option<Vector2>, remaining: nat)
    ensures first == Some(a)
    ensures second == Some(b)
    ensures remaining == 1
  {
    var list := new WaypointList();
    list.Enqueue(a);
    list.Enqueue(b);
    first := list.Peek();
    list.Dequeue();
    second := list.Peek();
    remaining := list.Size();
  }
}
