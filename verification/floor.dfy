/** The durable observation floor of one Mission: the greatest recorded point,
    and why recording only FRESH reads can never lower it or split it
    (coordination/service.py:48-101). */
module Floor {
  import opened Record
  import opened Observations

  function Members(points: seq<Point>): set<Point> { set p | p in points }

  /** high_water_mark's answer for points visited in this order. */
  function Mark(points: seq<Point>): Result<Option<Point>> {
    if points == [] then Ok(None) else
      var best :- Mark(points[..|points|-1]);
      var p := points[|points|-1];
      if best.None? || Behind(best.value, p) then Ok(Some(p))
      else if SamePair(p, best.value) && p != best.value then Refused(ObservationInconsistent)
      else Ok(best)
  }

  /** The loop of high_water_mark, keeping the best pair seen. */
  method HighWaterMark(points: seq<Point>) returns (r: Result<Option<Point>>)
    ensures r == Mark(points)
  {
    var best: Option<Point> := None;
    for i := 0 to |points|
      invariant Mark(points[..i]) == Ok(best)
      invariant Mark(points[..i]).Refused? ==> Mark(points).Refused?
    {
      var p := points[i];
      assert points[..i + 1][..i] == points[..i];
      if best.None? || Behind(best.value, p) {
        best := Some(p);
      } else if SamePair(p, best.value) && p != best.value {
        RefusalPersists(points, i + 1);
        return Refused(ObservationInconsistent);
      }
    }
    assert points[..|points|] == points;
    r := Ok(best);
  }

  lemma {:induction false} RefusalPersists(points: seq<Point>, k: nat)
    requires k <= |points| && Mark(points[..k]).Refused?
    ensures Mark(points) == Refused(ObservationInconsistent)
    decreases |points|
  {
    if k == |points| {
      assert points[..k] == points;
      RefusedCode(points);
    } else {
      assert points[..|points|-1][..k] == points[..k];
      RefusalPersists(points[..|points|-1], k);
    }
  }

  lemma {:induction false} RefusedCode(points: seq<Point>)
    requires Mark(points).Refused?
    ensures Mark(points) == Refused(ObservationInconsistent)
  {
    if Mark(points[..|points|-1]).Refused? { RefusedCode(points[..|points|-1]); }
  }

  /** No two recorded points at one (revision, cursor) differ. */
  ghost predicate Consistent(s: set<Point>) {
    && (forall p :: p in s ==> ValidPoint(p))
    && (forall p, q :: p in s && q in s && SamePair(p, q) ==> p == q)
  }

  ghost predicate IsFloor(s: set<Point>, m: Option<Point>) {
    && (m.None? <==> s == {})
    && (m.Some? ==> m.value in s && forall p :: p in s ==> !Behind(m.value, p))
  }

  /** On consistent points the mark exists, is the greatest, and depends on no order. */
  lemma {:induction false} MarkOfConsistent(points: seq<Point>)
    requires Consistent(Members(points))
    ensures Mark(points).Ok? && IsFloor(Members(points), Mark(points).value)
  {
    if points != [] {
      var init := points[..|points|-1];
      assert points == init + [points[|points|-1]];
      assert Members(points) == Members(init) + {points[|points|-1]};
      MarkOfConsistent(init);
    }
  }

  /** Exactly when the mark refuses: a point repeats the greatest pair of what
      was visited before it with different content. */
  lemma {:induction false} MarkRefusesExactly(points: seq<Point>)
    ensures Mark(points).Refused? <==> exists i, j :: Equivocates(points, i, j)
    ensures Mark(points).Ok? && points != [] ==>
      Mark(points).value.Some? && Mark(points).value.value in points
      && forall p :: p in points ==> !Behind(Mark(points).value.value, p)
  {
    if points != [] {
      var n := |points| - 1;
      var init := points[..n];
      MarkRefusesExactly(init);
      assert points == init + [points[n]];
      forall i, j | Equivocates(init, i, j) ensures Equivocates(points, i, j) {
        assert points[i] == init[i] && points[j] == init[j];
      }
      if Mark(init).Refused? {
        var i, j :| Equivocates(init, i, j);
        assert Equivocates(points, i, j);
      } else {
        forall i, j | Equivocates(points, i, j) && j < n ensures Equivocates(init, i, j) {
          assert points[i] == init[i] && points[j] == init[j];
        }
        if init != [] {
          var best := Mark(init).value.value;
          var k :| 0 <= k < n && init[k] == best;
          if Mark(points).Refused? {
            assert Equivocates(points, k, n);
          } else {
            forall i | Equivocates(points, i, n) ensures false {
              MarkKeepsPair(init, i);
            }
          }
        }
      }
    }
  }

  ghost predicate Equivocates(points: seq<Point>, i: int, j: int) {
    && 0 <= i < j < |points|
    && SamePair(points[i], points[j]) && points[i] != points[j]
    && forall k :: 0 <= k < j ==> !Behind(points[i], points[k])
  }

  /** While the mark stands, a visited point at the greatest pair is the mark. */
  lemma {:induction false} MarkKeepsPair(points: seq<Point>, i: nat)
    requires Mark(points).Ok? && i < |points|
    requires forall k :: 0 <= k < |points| ==> !Behind(points[i], points[k])
    ensures Mark(points).value == Some(points[i])
  {
    var n := |points| - 1;
    var init := points[..n];
    assert forall k :: 0 <= k < n ==> init[k] == points[k];
    if i < n {
      MarkKeepsPair(init, i);
    } else if init != [] {
      MarkRefusesExactly(init);
      var best := Mark(init).value.value;
      var k :| 0 <= k < n && init[k] == best;
      assert !Behind(points[i], points[k]);
    }
  }

  /** Every effect an operation may have on one Mission's recorded points:
      it records at most the one FRESH read, and loses a point only when that
      read itself is recorded in its place. */
  ghost predicate Advances(was: set<Point>, now: set<Point>, read: Option<Point>) {
    && now <= was + (if read.Some? then {read.value} else {})
    && (was <= now || (read.Some? && read.value in now))
  }

  ghost predicate Admissible(m: Option<Point>, read: Option<Point>) {
    read.Some? ==> ValidPoint(read.value)
                   && (m.Some? ==> read.value == m.value || Behind(m.value, read.value))
  }

  lemma FreshKeepsFloor(was: set<Point>, now: set<Point>, m: Option<Point>, m': Option<Point>, read: Option<Point>)
    requires Consistent(was) && IsFloor(was, m)
    requires Admissible(m, read) && Advances(was, now, read)
    ensures Consistent(now)
    ensures IsFloor(now, m') && m.Some? ==> m'.Some? && !Behind(m'.value, m.value)
  {
  }

  /** There is only one floor. */
  lemma FloorIsUnique(s: set<Point>, m: Option<Point>, m': Option<Point>)
    requires Consistent(s) && IsFloor(s, m) && IsFloor(s, m')
    ensures m == m'
  {
  }
}
