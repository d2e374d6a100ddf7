/** Growing departments to their content and pushing the ones placed below them down. */
module FitLayout {
  import opened Numbers

  datatype Frame = Frame(id: string, x: real, y: real, width: real, height: real)

  type Heights = map<string, real>
  type Tops = map<string, real>

  const SLACK := 0.5

  function HeightOf(box: Frame, heights: Heights): real {
    Max(box.height, if box.id in heights then heights[box.id] else 0.0)
  }

  /** `below` was placed below `above`, up to one pixel of overlap. */
  predicate Stacked(above: Frame, below: Frame) {
    below.id != above.id && below.y + 1.0 >= above.y + above.height
  }

  function Gap(above: Frame, below: Frame): real {
    Max(0.0, below.y - (above.y + above.height))
  }

  function MinTop(above: Frame, below: Frame, heights: Heights, tops: Tops): real
    requires above.id in tops
  {
    tops[above.id] + HeightOf(above, heights) + Gap(above, below)
  }

  // ---- The order in which boxes are visited

  predicate Before(a: Frame, b: Frame) {
    a.y < b.y || (a.y == b.y && a.x <= b.x)
  }

  function Insert(box: Frame, boxes: seq<Frame>): seq<Frame> {
    if boxes == [] || Before(box, boxes[0]) then [box] + boxes else [boxes[0]] + Insert(box, boxes[1..])
  }

  /** The stable sort by top edge, then left edge. */
  function Order(boxes: seq<Frame>): seq<Frame> {
    if boxes == [] then [] else Insert(boxes[0], Order(boxes[1..]))
  }

  predicate Ordered(boxes: seq<Frame>) {
    forall i, j :: 0 <= i < j < |boxes| ==> Before(boxes[i], boxes[j])
  }

  lemma {:induction false} InsertSpec(box: Frame, boxes: seq<Frame>)
    requires Ordered(boxes)
    ensures Ordered(Insert(box, boxes))
    ensures multiset(Insert(box, boxes)) == multiset(boxes) + multiset{box}
  {
    InsertAdds(box, boxes);
    if boxes != [] && !Before(box, boxes[0]) {
      InsertSpec(box, boxes[1..]);
      var rest := Insert(box, boxes[1..]);
      InsertAdds(box, boxes[1..]);
      forall j | 0 <= j < |rest| ensures Before(boxes[0], rest[j]) {
        InsertedFrom(box, boxes[1..], rest[j]);
      }
    }
  }

  lemma {:induction false} InsertAdds(box: Frame, boxes: seq<Frame>)
    ensures multiset(Insert(box, boxes)) == multiset(boxes) + multiset{box}
  {
    hide Before;
    if boxes != [] {
      assert boxes == [boxes[0]] + boxes[1..];
      if !Before(box, boxes[0]) {
        InsertAdds(box, boxes[1..]);
      }
    }
  }

  lemma InsertedFrom(box: Frame, boxes: seq<Frame>, x: Frame)
    requires x in Insert(box, boxes)
    ensures x == box || x in boxes
  {
    hide Insert;
    InsertAdds(box, boxes);
    assert x in multiset(Insert(box, boxes));
  }

  lemma {:induction false} OrderSpec(boxes: seq<Frame>)
    ensures Ordered(Order(boxes)) && multiset(Order(boxes)) == multiset(boxes)
  {
    if boxes != [] {
      OrderSpec(boxes[1..]);
      InsertSpec(boxes[0], Order(boxes[1..]));
      assert boxes == [boxes[0]] + boxes[1..];
    }
  }

  // ---- One pass

  ghost predicate Covers(tops: Tops, boxes: seq<Frame>) {
    forall i :: 0 <= i < |boxes| ==> boxes[i].id in tops
  }

  /** One visit of the inner loop, with a tolerance. */
  function Push(tops: Tops, above: Frame, below: Frame, heights: Heights, slack: real): (t: Tops)
    requires above.id in tops && below.id in tops && slack >= 0.0
    ensures t.Keys == tops.Keys
    ensures t == tops || (t == tops[below.id := t[below.id]] && tops[below.id] < t[below.id])
  {
    if Stacked(above, below) && tops[below.id] + slack < MinTop(above, below, heights, tops)
    then tops[below.id := MinTop(above, below, heights, tops)]
    else tops
  }

  /** The inner loop over the first `j` boxes. */
  function Row(tops: Tops, above: Frame, boxes: seq<Frame>, j: nat, heights: Heights, slack: real): (t: Tops)
    requires j <= |boxes| && above.id in tops && Covers(tops, boxes) && slack >= 0.0
    ensures t.Keys == tops.Keys
  {
    if j == 0 then tops
    else Push(Row(tops, above, boxes, j - 1, heights, slack), above, boxes[j - 1], heights, slack)
  }

  /** The outer loop over the first `i` boxes. */
  function Pass(tops: Tops, boxes: seq<Frame>, i: nat, heights: Heights, slack: real): (t: Tops)
    requires i <= |boxes| && Covers(tops, boxes) && slack >= 0.0
    ensures t.Keys == tops.Keys
  {
    if i == 0 then tops
    else Row(Pass(tops, boxes, i - 1, heights, slack), boxes[i - 1], boxes, |boxes|, heights, slack)
  }

  function Passes(tops: Tops, boxes: seq<Frame>, n: nat, heights: Heights, slack: real): (t: Tops)
    requires Covers(tops, boxes) && slack >= 0.0
    ensures t.Keys == tops.Keys
  {
    if n == 0 then tops
    else
      var before := Passes(tops, boxes, n - 1, heights, slack);
      Pass(before, boxes, |boxes|, heights, slack)
  }

  // ---- What a pass achieves

  /** All ids differ and every box is taller than the one pixel of allowed overlap. */
  predicate Regular(boxes: seq<Frame>) {
    && (forall i, j :: 0 <= i < j < |boxes| ==> boxes[i].id != boxes[j].id)
    && (forall i :: 0 <= i < |boxes| ==> boxes[i].height > 1.0)
  }

  predicate Meets(above: Frame, below: Frame, heights: Heights, tops: Tops, slack: real)
    requires above.id in tops && below.id in tops
  {
    Stacked(above, below) ==> tops[below.id] + slack >= MinTop(above, below, heights, tops)
  }

  /** Boxes below the first `i` meet their constraints. */
  ghost predicate Settled(boxes: seq<Frame>, i: nat, heights: Heights, tops: Tops, slack: real)
    requires i <= |boxes| && Covers(tops, boxes)
  {
    forall a, b :: 0 <= a < i && 0 <= b < |boxes| ==> Meets(boxes[a], boxes[b], heights, tops, slack)
  }

  /** In the visiting order a box is pushed only by boxes before it. */
  lemma StackedLater(boxes: seq<Frame>, a: nat, b: nat)
    requires Ordered(boxes) && Regular(boxes) && a < |boxes| && b < |boxes| && Stacked(boxes[a], boxes[b])
    ensures a < b
  {
    assert !Before(boxes[b], boxes[a]);
  }

  ghost predicate RowMeets(boxes: seq<Frame>, i: nat, j: nat, heights: Heights, tops: Tops, slack: real)
    requires i < |boxes| && j <= |boxes| && Covers(tops, boxes)
  {
    forall b :: 0 <= b < j ==> Meets(boxes[i], boxes[b], heights, tops, slack)
  }

  lemma PushSettles(tops: Tops, boxes: seq<Frame>, i: nat, j: nat, heights: Heights, slack: real)
    requires Ordered(boxes) && Regular(boxes) && i < |boxes| && j < |boxes| && Covers(tops, boxes) && slack >= 0.0
    requires Settled(boxes, i, heights, tops, slack) && RowMeets(boxes, i, j, heights, tops, slack)
    ensures var t := Push(tops, boxes[i], boxes[j], heights, slack);
            && Settled(boxes, i, heights, t, slack) && RowMeets(boxes, i, j + 1, heights, t, slack)
  {
    var t := Push(tops, boxes[i], boxes[j], heights, slack);
    if t != tops {
      StackedLater(boxes, i, j);
      forall a, b | 0 <= a <= i && 0 <= b < |boxes| && (a < i || b <= j)
        ensures Meets(boxes[a], boxes[b], heights, t, slack)
      {
        assert boxes[a].id != boxes[j].id;
        if a < i || b < j {
          assert Meets(boxes[a], boxes[b], heights, tops, slack);
        }
      }
    }
  }

  lemma {:induction false} RowSettles(tops: Tops, boxes: seq<Frame>, i: nat, j: nat, heights: Heights, slack: real)
    requires Ordered(boxes) && Regular(boxes) && i < |boxes| && j <= |boxes| && Covers(tops, boxes) && slack >= 0.0
    requires Settled(boxes, i, heights, tops, slack)
    ensures var t := Row(tops, boxes[i], boxes, j, heights, slack);
            Settled(boxes, i, heights, t, slack) && RowMeets(boxes, i, j, heights, t, slack)
  {
    hide Settled, RowMeets, Push;
    if j > 0 {
      RowSettles(tops, boxes, i, j - 1, heights, slack);
      PushSettles(Row(tops, boxes[i], boxes, j - 1, heights, slack), boxes, i, j - 1, heights, slack);
    } else {
      NothingYet(tops, boxes, i, heights, slack);
    }
  }

  lemma NothingYet(tops: Tops, boxes: seq<Frame>, i: nat, heights: Heights, slack: real)
    requires i < |boxes| && Covers(tops, boxes)
    ensures RowMeets(boxes, i, 0, heights, tops, slack)
  {
  }

  lemma NextRow(tops: Tops, boxes: seq<Frame>, i: nat, heights: Heights, slack: real)
    requires i < |boxes| && Covers(tops, boxes)
    requires Settled(boxes, i, heights, tops, slack) && RowMeets(boxes, i, |boxes|, heights, tops, slack)
    ensures Settled(boxes, i + 1, heights, tops, slack)
  {
  }

  lemma {:induction false} PassSettles(tops: Tops, boxes: seq<Frame>, i: nat, heights: Heights, slack: real)
    requires Ordered(boxes) && Regular(boxes) && i <= |boxes| && Covers(tops, boxes) && slack >= 0.0
    ensures Settled(boxes, i, heights, Pass(tops, boxes, i, heights, slack), slack)
  {
    hide Settled, RowMeets, Row, Ordered, Regular;
    if i > 0 {
      var before := Pass(tops, boxes, i - 1, heights, slack);
      PassSettles(tops, boxes, i - 1, heights, slack);
      RowSettles(before, boxes, i - 1, |boxes|, heights, slack);
      NextRow(Row(before, boxes[i - 1], boxes, |boxes|, heights, slack), boxes, i - 1, heights, slack);
    } else {
      NoRows(boxes, heights, tops, slack);
    }
  }

  lemma NoRows(boxes: seq<Frame>, heights: Heights, tops: Tops, slack: real)
    requires Covers(tops, boxes)
    ensures Settled(boxes, 0, heights, tops, slack)
  {
  }

  ghost predicate Rises(tops: Tops, t: Tops) {
    t.Keys == tops.Keys && forall id <- tops :: tops[id] <= t[id]
  }

  lemma {:induction false} RowRises(tops: Tops, above: Frame, boxes: seq<Frame>, j: nat, heights: Heights, slack: real)
    requires j <= |boxes| && above.id in tops && Covers(tops, boxes) && slack >= 0.0
    ensures Rises(tops, Row(tops, above, boxes, j, heights, slack))
  {
    if j > 0 {
      RowRises(tops, above, boxes, j - 1, heights, slack);
    }
  }

  /** No pass moves a box up. */
  lemma {:induction false} PassRises(tops: Tops, boxes: seq<Frame>, i: nat, heights: Heights, slack: real)
    requires i <= |boxes| && Covers(tops, boxes) && slack >= 0.0
    ensures Rises(tops, Pass(tops, boxes, i, heights, slack))
  {
    if i > 0 {
      hide Row;
      PassRises(tops, boxes, i - 1, heights, slack);
      RowRises(Pass(tops, boxes, i - 1, heights, slack), boxes[i - 1], boxes, |boxes|, heights, slack);
    }
  }

  lemma {:induction false} RowIdle(tops: Tops, boxes: seq<Frame>, i: nat, j: nat, heights: Heights, slack: real)
    requires slack >= 0.0
    requires i < |boxes| && j <= |boxes| && Covers(tops, boxes) && Settled(boxes, |boxes|, heights, tops, slack)
    ensures Row(tops, boxes[i], boxes, j, heights, slack) == tops
  {
    if j > 0 {
      RowIdle(tops, boxes, i, j - 1, heights, slack);
      assert Meets(boxes[i], boxes[j - 1], heights, tops, slack);
    }
  }

  /** A pass over settled tops moves nothing. */
  lemma {:induction false} PassIdle(tops: Tops, boxes: seq<Frame>, i: nat, heights: Heights, slack: real)
    requires slack >= 0.0
    requires i <= |boxes| && Covers(tops, boxes) && Settled(boxes, |boxes|, heights, tops, slack)
    ensures Pass(tops, boxes, i, heights, slack) == tops
  {
    if i > 0 {
      hide Settled, Row;
      PassIdle(tops, boxes, i - 1, heights, slack);
      RowIdle(tops, boxes, i - 1, |boxes|, heights, slack);
    }
  }

  lemma {:induction false} FixedPointStays(tops: Tops, boxes: seq<Frame>, n: nat, m: nat, heights: Heights, slack: real)
    requires slack >= 0.0
    requires Covers(tops, boxes) && n <= m
    requires var t := Passes(tops, boxes, n, heights, slack); Pass(t, boxes, |boxes|, heights, slack) == t
    ensures Passes(tops, boxes, m, heights, slack) == Passes(tops, boxes, n, heights, slack)
  {
    hide Pass;
    if n < m {
      FixedPointStays(tops, boxes, n, m - 1, heights, slack);
    }
  }

  // ---- Exact solutions bound every pass from above

  /** Tops that meet every constraint without tolerance and move no box up. */
  ghost predicate Exact(boxes: seq<Frame>, heights: Heights, t: Tops) {
    && Covers(t, boxes)
    && (forall i :: 0 <= i < |boxes| ==> boxes[i].y <= t[boxes[i].id])
    && Settled(boxes, |boxes|, heights, t, 0.0)
  }

  ghost predicate Under(tops: Tops, t: Tops, boxes: seq<Frame>)
    requires Covers(tops, boxes) && Covers(t, boxes)
  {
    forall i :: 0 <= i < |boxes| ==> tops[boxes[i].id] <= t[boxes[i].id]
  }

  lemma {:induction false} RowUnder(tops: Tops, t: Tops, boxes: seq<Frame>, i: nat, j: nat, heights: Heights, slack: real)
    requires slack >= 0.0
    requires i < |boxes| && j <= |boxes| && Covers(tops, boxes) && Exact(boxes, heights, t) && Under(tops, t, boxes)
    ensures Under(Row(tops, boxes[i], boxes, j, heights, slack), t, boxes)
  {
    if j > 0 {
      RowUnder(tops, t, boxes, i, j - 1, heights, slack);
      assert Meets(boxes[i], boxes[j - 1], heights, t, 0.0);
    }
  }

  lemma {:induction false} PassUnder(tops: Tops, t: Tops, boxes: seq<Frame>, i: nat, heights: Heights, slack: real)
    requires slack >= 0.0
    requires i <= |boxes| && Covers(tops, boxes) && Exact(boxes, heights, t) && Under(tops, t, boxes)
    ensures Under(Pass(tops, boxes, i, heights, slack), t, boxes)
  {
    if i > 0 {
      hide Under, Exact, Row;
      PassUnder(tops, t, boxes, i - 1, heights, slack);
      RowUnder(Pass(tops, boxes, i - 1, heights, slack), t, boxes, i - 1, |boxes|, heights, slack);
    }
  }

  lemma {:induction false} PassesUnder(tops: Tops, t: Tops, boxes: seq<Frame>, n: nat, heights: Heights, slack: real)
    requires slack >= 0.0
    requires Covers(tops, boxes) && Exact(boxes, heights, t) && Under(tops, t, boxes)
    ensures Under(Passes(tops, boxes, n, heights, slack), t, boxes)
  {
    if n > 0 {
      hide Under, Exact, Pass;
      PassesUnder(tops, t, boxes, n - 1, heights, slack);
      PassUnder(Passes(tops, boxes, n - 1, heights, slack), t, boxes, |boxes|, heights, slack);
    }
  }

  // ---- The whole function

  /** `new Map(boxes.map(...))`: a later box replaces an earlier one with its id. */
  function StartTops(boxes: seq<Frame>): (t: Tops)
    ensures Covers(t, boxes)
  {
    if boxes == [] then map[]
    else StartTops(boxes[..|boxes| - 1])[boxes[|boxes| - 1].id := boxes[|boxes| - 1].y]
  }

  lemma {:induction false} StartTopsSpec(boxes: seq<Frame>)
    requires forall i, j :: 0 <= i < j < |boxes| ==> boxes[i].id != boxes[j].id
    ensures forall i :: 0 <= i < |boxes| ==> StartTops(boxes)[boxes[i].id] == boxes[i].y
  {
    if boxes != [] {
      StartTopsSpec(boxes[..|boxes| - 1]);
    }
  }

  lemma OrderCovers(boxes: seq<Frame>, tops: Tops)
    requires Covers(tops, boxes)
    ensures Covers(tops, Order(boxes))
  {
    OrderSpec(boxes);
    forall i | 0 <= i < |Order(boxes)| ensures Order(boxes)[i].id in tops {
      assert Order(boxes)[i] in multiset(boxes);
    }
  }

  /** The tops the function ends with. */
  ghost function FitTops(boxes: seq<Frame>, heights: Heights): (t: Tops)
    ensures Covers(t, boxes)
  {
    OrderCovers(boxes, StartTops(boxes));
    Passes(StartTops(boxes), Order(boxes), |Order(boxes)|, heights, SLACK)
  }

  /** The inner loop of the function. */
  method PushBelow(start: Tops, above: Frame, ordered: seq<Frame>, heights: Heights) returns (tops: Tops, moved: bool)
    requires above.id in start && Covers(start, ordered)
    ensures tops == Row(start, above, ordered, |ordered|, heights, SLACK)
    ensures !moved ==> tops == start
  {
    tops, moved := start, false;
    var aboveBottom := tops[above.id] + HeightOf(above, heights);
    for j := 0 to |ordered|
      invariant tops == Row(start, above, ordered, j, heights, SLACK)
      invariant tops[above.id] == start[above.id]
      invariant !moved ==> tops == start
    {
      var below := ordered[j];
      if below.id != above.id && !(below.y + 1.0 < above.y + above.height) {
        var minTop := aboveBottom + Max(0.0, below.y - (above.y + above.height));
        if tops[below.id] + SLACK < minTop {
          tops := tops[below.id := minTop];
          moved := true;
        }
      }
    }
  }

  /** One pass of the outer loop. */
  method PushAll(start: Tops, ordered: seq<Frame>, heights: Heights) returns (tops: Tops, moved: bool)
    requires Covers(start, ordered)
    ensures tops == Pass(start, ordered, |ordered|, heights, SLACK)
    ensures !moved ==> tops == start
  {
    hide Row;
    tops, moved := start, false;
    for i := 0 to |ordered|
      invariant tops == Pass(start, ordered, i, heights, SLACK)
      invariant !moved ==> tops == start
    {
      var pushed;
      tops, pushed := PushBelow(tops, ordered[i], ordered, heights);
      moved := moved || pushed;
    }
  }

  method FitDepartmentLayout(boxes: seq<Frame>, heights: Heights) returns (fitted: seq<Frame>)
    ensures |fitted| == |boxes|
    ensures forall i :: 0 <= i < |boxes| ==>
              fitted[i] == boxes[i].(y := FitTops(boxes, heights)[boxes[i].id], height := HeightOf(boxes[i], heights))
  {
    hide Pass;
    var start := StartTops(boxes);
    var ordered := Order(boxes);
    OrderCovers(boxes, start);
    var tops := start;
    var pass := 0;
    while pass < |ordered|
      invariant 0 <= pass <= |ordered|
      invariant tops == Passes(start, ordered, pass, heights, SLACK)
    {
      var moved;
      tops, moved := PushAll(tops, ordered, heights);
      if !moved {
        FixedPointStays(start, ordered, pass, |ordered|, heights, SLACK);
        break;
      }
      pass := pass + 1;
    }
    fitted := seq(|boxes|, i requires 0 <= i < |boxes| =>
                             boxes[i].(y := tops[boxes[i].id], height := HeightOf(boxes[i], heights)));
  }

  lemma RegularOrder(boxes: seq<Frame>)
    requires Regular(boxes)
    ensures Regular(Order(boxes)) && Ordered(Order(boxes)) && |Order(boxes)| == |boxes|
    ensures forall i :: 0 <= i < |boxes| ==> boxes[i] in Order(boxes)
  {
    OrderSpec(boxes);
    var ordered := Order(boxes);
    assert |multiset(ordered)| == |multiset(boxes)|;
    forall i | 0 <= i < |boxes| ensures boxes[i] in ordered {
      assert boxes[i] in multiset(boxes);
    }
    forall i | 0 <= i < |ordered| ensures ordered[i] in boxes {
      assert ordered[i] in multiset(ordered);
    }
    forall i, j | 0 <= i < j < |ordered| ensures ordered[i].id != ordered[j].id {
      if ordered[i].id == ordered[j].id {
        Once(boxes, ordered[i]);
        Twice(ordered, i, j);
      }
    }
  }

  lemma {:induction false} Once(boxes: seq<Frame>, box: Frame)
    requires forall i, j :: 0 <= i < j < |boxes| ==> boxes[i].id != boxes[j].id
    ensures multiset(boxes)[box] <= 1
  {
    if boxes != [] {
      var front, last := boxes[..|boxes| - 1], boxes[|boxes| - 1];
      Once(front, box);
      assert boxes == front + [last];
      if box == last {
        assert box !in front;
      }
    }
  }

  lemma Twice(boxes: seq<Frame>, i: nat, j: nat)
    requires i < j < |boxes| && boxes[i] == boxes[j]
    ensures multiset(boxes)[boxes[i]] >= 2
  {
    assert boxes == boxes[..j] + boxes[j..];
    assert boxes[..j][i] == boxes[i] && boxes[j..][0] == boxes[i];
    assert multiset(boxes) == multiset(boxes[..j]) + multiset(boxes[j..]);
  }

  /** A property of all pairs does not depend on the order of the boxes. */
  lemma SettledAnyOrder(boxes: seq<Frame>, ordered: seq<Frame>, heights: Heights, t: Tops, slack: real)
    requires Covers(t, ordered) && Covers(t, boxes) && forall i :: 0 <= i < |boxes| ==> boxes[i] in ordered
    requires Settled(ordered, |ordered|, heights, t, slack)
    ensures Settled(boxes, |boxes|, heights, t, slack)
  {
    forall a, b | 0 <= a < |boxes| && 0 <= b < |boxes| ensures Meets(boxes[a], boxes[b], heights, t, slack) {
      var i :| 0 <= i < |ordered| && ordered[i] == boxes[a];
      var j :| 0 <= j < |ordered| && ordered[j] == boxes[b];
      assert Meets(ordered[i], ordered[j], heights, t, slack);
    }
  }

  /** For distinct ids and boxes taller than a pixel, one pass gives the final tops. */
  lemma OnePassIsEnough(boxes: seq<Frame>, heights: Heights)
    requires Regular(boxes)
    ensures Covers(StartTops(boxes), Order(boxes))
    ensures FitTops(boxes, heights) == Pass(StartTops(boxes), Order(boxes), |Order(boxes)|, heights, SLACK)
  {
    hide Pass, Settled;
    var start, ordered := StartTops(boxes), Order(boxes);
    OrderCovers(boxes, start);
    RegularOrder(boxes);
    var once := Pass(start, ordered, |ordered|, heights, SLACK);
    PassSettles(start, ordered, |ordered|, heights, SLACK);
    PassIdle(once, ordered, |ordered|, heights, SLACK);
    assert Passes(start, ordered, 0, heights, SLACK) == start;
    assert Passes(start, ordered, 1, heights, SLACK) == once;
    if |ordered| > 0 {
      FixedPointStays(start, ordered, 1, |ordered|, heights, SLACK);
    } else {
      NoBoxes(start, ordered, heights);
    }
  }

  lemma NoBoxes(tops: Tops, boxes: seq<Frame>, heights: Heights)
    requires boxes == []
    ensures Pass(tops, boxes, |boxes|, heights, SLACK) == tops
  {
  }

  /** For distinct ids and boxes taller than a pixel every stacking constraint holds to within half a
      pixel, and no box moves up. */
  lemma FitSettles(boxes: seq<Frame>, heights: Heights)
    requires Regular(boxes)
    ensures Settled(boxes, |boxes|, heights, FitTops(boxes, heights), SLACK)
    ensures forall i :: 0 <= i < |boxes| ==> boxes[i].y <= FitTops(boxes, heights)[boxes[i].id]
  {
    hide Pass, Settled;
    var start, ordered := StartTops(boxes), Order(boxes);
    OnePassIsEnough(boxes, heights);
    RegularOrder(boxes);
    StartTopsSpec(boxes);
    PassSettles(start, ordered, |ordered|, heights, SLACK);
    PassRises(start, ordered, |ordered|, heights, SLACK);
    SettledAnyOrder(boxes, ordered, heights, FitTops(boxes, heights), SLACK);
  }

  /** No box is pushed further down than any solution without tolerance would push it. */
  lemma FitIsLeast(boxes: seq<Frame>, heights: Heights, t: Tops)
    requires Regular(boxes) && Exact(boxes, heights, t)
    ensures Under(FitTops(boxes, heights), t, boxes)
  {
    hide Settled, Passes;
    var start, ordered := StartTops(boxes), Order(boxes);
    OrderCovers(boxes, start);
    OrderCovers(boxes, t);
    RegularOrder(boxes);
    StartTopsSpec(boxes);
    FromBoxes(boxes);
    SettledAnyOrder(ordered, boxes, heights, t, 0.0);
    PassesUnder(start, t, ordered, |ordered|, heights, SLACK);
    var fit := FitTops(boxes, heights);
    forall i | 0 <= i < |boxes| ensures fit[boxes[i].id] <= t[boxes[i].id] {
      var j :| 0 <= j < |ordered| && ordered[j] == boxes[i];
    }
  }

  lemma FromBoxes(boxes: seq<Frame>)
    ensures forall i :: 0 <= i < |Order(boxes)| ==> Order(boxes)[i] in boxes
  {
    OrderSpec(boxes);
    forall i | 0 <= i < |Order(boxes)| ensures Order(boxes)[i] in boxes {
      assert Order(boxes)[i] in multiset(Order(boxes));
    }
  }

  /** An exact solution always exists: the same pass without tolerance finds one. */
  lemma ExactExists(boxes: seq<Frame>, heights: Heights) returns (t: Tops)
    requires Regular(boxes)
    ensures Exact(boxes, heights, t)
  {
    hide Pass, Settled;
    var start, ordered := StartTops(boxes), Order(boxes);
    OrderCovers(boxes, start);
    RegularOrder(boxes);
    StartTopsSpec(boxes);
    t := Pass(start, ordered, |ordered|, heights, 0.0);
    PassSettles(start, ordered, |ordered|, heights, 0.0);
    PassRises(start, ordered, |ordered|, heights, 0.0);
    SettledAnyOrder(boxes, ordered, heights, t, 0.0);
  }

  /** Two boxes that each count as below the other fit exactly only if they need no room. Boxes of
      height at most one pixel at the same top edge are such a pair. */
  lemma MutualStackingNeedsNoRoom(boxes: seq<Frame>, heights: Heights, t: Tops, i: nat, j: nat)
    requires Exact(boxes, heights, t) && i < |boxes| && j < |boxes|
    requires Stacked(boxes[i], boxes[j]) && Stacked(boxes[j], boxes[i])
    ensures HeightOf(boxes[i], heights) + Gap(boxes[i], boxes[j])
            + HeightOf(boxes[j], heights) + Gap(boxes[j], boxes[i]) <= 0.0
  {
    assert Meets(boxes[i], boxes[j], heights, t, 0.0);
    assert Meets(boxes[j], boxes[i], heights, t, 0.0);
  }

  const TWINS := [Frame("a", 0.0, 0.0, 10.0, 1.0), Frame("b", 0.0, 0.0, 10.0, 1.0)]

  lemma TwinsHaveNoSolution(t: Tops)
    ensures !Exact(TWINS, map[], t)
  {
    if Exact(TWINS, map[], t) {
      MutualStackingNeedsNoRoom(TWINS, map[], t, 0, 1);
    }
  }
}
