/** The connector lines between the graph nodes and the carousel nodes
    (`app/components/NodeConnections.tsx`). Each node's on-screen rectangle is
    an input (the measurement is the browser's); a carousel node whose ref is
    still null is `None`. */
module NodeConnections {
  import opened JsValues

  datatype Point = Point(x: real, y: real)
  datatype Rect = Rect(left: real, top: real, width: real, height: real)
  datatype Line = Line(id: string, p1: Point, p2: Point)

  /** `getCenter`: the middle of `rect`, in the container's coordinates. */
  function GetCenter(rect: Rect, container: Rect): (c: Point)
    ensures c.x + container.left - rect.left == rect.left + rect.width - (c.x + container.left)
    ensures c.y + container.top - rect.top == rect.top + rect.height - (c.y + container.top)
  {
    Point(rect.left + rect.width / 2.0 - container.left, rect.top + rect.height / 2.0 - container.top)
  }

  const TopPrefix: string := "line-top-"
  const BottomPrefix: string := "line-bottom-"

  /** `line-top-${index}`. */
  function TopLineId(index: nat): string { TopPrefix + NatToString(index) }

  /** `line-bottom-${index}`. */
  function BottomLineId(index: nat): string { BottomPrefix + NatToString(index) }

  /** The two lines drawn for the carousel node at `index`, top first; none
      for a null ref. */
  function LinesForNode(topCenter: Point, bottomCenter: Point, node: Option<Rect>, container: Rect, index: nat): seq<Line> {
    if node.None? then []
    else
      var center := GetCenter(node.value, container);
      [Line(TopLineId(index), topCenter, center), Line(BottomLineId(index), bottomCenter, center)]
  }

  /** The lines one pass builds from the first `n` carousel refs. */
  function ConnectorLines(topCenter: Point, bottomCenter: Point, nodes: seq<Option<Rect>>, container: Rect, n: nat): (lines: seq<Line>)
    requires n <= |nodes|
    ensures |lines| <= 2 * n
    ensures forall i :: 0 <= i < |lines| ==> lines[i].p1 == topCenter || lines[i].p1 == bottomCenter
  {
    if n == 0 then []
    else ConnectorLines(topCenter, bottomCenter, nodes, container, n - 1)
         + LinesForNode(topCenter, bottomCenter, nodes[n - 1], container, n - 1)
  }

  /** How many refs are present (non-null). */
  function PresentCount(nodes: seq<Option<Rect>>): nat {
    if |nodes| == 0 then 0
    else PresentCount(nodes[..|nodes| - 1]) + (if nodes[|nodes| - 1].Some? then 1 else 0)
  }

  /** Two lines per present ref: null refs are skipped, not errors. */
  lemma {:induction false} LineCount(topCenter: Point, bottomCenter: Point, nodes: seq<Option<Rect>>, container: Rect, n: nat)
    requires n <= |nodes|
    ensures |ConnectorLines(topCenter, bottomCenter, nodes, container, n)| == 2 * PresentCount(nodes[..n])
  {
    if n > 0 {
      LineCount(topCenter, bottomCenter, nodes, container, n - 1);
      assert nodes[..n][..n - 1] == nodes[..n - 1];
    }
  }

  /** Lines follow carousel order: the present ref at `k` owns positions
      `2p` and `2p + 1`, where `p` counts the present refs before it; the top
      line comes first, and each line runs from the graph node's center to the
      carousel node's center. */
  lemma {:induction false} LinesAt(topCenter: Point, bottomCenter: Point, nodes: seq<Option<Rect>>, container: Rect, n: nat, k: nat)
    requires k < n <= |nodes| && nodes[k].Some?
    ensures var lines := ConnectorLines(topCenter, bottomCenter, nodes, container, n);
      var p := 2 * PresentCount(nodes[..k]);
      var center := GetCenter(nodes[k].value, container);
      && p + 1 < |lines|
      && lines[p] == Line(TopLineId(k), topCenter, center)
      && lines[p + 1] == Line(BottomLineId(k), bottomCenter, center)
  {
    if k == n - 1 {
      LineCount(topCenter, bottomCenter, nodes, container, n - 1);
    } else {
      LinesAt(topCenter, bottomCenter, nodes, container, n - 1, k);
    }
  }

  /** Top and bottom ids never coincide, whatever their indices. */
  lemma TopAndBottomIdsDiffer(a: nat, b: nat)
    ensures TopLineId(a) != BottomLineId(b)
  {
    assert TopLineId(a)[5] == 't';
    assert BottomLineId(b)[5] == 'b';
  }

  /** Ids of one kind are distinct for distinct indices. */
  lemma IdsInjective(a: nat, b: nat)
    ensures TopLineId(a) == TopLineId(b) ==> a == b
    ensures BottomLineId(a) == BottomLineId(b) ==> a == b
  {
    assert TopLineId(a)[|TopPrefix|..] == NatToString(a);
    assert TopLineId(b)[|TopPrefix|..] == NatToString(b);
    assert BottomLineId(a)[|BottomPrefix|..] == NatToString(a);
    assert BottomLineId(b)[|BottomPrefix|..] == NatToString(b);
    NatToStringInjective(a, b);
  }

  /** The ids built from the first `n` refs carry indices below `n`. */
  lemma {:induction false} IdsBelow(topCenter: Point, bottomCenter: Point, nodes: seq<Option<Rect>>, container: Rect, n: nat, k: nat)
    requires n <= |nodes| && n <= k
    ensures forall p :: 0 <= p < |ConnectorLines(topCenter, bottomCenter, nodes, container, n)| ==>
      ConnectorLines(topCenter, bottomCenter, nodes, container, n)[p].id != TopLineId(k)
      && ConnectorLines(topCenter, bottomCenter, nodes, container, n)[p].id != BottomLineId(k)
  {
    if n > 0 {
      IdsBelow(topCenter, bottomCenter, nodes, container, n - 1, k);
      TopAndBottomIdsDiffer(n - 1, k);
      TopAndBottomIdsDiffer(k, n - 1);
      IdsInjective(n - 1, k);
    }
  }

  /** No two lines share an id (React's `key`). */
  predicate DistinctIds(lines: seq<Line>) {
    forall p, q :: 0 <= p < q < |lines| ==> lines[p].id != lines[q].id
  }

  /** All ids of one pass are distinct, because they carry the ref's original
      index, nulls included. */
  lemma {:induction false} LineIdsDistinct(topCenter: Point, bottomCenter: Point, nodes: seq<Option<Rect>>, container: Rect, n: nat)
    requires n <= |nodes|
    ensures DistinctIds(ConnectorLines(topCenter, bottomCenter, nodes, container, n))
  {
    if n > 0 {
      var lines := ConnectorLines(topCenter, bottomCenter, nodes, container, n);
      var before := ConnectorLines(topCenter, bottomCenter, nodes, container, n - 1);
      LineIdsDistinct(topCenter, bottomCenter, nodes, container, n - 1);
      IdsBelow(topCenter, bottomCenter, nodes, container, n - 1, n - 1);
      TopAndBottomIdsDiffer(n - 1, n - 1);
      forall p, q | 0 <= p < q < |lines| ensures lines[p].id != lines[q].id {
        var pair := LinesForNode(topCenter, bottomCenter, nodes[n - 1], container, n - 1);
        assert lines == before + pair;
        if q < |before| {
          assert lines[p] == before[p] && lines[q] == before[q];
        } else if p < |before| {
          assert lines[p] == before[p] && lines[q] == pair[q - |before|];
          assert lines[q].id == TopLineId(n - 1) || lines[q].id == BottomLineId(n - 1);
          assert before[p].id != TopLineId(n - 1) && before[p].id != BottomLineId(n - 1);
        } else {
          assert lines[p] == pair[0] && lines[q] == pair[1];
          assert pair[0].id == TopLineId(n - 1) && pair[1].id == BottomLineId(n - 1);
          assert p == |before| && q == |before| + 1;
        }
      }
    }
  }

  /** A rectangle moved by `(dx, dy)`. */
  function Shifted(rect: Rect, dx: real, dy: real): Rect {
    Rect(rect.left + dx, rect.top + dy, rect.width, rect.height)
  }

  function ShiftedAll(nodes: seq<Option<Rect>>, dx: real, dy: real): (r: seq<Option<Rect>>)
    ensures |r| == |nodes|
    ensures forall i :: 0 <= i < |nodes| ==> r[i] == if nodes[i].Some? then Some(Shifted(nodes[i].value, dx, dy)) else None
  {
    seq(|nodes|, i requires 0 <= i < |nodes| => if nodes[i].Some? then Some(Shifted(nodes[i].value, dx, dy)) else None)
  }

  /** Endpoints are container-local: moving every node together with the
      container (a scroll of the whole page, say) leaves every line as it was. */
  lemma {:induction false} LinesAreContainerLocal(top: Rect, bottom: Rect, nodes: seq<Option<Rect>>, container: Rect, n: nat, dx: real, dy: real)
    requires n <= |nodes|
    ensures var c' := Shifted(container, dx, dy);
      ConnectorLines(GetCenter(Shifted(top, dx, dy), c'), GetCenter(Shifted(bottom, dx, dy), c'), ShiftedAll(nodes, dx, dy), c', n)
      == ConnectorLines(GetCenter(top, container), GetCenter(bottom, container), nodes, container, n)
  {
    if n > 0 {
      LinesAreContainerLocal(top, bottom, nodes, container, n - 1, dx, dy);
    }
  }

  /** One pass of `calculateLines` over refs that are all resolved: the
      `forEach` that pushes two lines per present carousel node. */
  method BuildLines(top: Rect, bottom: Rect, nodes: seq<Option<Rect>>, container: Rect) returns (newLines: seq<Line>)
    ensures newLines == ConnectorLines(GetCenter(top, container), GetCenter(bottom, container), nodes, container, |nodes|)
    ensures |newLines| == 2 * PresentCount(nodes)
  {
    newLines := [];
    var topCenter := GetCenter(top, container);
    var bottomCenter := GetCenter(bottom, container);
    for index := 0 to |nodes|
      invariant newLines == ConnectorLines(topCenter, bottomCenter, nodes, container, index)
    {
      var nodeRef := nodes[index];
      if nodeRef.Some? {
        var carouselNodeCenter := GetCenter(nodeRef.value, container);
        newLines := newLines + [Line(TopLineId(index), topCenter, carouselNodeCenter)];
        newLines := newLines + [Line(BottomLineId(index), bottomCenter, carouselNodeCenter)];
      }
    }
    LineCount(topCenter, bottomCenter, nodes, container, |nodes|);
    assert nodes[..|nodes|] == nodes;
  }

  /** The example of one resolved carousel node: exactly two lines. */
  lemma OneNodeScenario()
    ensures ConnectorLines(GetCenter(Rect(0.0, 0.0, 10.0, 10.0), Rect(0.0, 0.0, 200.0, 200.0)),
                           GetCenter(Rect(0.0, 100.0, 10.0, 10.0), Rect(0.0, 0.0, 200.0, 200.0)),
                           [Some(Rect(50.0, 50.0, 10.0, 10.0))], Rect(0.0, 0.0, 200.0, 200.0), 1)
      == [Line("line-top-0", Point(5.0, 5.0), Point(55.0, 55.0)),
          Line("line-bottom-0", Point(5.0, 105.0), Point(55.0, 55.0))]
  {
    assert NatToString(0) == "0";
    assert TopLineId(0) == "line-top-0";
    assert BottomLineId(0) == "line-bottom-0";
  }

  /** A null ref among two yields the two lines of the resolved one, with its own index. */
  lemma NullRefScenario(topCenter: Point, bottomCenter: Point, node: Rect, container: Rect)
    ensures ConnectorLines(topCenter, bottomCenter, [None, Some(node)], container, 2)
      == [Line("line-top-1", topCenter, GetCenter(node, container)),
          Line("line-bottom-1", bottomCenter, GetCenter(node, container))]
  {
    assert ConnectorLines(topCenter, bottomCenter, [None, Some(node)], container, 1) == [];
    assert NatToString(1) == "1";
    assert TopLineId(1) == "line-top-1";
    assert BottomLineId(1) == "line-bottom-1";
  }

  /** The component's line state. */
  class Connections {
    var lines: seq<Line>

    constructor ()
      ensures lines == []
    {
      lines := [];
    }

    /** `calculateLines`: with any required ref missing it returns early and
        the previous lines stay; otherwise the whole list is replaced at once. */
    method CalculateLines(top: Option<Rect>, bottom: Option<Rect>, carousel: Option<seq<Option<Rect>>>, container: Option<Rect>)
      modifies this
      ensures (top.None? || bottom.None? || carousel.None? || container.None?) ==> lines == old(lines)
      ensures top.Some? && bottom.Some? && carousel.Some? && container.Some? ==>
        lines == ConnectorLines(GetCenter(top.value, container.value), GetCenter(bottom.value, container.value),
                                carousel.value, container.value, |carousel.value|)
    {
      if top.None? || bottom.None? || carousel.None? || container.None? {
        return;
      }
      var newLines := BuildLines(top.value, bottom.value, carousel.value, container.value);
      lines := newLines;
    }

    /** Nothing is drawn while there are no lines. */
    method Render() returns (drawn: Option<seq<Line>>)
      ensures drawn.None? <==> |lines| == 0
      ensures drawn.Some? ==> drawn.value == lines
    {
      if |lines| == 0 {
        return None;
      }
      drawn := Some(lines);
    }
  }
}
