/** `collapse_rows`: folds the flat emission list of rows and panels into
    the document's top-level list. The loop's state is the row waiting to
    be flushed (if any) and the panels seen since it. */
module RowLayout {
  import opened Grafana

  ghost predicate NoRows(ps: seq<Panel>)
  {
    forall i :: 0 <= i < |ps| ==> !ps[i].Row?
  }

  ghost predicate AllRowsFresh(ps: seq<Panel>)
  {
    forall i :: 0 <= i < |ps| ==> ps[i].Row? ==> FreshRow(ps[i])
  }

  /** What the loop appends when it flushes: nothing but the pending panels
      while no row is active; a row whose title is open followed by its
      pending panels as siblings; any other row alone, collapsed, owning them. */
  function Flush(current: Option<Panel>, children: seq<Panel>, openRows: set<string>): seq<Panel>
    requires current.Some? ==> current.value.Row?
  {
    match current
    case None => children
    case Some(row) =>
      if row.title !in openRows then [row.(collapsed := true, panels := children)]
      else [row] + children
  }

  /** The output still to come when the rest of the input is `ps` and the
      loop holds `current` and `children`. */
  function LayoutFrom(ps: seq<Panel>, current: Option<Panel>, children: seq<Panel>, openRows: set<string>): seq<Panel>
    requires current.Some? ==> current.value.Row?
    decreases |ps|
  {
    if ps == [] then Flush(current, children, openRows)
    else if ps[0].Row? then
      Flush(current, children, openRows) + LayoutFrom(ps[1..], Some(ps[0]), [], openRows)
    else LayoutFrom(ps[1..], current, children + [ps[0]], openRows)
  }

  /** The result of `collapse_rows(ps)`. */
  function Layout(ps: seq<Panel>, openRows: set<string>): seq<Panel>
  {
    LayoutFrom(ps, None, [], openRows)
  }

  /** The loop of `collapse_rows`, with the same state and the same flushes. */
  method CollapseRows(panels: seq<Panel>, openRows: set<string>) returns (result: seq<Panel>)
    ensures result == Layout(panels, openRows)
  {
    result := [];
    var currentRow: Option<Panel> := None;
    var children: seq<Panel> := [];
    for i := 0 to |panels|
      invariant currentRow.Some? ==> currentRow.value.Row?
      invariant result + LayoutFrom(panels[i..], currentRow, children, openRows) == Layout(panels, openRows)
    {
      var p := panels[i];
      ghost var before := result;
      ghost var flushed := Flush(currentRow, children, openRows);
      assert panels[i..][0] == p && panels[i..][1..] == panels[i + 1..];
      if p.Row? {
        // Flush the previous row.
        if currentRow.Some? {
          var row := currentRow.value;
          if row.title !in openRows {
            row := row.(collapsed := true, panels := children);
            result := result + [row];
          } else {
            result := result + [row] + children;
          }
        } else {
          result := result + children;
        }
        assert result == before + flushed;
        currentRow := Some(p);
        children := [];
      } else {
        children := children + [p];
      }
    }
    // Flush the last row.
    ghost var before := result;
    ghost var flushed := Flush(currentRow, children, openRows);
    if currentRow.Some? {
      var row := currentRow.value;
      if row.title !in openRows {
        row := row.(collapsed := true, panels := children);
        result := result + [row];
      } else {
        result := result + [row] + children;
      }
    } else {
      result := result + children;
    }
    assert result == before + flushed;
  }

  // ---------------------------------------------------------------------
  // Undoing the layout: each row back to its fresh form followed by the
  // panels it owns.

  function Expand(out: seq<Panel>): seq<Panel>
  {
    if out == [] then [] else ExpandOne(out[0]) + Expand(out[1..])
  }

  function ExpandOne(p: Panel): seq<Panel>
  {
    if p.Row? then [p.(collapsed := false, panels := [])] + p.panels else [p]
  }

  lemma {:induction false} ExpandAppend(a: seq<Panel>, b: seq<Panel>)
    ensures Expand(a + b) == Expand(a) + Expand(b)
  {
    if a == [] {
      assert a + b == b;
    } else {
      assert (a + b)[0] == a[0] && (a + b)[1..] == a[1..] + b;
      ExpandAppend(a[1..], b);
    }
  }

  lemma {:induction false} ExpandNoRows(ps: seq<Panel>)
    requires NoRows(ps)
    ensures Expand(ps) == ps
  {
    if ps != [] { ExpandNoRows(ps[1..]); }
  }

  /** The state the loop holds, written back as input. */
  function Pending(current: Option<Panel>, children: seq<Panel>): seq<Panel>
  {
    if current.Some? then [current.value] + children else children
  }

  lemma {:induction false} ExpandFlush(current: Option<Panel>, children: seq<Panel>, openRows: set<string>)
    requires current.Some? ==> FreshRow(current.value)
    requires NoRows(children)
    ensures Expand(Flush(current, children, openRows)) == Pending(current, children)
  {
    ExpandNoRows(children);
    if current.Some? {
      var row := current.value;
      if row.title !in openRows {
        assert Expand([row.(collapsed := true, panels := children)]) == [row] + children + Expand([]);
      } else {
        ExpandAppend([row], children);
      }
    }
  }

  lemma {:induction false} ExpandLayoutFrom(ps: seq<Panel>, current: Option<Panel>, children: seq<Panel>, openRows: set<string>)
    requires current.Some? ==> FreshRow(current.value)
    requires NoRows(children) && AllRowsFresh(ps)
    ensures Expand(LayoutFrom(ps, current, children, openRows)) == Pending(current, children) + ps
    decreases |ps|
  {
    if ps == [] {
      ExpandFlush(current, children, openRows);
    } else if ps[0].Row? {
      var flushed := Flush(current, children, openRows);
      var tail := LayoutFrom(ps[1..], Some(ps[0]), [], openRows);
      assert LayoutFrom(ps, current, children, openRows) == flushed + tail;
      ExpandAppend(flushed, tail);
      ExpandFlush(current, children, openRows);
      assert FreshRow(ps[0]);
      ExpandLayoutFrom(ps[1..], Some(ps[0]), [], openRows);
      assert Pending(Some(ps[0]), []) + ps[1..] == ps;
    } else {
      assert LayoutFrom(ps, current, children, openRows) == LayoutFrom(ps[1..], current, children + [ps[0]], openRows);
      ExpandLayoutFrom(ps[1..], current, children + [ps[0]], openRows);
      assert Pending(current, children + [ps[0]]) + ps[1..] == Pending(current, children) + ps;
    }
  }

  /** Nothing is lost, duplicated or reordered: putting every row back in
      front of the panels it owns gives back the emission list. */
  lemma LayoutRoundTrip(ps: seq<Panel>, openRows: set<string>)
    requires AllRowsFresh(ps)
    ensures Expand(Layout(ps, openRows)) == ps
  {
    ExpandLayoutFrom(ps, None, [], openRows);
  }

  // ---------------------------------------------------------------------
  // Conservation of panels.

  /** The non-row panels of an emission list, in order. */
  function NonRows(ps: seq<Panel>): (r: seq<Panel>)
    ensures NoRows(r)
  {
    if ps == [] then []
    else (if ps[0].Row? then [] else [ps[0]]) + NonRows(ps[1..])
  }

  /** The panels a laid-out list shows: its top-level panels and, in place of
      each row, the panels that row owns. */
  function Contents(out: seq<Panel>): seq<Panel>
  {
    if out == [] then []
    else (if out[0].Row? then out[0].panels else [out[0]]) + Contents(out[1..])
  }

  lemma {:induction false} ContentsAppend(a: seq<Panel>, b: seq<Panel>)
    ensures Contents(a + b) == Contents(a) + Contents(b)
  {
    if a == [] {
      assert a + b == b;
    } else {
      assert (a + b)[0] == a[0] && (a + b)[1..] == a[1..] + b;
      ContentsAppend(a[1..], b);
    }
  }

  lemma {:induction false} ContentsNoRows(ps: seq<Panel>)
    requires NoRows(ps)
    ensures Contents(ps) == ps
  {
    if ps != [] { ContentsNoRows(ps[1..]); }
  }

  lemma {:induction false} ContentsFlush(current: Option<Panel>, children: seq<Panel>, openRows: set<string>)
    requires current.Some? ==> FreshRow(current.value)
    requires NoRows(children)
    ensures Contents(Flush(current, children, openRows)) == children
  {
    ContentsNoRows(children);
    if current.Some? && current.value.title in openRows {
      ContentsAppend([current.value], children);
    }
  }

  lemma {:induction false} ContentsLayoutFrom(ps: seq<Panel>, current: Option<Panel>, children: seq<Panel>, openRows: set<string>)
    requires current.Some? ==> FreshRow(current.value)
    requires NoRows(children) && AllRowsFresh(ps)
    ensures Contents(LayoutFrom(ps, current, children, openRows)) == children + NonRows(ps)
    decreases |ps|
  {
    ContentsFlush(current, children, openRows);
    if ps != [] {
      if ps[0].Row? {
        ContentsAppend(Flush(current, children, openRows), LayoutFrom(ps[1..], Some(ps[0]), [], openRows));
        ContentsLayoutFrom(ps[1..], Some(ps[0]), [], openRows);
      } else {
        ContentsLayoutFrom(ps[1..], current, children + [ps[0]], openRows);
      }
    }
  }

  /** Every non-row input panel appears exactly once in the output, either
      top-level or as a child of a collapsed row, in input order; hence the
      counts agree. */
  lemma PanelsConserved(ps: seq<Panel>, openRows: set<string>)
    requires AllRowsFresh(ps)
    ensures Contents(Layout(ps, openRows)) == NonRows(ps)
    ensures |Contents(Layout(ps, openRows))| == |NonRows(ps)|
  {
    ContentsLayoutFrom(ps, None, [], openRows);
  }

  // ---------------------------------------------------------------------
  // The flush rule, segment by segment.

  lemma {:induction false} LayoutFromNoRows(ps: seq<Panel>, current: Option<Panel>, children: seq<Panel>, openRows: set<string>)
    requires current.Some? ==> current.value.Row?
    requires NoRows(ps)
    ensures LayoutFrom(ps, current, children, openRows) == Flush(current, children + ps, openRows)
    decreases |ps|
  {
    if ps != [] {
      assert !ps[0].Row?;
      LayoutFromNoRows(ps[1..], current, children + [ps[0]], openRows);
      assert children + [ps[0]] + ps[1..] == children + ps;
    } else {
      assert children + ps == children;
    }
  }

  /** An input without rows comes back unchanged. */
  lemma NoRowsUnchanged(ps: seq<Panel>, openRows: set<string>)
    requires NoRows(ps)
    ensures Layout(ps, openRows) == ps
  {
    LayoutFromNoRows(ps, None, [], openRows);
  }

  lemma {:induction false} LayoutFromSkipsPanels(pre: seq<Panel>, rest: seq<Panel>, current: Option<Panel>, children: seq<Panel>, openRows: set<string>)
    requires current.Some? ==> current.value.Row?
    requires NoRows(pre)
    ensures LayoutFrom(pre + rest, current, children, openRows) == LayoutFrom(rest, current, children + pre, openRows)
    decreases |pre|
  {
    if pre == [] {
      assert pre + rest == rest && children + pre == children;
    } else {
      assert !pre[0].Row?;
      assert (pre + rest)[0] == pre[0] && (pre + rest)[1..] == pre[1..] + rest;
      LayoutFromSkipsPanels(pre[1..], rest, current, children + [pre[0]], openRows);
      assert children + [pre[0]] + pre[1..] == children + pre;
    }
  }

  /** Panels emitted before the first row stay top-level, in order, ahead of
      everything else. */
  lemma LeadingPanelsStayTopLevel(pre: seq<Panel>, row: Panel, rest: seq<Panel>, openRows: set<string>)
    requires NoRows(pre) && row.Row?
    ensures Layout(pre + [row] + rest, openRows) == pre + LayoutFrom(rest, Some(row), [], openRows)
  {
    LayoutFromSkipsPanels(pre, [row] + rest, None, [], openRows);
    assert pre + [row] + rest == pre + ([row] + rest);
    assert ([row] + rest)[1..] == rest;
  }

  /** A row followed by the panels up to the next row (or the end): an open
      row is emitted followed by them as siblings; any other row is emitted
      alone, collapsed, owning them. */
  lemma RowGroupFlush(row: Panel, group: seq<Panel>, next: Panel, rest: seq<Panel>, openRows: set<string>)
    requires row.Row? && next.Row? && NoRows(group)
    ensures row.title in openRows ==>
      LayoutFrom(group + [next] + rest, Some(row), [], openRows)
        == [row] + group + LayoutFrom(rest, Some(next), [], openRows)
    ensures row.title !in openRows ==>
      LayoutFrom(group + [next] + rest, Some(row), [], openRows)
        == [row.(collapsed := true, panels := group)] + LayoutFrom(rest, Some(next), [], openRows)
  {
    LayoutFromSkipsPanels(group, [next] + rest, Some(row), [], openRows);
    assert group + [next] + rest == group + ([next] + rest);
    assert ([next] + rest)[1..] == rest;
    assert [] + group == group;
  }

  /** The last row takes every panel after it. */
  lemma LastRowFlush(row: Panel, group: seq<Panel>, openRows: set<string>)
    requires row.Row? && NoRows(group)
    ensures row.title in openRows ==> LayoutFrom(group, Some(row), [], openRows) == [row] + group
    ensures row.title !in openRows ==>
      LayoutFrom(group, Some(row), [], openRows) == [row.(collapsed := true, panels := group)]
  {
    LayoutFromNoRows(group, Some(row), [], openRows);
    assert [] + group == group;
  }

  // ---------------------------------------------------------------------
  // Layout and export mode.

  lemma {:induction false} RetargetFlush(current: Option<Panel>, children: seq<Panel>, openRows: set<string>, ds: Datasource)
    requires current.Some? ==> current.value.Row?
    ensures RetargetAll(Flush(current, children, openRows), ds)
      == Flush(if current.Some? then Some(Retarget(current.value, ds)) else None, RetargetAll(children, ds), openRows)
  {
    if current.Some? && current.value.title in openRows {
      RetargetAllAppend([current.value], children, ds);
    }
  }

  lemma {:induction false} RetargetLayoutFrom(ps: seq<Panel>, current: Option<Panel>, children: seq<Panel>, openRows: set<string>, ds: Datasource)
    requires current.Some? ==> current.value.Row?
    ensures RetargetAll(LayoutFrom(ps, current, children, openRows), ds)
      == LayoutFrom(RetargetAll(ps, ds), if current.Some? then Some(Retarget(current.value, ds)) else None, RetargetAll(children, ds), openRows)
    decreases |ps|
  {
    var cur' := if current.Some? then Some(Retarget(current.value, ds)) else None;
    RetargetFlush(current, children, openRows, ds);
    if ps != [] {
      var rps := RetargetAll(ps, ds);
      assert rps[1..] == RetargetAll(ps[1..], ds);
      if ps[0].Row? {
        RetargetAllAppend(Flush(current, children, openRows), LayoutFrom(ps[1..], Some(ps[0]), [], openRows), ds);
        RetargetLayoutFrom(ps[1..], Some(ps[0]), [], openRows, ds);
      } else {
        assert !rps[0].Row? && rps[0] == Retarget(ps[0], ds);
        RetargetLayoutFrom(ps[1..], current, children + [ps[0]], openRows, ds);
        RetargetAllAppend(children, [ps[0]], ds);
        assert RetargetAll([ps[0]], ds) == [rps[0]];
      }
    }
  }

  /** Laying out panels built for another datasource gives the same tree,
      re-addressed: the mode switch touches no id, rectangle or nesting. */
  lemma LayoutCommutesWithRetarget(ps: seq<Panel>, openRows: set<string>, ds: Datasource)
    ensures Layout(RetargetAll(ps, ds), openRows) == RetargetAll(Layout(ps, openRows), ds)
    ensures Ids(Layout(RetargetAll(ps, ds), openRows)) == Ids(Layout(ps, openRows))
    ensures Grids(Layout(RetargetAll(ps, ds), openRows)) == Grids(Layout(ps, openRows))
  {
    RetargetLayoutFrom(ps, None, [], openRows, ds);
  }
}
