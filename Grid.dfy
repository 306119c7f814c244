/** The script-level `panels`, `pid` and `y` of both generators: each
    emitted row or panel takes the next id, a row also moves the vertical
    cursor down one unit, and the caller moves it past each band of panels. */
module Grid {
  import opened Grafana
  import RowLayout

  class Generation {
    var panels: seq<Panel>
    var pid: int
    var y: int

    /** Ids are handed out 1, 2, 3, ... in emission order. */
    ghost predicate Valid()
      reads this
    {
      && pid == |panels| + 1
      && y >= 0
      && (forall i :: 0 <= i < |panels| ==> panels[i].id == i + 1)
      && RowLayout.AllRowsFresh(panels)
    }

    /** `panels = []; y = 0; pid = 1` */
    constructor ()
      ensures Valid()
      ensures panels == [] && pid == 1 && y == 0
    {
      panels := [];
      pid := 1;
      y := 0;
    }

    /** `panels.append(row(pid, title, y, desc)); pid += 1; y += 1` */
    method AddRow(title: string, desc: string)
      requires Valid()
      modifies this
      ensures Valid()
      ensures panels == old(panels) + [NewRow(old(pid), title, old(y), desc)]
      ensures pid == old(pid) + 1 && y == old(y) + 1
    {
      panels := panels + [NewRow(pid, title, y, desc)];
      pid := pid + 1;
      y := y + 1;
    }

    /** `panels.append(<factory>(pid, ...)); pid += 1`; the factory was given
        the current `pid`. */
    method AddPanel(p: Panel)
      requires Valid()
      requires !p.Row? && p.id == pid
      modifies this
      ensures Valid()
      ensures panels == old(panels) + [p]
      ensures pid == old(pid) + 1 && y == old(y)
      ensures forall i :: 0 <= i < |old(panels)| ==> panels[i].id < p.id
    {
      panels := panels + [p];
      pid := pid + 1;
    }

    /** `y += dy` after a band of panels `dy` units high. */
    method Advance(dy: nat)
      requires Valid()
      modifies this
      ensures Valid()
      ensures y == old(y) + dy && panels == old(panels) && pid == old(pid)
    {
      y := y + dy;
    }
  }

  /** Ids strictly increase along the emission list, so none repeats. */
  lemma IdsIncrease(g: Generation, i: int, j: int)
    requires g.Valid() && 0 <= i < j < |g.panels|
    ensures g.panels[i].id < g.panels[j].id
  {
  }

  /** The laid-out document shows every emitted panel and row once, in
      emission order, so its ids (nested children included) are still
      1, 2, 3, ... */
  lemma {:induction false} DocumentIdsIncrease(g: Generation, openRows: set<string>)
    requires g.Valid()
    ensures RowLayout.Expand(RowLayout.Layout(g.panels, openRows)) == g.panels
    ensures forall i :: 0 <= i < |g.panels| ==> Ids(RowLayout.Expand(RowLayout.Layout(g.panels, openRows)))[i] == i + 1
    ensures forall i, j :: 0 <= i < j < |g.panels| ==>
      Ids(RowLayout.Expand(RowLayout.Layout(g.panels, openRows)))[i] < Ids(RowLayout.Expand(RowLayout.Layout(g.panels, openRows)))[j]
  {
    RowLayout.LayoutRoundTrip(g.panels, openRows);
    forall i, j | 0 <= i < j < |g.panels|
      ensures g.panels[i].id < g.panels[j].id
    {
      IdsIncrease(g, i, j);
    }
  }
}
