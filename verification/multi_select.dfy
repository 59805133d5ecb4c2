/**
  Selection bookkeeping for multi-item selection over canvases and ranges.
  Every canvas and range carries a `multiSelected` and a `multiSelectEnabled`
  flag that the state updates in place; a range also names the ids of its
  canvases.  The library's URL normalisation is a parameter.
*/
module MultiSelect {

  /** A canvas or a range that can take part in a multi-selection. */
  class Selectable {
    const id: string
    /** For a range, the ids of its canvases (`getCanvasIds()`); empty for a canvas. */
    const canvasIds: seq<string>
    var multiSelected: bool
    var multiSelectEnabled: bool

    constructor (id: string, canvasIds: seq<string>)
      ensures this.id == id && this.canvasIds == canvasIds
      ensures !multiSelected && !multiSelectEnabled
    {
      this.id := id;
      this.canvasIds := canvasIds;
      multiSelected := false;
      multiSelectEnabled := false;
    }
  }

  /** The items of `xs` whose `multiSelected` flag is set, in order. */
  function SelectedOf(xs: seq<Selectable>): (r: seq<Selectable>)
    reads set x | x in xs
    ensures |r| <= |xs|
    ensures forall x :: x in r ==> x in xs && x.multiSelected
    ensures forall x :: x in xs && x.multiSelected ==> x in r
  {
    if xs == [] then []
    else (if xs[0].multiSelected then [xs[0]] else []) + SelectedOf(xs[1..])
  }

  /**
    The filter keeps each selected item as often as it occurs in `xs`, and
    drops every unselected one.
  */
  lemma {:induction false} SelectedOfCounts(xs: seq<Selectable>)
    ensures forall x :: x in xs ==>
              multiset(SelectedOf(xs))[x] == (if x.multiSelected then multiset(xs)[x] else 0)
  {
    if xs != [] {
      var rest := xs[1..];
      SelectedOfCounts(rest);
      assert xs == [xs[0]] + rest;
      forall x | x in xs
        ensures multiset(SelectedOf(xs))[x] == (if x.multiSelected then multiset(xs)[x] else 0)
      {
        if x !in rest {
          assert x !in multiset(rest);
          assert x !in SelectedOf(rest);
        }
      }
    }
  }

  /** The filter keeps the order of `xs`: filtering a concatenation concatenates the filtered parts. */
  lemma {:induction false} SelectedOfAppend(a: seq<Selectable>, b: seq<Selectable>)
    ensures SelectedOf(a + b) == SelectedOf(a) + SelectedOf(b)
  {
    if a == [] {
      assert a + b == b;
    } else {
      var ab := a + b;
      var head := if a[0].multiSelected then [a[0]] else [];
      assert ab[0] == a[0] && ab[1..] == a[1..] + b;
      assert SelectedOf(ab) == head + SelectedOf(a[1..] + b);
      SelectedOfAppend(a[1..], b);
      assert SelectedOf(a) == head + SelectedOf(a[1..]);
    }
  }

  /** The filter keeps every item exactly when every item is selected. */
  lemma {:induction false} SelectedOfKeepsAll(xs: seq<Selectable>)
    ensures |SelectedOf(xs)| == |xs| <==> forall x :: x in xs ==> x.multiSelected
  {
    if xs != [] {
      SelectedOfKeepsAll(xs[1..]);
      assert forall x :: x in xs ==> x == xs[0] || x in xs[1..];
    }
  }

  /** The position of the first item of `xs` whose id normalises to the same as `key`. */
  function IndexOfId(xs: seq<Selectable>, key: string, normalise: string -> string): (i: nat)
    requires exists k :: 0 <= k < |xs| && normalise(xs[k].id) == normalise(key)
    ensures i < |xs| && normalise(xs[i].id) == normalise(key)
    ensures forall j :: 0 <= j < i ==> normalise(xs[j].id) != normalise(key)
  {
    if normalise(xs[0].id) == normalise(key) then 0
    else
      assert exists k :: 0 <= k < |xs[1..]| && normalise(xs[1..][k].id) == normalise(key) by {
        var k :| 0 <= k < |xs| && normalise(xs[k].id) == normalise(key);
        assert xs[1..][k - 1] == xs[k];
      }
      1 + IndexOfId(xs[1..], key, normalise)
  }

  /** Id comparison without normalisation, as `selectCanvas` and `selectRange` do it. */
  function Verbatim(s: string): string {
    s
  }

  class MultiSelectState {
    var isEnabled: bool
    var ranges: seq<Selectable>
    var canvases: seq<Selectable>

    constructor ()
      ensures !isEnabled && ranges == [] && canvases == []
    {
      isEnabled := false;
      ranges := [];
      canvases := [];
    }

    /** Every canvas and range the state holds. */
    function Items(): set<Selectable>
      reads this
    {
      set x | x in canvases + ranges
    }

    /** `getAllSelectedCanvases`. */
    function GetAllSelectedCanvases(): (r: seq<Selectable>)
      reads this, set c | c in canvases
      ensures forall c :: c in r ==> c in canvases && c.multiSelected
      ensures forall c :: c in canvases && c.multiSelected ==> c in r
      ensures |r| <= |canvases|
      ensures forall c :: c in canvases ==> multiset(r)[c] == (if c.multiSelected then multiset(canvases)[c] else 0)
    {
      SelectedOfCounts(canvases);
      SelectedOf(canvases)
    }

    /** `getAllSelectedRanges`. */
    function GetAllSelectedRanges(): (r: seq<Selectable>)
      reads this, set x | x in ranges
      ensures forall x :: x in r ==> x in ranges && x.multiSelected
      ensures forall x :: x in ranges && x.multiSelected ==> x in r
      ensures |r| <= |ranges|
      ensures forall x :: x in ranges ==> multiset(r)[x] == (if x.multiSelected then multiset(ranges)[x] else 0)
    {
      SelectedOfCounts(ranges);
      SelectedOf(ranges)
    }

    /** `allCanvasesSelected`: there are canvases and the selected ones are all of them. */
    function AllCanvasesSelected(): (r: bool)
      reads this, set c | c in canvases
      ensures r <==> |canvases| > 0 && forall c :: c in canvases ==> c.multiSelected
    {
      SelectedOfKeepsAll(canvases);
      |canvases| > 0 && |GetAllSelectedCanvases()| == |canvases|
    }

    /** `allRangesSelected`: there are ranges and the selected ones are all of them. */
    function AllRangesSelected(): (r: bool)
      reads this, set x | x in ranges
      ensures r <==> |ranges| > 0 && forall x :: x in ranges ==> x.multiSelected
    {
      SelectedOfKeepsAll(ranges);
      |ranges| > 0 && |GetAllSelectedRanges()| == |ranges|
    }

    /** `allSelected`: both lists are non-empty and every item of `getAll()` is selected. */
    function AllSelected(): (r: bool)
      reads this, Items()
      ensures r <==> |ranges| > 0 && |canvases| > 0 && forall x :: x in GetAll() ==> x.multiSelected
    {
      AllRangesSelected() && AllCanvasesSelected()
    }

    /** `getAll`: the canvases followed by the ranges. */
    function GetAll(): (r: seq<Selectable>)
      reads this
      ensures |r| == |canvases| + |ranges|
      ensures forall i :: 0 <= i < |canvases| ==> r[i] == canvases[i]
      ensures forall i :: 0 <= i < |ranges| ==> r[|canvases| + i] == ranges[i]
    {
      canvases + ranges
    }

    /** Some canvas's id normalises to the same as `id`, so `getCanvasById(id)` finds one. */
    predicate HasCanvasId(id: string, normalise: string -> string)
      reads this
    {
      exists k :: 0 <= k < |canvases| && normalise(canvases[k].id) == normalise(id)
    }

    /** `getCanvasById`: the first canvas whose normalised id is that of `id`. */
    function GetCanvasById(id: string, normalise: string -> string): (c: Selectable)
      reads this
      requires HasCanvasId(id, normalise)
      ensures c in canvases && normalise(c.id) == normalise(id)
    {
      canvases[IndexOfId(canvases, id, normalise)]
    }

    /** The canvases `getCanvasById` answers for the ids of `ids`. */
    function CanvasesNamed(ids: seq<string>, normalise: string -> string): (r: set<Selectable>)
      reads this
      requires forall id :: id in ids ==> HasCanvasId(id, normalise)
      ensures forall c :: c in r ==> c in canvases
    {
      set id | id in ids :: GetCanvasById(id, normalise)
    }

    /** Every id of every range of `rs` can be looked up. */
    predicate RangesResolve(rs: seq<Selectable>, normalise: string -> string)
      reads this
    {
      forall r, id :: r in rs && id in r.canvasIds ==> HasCanvasId(id, normalise)
    }

    /** The canvases named by the ranges of `rs`, gathered range by range. */
    function RangesCanvases(rs: seq<Selectable>, normalise: string -> string): (r: set<Selectable>)
      reads this
      requires RangesResolve(rs, normalise)
      ensures forall c :: c in r ==> c in canvases
      decreases |rs|
    {
      if rs == [] then {}
      else RangesCanvases(rs[..|rs| - 1], normalise) + CanvasesNamed(rs[|rs| - 1].canvasIds, normalise)
    }

    /** A canvas is gathered exactly when some range of `rs` names an id that resolves to it. */
    lemma {:induction false} RangesCanvasesMembers(rs: seq<Selectable>, normalise: string -> string, c: Selectable)
      requires RangesResolve(rs, normalise)
      ensures c in RangesCanvases(rs, normalise) <==>
              exists r, id :: r in rs && id in r.canvasIds && HasCanvasId(id, normalise) && GetCanvasById(id, normalise) == c
      decreases |rs|
    {
      if rs != [] {
        var front := rs[..|rs| - 1];
        RangesCanvasesMembers(front, normalise, c);
        assert forall r :: r in rs <==> r in front || r == rs[|rs| - 1];
      }
    }

    /** `getCanvasesByIds`: one canvas per id, in the order of `ids`. */
    method GetCanvasesByIds(ids: seq<string>, normalise: string -> string) returns (result: seq<Selectable>)
      requires forall id :: id in ids ==> HasCanvasId(id, normalise)
      ensures |result| == |ids|
      ensures forall i :: 0 <= i < |ids| ==> result[i] == GetCanvasById(ids[i], normalise)
      ensures forall c :: c in result <==> c in CanvasesNamed(ids, normalise)
    {
      result := [];
      for i := 0 to |ids|
        invariant |result| == i
        invariant forall k :: 0 <= k < i ==> result[k] == GetCanvasById(ids[k], normalise)
      {
        var id := ids[i];
        result := result + [GetCanvasById(id, normalise)];
      }
      forall c | c in CanvasesNamed(ids, normalise) ensures c in result {
        var id :| id in ids && GetCanvasById(id, normalise) == c;
        var k :| 0 <= k < |ids| && ids[k] == id;
        assert result[k] == c;
      }
    }

    /** `getRangeCanvases`: the canvases a range names. */
    method GetRangeCanvases(range: Selectable, normalise: string -> string) returns (result: seq<Selectable>)
      requires forall id :: id in range.canvasIds ==> HasCanvasId(id, normalise)
      ensures |result| == |range.canvasIds|
      ensures forall i :: 0 <= i < |result| ==> result[i] == GetCanvasById(range.canvasIds[i], normalise)
      ensures forall c :: c in result <==> c in CanvasesNamed(range.canvasIds, normalise)
    {
      result := GetCanvasesByIds(range.canvasIds, normalise);
    }

    /** `selectCanvases`: exactly the items of `cs` take `selected`. */
    method SelectCanvases(cs: seq<Selectable>, selected: bool)
      modifies set c | c in cs
      ensures forall c :: c in cs ==> c.multiSelected == selected
      ensures forall c :: c in cs ==> c.multiSelectEnabled == old(c.multiSelectEnabled)
    {
      for j := 0 to |cs|
        invariant forall k :: 0 <= k < j ==> cs[k].multiSelected == selected
        invariant forall c :: c in cs ==> c.multiSelectEnabled == old(c.multiSelectEnabled)
      {
        var canvas := cs[j];
        canvas.multiSelected := selected;
      }
    }

    /** `selectAllCanvases`. */
    method SelectAllCanvases(selected: bool)
      modifies set c | c in canvases
      ensures forall c :: c in canvases ==> c.multiSelected == selected
      ensures forall c :: c in canvases ==> c.multiSelectEnabled == old(c.multiSelectEnabled)
    {
      SelectCanvases(canvases, selected);
    }

    /** `selectCanvas`: the first canvas with the same id takes `selected`. */
    method SelectCanvas(canvas: Selectable, selected: bool)
      requires HasCanvasId(canvas.id, Verbatim)
      modifies GetCanvasById(canvas.id, Verbatim)`multiSelected
      ensures GetCanvasById(canvas.id, Verbatim).multiSelected == selected
    {
      var c := GetCanvasById(canvas.id, Verbatim);
      c.multiSelected := selected;
    }

    /**
      `selectRanges`: each range of `rs` and every canvas one of them names take
      `selected`; every other canvas keeps its flag.
    */
    method SelectRanges(rs: seq<Selectable>, selected: bool, normalise: string -> string)
      requires RangesResolve(rs, normalise)
      modifies (set r | r in rs), (set c | c in canvases)
      ensures forall r :: r in rs ==> r.multiSelected == selected
      ensures forall c :: c in RangesCanvases(rs, normalise) ==> c.multiSelected == selected
      ensures forall x :: x in canvases && x !in rs && x !in RangesCanvases(rs, normalise) ==>
                x.multiSelected == old(x.multiSelected)
      ensures forall x :: x in canvases || x in rs ==> x.multiSelectEnabled == old(x.multiSelectEnabled)
    {
      ghost var touched: set<Selectable> := {};
      ghost var done: set<Selectable> := {};
      for i := 0 to |rs|
        invariant touched == RangesCanvases(rs[..i], normalise)
        invariant done == set k | 0 <= k < i :: rs[k]
        invariant forall x :: x in done || x in touched ==> x.multiSelected == selected
        invariant forall x :: x in canvases && x !in done && x !in touched ==> x.multiSelected == old(x.multiSelected)
        invariant forall x :: x in canvases || x in rs ==> x.multiSelectEnabled == old(x.multiSelectEnabled)
      {
        SelectOneRange(rs[i], selected, normalise);
        assert rs[..i + 1][..i] == rs[..i];
        touched := touched + CanvasesNamed(rs[i].canvasIds, normalise);
        done := done + {rs[i]};
      }
      assert rs[..|rs|] == rs;
      assert forall x :: x in rs ==> x in done;
    }

    /** One turn of the `selectRanges` loop: the range and the canvases it names take `selected`. */
    method SelectOneRange(range: Selectable, selected: bool, normalise: string -> string)
      requires forall id :: id in range.canvasIds ==> HasCanvasId(id, normalise)
      modifies range, set c | c in canvases
      ensures range.multiSelected == selected
      ensures forall c :: c in CanvasesNamed(range.canvasIds, normalise) ==> c.multiSelected == selected
      ensures forall x :: x in canvases && x != range && x !in CanvasesNamed(range.canvasIds, normalise) ==>
                x.multiSelected == old(x.multiSelected)
      ensures forall x :: x in canvases || x == range ==> x.multiSelectEnabled == old(x.multiSelectEnabled)
    {
      range.multiSelected := selected;
      var cs := GetCanvasesByIds(range.canvasIds, normalise);
      SelectCanvases(cs, selected);
    }

    /** `selectAllRanges`. */
    method SelectAllRanges(selected: bool, normalise: string -> string)
      requires RangesResolve(ranges, normalise)
      modifies Items()
      ensures forall r :: r in ranges ==> r.multiSelected == selected
      ensures forall c :: c in RangesCanvases(ranges, normalise) ==> c.multiSelected == selected
      ensures forall x :: x in canvases && x !in ranges && x !in RangesCanvases(ranges, normalise) ==>
                x.multiSelected == old(x.multiSelected)
      ensures forall x :: x in canvases + ranges ==> x.multiSelectEnabled == old(x.multiSelectEnabled)
    {
      SelectRanges(ranges, selected, normalise);
    }

    /**
      `selectRange`: the first range with the same id, and every canvas it
      names, take `selected`.
    */
    method SelectRange(range: Selectable, selected: bool, normalise: string -> string)
      requires exists k :: 0 <= k < |ranges| && ranges[k].id == range.id
      requires forall id :: id in ranges[IndexOfId(ranges, range.id, Verbatim)].canvasIds ==> HasCanvasId(id, normalise)
      modifies Items()
      ensures var r := ranges[IndexOfId(ranges, range.id, Verbatim)];
              && r.multiSelected == selected
              && (forall c :: c in CanvasesNamed(r.canvasIds, normalise) ==> c.multiSelected == selected)
              && (forall x :: x in canvases + ranges && x != r && x !in CanvasesNamed(r.canvasIds, normalise) ==>
                    x.multiSelected == old(x.multiSelected))
      ensures forall x :: x in canvases + ranges ==> x.multiSelectEnabled == old(x.multiSelectEnabled)
    {
      var r := ranges[IndexOfId(ranges, range.id, Verbatim)];
      r.multiSelected := selected;
      var cs := GetRangeCanvases(r, normalise);
      SelectCanvases(cs, selected);
    }

    /** `selectAll`: every range and every canvas take `selected`. */
    method SelectAll(selected: bool, normalise: string -> string)
      requires RangesResolve(ranges, normalise)
      modifies Items()
      ensures forall x :: x in GetAll() ==> x.multiSelected == selected
      ensures AllSelected() <==> selected && |ranges| > 0 && |canvases| > 0
      ensures forall x :: x in canvases + ranges ==> x.multiSelectEnabled == old(x.multiSelectEnabled)
    {
      SelectRanges(ranges, selected, normalise);
      SelectCanvases(canvases, selected);
    }

    /**
      `setEnabled`: every item's `multiSelectEnabled` becomes `enabled`, and when
      disabling, every item is deselected; enabling keeps the selection.
    */
    method SetEnabled(enabled: bool)
      modifies this`isEnabled, Items()
      ensures isEnabled == enabled
      ensures forall x :: x in GetAll() ==> x.multiSelectEnabled == enabled
      ensures forall x :: x in GetAll() ==> x.multiSelected == (enabled && old(x.multiSelected))
    {
      isEnabled := enabled;
      var items := GetAll();
      for i := 0 to |items|
        invariant isEnabled == enabled
        invariant forall k :: 0 <= k < i ==> items[k].multiSelectEnabled == enabled
        invariant enabled ==> forall x :: x in items ==> x.multiSelected == old(x.multiSelected)
        invariant !enabled ==> forall k :: 0 <= k < i ==> !items[k].multiSelected
      {
        var item := items[i];
        item.multiSelectEnabled := isEnabled;
        if !enabled {
          item.multiSelected := false;
        }
      }
    }
  }
}
