/**
 * The filter engine and the selection set that every list controller carries:
 * order-preserving filtering, the ids of the visible records, and the set
 * operations behind toggle, select-all and pruning.
 */
module Selection {
  import opened Wrappers

  /** `s.filter(p)` */
  function Filter<R(==, !new)>(s: seq<R>, p: R -> bool): (r: seq<R>)
    ensures |r| <= |s|
    ensures forall x :: x in r <==> x in s && p(x)
  {
    if s == [] then [] else (if p(s[0]) then [s[0]] else []) + Filter(s[1..], p)
  }

  /** `r` is `s` with some elements left out and the rest in their original order. */
  ghost predicate IsSubsequence<R>(r: seq<R>, s: seq<R>)
    decreases |s|
  {
    if r == [] then true
    else if s == [] then false
    else (r[0] == s[0] && IsSubsequence(r[1..], s[1..])) || IsSubsequence(r, s[1..])
  }

  /** Filtering keeps the records it keeps in their original order. */
  lemma {:induction false} FilterIsSubsequence<R(!new)>(s: seq<R>, p: R -> bool)
    ensures IsSubsequence(Filter(s, p), s)
  {
    if s != [] {
      FilterIsSubsequence(s[1..], p);
      if p(s[0]) {
        assert Filter(s, p)[1..] == Filter(s[1..], p);
      } else {
        assert Filter(s, p) == Filter(s[1..], p);
      }
    }
  }

  /** Filtering a concatenation filters each part: the relative order of kept records is unchanged. */
  lemma {:induction false} FilterAppend<R(!new)>(a: seq<R>, b: seq<R>, p: R -> bool)
    ensures Filter(a + b, p) == Filter(a, p) + Filter(b, p)
  {
    if a != [] {
      assert (a + b)[1..] == a[1..] + b;
      FilterAppend(a[1..], b, p);
    } else {
      assert a + b == b;
    }
  }

  /** When every record matches, filtering returns the sequence unchanged. */
  lemma {:induction false} FilterKeepsAll<R(!new)>(s: seq<R>, p: R -> bool)
    requires forall i :: 0 <= i < |s| ==> p(s[i])
    ensures Filter(s, p) == s
  {
    if s != [] {
      FilterKeepsAll(s[1..], p);
    }
  }

  /** Filtering twice by the same predicate is filtering once. */
  lemma FilterIdempotent<R(!new)>(s: seq<R>, p: R -> bool)
    ensures Filter(Filter(s, p), p) == Filter(s, p)
  {
    var f := Filter(s, p);
    assert forall i :: 0 <= i < |f| ==> f[i] in f;
    FilterKeepsAll(f, p);
  }

  /** A record id that `filter(Boolean)` keeps: present and non-empty. */
  predicate IdIn(id: Option<string>, sel: set<string>) {
    Truthy(id) && id.value in sel
  }

  /** `rs.map(r => r.id).filter(Boolean)`: the ids of the records that have one. */
  function VisibleIds<R>(rs: seq<R>, idOf: R -> Option<string>): (ids: seq<string>)
    ensures |ids| <= |rs|
    ensures forall i :: 0 <= i < |ids| ==> ids[i] != ""
    ensures forall x :: x in ids <==> exists k :: 0 <= k < |rs| && Truthy(idOf(rs[k])) && idOf(rs[k]).value == x
  {
    if rs == [] then []
    else
      var rest := VisibleIds(rs[1..], idOf);
      assert forall x :: x in rest <==> exists k :: 1 <= k < |rs| && Truthy(idOf(rs[k])) && idOf(rs[k]).value == x by {
        forall x ensures x in rest <==> exists k :: 1 <= k < |rs| && Truthy(idOf(rs[k])) && idOf(rs[k]).value == x {
          if x in rest {
            var k :| 0 <= k < |rs[1..]| && Truthy(idOf(rs[1..][k])) && idOf(rs[1..][k]).value == x;
            assert rs[k + 1] == rs[1..][k];
          }
        }
      }
      (if Truthy(idOf(rs[0])) then [idOf(rs[0]).value] else []) + rest
  }

  /** `new Set(visibleIds)` */
  function IdSet(ids: seq<string>): set<string> {
    set x | x in ids
  }

  /** The visible ids of a sub-collection are visible ids of the whole collection. */
  lemma VisibleIdsMonotone<R>(a: seq<R>, b: seq<R>, idOf: R -> Option<string>)
    requires forall x :: x in a ==> x in b
    ensures IdSet(VisibleIds(a, idOf)) <= IdSet(VisibleIds(b, idOf))
  {
    forall x | x in IdSet(VisibleIds(a, idOf)) ensures x in IdSet(VisibleIds(b, idOf)) {
      var k :| 0 <= k < |a| && Truthy(idOf(a[k])) && idOf(a[k]).value == x;
      assert a[k] in b;
      var j :| 0 <= j < |b| && b[j] == a[k];
    }
  }

  /**
   * `visibleIds.length > 0 && visibleIds.every(id => selected.has(id))`: some
   * id is visible and every visible id is selected.
   */
  function AllSelected(vis: seq<string>, sel: set<string>): (b: bool)
    ensures b <==> IdSet(vis) != {} && IdSet(vis) <= sel
  {
    assert |vis| > 0 ==> vis[0] in IdSet(vis);
    |vis| > 0 && forall i :: 0 <= i < |vis| ==> vis[i] in sel
  }

  /** No visible id means "all visible selected" is false, whatever is selected. */
  lemma NothingVisibleNotAllSelected(vis: seq<string>, sel: set<string>)
    requires |vis| == 0
    ensures !AllSelected(vis, sel)
  {
  }

  /** The selection after select-all: remove every visible id if all are selected, else add them all. */
  function ToggleAll(sel: set<string>, vis: seq<string>): set<string> {
    if AllSelected(vis, sel) then sel - IdSet(vis) else sel + IdSet(vis)
  }

  /** Select-all ends with all visible ids selected or none, and never touches a hidden id. */
  lemma ToggleAllAllOrNone(sel: set<string>, vis: seq<string>)
    ensures AllSelected(vis, sel) ==> forall x :: x in vis ==> x !in ToggleAll(sel, vis)
    ensures !AllSelected(vis, sel) ==> forall x :: x in vis ==> x in ToggleAll(sel, vis)
    ensures forall x :: x !in vis ==> (x in ToggleAll(sel, vis) <==> x in sel)
  {
  }

  /**
   * Select-all applied twice restores the selection exactly when the visible ids
   * were all selected or none was (or there were none); from a partial
   * selection the second call leaves no visible id selected.
   */
  lemma ToggleAllTwice(sel: set<string>, vis: seq<string>)
    ensures ToggleAll(ToggleAll(sel, vis), vis) == sel
            <==> (|vis| == 0 || IdSet(vis) <= sel || IdSet(vis) !! sel)
    ensures |vis| > 0 && !AllSelected(vis, sel)
            ==> ToggleAll(ToggleAll(sel, vis), vis) == sel - IdSet(vis)
  {
    var v := IdSet(vis);
    var once := ToggleAll(sel, vis);
    if |vis| == 0 {
      assert v == {};
    } else if AllSelected(vis, sel) {
      assert v <= sel;
      assert once == sel - v;
      assert !AllSelected(vis, once) by { assert vis[0] !in once; }
      assert ToggleAll(once, vis) == sel;
    } else {
      assert once == sel + v;
      assert AllSelected(vis, once);
      assert ToggleAll(once, vis) == sel - v;
      if !(v !! sel) {
        var x :| x in v && x in sel;
        assert x !in sel - v;
      }
    }
  }

  /** `selected.has(id) ? delete : add` */
  function Toggled(sel: set<string>, id: string): set<string> {
    if id in sel then sel - {id} else sel + {id}
  }

  /** Toggling flips exactly the given id; toggling it again restores the selection. */
  lemma ToggledFlipsOne(sel: set<string>, id: string)
    ensures id in Toggled(sel, id) <==> id !in sel
    ensures forall x :: x != id ==> (x in Toggled(sel, id) <==> x in sel)
    ensures Toggled(Toggled(sel, id), id) == sel
  {
  }

  /** `rs.filter(r => r.id && selected.has(r.id))`: the selected records, in collection order. */
  function SelectedRecords<R(==, !new)>(rs: seq<R>, idOf: R -> Option<string>, sel: set<string>): (r: seq<R>)
    ensures forall x :: x in r <==> x in rs && IdIn(idOf(x), sel)
    ensures IsSubsequence(r, rs)
  {
    FilterIsSubsequence(rs, x => IdIn(idOf(x), sel));
    Filter(rs, x => IdIn(idOf(x), sel))
  }

  /** The one element of a one-element set (`Array.from(selected)[0]`). */
  ghost function Only(s: set<string>): (x: string)
    requires |s| == 1
    ensures s == {x}
  {
    var x :| x in s;
    assert |s - {x}| == 0;
    assert s - {x} == {};
    x
  }
}
