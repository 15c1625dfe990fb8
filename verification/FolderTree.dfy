/**
 The sidebar's tree, held flat: a list of visible rows with depths, spliced in
 place, against the forest it stands for.
 */
module FolderTree {
  import opened Wrappers

  type Path = string

  datatype Folder = Folder(path: Path, title: string)

  datatype Row = Row(path: Path, title: string, depth: nat, expanded: bool)

  /******* The tree the rows stand for *******/

  /** Siblings in order; a collapsed folder keeps nothing below it. */
  datatype Forest = Nil | Tree(path: Path, title: string, expanded: bool, kids: Forest, rest: Forest)

  ghost predicate Tidy(f: Forest) {
    f.Tree? ==> (f.expanded || f.kids == Nil) && Tidy(f.kids) && Tidy(f.rest)
  }

  function Visible(f: Forest, depth: nat): seq<Row> {
    match f
    case Nil => []
    case Tree(path, title, expanded, kids, rest) =>
      [Row(path, title, depth, expanded)] + Visible(kids, depth + 1) + Visible(rest, depth)
  }

  /** The tree whose top is the `i`-th visible row. */
  function At(f: Forest, i: nat, depth: nat): (t: Forest)
    requires i < |Visible(f, depth)|
    ensures t.Tree?
  {
    var n := |Visible(f.kids, depth + 1)|;
    if i == 0 then f
    else if i <= n then At(f.kids, i - 1, depth + 1)
    else At(f.rest, i - 1 - n, depth)
  }

  /** `f` with the `i`-th row open or not and other children. */
  function With(f: Forest, i: nat, depth: nat, expanded: bool, kids: Forest): (t: Forest)
    requires i < |Visible(f, depth)|
  {
    var n := |Visible(f.kids, depth + 1)|;
    if i == 0 then f.(expanded := expanded, kids := kids)
    else if i <= n then f.(kids := With(f.kids, i - 1, depth + 1, expanded, kids))
    else f.(rest := With(f.rest, i - 1 - n, depth, expanded, kids))
  }

  /** Collapsed folders, in order, ahead of `f`. */
  function Before(folders: seq<Folder>, f: Forest): Forest {
    if folders == [] then f else Tree(folders[0].path, folders[0].title, false, Nil, Before(folders[1..], f))
  }

  function Rows(folders: seq<Folder>, depth: nat): seq<Row> {
    seq(|folders|, i requires 0 <= i < |folders| => Row(folders[i].path, folders[i].title, depth, false))
  }

  /** The top folders of a forest. */
  function Tops(f: Forest): seq<Folder> {
    match f
    case Nil => []
    case Tree(path, title, _, _, rest) => [Folder(path, title)] + Tops(rest)
  }

  /** What is drawn is what is there: an open folder shows exactly its listing. */
  ghost predicate Truthful(f: Forest, listing: Path -> seq<Folder>) {
    f.Tree? ==>
      && (if f.expanded then Tops(f.kids) == listing(f.path) else f.kids == Nil)
      && Truthful(f.kids, listing) && Truthful(f.rest, listing)
  }

  /******* Rows and forests *******/

  lemma {:induction false} Deep(f: Forest, depth: nat)
    ensures forall r | r in Visible(f, depth) :: r.depth >= depth
  {
    if f.Tree? {
      Deep(f.kids, depth + 1);
      Deep(f.rest, depth);
    }
  }

  /** One past the last row under row `i`: where the depth first comes back up. */
  ghost predicate Ends(rows: seq<Row>, i: nat, end: nat) {
    && i < end <= |rows|
    && (forall k | i < k < end :: rows[k].depth > rows[i].depth)
    && (end < |rows| ==> rows[end].depth <= rows[i].depth)
  }

  /** Under row `i` stand the rows `under`, and `rows'` has `over` in their place. */
  ghost predicate Spliced(rows: seq<Row>, i: nat, under: seq<Row>, rows': seq<Row>, top: Row, over: seq<Row>) {
    var end := i + 1 + |under|;
    && Ends(rows, i, end) && rows[i + 1..end] == under
    && rows' == rows[..i] + [top] + over + rows[end..]
  }

  lemma SliceWithin(a: seq<Row>, b: seq<Row>, c: seq<Row>, i: nat, end: nat)
    requires i < end <= |b|
    ensures (a + b + c)[|a| + i + 1..|a| + end] == b[i + 1..end]
    ensures (a + b + c)[..|a| + i] == a + b[..i] && (a + b + c)[|a| + end..] == b[end..] + c
  {
  }

  lemma EndsWithin(a: seq<Row>, b: seq<Row>, c: seq<Row>, i: nat, end: nat)
    requires Ends(b, i, end) && (c != [] ==> c[0].depth <= b[i].depth)
    ensures Ends(a + b + c, |a| + i, |a| + end) && (a + b + c)[|a| + i] == b[i]
  {
    var rows := a + b + c;
    forall k | |a| <= k < |a| + |b| ensures rows[k] == b[k - |a|] {}
    if |b| == end && |c| > 0 { assert rows[|a| + end] == c[0]; }
  }

  lemma SpliceWithin(a: seq<Row>, b: seq<Row>, c: seq<Row>, i: nat, under: seq<Row>, b': seq<Row>, top: Row,
                     over: seq<Row>)
    requires Spliced(b, i, under, b', top, over) && (c != [] ==> c[0].depth <= b[i].depth)
    ensures Spliced(a + b + c, |a| + i, under, a + b' + c, top, over) && (a + b + c)[|a| + i] == b[i]
  {
    hide Ends;
    var end := i + 1 + |under|;
    EndsWithin(a, b, c, i, end);
    assert end <= |b| by { EndsAreInside(b, i, end); }
    SliceWithin(a, b, c, i, end);
    assert a + (b[..i] + [top] + over + b[end..]) + c == (a + b[..i]) + [top] + over + (b[end..] + c);
  }

  lemma EndsAreInside(rows: seq<Row>, i: nat, end: nat)
    requires Ends(rows, i, end)
    ensures i < end <= |rows|
  {
  }

  /** The rows under a row are its descendants, and replacing its children replaces them. */
  ghost predicate SpliceOk(f: Forest, i: nat, depth: nat, expanded: bool, kids: Forest)
    requires i < |Visible(f, depth)|
  {
    var rows, t := Visible(f, depth), At(f, i, depth);
    var d := rows[i].depth;
    && depth <= d && rows[i] == Row(t.path, t.title, d, t.expanded)
    && Spliced(rows, i, Visible(t.kids, d + 1), Visible(With(f, i, depth, expanded, kids), depth),
               rows[i].(expanded := expanded), Visible(kids, d + 1))
  }

  lemma {:induction false} Splice(f: Forest, i: nat, depth: nat, expanded: bool, kids: Forest)
    requires i < |Visible(f, depth)|
    ensures SpliceOk(f, i, depth, expanded, kids)
  {
    hide SpliceOk;
    var n := |Visible(f.kids, depth + 1)|;
    if i == 0 {
      SpliceTop(f, depth, expanded, kids);
    } else if i <= n {
      Splice(f.kids, i - 1, depth + 1, expanded, kids);
      SpliceBelow(f, i, depth, expanded, kids);
    } else {
      Splice(f.rest, i - 1 - n, depth, expanded, kids);
      SpliceBeside(f, i, depth, expanded, kids);
    }
  }

  lemma SpliceTop(f: Forest, depth: nat, expanded: bool, kids: Forest)
    requires f.Tree?
    ensures SpliceOk(f, 0, depth, expanded, kids)
  {
    Deep(f.kids, depth + 1);
    BesideIsShallow(f.rest, depth);
    hide Spliced;
    TopSplice(Row(f.path, f.title, depth, f.expanded), Visible(f.kids, depth + 1), Visible(f.rest, depth), expanded,
              Visible(kids, depth + 1));
  }

  lemma SpliceBelow(f: Forest, i: nat, depth: nat, expanded: bool, kids: Forest)
    requires f.Tree? && 0 < i <= |Visible(f.kids, depth + 1)| && SpliceOk(f.kids, i - 1, depth + 1, expanded, kids)
    ensures SpliceOk(f, i, depth, expanded, kids)
  {
    hide Spliced;
    BesideIsShallow(f.rest, depth);
    var top, below, beside := [Row(f.path, f.title, depth, f.expanded)], Visible(f.kids, depth + 1),
      Visible(f.rest, depth);
    var t := At(f.kids, i - 1, depth + 1);
    var kids' := With(f.kids, i - 1, depth + 1, expanded, kids);
    var below' := Visible(kids', depth + 1);
    assert At(f, i, depth) == t && Visible(f, depth) == top + below + beside;
    assert Visible(With(f, i, depth, expanded, kids), depth) == top + below' + beside;
    hide Visible, With, At;
    var d := below[i - 1].depth;
    SpliceWithin(top, below, beside, i - 1, Visible(t.kids, d + 1), below', below[i - 1].(expanded := expanded),
                 Visible(kids, d + 1));
  }

  lemma SpliceBeside(f: Forest, i: nat, depth: nat, expanded: bool, kids: Forest)
    requires f.Tree?
    requires var n := |Visible(f.kids, depth + 1)|;
      n < i < 1 + n + |Visible(f.rest, depth)| && SpliceOk(f.rest, i - 1 - n, depth, expanded, kids)
    ensures SpliceOk(f, i, depth, expanded, kids)
  {
    hide Spliced;
    var before := [Row(f.path, f.title, depth, f.expanded)] + Visible(f.kids, depth + 1);
    var beside := Visible(f.rest, depth);
    var k := i - |before|;
    var t := At(f.rest, k, depth);
    var rest' := With(f.rest, k, depth, expanded, kids);
    var beside' := Visible(rest', depth);
    assert At(f, i, depth) == t && Visible(f, depth) == before + beside == before + beside + [];
    assert Visible(With(f, i, depth, expanded, kids), depth) == before + beside' == before + beside' + [];
    hide Visible, With, At;
    var d := beside[k].depth;
    SpliceWithin(before, beside, [], k, Visible(t.kids, d + 1), beside', beside[k].(expanded := expanded),
                 Visible(kids, d + 1));
  }

  lemma BesideIsShallow(f: Forest, depth: nat)
    ensures f.Tree? ==> Visible(f, depth)[0].depth == depth
  {
  }

  lemma TopSplice(top: Row, below: seq<Row>, beside: seq<Row>, expanded: bool, over: seq<Row>)
    requires (forall r | r in below :: r.depth > top.depth) && (beside != [] ==> beside[0].depth <= top.depth)
    ensures Spliced([top] + below + beside, 0, below, [top.(expanded := expanded)] + over + beside,
                    top.(expanded := expanded), over)
  {
    var rows := [top] + below + beside;
    assert rows[1..1 + |below|] == below && rows[1 + |below|..] == beside;
    forall k | 0 < k < 1 + |below| ensures rows[k].depth > top.depth { assert rows[k] == below[k - 1]; }
  }

  /******* One forest for one list *******/

  /** Rows leave no doubt: tidy forests that look alike are alike. */
  lemma {:induction false} RowsDetermineForest(f: Forest, g: Forest, depth: nat)
    requires Tidy(f) && Tidy(g) && Visible(f, depth) == Visible(g, depth)
    ensures f == g
  {
    if f.Tree? && g.Tree? {
      var rows := Visible(f, depth);
      var m, n := |Visible(f.kids, depth + 1)|, |Visible(g.kids, depth + 1)|;
      assert rows[0] == Row(f.path, f.title, depth, f.expanded) == Row(g.path, g.title, depth, g.expanded);
      NoFewer(f, g, depth);
      NoFewer(g, f, depth);
      assert rows[1..1 + m] == Visible(f.kids, depth + 1) && rows[1 + m..] == Visible(f.rest, depth);
      assert rows[1..1 + n] == Visible(g.kids, depth + 1) && rows[1 + n..] == Visible(g.rest, depth);
      RowsDetermineForest(f.kids, g.kids, depth + 1);
      RowsDetermineForest(f.rest, g.rest, depth);
    }
  }

  lemma NoFewer(f: Forest, g: Forest, depth: nat)
    requires f.Tree? && g.Tree? && Visible(f, depth) == Visible(g, depth)
    ensures |Visible(f.kids, depth + 1)| >= |Visible(g.kids, depth + 1)|
  {
    FirstBeside(f, depth);
    StillBelow(g, depth, |Visible(f.kids, depth + 1)|);
  }

  lemma FirstBeside(f: Forest, depth: nat)
    requires f.Tree?
    ensures var n := |Visible(f.kids, depth + 1)|;
      1 + n < |Visible(f, depth)| ==> Visible(f, depth)[1 + n].depth == depth
  {
    var n := |Visible(f.kids, depth + 1)|;
    BesideIsShallow(f.rest, depth);
    if 1 + n < |Visible(f, depth)| { assert Visible(f, depth)[1 + n] == Visible(f.rest, depth)[0]; }
  }

  lemma StillBelow(g: Forest, depth: nat, k: nat)
    requires g.Tree?
    ensures k < |Visible(g.kids, depth + 1)| ==> 1 + k < |Visible(g, depth)| && Visible(g, depth)[1 + k].depth > depth
  {
    Deep(g.kids, depth + 1);
    if k < |Visible(g.kids, depth + 1)| { assert Visible(g, depth)[1 + k] == Visible(g.kids, depth + 1)[k]; }
  }

  lemma {:induction false} TruthfulIsTidy(f: Forest, listing: Path -> seq<Folder>)
    requires Truthful(f, listing)
    ensures Tidy(f)
  {
    if f.Tree? {
      TruthfulIsTidy(f.kids, listing);
      TruthfulIsTidy(f.rest, listing);
    }
  }

  lemma {:induction false} WithStaysTidy(f: Forest, i: nat, depth: nat, expanded: bool, kids: Forest)
    requires i < |Visible(f, depth)| && Tidy(f) && Tidy(kids) && (expanded || kids == Nil)
    ensures Tidy(With(f, i, depth, expanded, kids)) && Tidy(At(f, i, depth))
  {
    var n := |Visible(f.kids, depth + 1)|;
    if 0 < i <= n { WithStaysTidy(f.kids, i - 1, depth + 1, expanded, kids); }
    if i > n { WithStaysTidy(f.rest, i - 1 - n, depth, expanded, kids); }
  }

  lemma {:induction false} WithKeepsTops(f: Forest, i: nat, depth: nat, expanded: bool, kids: Forest)
    requires i < |Visible(f, depth)|
    ensures Tops(With(f, i, depth, expanded, kids)) == Tops(f)
  {
    var n := |Visible(f.kids, depth + 1)|;
    if i > n { WithKeepsTops(f.rest, i - 1 - n, depth, expanded, kids); }
  }

  /** Changing one folder keeps the tree truthful exactly when that folder is. */
  lemma {:induction false} TruthfulIff(f: Forest, i: nat, depth: nat, expanded: bool, kids: Forest,
                                       listing: Path -> seq<Folder>)
    requires i < |Visible(f, depth)| && Truthful(f, listing) && Truthful(kids, listing)
    ensures Truthful(With(f, i, depth, expanded, kids), listing)
      <==> if expanded then Tops(kids) == listing(At(f, i, depth).path) else kids == Nil
  {
    var n := |Visible(f.kids, depth + 1)|;
    WithKeepsTops(f, i, depth, expanded, kids);
    if 0 < i <= n { WithKeepsTops(f.kids, i - 1, depth + 1, expanded, kids); }
    hide Tops;
    if 0 < i <= n { TruthfulIff(f.kids, i - 1, depth + 1, expanded, kids, listing); }
    if i > n { TruthfulIff(f.rest, i - 1 - n, depth, expanded, kids, listing); }
  }

  lemma {:induction false} AtIsTruthful(f: Forest, i: nat, depth: nat, listing: Path -> seq<Folder>)
    requires i < |Visible(f, depth)| && Truthful(f, listing)
    ensures Truthful(At(f, i, depth), listing)
  {
    var n := |Visible(f.kids, depth + 1)|;
    if 0 < i <= n { AtIsTruthful(f.kids, i - 1, depth + 1, listing); }
    if i > n { AtIsTruthful(f.rest, i - 1 - n, depth, listing); }
  }

  /** Opening a closed folder and closing it again changes nothing. */
  lemma {:induction false} ExpandThenCollapse(f: Forest, i: nat, depth: nat, kids: Forest)
    requires i < |Visible(f, depth)| && Tidy(f) && !At(f, i, depth).expanded
    ensures i < |Visible(With(f, i, depth, true, kids), depth)|
    ensures With(With(f, i, depth, true, kids), i, depth, false, Nil) == f
  {
    var n := |Visible(f.kids, depth + 1)|;
    if i == 0 {
    } else if i <= n {
      ExpandThenCollapse(f.kids, i - 1, depth + 1, kids);
      var under := With(f.kids, i - 1, depth + 1, true, kids);
      assert With(f, i, depth, true, kids) == f.(kids := under) && i - 1 < |Visible(under, depth + 1)|;
    } else {
      ExpandThenCollapse(f.rest, i - 1 - n, depth, kids);
      assert With(f, i, depth, true, kids) == f.(rest := With(f.rest, i - 1 - n, depth, true, kids));
    }
  }

  lemma RowsStep(folders: seq<Folder>, depth: nat)
    requires folders != []
    ensures Rows(folders, depth) == [Row(folders[0].path, folders[0].title, depth, false)] + Rows(folders[1..], depth)
  {
  }

  lemma {:induction false} BeforeIsRows(folders: seq<Folder>, f: Forest, depth: nat)
    ensures Visible(Before(folders, f), depth) == Rows(folders, depth) + Visible(f, depth)
  {
    if folders != [] {
      var r, rest, under := Row(folders[0].path, folders[0].title, depth, false), Rows(folders[1..], depth),
        Visible(f, depth);
      BeforeIsRows(folders[1..], f, depth);
      RowsStep(folders, depth);
      hide Rows;
      assert [r] + [] + (rest + under) == [r] + rest + under;
    }
  }

  lemma {:induction false} BeforeIsTruthful(folders: seq<Folder>, f: Forest, listing: Path -> seq<Folder>)
    ensures Tops(Before(folders, f)) == folders + Tops(f)
    ensures Tidy(f) ==> Tidy(Before(folders, f))
    ensures Truthful(f, listing) ==> Truthful(Before(folders, f), listing)
  {
    if folders != [] {
      BeforeIsTruthful(folders[1..], f, listing);
      assert folders + Tops(f) == [folders[0]] + (folders[1..] + Tops(f));
    }
  }

  /** When an answer that says `listed` is spliced in under row `i`, the rows still
      stand for a tree that shows what is there if and only if the row is closed and
      the answer is its own, or is open and the answer is empty. */
  lemma AnswerFitsIff(f: Forest, i: nat, listed: seq<Folder>, listing: Path -> seq<Folder>)
    requires i < |Visible(f, 0)| && Truthful(f, listing)
    ensures var t := At(f, i, 0);
      var rows' := Visible(With(f, i, 0, true, Before(listed, t.kids)), 0);
      (exists g :: Truthful(g, listing) && Visible(g, 0) == rows')
      <==> if t.expanded then listed == [] else listed == listing(t.path)
  {
    var t := At(f, i, 0);
    var kids := Before(listed, t.kids);
    var f' := With(f, i, 0, true, kids);
    AtIsTruthful(f, i, 0, listing);
    BeforeIsTruthful(listed, t.kids, listing);
    TruthfulIff(f, i, 0, true, kids, listing);
    TruthfulIsTidy(f, listing);
    TruthfulIsTidy(t.kids, listing);
    WithStaysTidy(f, i, 0, true, kids);
    assert t.expanded ==> |Tops(kids)| == |listed| + |listing(t.path)|;
    if g :| Truthful(g, listing) && Visible(g, 0) == Visible(f', 0) {
      TruthfulIsTidy(g, listing);
      RowsDetermineForest(g, f', 0);
    }
  }

  /** Row by row, what a listing does under row `i`: it opens, and closed rows one step
      further in stand below it, in the listing's order. */
  ghost predicate Opened(rows: seq<Row>, i: nat, listed: seq<Folder>, rows': seq<Row>)
    requires i < |rows|
  {
    var r, n := rows[i], |listed|;
    && |rows'| == |rows| + n && rows'[..i] == rows[..i] && rows'[i + 1 + n..] == rows[i + 1..]
    && rows'[i] == Row(r.path, r.title, r.depth, true)
    && forall k | 0 <= k < n :: rows'[i + 1 + k] == Row(listed[k].path, listed[k].title, r.depth + 1, false)
  }

  /** Row `i` closes, and the deeper rows that follow it are gone. */
  ghost predicate Closed(rows: seq<Row>, i: nat, rows': seq<Row>)
    requires i < |rows|
  {
    exists end: nat :: Ends(rows, i, end)
      && rows' == rows[..i] + [Row(rows[i].path, rows[i].title, rows[i].depth, false)] + rows[end..]
  }

  /******* The component *******/

  class Sidebar {
    var rows: seq<Row>
    var pendingRow: int
    ghost var forest: Forest

    ghost predicate Valid()
      reads this
    {
      rows == Visible(forest, 0) && Tidy(forest)
    }

    constructor (roots: seq<Folder>)
      ensures Valid() && forest == Before(roots, Nil) && pendingRow == -1 && |rows| == |roots|
      ensures forall i | 0 <= i < |roots| :: rows[i] == Row(roots[i].path, roots[i].title, 0, false)
    {
      rows, pendingRow, forest := Rows(roots, 0), -1, Before(roots, Nil);
      BeforeIsRows(roots, Nil, 0);
      BeforeIsTruthful(roots, Nil, _ => []);
    }

    /** Returns the path to list, if there is one. */
    method Toggle(row: int) returns (list: Option<Path>)
      requires Valid()
      modifies this
      ensures Valid()
      ensures if !(0 <= row < |old(rows)|) then
                list == None && rows == old(rows) && forest == old(forest) && pendingRow == old(pendingRow)
              else if old(rows)[row].expanded then
                list == None && pendingRow == old(pendingRow) && Closed(old(rows), row, rows)
                && forest == With(old(forest), row, 0, false, Nil)
              else list == Some(old(rows)[row].path) && pendingRow == row && rows == old(rows) && forest == old(forest)
    {
      if row < 0 || row >= |rows| { return None; }
      if rows[row].expanded {
        Collapse(row);
        return None;
      }
      pendingRow := row;
      return Some(rows[row].path);
    }

    /** The lister answered. */
    method InsertChildren(listed: seq<Folder>)
      requires Valid()
      modifies this
      ensures Valid() && pendingRow == -1
      ensures if 0 <= old(pendingRow) < |old(rows)| then
                forest == With(old(forest), old(pendingRow), 0, true,
                               Before(listed, At(old(forest), old(pendingRow), 0).kids))
                && Opened(old(rows), old(pendingRow), listed, rows)
              else rows == old(rows) && forest == old(forest)
    {
      var row := pendingRow;
      pendingRow := -1;
      if row < 0 || row >= |rows| { return; }
      var depth := rows[row].depth;
      ghost var was, children := rows, Rows(listed, depth + 1);
      for i := 0 to |listed|
        invariant rows == was[..row + 1] + children[..i] + was[row + 1..] && pendingRow == -1 && forest == old(forest)
      {
        rows := rows[..row + 1 + i] + [Row(listed[i].path, listed[i].title, depth + 1, false)] + rows[row + 1 + i..];
      }
      assert children[..|listed|] == children;
      rows := rows[row := rows[row].(expanded := true)];
      Grafted(forest, was, row, listed, rows);
      forest := With(forest, row, 0, true, Before(listed, At(forest, row, 0).kids));
    }

    method Collapse(row: nat)
      requires Valid() && row < |rows|
      modifies this`rows, this`forest
      ensures Valid() && forest == With(old(forest), row, 0, false, Nil) && Closed(old(rows), row, rows)
    {
      hide Visible, Tidy, With, At;
      var depth := rows[row].depth;
      ghost var was, end := rows, row + 1;
      while row + 1 < |rows| && rows[row + 1].depth > depth
        invariant row < end <= |was| && rows == was[..row + 1] + was[end..] && forest == old(forest)
        invariant forall k | row < k < end :: was[k].depth > depth
        decreases |rows|
      {
        rows := rows[..row + 1] + rows[row + 2..];
        end := end + 1;
      }
      assert Ends(was, row, end);
      rows := rows[row := rows[row].(expanded := false)];
      Pruned(forest, was, row, end, rows);
      forest := With(forest, row, 0, false, Nil);
    }
  }

  lemma Grafted(f: Forest, rows: seq<Row>, row: nat, listed: seq<Folder>, rows': seq<Row>)
    requires Tidy(f) && rows == Visible(f, 0) && row < |rows|
    requires rows' == (rows[..row + 1] + Rows(listed, rows[row].depth + 1) + rows[row + 1..])
                      [row := rows[row].(expanded := true)]
    ensures var f' := With(f, row, 0, true, Before(listed, At(f, row, 0).kids)); Tidy(f') && rows' == Visible(f', 0)
  {
    hide Spliced;
    var t, d := At(f, row, 0), rows[row].depth;
    var kids := Before(listed, t.kids);
    Splice(f, row, 0, true, kids);
    BeforeIsRows(listed, t.kids, d + 1);
    BeforeIsTruthful(listed, t.kids, _ => []);
    WithStaysTidy(f, row, 0, false, Nil);
    WithStaysTidy(f, row, 0, true, kids);
    hide Visible, With, Rows, Before, Tidy;
    GraftRows(rows, row, Visible(t.kids, d + 1), Visible(With(f, row, 0, true, kids), 0), rows[row].(expanded := true),
              Rows(listed, d + 1));
  }

  lemma GraftRows(rows: seq<Row>, row: nat, under: seq<Row>, rows': seq<Row>, top: Row, fresh0: seq<Row>)
    requires Spliced(rows, row, under, rows', top, fresh0 + under)
    ensures rows' == (rows[..row + 1] + fresh0 + rows[row + 1..])[row := top]
  {
    assert rows[row + 1..] == under + rows[row + 1 + |under|..];
  }

  lemma Pruned(f: Forest, rows: seq<Row>, row: nat, end: nat, rows': seq<Row>)
    requires Tidy(f) && rows == Visible(f, 0) && Ends(rows, row, end)
    requires rows' == (rows[..row + 1] + rows[end..])[row := rows[row].(expanded := false)]
    ensures var f' := With(f, row, 0, false, Nil); Tidy(f') && rows' == Visible(f', 0)
  {
    hide Spliced;
    Splice(f, row, 0, false, Nil);
    WithStaysTidy(f, row, 0, false, Nil);
    hide With, Tidy;
    PruneRows(rows, row, Visible(At(f, row, 0).kids, rows[row].depth + 1), Visible(With(f, row, 0, false, Nil), 0),
              rows[row].(expanded := false), end);
  }

  lemma PruneRows(rows: seq<Row>, row: nat, under: seq<Row>, rows': seq<Row>, top: Row, end: nat)
    requires Spliced(rows, row, under, rows', top, []) && Ends(rows, row, end)
    ensures rows' == (rows[..row + 1] + rows[end..])[row := top]
  {
    assert end == row + 1 + |under|;
  }

  lemma ClickKeeps(f: Forest, row: nat, listing: Path -> seq<Folder>)
    requires row < |Visible(f, 0)| && Truthful(f, listing)
    ensures var r := Visible(f, 0)[row];
      if r.expanded then Truthful(With(f, row, 0, false, Nil), listing)
      else Truthful(With(f, row, 0, true, Before(listing(r.path), At(f, row, 0).kids)), listing)
  {
    var t := At(f, row, 0);
    AtIsTruthful(f, row, 0, listing);
    Splice(f, row, 0, false, Nil);
    BeforeIsTruthful(listing(t.path), t.kids, listing);
    TruthfulIff(f, row, 0, false, Nil, listing);
    TruthfulIff(f, row, 0, true, Before(listing(t.path), t.kids), listing);
    assert listing(t.path) + [] == listing(t.path);
  }

  /** What one answered click does to the rows. */
  ghost predicate Clicked(rows: seq<Row>, row: int, listing: Path -> seq<Folder>, rows': seq<Row>) {
    if !(0 <= row < |rows|) then rows' == rows
    else if rows[row].expanded then Closed(rows, row, rows')
    else Opened(rows, row, listing(rows[row].path), rows')
  }

  /** Any clicks whatever, each answered before the next: every click opens or closes its
      own row, and the rows are always those of a tree that shows what is there. */
  method Explore(s: Sidebar, clicks: seq<int>, listing: Path -> seq<Folder>) returns (ghost shown: seq<seq<Row>>)
    requires s.Valid() && Truthful(s.forest, listing)
    modifies s
    ensures s.Valid() && Truthful(s.forest, listing)
    ensures |shown| == |clicks| + 1 && shown[0] == old(s.rows) && shown[|clicks|] == s.rows
    ensures forall i | 0 <= i < |clicks| :: Clicked(shown[i], clicks[i], listing, shown[i + 1])
  {
    hide Truthful, Visible, At, With, Before, Tidy, Opened, Closed;
    shown := [s.rows];
    for i := 0 to |clicks|
      invariant s.Valid() && Truthful(s.forest, listing)
      invariant |shown| == i + 1 && shown[0] == old(s.rows) && shown[i] == s.rows
      invariant forall k | 0 <= k < i :: Clicked(shown[k], clicks[k], listing, shown[k + 1])
    {
      var row := clicks[i];
      if 0 <= row < |s.rows| { ClickKeeps(s.forest, row, listing); }
      var list := s.Toggle(row);
      if list.Some? { s.InsertChildren(listing(list.value)); }
      shown := shown + [s.rows];
    }
  }

  /** A folder `a` is opened; its only child `below` is asked about; `a` is closed; and
      only then does the answer for `below` arrive, when its row has become that of
      `b`. The rows stand for a tree that shows what is there if and only if `b`
      happens to hold what `below` does. */
  method Overtaken(a: Folder, below: Folder, b: Folder, listing: Path -> seq<Folder>) returns (s: Sidebar)
    requires listing(a.path) == [below]
    ensures fresh(s) && s.Valid()
    ensures (exists g :: Truthful(g, listing) && Visible(g, 0) == s.rows) <==> listing(below.path) == listing(b.path)
  {
    s := new Sidebar([a, b]);
    ghost var f := s.forest;
    TwoFolders(a, b, listing);
    var list := s.Toggle(0);
    s.InsertChildren(listing(list.value));
    OpenedFirst(a, b, below);
    list := s.Toggle(1);
    var closing := s.Toggle(0);
    assert s.forest == f;
    s.InsertChildren(listing(list.value));
    AnswerFitsIff(f, 1, listing(below.path), listing);
  }

  lemma TwoFolders(a: Folder, b: Folder, listing: Path -> seq<Folder>)
    ensures var f := Before([a, b], Nil);
      && Truthful(f, listing) && Visible(f, 0) == [Row(a.path, a.title, 0, false), Row(b.path, b.title, 0, false)]
      && At(f, 0, 0) == f && f.kids == Nil && At(f, 1, 0) == Tree(b.path, b.title, false, Nil, Nil)
  {
    BeforeIsTruthful([a, b], Nil, listing);
    BeforeIsRows([a, b], Nil, 0);
    BeforeIsRows([b], Nil, 0);
    assert [a, b][1..] == [b] && [b][1..] == [];
  }

  lemma OpenedFirst(a: Folder, b: Folder, below: Folder)
    ensures var f := Before([a, b], Nil);
      && |Visible(f, 0)| == 2
      && var f1 := With(f, 0, 0, true, Before([below], Nil));
         && |Visible(f1, 0)| == 3 && Visible(f1, 0)[0].expanded
         && Visible(f1, 0)[1] == Row(below.path, below.title, 1, false) && With(f1, 0, 0, false, Nil) == f
  {
    TwoFolders(a, b, _ => []);
    BeforeIsRows([below], Nil, 1);
    BeforeIsRows([b], Nil, 0);
    assert [a, b][1..] == [b];
  }
}
