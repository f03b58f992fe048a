/** Which threads a recovery has to move together (internal/transport/recovery_client.go,
    inspectRecoverableSubtree): page through the descendants of a root, find the depth of
    each by a memoised walk up its parents, and list them deepest first, the root last. */
module Subtree {
  import opened Wrappers
  import opened GoJson

  const MAX_THREADS: nat := 64

  datatype Listed = Listed(id: string, parent: Option<string>)

  datatype Page = Page(data: seq<Listed>, next: Option<string>)

  // ---------------------------------------------------------------- what a complete listing is

  /** The page that ends the listing, if every page up to it was answered. */
  function LastPage(pages: seq<Option<Page>>, k: nat): (n: Option<nat>)
    decreases |pages| - k
    ensures n.Some? ==> k <= n.value < |pages| && pages[n.value].Some? && pages[n.value].value.next.None?
    ensures n.Some? ==> forall i :: k <= i < n.value ==> pages[i].Some? && pages[i].value.next.Some?
  {
    if k >= |pages| || pages[k].None? then None
    else if pages[k].value.next.None? then Some(k)
    else LastPage(pages, k + 1)
  }

  /** What the first n pages list. */
  function Entries(pages: seq<Option<Page>>, n: nat): seq<Listed>
    requires n <= |pages| && forall i :: 0 <= i < n ==> pages[i].Some?
  {
    if n == 0 then [] else Entries(pages, n - 1) + pages[n - 1].value.data
  }

  predicate CursorsFresh(pages: seq<Option<Page>>, n: nat)
    requires n <= |pages| && forall i :: 0 <= i < n ==> pages[i].Some? && pages[i].value.next.Some?
  {
    && (forall i :: 0 <= i < n ==> pages[i].value.next.value != "")
    && (forall i, j :: 0 <= i < j < n ==> pages[i].value.next != pages[j].value.next)
  }

  /** Every entry is a descendant, and no id comes twice. */
  predicate EntriesValid(root: string, es: seq<Listed>) {
    && (forall i :: 0 <= i < |es| ==> es[i].id != "" && es[i].id != root && es[i].parent.Some? && es[i].parent.value != "")
    && (forall i, j :: 0 <= i < j < |es| ==> es[i].id != es[j].id)
    && |es| + 1 <= MAX_THREADS
  }

  function Parents(es: seq<Listed>): map<string, string>
    requires forall i :: 0 <= i < |es| ==> es[i].parent.Some?
  {
    if es == [] then map[] else Parents(es[..|es| - 1])[es[|es| - 1].id := es[|es| - 1].parent.value]
  }

  /** The parents of a thread lead to the root in n steps. */
  predicate Chain(parents: map<string, string>, root: string, id: string, n: nat)
    decreases n
  {
    n > 0 && id in parents && if parents[id] == root then n == 1 else Chain(parents, root, parents[id], n - 1)
  }

  ghost predicate Reaches(parents: map<string, string>, root: string, id: string) {
    exists n: nat :: Chain(parents, root, id, n)
  }

  ghost predicate AllReach(parents: map<string, string>, root: string) {
    forall id :: id in parents ==> Reaches(parents, root, id)
  }

  /** The listing is whole, valid, small enough, and every parent chain reaches the root. */
  ghost predicate Complete(root: string, pages: seq<Option<Page>>) {
    var last := LastPage(pages, 0);
    last.Some? && CursorsFresh(pages, last.value) &&
    (var es := Entries(pages, last.value + 1); EntriesValid(root, es) && AllReach(Parents(es), root))
  }

  /** All of them without repeats, each before its parent, the root last. */
  ghost predicate DeepestFirst(root: string, parents: map<string, string>, ids: seq<string>) {
    && |ids| == |parents| + 1 && ids[|ids| - 1] == root
    && (forall id :: id in ids <==> id in parents || id == root)
    && (forall i, j :: 0 <= i < j < |ids| ==> ids[i] != ids[j])
    && (forall i :: 0 <= i < |ids| - 1 ==> ids[i] in parents && parents[ids[i]] in ids[i + 1..])
  }

  // ---------------------------------------------------------------- chains

  lemma {:induction false} ChainUnique(parents: map<string, string>, root: string, id: string, n: nat, m: nat)
    requires Chain(parents, root, id, n) && Chain(parents, root, id, m)
    ensures n == m
    decreases n
  {
    if parents[id] != root { ChainUnique(parents, root, parents[id], n - 1, m - 1); }
  }

  /** Going up k times from one thread, never past the root, leads to another. */
  predicate Path(parents: map<string, string>, root: string, from: string, k: nat, to: string)
    decreases k
  {
    from in parents && if k == 0 then from == to else parents[from] != root && Path(parents, root, parents[from], k - 1, to)
  }

  lemma {:induction false} PathStep(parents: map<string, string>, root: string, from: string, k: nat, to: string)
    requires Path(parents, root, from, k, to) && to in parents && parents[to] != root && parents[to] in parents
    ensures Path(parents, root, from, k + 1, parents[to])
    decreases k
  {
    if k > 0 { PathStep(parents, root, parents[from], k - 1, to); }
  }

  lemma {:induction false} PathChain(parents: map<string, string>, root: string, from: string, k: nat, to: string, n: nat)
    requires Path(parents, root, from, k, to) && Chain(parents, root, from, n)
    ensures k < n && Chain(parents, root, to, n - k)
    decreases k
  {
    if k > 0 { PathChain(parents, root, parents[from], k - 1, to, n - 1); }
  }

  /** A thread on a cycle reaches no root. */
  lemma CycleNeverReaches(parents: map<string, string>, root: string, id: string, k: nat)
    requires k > 0 && Path(parents, root, id, k, id)
    ensures !Reaches(parents, root, id)
  {
    if Reaches(parents, root, id) {
      var n: nat :| Chain(parents, root, id, n);
      PathChain(parents, root, id, k, id, n);
      ChainUnique(parents, root, id, n, n - k);
    }
  }

  lemma ReachesParent(parents: map<string, string>, root: string, id: string)
    requires id in parents && parents[id] != root
    ensures Reaches(parents, root, id) <==> parents[id] in parents && Reaches(parents, root, parents[id])
  {
    if Reaches(parents, root, id) {
      var n: nat :| Chain(parents, root, id, n);
      assert Chain(parents, root, parents[id], n - 1);
    }
    if parents[id] in parents && Reaches(parents, root, parents[id]) {
      var n: nat :| Chain(parents, root, parents[id], n);
      assert Chain(parents, root, id, n + 1);
    }
  }

  // ---------------------------------------------------------------- the memoised walk

  ghost predicate DepthsTrue(parents: map<string, string>, root: string, depths: map<string, nat>) {
    forall id :: id in depths ==> Chain(parents, root, id, depths[id])
  }

  /** Every thread being visited leads up to the given one. */
  ghost predicate OnTheWay(parents: map<string, string>, root: string, visiting: set<string>, id: string) {
    forall v :: v in visiting ==> exists k: nat :: k > 0 && Path(parents, root, v, k, id)
  }

  class DepthWalk {
    const parents: map<string, string>
    const root: string
    var depths: map<string, nat>
    var visiting: set<string>

    constructor (parents: map<string, string>, root: string)
      ensures this.parents == parents && this.root == root && depths == map[] && visiting == {}
    {
      this.parents, this.root, depths, visiting := parents, root, map[], {};
    }

    /** The depth of a thread: it exists exactly if the thread reaches the root. */
    method Depth(id: string) returns (depth: Option<nat>)
      requires id in parents && DepthsTrue(parents, root, depths)
      requires visiting <= parents.Keys && OnTheWay(parents, root, visiting, id)
      modifies this
      ensures DepthsTrue(parents, root, depths)
      ensures forall d :: d in old(depths) ==> d in depths
      ensures depth.Some? <==> Reaches(parents, root, id)
      ensures depth.Some? ==> id in depths && depths[id] == depth.value && visiting == old(visiting)
      decreases parents.Keys - visiting
    {
      if id in depths { return Some(depths[id]); }
      if id in visiting {
        var k: nat :| k > 0 && Path(parents, root, id, k, id);
        CycleNeverReaches(parents, root, id, k);
        return None;
      }
      ghost var before := visiting;
      visiting := visiting + {id};
      var parent := parents[id];
      var value := 1;
      if parent != root {
        ReachesParent(parents, root, id);
        if parent !in parents { return None; }
        WayUp(parents, root, before, id);
        var above := Depth(parent);
        if above.None? { return None; }
        value := above.value + 1;
      }
      assert Chain(parents, root, id, value);
      visiting := visiting - {id};
      assert visiting == before;
      depths := depths[id := value];
      return Some(value);
    }
  }

  lemma WayUp(parents: map<string, string>, root: string, visiting: set<string>, id: string)
    requires OnTheWay(parents, root, visiting, id) && id in parents && parents[id] != root && parents[id] in parents
    ensures OnTheWay(parents, root, visiting + {id}, parents[id])
  {
    forall v | v in visiting + {id}
      ensures exists k: nat :: k > 0 && Path(parents, root, v, k, parents[id])
    {
      if v in visiting {
        var k: nat :| k > 0 && Path(parents, root, v, k, id);
        PathStep(parents, root, v, k, id);
      } else {
        assert Path(parents, root, id, 1, parents[id]);
      }
    }
  }

  // ---------------------------------------------------------------- the order

  /** Deeper first, then by id. */
  predicate Before(depths: map<string, nat>, a: string, b: string)
    requires a in depths && b in depths
  {
    depths[a] > depths[b] || (depths[a] == depths[b] && Less(a, b))
  }

  ghost predicate Ordered(depths: map<string, nat>, ids: seq<string>) {
    (forall i :: 0 <= i < |ids| ==> ids[i] in depths) &&
    forall i, j :: 0 <= i < j < |ids| ==> Before(depths, ids[i], ids[j])
  }

  lemma BeforeTransitive(depths: map<string, nat>, a: string, b: string, c: string)
    requires a in depths && b in depths && c in depths && Before(depths, a, b) && Before(depths, b, c)
    ensures Before(depths, a, c)
  {
    if depths[a] == depths[b] == depths[c] { LessTransitive(a, b, c); }
    hide Less;
  }

  /** Sorting an id into an ordered list. */
  method Insert(depths: map<string, nat>, ids: seq<string>, id: string) returns (more: seq<string>)
    requires Ordered(depths, ids) && id in depths && id !in ids
    ensures Ordered(depths, more) && |more| == |ids| + 1 && forall x :: x in more <==> x in ids || x == id
  {
    hide Less;
    var at := 0;
    while at < |ids| && Before(depths, ids[at], id)
      invariant 0 <= at <= |ids| && forall i :: 0 <= i < at ==> Before(depths, ids[i], id)
    {
      at := at + 1;
    }
    more := ids[..at] + [id] + ids[at..];
    InsertedAt(depths, ids, id, at);
  }

  lemma InsertedAt(depths: map<string, nat>, ids: seq<string>, id: string, at: nat)
    requires Ordered(depths, ids) && id in depths && id !in ids && at <= |ids|
    requires forall i :: 0 <= i < at ==> Before(depths, ids[i], id)
    requires at < |ids| ==> !Before(depths, ids[at], id)
    ensures var more := ids[..at] + [id] + ids[at..];
      Ordered(depths, more) && |more| == |ids| + 1 && forall x :: x in more <==> x in ids || x == id
  {
    hide Less;
    var more := ids[..at] + [id] + ids[at..];
    assert ids == ids[..at] + ids[at..];
    forall j | at <= j < |ids|
      ensures Before(depths, id, ids[j])
    {
      LessTotal(ids[at], id);
      assert ids[at] in ids;
      if j > at { BeforeTransitive(depths, id, ids[at], ids[j]); }
    }
    InsertedOrder(depths, ids, id, at);
    forall x
      ensures x in more <==> x in ids || x == id
    {
      assert x in more <==> x in ids[..at] || x == id || x in ids[at..];
      assert x in ids <==> x in ids[..at] || x in ids[at..];
    }
  }

  lemma InsertedOrder(depths: map<string, nat>, ids: seq<string>, id: string, at: nat)
    requires Ordered(depths, ids) && id in depths && at <= |ids|
    requires forall i :: 0 <= i < at ==> Before(depths, ids[i], id)
    requires forall j :: at <= j < |ids| ==> Before(depths, id, ids[j])
    ensures Ordered(depths, ids[..at] + [id] + ids[at..])
  {
    hide Before;
    var more := ids[..at] + [id] + ids[at..];
    forall i | 0 <= i < |more|
      ensures more[i] == if i < at then ids[i] else if i == at then id else ids[i - 1]
    {
    }
  }

  lemma OrderedIsDistinct(depths: map<string, nat>, ids: seq<string>)
    requires Ordered(depths, ids)
    ensures forall i, j :: 0 <= i < j < |ids| ==> ids[i] != ids[j]
  {
    hide Less;
    forall i, j | 0 <= i < j < |ids|
      ensures ids[i] != ids[j]
    {
      assert Before(depths, ids[i], ids[j]);
      LessTotal(ids[i], ids[j]);
    }
  }

  lemma OrderedIsDeepestFirst(root: string, parents: map<string, string>, depths: map<string, nat>, ids: seq<string>)
    requires DepthsTrue(parents, root, depths) && Ordered(depths, ids) && root !in parents
    requires forall id :: id in ids <==> id in parents
    requires |ids| == |parents|
    ensures DeepestFirst(root, parents, ids + [root])
  {
    hide Ordered, DepthsTrue;
    OrderedIsDistinct(depths, ids);
    assert root !in ids;
    forall i | 0 <= i < |ids|
      ensures ids[i] in parents && parents[ids[i]] in (ids + [root])[i + 1..]
    {
      ParentIsLater(root, parents, depths, ids, i);
      LaterWithRoot(root, ids, i, parents[ids[i]]);
    }
    RootLast(root, parents, ids);
  }

  lemma LaterWithRoot(root: string, ids: seq<string>, i: nat, parent: string)
    requires i < |ids| && (parent == root || parent in ids[i + 1..])
    ensures parent in (ids + [root])[i + 1..]
  {
    assert (ids + [root])[i + 1..] == ids[i + 1..] + [root];
  }

  lemma RootLast(root: string, parents: map<string, string>, ids: seq<string>)
    requires root !in ids && |ids| == |parents| && forall id :: id in ids <==> id in parents
    requires forall i, j :: 0 <= i < j < |ids| ==> ids[i] != ids[j]
    requires forall i :: 0 <= i < |ids| ==> ids[i] in parents && parents[ids[i]] in (ids + [root])[i + 1..]
    ensures DeepestFirst(root, parents, ids + [root])
  {
    var all := ids + [root];
    assert |all| == |ids| + 1 && all[|ids|] == root && all[..|ids|] == ids;
    forall i, j | 0 <= i < j < |all|
      ensures all[i] != all[j]
    {
      assert all[i] == ids[i] && ids[i] in ids;
      if j < |ids| { assert all[j] == ids[j]; }
    }
    forall i | 0 <= i < |all| - 1
      ensures all[i] in parents && parents[all[i]] in all[i + 1..]
    {
      assert all[i] == ids[i];
    }
    forall id
      ensures id in all <==> id in parents || id == root
    {
      assert id in all <==> id in ids || id == root;
    }
  }

  /** Deepest first, and by id among equals: what the sort leaves no choice about. */
  ghost predicate ByDepth(root: string, parents: map<string, string>, ids: seq<string>) {
    forall i, j, n: nat, m: nat :: 0 <= i < j < |ids| && Chain(parents, root, ids[i], n) && Chain(parents, root, ids[j], m) ==>
      n > m || (n == m && Less(ids[i], ids[j]))
  }

  lemma OrderedIsByDepth(root: string, parents: map<string, string>, depths: map<string, nat>, ids: seq<string>)
    requires DepthsTrue(parents, root, depths) && Ordered(depths, ids)
    ensures ByDepth(root, parents, ids)
  {
    hide Less, Chain;
    forall i, j, n: nat, m: nat | 0 <= i < j < |ids| && Chain(parents, root, ids[i], n) && Chain(parents, root, ids[j], m)
      ensures n > m || (n == m && Less(ids[i], ids[j]))
    {
      assert ids[i] in depths && ids[j] in depths && Before(depths, ids[i], ids[j]);
      ChainUnique(parents, root, ids[i], n, depths[ids[i]]);
      ChainUnique(parents, root, ids[j], m, depths[ids[j]]);
    }
  }

  lemma ParentIsLater(root: string, parents: map<string, string>, depths: map<string, nat>, ids: seq<string>, i: nat)
    requires DepthsTrue(parents, root, depths) && Ordered(depths, ids) && i < |ids|
    requires forall id :: id in ids <==> id in parents
    ensures ids[i] in parents && (parents[ids[i]] == root || parents[ids[i]] in ids[i + 1..])
  {
    hide Less;
    var id := ids[i];
    assert Chain(parents, root, id, depths[id]);
    var parent := parents[id];
    if parent != root {
      assert Chain(parents, root, parent, depths[id] - 1);
      assert parent in ids;
      var j :| 0 <= j < |ids| && ids[j] == parent;
      ChainUnique(parents, root, parent, depths[id] - 1, depths[parent]);
      assert ids[i + 1..][j - i - 1] == parent;
    }
  }

  // ---------------------------------------------------------------- the listing

  lemma {:induction false} ParentsKeys(es: seq<Listed>)
    requires forall i :: 0 <= i < |es| ==> es[i].parent.Some?
    ensures forall id :: id in Parents(es) <==> exists i :: 0 <= i < |es| && es[i].id == id
  {
    if es != [] {
      var front := es[..|es| - 1];
      ParentsKeys(front);
      forall id
        ensures id in Parents(es) <==> exists i :: 0 <= i < |es| && es[i].id == id
      {
        if id in Parents(front) {
          var i :| 0 <= i < |front| && front[i].id == id;
          assert es[i].id == id;
        }
        if i :| 0 <= i < |es| && es[i].id == id {
          if i < |es| - 1 { assert front[i].id == id; }
        }
      }
    }
  }

  lemma {:induction false} ParentsSize(root: string, es: seq<Listed>)
    requires EntriesValid(root, es)
    ensures |Parents(es)| == |es| && root !in Parents(es)
  {
    ParentsKeys(es);
    if es != [] {
      var front := es[..|es| - 1];
      ParentsSize(root, front);
      ParentsKeys(front);
      assert es[|es| - 1].id !in Parents(front);
    }
  }

  /** One more entry: valid unless it is no descendant, a duplicate, or one too many. */
  lemma OneMore(root: string, es: seq<Listed>, e: Listed)
    requires EntriesValid(root, es)
    ensures EntriesValid(root, es + [e]) <==>
      e.id != "" && e.id != root && e.parent.Some? && e.parent.value != "" && e.id !in Parents(es) && |Parents(es)| + 2 <= MAX_THREADS
    ensures EntriesValid(root, es + [e]) ==> Parents(es + [e]) == Parents(es)[e.id := e.parent.value]
  {
    ParentsKeys(es);
    ParentsSize(root, es);
    var more := es + [e];
    assert more[..|es|] == es && more[|es|] == e;
    if EntriesValid(root, more) {
      forall i | 0 <= i < |es|
        ensures es[i].id != e.id
      {
        assert more[i].id != more[|es|].id;
      }
    }
  }

  /** An invalid listing stays invalid, whatever follows. */
  lemma InvalidStays(root: string, es: seq<Listed>, more: seq<Listed>)
    requires !EntriesValid(root, es)
    ensures !EntriesValid(root, es + more)
  {
    var all := es + more;
    if EntriesValid(root, all) {
      assert forall i :: 0 <= i < |es| ==> all[i] == es[i];
      assert EntriesValid(root, es);
    }
  }

  lemma {:induction false} EntriesGrow(pages: seq<Option<Page>>, n: nat, m: nat)
    requires n <= m <= |pages| && forall i :: 0 <= i < m ==> pages[i].Some?
    ensures Entries(pages, n) <= Entries(pages, m)
    decreases m - n
  {
    if n < m { EntriesGrow(pages, n, m - 1); }
  }

  lemma PagesSoFar(pages: seq<Option<Page>>, k: nat)
    requires k <= |pages| && forall i :: 0 <= i < k ==> pages[i].Some? && pages[i].value.next.Some?
    ensures LastPage(pages, 0) == LastPage(pages, k)
  {
    if k > 0 { PagesSoFar(pages, k - 1); }
  }

  function Cursors(pages: seq<Option<Page>>, k: nat): set<string>
    requires k <= |pages| && forall i :: 0 <= i < k ==> pages[i].Some? && pages[i].value.next.Some?
  {
    set i | 0 <= i < k :: pages[i].value.next.value
  }

  /** Adding one page of entries to the parents found so far. */
  method AddPage(root: string, es: seq<Listed>, data: seq<Listed>, before: map<string, string>)
    returns (parents: map<string, string>, ok: bool)
    requires EntriesValid(root, es) && before == Parents(es)
    ensures ok <==> EntriesValid(root, es + data)
    ensures ok ==> parents == Parents(es + data)
  {
    hide EntriesValid, Parents;
    parents := before;
    var i := 0;
    assert es + data[..0] == es;
    while i < |data|
      invariant 0 <= i <= |data| && EntriesValid(root, es + data[..i]) && parents == ParentsIfValid(root, es + data[..i])
    {
      var thread := data[i];
      ghost var so := es + data[..i];
      OneMore(root, so, thread);
      assert so + [thread] == es + data[..i + 1];
      assert (es + data[..i + 1]) + data[i + 1..] == es + data;
      if thread.id == "" || thread.id == root || thread.parent.None? || thread.parent.value == "" || thread.id in parents {
        InvalidStays(root, so + [thread], data[i + 1..]);
        return parents, false;
      }
      NewKey(parents, thread.id, thread.parent.value);
      parents := parents[thread.id := thread.parent.value];
      if |parents| + 1 > MAX_THREADS {
        InvalidStays(root, so + [thread], data[i + 1..]);
        return parents, false;
      }
      i := i + 1;
    }
    assert es + data[..i] == es + data;
    ok := true;
  }

  lemma NewKey(m: map<string, string>, k: string, v: string)
    requires k !in m
    ensures |m[k := v]| == |m| + 1
  {
  }

  /** The parents of a valid listing. */
  ghost function ParentsIfValid(root: string, es: seq<Listed>): map<string, string> {
    if EntriesValid(root, es) then Parents(es) else map[]
  }

  /** The paging loop: the answers come in the order of pages, None for a failed call. */
  method ListDescendants(root: string, pages: seq<Option<Page>>) returns (parents: Option<map<string, string>>)
    ensures parents.Some? <==>
      var last := LastPage(pages, 0);
      last.Some? && CursorsFresh(pages, last.value) && EntriesValid(root, Entries(pages, last.value + 1))
    ensures parents.Some? ==> parents.value == Parents(Entries(pages, LastPage(pages, 0).value + 1))
  {
    hide EntriesValid, Parents;
    var found: map<string, string> := map[];
    var seenCursors: set<string> := {};
    var k := 0;
    NothingListed(root);
    while k < |pages|
      invariant 0 <= k <= |pages| && forall i :: 0 <= i < k ==> pages[i].Some? && pages[i].value.next.Some?
      invariant CursorsFresh(pages, k) && seenCursors == Cursors(pages, k)
      invariant EntriesValid(root, Entries(pages, k)) && found == ParentsIfValid(root, Entries(pages, k))
    {
      PagesSoFar(pages, k);
      if pages[k].None? { return None; }
      var page := pages[k].value;
      var ok;
      found, ok := AddPage(root, Entries(pages, k), page.data, found);
      if !ok {
        BadPageEntries(root, pages, k);
        return None;
      }
      if page.next.None? { return Some(found); }
      if page.next.value == "" || page.next.value in seenCursors {
        NotFresh(pages, k);
        return None;
      }
      seenCursors := seenCursors + {page.next.value};
      StillFresh(pages, k);
      k := k + 1;
    }
    PagesSoFar(pages, k);
    return None;
  }

  lemma NothingListed(root: string)
    ensures EntriesValid(root, []) && Parents([]) == map[]
  {
  }

  lemma BadPageEntries(root: string, pages: seq<Option<Page>>, k: nat)
    requires k < |pages| && forall i :: 0 <= i <= k ==> pages[i].Some?
    requires forall i :: 0 <= i < k ==> pages[i].value.next.Some?
    requires !EntriesValid(root, Entries(pages, k + 1))
    ensures var last := LastPage(pages, 0); last.Some? ==> !EntriesValid(root, Entries(pages, last.value + 1))
  {
    hide EntriesValid;
    var last := LastPage(pages, 0);
    if last.Some? {
      PagesSoFar(pages, k);
      EntriesGrow(pages, k + 1, last.value + 1);
      var es, all := Entries(pages, k + 1), Entries(pages, last.value + 1);
      assert all == es + all[|es|..];
      InvalidStays(root, es, all[|es|..]);
    }
  }

  lemma NotFresh(pages: seq<Option<Page>>, k: nat)
    requires k < |pages| && forall i :: 0 <= i <= k ==> pages[i].Some? && pages[i].value.next.Some?
    requires pages[k].value.next.value == "" || pages[k].value.next.value in Cursors(pages, k)
    ensures var last := LastPage(pages, 0); last.Some? ==> !CursorsFresh(pages, last.value)
  {
    PagesSoFar(pages, k + 1);
  }

  lemma StillFresh(pages: seq<Option<Page>>, k: nat)
    requires k < |pages| && forall i :: 0 <= i <= k ==> pages[i].Some? && pages[i].value.next.Some?
    requires CursorsFresh(pages, k) && pages[k].value.next.value != "" && pages[k].value.next.value !in Cursors(pages, k)
    ensures CursorsFresh(pages, k + 1) && Cursors(pages, k + 1) == Cursors(pages, k) + {pages[k].value.next.value}
  {
    forall i | 0 <= i < k
      ensures pages[i].value.next != pages[k].value.next
    {
      assert pages[i].value.next.value in Cursors(pages, k);
    }
  }

  // ---------------------------------------------------------------- the whole enumeration

  predicate Quiescent(status: Option<string>) { status == Some("idle") || status == Some("systemError") }

  /** The depths of all threads: they exist exactly if every thread reaches the root. */
  method FindDepths(root: string, parents: map<string, string>) returns (depths: Option<map<string, nat>>)
    ensures depths.Some? <==> AllReach(parents, root)
    ensures depths.Some? ==> DepthsTrue(parents, root, depths.value) && parents.Keys <= depths.value.Keys
  {
    hide Reaches;
    var walk := new DepthWalk(parents, root);
    var todo := parents.Keys;
    while todo != {}
      invariant walk.visiting == {} && walk.parents == parents && walk.root == root && todo <= parents.Keys
      invariant DepthsTrue(parents, root, walk.depths) && parents.Keys - todo <= walk.depths.Keys
      invariant forall id :: id in parents && id !in todo ==> Reaches(parents, root, id)
      decreases todo
    {
      var id :| id in todo;
      var depth := walk.Depth(id);
      if depth.None? { return None; }
      todo := todo - {id};
    }
    return Some(walk.depths);
  }

  /** inspectRecoverableSubtree: status is what reading the root answers. */
  method InspectRecoverableSubtree(root: string, status: Option<string>, pages: seq<Option<Page>>)
    returns (ids: Option<seq<string>>)
    ensures ids.Some? <==> Quiescent(status) && Complete(root, pages)
    ensures ids.Some? ==>
      var parents := Parents(Entries(pages, LastPage(pages, 0).value + 1));
      DeepestFirst(root, parents, ids.value) && ByDepth(root, parents, ids.value[..|ids.value| - 1])
  {
    hide ByDepth, EntriesValid, Parents, DeepestFirst, AllReach, Less, Entries, LastPage, CursorsFresh, Ordered, DepthsTrue;
    if !Quiescent(status) { return None; }
    var listed := ListDescendants(root, pages);
    if listed.None? { return None; }
    var parents := listed.value;
    var depths := FindDepths(root, parents);
    if depths.None? { return None; }
    var sorted := SortDeepest(depths.value, parents.Keys);
    ParentsSize(root, Entries(pages, LastPage(pages, 0).value + 1));
    OrderedIsDeepestFirst(root, parents, depths.value, sorted);
    OrderedIsByDepth(root, parents, depths.value, sorted);
    assert (sorted + [root])[..|sorted|] == sorted;
    return Some(sorted + [root]);
  }

  method SortDeepest(depths: map<string, nat>, ids: set<string>) returns (sorted: seq<string>)
    requires ids <= depths.Keys
    ensures Ordered(depths, sorted) && |sorted| == |ids| && forall id :: id in sorted <==> id in ids
  {
    var todo := ids;
    sorted := [];
    while todo != {}
      invariant todo <= ids && Ordered(depths, sorted) && |sorted| + |todo| == |ids|
      invariant forall id :: id in sorted <==> id in ids && id !in todo
      decreases todo
    {
      var id :| id in todo;
      todo := todo - {id};
      sorted := Insert(depths, sorted, id);
    }
  }

  /** What the journal and the peers require of the ids. */
  lemma ListIsJournalReady(root: string, pages: seq<Option<Page>>, ids: seq<string>)
    requires Complete(root, pages)
    requires DeepestFirst(root, Parents(Entries(pages, LastPage(pages, 0).value + 1)), ids)
    ensures 0 < |ids| <= MAX_THREADS && ids[|ids| - 1] == root
    ensures forall i, j :: 0 <= i < j < |ids| ==> ids[i] != ids[j]
    ensures root != "" ==> "" !in ids
  {
    var es := Entries(pages, LastPage(pages, 0).value + 1);
    ParentsSize(root, es);
    ParentsKeys(es);
  }
}
