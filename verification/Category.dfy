/** The category forest: moves that keep it acyclic, and the walk from a category to its root. */
module Category {
  import opened Options
  import opened Sums

  /** Every category with its parent; a parent is a category too, by foreign key. */
  type Parents = map<string, Option<string>>

  type Ranks = map<string, nat>

  /** A rank that falls toward the root: the parent relation has no cycle. */
  ghost predicate Ranked(parents: Parents, rank: Ranks)
  {
    parents.Keys == rank.Keys &&
    forall c | c in parents && parents[c].Some? :: parents[c].value in parents && rank[parents[c].value] < rank[c]
  }

  ghost predicate Acyclic(parents: Parents)
  {
    exists rank :: Ranked(parents, rank)
  }

  /** a is c or one of c's ancestors. */
  ghost predicate Above(parents: Parents, rank: Ranks, a: string, c: string)
    requires Ranked(parents, rank) && c in parents
    decreases rank[c]
  {
    a == c || (parents[c].Some? && Above(parents, rank, a, parents[c].value))
  }

  /** New ranks after id moves under parent: id's subtree is lifted above the parent's rank. */
  ghost function Lifted(parents: Parents, rank: Ranks, id: string, parent: string): Ranks
    requires Ranked(parents, rank) && parent in parents
  {
    map c | c in parents :: if Above(parents, rank, id, c) then rank[c] + rank[parent] + 1 else rank[c]
  }

  lemma {:induction false} MoveKeepsRank(parents: Parents, rank: Ranks, id: string, parent: string)
    requires Ranked(parents, rank) && id in parents && parent in parents && !Above(parents, rank, id, parent)
    ensures Ranked(parents[id := Some(parent)], Lifted(parents, rank, id, parent))
  {
  }

  datatype Outcome = Moved | SelfParent | Circular | NoSuchCategory

  class CategoryTree {
    var parents: Parents
    var deleted: set<string>
    ghost var rank: Ranks

    ghost predicate Valid()
      reads this
    {
      Ranked(parents, rank) && deleted <= parents.Keys
    }

    constructor ()
      ensures Valid() && parents == map[] && deleted == {}
    {
      parents, deleted, rank := map[], {}, map[];
    }

    method Create(id: string, parent: Option<string>) returns (created: bool)
      requires Valid() && id !in parents
      modifies this
      ensures Valid() && deleted == old(deleted)
      ensures created <==> parent.None? || parent.value in old(parents)
      ensures parents == if created then old(parents)[id := parent] else old(parents)
    {
      created := parent.None? || parent.value in parents;
      if created {
        parents := parents[id := parent];
        rank := rank[id := if parent.None? then 0 else rank[parent.value] + 1];
      }
    }

    /** Refuses exactly the moves that would close a cycle; None leaves the parent alone. The
        walk over the ancestors has no bound of its own: it ends because ranks fall. */
    method Update(id: string, newParent: Option<Option<string>>) returns (outcome: Outcome)
      requires Valid()
      modifies this
      ensures Valid() && deleted == old(deleted)
      ensures parents == if outcome.Moved? && newParent.Some? then old(parents)[id := newParent.value] else old(parents)
      ensures outcome.Moved? ==> id in old(parents)
      ensures id in old(parents) && newParent.Some? && newParent.value.Some?
                && newParent.value.value in old(parents) ==>
                (outcome.Moved? <==> Acyclic(old(parents)[id := newParent.value]))
    {
      if newParent.Some? && newParent.value.Some? {
        var parent := newParent.value.value;
        if parent == id {
          SelfParentCycles(parents, id);
          return SelfParent;
        }
        var current := Some(parent);
        while current.Some?
          invariant parents == old(parents) && rank == old(rank) && Valid() && deleted == old(deleted)
          invariant parent in parents ==>
                      if current.None? then !Above(parents, rank, id, parent)
                      else current.value in parents
                           && (Above(parents, rank, id, parent) <==> Above(parents, rank, id, current.value))
          invariant parent !in parents ==> current == None || current == Some(parent)
          decreases if current.Some? then (if current.value in rank then rank[current.value] + 1 else 1) else 0
        {
          if current.value == id {
            if id in parents { MoveBelowCycles(parents, rank, id, parent); }
            return Circular;
          }
          current := if current.value in parents then parents[current.value] else None;
        }
        if id !in parents || parent !in parents { return NoSuchCategory; }
        MoveKeepsRank(parents, rank, id, parent);
        rank := Lifted(parents, rank, id, parent);
        parents := parents[id := Some(parent)];
        return Moved;
      }
      if id !in parents { return NoSuchCategory; }
      if newParent.Some? { parents := parents[id := None]; }
      return Moved;
    }

    method Remove(id: string)
      requires Valid() && id in parents
      modifies this
      ensures Valid() && parents == old(parents) && deleted == old(deleted) + {id}
    {
      deleted := deleted + {id};
    }
  }

  lemma {:induction false} SelfParentCycles(parents: Parents, id: string)
    ensures !Acyclic(parents[id := Some(id)])
  {
    var moved := parents[id := Some(id)];
    assert moved[id] == Some(id);
    forall rank ensures !Ranked(moved, rank) {
    }
  }

  /** After the move the parent's chain up to id outranks itself. */
  lemma {:induction false} MoveBelowCycles(parents: Parents, rank: Ranks, id: string, parent: string)
    requires Ranked(parents, rank) && id in parents && parent in parents && Above(parents, rank, id, parent)
    ensures !Acyclic(parents[id := Some(parent)])
  {
    var moved := parents[id := Some(parent)];
    forall other | Ranked(moved, other) ensures false {
      ChainOutranks(parents, rank, id, parent, moved, other);
    }
  }

  lemma {:induction false} ChainOutranks(parents: Parents, rank: Ranks, id: string, c: string, moved: Parents,
                                         other: Ranks)
    requires Ranked(parents, rank) && c in parents && Above(parents, rank, id, c)
    requires Ranked(moved, other) && moved.Keys == parents.Keys
             && forall x | x in parents && x != id :: moved[x] == parents[x]
    ensures id in other && other[id] <= other[c]
    decreases rank[c]
  {
    if c != id { ChainOutranks(parents, rank, id, parents[c].value, moved, other); }
  }

  /** Away from a's subtree the ancestors are what they were before a moved. */
  lemma {:induction false} SameChain(parents: Parents, rank: Ranks, moved: Parents, other: Ranks, a: string,
                                     x: string, c: string)
    requires Ranked(parents, rank) && Ranked(moved, other) && a in parents && c in parents
    requires a in moved && moved == parents[a := moved[a]] && !Above(parents, rank, a, c)
    ensures Above(moved, other, x, c) <==> Above(parents, rank, x, c)
    decreases rank[c]
  {
    if parents[c].Some? { SameChain(parents, rank, moved, other, a, x, parents[c].value); }
  }

  /** Once a is under p, what comes newly above c is what is above p, for c in a's subtree. */
  lemma {:induction false} NewlyAbove(parents: Parents, rank: Ranks, other: Ranks, a: string, p: string, b: string,
                                      c: string)
    requires Ranked(parents, rank) && a in parents && p in parents && c in parents && !Above(parents, rank, a, p)
    requires Ranked(parents[a := Some(p)], other) && !Above(parents, rank, b, c) && a != b
    ensures Above(parents[a := Some(p)], other, b, c) <==> Above(parents, rank, a, c) && Above(parents, rank, b, p)
    decreases rank[c]
  {
    if c == a {
      SameChain(parents, rank, parents[a := Some(p)], other, a, b, p);
    } else if parents[c].Some? {
      NewlyAbove(parents, rank, other, a, p, b, parents[c].value);
    }
  }

  /** Two moves that are both checked before either is written: each alone is fine, and
      together they close a cycle exactly when each category is moved into the other's subtree. */
  lemma {:induction false} RacingMoves(parents: Parents, rank: Ranks, a: string, p: string, b: string, q: string)
    requires Ranked(parents, rank) && a in parents && b in parents && p in parents && q in parents && a != b
    requires !Above(parents, rank, a, p) && !Above(parents, rank, b, q)
    ensures Acyclic(parents[a := Some(p)]) && Acyclic(parents[b := Some(q)])
    ensures Acyclic(parents[a := Some(p)][b := Some(q)])
            <==> !(Above(parents, rank, b, p) && Above(parents, rank, a, q))
  {
    MoveKeepsRank(parents, rank, a, p);
    MoveKeepsRank(parents, rank, b, q);
    var first, other := parents[a := Some(p)], Lifted(parents, rank, a, p);
    NewlyAbove(parents, rank, other, a, p, b, q);
    if Above(first, other, b, q) {
      MoveBelowCycles(first, other, b, q);
    } else {
      MoveKeepsRank(first, other, b, q);
    }
  }

  /** The smallest case: each under the other. */
  lemma {:induction false} RacingMovesCycle(parents: Parents, rank: Ranks, a: string, b: string)
    requires Ranked(parents, rank) && a in parents && b in parents && a != b
    requires !Above(parents, rank, a, b) && !Above(parents, rank, b, a)
    ensures !Acyclic(parents[a := Some(b)][b := Some(a)])
  {
    RacingMoves(parents, rank, a, b, b, a);
  }

  // ---- the root walk --------------------------------------------------------

  datatype Counted = Counted(id: string, products: nat)

  const MAX_DEPTH := 15

  /** The last category met within some steps of walking up. */
  function WalkUp(parentMap: Parents, id: string, steps: nat): string
    decreases steps
  {
    if steps <= 1 || id !in parentMap || parentMap[id].None? then id
    else WalkUp(parentMap, parentMap[id].value, steps - 1)
  }

  function RootIn(parentMap: Parents): Counted -> string
  {
    (c: Counted) => WalkUp(parentMap, c.id, MAX_DEPTH)
  }

  function Products(): Counted -> int { (c: Counted) => c.products }

  /** The walk of one category, as the loop does it. */
  method FindRoot(parentMap: Parents, id: string) returns (rootId: string)
    ensures rootId == WalkUp(parentMap, id, MAX_DEPTH)
  {
    var cursor := Some(id);
    rootId := id;
    var depth := 0;
    while depth < 15 && cursor.Some?
      invariant depth <= 15
      invariant cursor.Some? && depth < 15 ==>
                  WalkUp(parentMap, cursor.value, 15 - depth) == WalkUp(parentMap, id, MAX_DEPTH)
      invariant cursor.None? || depth == 15 ==> rootId == WalkUp(parentMap, id, MAX_DEPTH)
      decreases 15 - depth
    {
      rootId := cursor.value;
      cursor := if cursor.value in parentMap then parentMap[cursor.value] else None;
      depth := depth + 1;
    }
  }

  ghost function Roots(cats: seq<Counted>, root: Counted -> string): set<string>
  {
    set c | c in cats :: root(c)
  }

  /** The map holds each root's group sum. */
  ghost predicate Tallied(cats: seq<Counted>, root: Counted -> string, rootCounts: map<string, int>)
  {
    && rootCounts.Keys == Roots(cats, root)
    && (forall r | r in rootCounts :: rootCounts[r] == GroupSum(cats, root, r, Products()))
  }

  lemma {:induction false} GroupOne(cats: seq<Counted>, last: Counted, root: Counted -> string, r: string)
    ensures GroupSum(cats + [last], root, r, Products())
            == GroupSum(cats, root, r, Products()) + if r == root(last) then last.products else 0
    ensures r !in Roots(cats, root) ==> GroupSum(cats, root, r, Products()) == 0
  {
    SumSnoc(cats, last, Only(root, r, Products()));
    if r !in Roots(cats, root) {
      SumZero(cats, Only(root, r, Products()));
    }
  }

  lemma {:induction false} TallyOne(cats: seq<Counted>, last: Counted, root: Counted -> string,
                                    rootCounts: map<string, int>)
    requires Tallied(cats, root, rootCounts)
    ensures Tallied(cats + [last], root, rootCounts[root(last) := LookUp(rootCounts)(root(last)) + last.products])
  {
    assert Roots(cats + [last], root) == Roots(cats, root) + {root(last)};
    forall r | r in rootCounts || r == root(last)
      ensures GroupSum(cats + [last], root, r, Products())
              == LookUp(rootCounts)(r) + if r == root(last) then last.products else 0
    {
      GroupOne(cats, last, root, r);
    }
  }

  lemma {:induction false} TalliedAddsUp(cats: seq<Counted>, root: Counted -> string, rootCounts: map<string, int>)
    requires Tallied(cats, root, rootCounts)
    ensures forall r :: r in rootCounts <==> r in KeysOf(cats, root)
    ensures Sum(KeysOf(cats, root), LookUp(rootCounts)) == Sum(cats, Products())
  {
    var keys := KeysOf(cats, root);
    forall r ensures r in rootCounts <==> r in keys {
      assert r in rootCounts <==> r in Roots(cats, root);
    }
    SumEqual(keys, LookUp(rootCounts), PerGroup(cats, root, Products()));
    GroupsAddUp(cats, keys, root, Products());
  }

  /** Product counts per root: each root holds exactly the products of the categories that walk
      up to it, so no product is lost or counted twice. */
  method CountByRoot(cats: seq<Counted>, parentMap: Parents) returns (rootCounts: map<string, int>)
    ensures forall r :: r in rootCounts <==> r in KeysOf(cats, RootIn(parentMap))
    ensures forall r | r in rootCounts :: rootCounts[r] == GroupSum(cats, RootIn(parentMap), r, Products())
    ensures Sum(KeysOf(cats, RootIn(parentMap)), LookUp(rootCounts)) == Sum(cats, Products())
  {
    rootCounts := map[];
    for i := 0 to |cats|
      invariant Tallied(cats[..i], RootIn(parentMap), rootCounts)
    {
      var rootId := FindRoot(parentMap, cats[i].id);
      assert cats[..i + 1] == cats[..i] + [cats[i]];
      TallyOne(cats[..i], cats[i], RootIn(parentMap), rootCounts);
      rootCounts := rootCounts[rootId := (if rootId in rootCounts then rootCounts[rootId] else 0) + cats[i].products];
    }
    assert cats[..|cats|] == cats;
    TalliedAddsUp(cats, RootIn(parentMap), rootCounts);
  }

  function LookUp(counts: map<string, int>): string -> int
  {
    (r: string) => if r in counts then counts[r] else 0
  }

  ghost function Root(parents: Parents, rank: Ranks, id: string): (r: string)
    requires Ranked(parents, rank) && id in parents
    ensures r in parents && parents[r].None?
    decreases rank[id]
  {
    if parents[id].None? then id else Root(parents, rank, parents[id].value)
  }

  /** How many categories there are from this one up to its root. */
  ghost function Depth(parents: Parents, rank: Ranks, id: string): (d: nat)
    requires Ranked(parents, rank) && id in parents
    ensures d > 0
    decreases rank[id]
  {
    if parents[id].None? then 1 else 1 + Depth(parents, rank, parents[id].value)
  }

  /** The walk's map: the query reads only categories that are not deleted. */
  function LiveParents(parents: Parents, deleted: set<string>): Parents
  {
    map c | c in parents && c !in deleted :: parents[c]
  }

  /** Every category from this one on that the walk can meet in so many steps is live. */
  ghost predicate LiveWithin(parents: Parents, rank: Ranks, deleted: set<string>, id: string, steps: nat)
    requires Ranked(parents, rank) && id in parents
    decreases rank[id]
  {
    id !in deleted
    && (steps <= 1 || parents[id].None? || LiveWithin(parents, rank, deleted, parents[id].value, steps - 1))
  }

  /** Every category from this one up to its root, the root aside, is live. */
  ghost predicate LiveBelowRoot(parents: Parents, rank: Ranks, deleted: set<string>, id: string)
    requires Ranked(parents, rank) && id in parents
    decreases rank[id]
  {
    parents[id].None? || (id !in deleted && LiveBelowRoot(parents, rank, deleted, parents[id].value))
  }

  /** Deleted ancestors are missing from the walk's map, and the walk stops at the first of them.
      It finds the root exactly when the root is near enough and nothing deleted lies below it;
      and it stops at a live category exactly when it meets no deleted one. */
  lemma {:induction false} WalkFindsRoot(parents: Parents, rank: Ranks, deleted: set<string>, id: string, steps: nat)
    requires Ranked(parents, rank) && id in parents && steps > 0
    ensures var end := WalkUp(LiveParents(parents, deleted), id, steps);
            && end in parents
            && (end == Root(parents, rank, id) <==>
                  Depth(parents, rank, id) <= steps && LiveBelowRoot(parents, rank, deleted, id))
            && (end !in deleted <==> LiveWithin(parents, rank, deleted, id, steps))
    decreases rank[id]
  {
    if parents[id].Some? {
      if steps > 1 {
        WalkFindsRoot(parents, rank, deleted, parents[id].value, steps - 1);
      }
    }
  }

  // ---- the shop filter --------------------------------------------------------

  /** The products of a category, if the category its walk stops at is shown. */
  function IfShown(root: Counted -> string, shown: set<string>): Counted -> int
  {
    (c: Counted) => if root(c) in shown then c.products else 0
  }

  lemma {:induction false} ShownGroups(cats: seq<Counted>, root: Counted -> string, shown: set<string>, k: string)
    ensures GroupSum(cats, root, k, IfShown(root, shown))
            == if k in shown then GroupSum(cats, root, k, Products()) else 0
  {
    if k in shown {
      SumEqual(cats, Only(root, k, IfShown(root, shown)), Only(root, k, Products()));
    } else {
      SumZero(cats, Only(root, k, IfShown(root, shown)));
    }
  }

  lemma {:induction false} ShownAddUp(cats: seq<Counted>, root: Counted -> string, shown: set<string>,
                                      counts: map<string, int>)
    requires counts.Keys == set r | r in KeysOf(cats, root) && r in shown
    requires forall r | r in counts :: counts[r] == GroupSum(cats, root, r, Products())
    ensures Sum(KeysOf(cats, root), LookUp(counts)) == Sum(cats, IfShown(root, shown))
  {
    var keys := KeysOf(cats, root);
    forall k | k in keys ensures LookUp(counts)(k) == PerGroup(cats, root, IfShown(root, shown))(k) {
      ShownGroups(cats, root, shown, k);
    }
    SumEqual(keys, LookUp(counts), PerGroup(cats, root, IfShown(root, shown)));
    GroupsAddUp(cats, keys, root, IfShown(root, shown));
  }

  lemma {:induction false} AllShown(cats: seq<Counted>, root: Counted -> string, shown: set<string>)
    requires forall c | c in cats :: c.products > 0
    ensures Sum(cats, IfShown(root, shown)) <= Sum(cats, Products())
    ensures Sum(cats, IfShown(root, shown)) == Sum(cats, Products()) <==> forall c | c in cats :: root(c) in shown
  {
    if cats != [] {
      AllShown(cats[..|cats| - 1], root, shown);
      assert cats == cats[..|cats| - 1] + [cats[|cats| - 1]];
      assert cats[|cats| - 1] in cats;
    }
  }

  /** The filter's entries: categories with products, walked up and counted, and of the categories
      the walks stop at those that are live and active. They hold every product exactly when no
      walk meets a deleted category and each stops at an active one. */
  method FindShopFilterCategories(cats: seq<Counted>, parents: Parents, deleted: set<string>, active: set<string>,
                                  ghost rank: Ranks)
    returns (counts: map<string, int>)
    requires Ranked(parents, rank)
    requires forall c | c in cats :: c.id in parents && c.products > 0
    ensures var root := RootIn(LiveParents(parents, deleted));
            && (forall r :: r in counts <==> r in KeysOf(cats, root) && r in active && r !in deleted)
            && (forall r | r in counts :: counts[r] == GroupSum(cats, root, r, Products()))
            && Sum(KeysOf(cats, root), LookUp(counts)) <= Sum(cats, Products())
            && (Sum(KeysOf(cats, root), LookUp(counts)) == Sum(cats, Products()) <==>
                  forall c | c in cats :: LiveWithin(parents, rank, deleted, c.id, MAX_DEPTH) && root(c) in active)
  {
    var parentMap := LiveParents(parents, deleted);
    ghost var root := RootIn(parentMap);
    var rootCounts := CountByRoot(cats, parentMap);
    counts := map r | r in rootCounts && r in active && r !in deleted :: rootCounts[r];
    ghost var shown := active - deleted;
    assert counts.Keys == set r | r in KeysOf(cats, root) && r in shown;
    ShownAddUp(cats, root, shown, counts);
    AllShown(cats, root, shown);
    forall c | c in cats
      ensures root(c) in shown <==> LiveWithin(parents, rank, deleted, c.id, MAX_DEPTH) && root(c) in active
    {
      WalkFindsRoot(parents, rank, deleted, c.id, MAX_DEPTH);
    }
  }
}
