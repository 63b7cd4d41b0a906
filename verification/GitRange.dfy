/**
 * Commit graphs and the range check. A commit is named by its position in order of creation, so
 * parents come first. A tree maps paths to contents.
 */
module GitRange {
  import opened Paths

  type Tree = map<Path, string>

  datatype Commit = Commit(parents: seq<nat>, tree: Tree, subject: string)

  ghost predicate Acyclic(dag: seq<Commit>) {
    forall c, i | 0 <= c < |dag| && 0 <= i < |dag[c].parents| :: dag[c].parents[i] < c
  }

  type Graph = dag: seq<Commit> | Acyclic(dag) ghost witness []

  /** A commit and everything it descends from. */
  function Ancestors(dag: Graph, c: nat): set<nat>
    requires c < |dag|
    ensures c in Ancestors(dag, c) && forall a | a in Ancestors(dag, c) :: a <= c
    decreases c
  {
    {c} + AncestorsOf(dag, c, dag[c].parents)
  }

  function AncestorsOf(dag: Graph, c: nat, parents: seq<nat>): (s: set<nat>)
    requires c < |dag| && forall i | 0 <= i < |parents| :: parents[i] < c
    ensures forall a | a in s :: a < c
    ensures forall p | p in parents :: p in s
    decreases c, |parents|
  {
    if parents == [] then {} else Ancestors(dag, parents[0]) + AncestorsOf(dag, c, parents[1..])
  }

  /** The commits of head's history that are not in base's. */
  function Range(dag: Graph, base: nat, head: nat): set<nat>
    requires base < |dag| && head < |dag|
  {
    Ancestors(dag, head) - Ancestors(dag, base)
  }

  function Entry(tree: Tree, p: Path): seq<string> {
    if p in tree then [tree[p]] else []
  }

  /** The paths on which two trees differ. */
  function Changed(a: Tree, b: Tree): set<Path> {
    set p | p in a.Keys + b.Keys && Entry(a, p) != Entry(b, p)
  }

  predicate CommitAllowed(dag: Graph, g: Grants, c: nat)
    requires c < |dag|
  {
    && |dag[c].parents| == 1
    && forall p | p in Changed(dag[dag[c].parents[0]].tree, dag[c].tree) :: Authorized(g, p)
  }

  /** How large Git finds a tree's files, the difference of two trees, and the bundle of a branch. */
  datatype Measures = Measures(weigh: Tree -> nat, diff: (Tree, Tree) -> nat, pack: (seq<Commit>, nat) -> nat)

  datatype Limits = Limits(files: nat, fileBytes: nat, repositoryBytes: nat, diffBytes: nat, bundleBytes: nat)

  /** Files within the limits, under relative names. A file's content is its bytes. */
  predicate ContentFits(git: Measures, l: Limits, tree: Tree) {
    && |tree| <= l.files && git.weigh(tree) <= l.repositoryBytes
    && forall p | p in tree :: RelativePath(p) && |tree[p]| <= l.fileBytes
  }

  /** A file that configures Git. */
  predicate GitFile(p: Path) {
    var segments := Segments(p);
    segments[|segments| - 1] in {".gitmodules", ".gitattributes"}
  }

  predicate SameName(p: Path, q: Path) {
    Lower(p) == Lower(q)
  }

  /** What a committed tree may hold: no two names that differ in case only, and nothing for Git itself. */
  predicate TreeFits(git: Measures, l: Limits, tree: Tree) {
    && ContentFits(git, l, tree) && (forall p | p in tree :: !GitFile(p))
    && forall p, q | p in tree && q in tree :: SameName(p, q) ==> p == q
  }

  /** Base is an ancestor, the range is short, and each commit in it is single-parent and in scope. */
  predicate RangeInScope(dag: Graph, g: Grants, bound: nat, base: nat, head: nat) {
    && base < |dag| && head < |dag|
    && base in Ancestors(dag, head)
    && |Range(dag, base, head)| <= bound
    && forall c | c in Range(dag, base, head) :: CommitAllowed(dag, g, c)
  }

  /** Every tree of the range fits, and so does the difference it makes. */
  predicate RangeFits(dag: Graph, git: Measures, l: Limits, base: nat, head: nat) {
    && base < |dag| && head < |dag|
    && (forall c | c in Range(dag, base, head) :: c < |dag| && TreeFits(git, l, dag[c].tree))
    && git.diff(dag[base].tree, dag[head].tree) <= l.diffBytes
  }

  predicate RangeAllowed(dag: Graph, git: Measures, l: Limits, g: Grants, bound: nat, base: nat, head: nat) {
    RangeInScope(dag, g, bound, base, head) && RangeFits(dag, git, l, base, head)
  }

  /** A walk from base to head, one only parent at a time. */
  ghost predicate Chain(dag: Graph, base: nat, head: nat, chain: seq<nat>) {
    && chain != [] && chain[0] == base && chain[|chain| - 1] == head
    && (forall i | 0 <= i < |chain| :: chain[i] < |dag|)
    && (forall i | 0 < i < |chain| :: dag[chain[i]].parents == [chain[i - 1]])
  }

  lemma {:induction false} AncestorsTransitive(dag: Graph, c: nat, a: nat)
    requires c < |dag| && a in Ancestors(dag, c)
    ensures a < |dag| && Ancestors(dag, a) <= Ancestors(dag, c)
    decreases c, |dag[c].parents| + 1
  {
    if a != c {
      AncestorsOfTransitive(dag, c, dag[c].parents, a);
    }
  }

  lemma {:induction false} AncestorsOfTransitive(dag: Graph, c: nat, parents: seq<nat>, a: nat)
    requires c < |dag| && (forall i | 0 <= i < |parents| :: parents[i] < c) && a in AncestorsOf(dag, c, parents)
    ensures a < |dag| && Ancestors(dag, a) <= AncestorsOf(dag, c, parents)
    decreases c, |parents|
  {
    if a in Ancestors(dag, parents[0]) {
      AncestorsTransitive(dag, parents[0], a);
    } else {
      AncestorsOfTransitive(dag, c, parents[1..], a);
    }
  }

  lemma OnlyParent(dag: Graph, c: nat, p: nat)
    requires c < |dag| && dag[c].parents == [p]
    ensures p < c && Ancestors(dag, c) == {c} + Ancestors(dag, p)
  {
    assert dag[c].parents[0] == p;
    assert AncestorsOf(dag, c, [p]) == Ancestors(dag, p) + AncestorsOf(dag, c, [p][1..]);
  }

  /** Taking the head off a range leaves the range of its only parent. */
  lemma RangeStep(dag: Graph, base: nat, head: nat)
    requires base < |dag| && head < |dag| && base != head && base in Ancestors(dag, head)
    requires head in Range(dag, base, head) ==> |dag[head].parents| == 1
    ensures head in Range(dag, base, head)
    ensures var p := dag[head].parents[0];
            p < head && base in Ancestors(dag, p) && Range(dag, base, p) == Range(dag, base, head) - {head}
  {
    var p := dag[head].parents[0];
    assert dag[head].parents == [p];
    OnlyParent(dag, head, p);
  }

  /**
   * A range in scope is a single-parent chain within the bound, made of exactly the commits of
   * the range, and every path on which head differs from base is authorized.
   */
  lemma {:induction false} ScopeIsChain(dag: Graph, g: Grants, bound: nat, base: nat, head: nat)
    returns (chain: seq<nat>)
    requires RangeInScope(dag, g, bound, base, head)
    ensures Chain(dag, base, head, chain) && |chain| - 1 == |Range(dag, base, head)| <= bound
    ensures forall c :: c in Range(dag, base, head) <==> c in chain[1..]
    ensures forall p | p in Changed(dag[base].tree, dag[head].tree) :: Authorized(g, p)
    decreases head
  {
    hide Authorized, AncestorsOf;
    if base == head {
      chain := [base];
    } else {
      HeadInRange(dag, base, head);
      assert CommitAllowed(dag, g, head);
      RangeStep(dag, base, head);
      var parent := dag[head].parents[0];
      var range := Range(dag, base, head);
      assert |range - {head}| == |range| - 1;
      var before := ScopeIsChain(dag, g, bound - 1, base, parent);
      chain := before + [head];
      ChainExtends(dag, base, parent, head, before);
      ChangesCompose(dag[base].tree, dag[parent].tree, dag[head].tree, g);
      hide Ancestors, AncestorsOf, Authorized, Chain, Changed;
    }
  }

  lemma ChainExtends(dag: Graph, base: nat, parent: nat, head: nat, before: seq<nat>)
    requires Chain(dag, base, parent, before) && head < |dag| && dag[head].parents == [parent]
    ensures Chain(dag, base, head, before + [head])
    ensures (before + [head])[1..] == before[1..] + [head]
  {
  }

  lemma ChangesCompose(a: Tree, b: Tree, c: Tree, g: Grants)
    requires forall p | p in Changed(a, b) :: Authorized(g, p)
    requires forall p | p in Changed(b, c) :: Authorized(g, p)
    ensures forall p | p in Changed(a, c) :: Authorized(g, p)
  {
    hide Authorized;
    forall p | p in Changed(a, c) ensures Authorized(g, p) {
      assert p in Changed(a, b) || p in Changed(b, c);
    }
  }

  lemma HeadInRange(dag: Graph, base: nat, head: nat)
    requires base < |dag| && head < |dag| && base != head && base in Ancestors(dag, head)
    ensures head in Range(dag, base, head)
  {
  }

  /**
   * An accepted range is a single-parent chain within the bound, made of exactly the commits of
   * the range; every tree in it fits, the difference from base to head is within its limit, and
   * every path on which they differ is authorized.
   */
  lemma RangeIsAuthorizedChain(dag: Graph, git: Measures, l: Limits, g: Grants, bound: nat, base: nat, head: nat)
    returns (chain: seq<nat>)
    requires RangeAllowed(dag, git, l, g, bound, base, head)
    ensures Chain(dag, base, head, chain) && |chain| - 1 == |Range(dag, base, head)| <= bound
    ensures forall c :: c in Range(dag, base, head) <==> c in chain[1..]
    ensures forall i | 0 < i < |chain| :: TreeFits(git, l, dag[chain[i]].tree)
    ensures git.diff(dag[base].tree, dag[head].tree) <= l.diffBytes
    ensures forall p | p in Changed(dag[base].tree, dag[head].tree) :: Authorized(g, p)
  {
    hide Authorized, Ancestors, AncestorsOf, TreeFits, Changed, Range, CommitAllowed;
    chain := ScopeIsChain(dag, g, bound, base, head);
    forall i | 0 < i < |chain| ensures TreeFits(git, l, dag[chain[i]].tree) {
      assert chain[1..][i - 1] == chain[i];
    }
  }
}
