/**
 * The compiled tree: its nodes, `te_eval` (tinyexpr.c:309-322), the
 * constant-folding pass `optimize` (tinyexpr.c:325-349) and `te_free`
 * (tinyexpr.c:58-63).
 *
 * A C node has `left`, `right`, `bound` and a `value`/`f1`/`f2` payload, and
 * the parser only ever builds four shapes of it: a leaf holding a value, a
 * leaf bound to storage, a node with only a left child and `f1`, and a node
 * with both children and `f2`. `Node` has exactly those four cases, so a node
 * with a right child alone cannot be built, and `Eval` dispatches on the same
 * tests `te_eval` makes, in the same order.
 */
module Tree {
  import opened Wrappers
  import opened Arith
  import opened Symbols

  datatype Node<N> =
    | Const(value: N)
    | Bound(slot: Slot)
    | Call1(f1: Fun1, left: Node<N>)
    | Call2(f2: Fun2, left: Node<N>, right: Node<N>)

  /** Caller-owned memory: the `double` stored at each address when `te_eval`
      runs. Rebinding a variable is evaluating against another store. */
  type Store<!N> = Slot -> N

  /** `te_eval`: a bound leaf reads the storage now, a plain leaf gives its
      value, otherwise the callable is applied to the children's values, left
      before right. The tree is only read. */
  function Eval<N>(arith: Arith<N>, store: Store<N>, n: Node<N>): N {
    match n
    case Bound(s) => store(s)
    case Const(v) => v
    case Call1(f, l) => arith.apply1(f, Eval(arith, store, l))
    case Call2(f, l, r) => arith.apply2(f, Eval(arith, store, l), Eval(arith, store, r))
  }

  /** The storage addresses a tree reads. */
  function Slots<N>(n: Node<N>): set<Slot> {
    match n
    case Bound(s) => {s}
    case Const(_) => {}
    case Call1(_, l) => Slots(l)
    case Call2(_, l, r) => Slots(l) + Slots(r)
  }

  function Size<N>(n: Node<N>): nat {
    match n
    case Bound(_) => 1
    case Const(_) => 1
    case Call1(_, l) => 1 + Size(l)
    case Call2(_, l, r) => 1 + Size(l) + Size(r)
  }

  /** `optimize`: post-order; leaves stay as they are; a node whose children
      are all unbound leaves becomes a leaf holding its callable applied to
      their values, and its children are released. */
  function Optimize<N>(arith: Arith<N>, n: Node<N>): (r: Node<N>)
    ensures Slots(r) == Slots(n)
    ensures Size(r) <= Size(n)
    ensures n.Const? || n.Bound? ==> r == n
  {
    match n
    case Bound(_) => n
    case Const(_) => n
    case Call1(f, l) =>
      var l' := Optimize(arith, l);
      if l'.Const? then Const(arith.apply1(f, l'.value)) else Call1(f, l')
    case Call2(f, l, r) =>
      var l', r' := Optimize(arith, l), Optimize(arith, r);
      if l'.Const? && r'.Const? then Const(arith.apply2(f, l'.value, r'.value)) else Call2(f, l', r')
  }

  /** No interior node is left whose children are all unbound leaves. */
  predicate Folded<N>(n: Node<N>) {
    match n
    case Bound(_) => true
    case Const(_) => true
    case Call1(_, l) => !l.Const? && Folded(l)
    case Call2(_, l, r) => !(l.Const? && r.Const?) && Folded(l) && Folded(r)
  }

  /** Folding does not change what the tree evaluates to, whatever the
      storage holds. */
  lemma {:induction false} OptimizePreservesEval<N>(arith: Arith<N>, store: Store<N>, n: Node<N>)
    ensures Eval(arith, store, Optimize(arith, n)) == Eval(arith, store, n)
  {
    match n
    case Bound(_) =>
    case Const(_) =>
    case Call1(f, l) =>
      OptimizePreservesEval(arith, store, l);
    case Call2(f, l, r) =>
      OptimizePreservesEval(arith, store, l);
      OptimizePreservesEval(arith, store, r);
  }

  /** After the pass nothing more can be folded. */
  lemma {:induction false} OptimizeFolds<N>(arith: Arith<N>, n: Node<N>)
    ensures Folded(Optimize(arith, n))
  {
    match n
    case Bound(_) =>
    case Const(_) =>
    case Call1(f, l) =>
      OptimizeFolds(arith, l);
    case Call2(f, l, r) =>
      OptimizeFolds(arith, l);
      OptimizeFolds(arith, r);
  }

  /** A folded tree is left as it is, so a second pass changes nothing. */
  lemma {:induction false} OptimizeIdempotent<N>(arith: Arith<N>, n: Node<N>)
    ensures Folded(n) ==> Optimize(arith, n) == n
    ensures Optimize(arith, Optimize(arith, n)) == Optimize(arith, n)
  {
    match n
    case Bound(_) =>
    case Const(_) =>
    case Call1(f, l) =>
      OptimizeIdempotent(arith, l);
    case Call2(f, l, r) =>
      OptimizeIdempotent(arith, l);
      OptimizeIdempotent(arith, r);
    OptimizeFolds(arith, n);
    FoldedIsFixed(arith, Optimize(arith, n));
  }

  lemma {:induction false} FoldedIsFixed<N>(arith: Arith<N>, n: Node<N>)
    requires Folded(n)
    ensures Optimize(arith, n) == n
  {
    match n
    case Bound(_) =>
    case Const(_) =>
    case Call1(f, l) =>
      FoldedIsFixed(arith, l);
    case Call2(f, l, r) =>
      FoldedIsFixed(arith, l);
      FoldedIsFixed(arith, r);
  }

  /** A tree that reads no storage folds to a single leaf holding its value. */
  lemma {:induction false} ClosedTreeFoldsToLeaf<N>(arith: Arith<N>, store: Store<N>, n: Node<N>)
    requires Slots(n) == {}
    ensures Optimize(arith, n) == Const(Eval(arith, store, n))
  {
    match n
    case Bound(_) =>
    case Const(_) =>
    case Call1(f, l) =>
      ClosedTreeFoldsToLeaf(arith, store, l);
    case Call2(f, l, r) =>
      ClosedTreeFoldsToLeaf(arith, store, l);
      ClosedTreeFoldsToLeaf(arith, store, r);
  }

  /** Evaluation reads storage only at the tree's bound addresses: stores that
      agree there give the same result, and a store changed there is what a
      later evaluation of the same tree sees. */
  lemma {:induction false} EvalReadsOnlySlots<N>(arith: Arith<N>, s1: Store<N>, s2: Store<N>, n: Node<N>)
    requires forall a :: a in Slots(n) ==> s1(a) == s2(a)
    ensures Eval(arith, s1, n) == Eval(arith, s2, n)
  {
    match n
    case Bound(_) =>
    case Const(_) =>
    case Call1(f, l) =>
      EvalReadsOnlySlots(arith, s1, s2, l);
    case Call2(f, l, r) =>
      EvalReadsOnlySlots(arith, s1, s2, l);
      EvalReadsOnlySlots(arith, s1, s2, r);
  }

  // ---------------------------------------------------------------------
  // te_free

  /** The nodes of a tree, each occurrence once. */
  ghost function Nodes<N>(n: Node<N>): multiset<Node<N>> {
    match n
    case Bound(_) => multiset{n}
    case Const(_) => multiset{n}
    case Call1(_, l) => multiset{n} + Nodes(l)
    case Call2(_, l, r) => multiset{n} + Nodes(l) + Nodes(r)
  }

  /** The nodes `te_free` releases, in the order it releases them: nothing
      for null; otherwise the left subtree, the right subtree, then the node. */
  function Released<N>(t: Option<Node<N>>): seq<Node<N>>
    decreases if t.Some? then Size(t.value) else 0
  {
    match t
    case None => []
    case Some(n) =>
      match n
      case Bound(_) => [n]
      case Const(_) => [n]
      case Call1(_, l) => Released(Some(l)) + [n]
      case Call2(_, l, r) => Released(Some(l)) + Released(Some(r)) + [n]
  }

  /** `te_free` is a no-op on null and otherwise releases every node of the
      tree exactly once, the root last, after its children. */
  lemma {:induction false} FreeReleasesEachNodeOnce<N>(t: Option<Node<N>>)
    ensures t.None? ==> Released(t) == []
    ensures t.Some? ==> multiset(Released(t)) == Nodes(t.value)
    ensures t.Some? ==> |Released(t)| == Size(t.value) && Released(t)[|Released(t)| - 1] == t.value
    decreases if t.Some? then Size(t.value) else 0
  {
    match t
    case None =>
    case Some(n) =>
      match n
      case Bound(_) =>
      case Const(_) =>
      case Call1(_, l) =>
        FreeReleasesEachNodeOnce(Some(l));
      case Call2(_, l, r) =>
        FreeReleasesEachNodeOnce(Some(l));
        FreeReleasesEachNodeOnce(Some(r));
  }
}
