// The red-black tree of wepoll: nodes with parent pointers in the heap, insertion and deletion with their rotations,
// and the shapes the pointers stand for.
module RbTree {

  datatype Side = Left | Right {
    function Other(): Side { if this == Left then Right else Left }
  }

  class TreeNode {
    var left: TreeNode?
    var right: TreeNode?
    var parent: TreeNode?
    var key: nat
    var red: bool

    constructor ()
    {
      left, right, parent, key, red := null, null, null, 0, false;
    }

    function Kid(s: Side): TreeNode?
      reads this
    {
      if s == Left then left else right
    }
  }

  datatype Shape = Leaf | Node(l: Shape, n: TreeNode, k: nat, red: bool, r: Shape)

  datatype Ctx = Top | Up(s: Side, n: TreeNode, k: nat, red: bool, sib: Shape, up: Ctx)

  ghost function Ref(t: Shape): TreeNode? { if t.Leaf? then null else t.n }

  ghost function CtxRef(c: Ctx): TreeNode? { if c.Top? then null else c.n }

  // `near` hangs on the `s` side of the node, `far` on the other one.
  ghost function Mk(s: Side, near: Shape, n: TreeNode, k: nat, red: bool, far: Shape): Shape
  {
    if s == Left then Node(near, n, k, red, far) else Node(far, n, k, red, near)
  }

  ghost function Plug(c: Ctx, t: Shape): Shape
    decreases c
  {
    match c
    case Top => t
    case Up(s, n, k, red, sib, up) => Plug(up, Mk(s, t, n, k, red, sib))
  }

  ghost function Nodes(t: Shape): set<TreeNode>
  {
    match t
    case Leaf => {}
    case Node(l, n, _, _, r) => Nodes(l) + {n} + Nodes(r)
  }

  ghost function CtxNodes(c: Ctx): set<TreeNode>
  {
    match c
    case Top => {}
    case Up(_, n, _, _, sib, up) => {n} + Nodes(sib) + CtxNodes(up)
  }

  ghost predicate Uniq(t: Shape)
  {
    match t
    case Leaf => true
    case Node(l, n, _, _, r) =>
      && n !in Nodes(l) && n !in Nodes(r) && Nodes(l) !! Nodes(r)
      && Uniq(l) && Uniq(r)
  }

  ghost predicate CtxUniq(c: Ctx)
  {
    match c
    case Top => true
    case Up(_, n, _, _, sib, up) =>
      && n !in Nodes(sib) && n !in CtxNodes(up) && Nodes(sib) !! CtxNodes(up)
      && Uniq(sib) && CtxUniq(up)
  }

  ghost predicate Rep(t: Shape, ref: TreeNode?)
    reads Nodes(t)
  {
    match t
    case Leaf => ref == null
    case Node(l, n, k, red, r) =>
      && ref == n && n.key == k && n.red == red
      && Rep(l, n.left) && Rep(r, n.right)
      && (l.Node? ==> l.n.parent == n)
      && (r.Node? ==> r.n.parent == n)
  }

  ghost predicate RepCtx(c: Ctx, ref: TreeNode?, root: TreeNode?)
    reads CtxNodes(c)
  {
    match c
    case Top => root == ref
    case Up(s, n, k, red, sib, up) =>
      && n.key == k && n.red == red
      && n.Kid(s) == ref && Rep(sib, n.Kid(s.Other()))
      && (sib.Node? ==> sib.n.parent == n)
      && n.parent == CtxRef(up)
      && RepCtx(up, n, root)
  }

  // ---- red-black trees as values ----

  ghost function Inorder(t: Shape): seq<nat>
  {
    match t
    case Leaf => []
    case Node(l, _, k, _, r) => Inorder(l) + [k] + Inorder(r)
  }

  ghost function CtxBefore(c: Ctx): seq<nat>
  {
    match c
    case Top => []
    case Up(s, _, k, _, sib, up) =>
      if s == Left then CtxBefore(up) else CtxBefore(up) + Inorder(sib) + [k]
  }

  ghost function CtxAfter(c: Ctx): seq<nat>
  {
    match c
    case Top => []
    case Up(s, _, k, _, sib, up) =>
      if s == Left then [k] + Inorder(sib) + CtxAfter(up) else CtxAfter(up)
  }

  lemma {:induction false} InorderPlug(c: Ctx, t: Shape)
    ensures Inorder(Plug(c, t)) == CtxBefore(c) + Inorder(t) + CtxAfter(c)
    decreases c
  {
    match c
    case Top =>
    case Up(s, n, k, red, sib, up) =>
      InorderPlug(up, Mk(s, t, n, k, red, sib));
      Regrouped(CtxBefore(up), Inorder(t), k, Inorder(sib), CtxAfter(up));
  }

  lemma Regrouped(a: seq<nat>, t: seq<nat>, k: nat, s: seq<nat>, b: seq<nat>)
    ensures a + (t + [k] + s) + b == a + t + ([k] + s + b)
    ensures a + (s + [k] + t) + b == a + s + [k] + t + b
  {
  }

  ghost predicate IsRed(t: Shape) { t.Node? && t.red }

  ghost predicate CtxRed(c: Ctx) { c.Up? && c.red }

  ghost function Weight(red: bool): nat { if red then 0 else 1 }

  // Black nodes on the leftmost path.
  ghost function Bh(t: Shape): nat
  {
    match t
    case Leaf => 0
    case Node(l, _, _, red, _) => Bh(l) + Weight(red)
  }

  // Every path down has the same number of black nodes.
  ghost predicate Bal(t: Shape)
  {
    match t
    case Leaf => true
    case Node(l, _, _, _, r) => Bal(l) && Bal(r) && Bh(l) == Bh(r)
  }

  // No red node has a red kid.
  ghost predicate NoRR(t: Shape)
  {
    match t
    case Leaf => true
    case Node(l, _, _, red, r) => NoRR(l) && NoRR(r) && (red ==> !IsRed(l) && !IsRed(r))
  }

  ghost predicate CtxBal(c: Ctx, h: nat)
    decreases c
  {
    match c
    case Top => true
    case Up(_, _, _, red, sib, up) => Bal(sib) && Bh(sib) == h && CtxBal(up, h + Weight(red))
  }

  ghost predicate CtxNoRR(c: Ctx)
  {
    match c
    case Top => true
    case Up(_, _, _, red, sib, up) =>
      NoRR(sib) && (red ==> !IsRed(sib) && !CtxRed(up)) && CtxNoRR(up)
  }

  ghost predicate CtxRootBlack(c: Ctx)
  {
    match c
    case Top => true
    case Up(_, _, _, red, _, up) => if up.Top? then !red else CtxRootBlack(up)
  }

  ghost function Depth(c: Ctx): nat
  {
    if c.Top? then 0 else 1 + Depth(c.up)
  }

  lemma {:induction false} PlugGood(c: Ctx, t: Shape)
    requires Bal(t) && CtxBal(c, Bh(t)) && NoRR(t) && CtxNoRR(c) && !(CtxRed(c) && IsRed(t))
    ensures Bal(Plug(c, t)) && NoRR(Plug(c, t))
    decreases c
  {
    match c
    case Top =>
    case Up(s, n, k, red, sib, up) => PlugGood(up, Mk(s, t, n, k, red, sib));
  }

  lemma {:induction false} PlugRoot(c: Ctx, t: Shape)
    requires CtxRootBlack(c) && c.Up?
    ensures !IsRed(Plug(c, t))
    decreases c
  {
    match c
    case Up(s, n, k, red, sib, up) => if up.Up? { PlugRoot(up, Mk(s, t, n, k, red, sib)); }
  }

  lemma {:induction false} PlugNode(c: Ctx, t: Shape)
    requires t.Node?
    ensures Plug(c, t).Node?
    decreases c
  {
    if c.Up? { PlugNode(c.up, Mk(c.s, t, c.n, c.k, c.red, c.sib)); }
  }

  lemma {:induction false} UnplugGood(c: Ctx, t: Shape)
    requires Bal(Plug(c, t)) && NoRR(Plug(c, t)) && !IsRed(Plug(c, t))
    ensures Bal(t) && CtxBal(c, Bh(t)) && NoRR(t) && CtxNoRR(c) && !(CtxRed(c) && IsRed(t))
    ensures CtxRootBlack(c)
    ensures c.Top? ==> !IsRed(t)
    decreases c
  {
    match c
    case Top =>
    case Up(s, n, k, red, sib, up) => UnplugGood(up, Mk(s, t, n, k, red, sib));
  }

  // The `s` kid of `n` is the tree `t`, linked both ways.
  ghost predicate Arm(n: TreeNode, s: Side, t: Shape)
    reads n, Nodes(t)
  {
    Rep(t, n.Kid(s)) && (t.Node? ==> t.n.parent == n)
  }

  ghost predicate Apart(near: Shape, n: TreeNode, far: Shape)
  {
    n !in Nodes(near) && n !in Nodes(far) && Nodes(near) !! Nodes(far) && Uniq(near) && Uniq(far)
  }

  // What Rep says of a node seen from either side.
  lemma RepMk(s: Side, near: Shape, n: TreeNode, k: nat, red: bool, far: Shape, ref: TreeNode?)
    ensures Rep(Mk(s, near, n, k, red, far), ref) <==>
      ref == n && n.key == k && n.red == red && Arm(n, s, near) && Arm(n, s.Other(), far)
    ensures Uniq(Mk(s, near, n, k, red, far)) <==> Apart(near, n, far)
    ensures Nodes(Mk(s, near, n, k, red, far)) == Nodes(near) + {n} + Nodes(far)
  {
  }

  lemma RepRef(t: Shape, ref: TreeNode?)
    requires Rep(t, ref)
    ensures ref == Ref(t)
    ensures t.Node? ==> t.n in Nodes(t)
  {
  }

  datatype Elbow = Elbow(c: Ctx, a: Shape, p: TreeNode, pk: nat, pr: bool,
                         b: Shape, q: TreeNode, qk: nat, qr: bool, d: Shape)
  {
    ghost function Low(cis: Side): Shape { Mk(cis, a, p, pk, pr, Mk(cis, b, q, qk, qr, d)) }

    ghost function High(cis: Side): Shape { Mk(cis, Mk(cis, a, p, pk, pr, b), q, qk, qr, d) }

    ghost function All(): set<TreeNode> { CtxNodes(c) + Nodes(a) + Nodes(b) + Nodes(d) + {p, q} }

    // No node occurs in two pieces.
    ghost predicate Parts() {
      && p != q && Apart(a, p, b) && Apart(b, q, d)
      && q !in Nodes(a) && p !in Nodes(d) && Nodes(a) !! Nodes(d)
      && CtxUniq(c) && p !in CtxNodes(c) && q !in CtxNodes(c)
      && Nodes(a) !! CtxNodes(c) && Nodes(b) !! CtxNodes(c) && Nodes(d) !! CtxNodes(c)
    }

    ghost predicate Fields(cis: Side)
      reads p, q, Nodes(a), Nodes(d)
    {
      && p.key == pk && p.red == pr && q.key == qk && q.red == qr
      && Arm(p, cis, a) && Arm(q, cis.Other(), d)
    }
  }

  lemma MkFlip(s: Side, a: Shape, n: TreeNode, k: nat, red: bool, b: Shape)
    ensures Mk(s, a, n, k, red, b) == Mk(s.Other(), b, n, k, red, a)
  {
  }

  lemma MkGood(s: Side, a: Shape, n: TreeNode, k: nat, red: bool, b: Shape)
    ensures Bal(Mk(s, a, n, k, red, b)) <==> Bal(a) && Bal(b) && Bh(a) == Bh(b)
    ensures Bh(a) == Bh(b) ==> Bh(Mk(s, a, n, k, red, b)) == Bh(a) + Weight(red)
    ensures NoRR(Mk(s, a, n, k, red, b)) <==> NoRR(a) && NoRR(b) && (red ==> !IsRed(a) && !IsRed(b))
    ensures Inorder(Mk(s, a, n, k, red, b)) ==
            if s == Left then Inorder(a) + [k] + Inorder(b) else Inorder(b) + [k] + Inorder(a)
  {
  }

  lemma ElbowOrder(e: Elbow, cis: Side)
    ensures Inorder(e.Low(cis)) == Inorder(e.High(cis))
  {
  }

  lemma SameOrder(c: Ctx, t: Shape, t': Shape)
    requires Inorder(t) == Inorder(t')
    ensures Inorder(Plug(c, t)) == Inorder(Plug(c, t'))
  {
  }

  // ---- the loop of tree_add as steps on values ----

  // `t` is red and sound; the only red-red edge may be the one above it.
  ghost predicate Hot(c: Ctx, t: Shape)
  {
    && t.Node? && t.red && Bal(t) && NoRR(t)
    && CtxBal(c, Bh(t)) && CtxNoRR(c) && CtxRootBlack(c)
  }

  lemma HotUp(c: Ctx, t: Shape)
    requires Hot(c, t) && CtxRed(c)
    ensures c.up.Up? && !c.up.red && !IsRed(c.sib)
  {
  }

  ghost function Recoloured(c: Ctx, t: Shape): Shape
    requires c.Up? && c.up.Up? && c.up.sib.Node?
  {
    Mk(c.up.s, Mk(c.s, t, c.n, c.k, false, c.sib), c.up.n, c.up.k, true, c.up.sib.(red := false))
  }

  lemma RecolouredHot(c: Ctx, t: Shape)
    requires Hot(c, t) && CtxRed(c) && c.up.Up? && IsRed(c.up.sib)
    ensures Hot(c.up.up, Recoloured(c, t))
  {
    var p := Mk(c.s, t, c.n, c.k, false, c.sib);
    var u := c.up.sib.(red := false);
    assert CtxBal(c.up, Bh(t)) && CtxNoRR(c.up) && CtxRootBlack(c.up);
    MkGood(c.s, t, c.n, c.k, false, c.sib);
    assert Bal(u) && Bh(u) == Bh(t) + 1 && NoRR(u);
    MkGood(c.up.s, p, c.up.n, c.up.k, true, u);
  }

  lemma RecolouredOrder(c: Ctx, t: Shape)
    requires c.Up? && c.up.Up? && c.up.sib.Node?
    ensures Inorder(Plug(c.up.up, Recoloured(c, t))) == Inorder(Plug(c, t))
  {
    var g := Mk(c.up.s, Mk(c.s, t, c.n, c.k, c.red, c.sib), c.up.n, c.up.k, c.up.red, c.up.sib);
    assert Inorder(g) == Inorder(Recoloured(c, t));
    SameOrder(c.up.up, g, Recoloured(c, t));
  }

  // The first rotation: the inner grandchild takes the place of the parent.
  ghost function Bend(c: Ctx, t: Shape): Elbow
    requires c.Up? && c.up.Up? && t.Node?
  {
    var cis := c.up.s;
    Elbow(c.up, c.sib, c.n, c.k, c.red,
          if cis == Left then t.l else t.r, t.n, t.k, t.red, if cis == Left then t.r else t.l)
  }

  lemma BendHot(c: Ctx, t: Shape)
    requires Hot(c, t) && CtxRed(c) && c.up.Up? && c.s != c.up.s
    ensures var e := Bend(c, t); var cis := c.up.s;
      && e.Low(cis) == Mk(c.s, t, c.n, c.k, c.red, c.sib)
      && e.High(cis) == Mk(cis, Mk(cis, e.a, e.p, e.pk, e.pr, e.b), e.q, e.qk, e.qr, e.d)
      && Hot(Up(cis, e.q, e.qk, e.qr, e.d, c.up), Mk(cis, e.a, e.p, e.pk, e.pr, e.b))
      && Inorder(Plug(c.up, e.High(cis))) == Inorder(Plug(c, t))
  {
    var e := Bend(c, t);
    ElbowOrder(e, c.up.s);
    SameOrder(c.up, e.Low(c.up.s), e.High(c.up.s));
  }

  // The second rotation: the grandparent, now red, goes down on the far side.
  ghost function Fold(c: Ctx, t: Shape): Elbow
    requires c.Up? && c.up.Up?
  {
    Elbow(c.up.up, c.up.sib, c.up.n, c.up.k, true, c.sib, c.n, c.k, false, t)
  }

  ghost function Folded(c: Ctx, t: Shape): Ctx
    requires c.Up? && c.up.Up?
  {
    var e := Fold(c, t);
    Up(c.up.s, e.q, e.qk, e.qr, Mk(c.up.s.Other(), e.a, e.p, e.pk, e.pr, e.b), c.up.up)
  }

  lemma FoldHot(c: Ctx, t: Shape)
    requires Hot(c, t) && CtxRed(c) && c.up.Up? && c.s == c.up.s && !IsRed(c.up.sib)
    ensures Hot(Folded(c, t), t) && !CtxRed(Folded(c, t))
  {
    var e := Fold(c, t);
    assert CtxBal(c.up, Bh(t)) && CtxNoRR(c.up) && CtxRootBlack(c.up);
    MkGood(c.up.s.Other(), e.a, e.p, e.pk, e.pr, e.b);
  }

  lemma FoldOrder(c: Ctx, t: Shape)
    requires c.Up? && c.up.Up? && c.s == c.up.s
    ensures var e := Fold(c, t); var cis := c.up.s;
      && e.Low(cis.Other()) == Mk(cis, Mk(c.s, t, c.n, c.k, false, c.sib), c.up.n, c.up.k, true, c.up.sib)
      && Plug(c.up.up, e.High(cis.Other())) == Plug(Folded(c, t), t)
      && Inorder(Plug(Folded(c, t), t)) == Inorder(Plug(c, t))
  {
    var e := Fold(c, t);
    var cis := c.up.s;
    var g := Mk(cis, Mk(c.s, t, c.n, c.k, c.red, c.sib), c.up.n, c.up.k, c.up.red, c.up.sib);
    MkFlip(cis, t, e.q, e.qk, e.qr, Mk(cis.Other(), e.a, e.p, e.pk, e.pr, e.b));
    ElbowOrder(e, cis.Other());
    assert Inorder(g) == Inorder(e.Low(cis.Other()));
    SameOrder(c.up.up, g, e.High(cis.Other()));
  }

  ghost predicate Sorted(s: seq<nat>)
  {
    forall i, j | 0 <= i < j < |s| :: s[i] < s[j]
  }

  ghost predicate AllBelow(s: seq<nat>, k: nat) { forall i | 0 <= i < |s| :: s[i] < k }

  ghost predicate AllAbove(s: seq<nat>, k: nat) { forall i | 0 <= i < |s| :: k < s[i] }

  // Inside a sorted sequence, what stands left of a key is below it.
  lemma SortedMid(p: seq<nat>, x: seq<nat>, k: nat, y: seq<nat>, q: seq<nat>)
    requires Sorted(p + (x + [k] + y) + q)
    ensures AllBelow(x, k) && AllAbove(y, k)
  {
    var m := x + [k] + y;
    var s := p + m + q;
    assert s[|p| + |x|] == m[|x|] == k;
    forall i | 0 <= i < |x| ensures x[i] < k { assert s[|p| + i] == m[i] == x[i]; }
    forall i | 0 <= i < |y| ensures k < y[i] { assert s[|p| + |x| + 1 + i] == m[|x| + 1 + i] == y[i]; }
  }

  lemma SortedJoin(x: seq<nat>, k: nat, y: seq<nat>)
    requires Sorted(x + y) && AllBelow(x, k) && AllAbove(y, k)
    ensures Sorted(x + [k] + y) && k !in x + y
  {
    var s, r := x + [k] + y, x + y;
    forall i, j | 0 <= i < j < |s| ensures s[i] < s[j] {
      var i' := if i < |x| then i else i - 1;
      var j' := if j < |x| then j else j - 1;
      if i != |x| { assert s[i] == r[i']; }
      if j != |x| { assert s[j] == r[j']; }
      if i == |x| { assert s[j] == y[j - |x| - 1]; }
      if j == |x| { assert s[i] == x[i]; }
    }
  }

  lemma SortedRemove(x: seq<nat>, k: nat, y: seq<nat>)
    requires Sorted(x + [k] + y)
    ensures Sorted(x + y) && k !in x + y
  {
    var s, r := x + [k] + y, x + y;
    assert s[|x|] == k;
    forall i | 0 <= i < |r| ensures r[i] != k { assert r[i] == s[if i < |x| then i else i + 1]; }
    forall i, j | 0 <= i < j < |r| ensures r[i] < r[j] {
      assert r[i] == s[if i < |x| then i else i + 1];
      assert r[j] == s[if j < |x| then j else j + 1];
    }
  }

  // Below a focus the node separates the keys of its kids.
  lemma SortedFocus(c: Ctx, t: Shape)
    requires t.Node? && Sorted(Inorder(Plug(c, t)))
    ensures AllBelow(Inorder(t.l), t.k) && AllAbove(Inorder(t.r), t.k)
  {
    InorderPlug(c, t);
    SortedMid(CtxBefore(c), Inorder(t.l), t.k, Inorder(t.r), CtxAfter(c));
  }

  ghost predicate Between(c: Ctx, key: nat)
  {
    AllBelow(CtxBefore(c), key) && AllAbove(CtxAfter(c), key)
  }

  // One step of the descent towards `key`.
  lemma Descend(c: Ctx, t: Shape, key: nat)
    requires t.Node? && Sorted(Inorder(Plug(c, t))) && Between(c, key)
    ensures key < t.k ==> Between(Up(Left, t.n, t.k, t.red, t.r, c), key)
    ensures key > t.k ==> Between(Up(Right, t.n, t.k, t.red, t.l, c), key)
    ensures key == t.k ==> key in Inorder(Plug(c, t))
  {
    SortedFocus(c, t);
    if key == t.k {
      InorderPlug(c, t);
      assert key in Inorder(t);
    }
  }

  // A key the path separates from everything can be put in the hole.
  lemma InsertSorted(c: Ctx, key: nat)
    requires Between(c, key) && Sorted(Inorder(Plug(c, Leaf)))
    ensures key !in Inorder(Plug(c, Leaf))
    ensures Sorted(CtxBefore(c) + [key] + CtxAfter(c))
  {
    InorderPlug(c, Leaf);
    assert Inorder(Plug(c, Leaf)) == CtxBefore(c) + CtxAfter(c);
    SortedJoin(CtxBefore(c), key, CtxAfter(c));
  }

  // The keys of the nodes are the keys listed.
  lemma {:induction false} RepKeys(t: Shape, ref: TreeNode?)
    requires Rep(t, ref)
    ensures forall n | n in Nodes(t) :: n.key in Inorder(t)
    ensures forall k | k in Inorder(t) :: exists n | n in Nodes(t) :: n.key == k
  {
    if t.Node? {
      RepKeys(t.l, t.n.left);
      RepKeys(t.r, t.n.right);
      assert t.n in Nodes(t);
    }
  }

  // Everything is sound, wherever the focus.
  ghost predicate Sound(c: Ctx, t: Shape)
  {
    && Bal(t) && CtxBal(c, Bh(t)) && NoRR(t) && CtxNoRR(c) && !(CtxRed(c) && IsRed(t))
    && CtxRootBlack(c) && (c.Top? ==> !IsRed(t))
  }

  lemma SoundPlug(c: Ctx, t: Shape)
    ensures Sound(c, t) <==> Sound(Top, Plug(c, t))
  {
  }

  // Painting the focus black ends the work of tree_del.
  ghost predicate Ending(c: Ctx, x: Shape)
  {
    if x.Leaf? then c.Top? else Sound(c, x.(red := false))
  }

  // ---- what the colours are for ----

  // The numbers of black nodes met on the ways down to a leaf.
  ghost function PathBlacks(t: Shape): set<nat>
  {
    match t
    case Leaf => {0}
    case Node(l, _, _, red, r) => set b | b in PathBlacks(l) + PathBlacks(r) :: b + Weight(red)
  }

  lemma {:induction false} BalancedPaths(t: Shape)
    ensures Bh(t) in PathBlacks(t)
    ensures Bal(t) <==> forall b | b in PathBlacks(t) :: b == Bh(t)
  {
    if t.Node? {
      BalancedPaths(t.l);
      BalancedPaths(t.r);
      var w := Weight(t.red);
      assert Bh(t.l) + w in PathBlacks(t) && Bh(t.r) + w in PathBlacks(t);
      if forall b | b in PathBlacks(t) :: b == Bh(t) {
        forall x | x in PathBlacks(t.l) + PathBlacks(t.r) ensures x == Bh(t.l) {
          assert x + w in PathBlacks(t);
        }
      }
    }
  }

  ghost function Height(t: Shape): nat
  {
    match t
    case Leaf => 0
    case Node(l, _, _, _, r) => 1 + (if Height(l) < Height(r) then Height(r) else Height(l))
  }

  ghost function Pow2(n: nat): nat { if n == 0 then 1 else 2 * Pow2(n - 1) }

  // A sound tree is never deeper than twice the logarithm of its size.
  lemma {:induction false} LogHeight(t: Shape)
    requires Bal(t) && NoRR(t)
    ensures Height(t) <= 2 * Bh(t) + (if IsRed(t) then 1 else 0)
    ensures Pow2(Bh(t)) <= |Inorder(t)| + 1
  {
    if t.Node? {
      LogHeight(t.l);
      LogHeight(t.r);
    }
  }

  // Sorted keys are what makes a search tree: every node separates its kids.
  ghost predicate SearchTree(t: Shape)
  {
    match t
    case Leaf => true
    case Node(l, _, k, _, r) =>
      SearchTree(l) && SearchTree(r) && AllBelow(Inorder(l), k) && AllAbove(Inorder(r), k)
  }

  lemma {:induction false} SortedSearch(t: Shape)
    ensures Sorted(Inorder(t)) <==> SearchTree(t)
  {
    if t.Node? {
      SortedSearch(t.l);
      SortedSearch(t.r);
      SortedNode(Inorder(t.l), t.k, Inorder(t.r));
    }
  }

  lemma SortedNode(x: seq<nat>, k: nat, y: seq<nat>)
    ensures Sorted(x + [k] + y) <==> Sorted(x) && Sorted(y) && AllBelow(x, k) && AllAbove(y, k)
  {
    if Sorted(x + [k] + y) { SortedParts(x, k, y); }
    if Sorted(x) && Sorted(y) && AllBelow(x, k) && AllAbove(y, k) { SortedWhole(x, k, y); }
  }

  lemma SortedParts(x: seq<nat>, k: nat, y: seq<nat>)
    requires Sorted(x + [k] + y)
    ensures Sorted(x) && Sorted(y) && AllBelow(x, k) && AllAbove(y, k)
  {
    var s, n := x + [k] + y, |x|;
    assert s[n] == k;
    forall i | 0 <= i < n ensures x[i] < k { assert s[i] == x[i] && s[i] < s[n]; }
    forall i | 0 <= i < |y| ensures k < y[i] { assert s[n + 1 + i] == y[i] && s[n] < s[n + 1 + i]; }
    forall i, j | 0 <= i < j < n ensures x[i] < x[j] { assert s[i] == x[i] && s[j] == x[j]; }
    forall i, j | 0 <= i < j < |y| ensures y[i] < y[j] { assert s[n + 1 + i] == y[i] && s[n + 1 + j] == y[j]; }
  }

  lemma SortedWhole(x: seq<nat>, k: nat, y: seq<nat>)
    requires Sorted(x) && Sorted(y) && AllBelow(x, k) && AllAbove(y, k)
    ensures Sorted(x + [k] + y)
  {
    var s, n := x + [k] + y, |x|;
    forall i, j | 0 <= i < j < |s| ensures s[i] < s[j] {
      if j < n { assert x[i] < x[j]; }
      else if i > n { assert y[i - n - 1] < y[j - n - 1]; }
    }
  }

  // ---- tree_del as steps on values ----

  ghost function Near(s: Side, t: Shape): Shape
    requires t.Node?
  {
    if s == Left then t.l else t.r
  }

  ghost function Far(s: Side, t: Shape): Shape
    requires t.Node?
  {
    if s == Left then t.r else t.l
  }

  lemma Opened(s: Side, t: Shape)
    requires t.Node?
    ensures t == Mk(s, Near(s, t), t.n, t.k, t.red, Far(s, t))
    ensures Bal(t) <==> Bal(Near(s, t)) && Bal(Far(s, t)) && Bh(Near(s, t)) == Bh(Far(s, t))
    ensures Bal(t) ==> Bh(t) == Bh(Near(s, t)) + Weight(t.red)
    ensures NoRR(t) <==> NoRR(Near(s, t)) && NoRR(Far(s, t)) && (t.red ==> !IsRed(Near(s, t)) && !IsRed(Far(s, t)))
    ensures Inorder(t.(red := !t.red)) == Inorder(t)
  {
  }

  // `x` has one black node too few on every path; all else is sound.
  ghost predicate Short(c: Ctx, x: Shape)
  {
    && Bal(x) && NoRR(x) && !IsRed(x)
    && CtxBal(c, Bh(x) + 1) && CtxNoRR(c) && CtxRootBlack(c)
  }

  // Taking out a node with at most one kid `x`.
  lemma Removed(c: Ctx, t: Shape, x: Shape)
    requires t.Node? && ((t.l == Leaf && t.r == x) || (t.r == Leaf && t.l == x))
    requires Sound(c, t)
    ensures t.red ==> Sound(c, x)
    ensures !t.red && IsRed(x) ==> Sound(c, x.(red := false))
    ensures !t.red && !IsRed(x) ==> Short(c, x)
  {
    Opened(Left, t);
    if x.Node? {
      Opened(Left, x);
      Opened(Left, x.(red := false));
    }
  }

  // ---- a node with two kids: its place is taken by the leftmost node on its right ----

  // `cs` goes down `d` left links below `base`.
  ghost predicate Spine(cs: Ctx, d: nat, base: Ctx)
  {
    if d == 0 then cs == base else cs.Up? && cs.s == Left && Spine(cs.up, d - 1, base)
  }

  ghost function SpineTree(cs: Ctx, d: nat, x: Shape, base: Ctx): Shape
    requires Spine(cs, d, base)
    decreases d
  {
    if d == 0 then x else SpineTree(cs.up, d - 1, Node(x, cs.n, cs.k, cs.red, cs.sib), base)
  }

  // The same path with the node at the top of the spine replaced.
  ghost function Graft(cs: Ctx, d: nat, base: Ctx, y: TreeNode, yk: nat): Ctx
    requires base.Up? && Spine(cs, d, base)
  {
    if d == 0 then cs.(n := y, k := yk) else cs.(up := Graft(cs.up, d - 1, base, y, yk))
  }

  lemma {:induction false} GraftPlug(cs: Ctx, d: nat, base: Ctx, y: TreeNode, yk: nat, x: Shape)
    requires base.Up? && base.s == Right && Spine(cs, d, base)
    ensures Plug(cs, x) == Plug(base.up, Node(base.sib, base.n, base.k, base.red, SpineTree(cs, d, x, base)))
    ensures Plug(Graft(cs, d, base, y, yk), x) ==
            Plug(base.up, Node(base.sib, y, yk, base.red, SpineTree(cs, d, x, base)))
    decreases d
  {
    if d > 0 { GraftPlug(cs.up, d - 1, base, y, yk, Node(x, cs.n, cs.k, cs.red, cs.sib)); }
  }

  lemma {:induction false} GraftGood(cs: Ctx, d: nat, base: Ctx, y: TreeNode, yk: nat, h: nat)
    requires base.Up? && Spine(cs, d, base)
    ensures CtxBal(Graft(cs, d, base, y, yk), h) == CtxBal(cs, h)
    ensures CtxNoRR(Graft(cs, d, base, y, yk)) == CtxNoRR(cs)
    ensures CtxRed(Graft(cs, d, base, y, yk)) == CtxRed(cs)
    ensures CtxRootBlack(Graft(cs, d, base, y, yk)) == CtxRootBlack(cs)
    ensures Graft(cs, d, base, y, yk).Up? && CtxRef(Graft(cs, d, base, y, yk)) == if d == 0 then y else cs.n
    decreases d
  {
    if d > 0 { GraftGood(cs.up, d - 1, base, y, yk, h + Weight(cs.red)); }
  }

  lemma {:induction false} SpineOrder(cs: Ctx, d: nat, base: Ctx, pre: seq<nat>, t: Shape, x: Shape)
    requires Spine(cs, d, base) && Inorder(t) == pre + Inorder(x)
    ensures Inorder(SpineTree(cs, d, t, base)) == pre + Inorder(SpineTree(cs, d, x, base))
    decreases d
  {
    if d > 0 {
      var t', x' := Node(t, cs.n, cs.k, cs.red, cs.sib), Node(x, cs.n, cs.k, cs.red, cs.sib);
      assert Inorder(t') == pre + Inorder(x');
      SpineOrder(cs.up, d - 1, base, pre, t', x');
    }
  }

  lemma SingleOrder(c: Ctx, t: Shape, x: Shape)
    requires t.Node? && ((t.l == Leaf && t.r == x) || (t.r == Leaf && t.l == x))
    requires Sorted(Inorder(Plug(c, t)))
    ensures Sorted(Inorder(Plug(c, x))) && t.k !in Inorder(Plug(c, x))
  {
    InorderPlug(c, t);
    InorderPlug(c, x);
    CutKey(CtxBefore(c), t.k, Inorder(x), CtxAfter(c), t.l == Leaf);
  }

  lemma CutKey(p: seq<nat>, k: nat, m: seq<nat>, q: seq<nat>, first: bool)
    requires Sorted(p + (if first then [] + [k] + m else m + [k] + []) + q)
    ensures Sorted(p + m + q) && k !in p + m + q
  {
    if first {
      assert p + ([] + [k] + m) + q == p + [k] + (m + q);
      SortedRemove(p, k, m + q);
      assert p + (m + q) == p + m + q;
    } else {
      assert p + (m + [k] + []) + q == (p + m) + [k] + q;
      SortedRemove(p + m, k, q);
    }
  }

  // The keys lose exactly the key of the node taken out.
  lemma GraftOrder(cs: Ctx, d: nat, base: Ctx, y: TreeNode, yk: nat, yr: bool, x: Shape)
    requires base.Up? && base.s == Right && Spine(cs, d, base)
    requires Sorted(Inorder(Plug(cs, Node(Leaf, y, yk, yr, x))))
    ensures Sorted(Inorder(Plug(Graft(cs, d, base, y, yk), x)))
    ensures base.k !in Inorder(Plug(Graft(cs, d, base, y, yk), x))
  {
    var t := Node(Leaf, y, yk, yr, x);
    assert Inorder(t) == [yk] + Inorder(x);
    SpineOrder(cs, d, base, [yk], t, x);
    GraftPlug(cs, d, base, y, yk, t);
    GraftPlug(cs, d, base, y, yk, x);
    InorderPlug(base.up, Node(base.sib, base.n, base.k, base.red, SpineTree(cs, d, t, base)));
    InorderPlug(base.up, Node(base.sib, y, yk, base.red, SpineTree(cs, d, x, base)));
    DropKey(CtxBefore(base.up), Inorder(base.sib), base.k, yk, Inorder(SpineTree(cs, d, x, base)), CtxAfter(base.up));
  }

  lemma DropKey(p: seq<nat>, l: seq<nat>, k: nat, yk: nat, r: seq<nat>, q: seq<nat>)
    requires Sorted(p + (l + [k] + ([yk] + r)) + q)
    ensures Sorted(p + (l + [yk] + r) + q) && k !in p + (l + [yk] + r) + q
  {
    assert p + (l + [k] + ([yk] + r)) + q == (p + l) + [k] + ([yk] + r + q);
    SortedRemove(p + l, k, [yk] + r + q);
    assert p + (l + [yk] + r) + q == (p + l) + ([yk] + r + q);
  }

  lemma GraftRemoved(cs: Ctx, d: nat, base: Ctx, y: Shape)
    requires base.Up? && base.s == Right && Spine(cs, d, base) && y.Node? && y.l == Leaf
    requires Sound(cs, y) && Sorted(Inorder(Plug(cs, y)))
    ensures var g, x := Graft(cs, d, base, y.n, y.k), y.r;
      && Sorted(Inorder(Plug(g, x))) && base.k !in Inorder(Plug(g, x)) && CtxRef(g) == (if d == 0 then y.n else cs.n)
      && (y.red ==> Sound(g, x))
      && (!y.red && IsRed(x) ==> Sound(g, x.(red := false)))
      && (!y.red && !IsRed(x) ==> Short(g, x))
  {
    var x := y.r;
    Removed(cs, y, x);
    GraftOrder(cs, d, base, y.n, y.k, y.red, x);
    GraftGood(cs, d, base, y.n, y.k, Bh(x));
    GraftGood(cs, d, base, y.n, y.k, Bh(x) + 1);
  }

  lemma {:induction false} Focus(c0: Ctx, t0: Shape, node: TreeNode) returns (c: Ctx, t: Shape)
    requires node in Nodes(t0)
    ensures Plug(c, t) == Plug(c0, t0) && t.Node? && t.n == node
    decreases t0
  {
    if t0.n == node {
      c, t := c0, t0;
    } else if node in Nodes(t0.l) {
      c, t := Focus(Up(Left, t0.n, t0.k, t0.red, t0.r, c0), t0.l, node);
    } else {
      c, t := Focus(Up(Right, t0.n, t0.k, t0.red, t0.l, c0), t0.r, node);
    }
  }

  // Case of a red sibling.
  ghost function Lean(c: Ctx, x: Shape): Elbow
    requires c.Up? && c.sib.Node?
  {
    var s := c.s;
    Elbow(c.up, x, c.n, c.k, true, Near(s, c.sib), c.sib.n, c.sib.k, false, Far(s, c.sib))
  }

  ghost function Leaned(c: Ctx, x: Shape): Ctx
    requires c.Up? && c.sib.Node?
  {
    var s := c.s;
    Up(s, c.n, c.k, true, Near(s, c.sib), Up(s, c.sib.n, c.sib.k, false, Far(s, c.sib), c.up))
  }

  lemma LeanShort(c: Ctx, x: Shape)
    requires Short(c, x) && c.Up? && IsRed(c.sib)
    ensures Short(Leaned(c, x), x) && !IsRed(Leaned(c, x).sib)
  {
  }

  lemma LeanOrder(c: Ctx, x: Shape)
    requires c.Up? && c.sib.Node?
    ensures var e := Lean(c, x);
      && e.Low(c.s) == Mk(c.s, x, c.n, c.k, true, c.sib.(red := false))
      && Plug(c.up, e.High(c.s)) == Plug(Leaned(c, x), x)
      && Inorder(Plug(Leaned(c, x), x)) == Inorder(Plug(c, x))
  {
    var e := Lean(c, x);
    ElbowOrder(e, c.s);
    var g := Mk(c.s, x, c.n, c.k, c.red, c.sib);
    assert Inorder(g) == Inorder(e.Low(c.s));
    SameOrder(c.up, g, e.High(c.s));
  }

  // The sibling is never missing.
  lemma ShortSib(c: Ctx, x: Shape)
    requires Short(c, x) && c.Up?
    ensures c.sib.Node?
    ensures IsRed(c.sib) ==> Near(c.s, c.sib).Node? && !c.red
  {
  }

  // Case of a black sibling whose only red kid is the near one: the sibling is rotated first.
  ghost function Tuck(c: Ctx, x: Shape): Elbow
    requires c.Up? && c.sib.Node? && Near(c.s, c.sib).Node?
  {
    var s := c.s;
    var near := Near(s, c.sib);
    Elbow(Up(s.Other(), c.n, c.k, c.red, x, c.up), Far(s, c.sib), c.sib.n, c.sib.k, true,
          Far(s, near), near.n, near.k, false, Near(s, near))
  }

  ghost function Tucked(c: Ctx, x: Shape): Ctx
    requires c.Up? && c.sib.Node? && Near(c.s, c.sib).Node?
  {
    c.(sib := Tuck(c, x).High(c.s.Other()))
  }

  lemma TuckShort(c: Ctx, x: Shape)
    requires Short(c, x) && c.Up? && c.sib.Node? && !c.sib.red
    requires IsRed(Near(c.s, c.sib)) && !IsRed(Far(c.s, c.sib))
    ensures Short(Tucked(c, x), x) && !IsRed(Tucked(c, x).sib) && IsRed(Far(c.s, Tucked(c, x).sib))
  {
    var e := Tuck(c, x);
    Opened(c.s, c.sib);
    Opened(c.s, Near(c.s, c.sib));
    MkGood(c.s.Other(), e.a, e.p, e.pk, e.pr, e.b);
    MkGood(c.s.Other(), Mk(c.s.Other(), e.a, e.p, e.pk, e.pr, e.b), e.q, e.qk, e.qr, e.d);
  }

  lemma TuckOrder(c: Ctx, x: Shape)
    requires c.Up? && c.sib.Node? && Near(c.s, c.sib).Node?
    ensures var e := Tuck(c, x); var near := Near(c.s, c.sib);
      && e.Low(c.s.Other()) == Mk(c.s, near.(red := false), c.sib.n, c.sib.k, true, Far(c.s, c.sib))
      && Inorder(Plug(Tucked(c, x), x)) == Inorder(Plug(c, x))
  {
    var e := Tuck(c, x);
    ElbowOrder(e, c.s.Other());
    assert Inorder(c.sib) == Inorder(e.Low(c.s.Other()));
    var c' := Tucked(c, x);
    assert Inorder(Mk(c.s, x, c.n, c.k, c.red, c.sib)) == Inorder(Mk(c.s, x, c.n, c.k, c.red, c'.sib));
    SameOrder(c.up, Mk(c.s, x, c.n, c.k, c.red, c.sib), Mk(c.s, x, c.n, c.k, c.red, c'.sib));
  }

  // Case of a black sibling with a red far kid: one rotation ends the loop.
  ghost function Settle(c: Ctx, x: Shape): Elbow
    requires c.Up? && c.sib.Node? && Far(c.s, c.sib).Node?
  {
    var s := c.s;
    Elbow(c.up, x, c.n, c.k, false, Near(s, c.sib), c.sib.n, c.sib.k, c.red, Far(s, c.sib).(red := false))
  }

  lemma SettleGood(c: Ctx, x: Shape)
    requires Short(c, x) && c.Up? && c.sib.Node? && !c.sib.red && IsRed(Far(c.s, c.sib))
    ensures var t := Settle(c, x).High(c.s);
      Bal(t) && NoRR(t) && CtxBal(c.up, Bh(t)) && CtxNoRR(c.up) && !(CtxRed(c.up) && IsRed(t))
      && CtxRootBlack(c.up) && (c.up.Top? ==> !IsRed(t))
  {
    var e := Settle(c, x);
    Opened(c.s, c.sib);
    Opened(c.s, Far(c.s, c.sib));
    Opened(c.s, e.d);
    MkGood(c.s, e.a, e.p, e.pk, e.pr, e.b);
    MkGood(c.s, Mk(c.s, e.a, e.p, e.pk, e.pr, e.b), e.q, e.qk, e.qr, e.d);
  }

  lemma SettleOrder(c: Ctx, x: Shape)
    requires c.Up? && c.sib.Node? && Far(c.s, c.sib).Node?
    ensures var e := Settle(c, x); var far := Far(c.s, c.sib);
      && e.Low(c.s) ==
         Mk(c.s, x, c.n, c.k, false, Mk(c.s, Near(c.s, c.sib), c.sib.n, c.sib.k, c.red, far.(red := false)))
      && Inorder(Plug(c.up, e.High(c.s))) == Inorder(Plug(c, x))
  {
    var e := Settle(c, x);
    ElbowOrder(e, c.s);
    var g := Mk(c.s, x, c.n, c.k, c.red, c.sib);
    assert Inorder(Far(c.s, c.sib)) == Inorder(e.d);
    assert Inorder(c.sib) == Inorder(Mk(c.s, e.b, e.q, e.qk, e.qr, e.d));
    assert Inorder(g) == Inorder(e.Low(c.s));
    SameOrder(c.up, g, e.High(c.s));
  }

  // Case of a sibling without red kids: it turns red and the shortage moves up.
  ghost function Passed(c: Ctx, x: Shape): Shape
    requires c.Up? && c.sib.Node?
  {
    Mk(c.s, x, c.n, c.k, c.red, c.sib.(red := true))
  }

  lemma PassedShort(c: Ctx, x: Shape)
    requires Short(c, x) && c.Up? && c.sib.Node? && !c.sib.red && !IsRed(c.sib.l) && !IsRed(c.sib.r)
    ensures var t := Passed(c, x);
      && Inorder(Plug(c.up, t)) == Inorder(Plug(c, x))
      && (!c.red ==> Short(c.up, t))
      && (c.red ==> Bal(t.(red := false)) && NoRR(t.(red := false)) && CtxBal(c.up, Bh(t.(red := false)))
                    && CtxNoRR(c.up) && CtxRootBlack(c.up))
  {
    var t := Passed(c, x);
    MkGood(c.s, x, c.n, c.k, c.red, c.sib.(red := true));
    MkGood(c.s, x, c.n, c.k, false, c.sib.(red := true));
    assert Inorder(c.sib) == Inorder(c.sib.(red := true));
    SameOrder(c.up, Mk(c.s, x, c.n, c.k, c.red, c.sib), t);
  }

  class Tree {
    var root: TreeNode?
    ghost var nodes: set<TreeNode>
    ghost var shape: Shape

    // tree_init
    constructor ()
      ensures Valid() && nodes == {} && root == null
    {
      root, nodes, shape := null, {}, Leaf;
    }

    // The link that reached `p` now reaches `q`.
    method Relink(par: TreeNode?, p: TreeNode, q: TreeNode?, ghost c: Ctx)
      requires RepCtx(c, p, root) && CtxUniq(c) && p !in CtxNodes(c) && par == CtxRef(c)
      modifies this`root, CtxNodes(c)`left, CtxNodes(c)`right
      ensures RepCtx(c, q, root)
    {
      if par != null {
        if par.left == p { par.left := q; } else { par.right := q; }
      } else {
        root := q;
      }
    }

    // Makes `x` the `s` kid of `n`.
    static method Hang(n: TreeNode, s: Side, x: TreeNode?, ghost t: Shape)
      requires Rep(t, x) && n !in Nodes(t) && Uniq(t)
      modifies n`left, n`right, Nodes(t)`parent
      ensures Arm(n, s, t)
      ensures n.Kid(s.Other()) == old(n.Kid(s.Other()))
    {
      RepRef(t, x);
      if s == Left { n.left := x; } else { n.right := x; }
      if x != null { x.parent := n; }
    }

    static method Turn(p: TreeNode, q: TreeNode, cis: Side,
            ghost a: Shape, ghost b: Shape, ghost d: Shape, ghost all: set<TreeNode>)
      requires Nodes(a) <= all && Nodes(b) <= all && Nodes(d) <= all
      requires p != q && Apart(a, p, b) && Apart(b, q, d)
      requires q !in Nodes(a) && p !in Nodes(d) && Nodes(a) !! Nodes(d)
      requires Arm(p, cis, a) && Arm(q, cis, b) && Arm(q, cis.Other(), d)
      modifies p`parent, p`left, p`right, q`left, q`right, Nodes(b)`parent
      ensures Arm(p, cis, a) && Arm(p, cis.Other(), b) && Arm(q, cis.Other(), d)
      ensures q.Kid(cis) == p && p.parent == q
    {
      p.parent := q;
      assert Rep(a, p.Kid(cis)) && Rep(b, q.Kid(cis)) && Rep(d, q.Kid(cis.Other()));
      Hang(p, cis.Other(), q.Kid(cis), b);
      assert Rep(a, p.Kid(cis)) && Rep(d, q.Kid(cis.Other()));
      label L:
      if cis == Left { q.left := p; } else { q.right := p; }
      assert p.Kid(cis.Other()) == old@L(p.Kid(cis.Other()));
      assert Rep(a, p.Kid(cis));
      assert Rep(b, p.Kid(cis.Other()));
      assert Rep(d, q.Kid(cis.Other()));
    }

    // The whole tree is `t` seen through `c`, and `nodes` are its nodes.
    ghost predicate Whole(c: Ctx, t: Shape)
      reads this`root, this`nodes, nodes
    {
      && nodes == CtxNodes(c) + Nodes(t)
      && Rep(t, Ref(t)) && RepCtx(c, Ref(t), root)
      && (t.Node? ==> t.n.parent == CtxRef(c))
      && Uniq(t) && CtxUniq(c) && Nodes(t) !! CtxNodes(c)
    }

    lemma WholeUp(s: Side, n: TreeNode, k: nat, red: bool, sib: Shape, up: Ctx, t: Shape)
      ensures Whole(Up(s, n, k, red, sib, up), t) <==> Whole(up, Mk(s, t, n, k, red, sib))
    {
      var c := Up(s, n, k, red, sib, up);
      RepMk(s, t, n, k, red, sib, n);
      assert RepCtx(c, Ref(t), root) <==>
        && n.key == k && n.red == red
        && n.Kid(s) == Ref(t) && Arm(n, s.Other(), sib)
        && n.parent == CtxRef(up)
        && RepCtx(up, n, root);
      if Rep(t, n.Kid(s)) { RepRef(t, n.Kid(s)); }
    }

    ghost predicate Lowered(e: Elbow, cis: Side)
      reads this, nodes
    {
      && nodes == e.All() && e.Parts()
      && e.Fields(cis) && RepCtx(e.c, e.p, root) && e.p.parent == CtxRef(e.c)
      && e.p.Kid(cis.Other()) == e.q && e.q.parent == e.p && Arm(e.q, cis, e.b)
    }

    ghost predicate Raised(e: Elbow, cis: Side)
      reads this, nodes
    {
      && nodes == e.All() && e.Parts()
      && e.Fields(cis) && RepCtx(e.c, e.q, root) && e.q.parent == CtxRef(e.c)
      && e.q.Kid(cis) == e.p && e.p.parent == e.q && Arm(e.p, cis.Other(), e.b)
    }

    lemma LoweredWhole(e: Elbow, cis: Side)
      requires Whole(e.c, e.Low(cis))
      ensures Lowered(e, cis)
    {
      LowParts(e, cis);
      LowRep(e, cis);
    }

    lemma RaisedWhole(e: Elbow, cis: Side)
      requires Raised(e, cis)
      ensures Whole(e.c, e.High(cis))
    {
      HighParts(e, cis);
      HighRep(e, cis);
    }

    // `q` already hangs where `p` did.
    ghost predicate Loose(e: Elbow, cis: Side)
      reads this, nodes
    {
      && nodes == e.All() && e.Parts()
      && e.Fields(cis) && RepCtx(e.c, e.q, root) && e.q.parent == CtxRef(e.c)
      && Arm(e.q, cis, e.b)
    }

    method Promote(p: TreeNode, q: TreeNode, cis: Side, ghost e: Elbow)
      requires p == e.p && q == e.q && Lowered(e, cis)
      modifies this`root, nodes`left, nodes`right, nodes`parent
      ensures Loose(e, cis)
    {
      hide Rep, RepCtx, Uniq, CtxUniq, Nodes, CtxNodes;
      var par := p.parent;
      Relink(par, p, q, e.c);
      q.parent := par;
    }

    method Demote(p: TreeNode, q: TreeNode, cis: Side, ghost e: Elbow)
      requires p == e.p && q == e.q && Loose(e, cis)
      modifies nodes`left, nodes`right, nodes`parent
      ensures Raised(e, cis)
    {
      Turn(p, q, cis, e.a, e.b, e.d, nodes);
    }

    method Rotate(p: TreeNode, cis: Side, ghost e: Elbow)
      requires p == e.p && Whole(e.c, e.Low(cis))
      modifies this`root, nodes`left, nodes`right, nodes`parent
      ensures Whole(e.c, e.High(cis))
    {
      LoweredWhole(e, cis);
      var q := p.Kid(cis.Other());
      Promote(p, q, cis, e);
      Demote(p, q, cis, e);
      RaisedWhole(e, cis);
    }

    lemma PlugWhole(c: Ctx, t: Shape)
      ensures Whole(c, t) <==> Whole(Top, Plug(c, t))
      decreases c
    {
      hide Whole;
      if c.Up? {
        WholeUp(c.s, c.n, c.k, c.red, c.sib, c.up, t);
        PlugWhole(c.up, Mk(c.s, t, c.n, c.k, c.red, c.sib));
      }
    }

    // Sets the colour of the node in focus.
    method Paint(n: TreeNode, red: bool, ghost c: Ctx, ghost t: Shape)
      requires t.Node? && t.n == n && Whole(c, t)
      modifies n`red
      ensures Whole(c, t.(red := red))
    {
      n.red := red;
    }

    // What the focus lets us read.
    lemma Look(c: Ctx, t: Shape)
      requires Whole(c, t)
      ensures t.Node? ==> t.n in nodes && t.n.parent == CtxRef(c) && t.n.red == t.red && t.n.key == t.k
                          && t.n !in CtxNodes(c)
                          && t.n.left == Ref(t.l) && t.n.right == Ref(t.r)
      ensures c.Up? ==> c.n in nodes && c.n.parent == CtxRef(c.up) && c.n.red == c.red && c.n.key == c.k
                        && c.n.Kid(c.s) == Ref(t) && c.n.Kid(c.s.Other()) == Ref(c.sib)
                        && (t.Node? ==> Ref(c.sib) != t.n)
      ensures c.Up? && c.sib.Node? ==> c.sib.n in nodes && c.sib.n.red == c.sib.red
      ensures c.Top? ==> root == Ref(t)
      ensures c.Up? ==> root != Ref(t)
    {
      if t.Node? {
        RepRef(t.l, t.n.left);
        RepRef(t.r, t.n.right);
      }
      if c.Up? {
        RepRef(c.sib, c.n.Kid(c.s.Other()));
        NotRoot(c, t);
      }
    }

    lemma NotRoot(c: Ctx, t: Shape)
      requires c.Up? && RepCtx(c, Ref(t), root)
      ensures root != null && root in CtxNodes(c)
      decreases c
    {
      if c.up.Up? { NotRoot(c.up, Node(Leaf, c.n, 0, false, Leaf)); }
    }

    // The parent and the uncle turn black, the grandparent red.
    method Recolour(parent: TreeNode, uncle: TreeNode, grandparent: TreeNode, ghost c: Ctx, ghost t: Shape)
      requires Whole(c, t) && c.Up? && c.up.Up? && c.up.sib.Node?
      requires parent == c.n && grandparent == c.up.n && uncle == c.up.sib.n
      modifies parent`red, uncle`red, grandparent`red
      ensures Whole(c.up.up, Recoloured(c, t))
    {
      hide Whole;
      ghost var up := c.up;
      ghost var p := Mk(c.s, t, c.n, c.k, c.red, c.sib);
      ghost var p' := Mk(c.s, t, c.n, c.k, false, c.sib);
      ghost var u := up.sib.(red := false);
      WholeUp(c.s, c.n, c.k, c.red, c.sib, up, t);
      Paint(parent, false, up, p);
      WholeUp(up.s, up.n, up.k, up.red, up.sib, up.up, p');
      MkFlip(up.s, p', up.n, up.k, up.red, up.sib);
      WholeUp(up.s.Other(), up.n, up.k, up.red, p', up.up, up.sib);
      Paint(uncle, false, Up(up.s.Other(), up.n, up.k, up.red, p', up.up), up.sib);
      WholeUp(up.s.Other(), up.n, up.k, up.red, p', up.up, u);
      MkFlip(up.s, p', up.n, up.k, up.red, u);
      Paint(grandparent, true, up.up, Mk(up.s, p', up.n, up.k, up.red, u));
    }

    // Rotates the parent when the node is its inner kid.
    method Straighten(parent: TreeNode, cis: Side, ghost c: Ctx, ghost t: Shape)
      requires Whole(c, t) && Hot(c, t) && CtxRed(c) && c.up.Up? && c.s != c.up.s
      requires parent == c.n && cis == c.up.s
      modifies this`root, nodes`left, nodes`right, nodes`parent
      ensures var e := Bend(c, t);
              Whole(Up(cis, e.q, e.qk, e.qr, e.d, c.up), Mk(cis, e.a, e.p, e.pk, e.pr, e.b))
    {
      hide Whole;
      ghost var e := Bend(c, t);
      WholeUp(c.s, c.n, c.k, c.red, c.sib, c.up, t);
      BendHot(c, t);
      Rotate(parent, cis, e);
      WholeUp(cis, e.q, e.qk, e.qr, e.d, c.up, Mk(cis, e.a, e.p, e.pk, e.pr, e.b));
    }

    // Swaps the colours of parent and grandparent and rotates the grandparent.
    method Finish(parent: TreeNode, grandparent: TreeNode, cis: Side, ghost c: Ctx, ghost t: Shape)
      requires Whole(c, t) && c.Up? && c.up.Up? && c.s == c.up.s == cis
      requires parent == c.n && grandparent == c.up.n
      modifies this`root, nodes`left, nodes`right, nodes`parent, parent`red, grandparent`red
      ensures Whole(Folded(c, t), t)
    {
      hide Whole;
      ghost var up := c.up;
      ghost var p' := Mk(c.s, t, c.n, c.k, false, c.sib);
      WholeUp(c.s, c.n, c.k, c.red, c.sib, up, t);
      Paint(parent, false, up, Mk(c.s, t, c.n, c.k, c.red, c.sib));
      WholeUp(up.s, up.n, up.k, up.red, up.sib, up.up, p');
      Paint(grandparent, true, up.up, Mk(up.s, p', up.n, up.k, up.red, up.sib));
      FoldOrder(c, t);
      Rotate(grandparent, cis.Other(), Fold(c, t));
      ghost var f := Folded(c, t);
      MkFlip(cis, t, f.n, f.k, f.red, f.sib);
      WholeUp(f.s, f.n, f.k, f.red, f.sib, f.up, t);
    }

    // One turn of the loop of tree_add.
    method FixOnce(node: TreeNode, parent: TreeNode, ghost c: Ctx, ghost t: Shape)
      returns (node': TreeNode, ghost c': Ctx, ghost t': Shape)
      requires Whole(c, t) && Hot(c, t) && CtxRed(c) && t.n == node && c.n == parent
      modifies this`root, nodes`left, nodes`right, nodes`parent, nodes`red
      ensures Whole(c', t') && Hot(c', t') && t'.n == node' && Depth(c') < Depth(c)
      ensures Inorder(Plug(c', t')) == Inorder(Plug(c, t))
    {
      hide Whole;
      HotUp(c, t);
      Look(c, t);
      WholeUp(c.s, c.n, c.k, c.red, c.sib, c.up, t);
      Look(c.up, Mk(c.s, t, c.n, c.k, c.red, c.sib));
      var grandparent := parent.parent;
      var cis := if parent == grandparent.left then Left else Right;
      var uncle := grandparent.Kid(cis.Other());
      assert cis == c.up.s;
      if uncle != null && uncle.red {
        RecolouredHot(c, t);
        RecolouredOrder(c, t);
        Recolour(parent, uncle, grandparent, c, t);
        node', c', t' := grandparent, c.up.up, Recoloured(c, t);
      } else {
        node', c', t' := node, c, t;
        var parent' := parent;
        if node == parent.Kid(cis.Other()) {
          BendHot(c, t);
          Straighten(parent, cis, c, t);
          ghost var e := Bend(c, t);
          c', t' := Up(cis, e.q, e.qk, e.qr, e.d, c.up), Mk(cis, e.a, e.p, e.pk, e.pr, e.b);
          Look(c', t');
          node' := parent;
          parent' := node'.parent;
        }
        FoldHot(c', t');
        FoldOrder(c', t');
        Finish(parent', grandparent, cis, c', t');
        c' := Folded(c', t');
      }
    }

    ghost predicate Valid()
      reads this, nodes
    {
      && Whole(Top, shape) && Sorted(Inorder(shape))
      && Bal(shape) && NoRR(shape) && !IsRed(shape)
    }

    ghost predicate HasKey(key: nat)
      reads this, nodes
    {
      exists n | n in nodes :: n.key == key
    }

    lemma HasKeyShape(key: nat)
      requires Whole(Top, shape)
      ensures HasKey(key) <==> key in Inorder(shape)
    {
      RepKeys(shape, Ref(shape));
    }

    method TreeFind(key: nat) returns (node: TreeNode?)
      requires Valid()
      ensures node != null ==> node in nodes && node.key == key
      ensures node == null ==> !HasKey(key)
    {
      hide Whole;
      ghost var c, t := Top, shape;
      node := root;
      Look(c, t);
      while node != null
        invariant Whole(c, t) && Plug(c, t) == shape && node == Ref(t) && Between(c, key)
        decreases t
      {
        Look(c, t);
        Descend(c, t, key);
        if key < node.key {
          WholeUp(Left, t.n, t.k, t.red, t.r, c, t.l);
          node := node.left;
          c, t := Up(Left, t.n, t.k, t.red, t.r, c), t.l;
        } else if key > node.key {
          WholeUp(Right, t.n, t.k, t.red, t.l, c, t.r);
          node := node.right;
          c, t := Up(Right, t.n, t.k, t.red, t.l, c), t.r;
        } else {
          return node;
        }
      }
      InsertSorted(c, key);
      HasKeyShape(key);
    }

    // The descent of tree_add: either the key is there, or the empty link where it belongs.
    method FindSpot(key: nat) returns (dup: bool, parent: TreeNode?, side: Side, ghost c: Ctx)
      requires Valid()
      ensures dup ==> key in Inorder(shape)
      ensures !dup ==> Whole(c, Leaf) && Plug(c, Leaf) == shape && Between(c, key)
      ensures !dup ==> parent == CtxRef(c) && (c.Up? ==> side == c.s)
    {
      hide Whole;
      ghost var t := shape;
      c, dup, parent, side := Top, false, root, Left;
      Look(c, t);
      if parent == null { return; }
      while true
        invariant Whole(c, t) && Plug(c, t) == shape && t.Node? && parent == t.n && Between(c, key) && !dup
        decreases t
      {
        Look(c, t);
        Descend(c, t, key);
        if key < parent.key {
          WholeUp(Left, t.n, t.k, t.red, t.r, c, t.l);
          c, t := Up(Left, t.n, t.k, t.red, t.r, c), t.l;
          if parent.left != null { parent := parent.left; } else { side := Left; return; }
        } else if key > parent.key {
          WholeUp(Right, t.n, t.k, t.red, t.l, c, t.r);
          c, t := Up(Right, t.n, t.k, t.red, t.l, c), t.r;
          if parent.right != null { parent := parent.right; } else { side := Right; return; }
        } else {
          dup := true;
          return;
        }
      }
    }

    method Attach(node: TreeNode, key: nat, parent: TreeNode?, side: Side, ghost c: Ctx)
      requires Whole(c, Leaf) && node !in nodes && parent == CtxRef(c) && (c.Up? ==> side == c.s)
      modifies this`root, this`nodes, nodes`left, nodes`right, node
      ensures nodes == old(nodes) + {node}
      ensures Whole(c, Node(Leaf, node, key, true, Leaf)) && node.key == key
    {
      if parent != null {
        if side == Left { parent.left := node; } else { parent.right := node; }
      } else {
        root := node;
      }
      node.key := key;
      node.left, node.right := null, null;
      node.parent := parent;
      node.red := true;
      nodes := nodes + {node};
    }

    method TreeAdd(node: TreeNode, key: nat) returns (r: int)
      requires Valid() && node !in nodes
      modifies this, nodes`left, nodes`right, nodes`parent, nodes`red, node
      ensures Valid()
      ensures r == (if old(HasKey(key)) then -1 else 0)
      ensures r == 0 ==> nodes == old(nodes) + {node} && node.key == key
      ensures forall k :: HasKey(k) <==> old(HasKey(k)) || k == key
      ensures r == -1 ==> unchanged(this) && unchanged(nodes) && unchanged(node)
    {
      hide Whole;
      HasKeyShape(key);
      var dup, parent, side;
      ghost var c;
      dup, parent, side, c := FindSpot(key);
      if dup { return -1; }
      InsertSorted(c, key);
      ghost var t := Node(Leaf, node, key, true, Leaf);
      InorderPlug(c, t);
      assert Inorder(t) == [key];
      UnplugGood(c, Leaf);
      Attach(node, key, parent, side, c);
      FixInsert(node, parent, c, t);
      r := 0;
      forall k ensures HasKey(k) <==> old(HasKey(k)) || k == key {
        if old(HasKey(k)) {
          var n :| n in old(nodes) && old(n.key) == k;
          assert n in nodes && n.key == k;
        } else if k == key {
          assert node in nodes && node.key == k;
        }
      }
    }

    // Climbs while there is a red-red edge, then makes the root black.
    method FixInsert(node: TreeNode, par: TreeNode?, ghost c0: Ctx, ghost t0: Shape)
      requires Whole(c0, t0) && Hot(c0, t0) && node == t0.n && par == CtxRef(c0)
      requires Sorted(Inorder(Plug(c0, t0)))
      modifies this`root, this`shape, nodes`left, nodes`right, nodes`parent, nodes`red
      ensures Valid() && Inorder(shape) == Inorder(Plug(c0, t0))
    {
      hide Whole;
      var cur, parent := node, par;
      ghost var c, t := c0, t0;
      Look(c, t);
      while parent != null && parent.red
        invariant Whole(c, t) && Hot(c, t) && cur == t.n && parent == CtxRef(c)
        invariant Inorder(Plug(c, t)) == Inorder(Plug(c0, t0))
        decreases Depth(c)
      {
        Look(c, t);
        cur, c, t := FixOnce(cur, parent, c, t);
        Look(c, t);
        parent := cur.parent;
      }
      Look(c, t);
      PlugGood(c, t);
      PlugWhole(c, t);
      shape := Plug(c, t);
      PlugNode(c, t);
      Blacken();
    }

    method Blacken()
      requires Whole(Top, shape) && shape.Node? && Bal(shape) && NoRR(shape) && Sorted(Inorder(shape))
      modifies this`shape, nodes`red
      ensures Valid() && Inorder(shape) == old(Inorder(shape))
    {
      hide Whole;
      Look(Top, shape);
      Paint(root, false, Top, shape);
      shape := shape.(red := false);
    }

    // Moves the focus from one kid to the other.
    lemma Across(s: Side, a: Shape, n: TreeNode, k: nat, red: bool, b: Shape, up: Ctx)
      ensures Whole(Up(s, n, k, red, b, up), a) <==> Whole(Up(s.Other(), n, k, red, a, up), b)
    {
    }

    // Sets the colour of the sibling of the focus.
    method PaintSibling(sibling: TreeNode, red: bool, ghost c: Ctx, ghost x: Shape)
      requires Whole(c, x) && c.Up? && c.sib.Node? && sibling == c.sib.n
      modifies sibling`red
      ensures Whole(c.(sib := c.sib.(red := red)), x)
    {
      hide Whole;
      Across(c.s, x, c.n, c.k, c.red, c.sib, c.up);
      Paint(sibling, red, Up(c.s.Other(), c.n, c.k, c.red, x, c.up), c.sib);
      Across(c.s, x, c.n, c.k, c.red, c.sib.(red := red), c.up);
    }

    // Sets the colour of the parent of the focus.
    method PaintParent(parent: TreeNode, red: bool, ghost c: Ctx, ghost x: Shape)
      requires Whole(c, x) && c.Up? && parent == c.n
      modifies parent`red
      ensures Whole(c.(red := red), x)
    {
      hide Whole;
      WholeUp(c.s, c.n, c.k, c.red, c.sib, c.up, x);
      Paint(parent, red, c.up, Mk(c.s, x, c.n, c.k, c.red, c.sib));
      WholeUp(c.s, c.n, c.k, red, c.sib, c.up, x);
    }

    method RedSibling(parent: TreeNode, sibling: TreeNode, cis: Side, ghost c: Ctx, ghost x: Shape)
      requires Whole(c, x) && c.Up? && c.sib.Node? && parent == c.n && sibling == c.sib.n && cis == c.s
      modifies this`root, nodes`left, nodes`right, nodes`parent, parent`red, sibling`red
      ensures Whole(Leaned(c, x), x)
    {
      hide Whole;
      PaintSibling(sibling, false, c, x);
      ghost var c1 := c.(sib := c.sib.(red := false));
      PaintParent(parent, true, c1, x);
      LeanOrder(c, x);
      WholeUp(c.s, c.n, c.k, true, c1.sib, c.up, x);
      Rotate(parent, cis, Lean(c, x));
      ghost var l := Leaned(c, x);
      WholeUp(l.s, l.n, l.k, l.red, l.sib, l.up, x);
      WholeUp(l.up.s, l.up.n, l.up.k, l.up.red, l.up.sib, l.up.up, Mk(l.s, x, l.n, l.k, l.red, l.sib));
    }

    method InnerNephew(sibling: TreeNode, nephew: TreeNode, cis: Side, ghost c: Ctx, ghost x: Shape)
      requires Whole(c, x) && c.Up? && c.sib.Node? && sibling == c.sib.n && cis == c.s
      requires Near(cis, c.sib).Node? && nephew == Near(cis, c.sib).n
      modifies this`root, nodes`left, nodes`right, nodes`parent, nephew`red, sibling`red
      ensures Whole(Tucked(c, x), x)
    {
      hide Whole;
      ghost var near, far := Near(cis, c.sib), Far(cis, c.sib);
      ghost var side := Up(cis.Other(), c.n, c.k, c.red, x, c.up);
      Across(cis, x, c.n, c.k, c.red, c.sib, c.up);
      Opened(cis, c.sib);
      WholeUp(cis, c.sib.n, c.sib.k, c.sib.red, far, side, near);
      Paint(nephew, false, Up(cis, c.sib.n, c.sib.k, c.sib.red, far, side), near);
      WholeUp(cis, c.sib.n, c.sib.k, c.sib.red, far, side, near.(red := false));
      Paint(sibling, true, side, Mk(cis, near.(red := false), c.sib.n, c.sib.k, c.sib.red, far));
      TuckOrder(c, x);
      ghost var e := Tuck(c, x);
      Rotate(sibling, cis.Other(), e);
      Across(cis, x, c.n, c.k, c.red, e.High(cis.Other()), c.up);
    }

    method OuterNephew(parent: TreeNode, sibling: TreeNode, nephew: TreeNode, cis: Side, ghost c: Ctx, ghost x: Shape)
      requires Whole(c, x) && c.Up? && c.sib.Node? && parent == c.n && sibling == c.sib.n && cis == c.s
      requires Far(cis, c.sib).Node? && nephew == Far(cis, c.sib).n
      modifies this`root, nodes`left, nodes`right, nodes`parent, parent`red, sibling`red, nephew`red
      ensures Whole(c.up, Settle(c, x).High(cis))
    {
      hide Whole;
      ghost var near, far := Near(cis, c.sib), Far(cis, c.sib);
      ghost var o := cis.Other();
      Look(c, x);
      PaintSibling(sibling, parent.red, c, x);
      ghost var sib := c.sib.(red := c.red);
      ghost var c1 := c.(sib := sib);
      PaintParent(parent, false, c1, x);
      ghost var side := Up(o, c.n, c.k, false, x, c.up);
      Across(cis, x, c.n, c.k, false, sib, c.up);
      Opened(o, sib);
      WholeUp(o, sib.n, sib.k, sib.red, near, side, far);
      Paint(nephew, false, Up(o, sib.n, sib.k, sib.red, near, side), far);
      WholeUp(o, sib.n, sib.k, sib.red, near, side, far.(red := false));
      MkFlip(o, far.(red := false), sib.n, sib.k, sib.red, near);
      ghost var sib' := Mk(cis, near, sib.n, sib.k, sib.red, far.(red := false));
      Across(cis, x, c.n, c.k, false, sib', c.up);
      WholeUp(cis, c.n, c.k, false, sib', c.up, x);
      SettleOrder(c, x);
      Rotate(parent, cis, Settle(c, x));
    }

    // One turn of the loop of tree_del, below the root.
    method RemoveOnce(node: TreeNode?, parent: TreeNode, ghost c0: Ctx, ghost x: Shape)
      returns (more: bool, node': TreeNode?, ghost c': Ctx, ghost x': Shape)
      requires Whole(c0, x) && Short(c0, x) && c0.Up? && node == Ref(x) && parent == c0.n
      modifies this`root, nodes`left, nodes`right, nodes`parent, nodes`red
      ensures Whole(c', x') && node' == Ref(x')
      ensures Inorder(Plug(c', x')) == Inorder(Plug(c0, x))
      ensures more ==> Short(c', x') && x'.Node? && Depth(c') < Depth(c0)
      ensures !more ==> Ending(c', x')
    {
      hide Whole;
      ghost var c := c0;
      Look(c, x);
      ShortSib(c, x);
      var cis := if node == parent.left then Left else Right;
      var trans := cis.Other();
      var sibling := parent.Kid(trans);
      assert cis == c.s;
      if sibling.red {
        LeanShort(c, x);
        LeanOrder(c, x);
        RedSibling(parent, sibling, cis, c, x);
        c := Leaned(c, x);
        Look(c, x);
        ShortSib(c, x);
        sibling := parent.Kid(trans);
      }
      LookNephews(c, x);
      if (sibling.left != null && sibling.left.red) || (sibling.right != null && sibling.right.red) {
        x' := RedNephew(parent, sibling, cis, c, x);
        more, c' := false, Top;
        Look(c', x');
        node' := root;
        return;
      }
      PaintSibling(sibling, true, c, x);
      PassedShort(c, x);
      WholeUp(c.s, c.n, c.k, c.red, c.sib.(red := true), c.up, x);
      c', x' := c.up, Passed(c, x);
      Look(c', x');
      node' := parent;
      more := !node'.red;
    }

    // The sibling is black and has a red kid: one or two rotations make the tree sound.
    method RedNephew(parent: TreeNode, sib: TreeNode, cis: Side, ghost c0: Ctx, ghost x: Shape)
      returns (ghost t: Shape)
      requires Whole(c0, x) && Short(c0, x) && c0.Up? && c0.sib.Node? && !c0.sib.red
      requires IsRed(c0.sib.l) || IsRed(c0.sib.r)
      requires parent == c0.n && sib == c0.sib.n && cis == c0.s
      modifies this`root, nodes`left, nodes`right, nodes`parent, nodes`red
      ensures Whole(Top, t) && Sound(Top, t) && t.Node? && Inorder(t) == Inorder(Plug(c0, x))
    {
      hide Whole;
      ghost var c := c0;
      var sibling, trans := sib, cis.Other();
      Look(c, x);
      LookNephews(c, x);
      if sibling.Kid(trans) == null || !sibling.Kid(trans).red {
        TuckShort(c, x);
        TuckOrder(c, x);
        InnerNephew(sibling, sibling.Kid(cis), cis, c, x);
        c := Tucked(c, x);
        Look(c, x);
        LookNephews(c, x);
        sibling := parent.Kid(trans);
      }
      Look(c, x);
      SettleGood(c, x);
      SettleOrder(c, x);
      OuterNephew(parent, sibling, sibling.Kid(trans), cis, c, x);
      t := Settle(c, x).High(cis);
      PlugWhole(c.up, t);
      SoundPlug(c.up, t);
      PlugNode(c.up, t);
      t := Plug(c.up, t);
    }

    lemma LookNephews(c: Ctx, x: Shape)
      requires Whole(c, x) && c.Up? && c.sib.Node?
      ensures var n := c.sib.n;
        && n.left == Ref(c.sib.l) && n.right == Ref(c.sib.r)
        && (c.sib.l.Node? ==> c.sib.l.n in nodes && c.sib.l.n.red == c.sib.l.red)
        && (c.sib.r.Node? ==> c.sib.r.n in nodes && c.sib.r.n.red == c.sib.r.red)
    {
      RepRef(c.sib.l, c.sib.n.left);
      RepRef(c.sib.r, c.sib.n.right);
    }

    // Unlinks a node with at most one kid.
    method TakeOut(z: TreeNode, parent: TreeNode?, next: TreeNode?, ghost c: Ctx, ghost t: Shape, ghost x: Shape)
      requires Whole(c, t) && t.Node? && t.n == z && ((t.l == Leaf && t.r == x) || (t.r == Leaf && t.l == x))
      requires parent == z.parent && next == Ref(x)
      modifies this`root, this`nodes, nodes`left, nodes`right, nodes`parent
      ensures Whole(c, x) && nodes == old(nodes) - {z}
    {
      RepRef(t.l, z.left);
      RepRef(t.r, z.right);
      assert Rep(x, next) && Uniq(x) && z !in Nodes(x) && Nodes(t) == Nodes(x) + {z};
      hide Rep, RepCtx, Uniq, CtxUniq, Nodes, CtxNodes;
      Relink(parent, z, next, c);
      assert Rep(x, next);
      Hook(next, parent, x);
      assert RepCtx(c, next, root);
      nodes := nodes - {z};
      assert nodes == CtxNodes(c) + Nodes(x);
    }

    static method Hook(next: TreeNode?, parent: TreeNode?, ghost x: Shape)
      requires Rep(x, next) && Uniq(x)
      modifies Nodes(x)`parent
      ensures Rep(x, next) && (x.Node? ==> x.n.parent == parent)
    {
      RepRef(x, next);
      if next != null { next.parent := parent; }
    }

    // `y`, a node outside the tree, takes the place and the colour of `z`.
    method Substitute(z: TreeNode, y: TreeNode, ghost c: Ctx, ghost t: Shape)
      requires Whole(c, t) && t.Node? && t.n == z && y !in nodes
      modifies this`root, this`nodes, nodes`left, nodes`right, nodes`parent, y`left, y`right, y`parent, y`red
      ensures Whole(c, t.(n := y, k := y.key)) && nodes == old(nodes) - {z} + {y}
    {
      hide Whole;
      TakePlace(z, y, c, t);
      TakeKids(z, y, t.l, t.r, nodes);
      Placed(z, y, c, t);
    }

    // `y` already hangs where `z` did; the kids still hang on `z`.
    ghost predicate Ready(z: TreeNode, y: TreeNode, c: Ctx, t: Shape)
      reads this`root, this`nodes, nodes, y
    {
      && t.Node? && t.n == z && y !in nodes && nodes == CtxNodes(c) + Nodes(t)
      && Uniq(t) && CtxUniq(c) && Nodes(t) !! CtxNodes(c)
      && RepCtx(c, y, root) && y.parent == CtxRef(c) && y.red == t.red
    }

    method TakePlace(z: TreeNode, y: TreeNode, ghost c: Ctx, ghost t: Shape)
      requires Whole(c, t) && t.Node? && t.n == z && y !in nodes
      modifies this`root, nodes`left, nodes`right, y`parent, y`red
      ensures Ready(z, y, c, t) && Rep(t.l, z.left) && Rep(t.r, z.right)
    {
      Relink(z.parent, z, y, c);
      y.red := z.red;
      y.parent := z.parent;
    }

    ghost method Placed(z: TreeNode, y: TreeNode, c: Ctx, t: Shape)
      requires Ready(z, y, c, t) && Arm(y, Left, t.l) && Arm(y, Right, t.r)
      modifies this`nodes
      ensures Whole(c, t.(n := y, k := y.key)) && nodes == old(nodes) - {z} + {y}
    {
      nodes := nodes - {z} + {y};
    }

    static method TakeKids(z: TreeNode, y: TreeNode, ghost l: Shape, ghost r: Shape, ghost all: set<TreeNode>)
      requires Rep(l, z.left) && Rep(r, z.right) && Nodes(l) !! Nodes(r) && Uniq(l) && Uniq(r)
      requires y !in Nodes(l) && y !in Nodes(r) && y != z && z !in Nodes(l) && z !in Nodes(r)
      requires Nodes(l) <= all && Nodes(r) <= all
      modifies y`left, y`right, Nodes(l)`parent, Nodes(r)`parent
      ensures Arm(y, Left, l) && Arm(y, Right, r)
    {
      Hang(y, Left, z.left, l);
      assert Rep(r, z.right) && Rep(l, y.left);
      Hang(y, Right, z.right, r);
      assert Rep(l, y.left);
    }

    // The end of tree_del once the node is unlinked: `node` hangs where a node of colour `red` left.
    method Rebalance(node0: TreeNode?, parent0: TreeNode?, red: bool, ghost c0: Ctx, ghost x0: Shape)
      requires Whole(c0, x0) && node0 == Ref(x0) && parent0 == CtxRef(c0) && Sorted(Inorder(Plug(c0, x0)))
      requires red ==> Sound(c0, x0)
      requires !red && IsRed(x0) ==> Sound(c0, x0.(red := false))
      requires !red && !IsRed(x0) ==> Short(c0, x0)
      modifies this`root, this`shape, nodes`left, nodes`right, nodes`parent, nodes`red
      ensures Valid() && Inorder(shape) == Inorder(Plug(c0, x0))
    {
      hide Whole;
      var node, parent := node0, parent0;
      ghost var c, x := c0, x0;
      Look(c, x);
      if red {
        Record(c, x);
        return;
      }
      if node != null && node.red {
        BlackenFocus(node, c, x);
        return;
      }
      while true
        invariant Whole(c, x) && Short(c, x) && node == Ref(x) && parent == CtxRef(c)
        invariant Inorder(Plug(c, x)) == Inorder(Plug(c0, x0))
        decreases Depth(c)
      {
        Look(c, x);
        if node == root { break; }
        var more;
        more, node, c, x := RemoveOnce(node, parent, c, x);
        Look(c, x);
        if !more { break; }
        parent := node.parent;
      }
      Look(c, x);
      if node != null { BlackenFocus(node, c, x); } else { Record(c, x); }
    }

    // Notes the finished tree.
    ghost method Record(c: Ctx, x: Shape)
      requires Whole(c, x) && Sound(c, x) && Sorted(Inorder(Plug(c, x)))
      modifies this`shape
      ensures Valid() && Inorder(shape) == Inorder(Plug(c, x))
    {
      hide Whole;
      PlugWhole(c, x);
      SoundPlug(c, x);
      shape := Plug(c, x);
    }

    method BlackenFocus(node: TreeNode, ghost c: Ctx, ghost x: Shape)
      requires Whole(c, x) && x.Node? && x.n == node && Sound(c, x.(red := false)) && Sorted(Inorder(Plug(c, x)))
      modifies this`shape, node`red
      ensures Valid() && Inorder(shape) == Inorder(Plug(c, x))
    {
      hide Whole;
      Paint(node, false, c, x);
      SameOrder(c, x, x.(red := false));
      Record(c, x.(red := false));
    }

    // The leftmost node below `right`, seen along the spine.
    method Leftmost(right: TreeNode, ghost base: Ctx, ghost t0: Shape)
      returns (next: TreeNode, ghost cs: Ctx, ghost d: nat, ghost t: Shape)
      requires Whole(base, t0) && t0.Node? && right == t0.n
      ensures Whole(cs, t) && Spine(cs, d, base) && Plug(cs, t) == Plug(base, t0)
      ensures t.Node? && t.l == Leaf && next == t.n && (next == right <==> d == 0)
    {
      hide Whole;
      next := right;
      cs, d, t := base, 0, t0;
      Look(cs, t);
      while next.left != null
        invariant Whole(cs, t) && Spine(cs, d, base) && Plug(cs, t) == Plug(base, t0) && t.Node? && next == t.n
        invariant next.left == Ref(t.l)
        invariant if d == 0 then next == right else right in CtxNodes(cs)
        decreases t
      {
        WholeUp(Left, t.n, t.k, t.red, t.r, cs, t.l);
        next := next.left;
        cs, d, t := Up(Left, t.n, t.k, t.red, t.r, cs), d + 1, t.l;
        Look(cs, t);
      }
      Look(cs, t);
    }

    method TreeDel(node: TreeNode)
      requires Valid() && node in nodes
      modifies this, nodes`left, nodes`right, nodes`parent, nodes`red
      ensures Valid() && nodes == old(nodes) - {node}
      ensures forall k :: HasKey(k) <==> old(HasKey(k)) && k != node.key
    {
      hide Whole;
      ghost var c, t := FocusWhole(node);
      Look(c, t);
      var left, right := node.left, node.right;
      if left == null || right == null {
        DelSingle(node, c, t);
      } else {
        DelDouble(node, c, t);
      }
      HasKeyShape(node.key);
      forall k ensures HasKey(k) <==> old(HasKey(k)) && k != node.key {
        if old(HasKey(k)) && k != node.key {
          var n :| n in old(nodes) && old(n.key) == k;
          assert n in nodes && n.key == k;
        }
      }
    }

    lemma FocusWhole(node: TreeNode) returns (c: Ctx, t: Shape)
      requires Whole(Top, shape) && Sound(Top, shape) && node in nodes
      ensures Whole(c, t) && Plug(c, t) == shape && t.Node? && t.n == node && Sound(c, t)
    {
      c, t := Focus(Top, shape, node);
      hide Whole;
      PlugWhole(c, t);
      SoundPlug(c, t);
    }

    method DelSingle(node: TreeNode, ghost c: Ctx, ghost t: Shape)
      requires Whole(c, t) && Sound(c, t) && t.Node? && t.n == node && (t.l == Leaf || t.r == Leaf)
      requires Sorted(Inorder(Plug(c, t)))
      modifies this, nodes`left, nodes`right, nodes`parent, nodes`red
      ensures Valid() && nodes == old(nodes) - {node} && t.k !in Inorder(shape)
    {
      hide Whole;
      Look(c, t);
      var next := if node.left == null then node.right else node.left;
      ghost var x := if t.l == Leaf then t.r else t.l;
      Removed(c, t, x);
      SingleOrder(c, t, x);
      var parent := node.parent;
      var red := node.red;
      TakeOut(node, parent, next, c, t, x);
      Rebalance(next, parent, red, c, x);
    }

    method DelDouble(node: TreeNode, ghost c: Ctx, ghost t: Shape)
      requires Whole(c, t) && Sound(c, t) && t.Node? && t.n == node && t.l.Node? && t.r.Node?
      requires Sorted(Inorder(Plug(c, t)))
      modifies this, nodes`left, nodes`right, nodes`parent, nodes`red
      ensures Valid() && nodes == old(nodes) - {node} && t.k !in Inorder(shape)
    {
      hide Whole, Inorder, Sorted, Bal, NoRR, Graft, Short, SpineTree;
      Look(c, t);
      ghost var base := Up(Right, node, t.k, t.red, t.l, c);
      WholeUp(Right, node, t.k, t.red, t.l, c, t.r);
      var next;
      ghost var cs, d, y;
      var right := node.right;
      next, cs, d, y := Leftmost(right, base, t.r);
      SoundPlug(c, t);
      SoundPlug(cs, y);
      Look(cs, y);
      var red := next.red;
      var parent, kid := next.parent, next.right;
      GraftRemoved(cs, d, base, y);
      TakeOut(next, parent, kid, cs, y, y.r);
      SwapIn(node, next, cs, d, base, y.r);
      Rebalance(kid, if next == right then next else parent, red, Graft(cs, d, base, next, next.key), y.r);
    }

    // `next`, taken out below `node`, takes the place of `node`.
    method SwapIn(node: TreeNode, next: TreeNode, ghost cs: Ctx, ghost d: nat, ghost base: Ctx, ghost x: Shape)
      requires Whole(cs, x) && base.Up? && base.s == Right && base.n == node && Spine(cs, d, base) && next !in nodes
      modifies this`root, this`nodes, nodes`left, nodes`right, nodes`parent
      modifies next`left, next`right, next`parent, next`red
      ensures Whole(Graft(cs, d, base, next, next.key), x) && nodes == old(nodes) - {node} + {next}
    {
      hide Whole;
      GraftPlug(cs, d, base, next, next.key, x);
      ghost var t := Node(base.sib, node, base.k, base.red, SpineTree(cs, d, x, base));
      PlugWhole(cs, x);
      PlugWhole(base.up, t);
      Substitute(node, next, base.up, t);
      PlugWhole(base.up, t.(n := next, k := next.key));
      PlugWhole(Graft(cs, d, base, next, next.key), x);
    }
  }

  lemma LowParts(e: Elbow, cis: Side)
    ensures Nodes(e.Low(cis)) + CtxNodes(e.c) == e.All()
    ensures Uniq(e.Low(cis)) && CtxUniq(e.c) && Nodes(e.Low(cis)) !! CtxNodes(e.c) <==> e.Parts()
  {
  }

  lemma HighParts(e: Elbow, cis: Side)
    ensures Nodes(e.High(cis)) + CtxNodes(e.c) == e.All()
    ensures Uniq(e.High(cis)) && CtxUniq(e.c) && Nodes(e.High(cis)) !! CtxNodes(e.c) <==> e.Parts()
  {
  }

  lemma LowRep(e: Elbow, cis: Side)
    requires Rep(e.Low(cis), e.p)
    ensures e.Fields(cis) && e.p.Kid(cis.Other()) == e.q && e.q.parent == e.p && Arm(e.q, cis, e.b)
  {
  }

  lemma HighRep(e: Elbow, cis: Side)
    requires e.Fields(cis) && e.q.Kid(cis) == e.p && e.p.parent == e.q && Arm(e.p, cis.Other(), e.b)
    ensures Rep(e.High(cis), e.q)
  {
  }
}
