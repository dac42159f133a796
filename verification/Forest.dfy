/** Parent relations as finite maps from child to parent, and the walk that the asset
    service takes up the chain of parents before it attaches a component. */
module Forest {
  import opened Prelude

  type Parents = map<string, string>

  /** The asset `n` steps up from `a`, if the chain of parents is that long. */
  function Up(p: Parents, a: string, n: nat): Option<string>
    decreases n
  {
    if n == 0 then Some(a) else if a in p then Up(p, p[a], n - 1) else None
  }

  ghost predicate ProperAncestor(p: Parents, anc: string, a: string) {
    exists n: nat :: n > 0 && Up(p, a, n) == Some(anc)
  }

  /** The chain of parents of `a` never ends. */
  ghost predicate Endless(p: Parents, a: string) {
    forall n: nat :: Up(p, a, n).Some?
  }

  ghost predicate Acyclic(p: Parents) {
    forall a: string, n: nat :: n > 0 ==> Up(p, a, n) != Some(a)
  }

  lemma {:induction false} UpAdds(p: Parents, a: string, m: nat, n: nat)
    requires Up(p, a, m).Some?
    ensures Up(p, a, m + n) == Up(p, Up(p, a, m).value, n)
    decreases m
  {
    if m > 0 {
      UpAdds(p, p[a], m - 1, n);
    }
  }

  lemma {:induction false} UpShorter(p: Parents, a: string, m: nat, n: nat)
    requires m <= n && Up(p, a, n).Some?
    ensures Up(p, a, m).Some?
    decreases m
  {
    if m > 0 {
      UpShorter(p, p[a], m - 1, n - 1);
    }
  }

  // ------------------------------------------------------------------- the walk

  /** Clear: reached a root without meeting the component. Closes: the component is above.
      Cyclic: the chain of parents came back to an asset already visited. */
  datatype Walk = Clear | Closes | Cyclic

  function WalkFrom(p: Parents, at: string, component: string, visited: set<string>): Walk
    decreases |p.Keys - visited|
  {
    if at !in p then Clear
    else if at in visited then Cyclic
    else if p[at] == component then Closes
    else
      assert p.Keys - (visited + {at}) == (p.Keys - visited) - {at};
      WalkFrom(p, p[at], component, visited + {at})
  }

  /** What the walk has established when it stands at `at`. */
  predicate Trail(p: Parents, at: string, component: string, visited: set<string>) {
    forall v :: v in visited ==> v in p && p[v] != component && (p[v] in visited || p[v] == at)
  }

  /** A closed trail never leaves its assets and never meets the component. */
  lemma {:induction false} TrappedOnTrail(p: Parents, at: string, component: string, visited: set<string>, n: nat)
    requires Trail(p, at, component, visited) && at in visited
    ensures Up(p, at, n).Some? && Up(p, at, n).value in visited && (n > 0 ==> Up(p, at, n).value != component)
    decreases n
  {
    if n > 0 {
      TrappedOnTrail(p, at, component, visited, n - 1);
      var b := Up(p, at, n - 1).value;
      UpAdds(p, at, n - 1, 1);
      assert Up(p, b, 1) == Some(p[b]);
    }
  }

  lemma AncestorStep(p: Parents, anc: string, a: string)
    requires a in p
    ensures ProperAncestor(p, anc, a) <==> p[a] == anc || ProperAncestor(p, anc, p[a])
  {
    if ProperAncestor(p, anc, a) {
      var n: nat :| n > 0 && Up(p, a, n) == Some(anc);
      assert Up(p, p[a], n - 1) == Some(anc);
      assert n == 1 ==> p[a] == anc;
    }
    if p[a] == anc {
      assert Up(p, a, 1) == Some(anc);
    } else if ProperAncestor(p, anc, p[a]) {
      var n: nat :| n > 0 && Up(p, p[a], n) == Some(anc);
      assert Up(p, a, n + 1) == Some(anc);
    }
  }

  lemma {:induction false} WalkDecides(p: Parents, at: string, component: string, visited: set<string>)
    requires Trail(p, at, component, visited)
    ensures var w := WalkFrom(p, at, component, visited);
            && (w == Closes <==> ProperAncestor(p, component, at))
            && (w == Cyclic <==> !ProperAncestor(p, component, at) && Endless(p, at))
    decreases |p.Keys - visited|
  {
    if at !in p {
      assert Up(p, at, 1) == None;
      forall n: nat | n > 0 ensures Up(p, at, n) == None {}
    } else if at in visited {
      forall n: nat ensures Up(p, at, n).Some? && (n > 0 ==> Up(p, at, n).value != component) {
        TrappedOnTrail(p, at, component, visited, n);
      }
    } else {
      AncestorStep(p, component, at);
      if p[at] != component {
        assert p.Keys - (visited + {at}) == (p.Keys - visited) - {at};
        WalkDecides(p, p[at], component, visited + {at});
        EndlessStep(p, at);
      }
    }
  }

  lemma EndlessStep(p: Parents, at: string)
    requires at in p
    ensures Endless(p, at) <==> Endless(p, p[at])
  {
    if Endless(p, p[at]) {
      forall n: nat ensures Up(p, at, n).Some? {
        if n > 0 { assert Up(p, p[at], n - 1).Some?; }
      }
    }
    if Endless(p, at) {
      forall n: nat ensures Up(p, p[at], n).Some? {
        assert Up(p, at, n + 1).Some? && Up(p, at, n + 1) == Up(p, p[at], n);
      }
    }
  }

  /** On any finite parent relation, cyclic ones included, the walk stops; it answers
      Closes exactly when the component is a proper ancestor, and Cyclic exactly when it is
      not and the chain of parents never ends. */
  lemma WalkExact(p: Parents, at: string, component: string)
    ensures var w := WalkFrom(p, at, component, {});
            && (w == Closes <==> ProperAncestor(p, component, at))
            && (w == Cyclic <==> !ProperAncestor(p, component, at) && Endless(p, at))
  {
    WalkDecides(p, at, component, {});
  }

  /** A chain of parents that is longer than the relation is large comes back to itself. */
  lemma {:induction false} LongChainCycles(p: Parents, at: string, visited: set<string>) returns (a: string, n: nat)
    requires Endless(p, at)
    requires visited <= p.Keys
    requires forall v :: v in visited ==> ProperAncestor(p, at, v)
    ensures n > 0 && Up(p, a, n) == Some(a)
    decreases |p.Keys - visited|
  {
    if at in visited {
      n :| n > 0 && Up(p, at, n) == Some(at);
      a := at;
    } else {
      assert Up(p, at, 1).Some?;
      var next := p[at];
      forall v | v in visited + {at} ensures ProperAncestor(p, next, v) {
        if v == at {
          assert Up(p, at, 1) == Some(next);
        } else {
          var k: nat :| k > 0 && Up(p, v, k) == Some(at);
          UpAdds(p, v, k, 1);
          assert Up(p, at, 1) == Some(next);
          assert Up(p, v, k + 1) == Some(next);
        }
      }
      EndlessStep(p, at);
      assert p.Keys - (visited + {at}) == (p.Keys - visited) - {at};
      a, n := LongChainCycles(p, next, visited + {at});
    }
  }

  /** On a forest the walk never reports a cycle in the existing relation. */
  lemma WalkOnForest(p: Parents, at: string, component: string)
    requires Acyclic(p)
    ensures WalkFrom(p, at, component, {}) == if ProperAncestor(p, component, at) then Closes else Clear
  {
    WalkExact(p, at, component);
    if Endless(p, at) {
      var a, n := LongChainCycles(p, at, {});
    }
  }

  // ----------------------------------------------------------------- adding edges

  lemma {:induction false} UpGrows(p: Parents, p': Parents, a: string, n: nat)
    requires forall x :: x in p ==> x in p' && p'[x] == p[x]
    requires Up(p, a, n).Some?
    ensures Up(p', a, n) == Up(p, a, n)
    decreases n
  {
    if n > 0 {
      UpGrows(p, p', p[a], n - 1);
    }
  }

  lemma {:induction false} FirstMeeting(p: Parents, c: string, parent: string, x: string, n: nat)
    requires c !in p && Up(p[c := parent], x, n) == Some(c)
    ensures x == c || ProperAncestor(p, c, x)
    decreases n
  {
    if x != c {
      FirstMeeting(p, c, parent, p[x], n - 1);
      AncestorStep(p, c, x);
    }
  }

  lemma {:induction false} PathOrMeeting(p: Parents, c: string, parent: string, x: string, n: nat) returns (j: nat)
    requires c !in p && Up(p[c := parent], x, n).Some?
    ensures j <= n && (j < n ==> Up(p[c := parent], x, j) == Some(c)) && (j == n ==> Up(p, x, n) == Up(p[c := parent], x, n))
    decreases n
  {
    if n == 0 || x == c {
      j := 0;
    } else {
      var k := PathOrMeeting(p, c, parent, p[x], n - 1);
      j := k + 1;
    }
  }

  /** Adding an edge to a root keeps the relation a forest exactly when the new parent is
      neither the component itself nor below it. */
  lemma EdgeKeepsForest(p: Parents, c: string, parent: string)
    requires Acyclic(p) && c !in p
    ensures Acyclic(p[c := parent]) <==> parent != c && !ProperAncestor(p, c, parent)
  {
    var p' := p[c := parent];
    if parent == c {
      assert Up(p', c, 1) == Some(c);
    } else if ProperAncestor(p, c, parent) {
      var n: nat :| n > 0 && Up(p, parent, n) == Some(c);
      UpGrows(p, p', parent, n);
      assert Up(p', c, n + 1) == Some(c);
    } else {
      forall a: string, n: nat | n > 0 ensures Up(p', a, n) != Some(a) {
        if Up(p', a, n) == Some(a) {
          var j := PathOrMeeting(p, c, parent, a, n);
          if j < n {
            UpAdds(p', a, j, n - j);
            UpAdds(p', c, n - j, j);
            assert Up(p', c, n) == Some(c);
            FirstMeeting(p, c, parent, parent, n - 1);
          }
        }
      }
    }
  }

  lemma SubForest(p: Parents, p': Parents)
    requires Acyclic(p') && forall x :: x in p ==> x in p' && p'[x] == p[x]
    ensures Acyclic(p)
  {
    forall a: string, n: nat | n > 0 ensures Up(p, a, n) != Some(a) {
      if Up(p, a, n) == Some(a) { UpGrows(p, p', a, n); }
    }
  }

  /** An asset nobody has as a parent is nobody's ancestor. */
  lemma {:induction false} LeafNotUp(p: Parents, leaf: string, a: string, n: nat)
    requires (forall x :: x in p ==> p[x] != leaf) && n > 0
    ensures Up(p, a, n) != Some(leaf)
    decreases n
  {
    if a in p {
      if n > 1 { LeafNotUp(p, leaf, p[a], n - 1); }
      assert Up(p, a, n) == Up(p, p[a], n - 1);
    }
  }

  lemma LeafIsNoAncestor(p: Parents, leaf: string, a: string)
    requires forall x :: x in p ==> p[x] != leaf
    ensures !ProperAncestor(p, leaf, a)
  {
    forall n: nat | n > 0 ensures Up(p, a, n) != Some(leaf) { LeafNotUp(p, leaf, a, n); }
  }
}
