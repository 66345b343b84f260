/** Parent maps, their chains, and what creating, moving and trashing folders does to them. */
module Forest {
  import opened Wrappers
  import opened SetFacts

  /** Folder id to parent id; an id outside the map ends every chain. */
  type Parents = map<string, Option<string>>

  /** The `n`-th folder above `id`, if the chain is that long. */
  function Up(p: Parents, id: string, n: nat): Option<string>
    decreases n
  {
    if n == 0 then Some(id)
    else if id !in p || p[id].None? then None
    else Up(p, p[id].value, n - 1)
  }

  /** `a` lies on the parent chain that starts at `id`, `id` included. */
  ghost predicate OnChain(p: Parents, a: string, id: string) {
    exists n: nat :: Up(p, id, n) == Some(a)
  }

  ghost predicate ProperlyAbove(p: Parents, a: string, id: string) {
    exists n: nat :: n > 0 && Up(p, id, n) == Some(a)
  }

  /** No folder is above itself. */
  ghost predicate Acyclic(p: Parents) {
    forall id :: id in p ==> !ProperlyAbove(p, id, id)
  }

  // ----- chains --------------------------------------------------------------------------------

  lemma {:induction false} UpAdd(p: Parents, id: string, m: nat, n: nat)
    requires Up(p, id, m).Some?
    ensures Up(p, id, m + n) == Up(p, Up(p, id, m).value, n)
    decreases m
  {
    if m > 0 {
      UpAdd(p, p[id].value, m - 1, n);
    }
  }

  lemma OnChainStep(p: Parents, a: string, id: string)
    ensures OnChain(p, a, id) <==> a == id || (id in p && p[id].Some? && OnChain(p, a, p[id].value))
  {
    if a == id {
      assert Up(p, id, 0) == Some(a);
    }
    if OnChain(p, a, id) && a != id {
      var n: nat :| Up(p, id, n) == Some(a);
      assert Up(p, p[id].value, n - 1) == Some(a);
    }
    if id in p && p[id].Some? && OnChain(p, a, p[id].value) {
      var n: nat :| Up(p, p[id].value, n) == Some(a);
      assert Up(p, id, n + 1) == Some(a);
    }
  }

  lemma ProperlyAboveStep(p: Parents, a: string, id: string)
    ensures ProperlyAbove(p, a, id) <==> id in p && p[id].Some? && OnChain(p, a, p[id].value)
  {
    if ProperlyAbove(p, a, id) {
      var n: nat :| n > 0 && Up(p, id, n) == Some(a);
      assert Up(p, p[id].value, n - 1) == Some(a);
    }
    if id in p && p[id].Some? && OnChain(p, a, p[id].value) {
      var n: nat :| Up(p, p[id].value, n) == Some(a);
      assert Up(p, id, n + 1) == Some(a);
    }
  }

  // ----- heights: the termination measure ------------------------------------------------------

  /** The folders of the map above `id`. */
  ghost function Above(p: Parents, id: string): set<string> {
    set a | a in p && ProperlyAbove(p, a, id)
  }

  ghost function Height(p: Parents, id: string): nat {
    |Above(p, id)|
  }

  /** A step up to a folder that is not above itself strictly lowers the number of folders above. */
  lemma ParentLower(p: Parents, id: string)
    requires id in p && p[id].Some? && p[id].value in p && !ProperlyAbove(p, p[id].value, p[id].value)
    ensures Height(p, p[id].value) < Height(p, id)
  {
    var q := p[id].value;
    forall a | a in Above(p, q) ensures a in Above(p, id) {
      ProperlyAboveStep(p, a, q);
      OnChainStep(p, a, q);
      ProperlyAboveStep(p, a, id);
    }
    assert q in Above(p, id) by {
      OnChainStep(p, q, q);
      ProperlyAboveStep(p, q, id);
    }
    assert q !in Above(p, q);
    SubsetAtMost(Above(p, q), Above(p, id));
  }

  // ----- re-parenting --------------------------------------------------------------------------

  lemma {:induction false} UpAvoids(p: Parents, f: string, np: Option<string>, id: string, n: nat)
    requires forall m: nat :: m < n ==> Up(p, id, m) != Some(f)
    ensures Up(p[f := np], id, n) == Up(p, id, n)
    decreases n
  {
    if n > 0 && id in p && p[id].Some? {
      assert Up(p, id, 0) == Some(id);
      forall m: nat | m < n - 1 ensures Up(p, p[id].value, m) != Some(f) {
        assert Up(p, id, m + 1) == Up(p, p[id].value, m);
      }
      UpAvoids(p, f, np, p[id].value, n - 1);
    } else if n > 0 {
      assert Up(p, id, 0) == Some(id);
    }
  }

  /** If `f` is not on the chain of `id`, the chain does not notice that `f` moved. */
  lemma ChainAvoids(p: Parents, f: string, np: Option<string>, id: string, a: string)
    requires !OnChain(p, f, id)
    ensures OnChain(p[f := np], a, id) <==> OnChain(p, a, id)
  {
    var p' := p[f := np];
    forall n: nat ensures Up(p', id, n) == Up(p, id, n) {
      UpAvoids(p, f, np, id, n);
    }
    if OnChain(p, a, id) {
      var n: nat :| Up(p, id, n) == Some(a);
      assert Up(p', id, n) == Some(a);
    }
    if OnChain(p', a, id) {
      var n: nat :| Up(p', id, n) == Some(a);
      assert Up(p, id, n) == Some(a);
    }
  }

  /** The first time a chain meets `f`. */
  lemma {:induction false} FirstMeeting(p: Parents, f: string, id: string, n: nat) returns (k: nat)
    requires Up(p, id, n) == Some(f)
    ensures k <= n && Up(p, id, k) == Some(f) && forall m: nat :: m < k ==> Up(p, id, m) != Some(f)
  {
    if exists m: nat :: m < n && Up(p, id, m) == Some(f) {
      var m: nat :| m < n && Up(p, id, m) == Some(f);
      k := FirstMeeting(p, f, id, m);
    } else {
      k := n;
    }
  }

  /** A move carries the folder's whole subtree along: whatever was at or below `f` keeps the folders
      up to `f` above it and gains the chain of the new parent; everything else keeps its chain. */
  lemma MoveCarriesSubtree(p: Parents, f: string, t: string, a: string, x: string)
    requires Acyclic(p) && f in p && !OnChain(p, f, t)
    ensures OnChain(p[f := Some(t)], a, x) <==>
            if OnChain(p, f, x) then (OnChain(p, a, x) && OnChain(p, f, a)) || OnChain(p, a, t) else OnChain(p, a, x)
  {
    if OnChain(p, f, x) {
      var n: nat :| Up(p, x, n) == Some(f);
      ChainThroughMoved(p, f, t, a, x, n);
    } else {
      ChainAvoids(p, f, Some(t), x, a);
    }
  }

  lemma {:induction false} ChainThroughMoved(p: Parents, f: string, t: string, a: string, x: string, n: nat)
    requires Acyclic(p) && f in p && !OnChain(p, f, t) && Up(p, x, n) == Some(f)
    ensures OnChain(p[f := Some(t)], a, x) <==> (OnChain(p, a, x) && OnChain(p, f, a)) || OnChain(p, a, t)
    decreases n
  {
    var p' := p[f := Some(t)];
    OnChainStep(p', a, x);
    OnChainStep(p, a, x);
    OnChainStep(p, f, x);
    if x == f {
      ChainAvoids(p, f, Some(t), t, a);
      OnlySelfBothWays(p, f, a);
    } else {
      ChainThroughMoved(p, f, t, a, p[x].value, n - 1);
      assert Up(p, p[x].value, n - 1) == Some(f);
    }
  }

  /** On an acyclic map two folders on each other's chains are one. */
  lemma OnlySelfBothWays(p: Parents, a: string, b: string)
    requires Acyclic(p) && a in p
    ensures OnChain(p, a, b) && OnChain(p, b, a) <==> a == b
  {
    OnChainStep(p, a, a);
    if a != b && OnChain(p, a, b) && OnChain(p, b, a) {
      var m: nat :| Up(p, a, m) == Some(b);
      var n: nat :| Up(p, b, n) == Some(a);
      UpAdd(p, a, m, n);
      assert ProperlyAbove(p, a, a);
    }
  }

  /** Moving a folder keeps an acyclic map acyclic if and only if the folder is not on the chain of its
      new parent. */
  lemma ReparentAcyclicIff(p: Parents, f: string, t: string)
    requires Acyclic(p)
    requires f in p
    ensures Acyclic(p[f := Some(t)]) <==> !OnChain(p, f, t)
  {
    var p' := p[f := Some(t)];
    if OnChain(p, f, t) {
      var n: nat :| Up(p, t, n) == Some(f);
      var k := FirstMeeting(p, f, t, n);
      UpAvoids(p, f, Some(t), t, k);
      assert Up(p', f, k + 1) == Up(p', t, k) == Some(f);
      assert ProperlyAbove(p', f, f);
    } else {
      forall id | id in p' ensures !ProperlyAbove(p', id, id) {
        if ProperlyAbove(p', id, id) {
          CycleMeets(p, f, Some(t), id);
          OnChainTransProper(p', f, id);
          ProperlyAboveStep(p', f, f);
          ChainAvoids(p, f, Some(t), t, f);
        }
      }
    }
  }

  /** A cycle that appears when `f` changes parents goes through `f`. */
  lemma CycleMeets(p: Parents, f: string, np: Option<string>, id: string)
    requires Acyclic(p) && id in p && ProperlyAbove(p[f := np], id, id)
    ensures OnChain(p[f := np], f, id)
  {
    var p' := p[f := np];
    var n: nat :| n > 0 && Up(p', id, n) == Some(id);
    if !OnChain(p', f, id) {
      UpAvoidsBack(p, p', f, id, n);
      assert ProperlyAbove(p, id, id);
    }
  }

  lemma {:induction false} UpAvoidsBack(p: Parents, p': Parents, f: string, id: string, n: nat)
    requires f in p' && p' == p[f := p'[f]]
    requires forall m: nat :: m < n ==> Up(p', id, m) != Some(f)
    ensures Up(p, id, n) == Up(p', id, n)
    decreases n
  {
    if n > 0 {
      assert Up(p', id, 0) == Some(id);
      if id in p' && p'[id].Some? {
        forall m: nat | m < n - 1 ensures Up(p', p'[id].value, m) != Some(f) {
          assert Up(p', id, m + 1) == Up(p', p'[id].value, m);
        }
        UpAvoidsBack(p, p', f, p'[id].value, n - 1);
      }
    }
  }

  /** A folder on a cycle's chain is on a cycle itself. */
  lemma OnChainTransProper(p: Parents, f: string, id: string)
    requires ProperlyAbove(p, id, id) && OnChain(p, f, id)
    ensures ProperlyAbove(p, f, f)
  {
    var n: nat :| n > 0 && Up(p, id, n) == Some(id);
    var k: nat :| Up(p, id, k) == Some(f);
    CycleRepeats(p, id, n, k);
    var big := k * n;
    assert Up(p, id, big + k) == Some(f) by {
      UpAdd(p, id, big, k);
    }
    UpAdd(p, id, k, big);
    if k == 0 {
      assert f == id;
    } else {
      assert big >= 1 by { MulPositive(k, n); }
      assert Up(p, f, big) == Some(f);
    }
  }

  lemma MulPositive(a: nat, b: nat)
    requires a > 0 && b > 0
    ensures a * b >= 1
  {
  }

  lemma {:induction false} CycleRepeats(p: Parents, id: string, n: nat, times: nat)
    requires Up(p, id, n) == Some(id)
    ensures Up(p, id, times * n) == Some(id)
    decreases times
  {
    if times > 0 {
      CycleRepeats(p, id, n, times - 1);
      assert times * n == (times - 1) * n + n;
      UpAdd(p, id, (times - 1) * n, n);
    }
  }

  /** Moving a folder to the root keeps an acyclic map acyclic. */
  lemma UprootAcyclic(p: Parents, f: string)
    requires Acyclic(p) && f in p
    ensures Acyclic(p[f := None])
  {
    var p' := p[f := None];
    forall id | id in p' ensures !ProperlyAbove(p', id, id) {
      if ProperlyAbove(p', id, id) {
        CycleMeets(p, f, None, id);
        OnChainTransProper(p', f, id);
        ProperlyAboveStep(p', f, f);
      }
    }
  }

  lemma {:induction false} UpInSubmap(p: Parents, q: Parents, id: string, n: nat)
    requires q.Keys <= p.Keys && forall x :: x in q ==> q[x] == p[x]
    requires Up(q, id, n).Some?
    ensures Up(p, id, n) == Up(q, id, n)
    decreases n
  {
    if n > 0 {
      UpInSubmap(p, q, q[id].value, n - 1);
    }
  }

  /** Removing folders keeps an acyclic map acyclic. */
  lemma SubmapAcyclic(p: Parents, q: Parents)
    requires Acyclic(p) && q.Keys <= p.Keys && forall x :: x in q ==> q[x] == p[x]
    ensures Acyclic(q)
  {
    forall id | id in q ensures !ProperlyAbove(q, id, id) {
      if ProperlyAbove(q, id, id) {
        var n: nat :| n > 0 && Up(q, id, n) == Some(id);
        UpInSubmap(p, q, id, n);
        assert ProperlyAbove(p, id, id);
      }
    }
  }

  /** A new folder that nothing points to keeps an acyclic map acyclic. */
  lemma NewLeafAcyclic(p: Parents, f: string, parent: Option<string>)
    requires Acyclic(p) && f !in p && parent != Some(f)
    requires forall x :: x in p ==> p[x] != Some(f)
    ensures Acyclic(p[f := parent])
  {
    var p' := p[f := parent];
    forall id | id in p' ensures !ProperlyAbove(p', id, id) {
      if ProperlyAbove(p', id, id) {
        var n: nat :| n > 0 && Up(p', id, n) == Some(id);
        if id == f {
          NothingAboveIsLeaf(p', f, f, n);
        } else {
          CycleMeets(p, f, parent, id);
          var k: nat :| Up(p', id, k) == Some(f);
          NothingAboveIsLeaf(p', f, id, k);
        }
      }
    }
  }

  lemma {:induction false} NothingAboveIsLeaf(p: Parents, f: string, id: string, n: nat)
    requires forall x :: x in p ==> p[x] != Some(f)
    ensures n > 0 ==> Up(p, id, n) != Some(f)
    decreases n
  {
    if n > 0 && id in p && p[id].Some? {
      NothingAboveIsLeaf(p, f, p[id].value, n - 1);
    }
  }
}
