/** Process-local trust grants and the effective policy of a path. */
module Trust {
  import opened Collections
  import opened Config

  type GrantId = nat

  datatype Grant = Grant(id: GrantId, root: TrustRoot)

  /** A root covers itself and, when asked to, everything below it. */
  predicate Matches(root: TrustRoot, target: ResolvedPath) {
    target == root.path || (root.includeSubdirectories && root.path <= target)
  }

  /** A root with subdirectories covers exactly its own path followed by any components, and one without covers
      only itself. */
  lemma MatchesIff(root: TrustRoot, target: ResolvedPath)
    ensures root.includeSubdirectories ==> (Matches(root, target) <==> exists below :: target == root.path + below)
    ensures !root.includeSubdirectories ==> (Matches(root, target) <==> target == root.path)
  {
    if root.path <= target {
      assert target == root.path + target[|root.path|..];
    }
    assert root.path == root.path + [];
  }

  function MatchedRoots(roots: seq<TrustRoot>, target: ResolvedPath): seq<TrustRoot> {
    if roots == [] then []
    else if Matches(roots[0], target) then [roots[0]] + MatchedRoots(roots[1..], target)
    else MatchedRoots(roots[1..], target)
  }

  /** The policies of the roots joined onto `policy`, first root first. */
  function Joined(policy: PolicyName, roots: seq<TrustRoot>): PolicyName
    decreases |roots|
  {
    if roots == [] then policy
    else Joined(StricterPolicy(policy, roots[0].policy), roots[1..])
  }

  function EffectivePolicy(policy: PolicyName, roots: seq<TrustRoot>, target: ResolvedPath): PolicyName {
    Joined(policy, MatchedRoots(roots, target))
  }

  /** `rank` is the largest of the configured rank and the ranks of the known policies of the
      matching roots. */
  ghost predicate IsJoin(rank: int, policy: PolicyName, roots: set<TrustRoot>, target: ResolvedPath) {
    && rank >= Rank(policy)
    && (forall r :: r in roots && Matches(r, target) && IsKnownPolicy(r.policy) ==> rank >= Rank(r.policy))
    && (rank == Rank(policy) ||
        exists r :: r in roots && Matches(r, target) && IsKnownPolicy(r.policy) && rank == Rank(r.policy))
  }

  lemma {:induction false} EffectiveRankIsJoin(policy: PolicyName, roots: seq<TrustRoot>, target: ResolvedPath)
    ensures IsJoin(Rank(EffectivePolicy(policy, roots, target)), policy, Elems(roots), target)
    decreases |roots|
  {
    if roots != [] {
      var first, rest := roots[0], roots[1..];
      assert roots == [first] + rest;
      ElemsCons(first, rest);
      if Matches(first, target) {
        StricterPolicyRank(policy, first.policy);
        EffectiveRankIsJoin(StricterPolicy(policy, first.policy), rest, target);
        assert MatchedRoots(roots, target) == [first] + MatchedRoots(rest, target);
      } else {
        EffectiveRankIsJoin(policy, rest, target);
      }
    }
  }

  /** Neither the order of the roots nor repetition matters to the rank. */
  lemma RootOrderIrrelevant(policy: PolicyName, a: seq<TrustRoot>, b: seq<TrustRoot>, target: ResolvedPath)
    requires Elems(a) == Elems(b)
    ensures Rank(EffectivePolicy(policy, a, target)) == Rank(EffectivePolicy(policy, b, target))
  {
    EffectiveRankIsJoin(policy, a, target);
    EffectiveRankIsJoin(policy, b, target);
  }

  // ------------------------------------------------------------------
  // The grant table over a run
  // ------------------------------------------------------------------

  datatype Operation = GrantRoot(id: GrantId, root: TrustRoot) | Revoke(id: GrantId) | Clear

  function Without(table: seq<Grant>, id: GrantId): seq<Grant> {
    if table == [] then []
    else if table[0].id == id then Without(table[1..], id)
    else [table[0]] + Without(table[1..], id)
  }

  lemma WithoutElems(table: seq<Grant>, id: GrantId)
    ensures Elems(Without(table, id)) == set g | g in table && g.id != id
    decreases |table|
  {
    if table != [] {
      WithoutElems(table[1..], id);
      assert table == [table[0]] + table[1..];
      ElemsCons(table[0], Without(table[1..], id));
    }
  }

  function Apply(table: seq<Grant>, op: Operation): seq<Grant> {
    match op
    case GrantRoot(id, root) => Without(table, id) + [Grant(id, root)]
    case Revoke(id) => Without(table, id)
    case Clear => []
  }

  function Run(ops: seq<Operation>): seq<Grant> {
    if ops == [] then [] else Apply(Run(ops[..|ops| - 1]), ops[|ops| - 1])
  }

  /** The latest grant comes last, after all the others that are left. */
  lemma LatestGrantIsLast(table: seq<Grant>, id: GrantId, root: TrustRoot) returns (front: seq<Grant>)
    ensures Apply(table, GrantRoot(id, root)) == front + [Grant(id, root)]
    ensures forall g :: g in front <==> g in table && g.id != id
  {
    front := Without(table, id);
    WithoutElems(table, id);
    assert forall g :: g in front <==> g in Elems(front);
  }

  /** The grant `g` was made at step `i` and no later operation removes or replaces it. */
  ghost predicate LiveFrom(ops: seq<Operation>, i: int, g: Grant) {
    && 0 <= i < |ops|
    && ops[i] == GrantRoot(g.id, g.root)
    && forall j :: i < j < |ops| ==> !Removes(ops[j], g.id)
  }

  predicate Removes(op: Operation, id: GrantId) {
    op.Clear? || op.id == id
  }

  /** The table holds the grants made and since neither revoked, replaced nor cleared. */
  lemma {:induction false} TableHoldsLiveGrants(ops: seq<Operation>, g: Grant)
    ensures g in Run(ops) <==> exists i :: LiveFrom(ops, i, g)
    decreases |ops|
  {
    if ops != [] {
      var n := |ops| - 1;
      var before, op := ops[..n], ops[n];
      TableHoldsLiveGrants(before, g);
      if op.GrantRoot? || op.Revoke? {
        WithoutElems(Run(before), op.id);
        assert g in Without(Run(before), op.id) <==> g in Elems(Without(Run(before), op.id));
      }
      if g in Run(ops) {
        if op == GrantRoot(g.id, g.root) {
          assert LiveFrom(ops, n, g);
        } else {
          var i :| LiveFrom(before, i, g);
          LiveFromStep(ops, i, g);
        }
      }
      if i :| LiveFrom(ops, i, g) {
        LiveFromStep(ops, i, g);
      }
    }
  }

  /** A grant made before the last operation is live after it exactly when it was live and the
      operation does not remove it. */
  lemma LiveFromStep(ops: seq<Operation>, i: int, g: Grant)
    requires ops != [] && i < |ops|
    ensures var n := |ops| - 1;
            i < n ==> (LiveFrom(ops, i, g) <==> LiveFrom(ops[..n], i, g) && !Removes(ops[n], g.id))
  {
    var n := |ops| - 1;
    assert forall j :: 0 <= j < n ==> ops[..n][j] == ops[j];
  }

  function RootsOf(table: seq<Grant>): (roots: seq<TrustRoot>)
    ensures Elems(roots) == set g | g in table :: g.root
  {
    if table == [] then []
    else
      assert table == [table[0]] + table[1..];
      ElemsCons(table[0].root, RootsOf(table[1..]));
      [table[0].root] + RootsOf(table[1..])
  }

  ghost function LiveRoots(ops: seq<Operation>): set<TrustRoot> {
    set i | 0 <= i < |ops| && ops[i].GrantRoot? && LiveFrom(ops, i, Grant(ops[i].id, ops[i].root)) :: ops[i].root
  }

  lemma TableRootsAreLive(ops: seq<Operation>)
    ensures Elems(RootsOf(Run(ops))) == LiveRoots(ops)
  {
    forall r | r in LiveRoots(ops) ensures r in Elems(RootsOf(Run(ops))) {
      var i :| 0 <= i < |ops| && ops[i].GrantRoot? && LiveFrom(ops, i, Grant(ops[i].id, ops[i].root)) && ops[i].root == r;
      TableHoldsLiveGrants(ops, Grant(ops[i].id, r));
      assert Grant(ops[i].id, r) in Run(ops);
    }
    forall r | r in Elems(RootsOf(Run(ops))) ensures r in LiveRoots(ops) {
      var g :| g in Run(ops) && g.root == r;
      TableHoldsLiveGrants(ops, g);
      var i :| LiveFrom(ops, i, g);
      assert ops[i].root == r;
    }
  }

  /** After any history of grants, revocations and clears, the effective rank of a path is the
      join of the configured policy, the configured roots and the live grants. */
  lemma EffectiveRankAfterRun(policy: PolicyName, configured: seq<TrustRoot>, ops: seq<Operation>, target: ResolvedPath)
    ensures IsJoin(Rank(EffectivePolicy(policy, configured + RootsOf(Run(ops)), target)),
                   policy, Elems(configured) + LiveRoots(ops), target)
  {
    TableRootsAreLive(ops);
    ElemsConcat(configured, RootsOf(Run(ops)));
    EffectiveRankIsJoin(policy, configured + RootsOf(Run(ops)), target);
  }

  /** The table of one process, in insertion order. */
  class GrantTable {
    var grants: seq<Grant>

    constructor ()
      ensures grants == []
    {
      grants := [];
    }

    /** Identifiers are freshly drawn, so a grant never replaces another. */
    method GrantTrust(id: GrantId, path: ResolvedPath, policy: PolicyName)
      requires forall g :: g in grants ==> g.id != id
      modifies this
      ensures grants == old(grants) + [Grant(id, TrustRoot(path, policy, true))]
      ensures grants == Apply(old(grants), GrantRoot(id, TrustRoot(path, policy, true)))
    {
      WithoutAbsent(grants, id);
      grants := grants + [Grant(id, TrustRoot(path, policy, true))];
    }

    method RevokeTrust(id: GrantId) returns (revoked: bool)
      modifies this
      ensures grants == Apply(old(grants), Revoke(id))
      ensures revoked <==> exists g :: g in old(grants) && g.id == id
    {
      var table, kept := grants, [];
      revoked := false;
      for i := 0 to |table|
        invariant kept == Without(table[..i], id)
        invariant revoked <==> exists g :: g in table[..i] && g.id == id
      {
        WithoutAppend(table[..i], table[i], id);
        assert table[..i + 1] == table[..i] + [table[i]];
        if table[i].id == id {
          revoked := true;
        } else {
          kept := kept + [table[i]];
        }
      }
      assert table[..|table|] == table;
      grants := kept;
    }

    method ClearTrust() returns (count: nat)
      modifies this
      ensures grants == Apply(old(grants), Clear)
      ensures count == |old(grants)|
    {
      count := |grants|;
      grants := [];
    }

    method EffectiveTrust(policy: PolicyName, configured: seq<TrustRoot>, target: ResolvedPath)
      returns (trusted: bool, effective: PolicyName)
      ensures effective == EffectivePolicy(policy, configured + RootsOf(grants), target)
      ensures trusted <==> exists r :: r in configured + RootsOf(grants) && Matches(r, target)
    {
      var all := configured + RootsOf(grants);
      var matched := [];
      trusted := false;
      for i := 0 to |all|
        invariant matched == MatchedRoots(all[..i], target)
        invariant trusted <==> exists r :: r in all[..i] && Matches(r, target)
      {
        MatchedAppend(all[..i], all[i], target);
        assert all[..i + 1] == all[..i] + [all[i]];
        if Matches(all[i], target) {
          matched := matched + [all[i]];
          trusted := true;
        }
      }
      assert all[..|all|] == all;
      effective := policy;
      for i := 0 to |matched|
        invariant Joined(effective, matched[i..]) == Joined(policy, matched)
      {
        effective := StricterPolicy(effective, matched[i].policy);
      }
    }
  }

  lemma WithoutAbsent(table: seq<Grant>, id: GrantId)
    requires forall g :: g in table ==> g.id != id
    ensures Without(table, id) == table
  {
  }

  lemma {:induction false} WithoutAppend(table: seq<Grant>, g: Grant, id: GrantId)
    ensures Without(table + [g], id) == Without(table, id) + (if g.id == id then [] else [g])
    decreases |table|
  {
    if table != [] {
      assert (table + [g])[1..] == table[1..] + [g];
      WithoutAppend(table[1..], g, id);
    }
  }

  lemma {:induction false} MatchedAppend(roots: seq<TrustRoot>, r: TrustRoot, target: ResolvedPath)
    ensures MatchedRoots(roots + [r], target) ==
            MatchedRoots(roots, target) + (if Matches(r, target) then [r] else [])
    decreases |roots|
  {
    if roots != [] {
      assert (roots + [r])[1..] == roots[1..] + [r];
      MatchedAppend(roots[1..], r, target);
    }
  }
}
