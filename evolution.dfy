/**
 The evolution strip (`getEvolutionChainImages`): one stage per node on the
 path from the chain's root that always takes the first branch.
 */
module Evolution {
  import opened PokeApi
  import opened UrlIds

  /** One stage of the strip: the sprite of the species and its name. */
  datatype EvolutionStage = EvolutionStage(image: string, name: string)

  /** The stage a node emits; the sprite's address is built from the id in the species URL. */
  function StageOf(node: ChainLink): EvolutionStage
  {
    EvolutionStage(SpriteUrl(IdFromUrl(node.species.url)), node.species.name)
  }

  /** The strip, defined by recursion on the first branch. */
  function FirstBranchWalk(chain: ChainLink): (stages: seq<EvolutionStage>)
    ensures |stages| >= 1 && stages[0] == StageOf(chain)
    decreases chain
  {
    if |chain.evolvesTo| == 0 then [StageOf(chain)]
    else [StageOf(chain)] + FirstBranchWalk(chain.evolvesTo[0])
  }

  /** The node reached from `chain` by taking `evolves_to[0]` `k` times, if the path is that long. */
  function Descend(chain: ChainLink, k: nat): Option<ChainLink>
    decreases k
  {
    if k == 0 then Some(chain)
    else if |chain.evolvesTo| == 0 then None
    else Descend(chain.evolvesTo[0], k - 1)
  }

  /**
   The walk emits exactly the nodes of the first-branch path, root first: its
   `k`-th stage is that of the node `k` steps down, and it stops where that path
   ends.
   */
  lemma {:induction false} WalkFollowsFirstBranch(chain: ChainLink, k: nat)
    ensures k < |FirstBranchWalk(chain)| <==> Descend(chain, k).Some?
    ensures k < |FirstBranchWalk(chain)| ==> FirstBranchWalk(chain)[k] == StageOf(Descend(chain, k).value)
    decreases k
  {
    if k > 0 && |chain.evolvesTo| > 0 {
      var rest := FirstBranchWalk(chain.evolvesTo[0]);
      assert FirstBranchWalk(chain) == [StageOf(chain)] + rest;
      WalkFollowsFirstBranch(chain.evolvesTo[0], k - 1);
    }
  }

  /** The chain with every branch but the first cut off. */
  function Prune(chain: ChainLink): ChainLink
    decreases chain
  {
    ChainLink(chain.species, if |chain.evolvesTo| == 0 then [] else [Prune(chain.evolvesTo[0])])
  }

  /** No node has more than one successor. */
  ghost predicate Linear(chain: ChainLink)
    decreases chain
  {
    |chain.evolvesTo| == 0 || (|chain.evolvesTo| == 1 && Linear(chain.evolvesTo[0]))
  }

  /** The number of nodes of a linear chain. */
  function Length(chain: ChainLink): nat
    requires Linear(chain)
    decreases chain
  {
    if |chain.evolvesTo| == 0 then 1 else 1 + Length(chain.evolvesTo[0])
  }

  /** Pruning leaves a linear chain. */
  lemma {:induction false} PruneIsLinear(chain: ChainLink)
    ensures Linear(Prune(chain))
    decreases chain
  {
    if |chain.evolvesTo| > 0 {
      PruneIsLinear(chain.evolvesTo[0]);
    }
  }

  /** Branches after the first never appear: the walk of the pruned chain is the same. */
  lemma {:induction false} WalkIgnoresLaterBranches(chain: ChainLink)
    ensures FirstBranchWalk(Prune(chain)) == FirstBranchWalk(chain)
    decreases chain
  {
    if |chain.evolvesTo| > 0 {
      WalkIgnoresLaterBranches(chain.evolvesTo[0]);
    }
  }

  /** On a linear chain the walk emits one stage per node, none skipped. */
  lemma {:induction false} WalkCoversLinearChain(chain: ChainLink)
    requires Linear(chain)
    ensures |FirstBranchWalk(chain)| == Length(chain)
    decreases chain
  {
    if |chain.evolvesTo| > 0 {
      WalkCoversLinearChain(chain.evolvesTo[0]);
    }
  }

  /**
   `getEvolutionChainImages`: the source's do-while loop. `current` starts at
   the root, so the first test of the loop below always holds, as a do-while
   runs its body once before testing; each turn emits the current node's stage
   and moves to `evolves_to[0]`, which is `undefined` (here `None`) at a leaf.
   */
  method EvolutionChainImages(chain: ChainLink) returns (images: seq<EvolutionStage>)
    ensures images == FirstBranchWalk(chain)
  {
    images := [];
    var current: Option<ChainLink> := Some(chain);
    while current.Some?
      invariant current.Some? ==> images + FirstBranchWalk(current.value) == FirstBranchWalk(chain)
      invariant current.None? ==> images == FirstBranchWalk(chain)
      decreases if current.Some? then |FirstBranchWalk(current.value)| else 0
    {
      var node := current.value;
      assert FirstBranchWalk(node) == [StageOf(node)] +
        if |node.evolvesTo| == 0 then [] else FirstBranchWalk(node.evolvesTo[0]);
      images := images + [StageOf(node)];
      current := if |node.evolvesTo| > 0 then Some(node.evolvesTo[0]) else None;
    }
  }
}
