/** The factor graph of one match, as `build_factor_graph` lays it out, and
    the message schedule `run_schedule` runs on it (trueskill/__init__.py).
    The graph has five layers: a prior per player's skill, a likelihood from
    skill to performance, a weighted sum per team, a difference per pair of
    neighbouring teams in rank order, and a truncation per difference that
    encodes the observed win or draw. */
module Schedule {
  import opened Wrappers
  import opened Gaussians
  import opened FactorGraph
  import opened Ratings

  /** The five lists `build_factor_graph` returns. */
  datatype Layers = Layers(
    priors: seq<PriorFactor>,
    likelihoods: seq<LikelihoodFactor>,
    teamPerfs: seq<SumFactor>,
    teamDiffs: seq<SumFactor>,
    truncs: seq<TruncateFactor>)

  /** Every variable a factor of the layers is attached to is in `vars`. */
  ghost predicate Within(layers: Layers, vars: set<Variable>)
  {
    && (forall f | f in layers.priors :: f.v in vars)
    && (forall f | f in layers.likelihoods :: f.mean in vars && f.value in vars)
    && (forall f | f in layers.teamPerfs :: f.sum in vars && forall t | t in f.terms :: t in vars)
    && (forall f | f in layers.teamDiffs :: f.sum in vars && forall t | t in f.terms :: t in vars)
    && (forall f | f in layers.truncs :: f.v in vars)
  }

  /** Every variable's belief is the product of its stored messages. */
  ghost predicate AllValid(vars: set<Variable>)
    reads vars
  {
    forall x | x in vars :: x.Valid()
  }

  /** `xrange(group_size - 1)`: the number of neighbouring pairs. */
  function Pairs(g: nat): (p: nat)
    ensures g >= 1 ==> p + 1 == g
    ensures g == 0 ==> p == 0
  {
    if g == 0 then 0 else g - 1
  }

  /** Where group `x` starts in the flattened players, from the team
      sizes: `team_sizes[x - 1]`, or 0 for the first group. */
  function Start(sizes: seq<nat>, x: nat): nat
    requires x < |sizes|
  {
    if x == 0 then 0 else sizes[x - 1]
  }

  // ---------------------------------------------------------------------
  // Building the graph.

  /** `[Variable() for x in xrange(k)]`. */
  method NewVariables(k: nat) returns (vs: seq<Variable>)
    ensures |vs| == k
    ensures forall i | 0 <= i < k :: fresh(vs[i]) && vs[i].messages == map[] && vs[i].Valid()
    ensures forall i, j | 0 <= i < j < k :: vs[i] != vs[j]
  {
    vs := [];
    for i := 0 to k
      invariant |vs| == i
      invariant forall a {:trigger vs[a]} | 0 <= a < i :: fresh(vs[a]) && vs[a].messages == map[] && vs[a].Valid()
      invariant forall a, b | 0 <= a < b < i :: vs[a] != vs[b]
    {
      var v := new Variable();
      vs := vs + [v];
    }
  }

  // ---------------------------------------------------------------------
  // Connecting one factor to variables of the graph, keeping every
  // variable consistent with its messages.

  method NewPrior(v: Variable, val: Gaussian, dynamic: real, ghost vars: set<Variable>) returns (f: PriorFactor)
    requires AllValid(vars) && v in vars
    modifies vars
    ensures AllValid(vars)
    ensures f.v == v && f.val == val && f.dynamic == dynamic
  {
    f := new PriorFactor(v, val, dynamic);
  }

  method NewLikelihood(mean: Variable, value: Variable, variance: real, ghost vars: set<Variable>)
    returns (f: LikelihoodFactor)
    requires AllValid(vars) && mean in vars && value in vars
    modifies vars
    ensures AllValid(vars)
    ensures f.mean == mean && f.value == value && f.variance == variance
  {
    f := new LikelihoodFactor(mean, value, variance);
  }

  method NewSum(sum: Variable, terms: seq<Variable>, coeffs: seq<real>, ghost vars: set<Variable>)
    returns (f: SumFactor)
    requires AllValid(vars) && sum in vars && forall t | t in terms :: t in vars
    modifies vars
    ensures AllValid(vars)
    ensures f.sum == sum && f.terms == terms && f.coeffs == coeffs
  {
    f := new SumFactor(sum, terms, coeffs);
  }

  method NewTruncate(v: Variable, vFunc: (real, real) -> real, wFunc: (real, real) -> real, drawMargin: real,
                     ghost vars: set<Variable>)
    returns (f: TruncateFactor)
    requires AllValid(vars) && v in vars
    modifies vars
    ensures AllValid(vars)
    ensures f.v == v && f.vFunc == vFunc && f.wFunc == wFunc && f.drawMargin == drawMargin
  {
    f := new TruncateFactor(v, vFunc, wFunc, drawMargin);
  }

  /** `build_rating_layer`: a prior per player, with the environment's
      dynamic factor. */
  method BuildPriors(ratingVars: seq<Variable>, ratings: seq<Gaussian>, tau: real, ghost vars: set<Variable>)
    returns (fs: seq<PriorFactor>)
    requires |ratingVars| == |ratings| && AllValid(vars)
    requires forall v | v in ratingVars :: v in vars
    modifies vars
    ensures AllValid(vars)
    ensures |fs| == |ratings|
    ensures forall i | 0 <= i < |fs| :: fs[i].v == ratingVars[i] && fs[i].val == ratings[i] && fs[i].dynamic == tau
  {
    fs := [];
    for i := 0 to |ratings|
      invariant AllValid(vars)
      invariant |fs| == i
      invariant forall a {:trigger fs[a]} | 0 <= a < i :: fs[a].v == ratingVars[a] && fs[a].val == ratings[a] && fs[a].dynamic == tau
    {
      var f := NewPrior(ratingVars[i], ratings[i], tau, vars);
      fs := fs + [f];
    }
  }

  /** `build_perf_layer`: a likelihood from each skill to its performance,
      with variance `beta ** 2`. */
  method BuildLikelihoods(ratingVars: seq<Variable>, perfVars: seq<Variable>, beta: real, ghost vars: set<Variable>)
    returns (fs: seq<LikelihoodFactor>)
    requires |ratingVars| == |perfVars| && AllValid(vars)
    requires forall v | v in ratingVars :: v in vars
    requires forall v | v in perfVars :: v in vars
    modifies vars
    ensures AllValid(vars)
    ensures |fs| == |ratingVars|
    ensures forall i | 0 <= i < |fs| ::
              fs[i].mean == ratingVars[i] && fs[i].value == perfVars[i] && fs[i].variance == beta * beta
  {
    fs := [];
    for i := 0 to |ratingVars|
      invariant AllValid(vars)
      invariant |fs| == i
      invariant forall a {:trigger fs[a]} | 0 <= a < i ::
                  fs[a].mean == ratingVars[a] && fs[a].value == perfVars[a] && fs[a].variance == beta * beta
    {
      var f := NewLikelihood(ratingVars[i], perfVars[i], beta * beta, vars);
      fs := fs + [f];
    }
  }

  /** Sum factor `f` is team `x`'s: its sum is `sum`, and its terms and
      coefficients are the team's slice of the performances and weights. */
  ghost predicate SumOf(f: SumFactor, sum: Variable, perfVars: seq<Variable>, flatWeights: seq<real>,
                        sizes: seq<nat>, x: nat)
    requires x < |sizes|
  {
    && Start(sizes, x) <= sizes[x] <= |perfVars| == |flatWeights|
    && f.sum == sum
    && f.terms == perfVars[Start(sizes, x)..sizes[x]]
    && f.coeffs == flatWeights[Start(sizes, x)..sizes[x]]
  }

  /** `build_teamperf_layer`: team `x`'s performance is the sum of its
      players' performances `perf_vars[start:end]`, weighted by
      `flatten_weights[start:end]`. */
  method BuildTeamPerfs(teamPerfVars: seq<Variable>, perfVars: seq<Variable>, sizes: seq<nat>,
                        flatWeights: seq<real>, ghost vars: set<Variable>)
    returns (fs: seq<SumFactor>)
    requires |sizes| == |teamPerfVars| && |flatWeights| == |perfVars| && AllValid(vars)
    requires forall x {:trigger Start(sizes, x)} | 0 <= x < |sizes| :: Start(sizes, x) <= sizes[x] <= |perfVars|
    requires forall v | v in teamPerfVars :: v in vars
    requires forall v | v in perfVars :: v in vars
    modifies vars
    ensures AllValid(vars)
    ensures |fs| == |teamPerfVars|
    ensures forall x | 0 <= x < |fs| ::
              && fs[x].sum == teamPerfVars[x]
              && fs[x].terms == perfVars[Start(sizes, x)..sizes[x]]
              && fs[x].coeffs == flatWeights[Start(sizes, x)..sizes[x]]
  {
    fs := [];
    for x := 0 to |teamPerfVars|
      invariant AllValid(vars)
      invariant |fs| == x
      invariant forall a {:trigger fs[a]} | 0 <= a < x :: SumOf(fs[a], teamPerfVars[a], perfVars, flatWeights, sizes, a)
    {
      var start := Start(sizes, x);
      var end := sizes[x];
      var f := NewSum(teamPerfVars[x], perfVars[start..end], flatWeights[start..end], vars);
      fs := fs + [f];
    }
  }

  /** `build_teamdiff_layer`: difference `x` is team performance `x` minus
      team performance `x + 1`. */
  method BuildTeamDiffs(teamDiffVars: seq<Variable>, teamPerfVars: seq<Variable>, ghost vars: set<Variable>)
    returns (fs: seq<SumFactor>)
    requires |teamDiffVars| == Pairs(|teamPerfVars|) && AllValid(vars)
    requires forall v | v in teamDiffVars :: v in vars
    requires forall v | v in teamPerfVars :: v in vars
    modifies vars
    ensures AllValid(vars)
    ensures |fs| == |teamDiffVars|
    ensures forall x | 0 <= x < |fs| ::
              && fs[x].sum == teamDiffVars[x]
              && fs[x].terms == [teamPerfVars[x], teamPerfVars[x + 1]]
              && fs[x].coeffs == [1.0, -1.0]
  {
    fs := [];
    for x := 0 to |teamDiffVars|
      invariant AllValid(vars)
      invariant |fs| == x
      invariant forall a {:trigger fs[a]} | 0 <= a < x ::
                  && fs[a].sum == teamDiffVars[a]
                  && fs[a].terms == [teamPerfVars[a], teamPerfVars[a + 1]]
                  && fs[a].coeffs == [1.0, -1.0]
    {
      assert teamPerfVars[x..x + 2] == [teamPerfVars[x], teamPerfVars[x + 1]];
      var f := NewSum(teamDiffVars[x], teamPerfVars[x..x + 2], [1.0, -1.0], vars);
      fs := fs + [f];
    }
  }

  /** The correction functions of pair `x`: the draw ones when the two
      teams share a rank, the win ones otherwise. */
  ghost predicate TruncKind(f: TruncateFactor, draw: bool, backend: Backend)
  {
    if draw then f.vFunc == backend.vDraw && f.wFunc == backend.wDraw
    else f.vFunc == backend.vWin && f.wFunc == backend.wWin
  }

  /** `build_trunc_layer`: a truncation per difference, for a draw when the
      two teams have equal ranks, with the draw margin of the two teams'
      players together. */
  method BuildTruncs(teamDiffVars: seq<Variable>, groups: seq<seq<Gaussian>>, ranks: seq<int>,
                     env: Env, backend: Backend, ghost vars: set<Variable>)
    returns (fs: seq<TruncateFactor>)
    requires |teamDiffVars| == Pairs(|groups|) && |ranks| == |groups| && AllValid(vars)
    requires forall v | v in teamDiffVars :: v in vars
    modifies vars
    ensures AllValid(vars)
    ensures |fs| == |teamDiffVars|
    ensures forall x | 0 <= x < |fs| ::
              && fs[x].v == teamDiffVars[x]
              && TruncKind(fs[x], ranks[x] == ranks[x + 1], backend)
              && fs[x].drawMargin == DrawMargin(env.drawProbability, env.beta, |groups[x]| + |groups[x + 1]|, backend)
  {
    fs := [];
    for x := 0 to |teamDiffVars|
      invariant AllValid(vars)
      invariant |fs| == x
      invariant forall a {:trigger fs[a]} | 0 <= a < x ::
                  && fs[a].v == teamDiffVars[a]
                  && TruncKind(fs[a], ranks[a] == ranks[a + 1], backend)
                  && fs[a].drawMargin == DrawMargin(env.drawProbability, env.beta, |groups[a]| + |groups[a + 1]|, backend)
    {
      var size := |groups[x]| + |groups[x + 1]|;
      var drawMargin := DrawMargin(env.drawProbability, env.beta, size, backend);
      var vFunc, wFunc;
      if ranks[x] == ranks[x + 1] {
        vFunc, wFunc := backend.vDraw, backend.wDraw;
      } else {
        vFunc, wFunc := backend.vWin, backend.wWin;
      }
      var f := NewTruncate(teamDiffVars[x], vFunc, wFunc, drawMargin, vars);
      fs := fs + [f];
    }
  }

  /** Prior `i` starts player `i`'s skill from its rating, with the
      environment's dynamic factor. */
  ghost predicate PriorsShaped(layers: Layers, env: Env, players: seq<Gaussian>)
  {
    && |layers.priors| == |players|
    && forall i | 0 <= i < |players| ::
         layers.priors[i].val == players[i] && layers.priors[i].dynamic == env.tau
  }

  /** Likelihood `i` links player `i`'s skill to a performance. */
  ghost predicate LikelihoodsShaped(layers: Layers, env: Env, n: nat)
    requires |layers.priors| == n
  {
    && |layers.likelihoods| == n
    && forall i | 0 <= i < n ::
         && layers.likelihoods[i].mean == layers.priors[i].v
         && layers.likelihoods[i].variance == env.beta * env.beta
  }

  /** Team sum `x` adds the performances of group `x`'s players with the
      group's weights. */
  ghost predicate TeamPerfsShaped(layers: Layers, groups: seq<seq<Gaussian>>, weights: seq<seq<real>>)
    requires |weights| == |groups|
  {
    && |layers.teamPerfs| == |groups|
    && forall x | 0 <= x < |groups| :: TeamPerfShaped(layers, groups, weights, x)
  }

  /** Team `x` sums the performances of its own players, weighted by its
      own weights. */
  ghost predicate TeamPerfShaped(layers: Layers, groups: seq<seq<Gaussian>>, weights: seq<seq<real>>, x: nat)
    requires |weights| == |groups| == |layers.teamPerfs| && x < |groups|
  {
    var start := |Concat(groups[..x])|;
    && start + |groups[x]| <= |layers.likelihoods|
    && layers.teamPerfs[x].coeffs == weights[x]
    && |layers.teamPerfs[x].terms| == |groups[x]|
    && forall j {:trigger layers.teamPerfs[x].terms[j]} | 0 <= j < |groups[x]| :: layers.teamPerfs[x].terms[j] == layers.likelihoods[start + j].value
  }

  /** Difference `x` is team `x` minus team `x + 1`. */
  ghost predicate TeamDiffsShaped(layers: Layers, g: nat)
    requires |layers.teamPerfs| == g
  {
    && |layers.teamDiffs| == Pairs(g)
    && forall x {:trigger layers.teamDiffs[x]} | 0 <= x < Pairs(g) ::
         && layers.teamDiffs[x].terms == [layers.teamPerfs[x].sum, layers.teamPerfs[x + 1].sum]
         && layers.teamDiffs[x].coeffs == [1.0, -1.0]
  }

  /** Truncation `x` observes difference `x`: a draw when the ranks are
      equal, a win otherwise, with the two teams' draw margin. */
  ghost predicate TruncsShaped(layers: Layers, env: Env, groups: seq<seq<Gaussian>>, ranks: seq<int>, backend: Backend)
    requires |ranks| == |groups| && |layers.teamDiffs| == Pairs(|groups|)
  {
    && |layers.truncs| == Pairs(|groups|)
    && forall x {:trigger layers.truncs[x]} | 0 <= x < Pairs(|groups|) ::
         && layers.truncs[x].v == layers.teamDiffs[x].sum
         && TruncKind(layers.truncs[x], ranks[x] == ranks[x + 1], backend)
         && layers.truncs[x].drawMargin == DrawMargin(env.drawProbability, env.beta, |groups[x]| + |groups[x + 1]|, backend)
  }

  /** The structure `build_factor_graph` promises, over the flattened
      players `Concat(groups)`. */
  ghost predicate Shaped(layers: Layers, env: Env, groups: seq<seq<Gaussian>>, ranks: seq<int>,
                         weights: seq<seq<real>>, backend: Backend)
    requires |ranks| == |groups| && |weights| == |groups|
  {
    && PriorsShaped(layers, env, Concat(groups))
    && LikelihoodsShaped(layers, env, |Concat(groups)|)
    && TeamPerfsShaped(layers, groups, weights)
    && TeamDiffsShaped(layers, |groups|)
    && TruncsShaped(layers, env, groups, ranks, backend)
  }

  /** Group `x` occupies `Start(sizes, x) .. sizes[x]` of the flattened
      players, and its weights the same slice of the flattened weights. */
  lemma GroupSlice(groups: seq<seq<Gaussian>>, weights: seq<seq<real>>, sizes: seq<nat>, x: nat)
    requires |weights| == |groups| == |sizes| && x < |groups|
    requires forall y | 0 <= y < |groups| :: |weights[y]| == |groups[y]|
    requires forall y {:trigger sizes[y]} | 0 <= y < |groups| :: sizes[y] == |Concat(groups[..y + 1])|
    ensures Start(sizes, x) == |Concat(groups[..x])|
    ensures sizes[x] == Start(sizes, x) + |groups[x]| <= |Concat(groups)| == |Concat(weights)|
    ensures Concat(weights)[Start(sizes, x)..sizes[x]] == weights[x]
  {
    TeamSlices(groups, x);
    TeamSlices(weights, x);
    ConcatSameShape(groups, weights);
    ConcatSameShape(groups[..x], weights[..x]);
    ConcatSameShape(groups[..x + 1], weights[..x + 1]);
    if x == 0 {
      assert groups[..0] == [];
    }
  }

  /** The team sums `BuildTeamPerfs` lays out over the team sizes are the
      ones `TeamPerfsShaped` describes. */
  lemma TeamPerfsLaidOut(layers: Layers, groups: seq<seq<Gaussian>>, weights: seq<seq<real>>,
                         perfVars: seq<Variable>, sizes: seq<nat>)
    requires |weights| == |groups| == |sizes|
    requires forall x | 0 <= x < |groups| :: |weights[x]| == |groups[x]|
    requires forall x {:trigger sizes[x]} | 0 <= x < |groups| :: sizes[x] == |Concat(groups[..x + 1])|
    requires |layers.likelihoods| == |perfVars| == |Concat(groups)|
    requires forall i | 0 <= i < |perfVars| :: layers.likelihoods[i].value == perfVars[i]
    requires forall x {:trigger Start(sizes, x)} | 0 <= x < |groups| :: Start(sizes, x) <= sizes[x] <= |perfVars| == |Concat(weights)|
    requires |layers.teamPerfs| == |groups|
    requires forall x | 0 <= x < |groups| ::
               && layers.teamPerfs[x].terms == perfVars[Start(sizes, x)..sizes[x]]
               && layers.teamPerfs[x].coeffs == Concat(weights)[Start(sizes, x)..sizes[x]]
    ensures TeamPerfsShaped(layers, groups, weights)
  {
    forall x | 0 <= x < |groups|
      ensures TeamPerfShaped(layers, groups, weights, x)
    {
      GroupSlice(groups, weights, sizes, x);
      var start := |Concat(groups[..x])|;
      assert layers.teamPerfs[x].terms == perfVars[start..start + |groups[x]|];
      TeamPerfLaidOut(layers.teamPerfs[x], layers.likelihoods, perfVars, start, |groups[x]|);
    }
  }

  /** One team sum over the slice `start..start + n` of the performances. */
  lemma TeamPerfLaidOut(f: SumFactor, likelihoods: seq<LikelihoodFactor>, perfVars: seq<Variable>, start: nat, n: nat)
    requires |likelihoods| == |perfVars| && start + n <= |perfVars|
    requires forall i | 0 <= i < |perfVars| :: likelihoods[i].value == perfVars[i]
    requires f.terms == perfVars[start..start + n]
    ensures |f.terms| == n
    ensures forall j {:trigger f.terms[j]} | 0 <= j < n :: f.terms[j] == likelihoods[start + j].value
  {
    forall j | 0 <= j < n
      ensures f.terms[j] == likelihoods[start + j].value
    {
      assert f.terms[j] == perfVars[start + j];
    }
  }

  /** The team sizes of `groups` bound each group's slice of the players. */
  lemma SizesBound(groups: seq<seq<Gaussian>>, sizes: seq<nat>)
    requires |sizes| == |groups|
    requires forall x {:trigger sizes[x]} | 0 <= x < |groups| :: sizes[x] == |Concat(groups[..x + 1])|
    ensures forall x {:trigger Start(sizes, x)} | 0 <= x < |groups| :: Start(sizes, x) <= sizes[x] <= |Concat(groups)|
  {
    forall x | 0 <= x < |groups|
      ensures Start(sizes, x) <= sizes[x] <= |Concat(groups)|
    {
      TeamSlices(groups, x);
      if x == 0 {
        assert groups[..0] == [];
      }
    }
  }

  /** A slice of variables of the graph holds variables of the graph. */
  lemma SliceWithin(vs: seq<Variable>, start: nat, end: nat, vars: set<Variable>)
    requires start <= end <= |vs| && forall v | v in vs :: v in vars
    ensures forall t | t in vs[start..end] :: t in vars
  {
    forall t | t in vs[start..end]
      ensures t in vars
    {
      var j :| 0 <= j < end - start && vs[start..end][j] == t;
      assert t == vs[start + j];
    }
  }

  /** Every factor laid out over the graph's variables is attached to
      variables of the graph only. */
  lemma LaidOutWithin(layers: Layers, ratingVars: seq<Variable>, perfVars: seq<Variable>,
                      teamPerfVars: seq<Variable>, teamDiffVars: seq<Variable>, sizes: seq<nat>,
                      vars: set<Variable>)
    requires forall v | v in ratingVars :: v in vars
    requires forall v | v in perfVars :: v in vars
    requires forall v | v in teamPerfVars :: v in vars
    requires forall v | v in teamDiffVars :: v in vars
    requires |layers.priors| == |ratingVars|
    requires forall i | 0 <= i < |layers.priors| :: layers.priors[i].v == ratingVars[i]
    requires |layers.likelihoods| == |ratingVars| == |perfVars|
    requires forall i | 0 <= i < |layers.likelihoods| ::
               layers.likelihoods[i].mean == ratingVars[i] && layers.likelihoods[i].value == perfVars[i]
    requires |layers.teamPerfs| == |teamPerfVars| == |sizes|
    requires forall x {:trigger Start(sizes, x)} | 0 <= x < |sizes| :: Start(sizes, x) <= sizes[x] <= |perfVars|
    requires forall x | 0 <= x < |layers.teamPerfs| ::
               layers.teamPerfs[x].sum == teamPerfVars[x] && layers.teamPerfs[x].terms == perfVars[Start(sizes, x)..sizes[x]]
    requires |layers.teamDiffs| == |teamDiffVars| == Pairs(|teamPerfVars|)
    requires forall x {:trigger layers.teamDiffs[x]} | 0 <= x < |layers.teamDiffs| ::
               layers.teamDiffs[x].sum == teamDiffVars[x] && layers.teamDiffs[x].terms == [teamPerfVars[x], teamPerfVars[x + 1]]
    requires |layers.truncs| == |teamDiffVars|
    requires forall x | 0 <= x < |layers.truncs| :: layers.truncs[x].v == teamDiffVars[x]
    ensures Within(layers, vars)
  {
    forall f | f in layers.teamPerfs
      ensures f.sum in vars && forall t | t in f.terms :: t in vars
    {
      var x :| 0 <= x < |layers.teamPerfs| && layers.teamPerfs[x] == f;
      var start, end := Start(sizes, x), sizes[x];
      assert start <= end <= |perfVars|;
      SliceWithin(perfVars, start, end, vars);
    }
    forall f | f in layers.teamDiffs
      ensures f.sum in vars && forall t | t in f.terms :: t in vars
    {
      var x :| 0 <= x < |layers.teamDiffs| && layers.teamDiffs[x] == f;
      assert teamPerfVars[x] in teamPerfVars && teamPerfVars[x + 1] in teamPerfVars;
    }
  }

  /** The variables of a graph over `n` players in `g` teams: a skill and
      a performance per player, a performance per team and a difference per
      neighbouring pair of teams. */
  method NewGraphVariables(n: nat, g: nat)
    returns (ratingVars: seq<Variable>, perfVars: seq<Variable>, teamPerfVars: seq<Variable>,
             teamDiffVars: seq<Variable>, ghost vars: set<Variable>)
    ensures |ratingVars| == |perfVars| == n && |teamPerfVars| == g && |teamDiffVars| == Pairs(g)
    ensures fresh(vars) && AllValid(vars)
    ensures forall v | v in ratingVars :: v in vars
    ensures forall v | v in perfVars :: v in vars
    ensures forall v | v in teamPerfVars :: v in vars
    ensures forall v | v in teamDiffVars :: v in vars
    ensures forall i, j | 0 <= i < j < n :: ratingVars[i] != ratingVars[j]
  {
    ratingVars := NewVariables(n);
    perfVars := NewVariables(n);
    teamPerfVars := NewVariables(g);
    teamDiffVars := NewVariables(Pairs(g));
    vars := (set v | v in ratingVars) + (set v | v in perfVars) + (set v | v in teamPerfVars) + (set v | v in teamDiffVars);
  }

  /** The facts the five layer builders establish add up to `Within` and
      `Shaped`. */
  lemma LayersShaped(layers: Layers, env: Env, groups: seq<seq<Gaussian>>, ranks: seq<int>,
                     weights: seq<seq<real>>, backend: Backend, ratingVars: seq<Variable>,
                     perfVars: seq<Variable>, teamPerfVars: seq<Variable>, teamDiffVars: seq<Variable>,
                     sizes: seq<nat>, vars: set<Variable>)
    requires |ranks| == |groups| && |weights| == |groups|
    requires forall x | 0 <= x < |groups| :: |weights[x]| == |groups[x]|
    requires forall v | v in ratingVars :: v in vars
    requires forall v | v in perfVars :: v in vars
    requires forall v | v in teamPerfVars :: v in vars
    requires forall v | v in teamDiffVars :: v in vars
    requires |ratingVars| == |perfVars| == |Concat(groups)| == |Concat(weights)|
    requires |teamPerfVars| == |sizes| == |groups| && |teamDiffVars| == Pairs(|groups|)
    requires forall x {:trigger sizes[x]} | 0 <= x < |groups| :: sizes[x] == |Concat(groups[..x + 1])|
    requires forall x {:trigger Start(sizes, x)} | 0 <= x < |sizes| :: Start(sizes, x) <= sizes[x] <= |perfVars|
    requires |layers.priors| == |Concat(groups)|
    requires forall i | 0 <= i < |layers.priors| ::
               && layers.priors[i].v == ratingVars[i]
               && layers.priors[i].val == Concat(groups)[i]
               && layers.priors[i].dynamic == env.tau
    requires |layers.likelihoods| == |ratingVars|
    requires forall i | 0 <= i < |layers.likelihoods| ::
               && layers.likelihoods[i].mean == ratingVars[i]
               && layers.likelihoods[i].value == perfVars[i]
               && layers.likelihoods[i].variance == env.beta * env.beta
    requires |layers.teamPerfs| == |teamPerfVars|
    requires forall x | 0 <= x < |layers.teamPerfs| ::
               && layers.teamPerfs[x].sum == teamPerfVars[x]
               && layers.teamPerfs[x].terms == perfVars[Start(sizes, x)..sizes[x]]
               && layers.teamPerfs[x].coeffs == Concat(weights)[Start(sizes, x)..sizes[x]]
    requires |layers.teamDiffs| == |teamDiffVars|
    requires forall x {:trigger layers.teamDiffs[x]} | 0 <= x < |layers.teamDiffs| ::
               && layers.teamDiffs[x].sum == teamDiffVars[x]
               && layers.teamDiffs[x].terms == [teamPerfVars[x], teamPerfVars[x + 1]]
               && layers.teamDiffs[x].coeffs == [1.0, -1.0]
    requires |layers.truncs| == |teamDiffVars|
    requires forall x {:trigger layers.truncs[x]} | 0 <= x < |layers.truncs| ::
               && layers.truncs[x].v == teamDiffVars[x]
               && TruncKind(layers.truncs[x], ranks[x] == ranks[x + 1], backend)
               && layers.truncs[x].drawMargin == DrawMargin(env.drawProbability, env.beta, |groups[x]| + |groups[x + 1]|, backend)
    ensures Within(layers, vars)
    ensures Shaped(layers, env, groups, ranks, weights, backend)
  {
    LaidOutWithin(layers, ratingVars, perfVars, teamPerfVars, teamDiffVars, sizes, vars);
    assert PriorsShaped(layers, env, Concat(groups));
    assert LikelihoodsShaped(layers, env, |Concat(groups)|);
    TeamPerfsLaidOut(layers, groups, weights, perfVars, sizes);
    assert TeamDiffsShaped(layers, |groups|);
    assert TruncsShaped(layers, env, groups, ranks, backend);
  }

  /** The five layers over given variables and team sizes. */
  method LayOut(env: Env, groups: seq<seq<Gaussian>>, ranks: seq<int>, weights: seq<seq<real>>, backend: Backend,
                ratingVars: seq<Variable>, perfVars: seq<Variable>, teamPerfVars: seq<Variable>,
                teamDiffVars: seq<Variable>, sizes: seq<nat>, ghost vars: set<Variable>)
    returns (layers: Layers)
    requires |ranks| == |groups| && |weights| == |groups|
    requires forall x | 0 <= x < |groups| :: |weights[x]| == |groups[x]|
    requires forall v | v in ratingVars :: v in vars
    requires forall v | v in perfVars :: v in vars
    requires forall v | v in teamPerfVars :: v in vars
    requires forall v | v in teamDiffVars :: v in vars
    requires |ratingVars| == |perfVars| == |Concat(groups)| == |Concat(weights)|
    requires |teamPerfVars| == |sizes| == |groups| && |teamDiffVars| == Pairs(|groups|)
    requires forall x {:trigger sizes[x]} | 0 <= x < |groups| :: sizes[x] == |Concat(groups[..x + 1])|
    requires forall x {:trigger Start(sizes, x)} | 0 <= x < |sizes| :: Start(sizes, x) <= sizes[x] <= |perfVars|
    requires AllValid(vars)
    modifies vars
    ensures AllValid(vars) && Within(layers, vars)
    ensures Shaped(layers, env, groups, ranks, weights, backend)
    ensures |layers.priors| == |ratingVars| && forall i | 0 <= i < |ratingVars| :: layers.priors[i].v == ratingVars[i]
  {
    var priors, likelihoods := LayOutPlayers(env, Concat(groups), ratingVars, perfVars, vars);
    var teamPerfs, teamDiffs, truncs := LayOutTeams(env, groups, ranks, Concat(weights), backend, perfVars,
                                                    teamPerfVars, teamDiffVars, sizes, vars);
    layers := Layers(priors, likelihoods, teamPerfs, teamDiffs, truncs);
    LayersShaped(layers, env, groups, ranks, weights, backend, ratingVars, perfVars, teamPerfVars, teamDiffVars, sizes, vars);
  }

  /** The two layers with a factor per player: priors and likelihoods. */
  method LayOutPlayers(env: Env, players: seq<Gaussian>, ratingVars: seq<Variable>, perfVars: seq<Variable>,
                       ghost vars: set<Variable>)
    returns (priors: seq<PriorFactor>, likelihoods: seq<LikelihoodFactor>)
    requires |ratingVars| == |perfVars| == |players|
    requires forall v | v in ratingVars :: v in vars
    requires forall v | v in perfVars :: v in vars
    requires AllValid(vars)
    modifies vars
    ensures AllValid(vars)
    ensures |priors| == |players|
    ensures forall i | 0 <= i < |priors| ::
              && priors[i].v == ratingVars[i]
              && priors[i].val == players[i]
              && priors[i].dynamic == env.tau
    ensures |likelihoods| == |ratingVars|
    ensures forall i | 0 <= i < |likelihoods| ::
              && likelihoods[i].mean == ratingVars[i]
              && likelihoods[i].value == perfVars[i]
              && likelihoods[i].variance == env.beta * env.beta
  {
    priors := BuildPriors(ratingVars, players, env.tau, vars);
    likelihoods := BuildLikelihoods(ratingVars, perfVars, env.beta, vars);
  }

  /** The three layers with a factor per team or per pair of neighbouring
      teams: team sums, team differences and truncations. */
  method LayOutTeams(env: Env, groups: seq<seq<Gaussian>>, ranks: seq<int>, flatWeights: seq<real>, backend: Backend,
                     perfVars: seq<Variable>, teamPerfVars: seq<Variable>, teamDiffVars: seq<Variable>, sizes: seq<nat>,
                     ghost vars: set<Variable>)
    returns (teamPerfs: seq<SumFactor>, teamDiffs: seq<SumFactor>, truncs: seq<TruncateFactor>)
    requires |ranks| == |groups| && |perfVars| == |flatWeights|
    requires forall v | v in perfVars :: v in vars
    requires forall v | v in teamPerfVars :: v in vars
    requires forall v | v in teamDiffVars :: v in vars
    requires |teamPerfVars| == |sizes| == |groups| && |teamDiffVars| == Pairs(|groups|)
    requires forall x {:trigger Start(sizes, x)} | 0 <= x < |sizes| :: Start(sizes, x) <= sizes[x] <= |perfVars|
    requires AllValid(vars)
    modifies vars
    ensures AllValid(vars)
    ensures |teamPerfs| == |teamPerfVars|
    ensures forall x | 0 <= x < |teamPerfs| ::
              && teamPerfs[x].sum == teamPerfVars[x]
              && teamPerfs[x].terms == perfVars[Start(sizes, x)..sizes[x]]
              && teamPerfs[x].coeffs == flatWeights[Start(sizes, x)..sizes[x]]
    ensures |teamDiffs| == |teamDiffVars|
    ensures forall x {:trigger teamDiffs[x]} | 0 <= x < |teamDiffs| ::
              && teamDiffs[x].sum == teamDiffVars[x]
              && teamDiffs[x].terms == [teamPerfVars[x], teamPerfVars[x + 1]]
              && teamDiffs[x].coeffs == [1.0, -1.0]
    ensures |truncs| == |teamDiffVars|
    ensures forall x {:trigger truncs[x]} | 0 <= x < |truncs| ::
              && truncs[x].v == teamDiffVars[x]
              && TruncKind(truncs[x], ranks[x] == ranks[x + 1], backend)
              && truncs[x].drawMargin == DrawMargin(env.drawProbability, env.beta, |groups[x]| + |groups[x + 1]|, backend)
  {
    teamPerfs := BuildTeamPerfs(teamPerfVars, perfVars, sizes, flatWeights, vars);
    teamDiffs := BuildTeamDiffs(teamDiffVars, teamPerfVars, vars);
    truncs := BuildTruncs(teamDiffVars, groups, ranks, env, backend, vars);
  }

  /** `TrueSkill.build_factor_graph`: fresh variables for every skill,
      performance, team performance and team difference, connected by the
      five layers of factors; every variable starts consistent with its
      (uninformative) messages. */
  method BuildFactorGraph(env: Env, groups: seq<seq<Gaussian>>, ranks: seq<int>, weights: seq<seq<real>>,
                          backend: Backend)
    returns (layers: Layers, ghost vars: set<Variable>)
    requires |ranks| == |groups| && |weights| == |groups|
    requires forall x | 0 <= x < |groups| :: |weights[x]| == |groups[x]|
    ensures fresh(vars) && Within(layers, vars) && AllValid(vars)
    ensures Shaped(layers, env, groups, ranks, weights, backend)
    ensures forall i, j | 0 <= i < j < |layers.priors| :: layers.priors[i].v != layers.priors[j].v
  {
    ConcatSameShape(groups, weights);
    var n, g := |Concat(groups)|, |groups|;
    var ratingVars, perfVars, teamPerfVars, teamDiffVars;
    ratingVars, perfVars, teamPerfVars, teamDiffVars, vars := NewGraphVariables(n, g);
    var sizes := TeamSizes(groups);
    SizesBound(groups, sizes);
    forall x | 0 <= x < |sizes|
      ensures Start(sizes, x) <= sizes[x] <= |perfVars|
    {
      assert Start(sizes, x) <= sizes[x] <= |Concat(groups)|;
    }
    layers := LayOut(env, groups, ranks, weights, backend, ratingVars, perfVars, teamPerfVars, teamDiffVars, sizes, vars);
  }

  // ---------------------------------------------------------------------
  // The schedule, as the sequence of message passes it makes.

  /** `down()` of every factor of a layer, in order. */
  function DownAll(fs: seq<object>): (s: seq<Call>)
    ensures |s| == |fs| && forall i | 0 <= i < |fs| :: s[i] == Call(fs[i], DownMove)
  {
    seq(|fs|, i requires 0 <= i < |fs| => Call(fs[i], DownMove))
  }

  /** `up()` of every factor of a layer, in order. */
  function UpAll(fs: seq<object>): (s: seq<Call>)
    ensures |s| == |fs| && forall i | 0 <= i < |fs| :: s[i] == Call(fs[i], UpMove)
  {
    seq(|fs|, i requires 0 <= i < |fs| => Call(fs[i], UpMove))
  }

  /** Difference `x` down, then its truncation up. */
  function DownTrunc(layers: Layers, x: nat): seq<Call>
    requires x < |layers.teamDiffs| && x < |layers.truncs|
  {
    [Call(layers.teamDiffs[x], DownMove), Call(layers.truncs[x], UpMove)]
  }

  /** What happens to pair `x` of the difference chain in a sweep:
      difference `x` down, its truncation up, and the difference up to the
      team on side `side` (0 for the left team, 1 for the right). */
  function Triple(layers: Layers, x: nat, side: int): seq<Call>
    requires x < |layers.teamDiffs| && x < |layers.truncs|
  {
    [Call(layers.teamDiffs[x], DownMove), Call(layers.truncs[x], UpMove), Call(layers.teamDiffs[x], UpAtMove(side))]
  }

  /** The first loop of a round over several differences: pairs
      `0 .. k-1`, each sent up to its right team. */
  function Forward(layers: Layers, k: nat): (s: seq<Call>)
    requires k <= |layers.teamDiffs| && k <= |layers.truncs|
    ensures |s| == 3 * k
  {
    if k == 0 then [] else Forward(layers, k - 1) + Triple(layers, k - 1, 1)
  }

  /** The second loop: pairs `k` down to 1, each sent up to its left
      team; `Backward(layers, k, j)` is its first `j` pairs, `k` down to
      `k - j + 1`. */
  function Backward(layers: Layers, k: nat, j: nat): (s: seq<Call>)
    requires j <= k < |layers.teamDiffs| && k < |layers.truncs|
    ensures |s| == 3 * j
  {
    if j == 0 then [] else Backward(layers, k, j - 1) + Triple(layers, k - j + 1, 0)
  }

  /** The number of passes in a round over `m` differences. */
  function RoundLength(m: nat): nat
    requires m >= 1
  {
    if m == 1 then 2 else 6 * (m - 1)
  }

  /** One round of the loop: with a single difference, it goes down and its
      truncation up; with several, the forward then the backward loop. */
  function Round(layers: Layers): (s: seq<Call>)
    requires |layers.truncs| == |layers.teamDiffs| >= 1
    ensures |s| == RoundLength(|layers.teamDiffs|)
  {
    var m := |layers.teamDiffs|;
    if m == 1 then DownTrunc(layers, 0)
    else Forward(layers, m - 1) + Backward(layers, m - 1, m - 1)
  }

  /** `k` copies of a round. */
  function Repeat(s: seq<Call>, k: nat): (r: seq<Call>)
    ensures |r| == k * |s|
  {
    if k == 0 then [] else Repeat(s, k - 1) + s
  }

  /** `for x in xrange(len(f.vars) - 1): f.up(x)`: every term of a sum. */
  function TermUps(f: SumFactor): (s: seq<Call>)
    ensures |s| == |f.terms| && forall x | 0 <= x < |f.terms| :: s[x] == Call(f, UpAtMove(x))
  {
    seq(|f.terms|, x requires 0 <= x < |f.terms| => Call(f, UpAtMove(x)))
  }

  /** The terms of every team sum, team by team. */
  function TeamPerfUps(fs: seq<SumFactor>): seq<Call>
  {
    if |fs| == 0 then [] else TeamPerfUps(fs[..|fs| - 1]) + TermUps(fs[|fs| - 1])
  }

  /** What precedes the loop: every prior, likelihood and team sum down. */
  function Prelude(layers: Layers): seq<Call>
  {
    DownAll(layers.priors) + DownAll(layers.likelihoods) + DownAll(layers.teamPerfs)
  }

  /** What follows the loop: both ends of the difference chain up to their
      outer teams, every team sum up to its players, every likelihood up to
      its skill. */
  function Final(layers: Layers): seq<Call>
    requires |layers.teamDiffs| >= 1
  {
    Ends(layers) + TeamPerfUps(layers.teamPerfs) + UpAll(layers.likelihoods)
  }

  /** The first difference up to its left team, the last up to its right. */
  function Ends(layers: Layers): seq<Call>
    requires |layers.teamDiffs| >= 1
  {
    var m := |layers.teamDiffs|;
    [Call(layers.teamDiffs[0], UpAtMove(0)), Call(layers.teamDiffs[m - 1], UpAtMove(1))]
  }

  /** The forward loop's first `x` pairs and pair `x` begin the loop over
      `k > x` pairs. */
  lemma {:induction false} ForwardPairWithin(layers: Layers, x: nat, k: nat)
    requires x < k <= |layers.teamDiffs| && k <= |layers.truncs|
    ensures Forward(layers, x) + Triple(layers, x, 1) <= Forward(layers, k)
  {
    if x + 1 < k {
      ForwardPairWithin(layers, x, k - 1);
    }
  }

  /** The first `j` pairs of a backward loop are a prefix of its first
      `i` pairs, for `j <= i`. */
  lemma {:induction false} BackwardPrefix(layers: Layers, k: nat, j: nat, i: nat)
    requires j <= i <= k < |layers.teamDiffs| && k < |layers.truncs|
    ensures Backward(layers, k, j) <= Backward(layers, k, i)
  {
    if j < i {
      BackwardPrefix(layers, k, j, i - 1);
    }
  }

  /** The term passes of the first `f` team sums are a prefix of those of
      all of them. */
  lemma {:induction false} TeamPerfUpsPrefix(fs: seq<SumFactor>, f: nat)
    requires f <= |fs|
    ensures TeamPerfUps(fs[..f]) <= TeamPerfUps(fs)
  {
    if f < |fs| {
      var init := fs[..|fs| - 1];
      TeamPerfUpsPrefix(init, f);
      assert init[..f] == fs[..f];
    } else {
      assert fs[..f] == fs;
    }
  }

  /** The whole schedule when the loop ran `rounds` rounds. */
  function Schedule(layers: Layers, rounds: nat): seq<Call>
    requires |layers.truncs| == |layers.teamDiffs| >= 1
  {
    Prelude(layers) + Repeat(Round(layers), rounds) + Final(layers)
  }

  // The deltas, read off the changes the passes returned.

  /** The change the truncation of pair `j` of a sweep returned: the second
      of the pair's three passes. */
  function TruncChange(cs: seq<real>, j: nat): real
    requires 3 * j + 1 < |cs|
  {
    cs[3 * j + 1]
  }

  /** `delta = max(delta, trunc_layer[x].up())` over the first `k` pairs
      of a sweep, starting from `delta = 0`. */
  function SweepDelta(cs: seq<real>, k: nat): (d: real)
    requires 3 * k <= |cs|
  {
    if k == 0 then 0.0 else Max(SweepDelta(cs, k - 1), TruncChange(cs, k - 1))
  }

  /** A sweep's delta is the largest truncation change of the sweep, or 0
      when all are negative or there are none. */
  lemma {:induction false} SweepDeltaIsMax(cs: seq<real>, k: nat)
    requires 3 * k <= |cs|
    ensures SweepDelta(cs, k) >= 0.0
    ensures forall j | 0 <= j < k :: SweepDelta(cs, k) >= TruncChange(cs, j)
    ensures SweepDelta(cs, k) == 0.0 || exists j :: 0 <= j < k && SweepDelta(cs, k) == TruncChange(cs, j)
  {
    if k > 0 {
      SweepDeltaIsMax(cs, k - 1);
    }
  }

  /** A sweep split in two: the delta of the whole is the larger of the
      deltas of the parts. */
  lemma {:induction false} SweepDeltaAppend(s1: seq<real>, s2: seq<real>, k1: nat, k2: nat)
    requires |s1| == 3 * k1 && 3 * k2 <= |s2|
    ensures SweepDelta(s1 + s2, k1 + k2) == Max(SweepDelta(s1, k1), SweepDelta(s2, k2))
  {
    if k2 == 0 {
      SweepDeltaPrefix(s1, s1 + s2, k1);
      SweepDeltaIsMax(s1, k1);
    } else {
      SweepDeltaAppend(s1, s2, k1, k2 - 1);
      assert TruncChange(s1 + s2, k1 + k2 - 1) == TruncChange(s2, k2 - 1);
    }
  }

  /** A sweep's delta depends only on the passes it covers. */
  lemma {:induction false} SweepDeltaPrefix(s: seq<real>, t: seq<real>, k: nat)
    requires 3 * k <= |s| && s <= t
    ensures SweepDelta(t, k) == SweepDelta(s, k)
  {
    if k > 0 {
      SweepDeltaPrefix(s, t, k - 1);
      assert TruncChange(t, k - 1) == TruncChange(s, k - 1);
    }
  }

  /** One more pair in a sweep: the delta becomes the larger of the old
      delta and the pair's truncation change. */
  lemma SweepDeltaStep(s: seq<real>, triple: seq<real>, k: nat)
    requires |s| == 3 * k && |triple| == 3
    ensures SweepDelta(s + triple, k + 1) == Max(SweepDelta(s, k), triple[1])
  {
    SweepDeltaAppend(s, triple, k, 1);
    SweepDeltaIsMax(s, k);
  }

  /** The forward sweep's delta carried through the backward sweep is the
      delta of the round the two make up. */
  lemma TwoSweeps(forward: seq<real>, backward: seq<real>, round: seq<real>, k: nat, f: real, b: real)
    requires k >= 1 && |forward| == 3 * k && |backward| == 3 * k && round == forward + backward
    requires f == Max(0.0, SweepDelta(forward, k)) && b == Max(f, SweepDelta(backward, k))
    ensures b == RoundDelta(k + 1, round)
  {
    SweepDeltaAppend(forward, backward, k, k);
    SweepDeltaIsMax(forward, k);
  }

  /** A round's delta, from the changes of its passes: the truncation's
      change with one difference; with several, the largest truncation
      change, and at least 0. */
  function RoundDelta(m: nat, cs: seq<real>): real
    requires m >= 1 && |cs| == RoundLength(m)
  {
    if m == 1 then cs[1] else SweepDelta(cs, 2 * (m - 1))
  }

  /** The deltas of `n` rounds in a row, from the changes of their passes. */
  function RoundDeltas(m: nat, cs: seq<real>, n: nat): (ds: seq<real>)
    requires m >= 1 && |cs| == n * RoundLength(m)
    ensures |ds| == n
  {
    if n == 0 then []
    else
      OneRoundLess(n, RoundLength(m));
      var k := |cs| - RoundLength(m);
      RoundDeltas(m, cs[..k], n - 1) + [RoundDelta(m, cs[k..])]
  }

  /** `n` rounds are one round more than `n - 1`. */
  lemma OneRoundLess(n: nat, len: nat)
    requires n >= 1
    ensures n * len >= len && n * len - len == (n - 1) * len
  {
  }

  /** `for x in xrange(10)` with `if delta <= min_delta: break`: between one
      and ten rounds, every round but the last above `minDelta`, and the
      last at most `minDelta` unless the tenth round ended the loop. */
  ghost predicate StopRule(deltas: seq<real>, minDelta: real)
  {
    && 1 <= |deltas| <= 10
    && (forall j | 0 <= j < |deltas| - 1 :: deltas[j] > minDelta)
    && (|deltas| < 10 ==> deltas[|deltas| - 1] <= minDelta)
  }

  /** The passes `calls` of a whole run, with the changes they returned:
      the order of `Schedule` for some number of rounds, and round deltas,
      read off the changes, that obey the stopping rule. */
  ghost predicate Converged(layers: Layers, minDelta: real, calls: seq<Call>, changes: seq<real>)
  {
    && |layers.truncs| == |layers.teamDiffs| >= 1
    && |changes| == |calls|
    && exists n {:trigger Schedule(layers, n)} ::
         && 1 <= n <= 10
         && calls == Schedule(layers, n)
         && StopRule(RoundDeltas(|layers.teamDiffs|, changes[|Prelude(layers)|..|Prelude(layers)| + |Repeat(Round(layers), n)|], n), minDelta)
  }

  /** The loop raised `e`: from `(calls0, changes0)` the log gained `j <
      10` whole rounds, each with a delta above `min_delta` so that the loop
      went on, and then a proper prefix of one more round whose next pass
      raised. */
  ghost predicate RoundsAborted(layers: Layers, minDelta: real, calls0: seq<Call>, changes0: seq<real>,
                                calls1: seq<Call>, changes1: seq<real>, failed: Option<(Call, Error)>, e: Error)
    requires |layers.truncs| == |layers.teamDiffs| >= 1
  {
    exists j | 0 <= j < 10 :: AbortedInRound(layers, minDelta, calls0, changes0, calls1, changes1, failed, e, j)
  }

  /** `RoundsAborted` with `j` whole rounds before the one that raised. */
  ghost predicate AbortedInRound(layers: Layers, minDelta: real, calls0: seq<Call>, changes0: seq<real>,
                                 calls1: seq<Call>, changes1: seq<real>, failed: Option<(Call, Error)>, e: Error, j: nat)
    requires |layers.truncs| == |layers.teamDiffs| >= 1
  {
    var q := Repeat(Round(layers), j);
    && |changes0| + |q| <= |changes1|
    && Grew(calls0, changes0, calls0 + q, changes1[..|changes0| + |q|], q)
    && AllAbove(RoundDeltas(|layers.teamDiffs|, changes1[|changes0|..|changes0| + |q|], j), minDelta)
    && Stopped(calls0 + q, changes1[..|changes0| + |q|], calls1, changes1, failed, Round(layers), e)
  }

  /** Every delta is above `min_delta`: the loop went on after each. */
  ghost predicate AllAbove(deltas: seq<real>, minDelta: real)
  {
    forall i | 0 <= i < |deltas| :: deltas[i] > minDelta
  }

  /** A run of a non-empty difference chain raised `e`: the prelude
      stopped; or the prelude was logged and then the loop stopped; or the
      prelude and `n` rounds obeying the stopping rule were logged and then
      the final passes stopped. */
  ghost predicate Aborted(layers: Layers, minDelta: real, calls0: seq<Call>, changes0: seq<real>,
                          calls1: seq<Call>, changes1: seq<real>, failed: Option<(Call, Error)>, e: Error)
    requires |layers.truncs| == |layers.teamDiffs| >= 1
  {
    var p := Prelude(layers);
    || Stopped(calls0, changes0, calls1, changes1, failed, p, e)
    || (&& |changes0| + |p| <= |changes1|
        && Grew(calls0, changes0, calls0 + p, changes1[..|changes0| + |p|], p)
        && RoundsAborted(layers, minDelta, calls0 + p, changes1[..|changes0| + |p|], calls1, changes1, failed, e))
    || exists n | 1 <= n <= 10 :: AbortedInFinal(layers, minDelta, calls0, changes0, calls1, changes1, failed, e, n)
  }

  /** The last case of `Aborted`, after `n` rounds. */
  ghost predicate AbortedInFinal(layers: Layers, minDelta: real, calls0: seq<Call>, changes0: seq<real>,
                                 calls1: seq<Call>, changes1: seq<real>, failed: Option<(Call, Error)>, e: Error, n: nat)
    requires |layers.truncs| == |layers.teamDiffs| >= 1
  {
    var p, q := Prelude(layers), Repeat(Round(layers), n);
    && |changes0| + |p| + |q| <= |changes1|
    && Grew(calls0, changes0, calls0 + p + q, changes1[..|changes0| + |p| + |q|], p + q)
    && StopRule(RoundDeltas(|layers.teamDiffs|, changes1[|changes0| + |p|..|changes0| + |p| + |q|], n), minDelta)
    && Stopped(calls0 + p + q, changes1[..|changes0| + |p| + |q|], calls1, changes1, failed, Final(layers), e)
  }

  /** A run with a non-negative `min_delta` raised `e`. With no difference
      chain at all, either the prelude stopped, or it was logged whole and
      the loop's first index raised `IndexError`; otherwise `Aborted`. */
  ghost predicate Raised(layers: Layers, minDelta: real, calls0: seq<Call>, changes0: seq<real>,
                         calls1: seq<Call>, changes1: seq<real>, failed: Option<(Call, Error)>, e: Error)
    requires |layers.truncs| == |layers.teamDiffs|
  {
    if |layers.teamDiffs| == 0 then
      || Stopped(calls0, changes0, calls1, changes1, failed, Prelude(layers), e)
      || (e == IndexError && Grew(calls0, changes0, calls1, changes1, Prelude(layers)))
    else Aborted(layers, minDelta, calls0, changes0, calls1, changes1, failed, e)
  }

  /** The log went from `(calls0, changes0)` to `(calls1, changes1)` by the
      passes `added`, each with its change. */
  ghost predicate Grew(calls0: seq<Call>, changes0: seq<real>, calls1: seq<Call>, changes1: seq<real>, added: seq<Call>)
  {
    && calls1 == calls0 + added
    && |changes1| == |changes0| + |added|
    && changes0 <= changes1
  }

  /** Growth in two steps is growth by both. */
  lemma GrewTwice(c0: seq<Call>, h0: seq<real>, c1: seq<Call>, h1: seq<real>, c2: seq<Call>, h2: seq<real>,
                  a: seq<Call>, b: seq<Call>)
    requires Grew(c0, h0, c1, h1, a) && Grew(c1, h1, c2, h2, b)
    ensures Grew(c0, h0, c2, h2, a + b)
    ensures h2[|h0|..] == h1[|h0|..] + h2[|h1|..]
  {
    assert h1 == h2[..|h1|];
    assert h2[|h0|..] == h2[|h0|..|h1|] + h2[|h1|..];
  }

  /** Two logged passes are growth by the two. */
  lemma GrewByTwo(c0: seq<Call>, h0: seq<real>, c2: seq<Call>, h2: seq<real>, calls: seq<Call>, changes: seq<real>)
    requires |calls| == 2 && |changes| == 2
    requires c2 == c0 + [calls[0]] + [calls[1]]
    requires h2 == h0 + [changes[0]] + [changes[1]]
    ensures Grew(c0, h0, c2, h2, calls)
    ensures h2[|h0|..] == changes
  {
    assert calls == [calls[0]] + [calls[1]];
  }

  /** Three logged passes are growth by the three. */
  lemma GrewByThree(c0: seq<Call>, h0: seq<real>, c3: seq<Call>, h3: seq<real>, calls: seq<Call>, changes: seq<real>)
    requires |calls| == 3 && |changes| == 3
    requires c3 == c0 + [calls[0]] + [calls[1]] + [calls[2]]
    requires h3 == h0 + [changes[0]] + [changes[1]] + [changes[2]]
    ensures Grew(c0, h0, c3, h3, calls)
    ensures h3[|h0| + 1] == changes[1]
  {
    assert calls == [calls[0]] + [calls[1]] + [calls[2]];
  }

  /** One logged pass is growth by that pass. */
  lemma GrewByOne(log0: seq<Call>, h0: seq<real>, c: Call, d: real)
    ensures Grew(log0, h0, log0 + [c], h0 + [d], [c])
    ensures (h0 + [d])[|h0|..] == [d]
  {
  }

  /** The log went from `(calls0, changes0)` by a proper prefix of the
      passes `planned`, each with its change, and the next planned pass
      then raised `e`: `failed` records that pass. */
  ghost predicate Stopped(calls0: seq<Call>, changes0: seq<real>, calls1: seq<Call>, changes1: seq<real>,
                          failed: Option<(Call, Error)>, planned: seq<Call>, e: Error)
  {
    && |calls0| <= |calls1| < |calls0| + |planned|
    && Grew(calls0, changes0, calls1, changes1, planned[..|calls1| - |calls0|])
    && failed == Some((planned[|calls1| - |calls0|], e))
  }

  /** The first planned pass raised, before anything was logged. */
  lemma StoppedFirst(c0: seq<Call>, h0: seq<real>, failed: Option<(Call, Error)>, planned: seq<Call>, e: Error)
    requires |planned| >= 1 && failed == Some((planned[0], e))
    ensures Stopped(c0, h0, c0, h0, failed, planned, e)
  {
    assert planned[..0] == [];
  }

  /** The same, after the first planned pass was logged with change `d`. */
  lemma StoppedSecond(c0: seq<Call>, h0: seq<real>, d: real, failed: Option<(Call, Error)>, planned: seq<Call>, e: Error)
    requires |planned| >= 2 && failed == Some((planned[1], e))
    ensures Stopped(c0, h0, c0 + [planned[0]], h0 + [d], failed, planned, e)
  {
    assert planned[..1] == [planned[0]];
  }

  /** Logging the next planned pass extends growth by the planned passes
      before it. */
  lemma StepLogged(c0: seq<Call>, h0: seq<real>, c1: seq<Call>, h1: seq<real>, planned: seq<Call>, i: nat, d: real)
    requires i < |planned| && Grew(c0, h0, c1, h1, planned[..i])
    ensures Grew(c0, h0, c1 + [planned[i]], h1 + [d], planned[..i + 1])
  {
    assert planned[..i + 1] == planned[..i] + [planned[i]];
  }

  /** A stopped log only grew. */
  lemma StoppedExtends(c0: seq<Call>, h0: seq<real>, c1: seq<Call>, h1: seq<real>, failed: Option<(Call, Error)>,
                       planned: seq<Call>, e: Error)
    requires Stopped(c0, h0, c1, h1, failed, planned, e)
    ensures c0 <= c1 && h0 <= h1
  {
  }

  /** The passes `done` were logged and the pass after them raised. */
  lemma StoppedAt(c0: seq<Call>, h0: seq<real>, c1: seq<Call>, h1: seq<real>, failed: Option<(Call, Error)>,
                  done: seq<Call>, planned: seq<Call>, e: Error)
    requires Grew(c0, h0, c1, h1, done)
    requires |done| < |planned| && planned[..|done|] == done
    requires failed == Some((planned[|done|], e))
    ensures Stopped(c0, h0, c1, h1, failed, planned, e)
  {
    assert |c1| - |c0| == |done|;
  }

  /** Growth by `a`, then a stop within `b`, is a stop within `a + b`. */
  lemma StoppedAfter(c0: seq<Call>, h0: seq<real>, c1: seq<Call>, h1: seq<real>, c2: seq<Call>, h2: seq<real>,
                     failed: Option<(Call, Error)>, a: seq<Call>, b: seq<Call>, e: Error)
    requires Grew(c0, h0, c1, h1, a) && Stopped(c1, h1, c2, h2, failed, b, e)
    ensures Stopped(c0, h0, c2, h2, failed, a + b, e)
  {
    var k := |c2| - |c1|;
    assert (a + b)[..|a| + k] == a + b[..k];
    assert (a + b)[|a| + k] == b[k];
    GrewTwice(c0, h0, c1, h1, c2, h2, a, b[..k]);
  }

  /** A stop within a plan is a stop within every plan that begins with
      it. */
  lemma StoppedWithin(c0: seq<Call>, h0: seq<real>, c1: seq<Call>, h1: seq<real>, failed: Option<(Call, Error)>,
                      a: seq<Call>, p: seq<Call>, e: Error)
    requires Stopped(c0, h0, c1, h1, failed, a, e) && a <= p
    ensures Stopped(c0, h0, c1, h1, failed, p, e)
  {
    var k := |c1| - |c0|;
    assert p[..k] == a[..k] && p[k] == a[k];
  }

  /** Growth by `a`, then a stop within `b`, is a stop within every plan
      that begins with `a + b`. */
  lemma StoppedInside(c0: seq<Call>, h0: seq<real>, c1: seq<Call>, h1: seq<real>, c2: seq<Call>, h2: seq<real>,
                      failed: Option<(Call, Error)>, a: seq<Call>, b: seq<Call>, p: seq<Call>, e: Error)
    requires Grew(c0, h0, c1, h1, a) && Stopped(c1, h1, c2, h2, failed, b, e) && a + b <= p
    ensures Stopped(c0, h0, c2, h2, failed, p, e)
  {
    StoppedAfter(c0, h0, c1, h1, c2, h2, failed, a, b, e);
    StoppedWithin(c0, h0, c2, h2, failed, a + b, p, e);
  }

  // ---------------------------------------------------------------------
  // Single message passes. Each keeps every variable of the graph
  // consistent, and passes on from the factor method the call it logged,
  // the belief it wrote and the change it returned.

  /** `down()` of a prior: its variable's belief becomes the widened
      prior. */
  method PriorDown(f: PriorFactor, sqrt: real -> real, ghost vars: set<Variable>, ghost log: Log)
    returns (r: Result<real>)
    requires f.v in vars && AllValid(vars)
    modifies f.v, log
    ensures AllValid(vars)
    ensures Logged(log, old(log.calls), old(log.changes), old(log.failed), Call(f, DownMove), r)
    ensures PriorValue(f.val, f.dynamic).Failure? ==>
              r == Failure(PriorValue(f.val, f.dynamic).error) && unchanged(f.v)
    ensures PriorValue(f.val, f.dynamic).Success? && f !in old(f.v.messages) ==>
              r == Failure(KeyError) && unchanged(f.v)
    ensures PriorValue(f.val, f.dynamic).Success? && f in old(f.v.messages) ==>
              && f.v.Value() == PriorValue(f.val, f.dynamic).value
              && f.v.messages == old(f.v.messages)[f := Div(Mul(f.v.Value(), old(f.v.messages)[f]), old(f.v.Value()))]
              && r == Success(Delta(old(f.v.Value()), f.v.Value(), sqrt))
  {
    r := f.Down(sqrt, log);
  }

  /** `down()` of a likelihood: the performance trades its old message
      from the factor for `LikelihoodDown` of the skill. */
  method LikelihoodDownPass(f: LikelihoodFactor, sqrt: real -> real, ghost vars: set<Variable>, ghost log: Log)
    returns (r: Result<real>)
    requires f.value in vars && AllValid(vars)
    modifies f.value, log
    ensures AllValid(vars)
    ensures Logged(log, old(log.calls), old(log.changes), old(log.failed), Call(f, DownMove), r)
    ensures f !in old(f.mean.messages) ==> r == Failure(KeyError) && unchanged(f.value)
    ensures f in old(f.mean.messages) ==>
              var msg := LikelihoodDown(f.variance, old(f.mean.Value()).pi, Div(old(f.mean.Value()), old(f.mean.messages)[f]));
              && (msg.Failure? ==> r == Failure(msg.error) && unchanged(f.value))
              && (msg.Success? && f !in old(f.value.messages) ==> r == Failure(KeyError) && unchanged(f.value))
              && (msg.Success? && f in old(f.value.messages) ==>
                    && f.value.messages == old(f.value.messages)[f := msg.value]
                    && f.value.Value() == Mul(Div(old(f.value.Value()), old(f.value.messages)[f]), msg.value)
                    && r == Success(Delta(old(f.value.Value()), f.value.Value(), sqrt)))
  {
    r := f.Down(sqrt, log);
  }

  /** `up()` of a likelihood: the skill trades its old message from the
      factor for `LikelihoodUp` of the performance. */
  method LikelihoodUpPass(f: LikelihoodFactor, sqrt: real -> real, ghost vars: set<Variable>, ghost log: Log)
    returns (r: Result<real>)
    requires f.mean in vars && AllValid(vars)
    modifies f.mean, log
    ensures AllValid(vars)
    ensures Logged(log, old(log.calls), old(log.changes), old(log.failed), Call(f, UpMove), r)
    ensures f !in old(f.value.messages) ==> r == Failure(KeyError) && unchanged(f.mean)
    ensures f in old(f.value.messages) ==>
              var msg := LikelihoodUp(f.variance, Div(old(f.value.Value()), old(f.value.messages)[f]));
              && (msg.Failure? ==> r == Failure(msg.error) && unchanged(f.mean))
              && (msg.Success? && f !in old(f.mean.messages) ==> r == Failure(KeyError) && unchanged(f.mean))
              && (msg.Success? && f in old(f.mean.messages) ==>
                    && f.mean.messages == old(f.mean.messages)[f := msg.value]
                    && f.mean.Value() == Mul(Div(old(f.mean.Value()), old(f.mean.messages)[f]), msg.value)
                    && r == Success(Delta(old(f.mean.Value()), f.mean.Value(), sqrt)))
  {
    r := f.Up(sqrt, log);
  }

  /** `down()` of a sum: the sum variable trades its old message from the
      factor for the weighted sum of the terms. */
  method SumDown(f: SumFactor, sqrt: real -> real, ghost vars: set<Variable>, ghost log: Log)
    returns (r: Result<real>)
    requires f.sum in vars && AllValid(vars)
    modifies f.sum, log
    ensures AllValid(vars)
    ensures Logged(log, old(log.calls), old(log.changes), old(log.failed), Call(f, DownMove), r)
    ensures old(f.Messages(f.terms)).Failure? ==> r == Failure(KeyError) && unchanged(f.sum)
    ensures old(f.Messages(f.terms)).Success? ==>
              var m := old(SumMessage(f.Quotients(f.terms, f.Messages(f.terms).value), f.coeffs));
              && (m.Failure? ==> r == Failure(m.error) && unchanged(f.sum))
              && (m.Success? && f !in old(f.sum.messages) ==> r == Failure(KeyError) && unchanged(f.sum))
              && (m.Success? && f in old(f.sum.messages) ==>
                    && f.sum.messages == old(f.sum.messages)[f := m.value]
                    && f.sum.Value() == Mul(Div(old(f.sum.Value()), old(f.sum.messages)[f]), m.value)
                    && r == Success(Delta(old(f.sum.Value()), f.sum.Value(), sqrt)))
  {
    r := f.Down(sqrt, log);
  }

  /** `up(index)` of a sum: the term at `index` trades its old message
      from the factor for the sum solved for that term. */
  method SumUp(f: SumFactor, index: int, sqrt: real -> real, ghost vars: set<Variable>, ghost log: Log)
    returns (r: Result<real>)
    requires (forall t | t in f.terms :: t in vars) && AllValid(vars)
    modifies log, if 0 <= PyIndex(index, |f.terms|) < |f.terms| then {f.terms[PyIndex(index, |f.terms|)]} else {}
    ensures AllValid(vars)
    ensures Logged(log, old(log.calls), old(log.changes), old(log.failed), Call(f, UpAtMove(index)), r)
    ensures !(0 <= PyIndex(index, |f.coeffs|) < |f.coeffs|) || !(0 <= PyIndex(index, |f.terms|) < |f.terms|) ==>
              r == Failure(IndexError)
    ensures 0 <= PyIndex(index, |f.coeffs|) < |f.coeffs| && 0 <= PyIndex(index, |f.terms|) < |f.terms| ==>
              var t := f.terms[PyIndex(index, |f.terms|)];
              var vals := f.terms[PyIndex(index, |f.terms|) := f.sum];
              var cs := Rewritten(f.coeffs, index, f.coeffs[PyIndex(index, |f.coeffs|)]);
              && (old(f.Messages(vals)).Failure? ==> r == Failure(KeyError) && unchanged(t))
              && (old(f.Messages(vals)).Success? ==>
                    var m := old(SumMessage(f.Quotients(vals, f.Messages(vals).value), cs));
                    && (m.Failure? ==> r == Failure(m.error) && unchanged(t))
                    && (m.Success? && f !in old(t.messages) ==> r == Failure(KeyError) && unchanged(t))
                    && (m.Success? && f in old(t.messages) ==>
                          && t.messages == old(t.messages)[f := m.value]
                          && t.Value() == Mul(Div(old(t.Value()), old(t.messages)[f]), m.value)
                          && r == Success(Delta(old(t.Value()), t.Value(), sqrt))))
  {
    r := f.Up(index, sqrt, log);
  }

  /** `up()` of a truncation: its variable's belief becomes the truncated
      moments of its quotient by the stored message. */
  method TruncUp(f: TruncateFactor, sqrt: real -> real, ghost vars: set<Variable>, ghost log: Log)
    returns (r: Result<real>)
    requires f.v in vars && AllValid(vars)
    modifies f.v, log
    ensures AllValid(vars)
    ensures Logged(log, old(log.calls), old(log.changes), old(log.failed), Call(f, UpMove), r)
    ensures f !in old(f.v.messages) ==> r == Failure(KeyError) && unchanged(f.v)
    ensures f in old(f.v.messages) ==>
              var div := Div(old(f.v.Value()), old(f.v.messages)[f]);
              var value := TruncateValue(div, sqrt(div.pi), f.vFunc, f.wFunc, f.drawMargin);
              && (value.Failure? ==> r == Failure(value.error) && unchanged(f.v))
              && (value.Success? ==>
                    && f.v.Value() == value.value
                    && f.v.messages == old(f.v.messages)[f := Div(Mul(value.value, old(f.v.messages)[f]), old(f.v.Value()))]
                    && r == Success(Delta(old(f.v.Value()), value.value, sqrt)))
  {
    r := f.Up(sqrt, log);
  }

  // ---------------------------------------------------------------------
  // Running the schedule. Every factor method called below logs its own
  // pass; the contracts here say which passes the log gained.

  /** The first pass: every prior down. */
  method DownPriors(fs: seq<PriorFactor>, sqrt: real -> real, ghost vars: set<Variable>, ghost log: Log)
    returns (r: Result<()>)
    requires AllValid(vars) && forall f | f in fs :: f.v in vars
    modifies vars, log
    ensures AllValid(vars)
    ensures r.Success? ==> Grew(old(log.calls), old(log.changes), log.calls, log.changes, DownAll(fs))
    ensures r.Failure? ==> Stopped(old(log.calls), old(log.changes), log.calls, log.changes, log.failed, DownAll(fs), r.error)
  {
    ghost var c0, h0 := log.calls, log.changes;
    for i := 0 to |fs|
      invariant AllValid(vars)
      invariant Grew(c0, h0, log.calls, log.changes, DownAll(fs)[..i])
    {
      ghost var c1, h1 := log.calls, log.changes;
      var d := PriorDown(fs[i], sqrt, vars, log);
      if d.Failure? {
        StoppedAt(c0, h0, log.calls, log.changes, log.failed, DownAll(fs)[..i], DownAll(fs), d.error);
        return Failure(d.error);
      }
      StepLogged(c0, h0, c1, h1, DownAll(fs), i, d.value);
    }
    assert DownAll(fs)[..|fs|] == DownAll(fs);
    r := Success(());
  }

  /** Every likelihood down. */
  method DownLikelihoods(fs: seq<LikelihoodFactor>, sqrt: real -> real, ghost vars: set<Variable>, ghost log: Log)
    returns (r: Result<()>)
    requires AllValid(vars) && forall f | f in fs :: f.mean in vars && f.value in vars
    modifies vars, log
    ensures AllValid(vars)
    ensures r.Success? ==> Grew(old(log.calls), old(log.changes), log.calls, log.changes, DownAll(fs))
    ensures r.Failure? ==> Stopped(old(log.calls), old(log.changes), log.calls, log.changes, log.failed, DownAll(fs), r.error)
  {
    ghost var c0, h0 := log.calls, log.changes;
    for i := 0 to |fs|
      invariant AllValid(vars)
      invariant Grew(c0, h0, log.calls, log.changes, DownAll(fs)[..i])
    {
      ghost var c1, h1 := log.calls, log.changes;
      var d := LikelihoodDownPass(fs[i], sqrt, vars, log);
      if d.Failure? {
        StoppedAt(c0, h0, log.calls, log.changes, log.failed, DownAll(fs)[..i], DownAll(fs), d.error);
        return Failure(d.error);
      }
      StepLogged(c0, h0, c1, h1, DownAll(fs), i, d.value);
    }
    assert DownAll(fs)[..|fs|] == DownAll(fs);
    r := Success(());
  }

  /** Every team-performance sum down. */
  method DownTeamPerfs(fs: seq<SumFactor>, sqrt: real -> real, ghost vars: set<Variable>, ghost log: Log)
    returns (r: Result<()>)
    requires AllValid(vars) && forall f | f in fs :: f.sum in vars
    modifies vars, log
    ensures AllValid(vars)
    ensures r.Success? ==> Grew(old(log.calls), old(log.changes), log.calls, log.changes, DownAll(fs))
    ensures r.Failure? ==> Stopped(old(log.calls), old(log.changes), log.calls, log.changes, log.failed, DownAll(fs), r.error)
  {
    ghost var c0, h0 := log.calls, log.changes;
    for i := 0 to |fs|
      invariant AllValid(vars)
      invariant Grew(c0, h0, log.calls, log.changes, DownAll(fs)[..i])
    {
      ghost var c1, h1 := log.calls, log.changes;
      var d := SumDown(fs[i], sqrt, vars, log);
      if d.Failure? {
        StoppedAt(c0, h0, log.calls, log.changes, log.failed, DownAll(fs)[..i], DownAll(fs), d.error);
        return Failure(d.error);
      }
      StepLogged(c0, h0, c1, h1, DownAll(fs), i, d.value);
    }
    assert DownAll(fs)[..|fs|] == DownAll(fs);
    r := Success(());
  }

  /** Difference `x` down, then its truncation up; the result is the
      truncation's change. This is the whole round of a single difference,
      and the start of every pair of a sweep. */
  method DownTruncate(layers: Layers, x: nat, sqrt: real -> real, ghost vars: set<Variable>, ghost log: Log)
    returns (r: Result<real>)
    requires Within(layers, vars) && AllValid(vars)
    requires x < |layers.teamDiffs| && x < |layers.truncs|
    modifies vars, log
    ensures AllValid(vars)
    ensures r.Success? ==> Grew(old(log.calls), old(log.changes), log.calls, log.changes, DownTrunc(layers, x))
    ensures r.Success? ==> log.changes[|old(log.changes)| + 1] == r.value
    ensures r.Failure? ==>
              Stopped(old(log.calls), old(log.changes), log.calls, log.changes, log.failed, DownTrunc(layers, x), r.error)
  {
    ghost var c0, h0 := log.calls, log.changes;
    ghost var pair := DownTrunc(layers, x);
    var diff := layers.teamDiffs[x];
    assert diff in layers.teamDiffs;
    var d := SumDown(diff, sqrt, vars, log);
    if d.Failure? {
      StoppedFirst(c0, h0, log.failed, pair, d.error);
      return Failure(d.error);
    }
    r := TruncUp(layers.truncs[x], sqrt, vars, log);
    if r.Success? {
      GrewByTwo(c0, h0, log.calls, log.changes, pair, [d.value, r.value]);
    } else {
      StoppedSecond(c0, h0, d.value, log.failed, pair, r.error);
    }
  }

  /** Pair `x` of a sweep: difference `x` down, its truncation up, and the
      difference up to the team on side `side`. The result is the
      truncation's change. */
  method PairPass(layers: Layers, x: nat, side: int, sqrt: real -> real, ghost vars: set<Variable>, ghost log: Log)
    returns (r: Result<real>)
    requires Within(layers, vars) && AllValid(vars)
    requires x < |layers.teamDiffs| && x < |layers.truncs|
    modifies vars, log
    ensures AllValid(vars)
    ensures r.Success? ==> Grew(old(log.calls), old(log.changes), log.calls, log.changes, Triple(layers, x, side))
    ensures r.Success? ==> log.changes[|old(log.changes)| + 1] == r.value
    ensures r.Failure? ==>
              Stopped(old(log.calls), old(log.changes), log.calls, log.changes, log.failed, Triple(layers, x, side), r.error)
  {
    ghost var c0, h0 := log.calls, log.changes;
    ghost var up := [Call(layers.teamDiffs[x], UpAtMove(side))];
    assert Triple(layers, x, side) == DownTrunc(layers, x) + up;
    var t := DownTruncate(layers, x, sqrt, vars, log);
    if t.Failure? {
      StoppedWithin(c0, h0, log.calls, log.changes, log.failed, DownTrunc(layers, x), Triple(layers, x, side), t.error);
      return Failure(t.error);
    }
    ghost var c1, h1 := log.calls, log.changes;
    var diff := layers.teamDiffs[x];
    assert diff in layers.teamDiffs;
    var u := SumUp(diff, side, sqrt, vars, log);
    if u.Failure? {
      StoppedFirst(c1, h1, log.failed, up, u.error);
      StoppedAfter(c0, h0, c1, h1, log.calls, log.changes, log.failed, DownTrunc(layers, x), up, u.error);
      return Failure(u.error);
    }
    GrewByOne(c1, h1, up[0], u.value);
    GrewTwice(c0, h0, c1, h1, log.calls, log.changes, DownTrunc(layers, x), up);
    r := Success(t.value);
  }

  /** A pair of the forward loop that stopped is the forward loop
      stopping. */
  lemma ForwardStopped(layers: Layers, x: nat, k: nat, c0: seq<Call>, h0: seq<real>, c1: seq<Call>, h1: seq<real>,
                       c2: seq<Call>, h2: seq<real>, failed: Option<(Call, Error)>, e: Error)
    requires x < k <= |layers.teamDiffs| && k <= |layers.truncs|
    requires Grew(c0, h0, c1, h1, Forward(layers, x))
    requires Stopped(c1, h1, c2, h2, failed, Triple(layers, x, 1), e)
    ensures Stopped(c0, h0, c2, h2, failed, Forward(layers, k), e)
  {
    ForwardPairWithin(layers, x, k);
    StoppedInside(c0, h0, c1, h1, c2, h2, failed, Forward(layers, x), Triple(layers, x, 1), Forward(layers, k), e);
  }

  /** A pair of the backward loop that stopped is the backward loop
      stopping. */
  lemma BackwardStopped(layers: Layers, k: nat, x: nat, c0: seq<Call>, h0: seq<real>, c1: seq<Call>, h1: seq<real>,
                        c2: seq<Call>, h2: seq<real>, failed: Option<(Call, Error)>, e: Error)
    requires 0 < x <= k < |layers.teamDiffs| && k < |layers.truncs|
    requires Grew(c0, h0, c1, h1, Backward(layers, k, k - x))
    requires Stopped(c1, h1, c2, h2, failed, Triple(layers, x, 0), e)
    ensures Stopped(c0, h0, c2, h2, failed, Backward(layers, k, k), e)
  {
    BackwardPrefix(layers, k, k - x + 1, k);
    StoppedInside(c0, h0, c1, h1, c2, h2, failed, Backward(layers, k, k - x), Triple(layers, x, 0), Backward(layers, k, k), e);
  }

  /** The first loop of a round: pairs `0 .. k-1`, each up to its right
      team; the result is `max(delta0, ...)` of their truncation changes. */
  method ForwardPass(layers: Layers, k: nat, delta0: real, sqrt: real -> real, ghost vars: set<Variable>, ghost log: Log)
    returns (r: Result<real>)
    requires Within(layers, vars) && AllValid(vars)
    requires k <= |layers.teamDiffs| && k <= |layers.truncs| && delta0 >= 0.0
    modifies vars, log
    ensures AllValid(vars)
    ensures r.Success? ==> Grew(old(log.calls), old(log.changes), log.calls, log.changes, Forward(layers, k))
    ensures r.Success? ==> r.value == Max(delta0, SweepDelta(log.changes[|old(log.changes)|..], k))
    ensures r.Failure? ==> Stopped(old(log.calls), old(log.changes), log.calls, log.changes, log.failed, Forward(layers, k), r.error)
  {
    ghost var c0, h0 := log.calls, log.changes;
    var delta := delta0;
    for x := 0 to k
      invariant AllValid(vars)
      invariant Grew(c0, h0, log.calls, log.changes, Forward(layers, x))
      invariant delta == Max(delta0, SweepDelta(log.changes[|h0|..], x))
    {
      ghost var c1, h1 := log.calls, log.changes;
      var t := PairPass(layers, x, 1, sqrt, vars, log);
      if t.Failure? {
        ForwardStopped(layers, x, k, c0, h0, c1, h1, log.calls, log.changes, log.failed, t.error);
        return Failure(t.error);
      }
      GrewTwice(c0, h0, c1, h1, log.calls, log.changes, Forward(layers, x), Triple(layers, x, 1));
      SweepDeltaStep(h1[|h0|..], log.changes[|h1|..], x);
      delta := Max(delta, t.value);
    }
    r := Success(delta);
  }

  /** The second loop of a round: pairs `k` down to 1, each up to its left
      team; the result is `max(delta0, ...)` of their truncation changes. */
  method BackwardPass(layers: Layers, k: nat, delta0: real, sqrt: real -> real, ghost vars: set<Variable>, ghost log: Log)
    returns (r: Result<real>)
    requires Within(layers, vars) && AllValid(vars)
    requires k < |layers.teamDiffs| && k < |layers.truncs| && delta0 >= 0.0
    modifies vars, log
    ensures AllValid(vars)
    ensures r.Success? ==> Grew(old(log.calls), old(log.changes), log.calls, log.changes, Backward(layers, k, k))
    ensures r.Success? ==> r.value == Max(delta0, SweepDelta(log.changes[|old(log.changes)|..], k))
    ensures r.Failure? ==>
              Stopped(old(log.calls), old(log.changes), log.calls, log.changes, log.failed, Backward(layers, k, k), r.error)
  {
    ghost var c0, h0 := log.calls, log.changes;
    var delta := delta0;
    var x := k;
    while x > 0
      invariant 0 <= x <= k
      invariant AllValid(vars)
      invariant Grew(c0, h0, log.calls, log.changes, Backward(layers, k, k - x))
      invariant delta == Max(delta0, SweepDelta(log.changes[|h0|..], k - x))
    {
      ghost var c1, h1 := log.calls, log.changes;
      var t := PairPass(layers, x, 0, sqrt, vars, log);
      if t.Failure? {
        BackwardStopped(layers, k, x, c0, h0, c1, h1, log.calls, log.changes, log.failed, t.error);
        return Failure(t.error);
      }
      GrewTwice(c0, h0, c1, h1, log.calls, log.changes, Backward(layers, k, k - x), Triple(layers, x, 0));
      SweepDeltaStep(h1[|h0|..], log.changes[|h1|..], k - x);
      delta := Max(delta, t.value);
      x := x - 1;
    }
    r := Success(delta);
  }

  /** One round through the difference chain; the result is the round's
      delta, `RoundDelta` of the changes its passes returned. */
  method RunRound(layers: Layers, sqrt: real -> real, ghost vars: set<Variable>, ghost log: Log)
    returns (r: Result<real>)
    requires Within(layers, vars) && AllValid(vars)
    requires |layers.truncs| == |layers.teamDiffs| >= 1
    modifies vars, log
    ensures AllValid(vars)
    ensures r.Success? ==> Grew(old(log.calls), old(log.changes), log.calls, log.changes, Round(layers))
    ensures r.Success? ==> r.value == RoundDelta(|layers.teamDiffs|, log.changes[|old(log.changes)|..])
    ensures r.Failure? ==> Stopped(old(log.calls), old(log.changes), log.calls, log.changes, log.failed, Round(layers), r.error)
  {
    ghost var c0, h0 := log.calls, log.changes;
    var m := |layers.teamDiffs|;
    if m == 1 {
      r := DownTruncate(layers, 0, sqrt, vars, log);
      if r.Success? {
        SingleRoundLogged(layers, c0, h0, log.calls, log.changes, r.value);
      }
      return;
    }
    var forward := ForwardPass(layers, m - 1, 0.0, sqrt, vars, log);
    if forward.Failure? {
      StoppedWithin(c0, h0, log.calls, log.changes, log.failed, Forward(layers, m - 1), Round(layers), forward.error);
      return forward;
    }
    ghost var c1, h1 := log.calls, log.changes;
    r := BackwardPass(layers, m - 1, forward.value, sqrt, vars, log);
    if r.Success? {
      SweepsLogged(layers, c0, h0, c1, h1, log.calls, log.changes, forward.value, r.value);
    } else {
      StoppedAfter(c0, h0, c1, h1, log.calls, log.changes, log.failed, Forward(layers, m - 1), Backward(layers, m - 1, m - 1), r.error);
    }
  }

  /** A round of one difference is its difference down and its truncation up. */
  lemma SingleRoundLogged(layers: Layers, c0: seq<Call>, h0: seq<real>, c1: seq<Call>, h1: seq<real>, v: real)
    requires |layers.truncs| == |layers.teamDiffs| == 1
    requires Grew(c0, h0, c1, h1, DownTrunc(layers, 0)) && h1[|h0| + 1] == v
    ensures Grew(c0, h0, c1, h1, Round(layers))
    ensures v == RoundDelta(1, h1[|h0|..])
  {
    assert h1[|h0|..][1] == h1[|h0| + 1];
  }

  /** A round of several differences is its forward sweep, then its backward one. */
  lemma SweepsLogged(layers: Layers, c0: seq<Call>, h0: seq<real>, c1: seq<Call>, h1: seq<real>,
                     c2: seq<Call>, h2: seq<real>, f: real, b: real)
    requires |layers.truncs| == |layers.teamDiffs| >= 2
    requires Grew(c0, h0, c1, h1, Forward(layers, |layers.teamDiffs| - 1))
    requires Grew(c1, h1, c2, h2, Backward(layers, |layers.teamDiffs| - 1, |layers.teamDiffs| - 1))
    requires f == Max(0.0, SweepDelta(h1[|h0|..], |layers.teamDiffs| - 1))
    requires b == Max(f, SweepDelta(h2[|h1|..], |layers.teamDiffs| - 1))
    ensures Grew(c0, h0, c2, h2, Round(layers))
    ensures b == RoundDelta(|layers.teamDiffs|, h2[|h0|..])
  {
    var m := |layers.teamDiffs|;
    GrewTwice(c0, h0, c1, h1, c2, h2, Forward(layers, m - 1), Backward(layers, m - 1, m - 1));
    TwoSweeps(h1[|h0|..], h2[|h1|..], h2[|h0|..], m - 1, f, b);
  }

  /** The terms of one team sum pushed up, one by one. */
  method TermPasses(sum: SumFactor, sqrt: real -> real, ghost vars: set<Variable>, ghost log: Log)
    returns (r: Result<()>)
    requires (forall t | t in sum.terms :: t in vars) && AllValid(vars)
    modifies vars, log
    ensures AllValid(vars)
    ensures r.Success? ==> Grew(old(log.calls), old(log.changes), log.calls, log.changes, TermUps(sum))
    ensures r.Failure? ==> Stopped(old(log.calls), old(log.changes), log.calls, log.changes, log.failed, TermUps(sum), r.error)
  {
    ghost var c0, h0 := log.calls, log.changes;
    for x := 0 to |sum.terms|
      invariant AllValid(vars)
      invariant Grew(c0, h0, log.calls, log.changes, TermUps(sum)[..x])
    {
      ghost var c1, h1 := log.calls, log.changes;
      assert sum.terms[x] in sum.terms;
      var u := SumUp(sum, x, sqrt, vars, log);
      if u.Failure? {
        StoppedAt(c0, h0, log.calls, log.changes, log.failed, TermUps(sum)[..x], TermUps(sum), u.error);
        return Failure(u.error);
      }
      StepLogged(c0, h0, c1, h1, TermUps(sum), x, u.value);
    }
    assert TermUps(sum)[..|sum.terms|] == TermUps(sum);
    r := Success(());
  }

  /** Every team sum pushed up to each of its players. */
  method TeamPerfPasses(fs: seq<SumFactor>, sqrt: real -> real, ghost vars: set<Variable>, ghost log: Log)
    returns (r: Result<()>)
    requires (forall f | f in fs :: forall t | t in f.terms :: t in vars) && AllValid(vars)
    modifies vars, log
    ensures AllValid(vars)
    ensures r.Success? ==> Grew(old(log.calls), old(log.changes), log.calls, log.changes, TeamPerfUps(fs))
    ensures r.Failure? ==>
              Stopped(old(log.calls), old(log.changes), log.calls, log.changes, log.failed, TeamPerfUps(fs), r.error)
  {
    ghost var c0, h0 := log.calls, log.changes;
    for f := 0 to |fs|
      invariant AllValid(vars)
      invariant Grew(c0, h0, log.calls, log.changes, TeamPerfUps(fs[..f]))
    {
      ghost var c1, h1 := log.calls, log.changes;
      assert fs[f] in fs;
      var u := TermPasses(fs[f], sqrt, vars, log);
      if u.Failure? {
        StoppedAfter(c0, h0, c1, h1, log.calls, log.changes, log.failed, TeamPerfUps(fs[..f]), TermUps(fs[f]), u.error);
        assert fs[..f + 1][..f] == fs[..f];
        TeamPerfUpsPrefix(fs, f + 1);
        StoppedWithin(c0, h0, log.calls, log.changes, log.failed, TeamPerfUps(fs[..f + 1]), TeamPerfUps(fs), u.error);
        return u;
      }
      GrewTwice(c0, h0, c1, h1, log.calls, log.changes, TeamPerfUps(fs[..f]), TermUps(fs[f]));
      assert fs[..f + 1][..f] == fs[..f];
    }
    assert fs[..|fs|] == fs;
    r := Success(());
  }

  /** Every likelihood pushed up to its skill. */
  method LikelihoodPasses(fs: seq<LikelihoodFactor>, sqrt: real -> real, ghost vars: set<Variable>, ghost log: Log)
    returns (r: Result<()>)
    requires (forall f | f in fs :: f.mean in vars) && AllValid(vars)
    modifies vars, log
    ensures AllValid(vars)
    ensures r.Success? ==> Grew(old(log.calls), old(log.changes), log.calls, log.changes, UpAll(fs))
    ensures r.Failure? ==> Stopped(old(log.calls), old(log.changes), log.calls, log.changes, log.failed, UpAll(fs), r.error)
  {
    ghost var c0, h0 := log.calls, log.changes;
    for i := 0 to |fs|
      invariant AllValid(vars)
      invariant Grew(c0, h0, log.calls, log.changes, UpAll(fs)[..i])
    {
      ghost var c1, h1 := log.calls, log.changes;
      var u := LikelihoodUpPass(fs[i], sqrt, vars, log);
      if u.Failure? {
        StoppedAt(c0, h0, log.calls, log.changes, log.failed, UpAll(fs)[..i], UpAll(fs), u.error);
        return Failure(u.error);
      }
      StepLogged(c0, h0, c1, h1, UpAll(fs), i, u.value);
    }
    assert UpAll(fs)[..|fs|] == UpAll(fs);
    r := Success(());
  }

  /** The two ends of the difference chain up to their outer teams: the
      first difference to its left team, the last to its right. */
  method EndPasses(layers: Layers, sqrt: real -> real, ghost vars: set<Variable>, ghost log: Log)
    returns (r: Result<()>)
    requires Within(layers, vars) && AllValid(vars) && |layers.teamDiffs| >= 1
    modifies vars, log
    ensures AllValid(vars)
    ensures r.Success? ==> Grew(old(log.calls), old(log.changes), log.calls, log.changes, Ends(layers))
    ensures r.Failure? ==> Stopped(old(log.calls), old(log.changes), log.calls, log.changes, log.failed, Ends(layers), r.error)
  {
    ghost var c0, h0 := log.calls, log.changes;
    ghost var ends := Ends(layers);
    var m := |layers.teamDiffs|;
    var first, last := layers.teamDiffs[0], layers.teamDiffs[m - 1];
    assert first in layers.teamDiffs && last in layers.teamDiffs;
    var a := SumUp(first, 0, sqrt, vars, log);
    if a.Failure? {
      StoppedFirst(c0, h0, log.failed, ends, a.error);
      return Failure(a.error);
    }
    var b := SumUp(last, 1, sqrt, vars, log);
    if b.Failure? {
      StoppedSecond(c0, h0, a.value, log.failed, ends, b.error);
      return Failure(b.error);
    }
    GrewByTwo(c0, h0, log.calls, log.changes, Ends(layers), [a.value, b.value]);
    r := Success(());
  }

  /** What follows the loop (see `Final`). */
  method FinalPasses(layers: Layers, sqrt: real -> real, ghost vars: set<Variable>, ghost log: Log)
    returns (r: Result<()>)
    requires Within(layers, vars) && AllValid(vars) && |layers.teamDiffs| >= 1
    modifies vars, log
    ensures AllValid(vars)
    ensures r.Success? ==> Grew(old(log.calls), old(log.changes), log.calls, log.changes, Final(layers))
    ensures r.Failure? ==> Stopped(old(log.calls), old(log.changes), log.calls, log.changes, log.failed, Final(layers), r.error)
  {
    ghost var c0, h0 := log.calls, log.changes;
    ghost var ends, terms, ups := Ends(layers), TeamPerfUps(layers.teamPerfs), UpAll(layers.likelihoods);
    assert Final(layers) == ends + terms + ups;
    r := EndPasses(layers, sqrt, vars, log);
    if r.Failure? {
      StoppedWithin(c0, h0, log.calls, log.changes, log.failed, ends, Final(layers), r.error);
      return;
    }
    ghost var c1, h1 := log.calls, log.changes;
    r := TeamPerfPasses(layers.teamPerfs, sqrt, vars, log);
    if r.Failure? {
      StoppedAfter(c0, h0, c1, h1, log.calls, log.changes, log.failed, ends, terms, r.error);
      StoppedWithin(c0, h0, log.calls, log.changes, log.failed, ends + terms, Final(layers), r.error);
      return;
    }
    GrewTwice(c0, h0, c1, h1, log.calls, log.changes, ends, terms);
    ghost var c2, h2 := log.calls, log.changes;
    r := LikelihoodPasses(layers.likelihoods, sqrt, vars, log);
    if r.Success? {
      GrewTwice(c0, h0, c2, h2, log.calls, log.changes, ends + terms, ups);
    } else {
      StoppedAfter(c0, h0, c2, h2, log.calls, log.changes, log.failed, ends + terms, ups, r.error);
    }
  }

  /** The passes before the loop (see `Prelude`). */
  method PreludePasses(layers: Layers, sqrt: real -> real, ghost vars: set<Variable>, ghost log: Log)
    returns (r: Result<()>)
    requires Within(layers, vars) && AllValid(vars)
    modifies vars, log
    ensures AllValid(vars)
    ensures r.Success? ==> Grew(old(log.calls), old(log.changes), log.calls, log.changes, Prelude(layers))
    ensures r.Failure? ==> Stopped(old(log.calls), old(log.changes), log.calls, log.changes, log.failed, Prelude(layers), r.error)
  {
    ghost var c0, h0 := log.calls, log.changes;
    ghost var priors, likelihoods, sums := DownAll(layers.priors), DownAll(layers.likelihoods), DownAll(layers.teamPerfs);
    assert Prelude(layers) == priors + likelihoods + sums;
    var p := DownPriors(layers.priors, sqrt, vars, log);
    if p.Failure? {
      StoppedWithin(c0, h0, log.calls, log.changes, log.failed, priors, Prelude(layers), p.error);
      return p;
    }
    ghost var c1, h1 := log.calls, log.changes;
    var l := DownLikelihoods(layers.likelihoods, sqrt, vars, log);
    if l.Failure? {
      StoppedAfter(c0, h0, c1, h1, log.calls, log.changes, log.failed, priors, likelihoods, l.error);
      StoppedWithin(c0, h0, log.calls, log.changes, log.failed, priors + likelihoods, Prelude(layers), l.error);
      return l;
    }
    GrewTwice(c0, h0, c1, h1, log.calls, log.changes, priors, likelihoods);
    ghost var c2, h2 := log.calls, log.changes;
    r := DownTeamPerfs(layers.teamPerfs, sqrt, vars, log);
    if r.Success? {
      GrewTwice(c0, h0, c2, h2, log.calls, log.changes, priors + likelihoods, sums);
    } else {
      StoppedAfter(c0, h0, c2, h2, log.calls, log.changes, log.failed, priors + likelihoods, sums, r.error);
    }
  }

  /** The rounds of the loop: at most 10, stopping after the first whose
      delta is at most `minDelta`. The result is the rounds' deltas, as
      `RoundDeltas` reads them off the logged changes. */
  method Rounds(layers: Layers, minDelta: real, sqrt: real -> real, ghost vars: set<Variable>, ghost log: Log)
    returns (r: Result<nat>)
    requires Within(layers, vars) && AllValid(vars)
    requires |layers.truncs| == |layers.teamDiffs| >= 1
    modifies vars, log
    ensures AllValid(vars)
    ensures r.Success? ==> Grew(old(log.calls), old(log.changes), log.calls, log.changes, Repeat(Round(layers), r.value))
    ensures r.Success? ==>
              StopRule(RoundDeltas(|layers.teamDiffs|, log.changes[|old(log.changes)|..], r.value), minDelta)
    ensures r.Failure? ==>
              RoundsAborted(layers, minDelta, old(log.calls), old(log.changes), log.calls, log.changes, log.failed, r.error)
  {
    ghost var c0, h0 := log.calls, log.changes;
    var m := |layers.teamDiffs|;
    var rounds := 0;
    var done := false;
    while rounds < 10 && !done
      invariant AllValid(vars)
      invariant rounds <= 10
      invariant Grew(c0, h0, log.calls, log.changes, Repeat(Round(layers), rounds))
      invariant |log.changes[|h0|..]| == rounds * RoundLength(m)
      invariant var ds := RoundDeltas(m, log.changes[|h0|..], rounds);
                && (forall j | 0 <= j < rounds - 1 :: ds[j] > minDelta)
                && (!done ==> forall j | 0 <= j < rounds :: ds[j] > minDelta)
                && (done ==> rounds >= 1 && ds[rounds - 1] <= minDelta)
      decreases 10 - rounds
    {
      ghost var c1, h1 := log.calls, log.changes;
      ghost var before := log.changes[|h0|..];
      var delta := RunRound(layers, sqrt, vars, log);
      if delta.Failure? {
        LoopStopped(layers, minDelta, rounds, c0, h0, c1, h1, log.calls, log.changes, log.failed, delta.error);
        return Failure(delta.error);
      }
      GrewTwice(c0, h0, c1, h1, log.calls, log.changes, Repeat(Round(layers), rounds), Round(layers));
      ghost var after := log.changes[|h0|..];
      assert after == before + log.changes[|h1|..];
      assert after[..|after| - RoundLength(m)] == before;
      assert after[|after| - RoundLength(m)..] == log.changes[|h1|..];
      assert RoundDeltas(m, after, rounds + 1) == RoundDeltas(m, before, rounds) + [delta.value];
      rounds := rounds + 1;
      if delta.value <= minDelta {
        done := true;
      }
    }
    r := Success(rounds);
  }

  /** A round that stopped after `rounds` whole rounds, all with deltas
      above `min_delta`, is the loop stopping. */
  lemma LoopStopped(layers: Layers, minDelta: real, rounds: nat, c0: seq<Call>, h0: seq<real>,
                    c1: seq<Call>, h1: seq<real>, c2: seq<Call>, h2: seq<real>, failed: Option<(Call, Error)>, e: Error)
    requires |layers.truncs| == |layers.teamDiffs| >= 1 && rounds < 10
    requires Grew(c0, h0, c1, h1, Repeat(Round(layers), rounds))
    requires AllAbove(RoundDeltas(|layers.teamDiffs|, h1[|h0|..], rounds), minDelta)
    requires Stopped(c1, h1, c2, h2, failed, Round(layers), e)
    ensures RoundsAborted(layers, minDelta, c0, h0, c2, h2, failed, e)
  {
    var q := Repeat(Round(layers), rounds);
    StoppedExtends(c1, h1, c2, h2, failed, Round(layers), e);
    assert h2[..|h0| + |q|] == h1;
    assert h2[|h0|..|h0| + |q|] == h1[|h0|..];
    assert AbortedInRound(layers, minDelta, c0, h0, c2, h2, failed, e, rounds);
  }

  /** The loop stopping after a whole prelude is the run aborting. */
  lemma RoundsStopped(layers: Layers, minDelta: real, c0: seq<Call>, h0: seq<real>,
                      c1: seq<Call>, h1: seq<real>, c2: seq<Call>, h2: seq<real>, failed: Option<(Call, Error)>, e: Error)
    requires |layers.truncs| == |layers.teamDiffs| >= 1
    requires Grew(c0, h0, c1, h1, Prelude(layers))
    requires RoundsAborted(layers, minDelta, c1, h1, c2, h2, failed, e)
    ensures Aborted(layers, minDelta, c0, h0, c2, h2, failed, e)
  {
    var j :| 0 <= j < 10 && AbortedInRound(layers, minDelta, c1, h1, c2, h2, failed, e, j);
    var q := Repeat(Round(layers), j);
    StoppedExtends(c1 + q, h2[..|h1| + |q|], c2, h2, failed, Round(layers), e);
    assert h2[..|h0| + |Prelude(layers)|] == h1;
  }

  /** The final passes stopping after the prelude and `n` rounds that obey
      the stopping rule is the run aborting. */
  lemma FinalStopped(layers: Layers, minDelta: real, n: nat, c0: seq<Call>, h0: seq<real>, c1: seq<Call>, h1: seq<real>,
                     c2: seq<Call>, h2: seq<real>, c3: seq<Call>, h3: seq<real>, failed: Option<(Call, Error)>, e: Error)
    requires |layers.truncs| == |layers.teamDiffs| >= 1 && 1 <= n <= 10
    requires Grew(c0, h0, c1, h1, Prelude(layers))
    requires Grew(c1, h1, c2, h2, Repeat(Round(layers), n))
    requires StopRule(RoundDeltas(|layers.teamDiffs|, h2[|h1|..], n), minDelta)
    requires Stopped(c2, h2, c3, h3, failed, Final(layers), e)
    ensures Aborted(layers, minDelta, c0, h0, c3, h3, failed, e)
  {
    FinalStoppedAfter(layers, minDelta, n, c0, h0, c1, h1, c2, h2, c3, h3, failed, e);
  }

  /** `FinalStopped`, with its number of rounds. */
  lemma FinalStoppedAfter(layers: Layers, minDelta: real, n: nat, c0: seq<Call>, h0: seq<real>, c1: seq<Call>, h1: seq<real>,
                          c2: seq<Call>, h2: seq<real>, c3: seq<Call>, h3: seq<real>, failed: Option<(Call, Error)>, e: Error)
    requires |layers.truncs| == |layers.teamDiffs| >= 1 && 1 <= n <= 10
    requires Grew(c0, h0, c1, h1, Prelude(layers))
    requires Grew(c1, h1, c2, h2, Repeat(Round(layers), n))
    requires StopRule(RoundDeltas(|layers.teamDiffs|, h2[|h1|..], n), minDelta)
    requires Stopped(c2, h2, c3, h3, failed, Final(layers), e)
    ensures AbortedInFinal(layers, minDelta, c0, h0, c3, h3, failed, e, n)
  {
    var p, q := Prelude(layers), Repeat(Round(layers), n);
    StoppedExtends(c2, h2, c3, h3, failed, Final(layers), e);
    GrewTwice(c0, h0, c1, h1, c2, h2, p, q);
    assert c2 == c0 + p + q;
    assert h3[..|h0| + |p| + |q|] == h2;
    assert h3[|h0| + |p|..|h0| + |p| + |q|] == h2[|h1|..];
  }

  /** `TrueSkill.run_schedule`. A negative `min_delta` is refused before
      any message moves. Otherwise the priors, likelihoods and team sums
      go down once; then rounds through the difference chain repeat, at
      most 10 of them, stopping after the first whose delta is at most
      `min_delta`; then the final passes run. Every variable stays
      consistent with its messages throughout, and on success the passes
      the factors logged are those of `Converged`. */
  method RunSchedule(layers: Layers, minDelta: real, sqrt: real -> real, ghost vars: set<Variable>, ghost log: Log)
    returns (r: Result<()>)
    requires Within(layers, vars) && AllValid(vars)
    requires |layers.truncs| == |layers.teamDiffs|
    modifies vars, log
    ensures AllValid(vars)
    ensures minDelta < 0.0 ==> r == Failure(ValueError("min_delta must be greater than 0")) && unchanged(vars, log)
    ensures |layers.teamDiffs| == 0 ==> r.Failure?
    ensures r.Success? ==> old(log.calls) <= log.calls && old(log.changes) <= log.changes
    ensures r.Success? ==>
              Converged(layers, minDelta, log.calls[|old(log.calls)|..], log.changes[|old(log.changes)|..])
    ensures r.Failure? && minDelta >= 0.0 ==>
              Raised(layers, minDelta, old(log.calls), old(log.changes), log.calls, log.changes, log.failed, r.error)
  {
    if minDelta < 0.0 {
      return Failure(ValueError("min_delta must be greater than 0"));
    }
    ghost var c0, h0 := log.calls, log.changes;
    var p := PreludePasses(layers, sqrt, vars, log);
    if p.Failure? {
      return p;
    }
    if |layers.teamDiffs| == 0 {
      // the backward loop's first index, -1, is out of range
      return Failure(IndexError);
    }
    ghost var c1, h1 := log.calls, log.changes;
    var n := Rounds(layers, minDelta, sqrt, vars, log);
    if n.Failure? {
      RoundsStopped(layers, minDelta, c0, h0, c1, h1, log.calls, log.changes, log.failed, n.error);
      return Failure(n.error);
    }
    GrewTwice(c0, h0, c1, h1, log.calls, log.changes, Prelude(layers), Repeat(Round(layers), n.value));
    ghost var c2, h2 := log.calls, log.changes;
    r := FinalPasses(layers, sqrt, vars, log);
    if r.Failure? {
      FinalStopped(layers, minDelta, n.value, c0, h0, c1, h1, c2, h2, log.calls, log.changes, log.failed, r.error);
      return;
    }
    GrewTwice(c0, h0, c2, h2, log.calls, log.changes, Prelude(layers) + Repeat(Round(layers), n.value), Final(layers));
    ScheduleLogged(layers, minDelta, n.value, log.calls[|c0|..], log.changes[|h0|..], h1[|h0|..], h2[|h1|..]);
  }

  /** What follows a prefix `a` in the sequence `a + b` starts with. */
  lemma PrefixSlice<T>(a: seq<T>, b: seq<T>, s: seq<T>)
    requires a + b <= s
    ensures s[|a|..|a| + |b|] == b
  {
    assert s[..|a| + |b|] == a + b;
    assert s[|a|..|a| + |b|] == (a + b)[|a|..];
  }

  /** The log of a run that made the prelude, `n` rounds and the final
      passes is a converged one when the rounds obeyed the stopping rule. */
  lemma ScheduleLogged(layers: Layers, minDelta: real, n: nat, calls: seq<Call>, changes: seq<real>,
                       prelude: seq<real>, rounds: seq<real>)
    requires |layers.truncs| == |layers.teamDiffs| >= 1 && 1 <= n <= 10
    requires calls == Prelude(layers) + Repeat(Round(layers), n) + Final(layers)
    requires |changes| == |calls|
    requires |prelude| == |Prelude(layers)| && |rounds| == |Repeat(Round(layers), n)|
    requires prelude + rounds <= changes
    requires StopRule(RoundDeltas(|layers.teamDiffs|, rounds, n), minDelta)
    ensures Converged(layers, minDelta, calls, changes)
  {
    var p, q := |Prelude(layers)|, |Repeat(Round(layers), n)|;
    PrefixSlice(prelude, rounds, changes);
    assert changes[p..p + q] == rounds;
    assert calls == Schedule(layers, n);
    var m := |layers.teamDiffs|;
    assert |rounds| == n * RoundLength(m);
    assert StopRule(RoundDeltas(m, changes[p..p + q], n), minDelta);
    ConvergedAfter(layers, minDelta, n, calls, changes, p, q);
  }

  /** `n` rounds whose deltas obey the stopping rule witness a converged run. */
  lemma ConvergedAfter(layers: Layers, minDelta: real, n: nat, calls: seq<Call>, changes: seq<real>, p: nat, q: nat)
    requires |layers.truncs| == |layers.teamDiffs| >= 1 && 1 <= n <= 10
    requires calls == Schedule(layers, n) && |changes| == |calls|
    requires p == |Prelude(layers)| && q == |Repeat(Round(layers), n)| && q == n * RoundLength(|layers.teamDiffs|)
    requires StopRule(RoundDeltas(|layers.teamDiffs|, changes[p..p + q], n), minDelta)
    ensures Converged(layers, minDelta, calls, changes)
  {
  }
}
