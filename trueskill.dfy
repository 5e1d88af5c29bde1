/** The entry points of the `TrueSkill` environment (trueskill/__init__.py):
    `rate`, which sorts the teams by rank, builds the factor graph, runs the
    message schedule and reads the new ratings back in the caller's order
    and shape; `rate_1vs1`, its two-player shortcut; and `quality`, the
    matrix formula for the draw probability of a match. */
module TrueSkill {
  import opened Wrappers
  import opened Gaussians
  import opened Matrices
  import opened Determinants
  import opened FactorGraph
  import opened Ratings
  import opened Schedule

  // ---------------------------------------------------------------------
  // Reading the new ratings out of the graph.

  /** The variables the rating layer's priors are attached to. */
  ghost function PriorVars(priors: seq<PriorFactor>): set<Variable>
  {
    set k | 0 <= k < |priors| :: priors[k].v
  }

  /** The beliefs of the rating layer's variables, in layer order. */
  function Beliefs(priors: seq<PriorFactor>): (bs: seq<Gaussian>)
    reads PriorVars(priors)
    ensures |bs| == |priors| && forall k | 0 <= k < |priors| :: bs[k] == priors[k].v.Value()
  {
    seq(|priors|, k requires 0 <= k < |priors| reads PriorVars(priors) => priors[k].v.Value())
  }

  /** `Rating(f.var.mu, f.var.sigma)` for each player of one team, from the
      beliefs of its variables. */
  method ReadGroup(beliefs: seq<Gaussian>) returns (r: Result<seq<Gaussian>>)
    ensures r.Failure? ==>
              && r.error == ValueError("math domain error")
              && exists k | 0 <= k < |beliefs| :: beliefs[k].pi < 0.0
    ensures r.Success? ==>
              && |r.value| == |beliefs|
              && forall k | 0 <= k < |beliefs| :: RatingOfBelief(beliefs[k]) == Success(r.value[k])
  {
    var group: seq<Gaussian> := [];
    for k := 0 to |beliefs|
      invariant |group| == k
      invariant forall a | 0 <= a < k :: RatingOfBelief(beliefs[a]) == Success(group[a])
    {
      var rating := RatingOfBelief(beliefs[k]);
      if rating.Failure? {
        return Failure(rating.error);
      }
      group := group + [rating.value];
    }
    r := Success(group);
  }

  /** `out` holds, for each sorted team `x`, the new ratings read from its
      slice of the rating layer: the one starting after the players of the
      teams before it. */
  ghost predicate ReadBack(beliefs: seq<Gaussian>, groups: seq<seq<Gaussian>>, out: seq<seq<Gaussian>>)
  {
    && |out| == |groups|
    && forall x | 0 <= x < |groups| :: ReadTeam(beliefs, groups, x, out[x])
  }

  /** `team` holds the new ratings of sorted team `x`, read from its slice
      of the rating layer. */
  ghost predicate ReadTeam(beliefs: seq<Gaussian>, groups: seq<seq<Gaussian>>, x: nat, team: seq<Gaussian>)
    requires x < |groups|
  {
    && |team| == |groups[x]|
    && |Concat(groups[..x])| + |groups[x]| <= |beliefs|
    && forall j {:trigger team[j]} | 0 <= j < |groups[x]| ::
         RatingOfBelief(beliefs[|Concat(groups[..x])| + j]) == Success(team[j])
  }

  /** The loop of `rate` over `izip([0] + team_sizes[:-1], team_sizes)`:
      the new ratings of each sorted team, read from its slice of the
      rating layer. */
  method ReadOut(beliefs: seq<Gaussian>, groups: seq<seq<Gaussian>>) returns (r: Result<seq<seq<Gaussian>>>)
    requires |beliefs| == |Concat(groups)|
    ensures r.Failure? ==>
              && r.error == ValueError("math domain error")
              && exists k | 0 <= k < |beliefs| :: beliefs[k].pi < 0.0
    ensures r.Success? ==> ReadBack(beliefs, groups, r.value)
  {
    var sizes := TeamSizes(groups);
    var out: seq<seq<Gaussian>> := [];
    for x := 0 to |groups|
      invariant |out| == x
      invariant forall y | 0 <= y < x :: ReadTeam(beliefs, groups, y, out[y])
    {
      TeamSlices(groups, x);
      var start := if x == 0 then 0 else sizes[x - 1];
      var end := sizes[x];
      if x == 0 {
        assert groups[..0] == [];
      }
      assert start == |Concat(groups[..x])| && end == start + |groups[x]| <= |beliefs|;
      var g := ReadGroup(beliefs[start..end]);
      if g.Failure? {
        var k :| 0 <= k < end - start && beliefs[start..end][k].pi < 0.0;
        assert beliefs[start + k].pi < 0.0;
        return Failure(g.error);
      }
      forall j | 0 <= j < |groups[x]|
        ensures RatingOfBelief(beliefs[start + j]) == Success(g.value[j])
      {
        assert beliefs[start..end][j] == beliefs[start + j];
      }
      assert ReadTeam(beliefs, groups, x, g.value);
      ghost var prev := out;
      out := out + [g.value];
      assert forall y | 0 <= y < x :: out[y] == prev[y];
    }
    r := Success(out);
  }

  /** The ratings of the groups of `result`, taken in sorted order. */
  ghost function InSortedOrder<K>(order: seq<nat>, result: seq<Group<K>>): (rs: seq<seq<Gaussian>>)
    requires forall x | 0 <= x < |order| :: order[x] < |result| && !result[order[x]].Bare?
  {
    seq(|order|, x requires 0 <= x < |order| => RatingsOf(result[order[x]]))
  }

  /** The ratings of input group `order[x]` of `result` are the ones read
      for sorted team `x`. */
  ghost predicate ReadBackInOrder<K>(beliefs: seq<Gaussian>, sorted: seq<seq<Gaussian>>, order: seq<nat>,
                                     result: seq<Group<K>>)
  {
    && (forall x | 0 <= x < |order| :: order[x] < |result| && !result[order[x]].Bare?)
    && ReadBack(beliefs, sorted, InSortedOrder(order, result))
  }

  // ---------------------------------------------------------------------
  // Restoring the caller's structure.

  /** `dict(izip(keys, values))`, as the list of its entries. */
  function Zip<K>(keys: seq<K>, values: seq<Gaussian>): (z: seq<(K, Gaussian)>)
    requires |keys| == |values|
    ensures |z| == |keys| && forall i | 0 <= i < |z| :: z[i] == (keys[i], values[i])
  {
    seq(|keys|, i requires 0 <= i < |keys| => (keys[i], values[i]))
  }

  /** The groups `rate` returns: a tuple per team, or, when the input
      groups were dicts, a dict from each team's keys to its new ratings. */
  function Rekey<K>(keys: Option<seq<seq<K>>>, rated: seq<seq<Gaussian>>): (r: seq<Group<K>>)
    requires keys.Some? ==> |keys.value| == |rated| && forall i | 0 <= i < |rated| :: |keys.value[i]| == |rated[i]|
    ensures |r| == |rated|
    ensures forall i | 0 <= i < |rated| :: r[i].Dict? <==> keys.Some?
    ensures forall i | 0 <= i < |rated| :: !r[i].Bare? && RatingsOf(r[i]) == rated[i]
    ensures keys.Some? ==> forall i | 0 <= i < |rated| :: r[i].Dict? && KeysOf(r[i]) == keys.value[i]
    ensures keys.None? ==> forall i | 0 <= i < |rated| :: r[i].Tuple?
  {
    seq(|rated|, i requires 0 <= i < |rated| =>
      if keys.Some? then Dict(Zip(keys.value[i], rated[i])) else Tuple(rated[i]))
  }

  /** The structure `rate` returns passes the same validation as its input
      and gives back the same keys and the new ratings: re-keying inverts
      `validate_rating_groups`. */
  lemma RekeyValidates<K>(keys: Option<seq<seq<K>>>, rated: seq<seq<Gaussian>>)
    requires |rated| >= 2 && forall i | 0 <= i < |rated| :: |rated[i]| >= 1
    requires keys.Some? ==> |keys.value| == |rated| && forall i | 0 <= i < |rated| :: |keys.value[i]| == |rated[i]|
    ensures ValidateRatingGroups(Rekey(keys, rated)) == Success(Validated(rated, keys))
  {
    var groups := Rekey(keys, rated);
    assert SameKind(groups);
    forall i | 0 <= i < |groups|
      ensures !IsEmpty(groups[i])
    {
      assert |RatingsOf(groups[i])| >= 1;
    }
    var v := ValidateRatingGroups(groups);
    assert v.Success?;
    assert v.value.groups == rated;
    if keys.Some? {
      assert v.value.keys.value == keys.value;
    }
  }

  // ---------------------------------------------------------------------
  // rate.

  /** The ranks `rate` uses: the given ones, or the group positions. */
  function RanksOr(ranks: Option<seq<int>>, g: nat): (rs: seq<int>)
    ensures ranks.Some? ==> rs == ranks.value
    ensures ranks.None? ==> |rs| == g && forall i | 0 <= i < g :: rs[i] == i
  {
    if ranks.Some? then ranks.value else seq(g, i requires 0 <= i => i)
  }

  /** The clamped weights of the sorted teams. */
  function SortedWeights(order: seq<nat>, w: seq<seq<real>>, minDelta: real): (sw: seq<seq<real>>)
    requires forall a | 0 <= a < |order| :: order[a] < |w|
    ensures |sw| == |order| && forall x | 0 <= x < |order| :: sw[x] == Clamped(minDelta, w[order[x]])
  {
    seq(|order|, x requires 0 <= x < |order| => Clamped(minDelta, w[order[x]]))
  }

  /** The end of `rate`: the new ratings read from the rating layer, put
      back in input order, and re-keyed. */
  method Collect<K>(beliefs: seq<Gaussian>, rated: seq<seq<Gaussian>>, order: seq<nat>, keys: Option<seq<seq<K>>>)
    returns (r: Result<seq<Group<K>>>)
    requires IsPermutation(order, |rated|)
    requires |beliefs| == |Concat(Permute(order, rated))|
    requires keys.Some? ==> |keys.value| == |rated| && forall i | 0 <= i < |rated| :: |keys.value[i]| == |rated[i]|
    ensures r.Failure? ==>
              && r.error == ValueError("math domain error")
              && exists k | 0 <= k < |beliefs| :: beliefs[k].pi < 0.0
    ensures r.Success? ==>
              && |r.value| == |rated|
              && (forall i | 0 <= i < |rated| ::
                    && !r.value[i].Bare?
                    && |RatingsOf(r.value[i])| == |rated[i]|
                    && (r.value[i].Dict? <==> keys.Some?)
                    && (keys.Some? ==> KeysOf(r.value[i]) == keys.value[i])
                    && (keys.None? ==> r.value[i].Tuple?))
    ensures r.Success? ==> ReadBackInOrder(beliefs, Permute(order, rated), order, r.value)
  {
    var sorted := Permute(order, rated);
    var out := ReadOut(beliefs, sorted);
    if out.Failure? {
      return Failure(out.error);
    }
    var unsorted := Unsort(order, out.value);
    forall i | 0 <= i < |rated|
      ensures |unsorted[i]| == |rated[i]|
    {
      var x := PermutationOnto(order, |rated|, i);
      assert sorted[x] == rated[i];
    }
    var rekeyed := Rekey(keys, unsorted);
    forall x | 0 <= x < |rated|
      ensures !rekeyed[order[x]].Bare? && RatingsOf(rekeyed[order[x]]) == out.value[x]
    {
      assert unsorted[order[x]] == out.value[x];
    }
    Reorder(beliefs, sorted, order, out.value, rekeyed);
    r := Success(rekeyed);
  }

  /** Read-back results that reach the input groups through `order` are
      read back in input order. */
  lemma Reorder<K>(beliefs: seq<Gaussian>, sorted: seq<seq<Gaussian>>, order: seq<nat>,
                   out: seq<seq<Gaussian>>, groups: seq<Group<K>>)
    requires ReadBack(beliefs, sorted, out)
    requires |order| == |sorted|
    requires forall x | 0 <= x < |order| :: order[x] < |groups|
    requires forall x | 0 <= x < |order| :: !groups[order[x]].Bare? && RatingsOf(groups[order[x]]) == out[x]
    ensures ReadBackInOrder(beliefs, sorted, order, groups)
  {
    assert InSortedOrder(order, groups) == out;
  }

  /** What `rate` has in hand before it builds the graph: the validated
      groups and keys, the weights, the ranks, the order by rank, and the
      sorted groups, ranks and clamped weights. */
  datatype Plan<K> = Plan(
    rated: seq<seq<Gaussian>>,
    keys: Option<seq<seq<K>>>,
    weights: seq<seq<real>>,
    ranks: seq<int>,
    order: seq<nat>,
    sorted: seq<seq<Gaussian>>,
    sortedRanks: seq<int>,
    sortedWeights: seq<seq<real>>)

  /** `plan` is what `rate` makes of its arguments: the validated groups
      and keys, the ranks given or the group positions, an order that sorts
      the ranks stably, and the groups, ranks and clamped weights in that
      order. */
  ghost predicate Planned<K>(plan: Plan<K>, groups: seq<Group<K>>, ranks: Option<seq<int>>, minDelta: real)
  {
    && ValidateRatingGroups(groups) == Success(Validated(plan.rated, plan.keys))
    && plan.ranks == RanksOr(ranks, |groups|)
    && |plan.ranks| == |plan.weights| == |plan.rated| == |groups|
    && IsPermutation(plan.order, |groups|)
    && (forall a, b | 0 <= a < b < |groups| :: Precedes(plan.ranks, plan.order[a], plan.order[b]))
    && plan.sorted == Permute(plan.order, plan.rated)
    && plan.sortedRanks == Permute(plan.order, plan.ranks)
    && plan.sortedWeights == SortedWeights(plan.order, plan.weights, minDelta)
  }

  /** The first half of `rate`: validation, default ranks, and the stable
      sort by rank with clamped weights. */
  method Prepare<K>(groups: seq<Group<K>>, ranks: Option<seq<int>>, weights: Weights, minDelta: real)
    returns (r: Result<Plan<K>>)
    requires WeightsFit(weights, groups)
    ensures ValidateRatingGroups(groups).Failure? ==> r == Failure(ValidateRatingGroups(groups).error)
    ensures ValidateRatingGroups(groups).Success? && ranks.Some? && |ranks.value| != |groups| ==>
              r == Failure(ValueError("Wrong ranks"))
    ensures r.Success? <==> ValidateRatingGroups(groups).Success? && (ranks.Some? ==> |ranks.value| == |groups|)
    ensures r.Success? ==> Planned(r.value, groups, ranks, minDelta)
    ensures r.Success? ==> Consistent(r.value)
  {
    var v := ValidateRatingGroups(groups);
    if v.Failure? {
      return Failure(v.error);
    }
    var rated := v.value.groups;
    KeysFit(groups);
    WeightsShape(weights, groups);
    var w := ValidateWeights(weights, rated);
    var g := |rated|;
    var rs;
    if ranks.None? {
      rs := seq(g, i requires 0 <= i => i);
    } else if |ranks.value| != g {
      return Failure(ValueError("Wrong ranks"));
    } else {
      rs := ranks.value;
    }
    var order := StableOrder(rs);
    var sorted, sortedRanks, sortedWeights := Arrange(order, rated, rs, w, minDelta);
    forall x | 0 <= x < g
      ensures |sortedWeights[x]| == |sorted[x]|
    {
      assert sorted[x] == rated[order[x]];
    }
    r := Success(Plan(rated, v.value.keys, w, rs, order, sorted, sortedRanks, sortedWeights));
  }

  /** Validated dict groups have one key per rating. */
  lemma KeysFit<K>(groups: seq<Group<K>>)
    requires ValidateRatingGroups(groups).Success?
    ensures var v := ValidateRatingGroups(groups).value;
            v.keys.Some? ==> |v.keys.value| == |v.groups| && forall i | 0 <= i < |v.groups| :: |v.keys.value[i]| == |v.groups[i]|
  {
    var v := ValidateRatingGroups(groups).value;
    if v.keys.Some? {
      forall i | 0 <= i < |v.groups|
        ensures |v.keys.value[i]| == |v.groups[i]|
      {
        assert |KeysOf(groups[i])| == |RatingsOf(groups[i])|;
      }
    }
  }

  /** Fitting weights read against the validated groups give one weight
      per player. */
  lemma WeightsShape<K>(weights: Weights, groups: seq<Group<K>>)
    requires WeightsFit(weights, groups) && ValidateRatingGroups(groups).Success?
    ensures var rated := ValidateRatingGroups(groups).value.groups;
            |ReadWeights(weights, rated)| == |rated| &&
            forall x | 0 <= x < |rated| :: |ReadWeights(weights, rated)[x]| == |rated[x]|
  {
  }

  /** The facts about a plan that building the graph and reading it back
      need: the order is a permutation of the groups, the sorted groups,
      ranks and weights line up, and keys, if any, fit the groups. */
  ghost predicate Consistent<K>(plan: Plan<K>)
  {
    && IsPermutation(plan.order, |plan.rated|)
    && plan.sorted == Permute(plan.order, plan.rated)
    && |plan.sortedRanks| == |plan.sorted| && |plan.sortedWeights| == |plan.sorted|
    && (forall x | 0 <= x < |plan.sorted| :: |plan.sortedWeights[x]| == |plan.sorted[x]|)
    && (plan.keys.Some? ==> |plan.keys.value| == |plan.rated| && forall i | 0 <= i < |plan.rated| :: |plan.keys.value[i]| == |plan.rated[i]|)
  }

  /** How a run with a non-negative `min_delta` on a graph of layers
      `layers` fails, given the log of its passes: the schedule raised `e`
      (`Schedule.Raised`, from an empty log); or the schedule converged and
      reading a rating back took the square root of a negative variance. */
  ghost predicate RunFailed(layers: Layers, minDelta: real, calls: seq<Call>, changes: seq<real>,
                            failed: Option<(Call, Error)>, beliefs: seq<Gaussian>, e: Error)
  {
    && |layers.truncs| == |layers.teamDiffs|
    && (|| Raised(layers, minDelta, [], [], calls, changes, failed, e)
        || (&& Converged(layers, minDelta, calls, changes)
            && e == ValueError("math domain error")
            && exists k | 0 <= k < |beliefs| :: beliefs[k].pi < 0.0))
  }

  /** The second half of `rate`: the factor graph of the sorted teams, the
      schedule run on it, and the new ratings read back in input order. */
  method RunPlan<K>(env: Env, plan: Plan<K>, minDelta: real, backend: Backend)
    returns (r: Result<seq<Group<K>>>, ghost layers: Layers, ghost log: Log, ghost beliefs: seq<Gaussian>)
    requires Consistent(plan)
    ensures minDelta < 0.0 ==> r == Failure(ValueError("min_delta must be greater than 0"))
    ensures Shaped(layers, env, plan.sorted, plan.sortedRanks, plan.sortedWeights, backend)
    ensures r.Success? ==> Converged(layers, minDelta, log.calls, log.changes)
    ensures r.Failure? && minDelta >= 0.0 ==> RunFailed(layers, minDelta, log.calls, log.changes, log.failed, beliefs, r.error)
    ensures r.Success? ==>
              && |r.value| == |plan.rated|
              && forall i | 0 <= i < |plan.rated| ::
                   && !r.value[i].Bare?
                   && |RatingsOf(r.value[i])| == |plan.rated[i]|
                   && (r.value[i].Dict? <==> plan.keys.Some?)
                   && (plan.keys.Some? ==> KeysOf(r.value[i]) == plan.keys.value[i])
                   && (plan.keys.None? ==> r.value[i].Tuple?)
    ensures beliefs == Beliefs(layers.priors)
    ensures r.Success? ==> ReadBackInOrder(beliefs, plan.sorted, plan.order, r.value)
  {
    ghost var vars;
    var graph;
    graph, vars := BuildFactorGraph(env, plan.sorted, plan.sortedRanks, plan.sortedWeights, backend);
    layers := graph;
    assert |graph.priors| == |Concat(plan.sorted)| by {
      assert PriorsShaped(graph, env, Concat(plan.sorted));
    }
    var record := new Log();
    log := record;
    var s := RunSchedule(graph, minDelta, backend.sqrt, vars, record);
    beliefs := Beliefs(graph.priors);
    if s.Failure? {
      return Failure(s.error), layers, log, beliefs;
    }
    assert log.calls[0..] == log.calls && log.changes[0..] == log.changes;
    var bs := Beliefs(graph.priors);
    r := Collect(bs, plan.rated, plan.order, plan.keys);
  }

  /** `TrueSkill.rate`. */
  method Rate<K>(env: Env, groups: seq<Group<K>>, ranks: Option<seq<int>>, weights: Weights, minDelta: real,
                 backend: Backend)
    returns (r: Result<seq<Group<K>>>, ghost plan: Plan<K>, ghost layers: Layers, ghost log: Log,
             ghost beliefs: seq<Gaussian>)
    requires WeightsFit(weights, groups)
    ensures ValidateRatingGroups(groups).Failure? ==> r == Failure(ValidateRatingGroups(groups).error)
    ensures ValidateRatingGroups(groups).Success? && ranks.Some? && |ranks.value| != |groups| ==>
              r == Failure(ValueError("Wrong ranks"))
    ensures ValidateRatingGroups(groups).Success? && (ranks.Some? ==> |ranks.value| == |groups|) && minDelta < 0.0 ==>
              r == Failure(ValueError("min_delta must be greater than 0"))
    ensures r.Success? ==> Planned(plan, groups, ranks, minDelta)
    ensures r.Success? ==> Shaped(layers, env, plan.sorted, plan.sortedRanks, plan.sortedWeights, backend)
    ensures r.Success? ==> Converged(layers, minDelta, log.calls, log.changes)
    ensures r.Success? ==>
              && |r.value| == |groups|
              && forall i | 0 <= i < |groups| ::
                   && !r.value[i].Bare?
                   && |RatingsOf(r.value[i])| == |plan.rated[i]|
                   && (r.value[i].Dict? <==> plan.keys.Some?)
                   && (plan.keys.Some? ==> KeysOf(r.value[i]) == plan.keys.value[i])
                   && (plan.keys.None? ==> r.value[i].Tuple?)
    ensures r.Success? ==> beliefs == Beliefs(layers.priors)
    ensures r.Success? ==> ReadBackInOrder(beliefs, plan.sorted, plan.order, r.value)
    ensures ValidateRatingGroups(groups).Success? && (ranks.Some? ==> |ranks.value| == |groups|) ==>
              && Planned(plan, groups, ranks, minDelta)
              && Shaped(layers, env, plan.sorted, plan.sortedRanks, plan.sortedWeights, backend)
              && beliefs == Beliefs(layers.priors)
    ensures r.Failure? && ValidateRatingGroups(groups).Success? && (ranks.Some? ==> |ranks.value| == |groups|) && minDelta >= 0.0 ==>
              RunFailed(layers, minDelta, log.calls, log.changes, log.failed, beliefs, r.error)
  {
    var prepared := Prepare(groups, ranks, weights, minDelta);
    if prepared.Failure? {
      plan := Plan([], None, [], [], [], [], [], []);
      var record := new Log();
      return Failure(prepared.error), plan, Layers([], [], [], [], []), record, [];
    }
    plan := prepared.value;
    r, layers, log, beliefs := RunPlan(env, prepared.value, minDelta, backend);
  }

  /** The groups `rate` returns keep the shape of its input: a group per
      input group, as long as it, and a dict with the same keys for a
      dict. */
  lemma RateKeepsShape<K>(groups: seq<Group<K>>, plan: Plan<K>, rated: seq<Group<K>>)
    requires ValidateRatingGroups(groups) == Success(Validated(plan.rated, plan.keys))
    requires |rated| == |groups|
    requires forall i | 0 <= i < |groups| ::
               && !rated[i].Bare?
               && |RatingsOf(rated[i])| == |plan.rated[i]|
               && (rated[i].Dict? <==> plan.keys.Some?)
               && (plan.keys.Some? ==> KeysOf(rated[i]) == plan.keys.value[i])
               && (plan.keys.None? ==> rated[i].Tuple?)
    ensures forall i | 0 <= i < |groups| ::
              && (groups[i].Dict? ==> rated[i].Dict? && KeysOf(rated[i]) == KeysOf(groups[i]))
              && (!groups[i].Dict? ==> rated[i].Tuple?)
              && |RatingsOf(rated[i])| == |RatingsOf(groups[i])|
  {
  }

  /** `TrueSkill.rate_1vs1`: `rate` of two one-player teams with ranks
      `[0, 0]` for a draw and `[0, 1]` otherwise. */
  method Rate1vs1(env: Env, rating1: Gaussian, rating2: Gaussian, drawn: bool, minDelta: real, backend: Backend)
    returns (r: Result<(Gaussian, Gaussian)>, ghost plan: Plan<()>, ghost layers: Layers, ghost log: Log,
             ghost beliefs: seq<Gaussian>)
    ensures minDelta < 0.0 ==> r == Failure(ValueError("min_delta must be greater than 0"))
    ensures plan.sorted == [[rating1], [rating2]] && plan.sortedRanks == [0, if drawn then 0 else 1]
    ensures |plan.sortedWeights| == 2
    ensures Shaped(layers, env, plan.sorted, plan.sortedRanks, plan.sortedWeights, backend)
    ensures |layers.priors| == 2 && |layers.truncs| == 1
    ensures layers.priors[0].val == rating1 && layers.priors[1].val == rating2
    ensures TruncKind(layers.truncs[0], drawn, backend)
    ensures beliefs == Beliefs(layers.priors)
    ensures r.Success? ==> Converged(layers, minDelta, log.calls, log.changes)
    ensures r.Failure? && minDelta >= 0.0 ==> RunFailed(layers, minDelta, log.calls, log.changes, log.failed, beliefs, r.error)
    ensures r.Success? ==>
              && RatingOfBelief(beliefs[0]) == Success(r.value.0)
              && RatingOfBelief(beliefs[1]) == Success(r.value.1)
  {
    var groups: seq<Group<()>> := [Tuple([rating1]), Tuple([rating2])];
    var ranks := [0, if drawn then 0 else 1];
    var teams;
    teams, plan, layers, log, beliefs := Rate(env, groups, Some(ranks), Unweighted, minDelta, backend);
    ValidatedTwo(rating1, rating2, groups);
    PlanOfTwo(plan, groups, rating1, rating2, ranks, minDelta);
    ShapedTwo(layers, env, rating1, rating2, ranks, plan.sortedWeights, backend);
    if teams.Failure? {
      return Failure(teams.error), plan, layers, log, beliefs;
    }
    ReadBackTwo(beliefs, rating1, rating2, teams.value);
    r := Success((teams.value[0].members[0], teams.value[1].members[0]));
  }

  /** `rate`'s plan for two one-player teams whose ranks are already in
      order leaves them in place. */
  lemma PlanOfTwo<K>(plan: Plan<K>, groups: seq<Group<K>>, a: Gaussian, b: Gaussian, ranks: seq<int>, minDelta: real)
    requires groups == [Tuple([a]), Tuple([b])] && |ranks| == 2 && ranks[0] <= ranks[1]
    requires Planned(plan, groups, Some(ranks), minDelta)
    ensures plan.order == [0, 1] && plan.keys.None?
    ensures plan.sorted == [[a], [b]] && plan.sortedRanks == ranks && |plan.sortedWeights| == 2
  {
    ValidatedTwo(a, b, groups);
    OrderOfTwo(ranks, plan.order);
    KeptInPlace(plan.order, plan.rated);
    assert plan.ranks == ranks;
    KeptInPlace(plan.order, plan.ranks);
  }

  /** The identity order permutes nothing. */
  lemma KeptInPlace<T>(order: seq<nat>, items: seq<T>)
    requires |order| == |items| && forall a | 0 <= a < |order| :: order[a] == a
    ensures Permute(order, items) == items
  {
  }

  /** Two one-player tuples validate to their ratings, without keys. */
  lemma ValidatedTwo<K>(a: Gaussian, b: Gaussian, groups: seq<Group<K>>)
    requires groups == [Tuple([a]), Tuple([b])]
    ensures ValidateRatingGroups(groups) == Success(Validated([[a], [b]], None))
  {
    assert SameKind(groups);
    assert !IsEmpty(groups[0]) && !IsEmpty(groups[1]);
    var v := ValidateRatingGroups(groups);
    assert v.Success?;
    assert v.value.groups == [[a], [b]];
  }

  /** The graph of two one-player teams: two priors over the two ratings
      and one truncation, of the kind the two ranks call for. */
  lemma ShapedTwo(layers: Layers, env: Env, a: Gaussian, b: Gaussian, ranks: seq<int>, weights: seq<seq<real>>,
                  backend: Backend)
    requires |ranks| == 2 && |weights| == 2
    requires Shaped(layers, env, [[a], [b]], ranks, weights, backend)
    ensures |layers.priors| == 2 && |layers.truncs| == 1
    ensures layers.priors[0].val == a && layers.priors[1].val == b
    ensures TruncKind(layers.truncs[0], ranks[0] == ranks[1], backend)
  {
    var groups := [[a], [b]];
    assert groups[..1] == [[a]] && groups[..1][..0] == [];
    assert Concat(groups[..1]) == [a];
    assert Concat(groups) == [a, b];
    assert TruncsShaped(layers, env, groups, ranks, backend);
  }

  /** The ratings read back for two one-player teams in their own order
      come from the first and the second belief. */
  lemma ReadBackTwo<K>(beliefs: seq<Gaussian>, a: Gaussian, b: Gaussian, result: seq<Group<K>>)
    requires |result| == 2 && result[0].Tuple? && result[1].Tuple?
    requires ReadBackInOrder(beliefs, [[a], [b]], [0, 1], result)
    ensures |beliefs| >= 2 && |result[0].members| >= 1 && |result[1].members| >= 1
    ensures RatingOfBelief(beliefs[0]) == Success(result[0].members[0])
    ensures RatingOfBelief(beliefs[1]) == Success(result[1].members[0])
  {
    var sorted := [[a], [b]];
    var out := InSortedOrder([0, 1], result);
    assert sorted[..0] == [] && sorted[..1] == [[a]];
    assert Concat(sorted[..1]) == [a];
    assert out[0] == result[0].members && out[1] == result[1].members;
    assert out[0][0] == result[0].members[0];
    assert out[1][0] == result[1].members[0];
  }

  /** With `ranks[0] <= ranks[1]`, the stable order of two teams keeps
      them as they are. */
  lemma OrderOfTwo(ranks: seq<int>, order: seq<nat>)
    requires |ranks| == 2 && ranks[0] <= ranks[1]
    requires IsPermutation(order, 2)
    requires forall a, b | 0 <= a < b < 2 :: Precedes(ranks, order[a], order[b])
    ensures order == [0, 1]
  {
    assert !Precedes(ranks, 1, 0);
    assert Precedes(ranks, order[0], order[1]);
  }
}
