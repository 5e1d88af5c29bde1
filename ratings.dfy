/** The rating layer of trueskill/__init__.py: the environment's constants,
    `Rating` and its comparisons, and the checks and the reshaping that
    `rate` and `quality` perform around the factor graph (validation of the
    rating groups and weights, team sizes, the stable sort by rank and its
    inverse). */
module Ratings {
  import opened Wrappers
  import opened Gaussians
  import Matrices

  // ---------------------------------------------------------------------
  // The environment.

  /** The constants of a `TrueSkill` environment. */
  datatype Env = Env(mu: real, sigma: real, beta: real, tau: real, drawProbability: real)

  const DefaultMu: real := 25.0
  const DefaultSigma: real := DefaultMu / 3.0
  const DefaultBeta: real := DefaultSigma / 2.0
  const DefaultTau: real := DefaultSigma / 100.0
  const DefaultDrawProbability: real := 0.10
  const DefaultMinDelta: real := 0.0001

  /** `TrueSkill()` with every constant at its default. */
  const DefaultEnv: Env := Env(DefaultMu, DefaultSigma, DefaultBeta, DefaultTau, DefaultDrawProbability)

  /** The numeric functions the source takes from `math` and from its
      statistics backend, and the correction functions `v_win`, `w_win`,
      `v_draw`, `w_draw` built on them; they are parameters here. */
  datatype Backend = Backend(
    sqrt: real -> real,
    exp: real -> real,
    ppf: real -> real,
    vWin: (real, real) -> real,
    wWin: (real, real) -> real,
    vDraw: (real, real) -> real,
    wDraw: (real, real) -> real)

  /** `calc_draw_margin(draw_probability, beta, size)`: the quantile of
      `(p + 1) / 2` scaled by `sqrt(size) * beta`. */
  function DrawMargin(drawProbability: real, beta: real, size: nat, backend: Backend): (m: real)
    ensures backend.ppf((drawProbability + 1.0) / 2.0) == 0.0 ==> m == 0.0
    ensures beta == 0.0 ==> m == 0.0
  {
    backend.ppf((drawProbability + 1.0) / 2.0) * backend.sqrt(size as real) * beta
  }

  // ---------------------------------------------------------------------
  // Ratings.

  /** `TrueSkill.create_rating(mu, sigma)`: a missing argument takes the
      environment's value, and the Gaussian constructor refuses a zero
      sigma. */
  function CreateRating(env: Env, mu: Option<real>, sigma: Option<real>): (r: Result<Gaussian>)
    ensures var m := if mu.Some? then mu.value else env.mu;
            var s := if sigma.Some? then sigma.value else env.sigma;
            && (s == 0.0 ==> r.Failure? && r.error.AssertionError?)
            && (s != 0.0 ==> r.Success? && Mu(r.value) == m && r.value.pi * (s * s) == 1.0)
  {
    var m := if mu.Some? then mu.value else env.mu;
    var s := if sigma.Some? then sigma.value else env.sigma;
    Create(Some(m), Some(s), 0.0, 0.0)
  }

  /** The default rating: mean 25 and precision `1 / (25/3)^2`. */
  lemma DefaultRating()
    ensures var r := CreateRating(DefaultEnv, None, None);
            r.Success? && Mu(r.value) == 25.0 && r.value.pi == 9.0 / 625.0
  {
    var r := CreateRating(DefaultEnv, None, None);
    var s := DefaultSigma;
    assert s == 25.0 / 3.0;
    assert s * s == 625.0 / 9.0;
    assert r.value.pi * (625.0 / 9.0) == 1.0;
  }

  /** `Rating.__eq__`: equal canonical parameters. */
  predicate RatingEq(a: Gaussian, b: Gaussian)
  {
    a.pi == b.pi && a.tau == b.tau
  }

  /** `Rating.__lt__`, `__le__`, `__gt__`, `__ge__`: the means compared. */
  predicate RatingLt(a: Gaussian, b: Gaussian)
  {
    Mu(a) < Mu(b)
  }

  predicate RatingLe(a: Gaussian, b: Gaussian)
  {
    Mu(a) <= Mu(b)
  }

  predicate RatingGt(a: Gaussian, b: Gaussian)
  {
    Mu(a) > Mu(b)
  }

  predicate RatingGe(a: Gaussian, b: Gaussian)
  {
    Mu(a) >= Mu(b)
  }

  /** The comparisons form a total preorder by mean: `>` and `>=` are the
      converses of `<` and `<=`, `<` is the negation of the converse of
      `<=`, and equal ratings compare as equivalent. */
  lemma RatingOrder(a: Gaussian, b: Gaussian, c: Gaussian)
    ensures RatingLe(a, b) || RatingLe(b, a)
    ensures RatingLt(a, b) <==> !RatingLe(b, a)
    ensures RatingGt(a, b) <==> RatingLt(b, a)
    ensures RatingGe(a, b) <==> RatingLe(b, a)
    ensures RatingLe(a, b) && RatingLe(b, c) ==> RatingLe(a, c)
    ensures RatingEq(a, b) ==> RatingLe(a, b) && RatingLe(b, a)
  {
  }

  /** Equality is finer than the order: two ratings with one mean and
      different uncertainties are neither less nor greater than each
      other, yet not equal. */
  lemma OrderCoarserThanEq()
    ensures exists a: Gaussian, b: Gaussian :: RatingLe(a, b) && RatingLe(b, a) && !RatingEq(a, b)
  {
    var a, b := Gaussian(1.0, 2.0), Gaussian(2.0, 4.0);
    assert Mu(a) == 2.0 && Mu(b) == 2.0;
    assert RatingLe(a, b) && RatingLe(b, a) && !RatingEq(a, b);
  }

  /** `Rating(var.mu, var.sigma)`, the rating `rate` reads off a skill
      variable. `sigma` is `sqrt(1 / pi)`, `inf` without precision, and a
      domain error for a negative precision; the constructor turns it back
      into the precision `sigma ** -2` (the root is taken as exact). */
  function RatingOfBelief(g: Gaussian): (r: Result<Gaussian>)
    ensures r.Failure? <==> g.pi < 0.0
    ensures r.Failure? ==> r.error == ValueError("math domain error")
    ensures r.Success? ==> Mu(r.value) == Mu(g)
    ensures g.pi > 0.0 ==> r == Success(g)
    ensures g.pi == 0.0 ==> r == Success(Uninformative)
  {
    if g.pi < 0.0 then Failure(ValueError("math domain error"))
    else if g.pi == 0.0 then Success(Uninformative)
    else
      var m := Mu(g);
      assert g.pi * m == g.tau;
      Success(Gaussian(g.pi, g.pi * m))
  }

  // ---------------------------------------------------------------------
  // Rating groups.

  /** A rating group as `rate` and `quality` receive it: a tuple or a list
      of ratings, a dict from player keys to ratings (in its iteration
      order), or, by mistake, a bare rating. */
  datatype Group<K> =
    | Tuple(members: seq<Gaussian>)
    | List(members: seq<Gaussian>)
    | Dict(entries: seq<(K, Gaussian)>)
    | Bare(rating: Gaussian)

  /** `type(group)`. */
  datatype Kind = TupleKind | ListKind | DictKind | RatingKind

  function KindOf<K>(g: Group<K>): Kind
  {
    match g
    case Tuple(_) => TupleKind
    case List(_) => ListKind
    case Dict(_) => DictKind
    case Bare(_) => RatingKind
  }

  /** A group that is false in Python: an empty tuple, list or dict (a
      rating is always true). */
  predicate IsEmpty<K>(g: Group<K>)
  {
    match g
    case Tuple(m) => |m| == 0
    case List(m) => |m| == 0
    case Dict(e) => |e| == 0
    case Bare(_) => false
  }

  /** The ratings of a group: its members, or the dict's values. */
  function RatingsOf<K>(g: Group<K>): (rs: seq<Gaussian>)
    requires !g.Bare?
    ensures g.Dict? ==> |rs| == |g.entries| && forall i | 0 <= i < |rs| :: rs[i] == g.entries[i].1
    ensures !g.Dict? ==> rs == g.members
  {
    match g
    case Tuple(m) => m
    case List(m) => m
    case Dict(e) => seq(|e|, i requires 0 <= i < |e| => e[i].1)
  }

  /** The keys of a dict group, in iteration order. */
  function KeysOf<K>(g: Group<K>): (ks: seq<K>)
    requires g.Dict?
    ensures |ks| == |g.entries| && forall i | 0 <= i < |ks| :: ks[i] == g.entries[i].0
  {
    seq(|g.entries|, i requires 0 <= i < |g.entries| => g.entries[i].0)
  }

  /** All groups have the type of the first. */
  predicate SameKind<K>(groups: seq<Group<K>>)
  {
    forall i | 0 <= i < |groups| :: KindOf(groups[i]) == KindOf(groups[0])
  }

  /** The set of group types has one element exactly when all groups have
      the type of the first. */
  lemma KindsSingleton<K>(groups: seq<Group<K>>)
    requires |groups| >= 1
    ensures |set i | 0 <= i < |groups| :: KindOf(groups[i])| == 1 <==> SameKind(groups)
  {
    var kinds := set i | 0 <= i < |groups| :: KindOf(groups[i]);
    assert KindOf(groups[0]) in kinds;
    if SameKind(groups) {
      assert kinds == {KindOf(groups[0])};
    } else {
      var i :| 0 <= i < |groups| && KindOf(groups[i]) != KindOf(groups[0]);
      assert KindOf(groups[i]) in kinds;
      var rest := kinds - {KindOf(groups[0])};
      assert KindOf(groups[i]) in rest;
      assert |rest| >= 1;
    }
  }

  /** What `validate_rating_groups` returns: the ratings of each group, and
      the key lists when the groups are dicts. */
  datatype Validated<K> = Validated(groups: seq<seq<Gaussian>>, keys: Option<seq<seq<K>>>)

  /** `TrueSkill.validate_rating_groups`: at least two groups, none empty,
      all of one type, and that type not a bare rating; dict groups become
      their values and keys. */
  function ValidateRatingGroups<K>(groups: seq<Group<K>>): (r: Result<Validated<K>>)
    ensures |groups| < 2 ==> r == Failure(ValueError("Need multiple rating groups"))
    ensures |groups| >= 2 && (exists i | 0 <= i < |groups| :: IsEmpty(groups[i])) ==>
              r == Failure(ValueError("Each group must contain multiple ratings"))
    ensures |groups| >= 2 && (forall i | 0 <= i < |groups| :: !IsEmpty(groups[i])) && !SameKind(groups) ==>
              r == Failure(TypeError("All groups should be same type"))
    ensures |groups| >= 2 && SameKind(groups) && groups[0].Bare? ==>
              r == Failure(TypeError("Rating cannot be a rating group"))
    ensures r.Success? <==>
              && |groups| >= 2
              && (forall i | 0 <= i < |groups| :: !IsEmpty(groups[i]))
              && SameKind(groups)
              && !groups[0].Bare?
    ensures r.Success? ==>
              && |r.value.groups| == |groups|
              && (forall i | 0 <= i < |groups| :: !groups[i].Bare? && r.value.groups[i] == RatingsOf(groups[i]))
              && (forall i | 0 <= i < |groups| :: |r.value.groups[i]| >= 1)
              && (r.value.keys.Some? <==> groups[0].Dict?)
              && (r.value.keys.Some? ==>
                    && |r.value.keys.value| == |groups|
                    && forall i | 0 <= i < |groups| :: groups[i].Dict? && r.value.keys.value[i] == KeysOf(groups[i]))
  {
    if |groups| < 2 then Failure(ValueError("Need multiple rating groups"))
    else if exists i | 0 <= i < |groups| :: IsEmpty(groups[i]) then
      Failure(ValueError("Each group must contain multiple ratings"))
    else
      var kinds := set i | 0 <= i < |groups| :: KindOf(groups[i]);
      KindsSingleton(groups);
      if |kinds| != 1 then Failure(TypeError("All groups should be same type"))
      else if KindOf(groups[0]) == RatingKind then Failure(TypeError("Rating cannot be a rating group"))
      else
        var values := seq(|groups|, i requires 0 <= i < |groups| => RatingsOf(groups[i]));
        if groups[0].Dict? then
          Success(Validated(values, Some(seq(|groups|, i requires 0 <= i < |groups| => KeysOf(groups[i])))))
        else
          Success(Validated(values, None))
  }

  // ---------------------------------------------------------------------
  // Weights.

  /** The `weights` argument: absent, a list of per-group weight lists, or
      a dict keyed by `(group index, position in group)`. */
  datatype Weights = Unweighted | WeightList(rows: seq<seq<real>>) | WeightDict(table: map<(int, int), real>)

  /** A weight list, when given, has one weight per player of each group:
      the source pairs them up with `izip` and silently drops or misaligns
      players otherwise. */
  predicate WeightsFit<K>(weights: Weights, groups: seq<Group<K>>)
  {
    weights.WeightList? ==>
      && |weights.rows| == |groups|
      && forall i | 0 <= i < |groups| :: !groups[i].Bare? ==> |weights.rows[i]| == |RatingsOf(groups[i])|
  }

  /** The weights `validate_weights` settles on: weight 1 for every player
      when none are given, a dict read at each player's `(x, y)` with
      default 1, and a list as given. */
  function ReadWeights(weights: Weights, groups: seq<seq<Gaussian>>): (w: seq<seq<real>>)
    ensures weights.WeightList? ==> w == weights.rows
    ensures !weights.WeightList? ==>
              && |w| == |groups|
              && forall x | 0 <= x < |groups| :: |w[x]| == |groups[x]|
    ensures weights.Unweighted? ==>
              forall x, y | 0 <= x < |w| && 0 <= y < |w[x]| :: w[x][y] == 1.0
    ensures weights.WeightDict? ==>
              forall x, y | 0 <= x < |w| && 0 <= y < |w[x]| ::
                w[x][y] == (if (x, y) in weights.table then weights.table[(x, y)] else 1.0)
  {
    match weights
    case Unweighted =>
      seq(|groups|, x requires 0 <= x < |groups| => seq(|groups[x]|, y => 1.0))
    case WeightList(rows) =>
      rows
    case WeightDict(table) =>
      seq(|groups|, x requires 0 <= x < |groups| =>
        seq(|groups[x]|, y => if (x, y) in table then table[(x, y)] else 1.0))
  }

  /** `TrueSkill.validate_weights`, which fills the dict case in a loop
      over the groups and their players. */
  method ValidateWeights(weights: Weights, groups: seq<seq<Gaussian>>) returns (w: seq<seq<real>>)
    ensures w == ReadWeights(weights, groups)
  {
    match weights
    case Unweighted =>
      w := seq(|groups|, x requires 0 <= x < |groups| => seq(|groups[x]|, y => 1.0));
    case WeightList(rows) =>
      w := rows;
    case WeightDict(table) =>
      w := [];
      for x := 0 to |groups|
        invariant |w| == x
        invariant forall i | 0 <= i < x :: |w[i]| == |groups[i]|
        invariant forall i, y | 0 <= i < x && 0 <= y < |w[i]| ::
                    w[i][y] == (if (i, y) in table then table[(i, y)] else 1.0)
      {
        var row: seq<real> := [];
        for y := 0 to |groups[x]|
          invariant |row| == y
          invariant forall j | 0 <= j < y :: row[j] == (if (x, j) in table then table[(x, j)] else 1.0)
        {
          row := row + [if (x, y) in table then table[(x, y)] else 1.0];
        }
        w := w + [row];
      }
      Matrices.RowsEqual(w, ReadWeights(weights, groups));
  }

  /** `max(min_delta, w)` for each weight of a group: every weight at least
      `min_delta`, and unchanged when it already was. */
  function Clamped(minDelta: real, w: seq<real>): (c: seq<real>)
    ensures |c| == |w|
    ensures forall y | 0 <= y < |w| :: c[y] >= minDelta && c[y] >= w[y]
    ensures forall y | 0 <= y < |w| :: c[y] == w[y] || c[y] == minDelta
    ensures forall y | 0 <= y < |w| :: w[y] >= minDelta ==> c[y] == w[y]
  {
    seq(|w|, y requires 0 <= y < |w| => Max(minDelta, w[y]))
  }

  // ---------------------------------------------------------------------
  // Team sizes.

  /** `sum(imap(tuple, groups), ())`: the members of all groups in order. */
  function Concat<T>(groups: seq<seq<T>>): seq<T>
  {
    if |groups| == 0 then [] else Concat(groups[..|groups| - 1]) + groups[|groups| - 1]
  }

  /** Two lists of groups with the same lengths flatten to the same
      length. */
  lemma {:induction false} ConcatSameShape<S, T>(a: seq<seq<S>>, b: seq<seq<T>>)
    requires |a| == |b| && forall x | 0 <= x < |a| :: |a[x]| == |b[x]|
    ensures |Concat(a)| == |Concat(b)|
    decreases |a|
  {
    if |a| > 0 {
      ConcatSameShape(a[..|a| - 1], b[..|b| - 1]);
    }
  }

  /** `_team_sizes`: the running totals of the group lengths, one per
      group. */
  method TeamSizes<T>(groups: seq<seq<T>>) returns (sizes: seq<nat>)
    ensures |sizes| == |groups|
    ensures forall x {:trigger sizes[x]} | 0 <= x < |groups| :: sizes[x] == |Concat(groups[..x + 1])|
  {
    var acc: seq<nat> := [0];
    for i := 0 to |groups|
      invariant |acc| == i + 1
      invariant forall x | 0 <= x <= i :: acc[x] == |Concat(groups[..x])|
    {
      assert groups[..i + 1][..i] == groups[..i];
      acc := acc + [|groups[i]| + acc[|acc| - 1]];
    }
    sizes := acc[1..];
  }

  /** The running total up to a group is a prefix of the concatenation. */
  lemma {:induction false} ConcatPrefix<T>(groups: seq<seq<T>>, j: nat)
    requires j <= |groups|
    ensures |Concat(groups[..j])| <= |Concat(groups)|
    ensures Concat(groups[..j]) == Concat(groups)[..|Concat(groups[..j])|]
    decreases |groups|
  {
    if j == |groups| {
      assert groups[..j] == groups;
    } else {
      var init := groups[..|groups| - 1];
      assert init[..j] == groups[..j];
      ConcatPrefix(init, j);
    }
  }

  /** The team sizes cut the concatenation into the groups: the players of
      group `x` are exactly the slice between the previous total and the
      total at `x`, and the last total counts every player. */
  lemma TeamSlices<T>(groups: seq<seq<T>>, x: nat)
    requires x < |groups|
    ensures var start := |Concat(groups[..x])|;
            var end := |Concat(groups[..x + 1])|;
            && end == start + |groups[x]|
            && end <= |Concat(groups)|
            && Concat(groups)[start..end] == groups[x]
    ensures |Concat(groups[..|groups|])| == |Concat(groups)|
  {
    assert groups[..x + 1][..x] == groups[..x];
    ConcatPrefix(groups, x + 1);
    assert groups[..|groups|] == groups;
  }

  // ---------------------------------------------------------------------
  // The sort by rank and its inverse.

  /** Group `i` comes before group `j` in `sorted(..., key=rank)`: a lower
      rank, or an equal rank and an earlier position (the sort is
      stable). */
  predicate Precedes(ranks: seq<int>, i: nat, j: nat)
    requires i < |ranks| && j < |ranks|
  {
    ranks[i] < ranks[j] || (ranks[i] == ranks[j] && i < j)
  }

  /** `order` lists each of `0 .. n-1` exactly once. */
  predicate IsPermutation(order: seq<nat>, n: nat)
  {
    && |order| == n
    && (forall a | 0 <= a < n :: order[a] < n)
    && (forall k | 0 <= k < n :: k in order)
    && (forall a, b | 0 <= a < b < n :: order[a] != order[b])
  }

  /** The positions of `sorted(enumerate(...), key=by_rank)` in `rate`: a
      permutation of the group indices that lists the ranks in
      non-decreasing order, equal ranks in their original order. */
  method StableOrder(ranks: seq<int>) returns (order: seq<nat>)
    ensures IsPermutation(order, |ranks|)
    ensures forall a, b | 0 <= a < b < |order| :: Precedes(ranks, order[a], order[b])
  {
    order := [];
    for i := 0 to |ranks|
      invariant |order| == i
      invariant forall a | 0 <= a < i :: order[a] < i
      invariant forall k | 0 <= k < i :: k in order
      invariant forall a, b | 0 <= a < b < i :: Precedes(ranks, order[a], order[b])
    {
      var p := 0;
      while p < |order| && ranks[order[p]] <= ranks[i]
        invariant 0 <= p <= |order|
        invariant forall a | 0 <= a < p :: ranks[order[a]] <= ranks[i]
      {
        p := p + 1;
      }
      assert forall a | 0 <= a < p :: Precedes(ranks, order[a], i);
      assert forall b | p <= b < |order| :: Precedes(ranks, i, order[b]) by {
        if p < |order| {
          assert forall b | p < b < |order| :: Precedes(ranks, order[p], order[b]);
        }
      }
      InsertSorted(ranks, order, p, i);
      order := order[..p] + [i] + order[p..];
    }
  }

  /** Inserting an index between the ones that precede it and the ones it
      precedes keeps the order sorted, and adds just that index. */
  lemma InsertSorted(ranks: seq<int>, order: seq<nat>, p: nat, i: nat)
    requires i < |ranks| && p <= |order|
    requires forall a | 0 <= a < |order| :: order[a] < |ranks|
    requires forall a, b | 0 <= a < b < |order| :: Precedes(ranks, order[a], order[b])
    requires forall a | 0 <= a < p :: Precedes(ranks, order[a], i)
    requires forall b | p <= b < |order| :: Precedes(ranks, i, order[b])
    ensures var o := order[..p] + [i] + order[p..];
            && |o| == |order| + 1
            && (forall k :: k in o <==> k == i || k in order)
            && forall a, b | 0 <= a < b < |o| :: Precedes(ranks, o[a], o[b])
  {
    var o := order[..p] + [i] + order[p..];
    forall a, b | 0 <= a < b < |o|
      ensures Precedes(ranks, o[a], o[b])
    {
      if b < p {
        assert o[a] == order[a] && o[b] == order[b];
      } else if b == p {
        assert o[a] == order[a] && o[b] == i;
      } else if a < p {
        assert o[a] == order[a] && o[b] == order[b - 1];
        assert Precedes(ranks, order[a], i) && Precedes(ranks, i, order[b - 1]);
      } else if a == p {
        assert o[a] == i && o[b] == order[b - 1];
      } else {
        assert o[a] == order[a - 1] && o[b] == order[b - 1];
      }
    }
    assert order == order[..p] + order[p..];
  }

  /** `[items[order[x]] for x]`: groups, ranks or weights in sorted
      order. */
  function Permute<T>(order: seq<nat>, items: seq<T>): (p: seq<T>)
    requires forall a | 0 <= a < |order| :: order[a] < |items|
    ensures |p| == |order| && forall a | 0 <= a < |order| :: p[a] == items[order[a]]
  {
    seq(|order|, a requires 0 <= a < |order| => items[order[a]])
  }

  /** The final `sorted(izip(hints, items), key=hint)` of `rate`: the hints
      being a permutation, the item with hint `k` lands at position `k`. */
  method Unsort<T>(order: seq<nat>, items: seq<T>) returns (r: seq<T>)
    requires IsPermutation(order, |items|)
    ensures |r| == |items|
    ensures forall x | 0 <= x < |items| :: r[order[x]] == items[x]
  {
    r := items;
    for x := 0 to |items|
      invariant |r| == |items|
      invariant forall y | 0 <= y < x :: r[order[y]] == items[y]
    {
      r := r[order[x] := items[x]];
    }
  }

  /** Unsorting undoes sorting: what `Unsort` returns for the permuted
      items is the original sequence. */
  lemma UnsortPermuted<T>(order: seq<nat>, xs: seq<T>, r: seq<T>)
    requires IsPermutation(order, |xs|) && |r| == |xs|
    requires forall x | 0 <= x < |xs| :: r[order[x]] == Permute(order, xs)[x]
    ensures r == xs
  {
    forall k | 0 <= k < |xs|
      ensures r[k] == xs[k]
    {
      assert k in order;
      var x :| 0 <= x < |xs| && order[x] == k;
    }
  }

  /** Each position of the permutation is the image of exactly one
      sorted position. */
  lemma PermutationOnto(order: seq<nat>, n: nat, k: nat) returns (x: nat)
    requires IsPermutation(order, n) && k < n
    ensures x < n && order[x] == k
  {
    assert k in order;
    x :| 0 <= x < n && order[x] == k;
  }

  /** The loop of `rate` that lays out the groups, ranks and weights in
      sorted order, clamping every weight to at least `min_delta`. */
  method Arrange(order: seq<nat>, groups: seq<seq<Gaussian>>, ranks: seq<int>, weights: seq<seq<real>>, minDelta: real)
    returns (sortedGroups: seq<seq<Gaussian>>, sortedRanks: seq<int>, sortedWeights: seq<seq<real>>)
    requires IsPermutation(order, |groups|) && |ranks| == |groups| && |weights| == |groups|
    ensures sortedGroups == Permute(order, groups)
    ensures sortedRanks == Permute(order, ranks)
    ensures |sortedWeights| == |groups|
    ensures forall x | 0 <= x < |groups| :: sortedWeights[x] == Clamped(minDelta, weights[order[x]])
  {
    sortedGroups, sortedRanks, sortedWeights := [], [], [];
    for x := 0 to |order|
      invariant |sortedGroups| == |sortedRanks| == |sortedWeights| == x
      invariant forall a | 0 <= a < x :: sortedGroups[a] == groups[order[a]] && sortedRanks[a] == ranks[order[a]]
      invariant forall a | 0 <= a < x :: sortedWeights[a] == Clamped(minDelta, weights[order[a]])
    {
      var i := order[x];
      sortedGroups := sortedGroups + [groups[i]];
      sortedRanks := sortedRanks + [ranks[i]];
      sortedWeights := sortedWeights + [Clamped(minDelta, weights[i])];
    }
  }
}
