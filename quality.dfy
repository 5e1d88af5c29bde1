/** `TrueSkill.quality` of trueskill/__init__.py: how even a proposed match
    is, from the players' means and variances and a matrix that compares
    each pair of adjacent teams, evaluated with the matrix operations of
    trueskill/mathematics.py. */
module Quality {
  import opened Wrappers
  import opened Gaussians
  import opened Matrices
  import opened Determinants
  import opened Ratings
  import opened RealArithmetic
  import TrueSkill

  // ---------------------------------------------------------------------
  // The matrices.

  /** Validated groups `quality` can compare: at least two, none empty,
      and one weight per player. */
  predicate Comparable(groups: seq<seq<Gaussian>>, flatW: seq<real>)
  {
    |groups| >= 2 && (forall x | 0 <= x < |groups| :: |groups[x]| >= 1) && |flatW| == |Concat(groups)|
  }

  /** Where the players of group `x` start in the flattened list. */
  function Offset(groups: seq<seq<Gaussian>>, x: nat): nat
    requires x <= |groups|
  {
    |Concat(groups[..x])|
  }

  /** Entry `(r, c)` of the comparison matrix: the weight of player `c`
      when `c` is in group `r`, its negation when `c` is in group `r + 1`,
      and 0 everywhere else, including outside the matrix. */
  function Entry(groups: seq<seq<Gaussian>>, flatW: seq<real>, r: int, c: int): real
  {
    if 0 <= r && r + 1 < |groups| && 0 <= c < |flatW| then
      var s0 := Offset(groups, r);
      var s1 := s0 + |groups[r]|;
      var s2 := s1 + |groups[r + 1]|;
      if s0 <= c < s1 then flatW[c]
      else if s1 <= c < s2 then -flatW[c]
      else 0.0
    else 0.0
  }

  /** The `rotated_a_matrix`: one row per pair of adjacent groups, one
      column per player. */
  function Comparison(groups: seq<seq<Gaussian>>, flatW: seq<real>): (rot: Rows)
    requires Comparable(groups, flatW)
    ensures IsMatrix(rot) && Height(rot) == |groups| - 1 && Width(rot) == |flatW|
    ensures forall r, c | 0 <= r < |groups| - 1 && 0 <= c < |flatW| :: rot[r][c] == Entry(groups, flatW, r, c)
  {
    assert |Concat(groups)| >= |groups[|groups| - 1]|;
    seq(|groups| - 1, r requires 0 <= r < |groups| - 1 =>
      seq(|flatW|, c requires 0 <= c < |flatW| => Entry(groups, flatW, r, c)))
  }

  /** The `mean_matrix`: a column holding each player's mean. */
  function Means(players: seq<Gaussian>): (m: Rows)
    requires |players| >= 1
    ensures IsMatrix(m) && Height(m) == |players| && Width(m) == 1
    ensures forall k | 0 <= k < |players| :: m[k][0] == Mu(players[k])
  {
    seq(|players|, k requires 0 <= k < |players| => [Mu(players[k])])
  }

  /** A player's `sigma ** 2`, with `sigma = sqrt(1 / pi)`: the variance
      the precision stands for. */
  function Variance(g: Gaussian): (v: real)
    requires g.pi > 0.0
    ensures v > 0.0 && v * g.pi == 1.0
  {
    1.0 / g.pi
  }

  /** The `variance_matrix`: the players' variances on the diagonal. */
  function Variances(players: seq<Gaussian>): (s: Rows)
    requires |players| >= 1 && forall k | 0 <= k < |players| :: players[k].pi > 0.0
    ensures IsSquare(s) && Height(s) == |players|
    ensures forall i, c | 0 <= i < |players| && 0 <= c < |players| ::
              s[i][c] == if i == c then Variance(players[i]) else 0.0
  {
    seq(|players|, i requires 0 <= i < |players| =>
      seq(|players|, c requires 0 <= c < |players| => if i == c then Variance(players[i]) else 0.0))
  }

  /** `_ata`: `beta ** 2 * rot * rot^T`. */
  function BetaTerm(beta: real, rot: Rows): (ata: Rows)
    requires IsMatrix(rot)
    ensures IsSquare(ata) && Height(ata) == Height(rot)
  {
    Product(Scaled(beta * beta, rot), Transposed(rot))
  }

  /** `_atsa`: `rot * S * rot^T`. */
  function VarianceTerm(rot: Rows, s: Rows): (atsa: Rows)
    requires IsMatrix(rot) && IsSquare(s) && Height(s) == Width(rot)
    ensures IsSquare(atsa) && Height(atsa) == Height(rot)
  {
    Product(Product(rot, s), Transposed(rot))
  }

  /** The determinant of the 1x1 matrix `-0.5 * start * middle^-1 * end`
      with `start = m^T * rot^T` and `end = rot * m`. */
  function QuadraticTerm(rot: Rows, m: Rows, middle: Rows): real
    requires IsMatrix(rot) && IsMatrix(m) && Height(m) == Width(rot) && Width(m) == 1
    requires IsSquare(middle) && Height(middle) == Height(rot) && Det(middle) != 0.0
  {
    Det(Product(Product(Scaled(-0.5, Product(Transposed(m), Transposed(rot))), Inverted(middle)), Product(rot, m)))
  }

  /** What `quality` makes of comparable groups: a ValueError from
      `math.sqrt` for a negative precision, and otherwise the outcome of
      the matrix algebra on the mean, variance and comparison matrices. */
  ghost predicate Evaluated(beta: real, groups: seq<seq<Gaussian>>, flatW: seq<real>, backend: Backend,
                            r: Result<real>)
    requires Comparable(groups, flatW)
  {
    var players := Concat(groups);
    && ((exists k | 0 <= k < |players| :: players[k].pi < 0.0) ==> r == Failure(ValueError("math domain error")))
    && ((forall k | 0 <= k < |players| :: players[k].pi > 0.0) ==>
          Combined(beta, Means(players), Variances(players), Comparison(groups, flatW), backend, r))
  }

  /** The outcome of the matrix algebra on the three matrices: `middle`
      is `_ata + _atsa`, and the result is `Outcome` of these. */
  ghost predicate Combined(beta: real, m: Rows, s: Rows, rot: Rows, backend: Backend, r: Result<real>)
    requires IsMatrix(rot) && IsSquare(s) && Height(s) == Width(rot)
    requires IsMatrix(m) && Height(m) == Width(rot) && Width(m) == 1
  {
    Outcome(rot, m, BetaTerm(beta, rot), Plus(BetaTerm(beta, rot), VarianceTerm(rot, s)), backend, r)
  }

  /** The end of `quality`: a ZeroDivisionError for a singular `middle`,
      a ValueError from `math.sqrt` for a negative determinant ratio, and
      otherwise `exp(e) * sqrt(s)`. */
  ghost predicate Outcome(rot: Rows, m: Rows, ata: Rows, middle: Rows, backend: Backend, r: Result<real>)
    requires IsMatrix(rot) && IsMatrix(m) && Height(m) == Width(rot) && Width(m) == 1
    requires IsSquare(ata) && IsSquare(middle) && Height(middle) == Height(rot)
  {
    && (Det(middle) == 0.0 ==> r == Failure(ZeroDivisionError))
    && (Det(middle) != 0.0 ==>
          var ratio := Det(ata) / Det(middle);
          && (ratio < 0.0 ==> r == Failure(ValueError("math domain error")))
          && (ratio >= 0.0 ==>
                r.Success? && r.value == Score(backend, QuadraticTerm(rot, m, middle), ratio)))
  }

  /** `math.exp(e) * math.sqrt(s)`. */
  function Score(backend: Backend, e: real, s: real): real
  {
    backend.exp(e) * backend.sqrt(s)
  }

  // ---------------------------------------------------------------------
  // The generators.

  /** The `variance_matrix` generator: `((x, x), sigma ** 2)` for each
      player in order. `math.sqrt` refuses the negative `1 / pi` of a
      negative precision. */
  method VarianceItems(players: seq<Gaussian>) returns (r: Result<seq<((int, int), real)>>)
    requires forall k | 0 <= k < |players| :: players[k].pi != 0.0
    ensures r.Failure? <==> exists k | 0 <= k < |players| :: players[k].pi < 0.0
    ensures r.Failure? ==> r.error == ValueError("math domain error")
    ensures r.Success? ==> forall i, c ::
              Get(LastWins(r.value), i, c) == if 0 <= i < |players| && i == c then Variance(players[i]) else 0.0
  {
    var items: seq<((int, int), real)> := [];
    for x := 0 to |players|
      invariant forall k | 0 <= k < x :: players[k].pi > 0.0
      invariant forall i, c ::
                  Get(LastWins(items), i, c) == if 0 <= i < x && i == c then Variance(players[i]) else 0.0
    {
      var pi := players[x].pi;
      if pi < 0.0 {
        return Failure(ValueError("math domain error"));
      }
      GetAppend(items, ((x, x), 1.0 / pi));
      items := items + [((x, x), 1.0 / pi)];
    }
    r := Success(items);
  }

  /** The `rotated_a_matrix` generator. A running index `t` walks the
      players of the first group of each adjacent pair, yielding their
      weights in row `r`; the players of the second group follow with
      negated weights. The generator then reports the width (one past the
      last index it used) and the height (one past the last pair). */
  method ComparisonItems(groups: seq<seq<Gaussian>>, flatW: seq<real>)
    returns (items: seq<((int, int), real)>, width: Option<nat>, height: Option<nat>)
    requires Comparable(groups, flatW)
    ensures width == Some(|flatW|) && height == Some(|groups| - 1)
    ensures forall i, c :: Get(LastWins(items), i, c) == Entry(groups, flatW, i, c)
  {
    items := [];
    var t, x, r := 0, 0, 0;
    while r < |groups| - 1
      invariant 0 <= r <= |groups| - 1
      invariant t == Offset(groups, r)
      invariant r > 0 ==> x + 1 == Offset(groups, r + 1)
      invariant forall i, c :: Get(LastWins(items), i, c) == if i < r then Entry(groups, flatW, i, c) else 0.0
    {
      TeamSlices(groups, r);
      TeamSlices(groups, r + 1);
      var lo := t;
      x := t;
      while x < lo + |groups[r]|
        invariant lo <= x <= lo + |groups[r]| && t == x
        invariant forall i, c :: Get(LastWins(items), i, c) ==
                    if i < r then Entry(groups, flatW, i, c)
                    else if i == r && lo <= c < x then flatW[c]
                    else 0.0
      {
        GetAppend(items, ((r, x), flatW[x]));
        items := items + [((r, x), flatW[x])];
        t := t + 1;
        x := x + 1;
      }
      // the source's loop variable stops on the last index and is then
      // moved one on: either way the second group starts here
      var mid := x;
      while x < mid + |groups[r + 1]|
        invariant mid <= x <= mid + |groups[r + 1]|
        invariant forall i, c :: Get(LastWins(items), i, c) ==
                    if i < r then Entry(groups, flatW, i, c)
                    else if i == r && lo <= c < mid then flatW[c]
                    else if i == r && mid <= c < x then -flatW[c]
                    else 0.0
      {
        GetAppend(items, ((r, x), -flatW[x]));
        items := items + [((r, x), -flatW[x])];
        x := x + 1;
      }
      x := x - 1;
      r := r + 1;
    }
    assert groups[..|groups|] == groups;
    width := Some(x + 1);
    height := Some(r);
  }

  // ---------------------------------------------------------------------
  // The evaluation.

  /** The mean, variance and comparison matrices built from their
      generators. */
  method BuildMatrices(groups: seq<seq<Gaussian>>, flatW: seq<real>)
    returns (r: Result<(Rows, Rows, Rows)>)
    requires Comparable(groups, flatW)
    requires forall k | 0 <= k < |Concat(groups)| :: Concat(groups)[k].pi != 0.0
    ensures r.Failure? <==> exists k | 0 <= k < |Concat(groups)| :: Concat(groups)[k].pi < 0.0
    ensures r.Failure? ==> r.error == ValueError("math domain error")
    ensures r.Success? ==>
              && r.value.0 == Means(Concat(groups))
              && r.value.1 == Variances(Concat(groups))
              && r.value.2 == Comparison(groups, flatW)
  {
    var players := Concat(groups);
    var n := |players|;
    var mean := FromList(seq(n, k requires 0 <= k < n => [Mu(players[k])]));
    assert mean.value == Means(players);
    var varItems := VarianceItems(players);
    if varItems.Failure? {
      ghost var k :| 0 <= k < |players| && players[k].pi < 0.0;
      assert Concat(groups)[k].pi < 0.0;
      return Failure(varItems.error);
    }
    var variance := FromItems(varItems.value, Some(n), Some(n));
    RowsEqual(variance.value, Variances(players));
    var rotItems, width, height := ComparisonItems(groups, flatW);
    var rotated := FromItems(rotItems, width, height);
    RowsEqual(rotated.value, Comparison(groups, flatW));
    r := Success((mean.value, variance.value, rotated.value));
  }

  /** The matrix algebra of `quality` on comparable groups whose players
      all have a non-zero precision. */
  method Evaluate(beta: real, groups: seq<seq<Gaussian>>, flatW: seq<real>, backend: Backend) returns (r: Result<real>)
    requires Comparable(groups, flatW)
    requires forall k | 0 <= k < |Concat(groups)| :: Concat(groups)[k].pi != 0.0
    ensures Evaluated(beta, groups, flatW, backend, r)
  {
    var built := BuildMatrices(groups, flatW);
    if built.Failure? {
      return Failure(built.error);
    }
    var (mean, variance, rotated) := built.value;
    r := Combine(beta, mean, variance, rotated, backend);
  }

  /** `_ata`, `_atsa` and `middle`. */
  method Middle(beta: real, s: Rows, rot: Rows) returns (ata: Rows, middle: Rows)
    requires IsMatrix(rot) && IsSquare(s) && Height(s) == Width(rot)
    ensures ata == BetaTerm(beta, rot)
    ensures middle == Plus(ata, VarianceTerm(rot, s))
  {
    var a := Transpose(rot);
    var scaled := ScalarMul(beta * beta, rot);
    var betaTerm := Matrices.Mul(scaled, a);
    var rs := Matrices.Mul(rot, s);
    var varianceTerm := Matrices.Mul(rs.value, a);
    var sum := Add(betaTerm.value, varianceTerm.value);
    ata, middle := betaTerm.value, sum.value;
  }

  /** `(-0.5 * start * middle.inverse() * end).determinant()`, given the
      inverse. */
  method Quadratic(rot: Rows, m: Rows, middle: Rows, inv: Rows) returns (q: real)
    requires IsMatrix(rot) && IsMatrix(m) && Height(m) == Width(rot) && Width(m) == 1
    requires IsSquare(middle) && Height(middle) == Height(rot) && Det(middle) != 0.0
    requires inv == Inverted(middle)
    ensures q == QuadraticTerm(rot, m, middle)
  {
    var a := Transpose(rot);
    var meanT := Transpose(m);
    var start := Matrices.Mul(meanT, a);
    var end := Matrices.Mul(rot, m);
    var half := ScalarMul(-0.5, start.value);
    var left := Matrices.Mul(half, inv);
    var product := Matrices.Mul(left.value, end.value);
    var d := Determinant(product.value);
    q := d.value;
  }

  /** The matrix algebra, from the three matrices to the result. */
  method Combine(beta: real, m: Rows, s: Rows, rot: Rows, backend: Backend) returns (r: Result<real>)
    requires IsMatrix(rot) && IsSquare(s) && Height(s) == Width(rot)
    requires IsMatrix(m) && Height(m) == Width(rot) && Width(m) == 1
    ensures Combined(beta, m, s, rot, backend, r)
  {
    var ata, middle := Middle(beta, s, rot);
    r := Finish(rot, m, ata, middle, backend);
  }

  /** From `_ata` and `middle` to the result. */
  method Finish(rot: Rows, m: Rows, ata: Rows, middle: Rows, backend: Backend) returns (r: Result<real>)
    requires IsMatrix(rot) && IsMatrix(m) && Height(m) == Width(rot) && Width(m) == 1
    requires IsSquare(ata) && IsSquare(middle) && Height(middle) == Height(rot)
    ensures Outcome(rot, m, ata, middle, backend, r)
  {
    var inv := Inverse(middle);
    if inv.Failure? {
      return Failure(inv.error);
    }
    var eArg := Quadratic(rot, m, middle, inv.value);
    var sArg := Ratio(ata, middle);
    if sArg < 0.0 {
      return Failure(ValueError("math domain error"));
    }
    r := Success(Score(backend, eArg, sArg));
  }

  /** `_ata.determinant() / middle.determinant()`. */
  method Ratio(ata: Rows, middle: Rows) returns (s: real)
    requires IsSquare(ata) && IsSquare(middle) && Det(middle) != 0.0
    ensures s == Det(ata) / Det(middle)
  {
    var ataDet := Determinant(ata);
    var middleDet := Determinant(middle);
    s := ataDet.value / middleDet.value;
  }

  // ---------------------------------------------------------------------
  // `quality`.

  /** The flattened weights of validated groups. */
  function FlatWeights(weights: Weights, groups: seq<seq<Gaussian>>): (flatW: seq<real>)
    requires |ReadWeights(weights, groups)| == |groups|
    requires forall x | 0 <= x < |groups| :: |ReadWeights(weights, groups)[x]| == |groups[x]|
    ensures |flatW| == |Concat(groups)|
  {
    ConcatSameShape(groups, ReadWeights(weights, groups));
    Concat(ReadWeights(weights, groups))
  }

  /** No player of the groups has precision 0 (whose `sigma` is infinite
      in the source). */
  predicate Precise<K>(groups: seq<Group<K>>)
  {
    forall i, k | 0 <= i < |groups| && !groups[i].Bare? && 0 <= k < |RatingsOf(groups[i])| ::
      RatingsOf(groups[i])[k].pi != 0.0
  }

  /** `TrueSkill.quality`: the validation of `rate`, the weights, and the
      matrix algebra on the flattened players. */
  method Quality<K>(env: Env, groups: seq<Group<K>>, weights: Weights, backend: Backend) returns (r: Result<real>)
    requires WeightsFit(weights, groups)
    requires Precise(groups)
    ensures ValidateRatingGroups(groups).Failure? ==> r == Failure(ValidateRatingGroups(groups).error)
    ensures ValidateRatingGroups(groups).Success? ==>
              var rated := ValidateRatingGroups(groups).value.groups;
              Evaluated(env.beta, rated, FlatWeights(weights, rated), backend, r)
  {
    var v := ValidateRatingGroups(groups);
    if v.Failure? {
      return Failure(v.error);
    }
    var rated := v.value.groups;
    var w := ValidateWeights(weights, rated);
    var flatW := FlatWeights(weights, rated);
    ConcatPrecise(rated);
    r := Evaluate(env.beta, rated, flatW, backend);
  }

  /** `TrueSkill.quality_1vs1`: the quality of a match between two
      players, each a team of one, unweighted. */
  method Quality1vs1(env: Env, rating1: Gaussian, rating2: Gaussian, backend: Backend) returns (r: Result<real>)
    requires rating1.pi != 0.0 && rating2.pi != 0.0
    ensures Comparable([[rating1], [rating2]], [1.0, 1.0])
    ensures Evaluated(env.beta, [[rating1], [rating2]], [1.0, 1.0], backend, r)
  {
    var groups: seq<Group<()>> := [Tuple([rating1]), Tuple([rating2])];
    TrueSkill.ValidatedTwo(rating1, rating2, groups);
    r := Quality(env, groups, Unweighted, backend);
    UnweightedTwo(rating1, rating2);
  }

  /** Two unweighted one-player teams have weights `[1, 1]`. */
  lemma UnweightedTwo(a: Gaussian, b: Gaussian)
    ensures |ReadWeights(Unweighted, [[a], [b]])| == 2
    ensures FlatWeights(Unweighted, [[a], [b]]) == [1.0, 1.0]
  {
    var w := ReadWeights(Unweighted, [[a], [b]]);
    assert w[0] == [1.0] && w[1] == [1.0];
    assert w == [[1.0], [1.0]];
    assert w[..1] == [[1.0]] && w[..1][..0] == [];
    assert Concat(w[..1]) == [1.0];
    assert Concat(w) == [1.0, 1.0];
  }

  /** Non-zero precisions in every group stay non-zero once flattened. */
  lemma {:induction false} ConcatPrecise(groups: seq<seq<Gaussian>>)
    requires forall i, k | 0 <= i < |groups| && 0 <= k < |groups[i]| :: groups[i][k].pi != 0.0
    ensures forall k | 0 <= k < |Concat(groups)| :: Concat(groups)[k].pi != 0.0
  {
    if |groups| > 0 {
      ConcatPrecise(groups[..|groups| - 1]);
    }
  }

  // ---------------------------------------------------------------------
  // What the matrices mean.

  /** The mean of a team's performance over its first `n` players: the
      weighted sum of their means, added left to right. */
  function TeamMean(ws: seq<real>, mus: seq<real>, n: nat): real
    requires n <= |ws| && n <= |mus|
  {
    if n == 0 then 0.0 else TeamMean(ws, mus, n - 1) + ws[n - 1] * mus[n - 1]
  }

  /** The players' means. */
  function MeansOf(players: seq<Gaussian>): (mus: seq<real>)
    ensures |mus| == |players| && forall k | 0 <= k < |players| :: mus[k] == Mu(players[k])
  {
    seq(|players|, k requires 0 <= k < |players| => Mu(players[k]))
  }

  /** Each team's means. */
  function TeamMeans(groups: seq<seq<Gaussian>>): (mus: seq<seq<real>>)
    ensures |mus| == |groups| && forall x | 0 <= x < |groups| :: mus[x] == MeansOf(groups[x])
  {
    seq(|groups|, x requires 0 <= x < |groups| => MeansOf(groups[x]))
  }

  /** Flattening the teams' means gives the flattened players' means. */
  lemma {:induction false} TeamMeansFlatten(groups: seq<seq<Gaussian>>)
    ensures Concat(TeamMeans(groups)) == MeansOf(Concat(groups))
    decreases |groups|
  {
    if |groups| > 0 {
      var init := groups[..|groups| - 1];
      TeamMeansFlatten(init);
      assert TeamMeans(groups)[..|groups| - 1] == TeamMeans(init);
      var a, b := Concat(init), groups[|groups| - 1];
      assert MeansOf(a + b) == MeansOf(a) + MeansOf(b);
    }
  }

  /** Weights given per team, one per player, flattened in team order. */
  predicate PerPlayer(groups: seq<seq<Gaussian>>, w: seq<seq<real>>)
  {
    && |groups| >= 2 && (forall x | 0 <= x < |groups| :: |groups[x]| >= 1)
    && |w| == |groups| && forall x | 0 <= x < |groups| :: |w[x]| == |groups[x]|
  }

  /** Row `r` of the comparison matrix compares team `r` with team `r + 1`:
      it holds the weights of team `r`, the negated weights of team `r + 1`
      at their players' columns, and zero for every other player. */
  lemma ComparisonRow(groups: seq<seq<Gaussian>>, w: seq<seq<real>>, r: nat)
    requires PerPlayer(groups, w) && r + 1 < |groups|
    ensures Comparable(groups, Concat(w))
    ensures var rot := Comparison(groups, Concat(w));
            var s0 := Offset(groups, r);
            var s1 := Offset(groups, r + 1);
            var s2 := s1 + |groups[r + 1]|;
            && s1 == s0 + |groups[r]| && s2 <= |Concat(w)|
            && (forall c | s0 <= c < s1 :: rot[r][c] == w[r][c - s0])
            && (forall c | s1 <= c < s2 :: rot[r][c] == -w[r + 1][c - s1])
            && (forall c | 0 <= c < |Concat(w)| && !(s0 <= c < s2) :: rot[r][c] == 0.0)
  {
    ConcatSameShape(groups, w);
    ConcatSameShape(groups[..r], w[..r]);
    ConcatSameShape(groups[..r + 1], w[..r + 1]);
    TeamSlices(w, r);
    TeamSlices(w, r + 1);
    var flatW := Concat(w);
    var s0, s1 := Offset(groups, r), Offset(groups, r + 1);
    assert flatW[s0..s1] == w[r];
    assert flatW[s1..s1 + |w[r + 1]|] == w[r + 1];
  }

  /** Member `j` of group `r` sits at `|Concat(groups[..r])| + j` in the
      flattened list. */
  lemma ElementAt<T>(groups: seq<seq<T>>, r: nat, j: nat)
    requires r < |groups| && j < |groups[r]|
    ensures |Concat(groups[..r])| + j < |Concat(groups)|
    ensures Concat(groups)[|Concat(groups[..r])| + j] == groups[r][j]
  {
    TeamSlices(groups, r);
    assert Concat(groups)[|Concat(groups[..r])|..|Concat(groups[..r])| + |groups[r]|] == groups[r];
  }

  /** The first `n` terms of row `r` of `rot * means`, by which stretch of
      columns `n` has reached: nothing before team `r`, then the running
      mean of team `r`, then that minus the running mean of team `r + 1`.
      `mus` holds each team's means. */
  function PartialDifference(groups: seq<seq<Gaussian>>, w: seq<seq<real>>, mus: seq<seq<real>>, r: nat, n: nat): real
    requires PerPlayer(groups, w) && PerPlayer(groups, mus) && r + 1 < |groups|
  {
    var s0 := Offset(groups, r);
    var s1 := s0 + |groups[r]|;
    var s2 := s1 + |groups[r + 1]|;
    var first := TeamMean(w[r], mus[r], |groups[r]|);
    if n <= s0 then 0.0
    else if n <= s1 then TeamMean(w[r], mus[r], n - s0)
    else if n <= s2 then first - TeamMean(w[r + 1], mus[r + 1], n - s1)
    else first - TeamMean(w[r + 1], mus[r + 1], |groups[r + 1]|)
  }

  /** Column `c` adds its entry times player `c`'s mean. */
  lemma PartialStep(groups: seq<seq<Gaussian>>, w: seq<seq<real>>, mus: seq<seq<real>>, r: nat, c: nat)
    requires PerPlayer(groups, w) && PerPlayer(groups, mus) && r + 1 < |groups|
    requires c < |Concat(w)|
    ensures |Concat(mus)| == |Concat(w)|
    ensures PartialDifference(groups, w, mus, r, c + 1) ==
              PartialDifference(groups, w, mus, r, c) + Entry(groups, Concat(w), r, c) * Concat(mus)[c]
  {
    OffsetNext(groups, r);
    var s0 := Offset(groups, r);
    var s1 := s0 + |groups[r]|;
    var s2 := s1 + |groups[r + 1]|;
    if s0 <= c < s1 {
      StepFirst(groups, w, mus, r, c - s0);
    } else if s1 <= c < s2 {
      StepSecond(groups, w, mus, r, c - s1);
    } else {
      StepOutside(groups, w, mus, r, c);
    }
  }

  /** A column of neither team adds nothing. */
  lemma StepOutside(groups: seq<seq<Gaussian>>, w: seq<seq<real>>, mus: seq<seq<real>>, r: nat, c: nat)
    requires PerPlayer(groups, w) && PerPlayer(groups, mus) && r + 1 < |groups|
    requires c < |Concat(w)|
    requires c < Offset(groups, r) || Offset(groups, r) + |groups[r]| + |groups[r + 1]| <= c
    ensures |Concat(mus)| == |Concat(w)|
    ensures Entry(groups, Concat(w), r, c) == 0.0
    ensures PartialDifference(groups, w, mus, r, c + 1) == PartialDifference(groups, w, mus, r, c)
  {
    ConcatSameShape(mus, w);
  }

  /** A column of team `r` adds that player's weighted mean. */
  lemma StepFirst(groups: seq<seq<Gaussian>>, w: seq<seq<real>>, mus: seq<seq<real>>, r: nat, j: nat)
    requires PerPlayer(groups, w) && PerPlayer(groups, mus) && r + 1 < |groups| && j < |groups[r]|
    ensures Offset(groups, r) + j < |Concat(mus)| == |Concat(w)|
    ensures var c := Offset(groups, r) + j;
            PartialDifference(groups, w, mus, r, c + 1) ==
              PartialDifference(groups, w, mus, r, c) + Entry(groups, Concat(w), r, c) * Concat(mus)[c]
  {
    ConcatSameShape(mus, w);
    ShapedAt(groups, mus, r, j);
    ShapedAt(groups, w, r, j);
    var c := Offset(groups, r) + j;
    var before := TeamMean(w[r], mus[r], j);
    assert PartialDifference(groups, w, mus, r, c) == before;
    assert PartialDifference(groups, w, mus, r, c + 1) == before + w[r][j] * mus[r][j];
    assert Entry(groups, Concat(w), r, c) == w[r][j];
  }

  /** A column of team `r + 1` subtracts that player's weighted mean. */
  lemma StepSecond(groups: seq<seq<Gaussian>>, w: seq<seq<real>>, mus: seq<seq<real>>, r: nat, j: nat)
    requires PerPlayer(groups, w) && PerPlayer(groups, mus) && r + 1 < |groups| && j < |groups[r + 1]|
    ensures Offset(groups, r + 1) + j < |Concat(mus)| == |Concat(w)|
    ensures var c := Offset(groups, r + 1) + j;
            PartialDifference(groups, w, mus, r, c + 1) ==
              PartialDifference(groups, w, mus, r, c) + Entry(groups, Concat(w), r, c) * Concat(mus)[c]
  {
    ConcatSameShape(mus, w);
    OffsetNext(groups, r);
    ShapedAt(groups, mus, r + 1, j);
    ShapedAt(groups, w, r + 1, j);
    var c := Offset(groups, r + 1) + j;
    var first := TeamMean(w[r], mus[r], |groups[r]|);
    var before := TeamMean(w[r + 1], mus[r + 1], j);
    assert PartialDifference(groups, w, mus, r, c) == first - before;
    assert PartialDifference(groups, w, mus, r, c + 1) == first - (before + w[r + 1][j] * mus[r + 1][j]);
    Subtracted(PartialDifference(groups, w, mus, r, c + 1), PartialDifference(groups, w, mus, r, c), first, before,
               w[r + 1][j], mus[r + 1][j], Entry(groups, Concat(w), r, c), Concat(mus)[c]);
  }

  /** Team `r + 1` starts where team `r` ends. */
  lemma OffsetNext(groups: seq<seq<Gaussian>>, r: nat)
    requires r < |groups|
    ensures Offset(groups, r + 1) == Offset(groups, r) + |groups[r]|
  {
    TeamSlices(groups, r);
  }

  /** Anything shaped like the teams puts member `j` of team `r` at
      `Offset(groups, r) + j` once flattened. */
  lemma ShapedAt<T>(groups: seq<seq<Gaussian>>, v: seq<seq<T>>, r: nat, j: nat)
    requires |v| == |groups| && (forall x | 0 <= x < |groups| :: |v[x]| == |groups[x]|)
    requires r < |groups| && j < |groups[r]|
    ensures Offset(groups, r) + j < |Concat(v)|
    ensures Concat(v)[Offset(groups, r) + j] == v[r][j]
  {
    ConcatSameShape(groups[..r], v[..r]);
    ElementAt(v, r, j);
  }

  /** The arithmetic of one column of the second team. */
  lemma Subtracted(next: real, prev: real, first: real, before: real, wt: real, mu: real, e: real, x: real)
    requires next == first - (before + wt * mu) && prev == first - before
    requires e == -wt && x == mu
    ensures next == prev + e * x
  {
    NegProduct(wt, mu);
  }

  /** The first `n` terms of row `r` of `rot * col` add up to
      `PartialDifference` when `col` holds the flattened means. */
  lemma {:induction false} PartialMeanDifference(groups: seq<seq<Gaussian>>, w: seq<seq<real>>, mus: seq<seq<real>>,
                                                 col: Rows, r: nat, n: nat)
    requires PerPlayer(groups, w) && PerPlayer(groups, mus) && r + 1 < |groups|
    requires IsMatrix(col) && Height(col) == |Concat(w)| && Width(col) == 1
    requires forall c | 0 <= c < Height(col) :: |Concat(mus)| == Height(col) && col[c][0] == Concat(mus)[c]
    requires n <= |Concat(w)|
    ensures Comparable(groups, Concat(w))
    ensures Conformable(Comparison(groups, Concat(w)), col)
    ensures DotUpTo(Comparison(groups, Concat(w)), col, r, 0, n) == PartialDifference(groups, w, mus, r, n)
  {
    ConcatSameShape(groups, w);
    if n > 0 {
      PartialMeanDifference(groups, w, mus, col, r, n - 1);
      PartialStep(groups, w, mus, r, n - 1);
    }
  }

  /** Row `r` of `rot * means` is the mean performance of team `r` minus
      that of team `r + 1`: the quantity whose spread the match quality
      measures. */
  lemma MeanDifference(groups: seq<seq<Gaussian>>, w: seq<seq<real>>, r: nat)
    requires PerPlayer(groups, w) && r + 1 < |groups|
    ensures Comparable(groups, Concat(w))
    ensures var rot := Comparison(groups, Concat(w));
            var m := Means(Concat(groups));
            && Conformable(rot, m)
            && Product(rot, m)[r][0] ==
                 TeamMean(w[r], MeansOf(groups[r]), |groups[r]|) - TeamMean(w[r + 1], MeansOf(groups[r + 1]), |groups[r + 1]|)
  {
    ConcatSameShape(groups, w);
    var mus := TeamMeans(groups);
    var rot, m := Comparison(groups, Concat(w)), Means(Concat(groups));
    MeansColumn(groups);
    PartialMeanDifference(groups, w, mus, m, r, |Concat(w)|);
    PartialEnd(groups, w, mus, r);
    assert Product(rot, m)[r][0] == DotUpTo(rot, m, r, 0, |Concat(w)|);
  }

  /** Past both teams, the partial sum is the whole difference. */
  lemma PartialEnd(groups: seq<seq<Gaussian>>, w: seq<seq<real>>, mus: seq<seq<real>>, r: nat)
    requires PerPlayer(groups, w) && PerPlayer(groups, mus) && r + 1 < |groups|
    ensures PartialDifference(groups, w, mus, r, |Concat(w)|) ==
              TeamMean(w[r], mus[r], |groups[r]|) - TeamMean(w[r + 1], mus[r + 1], |groups[r + 1]|)
  {
    OffsetNext(groups, r);
    ShapedAt(groups, w, r + 1, |groups[r + 1]| - 1);
  }

  /** The column of means holds the teams' means, flattened. */
  lemma MeansColumn(groups: seq<seq<Gaussian>>)
    requires |groups| >= 1 && |Concat(groups)| >= 1
    ensures var m := Means(Concat(groups));
            forall c | 0 <= c < Height(m) :: |Concat(TeamMeans(groups))| == Height(m) && m[c][0] == Concat(TeamMeans(groups))[c]
  {
    TeamMeansFlatten(groups);
  }

  /** The exponent of the match quality is the quadratic form
      `-1/2 d^T middle^-1 d` of the mean differences `d = rot * means`:
      the determinant the source takes is that of a 1x1 matrix. */
  lemma QuadraticForm(rot: Rows, m: Rows, middle: Rows)
    requires IsMatrix(rot) && IsMatrix(m) && Height(m) == Width(rot) && Width(m) == 1
    requires IsSquare(middle) && Height(middle) == Height(rot) && Det(middle) != 0.0
    ensures var d := Product(rot, m);
            var q := Product(Product(Transposed(d), Inverted(middle)), d);
            && Height(q) == 1 && Width(q) == 1
            && QuadraticTerm(rot, m, middle) == -0.5 * q[0][0]
  {
    var d := Product(rot, m);
    var inv := Inverted(middle);
    TransposedProduct(rot, m);
    var dt := Transposed(d);
    ScaledProduct(-0.5, dt, inv);
    var p := Product(dt, inv);
    ScaledProduct(-0.5, p, d);
    var x := Scaled(-0.5, Product(p, d));
    assert Product(Product(Scaled(-0.5, Product(Transposed(m), Transposed(rot))), inv), d) == x;
    DetOfSingle(x);
  }

  /** The determinant of a 1x1 matrix is its entry. */
  lemma DetOfSingle(x: Rows)
    requires IsSquare(x) && Height(x) == 1
    ensures Det(x) == x[0][0]
  {
    assert x[0] == [x[0][0]];
    assert x == [x[0]];
    DetOfOne(x[0][0]);
  }
}
