/** The nodes of the TrueSkill factor graph, trueskill/factorgraph.py.

    A `Variable` is a belief `(pi, tau)` together with the message each
    connected factor last sent it, keyed by the factor object. Factors
    rewrite a variable only through `UpdateMessage` and `UpdateValue`; both
    keep the belief equal to the componentwise sum of the stored messages
    (`Variable.Valid`), which is the invariant the message-passing scheme
    rests on. The four factor kinds compute their messages by the spec
    functions `PriorValue`, `LikelihoodDown`, `LikelihoodUp`, `SumMessage`
    and `TruncateValue`, whose properties are proved as lemmas. `math.sqrt`
    is a parameter; `SqrtSign` is all the proofs need of it. */
module FactorGraph {
  import opened Wrappers
  import opened Gaussians
  import opened RealArithmetic

  // ---------------------------------------------------------------------
  // The sum of the stored messages.

  /** Some element of a nonempty set, always the same for the same set. */
  ghost function Pick(s: set<object>): object
    requires s != {}
  {
    var x :| x in s; x
  }

  /** The componentwise sum of the messages stored under `keys`. */
  ghost function Total(m: map<object, Gaussian>, keys: set<object>): Gaussian
    requires keys <= m.Keys
    decreases |keys|
  {
    if keys == {} then Uninformative
    else
      var k := Pick(keys);
      Mul(m[k], Total(m, keys - {k}))
  }

  /** The sum does not depend on which message is taken out first. */
  lemma {:induction false} TotalPick(m: map<object, Gaussian>, keys: set<object>, k: object)
    requires keys <= m.Keys && k in keys
    ensures Total(m, keys) == Mul(m[k], Total(m, keys - {k}))
    decreases |keys|
  {
    var j := Pick(keys);
    if j != k {
      TotalPick(m, keys - {j}, k);
      TotalPick(m, keys - {k}, j);
      assert keys - {j} - {k} == keys - {k} - {j};
    }
  }

  /** Messages outside `keys` do not enter the sum over `keys`. */
  lemma {:induction false} TotalFrame(m1: map<object, Gaussian>, m2: map<object, Gaussian>, keys: set<object>)
    requires keys <= m1.Keys && keys <= m2.Keys
    requires forall k | k in keys :: m1[k] == m2[k]
    ensures Total(m1, keys) == Total(m2, keys)
    decreases |keys|
  {
    if keys != {} {
      TotalFrame(m1, m2, keys - {Pick(keys)});
    }
  }

  /** Replacing the message of `f` by `g` replaces its share of the sum. */
  lemma TotalUpdate(m: map<object, Gaussian>, f: object, g: Gaussian)
    requires f in m
    ensures m[f := g].Keys == m.Keys
    ensures Total(m[f := g], m[f := g].Keys) == Mul(Div(Total(m, m.Keys), m[f]), g)
  {
    var n := m[f := g];
    assert n.Keys == m.Keys;
    TotalPick(m, m.Keys, f);
    TotalPick(n, m.Keys, f);
    TotalFrame(m, n, m.Keys - {f});
  }

  /** A new key with the uninformative message leaves the sum as it was. */
  lemma TotalConnect(m: map<object, Gaussian>, f: object)
    requires f !in m
    ensures Total(m[f := Uninformative], m[f := Uninformative].Keys) == Total(m, m.Keys)
  {
    var n := m[f := Uninformative];
    assert n.Keys == m.Keys + {f};
    assert n.Keys - {f} == m.Keys;
    TotalPick(n, n.Keys, f);
    TotalFrame(m, n, m.Keys);
  }

  // ---------------------------------------------------------------------
  // Variables.

  /** What the proofs need of `math.sqrt`: the root of 0 is 0 and the root
      of a positive number is positive. */
  ghost predicate SqrtSign(sqrt: real -> real)
  {
    sqrt(0.0) == 0.0 && forall x :: x > 0.0 ==> sqrt(x) > 0.0
  }

  /** `Variable.delta(other)`: the larger of the change of `tau` and the
      square root of the change of `pi`. */
  function Delta(a: Gaussian, b: Gaussian, sqrt: real -> real): (d: real)
    ensures d >= Abs(a.tau - b.tau) && d >= sqrt(Abs(a.pi - b.pi))
    ensures d == Abs(a.tau - b.tau) || d == sqrt(Abs(a.pi - b.pi))
  {
    Max(Abs(a.tau - b.tau), sqrt(Abs(a.pi - b.pi)))
  }

  /** The change is never negative, and it is zero exactly when nothing
      changed: the loop of `run_schedule` stops on a fixed point. */
  lemma DeltaZero(a: Gaussian, b: Gaussian, sqrt: real -> real)
    requires SqrtSign(sqrt)
    ensures Delta(a, b, sqrt) >= 0.0
    ensures Delta(a, b, sqrt) == 0.0 <==> a == b
  {
    if a.pi != b.pi {
      assert sqrt(Abs(a.pi - b.pi)) > 0.0;
    }
  }

  /** A node of the graph holding a belief: `Variable` of factorgraph.py,
      a Gaussian with a table of the messages its factors sent. */
  class Variable {
    var pi: real
    var tau: real
    var messages: map<object, Gaussian>

    /** The belief as a Gaussian. */
    function Value(): Gaussian
      reads this
    {
      Gaussian(pi, tau)
    }

    /** The belief is the product of the stored messages. */
    ghost predicate Valid()
      reads this
    {
      Value() == Total(messages, messages.Keys)
    }

    /** A fresh variable: no information, no connections. */
    constructor ()
      ensures Value() == Uninformative && messages == map[] && Valid()
    {
      pi, tau := 0.0, 0.0;
      messages := map[];
    }

    /** `set(val)`: the belief becomes `val`; the result is the change. */
    method Set(val: Gaussian, sqrt: real -> real) returns (delta: real)
      modifies this
      ensures Value() == val && messages == old(messages)
      ensures delta == Delta(old(Value()), val, sqrt)
    {
      delta := Delta(Value(), val, sqrt);
      pi, tau := val.pi, val.tau;
    }

    /** `update_message(factor, pi, tau)`: the stored message of `factor`
        becomes `message` and the belief trades the old message for the new
        one; a factor that is not connected raises KeyError. */
    method UpdateMessage(factor: object, message: Gaussian, sqrt: real -> real) returns (r: Result<real>)
      modifies this
      ensures factor !in old(messages) ==> r == Failure(KeyError) && unchanged(this)
      ensures factor in old(messages) ==>
                && messages == old(messages)[factor := message]
                && Value() == Mul(Div(old(Value()), old(messages)[factor]), message)
                && r == Success(Delta(old(Value()), Value(), sqrt))
      ensures old(Valid()) ==> Valid()
    {
      if factor !in messages {
        return Failure(KeyError);
      }
      var oldMessage := messages[factor];
      TotalUpdate(messages, factor, message);
      messages := messages[factor := message];
      var delta := Set(Mul(Div(Value(), oldMessage), message), sqrt);
      r := Success(delta);
    }

    /** `update_value(factor, pi, tau)`: the belief becomes `value`, and the
        stored message of `factor` absorbs the difference, so the other
        messages still account for the rest; KeyError if not connected. */
    method UpdateValue(factor: object, value: Gaussian, sqrt: real -> real) returns (r: Result<real>)
      modifies this
      ensures factor !in old(messages) ==> r == Failure(KeyError) && unchanged(this)
      ensures factor in old(messages) ==>
                && messages == old(messages)[factor := Div(Mul(value, old(messages)[factor]), old(Value()))]
                && Value() == value
                && r == Success(Delta(old(Value()), value, sqrt))
      ensures old(Valid()) ==> Valid()
    {
      if factor !in messages {
        return Failure(KeyError);
      }
      var oldMessage := messages[factor];
      var message := Div(Mul(value, oldMessage), Value());
      TotalUpdate(messages, factor, message);
      messages := messages[factor := message];
      var delta := Set(value, sqrt);
      r := Success(delta);
    }

    /** `var[factor] = Gaussian()`, as `Factor.__init__` does for each
        variable it connects: a new key with the uninformative message. */
    method Connect(factor: object)
      modifies this
      ensures messages == old(messages)[factor := Uninformative] && Value() == old(Value())
      ensures factor !in old(messages) && old(Valid()) ==> Valid()
    {
      if factor !in messages {
        TotalConnect(messages, factor);
      }
      messages := messages[factor := Uninformative];
    }
  }

  /** `update_message` and `update_value` are two views of one change: the
      belief `update_value` writes is what `update_message` would make of
      the message it stores. */
  lemma UpdateValueIsUpdateMessage(belief: Gaussian, stored: Gaussian, value: Gaussian)
    ensures var message := Div(Mul(value, stored), belief);
            Mul(Div(belief, stored), message) == value
  {
  }

  // ---------------------------------------------------------------------
  // The record of message passes.

  /** What a factor was asked to do: `down()`, `up()` or `up(index)`. */
  datatype Move = DownMove | UpMove | UpAtMove(index: int)

  /** One message pass: a factor and its move. */
  datatype Call = Call(factor: object, move: Move)

  /** The message passes that completed, in order, with the change each
      returned, and the pass that raised, with its exception. Every
      message-passing method of a factor records its own pass through
      `Record`; nothing else writes the log. */
  class Log {
    ghost var calls: seq<Call>
    ghost var changes: seq<real>
    ghost var failed: Option<(Call, Error)>

    constructor ()
      ensures calls == [] && changes == [] && failed == None
    {
      calls, changes, failed := [], [], None;
    }

    /** Records the pass `call` with result `r`. */
    ghost method Record(call: Call, r: Result<real>)
      modifies this
      ensures Logged(this, old(calls), old(changes), old(failed), call, r)
    {
      if r.Success? {
        calls, changes := calls + [call], changes + [r.value];
      } else {
        failed := Some((call, r.error));
      }
    }
  }

  /** The log went from `(calls0, changes0, failed0)` to its present state
      by the pass `call` with result `r`: on success one more call and its
      change; on failure the same passes, and `call` with its exception as
      the pass that raised. */
  ghost predicate Logged(log: Log, calls0: seq<Call>, changes0: seq<real>, failed0: Option<(Call, Error)>,
                         call: Call, r: Result<real>)
    reads log
  {
    if r.Success? then log.calls == calls0 + [call] && log.changes == changes0 + [r.value] && log.failed == failed0
    else log.calls == calls0 && log.changes == changes0 && log.failed == Some((call, r.error))
  }

  // ---------------------------------------------------------------------
  // PriorFactor.

  /** The belief `PriorFactor.down` writes: the prior `val` with its
      variance widened by `dynamic^2` (`sigma` is `sqrt(1/pi)`, and `inf`
      when `pi` is 0; the square root of a negative number is an error). */
  function PriorValue(val: Gaussian, dynamic: real): (r: Result<Gaussian>)
    ensures r.Failure? <==> val.pi < 0.0
    ensures r.Failure? ==> r.error == ValueError("math domain error")
    ensures val.pi == 0.0 ==> r == Success(Uninformative)
  {
    if val.pi < 0.0 then Failure(ValueError("math domain error"))
    else if val.pi == 0.0 then Success(Uninformative)
    else
      var p := 1.0 / (1.0 / val.pi + dynamic * dynamic);
      Success(Gaussian(p, p * Mu(val)))
  }

  /** The prior keeps its mean and loses precision to the dynamic: the new
      precision is positive, at most the old one, and equal to it exactly
      when the dynamic is 0. */
  lemma PriorWidens(val: Gaussian, dynamic: real)
    requires val.pi > 0.0
    ensures var r := PriorValue(val, dynamic);
            && r.Success? && Mu(r.value) == Mu(val)
            && 0.0 < r.value.pi <= val.pi
            && (r.value.pi == val.pi <==> dynamic == 0.0)
  {
    var q := 1.0 / val.pi;
    ProductNonneg(dynamic, dynamic);
    var e := dynamic * dynamic;
    InvLe(q, q + e);
    InvInv(val.pi);
    if dynamic != 0.0 {
      if e == 0.0 {
        ProductZero(dynamic, dynamic);
      }
      InvLt(q, q + e);
    }
    var p := 1.0 / (q + e);
    MuOfPrecisionMean(p, Mu(val));
  }

  /** The factor holding a player's prior rating: `PriorFactor`. */
  class PriorFactor {
    const v: Variable
    const val: Gaussian
    const dynamic: real

    /** Connects the factor to its variable. */
    constructor (v: Variable, val: Gaussian, dynamic: real)
      modifies v
      ensures this.v == v && this.val == val && this.dynamic == dynamic
      ensures this !in old(v.messages)
      ensures v.messages == old(v.messages)[this := Uninformative] && v.Value() == old(v.Value())
      ensures old(v.Valid()) ==> v.Valid()
    {
      this.v, this.val, this.dynamic := v, val, dynamic;
      new;
      v.Connect(this);
    }

    /** `down()`: the variable's belief becomes `PriorValue(val, dynamic)`. */
    method Down(sqrt: real -> real, ghost log: Log) returns (r: Result<real>)
      modifies v, log
      ensures Logged(log, old(log.calls), old(log.changes), old(log.failed), Call(this, DownMove), r)
      ensures PriorValue(val, dynamic).Failure? ==>
                r == Failure(PriorValue(val, dynamic).error) && unchanged(v)
      ensures PriorValue(val, dynamic).Success? && this !in old(v.messages) ==>
                r == Failure(KeyError) && unchanged(v)
      ensures PriorValue(val, dynamic).Success? && this in old(v.messages) ==>
                && v.Value() == PriorValue(val, dynamic).value
                && v.messages == old(v.messages)[this := Div(Mul(v.Value(), old(v.messages)[this]), old(v.Value()))]
                && r == Success(Delta(old(v.Value()), v.Value(), sqrt))
      ensures old(v.Valid()) ==> v.Valid()
    {
      var value := PriorValue(val, dynamic);
      if value.Failure? {
        r := Failure(value.error);
      } else {
        r := v.UpdateValue(this, value.value, sqrt);
      }
      log.Record(Call(this, DownMove), r);
    }
  }

  // ---------------------------------------------------------------------
  // LikelihoodFactor.

  /** The message `LikelihoodFactor.down` sends to the performance: the
      quotient `msg` of the skill's belief by the stored message, scaled by
      `a = pi / (pi + belief.pi)` with `pi = 1 / variance`. */
  function LikelihoodDown(variance: real, beliefPi: real, msg: Gaussian): (r: Result<Gaussian>)
    ensures r.Failure? <==> variance == 0.0 || 1.0 / variance + beliefPi == 0.0
    ensures r.Failure? ==> r.error == ZeroDivisionError
  {
    if variance == 0.0 then Failure(ZeroDivisionError)
    else
      var p := 1.0 / variance;
      if p + beliefPi == 0.0 then Failure(ZeroDivisionError)
      else Success(Scale(p / (p + beliefPi), msg))
  }

  /** The message `LikelihoodFactor.up` sends to the skill: the quotient
      `msg` of the performance's belief by the stored message, scaled by
      `a = 1 / (1 + variance * msg.pi)`. */
  function LikelihoodUp(variance: real, msg: Gaussian): (r: Result<Gaussian>)
    ensures r.Failure? <==> 1.0 + variance * msg.pi == 0.0
    ensures r.Failure? ==> r.error == ZeroDivisionError
  {
    var d := 1.0 + variance * msg.pi;
    if d == 0.0 then Failure(ZeroDivisionError)
    else Success(Scale(1.0 / d, msg))
  }

  /** The likelihood factor is the Gaussian `N(perf; skill, variance)`:
      the message `up` sends has the mean of the quotient it comes from and
      its variance plus `variance`. */
  lemma LikelihoodUpAddsVariance(variance: real, msg: Gaussian)
    requires variance >= 0.0 && msg.pi > 0.0
    ensures var r := LikelihoodUp(variance, msg);
            && r.Success? && r.value.pi > 0.0
            && Mu(r.value) == Mu(msg)
            && 1.0 / r.value.pi == 1.0 / msg.pi + variance
  {
    var p := msg.pi;
    var vp := variance * p;
    ProductNonneg(variance, p);
    var d := 1.0 + vp;
    InvLe(1.0, d);
    ScaleKeepsMean(1.0 / d, msg);
    AddVariance(variance, p);
  }

  /** `1 / ((1 / (1 + v p)) p) = 1 / p + v` for `p > 0`, `v >= 0`. */
  lemma AddVariance(v: real, p: real)
    requires p > 0.0 && v >= 0.0
    ensures 1.0 + v * p > 0.0
    ensures (1.0 / (1.0 + v * p)) * p > 0.0
    ensures 1.0 / ((1.0 / (1.0 + v * p)) * p) == 1.0 / p + v
  {
    ProductNonneg(v, p);
    var d := 1.0 + v * p;
    assert (1.0 / d) * p == p / d;
    assert 1.0 / (p / d) == d / p;
    assert d / p == 1.0 / p + (v * p) / p;
  }

  /** `down` scales by the precision of the skill's whole belief where
      `up` uses that of the quotient; when the two precisions agree (the
      factor's own stored message carries none, as when `run_schedule`
      first sends it down) the two rules agree. */
  lemma LikelihoodDownIsUpRule(variance: real, msg: Gaussian)
    requires variance != 0.0
    ensures LikelihoodDown(variance, msg.pi, msg) == LikelihoodUp(variance, msg)
  {
    DownScaleIsUpScale(variance, msg.pi);
    if 1.0 + variance * msg.pi == 0.0 {
      assert LikelihoodUp(variance, msg) == Failure(ZeroDivisionError);
      assert LikelihoodDown(variance, msg.pi, msg) == Failure(ZeroDivisionError);
    } else {
      var a := 1.0 / (1.0 + variance * msg.pi);
      assert LikelihoodUp(variance, msg).Success?;
      assert LikelihoodUp(variance, msg).value == Scale(a, msg);
      assert LikelihoodDown(variance, msg.pi, msg) == Success(Scale(a, msg));
    }
  }

  /** With `p = 1 / v`: `p + b` is 0 exactly when `1 + v b` is, and
      otherwise `p / (p + b) = 1 / (1 + v b)`. */
  lemma DownScaleIsUpScale(v: real, b: real)
    requires v != 0.0
    ensures (1.0 / v + b == 0.0) <==> (1.0 + v * b == 0.0)
    ensures 1.0 / v + b != 0.0 ==> (1.0 / v) / (1.0 / v + b) == 1.0 / (1.0 + v * b)
  {
    var p := 1.0 / v;
    assert p * v == 1.0;
    assert (p + b) * v == 1.0 + v * b;
  }

  /** The factor linking a skill (`mean`) to a performance (`value`). */
  class LikelihoodFactor {
    const mean: Variable
    const value: Variable
    const variance: real

    /** Connects the factor to both variables. */
    constructor (mean: Variable, value: Variable, variance: real)
      modifies mean, value
      ensures this.mean == mean && this.value == value && this.variance == variance
      ensures this !in old(mean.messages) && this !in old(value.messages)
      ensures mean.messages == old(mean.messages)[this := Uninformative] && mean.Value() == old(mean.Value())
      ensures value.messages == old(value.messages)[this := Uninformative] && value.Value() == old(value.Value())
      ensures old(mean.Valid()) ==> mean.Valid()
      ensures old(value.Valid()) ==> value.Valid()
    {
      this.mean, this.value, this.variance := mean, value, variance;
      new;
      mean.Connect(this);
      value.Connect(this);
    }

    /** `down()`: the performance receives `LikelihoodDown` of the skill. */
    method Down(sqrt: real -> real, ghost log: Log) returns (r: Result<real>)
      modifies value, log
      ensures Logged(log, old(log.calls), old(log.changes), old(log.failed), Call(this, DownMove), r)
      ensures this !in old(mean.messages) ==> r == Failure(KeyError) && unchanged(value)
      ensures this in old(mean.messages) ==>
                var msg := LikelihoodDown(variance, old(mean.Value()).pi, Div(old(mean.Value()), old(mean.messages)[this]));
                && (msg.Failure? ==> r == Failure(msg.error) && unchanged(value))
                && (msg.Success? && this !in old(value.messages) ==> r == Failure(KeyError) && unchanged(value))
                && (msg.Success? && this in old(value.messages) ==>
                      && value.messages == old(value.messages)[this := msg.value]
                      && value.Value() == Mul(Div(old(value.Value()), old(value.messages)[this]), msg.value)
                      && r == Success(Delta(old(value.Value()), value.Value(), sqrt)))
      ensures old(value.Valid()) ==> value.Valid()
    {
      if this !in mean.messages {
        r := Failure(KeyError);
      } else {
        var msg := LikelihoodDown(variance, mean.Value().pi, Div(mean.Value(), mean.messages[this]));
        if msg.Failure? {
          r := Failure(msg.error);
        } else {
          r := value.UpdateMessage(this, msg.value, sqrt);
        }
      }
      log.Record(Call(this, DownMove), r);
    }

    /** `up()`: the skill receives `LikelihoodUp` of the performance. */
    method Up(sqrt: real -> real, ghost log: Log) returns (r: Result<real>)
      modifies mean, log
      ensures Logged(log, old(log.calls), old(log.changes), old(log.failed), Call(this, UpMove), r)
      ensures this !in old(value.messages) ==> r == Failure(KeyError) && unchanged(mean)
      ensures this in old(value.messages) ==>
                var msg := LikelihoodUp(variance, Div(old(value.Value()), old(value.messages)[this]));
                && (msg.Failure? ==> r == Failure(msg.error) && unchanged(mean))
                && (msg.Success? && this !in old(mean.messages) ==> r == Failure(KeyError) && unchanged(mean))
                && (msg.Success? && this in old(mean.messages) ==>
                      && mean.messages == old(mean.messages)[this := msg.value]
                      && mean.Value() == Mul(Div(old(mean.Value()), old(mean.messages)[this]), msg.value)
                      && r == Success(Delta(old(mean.Value()), mean.Value(), sqrt)))
      ensures old(mean.Valid()) ==> mean.Valid()
    {
      if this !in value.messages {
        r := Failure(KeyError);
      } else {
        var msg := LikelihoodUp(variance, Div(value.Value(), value.messages[this]));
        if msg.Failure? {
          r := Failure(msg.error);
        } else {
          r := mean.UpdateMessage(this, msg.value, sqrt);
        }
      }
      log.Record(Call(this, UpMove), r);
    }
  }

  // ---------------------------------------------------------------------
  // SumFactor.

  /** The number of triples `itertools.izip(vals, msgs, coeffs)` yields. */
  function ZipLength(n: nat, coeffs: seq<real>): (k: nat)
    ensures k <= n && k <= |coeffs| && (k == n || k == |coeffs|)
  {
    if n <= |coeffs| then n else |coeffs|
  }

  /** `coeff * div.mu`. */
  function Weighted(coeff: real, div: Gaussian): real
  {
    coeff * Mu(div)
  }

  /** `coeff**2 / div.pi`. */
  function Share(coeff: real, div: Gaussian): real
    requires div.pi != 0.0
  {
    coeff * coeff / div.pi
  }

  /** `sum(coeff * div.mu)` over the first `k` pairs. */
  function MeanSum(divs: seq<Gaussian>, coeffs: seq<real>, k: nat): real
    requires k <= |divs| && k <= |coeffs|
  {
    if k == 0 then 0.0 else MeanSum(divs, coeffs, k - 1) + Weighted(coeffs[k - 1], divs[k - 1])
  }

  /** `pi_inv` after the first `k` pairs: the sum of `coeff**2 / div.pi`,
      which becomes `inf` at the first quotient without precision and then
      stays `inf`. */
  function PrecisionInv(divs: seq<Gaussian>, coeffs: seq<real>, k: nat): (p: ExtReal)
    requires k <= |divs| && k <= |coeffs|
    ensures p == Inf <==> exists i :: 0 <= i < k && divs[i].pi == 0.0
  {
    if k == 0 then Finite(0.0)
    else
      match PrecisionInv(divs, coeffs, k - 1)
      case Inf => Inf
      case Finite(s) =>
        if divs[k - 1].pi == 0.0 then Inf
        else Finite(s + Share(coeffs[k - 1], divs[k - 1]))
  }

  /** The message `SumFactor.update` sends: precision `1 / pi_inv` (0 when
      `pi_inv` is `inf`, an error when it is 0) and mean the weighted sum
      of the quotients' means. */
  function SumMessage(divs: seq<Gaussian>, coeffs: seq<real>): (r: Result<Gaussian>)
    ensures var k := ZipLength(|divs|, coeffs);
            && (r.Failure? <==> PrecisionInv(divs, coeffs, k) == Finite(0.0))
            && (r.Failure? ==> r.error == ZeroDivisionError)
            && (r.Success? && r.value.pi != 0.0 ==> Mu(r.value) == MeanSum(divs, coeffs, k))
            && (PrecisionInv(divs, coeffs, k) == Inf ==> r == Success(Uninformative))
  {
    var k := ZipLength(|divs|, coeffs);
    var mu := MeanSum(divs, coeffs, k);
    match PrecisionInv(divs, coeffs, k)
    case Inf => Success(Gaussian(0.0, 0.0 * mu))
    case Finite(s) =>
      if s == 0.0 then Failure(ZeroDivisionError)
      else
        var p := 1.0 / s;
        MuOfPrecisionMean(p, mu);
        Success(Gaussian(p, p * mu))
  }

  /** The coefficients `SumFactor.up(index)` solves with: `1 / coeff` at
      `index`, `-c / coeff` elsewhere, and 0 wherever that division fails
      (all of them when `coeff` is 0). The comparison `x == index` is on
      the raw index, so a negative index matches no position. */
  function Rewritten(coeffs: seq<real>, index: int, coeff: real): (r: seq<real>)
    ensures |r| == |coeffs|
    ensures coeff == 0.0 ==> forall j | 0 <= j < |r| :: r[j] == 0.0
    ensures coeff != 0.0 ==> forall j | 0 <= j < |r| ::
              r[j] == if j == index then 1.0 / coeff else -coeffs[j] / coeff
  {
    seq(|coeffs|, j requires 0 <= j < |coeffs| =>
      if coeff == 0.0 then 0.0 else if j == index then 1.0 / coeff else -coeffs[j] / coeff)
  }

  /** `sum(coeffs[j] * xs[j])` over the first `k` entries. */
  function Dot(coeffs: seq<real>, xs: seq<real>, k: nat): real
    requires k <= |coeffs| && k <= |xs|
  {
    if k == 0 then 0.0 else Dot(coeffs, xs, k - 1) + coeffs[k - 1] * xs[k - 1]
  }

  /** The coefficients `up(i)` uses invert the sum `down` computes: if the
      sum is `s = sum(c_j t_j)` and `c_i` is not 0, the rewritten weights
      applied to the terms with `s` in place `i` give back `t_i`. */
  lemma {:induction false} SolveForTerm(coeffs: seq<real>, terms: seq<real>, i: nat, s: real)
    requires |coeffs| == |terms| && i < |terms| && coeffs[i] != 0.0
    requires s == Dot(coeffs, terms, |terms|)
    ensures Dot(Rewritten(coeffs, i, coeffs[i]), terms[i := s], |terms|) == terms[i]
  {
    var n := |terms|;
    var w := seq(n, j requires 0 <= j < n => if j == i then 1.0 else -coeffs[j]);
    RewrittenScales(coeffs, i, w);
    SolveWith(coeffs, terms, Rewritten(coeffs, i, coeffs[i]), w, terms[i := s], i);
  }

  /** `SolveForTerm` for weights `r` that are `w` divided by `c_i`. */
  lemma {:induction false} SolveWith(coeffs: seq<real>, terms: seq<real>, r: seq<real>, w: seq<real>, v: seq<real>, i: nat)
    requires |coeffs| == |terms| == |r| == |w| == |v| && i < |terms| && coeffs[i] != 0.0
    requires forall j | 0 <= j < |w| :: w[j] == if j == i then 1.0 else -coeffs[j]
    requires forall j | 0 <= j < |r| :: r[j] == w[j] / coeffs[i]
    requires v[i] == Dot(coeffs, terms, |terms|)
    requires forall j | 0 <= j < |v| && j != i :: v[j] == terms[j]
    ensures Dot(r, v, |v|) == terms[i]
  {
    var n := |terms|;
    DotDivide(r, w, v, coeffs[i], n);
    DotNumerator(coeffs, terms, w, v, i, n);
    SolvedTerm(Dot(r, v, n), Dot(w, v, n), coeffs[i], terms[i], v[i], Dot(coeffs, terms, n));
  }

  /** The rewritten weights are the weights `1` at `i` and `-c_j`
      elsewhere, divided by `c_i`. */
  lemma RewrittenScales(coeffs: seq<real>, i: nat, w: seq<real>)
    requires i < |coeffs| == |w| && coeffs[i] != 0.0
    requires forall j | 0 <= j < |w| :: w[j] == if j == i then 1.0 else -coeffs[j]
    ensures forall j | 0 <= j < |w| :: Rewritten(coeffs, i, coeffs[i])[j] == w[j] / coeffs[i]
  {
    var r := Rewritten(coeffs, i, coeffs[i]);
    forall j | 0 <= j < |w|
      ensures r[j] == w[j] / coeffs[i]
    {
      if j != i {
        NegDiv(coeffs[j], coeffs[i]);
      }
    }
  }

  /** The last step of `SolveForTerm`: `(s + c t - s) / c` is `t`. */
  lemma SolvedTerm(dr: real, dw: real, c: real, t: real, s: real, d: real)
    requires c != 0.0 && dr == dw / c && dw == (s + c * t) - d && s == d
    ensures dr == t
  {
    assert dw == c * t;
  }

  /** Dividing every weight by `c` divides the dot product by `c`. */
  lemma {:induction false} DotDivide(r: seq<real>, w: seq<real>, v: seq<real>, c: real, k: nat)
    requires c != 0.0 && k <= |r| == |w| == |v|
    requires forall j | 0 <= j < |r| :: r[j] == w[j] / c
    ensures Dot(r, v, k) == Dot(w, v, k) / c
  {
    if k > 0 {
      DotDivide(r, w, v, c, k - 1);
      DivDistributes(Dot(w, v, k - 1), w[k - 1], v[k - 1], c);
    }
  }

  /** With weights `1` at `i` and `-c_j` elsewhere, the dot product with
      the terms (value `v[i]` at `i`) over the first `k` entries is
      `v[i] [i < k]` minus the sum of `c_j t_j` over those `j != i`. */
  lemma {:induction false} DotNumerator(coeffs: seq<real>, terms: seq<real>, w: seq<real>, v: seq<real>, i: nat, k: nat)
    requires |coeffs| == |terms| == |w| == |v| && i < |terms| && k <= |terms|
    requires forall j | 0 <= j < |w| :: w[j] == if j == i then 1.0 else -coeffs[j]
    requires forall j | 0 <= j < |v| && j != i :: v[j] == terms[j]
    ensures Dot(w, v, k) == (if i < k then v[i] + coeffs[i] * terms[i] else 0.0) - Dot(coeffs, terms, k)
  {
    if k > 0 {
      DotNumerator(coeffs, terms, w, v, i, k - 1);
      var j := k - 1;
      if j != i {
        NegProduct(coeffs[j], terms[j]);
        assert w[j] * v[j] == -(coeffs[j] * terms[j]);
      } else {
        assert w[j] * v[j] == v[i];
      }
    }
  }

  /** The factor stating `sum = sum(coeffs[j] * terms[j])`. */
  class SumFactor {
    const sum: Variable
    const terms: seq<Variable>
    const coeffs: seq<real>

    /** Connects the factor to `[sum] + terms`. */
    constructor (sum: Variable, terms: seq<Variable>, coeffs: seq<real>)
      modifies {sum} + set t | t in terms
      ensures this.sum == sum && this.terms == terms && this.coeffs == coeffs
      ensures forall x | x == sum || x in terms ::
                && this !in old(x.messages)
                && x.messages == old(x.messages)[this := Uninformative]
                && x.Value() == old(x.Value())
                && (old(x.Valid()) ==> x.Valid())
    {
      this.sum, this.terms, this.coeffs := sum, terms, coeffs;
      new;
      var vars := [sum] + terms;
      for i := 0 to |vars|
        invariant forall x | x in vars :: this !in old(x.messages)
        invariant forall x | x in vars ::
                    && x.messages == (if x in vars[..i] then old(x.messages)[this := Uninformative] else old(x.messages))
                    && x.Value() == old(x.Value())
                    && (old(x.Valid()) ==> x.Valid())
      {
        var x := vars[i];
        ghost var before := x.messages;
        x.Connect(this);
        if x in vars[..i] {
          // Connected twice (the sum is also a term): the message is
          // already the uninformative one, so nothing changes.
          assert x.messages == before;
        }
        assert vars[..i + 1] == vars[..i] + [x];
      }
      assert vars[..|vars|] == vars;
    }

    /** The variables' messages to this factor: `[var[self] for var in
        vals]`, or KeyError for a variable not connected to it. */
    function Messages(vals: seq<Variable>): (r: Result<seq<Gaussian>>)
      reads vals
      ensures r.Failure? <==> exists i :: 0 <= i < |vals| && this !in vals[i].messages
      ensures r.Failure? ==> r.error == KeyError
      ensures r.Success? ==>
                |r.value| == |vals| && forall i | 0 <= i < |vals| :: r.value[i] == vals[i].messages[this]
    {
      if forall i | 0 <= i < |vals| :: this in vals[i].messages then
        Success(seq(|vals|, i requires 0 <= i < |vals| && this in vals[i].messages reads vals =>
          vals[i].messages[this]))
      else Failure(KeyError)
    }

    /** The quotients `val / msg` of the variables by their messages. */
    function Quotients(vals: seq<Variable>, msgs: seq<Gaussian>): (divs: seq<Gaussian>)
      requires |msgs| == |vals|
      reads vals
      ensures |divs| == |vals| && forall i | 0 <= i < |vals| :: divs[i] == Div(vals[i].Value(), msgs[i])
    {
      seq(|vals|, i requires 0 <= i < |vals| reads vals => Div(vals[i].Value(), msgs[i]))
    }

    /** The list comprehension collecting the messages. */
    method CollectMessages(vals: seq<Variable>) returns (r: Result<seq<Gaussian>>)
      ensures r == Messages(vals)
    {
      var msgs: seq<Gaussian> := [];
      for i := 0 to |vals|
        invariant |msgs| == i
        invariant forall j | 0 <= j < i :: this in vals[j].messages && msgs[j] == vals[j].messages[this]
      {
        if this !in vals[i].messages {
          return Failure(KeyError);
        }
        msgs := msgs + [vals[i].messages[this]];
      }
      assert Messages(vals).Success? && Messages(vals).value == msgs;
      r := Success(msgs);
    }

    /** The loop of `update` over `izip(vals, msgs, coeffs)`. */
    method Accumulate(divs: seq<Gaussian>, cs: seq<real>) returns (piInv: ExtReal, mu: real)
      ensures var k := ZipLength(|divs|, cs);
              piInv == PrecisionInv(divs, cs, k) && mu == MeanSum(divs, cs, k)
    {
      var k := ZipLength(|divs|, cs);
      piInv, mu := Finite(0.0), 0.0;
      for i := 0 to k
        invariant piInv == PrecisionInv(divs, cs, i)
        invariant mu == MeanSum(divs, cs, i)
      {
        var div, coeff := divs[i], cs[i];
        mu := mu + Weighted(coeff, div);
        if piInv == Inf {
          continue;
        }
        if div.pi == 0.0 {
          piInv := Inf;
        } else {
          piInv := Finite(piInv.r + Share(coeff, div));
        }
      }
    }

    /** `update(var, vals, msgs, coeffs)`: `target` receives the message
        `SumMessage` of the quotients. */
    method Update(target: Variable, vals: seq<Variable>, msgs: seq<Gaussian>, cs: seq<real>, sqrt: real -> real)
      returns (r: Result<real>)
      requires |msgs| == |vals|
      modifies target
      ensures var m := old(SumMessage(Quotients(vals, msgs), cs));
              && (m.Failure? ==> r == Failure(m.error) && unchanged(target))
              && (m.Success? && this !in old(target.messages) ==> r == Failure(KeyError) && unchanged(target))
              && (m.Success? && this in old(target.messages) ==>
                    && target.messages == old(target.messages)[this := m.value]
                    && target.Value() == Mul(Div(old(target.Value()), old(target.messages)[this]), m.value)
                    && r == Success(Delta(old(target.Value()), target.Value(), sqrt)))
      ensures old(target.Valid()) ==> target.Valid()
    {
      var divs := Quotients(vals, msgs);
      var piInv, mu := Accumulate(divs, cs);
      var message: Gaussian;
      match piInv {
        case Inf =>
          message := Gaussian(0.0, 0.0 * mu);
        case Finite(s) =>
          if s == 0.0 {
            return Failure(ZeroDivisionError);
          }
          var p := 1.0 / s;
          message := Gaussian(p, p * mu);
      }
      assert SumMessage(divs, cs).Success?;
      assert SumMessage(divs, cs).value == message;
      r := target.UpdateMessage(this, message, sqrt);
    }

    /** `down()`: the sum receives the weighted sum of the terms. */
    method Down(sqrt: real -> real, ghost log: Log) returns (r: Result<real>)
      modifies sum, log
      ensures Logged(log, old(log.calls), old(log.changes), old(log.failed), Call(this, DownMove), r)
      ensures old(Messages(terms)).Failure? ==> r == Failure(KeyError) && unchanged(sum)
      ensures old(Messages(terms)).Success? ==>
                var m := old(SumMessage(Quotients(terms, Messages(terms).value), coeffs));
                && (m.Failure? ==> r == Failure(m.error) && unchanged(sum))
                && (m.Success? && this !in old(sum.messages) ==> r == Failure(KeyError) && unchanged(sum))
                && (m.Success? && this in old(sum.messages) ==>
                      && sum.messages == old(sum.messages)[this := m.value]
                      && sum.Value() == Mul(Div(old(sum.Value()), old(sum.messages)[this]), m.value)
                      && r == Success(Delta(old(sum.Value()), sum.Value(), sqrt)))
      ensures old(sum.Valid()) ==> sum.Valid()
    {
      var msgs := CollectMessages(terms);
      if msgs.Failure? {
        r := Failure(msgs.error);
      } else {
        r := Update(sum, terms, msgs.value, coeffs, sqrt);
      }
      log.Record(Call(this, DownMove), r);
    }

    /** The coefficient rewrite loop of `up`. */
    method RewriteCoeffs(index: int, coeff: real) returns (cs: seq<real>)
      ensures cs == Rewritten(coeffs, index, coeff)
    {
      cs := [];
      for x := 0 to |coeffs|
        invariant cs == Rewritten(coeffs, index, coeff)[..x]
      {
        var c := coeffs[x];
        if coeff == 0.0 {
          cs := cs + [0.0];
        } else if x == index {
          cs := cs + [1.0 / coeff];
        } else {
          cs := cs + [-c / coeff];
        }
      }
    }

    /** `up(index)`: the term at `index` (Python indexing, so negative
        indices count from the end) receives the sum solved for it. */
    method Up(index: int, sqrt: real -> real, ghost log: Log) returns (r: Result<real>)
      modifies log, if 0 <= PyIndex(index, |terms|) < |terms| then {terms[PyIndex(index, |terms|)]} else {}
      ensures Logged(log, old(log.calls), old(log.changes), old(log.failed), Call(this, UpAtMove(index)), r)
      ensures !(0 <= PyIndex(index, |coeffs|) < |coeffs|) ==> r == Failure(IndexError)
      ensures 0 <= PyIndex(index, |coeffs|) < |coeffs| && !(0 <= PyIndex(index, |terms|) < |terms|) ==>
                r == Failure(IndexError)
      ensures 0 <= PyIndex(index, |coeffs|) < |coeffs| && 0 <= PyIndex(index, |terms|) < |terms| ==>
                var i := PyIndex(index, |terms|);
                var target := terms[i];
                var vals := terms[i := sum];
                var cs := Rewritten(coeffs, index, coeffs[PyIndex(index, |coeffs|)]);
                && (old(Messages(vals)).Failure? ==> r == Failure(KeyError) && unchanged(target))
                && (old(Messages(vals)).Success? ==>
                      var m := old(SumMessage(Quotients(vals, Messages(vals).value), cs));
                      && (m.Failure? ==> r == Failure(m.error) && unchanged(target))
                      && (m.Success? && this !in old(target.messages) ==> r == Failure(KeyError) && unchanged(target))
                      && (m.Success? && this in old(target.messages) ==>
                            && target.messages == old(target.messages)[this := m.value]
                            && target.Value() == Mul(Div(old(target.Value()), old(target.messages)[this]), m.value)
                            && r == Success(Delta(old(target.Value()), target.Value(), sqrt))))
    ensures 0 <= PyIndex(index, |terms|) < |terms| ==>
              var target := terms[PyIndex(index, |terms|)];
              old(target.Valid()) ==> target.Valid()
    {
      var ci := PyIndex(index, |coeffs|);
      var i := PyIndex(index, |terms|);
      if !(0 <= ci < |coeffs|) || !(0 <= i < |terms|) {
        r := Failure(IndexError);
      } else {
        var cs := RewriteCoeffs(index, coeffs[ci]);
        var vals := terms[i := sum];
        var msgs := Messages(vals);
        if msgs.Failure? {
          r := Failure(msgs.error);
        } else {
          r := Update(terms[i], vals, msgs.value, cs, sqrt);
        }
      }
      log.Record(Call(this, UpAtMove(index)), r);
    }
  }

  /** Python's reading of a list index: a negative index counts from the
      end. The result is in range exactly when `-n <= index < n`. */
  function PyIndex(index: int, n: nat): (i: int)
    ensures 0 <= i < n <==> 0 <= index + n && index < n
    ensures 0 <= index ==> i == index
  {
    if index < 0 then index + n else index
  }

  /** The message `up(i)` sends to a term has the mean the equation
      `sum = sum(c_j t_j)` gives it: with the other variables' quotient
      means `ms`, all precisions present and `c_i != 0`, when `ms` is
      consistent with the equation the message's mean is the term's own
      quotient mean. */
  lemma SumUpSolves(divs: seq<Gaussian>, coeffs: seq<real>, i: nat, sumDiv: Gaussian)
    requires |coeffs| == |divs| && i < |divs| && coeffs[i] != 0.0
    requires Mu(sumDiv) == MeanSum(divs, coeffs, |divs|)
    ensures var cs := Rewritten(coeffs, i, coeffs[i]);
            var m := SumMessage(divs[i := sumDiv], cs);
            m.Success? && m.value.pi != 0.0 ==> Mu(m.value) == Mu(divs[i])
  {
    var means := seq(|divs|, j requires 0 <= j < |divs| => Mu(divs[j]));
    MeanSumIsDot(divs, coeffs, means, |divs|);
    SolveForTerm(coeffs, means, i, Mu(sumDiv));
    var cs := Rewritten(coeffs, i, coeffs[i]);
    var vs := divs[i := sumDiv];
    var means' := seq(|vs|, j requires 0 <= j < |vs| => Mu(vs[j]));
    assert means' == means[i := Mu(sumDiv)];
    MeanSumIsDot(vs, cs, means', |vs|);
  }

  /** `MeanSum` is the dot product with the quotients' means. */
  lemma {:induction false} MeanSumIsDot(divs: seq<Gaussian>, coeffs: seq<real>, means: seq<real>, k: nat)
    requires k <= |divs| && k <= |coeffs| && |means| == |divs|
    requires forall j | 0 <= j < |divs| :: means[j] == Mu(divs[j])
    ensures MeanSum(divs, coeffs, k) == Dot(coeffs, means, k)
  {
    if k > 0 {
      MeanSumIsDot(divs, coeffs, means, k - 1);
    }
  }

  // ---------------------------------------------------------------------
  // TruncateFactor.

  /** The belief `TruncateFactor.up` writes, from the quotient `div` of the
      belief by the stored message and `sqrtPi`, the square root of its
      precision: the moments of `div` truncated by the correction functions
      `v` and `w`, evaluated at `(div.tau / sqrt_pi, draw_margin * sqrt_pi)`.
      The root of a negative precision is an error. */
  function TruncateValue(div: Gaussian, sqrtPi: real, vFunc: (real, real) -> real,
                         wFunc: (real, real) -> real, drawMargin: real): (r: Result<Gaussian>)
    ensures div.pi < 0.0 ==> r == Failure(ValueError("math domain error"))
    ensures div.pi >= 0.0 && sqrtPi == 0.0 ==> r == Failure(ZeroDivisionError)
  {
    if div.pi < 0.0 then Failure(ValueError("math domain error"))
    else if sqrtPi == 0.0 then Failure(ZeroDivisionError)
    else
      var t, e := div.tau / sqrtPi, drawMargin * sqrtPi;
      var v, w := vFunc(t, e), wFunc(t, e);
      if 1.0 - w == 0.0 then Failure(ZeroDivisionError)
      else Success(Gaussian(div.pi / (1.0 - w), (div.tau + sqrtPi * v) / (1.0 - w)))
  }

  /** Moment matching of the truncated Gaussian: for a quotient with
      precision, the mean moves by `v` standard deviations
      (`v * sqrt_pi / pi`) and the variance is multiplied by `1 - w`; with
      `0 < w < 1` the precision grows. A quotient without precision is a
      division by zero. */
  lemma TruncateMoments(div: Gaussian, sqrt: real -> real, vFunc: (real, real) -> real,
                        wFunc: (real, real) -> real, drawMargin: real)
    requires SqrtSign(sqrt) && div.pi >= 0.0
    ensures div.pi == 0.0 ==> TruncateValue(div, sqrt(div.pi), vFunc, wFunc, drawMargin) == Failure(ZeroDivisionError)
    ensures div.pi > 0.0 ==>
              var s := sqrt(div.pi);
              var v, w := vFunc(div.tau / s, drawMargin * s), wFunc(div.tau / s, drawMargin * s);
              var r := TruncateValue(div, s, vFunc, wFunc, drawMargin);
              && (r.Success? <==> w != 1.0)
              && (w != 1.0 ==> Mu(r.value) == Mu(div) + v * s / div.pi)
              && (w != 1.0 ==> 1.0 / r.value.pi == (1.0 - w) / div.pi)
              && (0.0 < w < 1.0 ==> r.value.pi > div.pi)
  {
    if div.pi > 0.0 {
      var s := sqrt(div.pi);
      TruncatePositive(div, s, vFunc, wFunc, drawMargin);
    }
  }

  /** `TruncateMoments` for a given positive root `s`. */
  lemma TruncatePositive(div: Gaussian, s: real, vFunc: (real, real) -> real,
                         wFunc: (real, real) -> real, drawMargin: real)
    requires div.pi > 0.0 && s > 0.0
    ensures var v, w := vFunc(div.tau / s, drawMargin * s), wFunc(div.tau / s, drawMargin * s);
            var r := TruncateValue(div, s, vFunc, wFunc, drawMargin);
            && (r.Success? <==> w != 1.0)
            && (w != 1.0 ==> Mu(r.value) == Mu(div) + v * s / div.pi)
            && (w != 1.0 ==> 1.0 / r.value.pi == (1.0 - w) / div.pi)
            && (0.0 < w < 1.0 ==> r.value.pi > div.pi)
  {
    var t, e := div.tau / s, drawMargin * s;
    var v, w := vFunc(t, e), wFunc(t, e);
    TruncateUnfolded(div, s, vFunc, wFunc, drawMargin, v, w);
    if w != 1.0 {
      TruncatedMoments(div, s, v, w, TruncateValue(div, s, vFunc, wFunc, drawMargin).value);
    }
  }

  /** `TruncateValue` for a given positive root `s`. */
  lemma TruncateUnfolded(div: Gaussian, s: real, vFunc: (real, real) -> real,
                         wFunc: (real, real) -> real, drawMargin: real, v: real, w: real)
    requires div.pi > 0.0 && s > 0.0
    requires v == vFunc(div.tau / s, drawMargin * s) && w == wFunc(div.tau / s, drawMargin * s)
    ensures var r := TruncateValue(div, s, vFunc, wFunc, drawMargin);
            && (w == 1.0 ==> r == Failure(ZeroDivisionError))
            && (w != 1.0 ==> r.Success? && r.value.pi == div.pi / (1.0 - w))
            && (w != 1.0 ==> r.Success? && r.value.tau == (div.tau + s * v) / (1.0 - w))
  {
    var r := TruncateValue(div, s, vFunc, wFunc, drawMargin);
    if w != 1.0 {
      var d := 1.0 - w;
      assert d != 0.0;
      assert r.Success?;
      assert r.value.pi == div.pi / d && r.value.tau == (div.tau + s * v) / d;
    }
  }

  /** The arithmetic of `TruncateMoments` for given `sqrt_pi`, `v`, `w`. */
  lemma TruncatedMoments(div: Gaussian, s: real, v: real, w: real, g: Gaussian)
    requires div.pi > 0.0 && w != 1.0
    requires g.pi == div.pi / (1.0 - w) && g.tau == (div.tau + s * v) / (1.0 - w)
    ensures Mu(g) == Mu(div) + v * s / div.pi
    ensures 1.0 / g.pi == (1.0 - w) / div.pi
    ensures 0.0 < w < 1.0 ==> g.pi > div.pi
  {
    var d := 1.0 - w;
    TruncateArithmetic(div.pi, div.tau, s, v, d);
  }

  lemma TruncateArithmetic(p: real, tau: real, s: real, v: real, d: real)
    requires p > 0.0 && d != 0.0
    ensures p / d != 0.0
    ensures ((tau + s * v) / d) / (p / d) == tau / p + v * s / p
    ensures 1.0 / (p / d) == d / p
    ensures 0.0 < d < 1.0 ==> p / d > p
  {
    assert ((tau + s * v) / d) / (p / d) == (tau + s * v) / p;
    if 0.0 < d < 1.0 {
      assert p / d * d == p;
    }
  }

  /** The factor on a difference of team performances: `TruncateFactor`,
      with the correction functions for a win or for a draw. */
  class TruncateFactor {
    const v: Variable
    const vFunc: (real, real) -> real
    const wFunc: (real, real) -> real
    const drawMargin: real

    /** Connects the factor to its variable. */
    constructor (v: Variable, vFunc: (real, real) -> real, wFunc: (real, real) -> real, drawMargin: real)
      modifies v
      ensures this.v == v && this.vFunc == vFunc && this.wFunc == wFunc && this.drawMargin == drawMargin
      ensures this !in old(v.messages)
      ensures v.messages == old(v.messages)[this := Uninformative] && v.Value() == old(v.Value())
      ensures old(v.Valid()) ==> v.Valid()
    {
      this.v, this.vFunc, this.wFunc, this.drawMargin := v, vFunc, wFunc, drawMargin;
      new;
      v.Connect(this);
    }

    /** `up()`: the variable's belief becomes `TruncateValue` of its
        quotient by the stored message. */
    method Up(sqrt: real -> real, ghost log: Log) returns (r: Result<real>)
      modifies v, log
      ensures Logged(log, old(log.calls), old(log.changes), old(log.failed), Call(this, UpMove), r)
      ensures this !in old(v.messages) ==> r == Failure(KeyError) && unchanged(v)
      ensures this in old(v.messages) ==>
                var div := Div(old(v.Value()), old(v.messages)[this]);
                var value := TruncateValue(div, sqrt(div.pi), vFunc, wFunc, drawMargin);
                && (value.Failure? ==> r == Failure(value.error) && unchanged(v))
                && (value.Success? ==>
                      && v.Value() == value.value
                      && v.messages == old(v.messages)[this := Div(Mul(value.value, old(v.messages)[this]), old(v.Value()))]
                      && r == Success(Delta(old(v.Value()), value.value, sqrt)))
      ensures old(v.Valid()) ==> v.Valid()
    {
      if this !in v.messages {
        r := Failure(KeyError);
      } else {
        var div := Div(v.Value(), v.messages[this]);
        var value := TruncateValue(div, sqrt(div.pi), vFunc, wFunc, drawMargin);
        if value.Failure? {
          r := Failure(value.error);
        } else {
          r := v.UpdateValue(this, value.value, sqrt);
        }
      }
      log.Record(Call(this, UpMove), r);
    }
  }
}
