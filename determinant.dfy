/** `Matrix.determinant`, `Matrix.adjugate` and `Matrix.inverse` of
    trueskill/mathematics.py. The determinant is Gaussian elimination with
    partial pivoting over the columns from the last down to the second: it
    is specified by the function `DetFrom`, which performs the same steps on
    rows, and the method repeats them in place on a copied array of rows. */
module Determinants {
  import opened Wrappers
  import opened Matrices

  /** What elimination at column `c` needs: a square matrix with `c` a
      column index. */
  predicate Stage(t: Rows, c: nat)
  {
    IsSquare(t) && c < Height(t)
  }

  /** The row of the pivot among rows `0..n` of column `c`: the Python
      `max((abs(tmp[r][c]), r) for r in range(n + 1))` compares pairs, so it
      is a row of largest absolute value, the last such row on a tie. */
  function PivotUpTo(t: Rows, c: nat, n: nat): (p: nat)
    requires Stage(t, c) && n < Height(t)
    ensures p <= n
  {
    if n == 0 then 0
    else
      var q := PivotUpTo(t, c, n - 1);
      if Abs(t[n][c]) >= Abs(t[q][c]) then n else q
  }

  /** The pivot is a largest entry in absolute value, and the last one. */
  lemma {:induction false} PivotUpToLargest(t: Rows, c: nat, n: nat)
    requires Stage(t, c) && n < Height(t)
    ensures forall r | 0 <= r <= n :: Abs(t[r][c]) <= Abs(t[PivotUpTo(t, c, n)][c])
    ensures forall r | PivotUpTo(t, c, n) < r <= n :: Abs(t[r][c]) < Abs(t[PivotUpTo(t, c, n)][c])
  {
    if n > 0 {
      PivotUpToLargest(t, c, n - 1);
    }
  }

  /** `tmp[r], tmp[c] = tmp[c], tmp[r]`. */
  function Swapped(t: Rows, r: nat, c: nat): (s: Rows)
    requires r < |t| && c < |t|
    ensures Stage(t, c) && r <= c ==> Stage(s, c)
    ensures |s| == |t|
  {
    t[r := t[c]][c := t[r]]
  }

  /** Swapping two rows keeps the matrix square. */
  lemma SwappedStage(t: Rows, r: nat, c: nat)
    requires Stage(t, c) && r <= c
    ensures Stage(Swapped(t, r, c), c)
  {
    var s := Swapped(t, r, c);
    forall i | 0 <= i < |s| ensures |s[i]| == |t[0]| {
      if i == r { assert s[i] == t[c]; } else if i == c { assert s[i] == t[r]; } else { assert s[i] == t[i]; }
    }
  }

  /** Row `r` after `tmp[r][x] += f * tmp[c][x]` for every `x < c`, with
      `f = (-1 / pivot) * tmp[r][c]` and the pivot `tmp[c][c]`: the entries
      left of column `c` lose the multiple of the pivot row that clears
      column `c`. */
  function ElimRow(t: Rows, c: nat, r: nat): (row: seq<real>)
    requires Stage(t, c) && r < c && t[c][c] != 0.0
    ensures |row| == |t[r]|
  {
    var f := -1.0 / t[c][c] * t[r][c];
    seq(|t[r]|, x requires 0 <= x < |t[r]| => if x < c then t[r][x] + f * t[c][x] else t[r][x])
  }

  /** One elimination step at column `c`: every row above the pivot row
      updated by `ElimRow`, the others as they were. */
  function Eliminated(t: Rows, c: nat): (e: Rows)
    requires Stage(t, c) && t[c][c] != 0.0
    ensures |e| == |t| && Stage(e, c)
  {
    EliminatedUpTo(t, c, c)
  }

  /** Rows `0..k` updated by `ElimRow`, the others as they were. */
  function EliminatedUpTo(t: Rows, c: nat, k: nat): (e: Rows)
    requires Stage(t, c) && t[c][c] != 0.0 && k <= c
    ensures |e| == |t| && Stage(e, c)
  {
    if k == 0 then t else EliminatedUpTo(t, c, k - 1)[k - 1 := ElimRow(t, c, k - 1)]
  }

  /** The rows of `EliminatedUpTo`: `ElimRow` below `k`, unchanged from
      `k` on. */
  lemma {:induction false} EliminatedUpToRows(t: Rows, c: nat, k: nat)
    requires Stage(t, c) && t[c][c] != 0.0 && k <= c
    ensures forall r | 0 <= r < k :: EliminatedUpTo(t, c, k)[r] == ElimRow(t, c, r)
    ensures forall r | k <= r < |t| :: EliminatedUpTo(t, c, k)[r] == t[r]
  {
    if k > 0 {
      EliminatedUpToRows(t, c, k - 1);
    }
  }

  /** Real multiplication, kept behind a function so that the solver
      meets the products of the accumulator only where a proof asks for
      them. */
  function Times(x: real, y: real): real
  {
    x * y
  }

  /** The working state of `determinant`: the rows `tmp` and the
      accumulator `rv`. */
  datatype Elimination = Elimination(rows: Rows, rv: real)

  /** The pivot row of column `c`. */
  function PivotRow(t: Rows, c: nat): (p: nat)
    requires Stage(t, c)
    ensures p <= c
  {
    PivotUpTo(t, c, c)
  }

  /** One pass of the column loop with a non-zero pivot: swap the pivot row
      into row `c`, flip the sign of `rv` if that moved a row, multiply it by
      the pivot, and eliminate. */
  function Step(w: Elimination, c: nat): (n: Elimination)
    requires Stage(w.rows, c) && w.rows[PivotRow(w.rows, c)][c] != 0.0
    ensures Stage(n.rows, c)
  {
    var r := PivotRow(w.rows, c);
    var pivot := w.rows[r][c];
    Elimination(Eliminated(Swapped(w.rows, r, c), c), Times(if r != c then -w.rv else w.rv, pivot))
  }

  /** The value `determinant` returns once it reaches column `c` in state
      `w`: 0 as soon as a pivot is 0, otherwise `rv * tmp[0][0]` at the end. */
  function DetFrom(w: Elimination, c: nat): real
    requires Stage(w.rows, c)
    decreases c
  {
    if c == 0 then Times(w.rv, w.rows[0][0])
    else if w.rows[PivotRow(w.rows, c)][c] == 0.0 then 0.0
    else DetFrom(Step(w, c), c - 1)
  }

  /** `DetFrom` after one pass of the column loop. */
  lemma DetFromStep(w: Elimination, c: nat)
    requires Stage(w.rows, c)
    ensures c == 0 ==> DetFrom(w, c) == Times(w.rv, w.rows[0][0])
    ensures c > 0 &&  w.rows[PivotRow(w.rows, c)][c] == 0.0 ==> DetFrom(w, c) == 0.0
    ensures c > 0 && w.rows[PivotRow(w.rows, c)][c] != 0.0 ==> DetFrom(w, c) == DetFrom(Step(w, c), c - 1)
  {
  }

  /** The determinant of a square matrix, as the source computes it. */
  function Det(m: Rows): real
    requires IsSquare(m)
  {
    DetFrom(Elimination(m, 1.0), Height(m) - 1)
  }

  /** The pivot search of `determinant`: the generator `max` over the
      pairs `(abs(tmp[r][c]), r)` for `r` in `0..c`. */
  method FindPivot(tmp: array<seq<real>>, c: nat) returns (r: nat)
    requires Stage(tmp[..], c)
    ensures r == PivotRow(tmp[..], c)
  {
    r := 0;
    var i := 1;
    while i <= c
      invariant 1 <= i <= c + 1 && r == PivotUpTo(tmp[..], c, i - 1)
    {
      if Abs(tmp[i][c]) >= Abs(tmp[r][c]) {
        r := i;
      }
      i := i + 1;
    }
  }

  /** The elimination pass of `determinant` for column `c`, in place:
      `tmp[r][x] += f * tmp[c][x]` for `r, x < c`. */
  method EliminateColumn(tmp: array<seq<real>>, c: nat)
    requires Stage(tmp[..], c) && tmp[c][c] != 0.0
    modifies tmp
    ensures tmp[..] == Eliminated(old(tmp[..]), c)
  {
    ghost var start := tmp[..];
    var n := tmp.Length;
    var fact := -1.0 / tmp[c][c];
    var k := 0;
    while k < c
      invariant 0 <= k <= c
      invariant tmp[..] == EliminatedUpTo(start, c, k)
      invariant forall j | k <= j < n :: tmp[j] == start[j]
    {
      var f := fact * tmp[k][c];
      var row := tmp[k];
      var x := 0;
      while x < c
        invariant 0 <= x <= c && |row| == n
        invariant forall y | 0 <= y < x :: row[y] == ElimRow(start, c, k)[y]
        invariant forall y | x <= y < n :: row[y] == start[k][y]
      {
        row := row[x := row[x] + f * tmp[c][x]];
        x := x + 1;
      }
      assert row == ElimRow(start, c, k);
      tmp[k] := row;
      k := k + 1;
    }
  }

  /** One pass of the column loop once the pivot row `r` is known and its
      entry is not 0: the row swap, the sign and pivot folded into `rv`, and
      the elimination. */
  method PivotAndEliminate(tmp: array<seq<real>>, c: nat, r: nat, rv: real) returns (rv': real)
    requires Stage(tmp[..], c) && r == PivotRow(tmp[..], c) && tmp[r][c] != 0.0
    modifies tmp
    ensures Stage(tmp[..], c)
    ensures c > 0 ==> DetFrom(Elimination(tmp[..], rv'), c - 1) == DetFrom(Elimination(old(tmp[..]), rv), c)
  {
    ghost var before := Elimination(tmp[..], rv);
    var pivot := tmp[r][c];
    tmp[r], tmp[c] := tmp[c], tmp[r];
    assert tmp[..] == Swapped(before.rows, r, c);
    SwappedStage(before.rows, r, c);
    rv' := rv;
    if r != c {
      rv' := -rv';
    }
    rv' := Times(rv', pivot);
    EliminateColumn(tmp, c);
    assert Elimination(tmp[..], rv') == Step(before, c);
    DetFromStep(before, c);
  }

  /** One pass of the column loop: the pivot search, then either the early
      exit (`zero`) for a zero pivot, or the swap and the elimination. */
  method ColumnPass(tmp: array<seq<real>>, c: nat, rv: real, ghost target: real) returns (rv': real, zero: bool)
    requires c > 0 && Stage(tmp[..], c) && DetFrom(Elimination(tmp[..], rv), c) == target
    modifies tmp
    ensures zero ==> target == 0.0
    ensures !zero ==> Stage(tmp[..], c - 1) && DetFrom(Elimination(tmp[..], rv'), c - 1) == target
  {
    DetFromStep(Elimination(tmp[..], rv), c);
    var r := FindPivot(tmp, c);
    if tmp[r][c] == 0.0 {
      return rv, true;
    }
    rv' := PivotAndEliminate(tmp, c, r, rv);
    zero := false;
  }

  /** The column loop of `determinant` and its result, on the working
      rows `tmp`, from the last column down to the second. */
  method EliminateAll(tmp: array<seq<real>>) returns (d: real)
    requires tmp.Length >= 1 && Stage(tmp[..], tmp.Length - 1)
    modifies tmp
    ensures d == DetFrom(Elimination(old(tmp[..]), 1.0), tmp.Length - 1)
  {
    ghost var target := DetFrom(Elimination(tmp[..], 1.0), tmp.Length - 1);
    var rv := 1.0;
    var c := tmp.Length - 1;
    while c > 0
      invariant 0 <= c < tmp.Length
      invariant Stage(tmp[..], c)
      invariant DetFrom(Elimination(tmp[..], rv), c) == target
      decreases c
    {
      var zero;
      rv, zero := ColumnPass(tmp, c, rv, target);
      if zero {
        return 0.0;
      }
      c := c - 1;
    }
    DetFromStep(Elimination(tmp[..], rv), c);
    d := Times(rv, tmp[0][0]);
  }

  /** `Matrix.determinant`: AssertionError unless square; the matrix itself
      is left as it was (the work happens on a copy). */
  method Determinant(m: Rows) returns (d: Result<real>)
    requires IsMatrix(m)
    ensures !IsSquare(m) ==> d == Failure(AssertionError("Must be a square matrix"))
    ensures IsSquare(m) ==> d == Success(Det(m))
  {
    var width, height := Width(m), Height(m);
    if width != height {
      return Failure(AssertionError("Must be a square matrix"));
    }
    var tmp := new seq<real>[height](i requires 0 <= i < height => m[i]);
    assert tmp[..] == m;
    var det := EliminateAll(tmp);
    d := Success(det);
  }

  /* ---------------------------------------------------------------------
     Properties of the determinant. */

  /** The determinant of a 1x1 matrix is its entry. */
  lemma DetOfOne(a: real)
    ensures IsSquare([[a]]) && Det([[a]]) == a
  {
  }

  /** For a 2x2 matrix the elimination computes `a d - b c`, whichever row
      it picks as the pivot. */
  lemma DetOfTwo(m: Rows)
    requires IsSquare(m) && Height(m) == 2
    ensures Det(m) == m[0][0] * m[1][1] - m[0][1] * m[1][0]
  {
    var a, b, c, d := m[0][0], m[0][1], m[1][0], m[1][1];
    if m[PivotRow(m, 1)][1] != 0.0 {
      DetOfTwoPivot(m);
      PivotArithmetic(a, b, c, d);
    } else {
      PivotUpToLargest(m, 1, 1);
      assert b == 0.0 && d == 0.0;
    }
  }

  /** The two ways the elimination of a 2x2 matrix can go: without a swap
      (pivot `d`) or with one (pivot `b`, sign flipped). */
  lemma DetOfTwoPivot(m: Rows)
    requires IsSquare(m) && Height(m) == 2 && m[PivotRow(m, 1)][1] != 0.0
    ensures PivotRow(m, 1) == 1 ==>
              m[1][1] != 0.0 && Det(m) == m[1][1] * (m[0][0] + (-1.0 / m[1][1] * m[0][1]) * m[1][0])
    ensures PivotRow(m, 1) == 0 ==>
              m[0][1] != 0.0 && Det(m) == -m[0][1] * (m[1][0] + (-1.0 / m[0][1] * m[1][1]) * m[0][0])
  {
    var r := PivotRow(m, 1);
    var n := Step(Elimination(m, 1.0), 1);
    var s := Swapped(m, r, 1);
    EliminatedUpToRows(s, 1, 1);
    assert n.rows[0][0] == s[0][0] + (-1.0 / s[1][1] * s[0][1]) * s[1][0];
    assert Det(m) == n.rv * n.rows[0][0];
    if r == 1 {
      assert s[0] == m[0] && s[1] == m[1];
    } else {
      assert s[0] == m[1] && s[1] == m[0];
    }
  }

  /** Either pivot gives `a d - b c`. */
  lemma PivotArithmetic(a: real, b: real, c: real, d: real)
    ensures d != 0.0 ==> d * (a + (-1.0 / d * b) * c) == a * d - b * c
    ensures b != 0.0 ==> -b * (c + (-1.0 / b * d) * a) == a * d - b * c
  {
  }

  /** The test value: `Matrix([[1, 2], [3, 4]]).determinant() == -2`. */
  lemma DetExample()
    ensures IsSquare([[1.0, 2.0], [3.0, 4.0]]) && Det([[1.0, 2.0], [3.0, 4.0]]) == -2.0
  {
    DetOfTwo([[1.0, 2.0], [3.0, 4.0]]);
  }

  /** Column `j` of rows `0..c` is zero. */
  predicate ZeroColumn(t: Rows, c: nat, j: nat)
    requires Stage(t, c) && j <= c
  {
    forall r | 0 <= r <= c :: t[r][j] == 0.0
  }

  /** Once some column at or left of `c` is zero in the rows still worked
      on, the elimination returns 0: swaps and eliminations keep that column
      zero until it becomes the pivot column (or the final entry). */
  lemma {:induction false} DetFromZeroColumn(w: Elimination, c: nat, j: nat)
    requires Stage(w.rows, c) && j <= c && ZeroColumn(w.rows, c, j)
    ensures DetFrom(w, c) == 0.0
    decreases c
  {
    if c > 0 && w.rows[PivotRow(w.rows, c)][c] != 0.0 {
      var r := PivotRow(w.rows, c);
      var s := Swapped(w.rows, r, c);
      var n := Step(w, c);
      assert j < c;
      EliminatedUpToRows(s, c, c);
      forall i | 0 <= i <= c - 1 ensures n.rows[i][j] == 0.0 {
        assert s[i][j] == 0.0 && s[c][j] == 0.0;
      }
      DetFromZeroColumn(n, c - 1, j);
    }
  }

  /** A square matrix with an all-zero column has determinant 0. */
  lemma DetZeroColumn(m: Rows, j: nat)
    requires IsSquare(m) && j < Width(m)
    requires forall r | 0 <= r < Height(m) :: m[r][j] == 0.0
    ensures Det(m) == 0.0
  {
    DetFromZeroColumn(Elimination(m, 1.0), Height(m) - 1, j);
  }

  /* ---------------------------------------------------------------------
     Adjugate and inverse. */

  /** `-1 if (r + c) % 2 else 1`. */
  function Sign(r: nat, c: nat): (s: real)
    ensures s == 1.0 || s == -1.0
  {
    if (r + c) % 2 == 1 then -1.0 else 1.0
  }

  /** `self.minor(r, c).determinant() * sign`. */
  function Cofactor(m: Rows, r: nat, c: nat): real
    requires IsSquare(m) && Height(m) >= 2 && r < Height(m) && c < Height(m)
  {
    Det(MinorRows(m, r, c)) * Sign(r, c)
  }

  /** The signed minors `(-1)^(r+c) det(minor(r, c))` at `(r, c)`: the
      cofactor matrix. The source returns this, untransposed, as the
      adjugate of a matrix that is not 2x2. */
  function Cofactors(m: Rows): (k: Rows)
    requires IsSquare(m) && Height(m) >= 2
    ensures IsSquare(k) && Height(k) == Height(m)
    ensures forall r, c | 0 <= r < Height(m) && 0 <= c < Height(m) :: k[r][c] == Cofactor(m, r, c)
  {
    var n := Height(m);
    seq(n, r requires 0 <= r < n => seq(n, c requires 0 <= c < n => Cofactor(m, r, c)))
  }

  /** What `adjugate` returns for a square matrix of at least two rows. */
  function Adjugated(m: Rows): (k: Rows)
    requires IsSquare(m) && Height(m) >= 2
    ensures IsSquare(k) && Height(k) == Height(m)
  {
    if Height(m) == 2 then [[m[1][1], -m[0][1]], [-m[1][0], m[0][0]]]
    else Cofactors(m)
  }

  /** One entry of the loop of `adjugate`: the determinant of the minor,
      signed; for a 1x1 matrix the minor itself fails. */
  method CofactorEntry(m: Rows, r: nat, c: nat) returns (v: Result<real>)
    requires IsSquare(m) && r < Height(m) && c < Height(m)
    ensures Height(m) == 1 ==> v == Failure(ValueError("Must be a rectangular array of numbers"))
    ensures Height(m) >= 2 ==> v == Success(Cofactor(m, r, c))
  {
    var minor := Minor(m, r, c);
    MinorDefined(m, r, c);
    if minor.Failure? {
      return Failure(minor.error);
    }
    ghost var rows := MinorRows(m, r, c);
    assert minor.value == rows && IsSquare(rows);
    var det := Determinant(minor.value);
    assert det.value == Det(rows);
    v := Success(det.value * Sign(r, c));
  }

  /** The dict `src` that the loops of `adjugate` fill: every signed
      minor of the matrix, keyed by its row and column. */
  method CofactorTable(m: Rows) returns (t: Result<map<(int, int), real>>)
    requires IsSquare(m)
    ensures Height(m) == 1 ==> t == Failure(ValueError("Must be a rectangular array of numbers"))
    ensures Height(m) >= 2 ==> t.Success?
    ensures t.Success? ==> Height(m) >= 2 && forall i, j | 0 <= i < Height(m) && 0 <= j < Height(m) ::
              (i, j) in t.value && t.value[(i, j)] == Cofactors(m)[i][j]
  {
    var height := Height(m);
    var src: map<(int, int), real> := map[];
    var r := 0;
    while r < height
      invariant 0 <= r <= height && (r > 0 ==> height >= 2)
      invariant forall i, j | 0 <= i < r && 0 <= j < height :: (i, j) in src && src[(i, j)] == Cofactors(m)[i][j]
    {
      var row := CofactorRow(m, r, src);
      if row.Failure? {
        return row;
      }
      src := row.value;
      r := r + 1;
    }
    t := Success(src);
  }

  /** The inner loop of `adjugate`: the signed minors of row `r` added to
      `src`. */
  method CofactorRow(m: Rows, r: nat, src: map<(int, int), real>) returns (t: Result<map<(int, int), real>>)
    requires IsSquare(m) && r < Height(m)
    ensures Height(m) == 1 ==> t == Failure(ValueError("Must be a rectangular array of numbers"))
    ensures Height(m) >= 2 ==> t.Success?
    ensures t.Success? ==> Height(m) >= 2
    ensures t.Success? ==> forall i, j | (i, j) in src && i != r :: (i, j) in t.value && t.value[(i, j)] == src[(i, j)]
    ensures t.Success? ==> forall j | 0 <= j < Height(m) :: (r, j) in t.value && t.value[(r, j)] == Cofactors(m)[r][j]
  {
    var width := Width(m);
    var c := 0;
    t := Success(src);
    while c < width
      invariant 0 <= c <= width && (c > 0 ==> Height(m) >= 2) && t.Success?
      invariant forall i, j | (i, j) in src && i != r :: (i, j) in t.value && t.value[(i, j)] == src[(i, j)]
      invariant forall j | 0 <= j < c :: (r, j) in t.value && t.value[(r, j)] == Cofactors(m)[r][j]
    {
      var entry := CofactorEntry(m, r, c);
      if entry.Failure? {
        return Failure(entry.error);
      }
      t := Success(t.value[(r, c) := entry.value]);
      c := c + 1;
    }
  }

  /** `Matrix.adjugate`: AssertionError unless square; `[[d, -b], [-c, a]]`
      for 2x2; otherwise the signed minors, and for a 1x1 matrix the empty
      minor makes the list constructor raise ValueError. */
  method Adjugate(m: Rows) returns (a: Result<Rows>)
    requires IsMatrix(m)
    ensures !IsSquare(m) ==> a == Failure(AssertionError("Must be a square matrix"))
    ensures IsSquare(m) && Height(m) == 1 ==> a == Failure(ValueError("Must be a rectangular array of numbers"))
    ensures IsSquare(m) && Height(m) >= 2 ==> a == Success(Adjugated(m))
  {
    var width, height := Width(m), Height(m);
    if width != height {
      return Failure(AssertionError("Must be a square matrix"));
    }
    if height == 2 {
      var a0, b0 := m[0][0], m[0][1];
      var c0, d0 := m[1][0], m[1][1];
      return Success([[d0, -b0], [-c0, a0]]);
    }
    var src := CofactorTable(m);
    if src.Failure? {
      return Failure(src.error);
    }
    var k := FromDict(src.value, width, height);
    RowsEqual(k, Cofactors(m));
    a := Success(k);
  }

  /** What `inverse` returns for a square matrix with a non-zero
      determinant: `[[1 / a]]` for 1x1, otherwise the adjugate scaled by
      `1 / det`. */
  function Inverted(m: Rows): (i: Rows)
    requires IsSquare(m) && Det(m) != 0.0
    ensures IsSquare(i) && Height(i) == Height(m)
  {
    if Height(m) == 1 then [[1.0 / m[0][0]]]
    else Scaled(1.0 / Det(m), Adjugated(m))
  }

  /** `Matrix.inverse`: ZeroDivisionError for a singular matrix (a zero
      1x1 entry, or a zero determinant), AssertionError unless square. */
  method Inverse(m: Rows) returns (i: Result<Rows>)
    requires IsMatrix(m)
    ensures !IsSquare(m) ==> i == Failure(AssertionError("Must be a square matrix"))
    ensures IsSquare(m) && Det(m) == 0.0 ==> i == Failure(ZeroDivisionError)
    ensures IsSquare(m) && Det(m) != 0.0 ==> i == Success(Inverted(m))
  {
    if Width(m) == Height(m) == 1 {
      assert m[0] == [m[0][0]];
      assert m == [[m[0][0]]];
      DetOfOne(m[0][0]);
      if m[0][0] == 0.0 {
        return Failure(ZeroDivisionError);
      }
      return Success([[1.0 / m[0][0]]]);
    }
    var det := Determinant(m);
    if det.Failure? {
      return Failure(det.error);
    }
    if det.value == 0.0 {
      return Failure(ZeroDivisionError);
    }
    var adj := Adjugate(m);
    var inv := ScalarMul(1.0 / det.value, adj.value);
    i := Success(inv);
  }

  /** Identity matrix of size `n`. */
  function Identity(n: nat): (e: Rows)
    requires n >= 1
    ensures IsSquare(e) && Height(e) == n
    ensures forall r, c | 0 <= r < n && 0 <= c < n :: e[r][c] == if r == c then 1.0 else 0.0
  {
    seq(n, r requires 0 <= r < n => seq(n, c requires 0 <= c < n => if r == c then 1.0 else 0.0))
  }

  /** For 2x2 matrices the inverse is a true inverse: `m * inverse(m)` is
      the identity whenever the determinant is not 0. */
  lemma InverseOfTwo(m: Rows)
    requires IsSquare(m) && Height(m) == 2 && Det(m) != 0.0
    ensures Conformable(m, Inverted(m))
    ensures Product(m, Inverted(m)) == Identity(2)
  {
    var a, b, c, d := m[0][0], m[0][1], m[1][0], m[1][1];
    DetOfTwo(m);
    var k := 1.0 / Det(m);
    var inv := Inverted(m);
    var adj := Adjugated(m);
    assert adj == [[d, -b], [-c, a]];
    assert inv == Scaled(k, adj);
    assert k * Det(m) == 1.0;
    ProductIsIdentity(m, inv, k);
  }

  /** A 2x2 matrix scaled, entry by entry. */
  lemma ScaledTwo(k: real, x: Rows)
    requires IsSquare(x) && Height(x) == 2
    ensures Scaled(k, x) == [[k * x[0][0], k * x[0][1]], [k * x[1][0], k * x[1][1]]]
  {
    RowsEqual(Scaled(k, x), [[k * x[0][0], k * x[0][1]], [k * x[1][0], k * x[1][1]]]);
  }

  /** `m` times `k` times its adjugate is the identity when `k` is the
      reciprocal of the determinant, `a d - b c`. */
  lemma ProductIsIdentity(m: Rows, inv: Rows, k: real)
    requires IsSquare(m) && Height(m) == 2
    requires k * (m[0][0] * m[1][1] - m[0][1] * m[1][0]) == 1.0
    requires inv == Scaled(k, [[m[1][1], -m[0][1]], [-m[1][0], m[0][0]]])
    ensures Conformable(m, inv) && Product(m, inv) == Identity(2)
  {
    var a, b, c, d := m[0][0], m[0][1], m[1][0], m[1][1];
    ScaledTwo(k, [[d, -b], [-c, a]]);
    ProductOfTwo(m, inv);
    assert a * (k * d) + b * (k * -c) == k * (a * d - b * c);
    assert c * (k * -b) + d * (k * a) == k * (a * d - b * c);
    var p := Product(m, inv);
    assert p[0][0] == 1.0 && p[0][1] == 0.0 && p[1][0] == 0.0 && p[1][1] == 1.0;
    RowsEqual(p, Identity(2));
  }

  /** The product of two 2x2 matrices, entry by entry. */
  lemma ProductOfTwo(x: Rows, y: Rows)
    requires IsSquare(x) && IsSquare(y) && Height(x) == Height(y) == 2
    ensures Conformable(x, y)
    ensures Product(x, y)[0][0] == x[0][0] * y[0][0] + x[0][1] * y[1][0]
    ensures Product(x, y)[0][1] == x[0][0] * y[0][1] + x[0][1] * y[1][1]
    ensures Product(x, y)[1][0] == x[1][0] * y[0][0] + x[1][1] * y[1][0]
    ensures Product(x, y)[1][1] == x[1][0] * y[0][1] + x[1][1] * y[1][1]
  {
    assert Width(x) == 2 && Width(y) == 2;
    DotOfTwo(x, y, 0, 0);
    DotOfTwo(x, y, 0, 1);
    DotOfTwo(x, y, 1, 0);
    DotOfTwo(x, y, 1, 1);
  }

  /** A dot product of length two. */
  lemma DotOfTwo(x: Rows, y: Rows, r: nat, c: nat)
    requires Conformable(x, y) && Width(x) == 2 && r < Height(x) && c < Width(y)
    ensures DotUpTo(x, y, r, c, 2) == x[r][0] * y[0][c] + x[r][1] * y[1][c]
  {
    assert DotUpTo(x, y, r, c, 1) == x[r][0] * y[0][c];
  }

  /** The test values: the adjugate of `[[1, 2], [3, 4]]` is
      `[[4, -2], [-3, 1]]` and its inverse is `[[-2, 1], [1.5, -0.5]]`. */
  lemma InverseExample()
    ensures IsSquare([[1.0, 2.0], [3.0, 4.0]])
    ensures Adjugated([[1.0, 2.0], [3.0, 4.0]]) == [[4.0, -2.0], [-3.0, 1.0]]
    ensures Det([[1.0, 2.0], [3.0, 4.0]]) != 0.0
    ensures Inverted([[1.0, 2.0], [3.0, 4.0]]) == [[-2.0, 1.0], [1.5, -0.5]]
  {
    DetExample();
    RowsEqual(Inverted([[1.0, 2.0], [3.0, 4.0]]), [[-2.0, 1.0], [1.5, -0.5]]);
  }
}
