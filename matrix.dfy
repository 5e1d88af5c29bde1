/** The dense `Matrix` of trueskill/mathematics.py: a list of rows of numbers.
    A matrix is a value here (the source never updates one after building
    it), and each operation that the source builds with nested loops is a
    method with those loops, proved equal to a specification function on
    rows. */
module Matrices {
  import opened Wrappers

  type Rows = seq<seq<real>>

  /** What the list constructor accepts: at least one row, at least one
      entry, and every row as long as the first. */
  predicate IsMatrix(m: Rows)
  {
    |m| >= 1 && |m[0]| >= 1 && forall r | 0 <= r < |m| :: |m[r]| == |m[0]|
  }

  function Width(m: Rows): nat
    requires |m| >= 1
  {
    |m[0]|
  }

  function Height(m: Rows): nat
  {
    |m|
  }

  predicate IsSquare(m: Rows)
  {
    IsMatrix(m) && Width(m) == Height(m)
  }

  predicate SameShape(a: Rows, b: Rows)
  {
    IsMatrix(a) && IsMatrix(b) && Width(a) == Width(b) && Height(a) == Height(b)
  }

  /** `sum(src, [])`: the entries row after row. */
  function Flatten(src: Rows): seq<real>
  {
    if |src| == 0 then [] else src[0] + Flatten(src[1..])
  }

  /** `Matrix(list)`: the rows are kept as given when the set of row lengths
      has exactly one element and some entry exists; otherwise ValueError. */
  function FromList(src: Rows): (r: Result<Rows>)
    ensures r.Success? <==> IsMatrix(src)
    ensures r.Success? ==> r.value == src
    ensures r.Failure? ==> r.error == ValueError("Must be a rectangular array of numbers")
  {
    var colSizes := RowLengths(src);
    RowLengthsSingleton(src);
    FlattenEmpty(src);
    if |colSizes| != 1 || |Flatten(src)| == 0 then
      Failure(ValueError("Must be a rectangular array of numbers"))
    else
      Success(src)
  }

  lemma {:induction false} FlattenEmpty(src: Rows)
    ensures |Flatten(src)| == 0 <==> forall r | 0 <= r < |src| :: |src[r]| == 0
  {
    if |src| != 0 {
      FlattenEmpty(src[1..]);
      assert forall r | 1 <= r < |src| :: src[r] == src[1..][r - 1];
    }
  }

  /** `set(map(len, src))`. */
  function RowLengths(src: Rows): set<nat>
  {
    set row | row in src :: |row|
  }

  /** The set of row lengths is a singleton exactly when there is a row and
      all rows are as long as the first. */
  lemma RowLengthsSingleton(src: Rows)
    ensures |RowLengths(src)| == 1 <==>
              |src| >= 1 && forall r | 0 <= r < |src| :: |src[r]| == |src[0]|
  {
    var sizes := RowLengths(src);
    if |src| >= 1 && forall r | 0 <= r < |src| :: |src[r]| == |src[0]| {
      assert sizes == {|src[0]|};
    }
    if |sizes| == 1 && |src| >= 1 {
      var x :| x in sizes;
      var rest := sizes - {x};
      assert |rest| == 0;
      forall r | 0 <= r < |src| ensures |src[r]| == x {
        assert src[r] in src;
        assert |src[r]| in sizes;
        assert |src[r]| !in rest;
      }
    }
  }

  /** `src.get((r, c), 0)`. */
  function Get(src: map<(int, int), real>, r: int, c: int): real
  {
    if (r, c) in src then src[(r, c)] else 0.0
  }

  /** `b` is `max(0, max(r + 1 for (r, c) in keys))`, the bound the dict
      constructor infers from the first components of the keys. */
  ghost predicate LeastRowBound(keys: set<(int, int)>, b: int)
  {
    0 <= b && (forall k | k in keys :: k.0 + 1 <= b) && (b == 0 || exists k | k in keys :: k.0 + 1 == b)
  }

  /** The same bound over the second components of the keys. */
  ghost predicate LeastColBound(keys: set<(int, int)>, b: int)
  {
    0 <= b && (forall k | k in keys :: k.1 + 1 <= b) && (b == 0 || exists k | k in keys :: k.1 + 1 == b)
  }

  /** The rows of `Matrix(src, width, height)` once both sizes are known:
      `height` rows of `width` entries, each looked up in the dict with
      default 0. */
  method Tabulate(src: map<(int, int), real>, width: nat, height: nat) returns (m: Rows)
    ensures |m| == height
    ensures forall r | 0 <= r < height :: |m[r]| == width
    ensures forall r, c | 0 <= r < height && 0 <= c < width :: m[r][c] == Get(src, r, c)
  {
    m := [];
    var r := 0;
    while r < height
      invariant 0 <= r <= height && |m| == r
      invariant forall i | 0 <= i < r :: |m[i]| == width
      invariant forall i, c | 0 <= i < r && 0 <= c < width :: m[i][c] == Get(src, i, c)
    {
      var row: seq<real> := [];
      var c := 0;
      while c < width
        invariant 0 <= c <= width && |row| == c
        invariant forall j | 0 <= j < c :: row[j] == Get(src, r, j)
      {
        row := row + [Get(src, r, c)];
        c := c + 1;
      }
      m := m + [row];
      r := r + 1;
    }
  }

  /** `Matrix(dict, width, height)`. A size given as 0 (or not given) is
      inferred from the keys; as written, the width is inferred from the
      FIRST component of the keys and the height from the second. */
  method FromDict(src: map<(int, int), real>, width: nat, height: nat) returns (m: Rows)
    ensures width != 0 ==> forall r | 0 <= r < |m| :: |m[r]| == width
    ensures height != 0 ==> |m| == height
    ensures width == 0 ==> exists w :: LeastRowBound(src.Keys, w) && forall r | 0 <= r < |m| :: |m[r]| == w
    ensures height == 0 ==> LeastColBound(src.Keys, |m|)
    ensures forall r, c | 0 <= r < |m| && 0 <= c < |m[r]| :: m[r][c] == Get(src, r, c)
  {
    var w, h := width, height;
    if width == 0 || height == 0 {
      var iw, ih := 0, 0;
      var keys := src.Keys;
      ghost var done: set<(int, int)> := {};
      while keys != {}
        invariant keys <= src.Keys && done == src.Keys - keys
        invariant width == 0 ==> LeastRowBound(done, iw)
        invariant height == 0 ==> LeastColBound(done, ih)
        decreases keys
      {
        var k :| k in keys;
        done := done + {k};
        if width == 0 {
          iw := if iw < k.0 + 1 then k.0 + 1 else iw;
        }
        if height == 0 {
          ih := if ih < k.1 + 1 then k.1 + 1 else ih;
        }
        keys := keys - {k};
      }
      if width == 0 {
        w := iw;
        assert LeastRowBound(src.Keys, w);
      }
      if height == 0 {
        h := ih;
      }
    }
    m := Tabulate(src, w, h);
  }

  /** The TypeError of Python 2's `range` called on a function. */
  const RangeOfSetter := TypeError("range() integer end argument expected, got function.")

  /** `Matrix(f, width, height)` with a generator `f`: the items it yields
      (`items`, in order, a later key overwriting an earlier one) fill a dict,
      which is then read as in the dict form. The generator may report its
      sizes through two setter callbacks; `width` / `height` are the sizes
      after it ran, `None` when it neither got a size nor set one. A setter
      left in place is truthy, so it is not inferred: `range` is called on
      it, at once for the height and, for the width, once per row. */
  method FromItems(items: seq<((int, int), real)>, width: Option<nat>, height: Option<nat>)
    returns (r: Result<Rows>)
    ensures height.None? ==> r == Failure(RangeOfSetter)
    ensures height.Some? && width.None? && height.value != 0 ==> r == Failure(RangeOfSetter)
    ensures height == Some(0) && width.None? ==>
              && (r.Failure? <==> exists k | k in LastWins(items) :: k.1 >= 0)
              && (r.Failure? ==> r.error == RangeOfSetter)
              && (r.Success? ==> r.value == [])
    ensures height.Some? && width.Some? ==> r.Success?
    ensures r.Success? ==> forall i, c | 0 <= i < |r.value| && 0 <= c < |r.value[i]| ::
              r.value[i][c] == Get(LastWins(items), i, c)
    ensures r.Success? && width.Some? && width.value != 0 ==> forall i | 0 <= i < |r.value| :: |r.value[i]| == width.value
    ensures r.Success? && height.Some? && height.value != 0 ==> |r.value| == height.value
  {
    var src: map<(int, int), real> := map[];
    var i := 0;
    while i < |items|
      invariant 0 <= i <= |items| && src == LastWins(items[..i])
    {
      assert items[..i + 1][..i] == items[..i];
      src := src[items[i].0 := items[i].1];
      i := i + 1;
    }
    assert items[..i] == items;
    if height.None? {
      return Failure(RangeOfSetter);
    }
    if width.None? {
      var h := RowCount(src, height.value);
      if h > 0 {
        if height.value == 0 {
          var k :| k in src.Keys && k.1 + 1 == h;
        }
        return Failure(RangeOfSetter);
      }
      return Success([]);
    }
    var m := FromDict(src, width.value, height.value);
    r := Success(m);
  }

  /** The number of rows `range(height)` runs over in the dict form: the
      height when it is given, else inferred from the keys' second
      components. */
  method RowCount(src: map<(int, int), real>, height: nat) returns (h: nat)
    ensures height != 0 ==> h == height
    ensures height == 0 ==> LeastColBound(src.Keys, h)
  {
    if height != 0 {
      return height;
    }
    h := 0;
    var keys := src.Keys;
    ghost var done: set<(int, int)> := {};
    while keys != {}
      invariant keys <= src.Keys && done == src.Keys - keys
      invariant LeastColBound(done, h)
      decreases keys
    {
      var k :| k in keys;
      done := done + {k};
      h := if h < k.1 + 1 then k.1 + 1 else h;
      keys := keys - {k};
    }
  }

  /** The dict that `src[r, c] = val` builds from a sequence of items, one
      assignment after another. */
  function LastWins(items: seq<((int, int), real)>): map<(int, int), real>
  {
    if |items| == 0 then map[]
    else LastWins(items[..|items| - 1])[items[|items| - 1].0 := items[|items| - 1].1]
  }

  /** The keys of that dict are the keys yielded, and each maps to the
      value of its LAST occurrence. */
  lemma {:induction false} LastWinsMeaning(items: seq<((int, int), real)>)
    ensures forall k :: k in LastWins(items) <==> exists i | 0 <= i < |items| :: items[i].0 == k
    ensures forall i | 0 <= i < |items| && (forall j | i < j < |items| :: items[j].0 != items[i].0) ::
              LastWins(items)[items[i].0] == items[i].1
  {
    if |items| > 0 {
      var init := items[..|items| - 1];
      LastWinsMeaning(init);
      assert forall i | 0 <= i < |init| :: init[i] == items[i];
    }
  }

  /** Yielding one more item changes the dict at that item's key only. */
  lemma GetAppend(items: seq<((int, int), real)>, item: ((int, int), real))
    ensures forall r, c :: Get(LastWins(items + [item]), r, c) ==
              if (r, c) == item.0 then item.1 else Get(LastWins(items), r, c)
  {
    assert (items + [item])[..|items|] == items;
  }

  /* ---------------------------------------------------------------------
     Transpose, addition, multiplication and scalar multiplication. Each is
     specified by a function on rows; the methods build the dict the source
     builds, entry by entry, and read it back with explicit sizes. */

  /** The transposed rows: `t[c][r] == m[r][c]`. */
  function Transposed(m: Rows): (t: Rows)
    requires IsMatrix(m)
    ensures IsMatrix(t) && Height(t) == Width(m) && Width(t) == Height(m)
    ensures forall r, c | 0 <= r < Height(m) && 0 <= c < Width(m) :: t[c][r] == m[r][c]
  {
    seq(Width(m), c requires 0 <= c < Width(m) =>
      seq(Height(m), r requires 0 <= r < Height(m) => m[r][c]))
  }

  /** Entrywise sum of two matrices of the same shape. */
  function Plus(a: Rows, b: Rows): (s: Rows)
    requires SameShape(a, b)
    ensures SameShape(s, a)
    ensures forall r, c | 0 <= r < Height(a) && 0 <= c < Width(a) :: s[r][c] == a[r][c] + b[r][c]
  {
    seq(Height(a), r requires 0 <= r < Height(a) =>
      seq(Width(a), c requires 0 <= c < Width(a) => a[r][c] + b[r][c]))
  }

  /** Every entry multiplied by `k`. */
  function Scaled(k: real, m: Rows): (s: Rows)
    requires IsMatrix(m)
    ensures SameShape(s, m)
    ensures forall r, c | 0 <= r < Height(m) && 0 <= c < Width(m) :: s[r][c] == k * m[r][c]
  {
    seq(Height(m), r requires 0 <= r < Height(m) =>
      seq(Width(m), c requires 0 <= c < Width(m) => k * m[r][c]))
  }

  /** Whether `a * b` is defined: as many columns in `a` as rows in `b`. */
  predicate Conformable(a: Rows, b: Rows)
  {
    IsMatrix(a) && IsMatrix(b) && Width(a) == Height(b)
  }

  /** `sum(a[r][x] * b[x][c] for x in range(n))`, added left to right. */
  function DotUpTo(a: Rows, b: Rows, r: nat, c: nat, n: nat): real
    requires Conformable(a, b) && r < Height(a) && c < Width(b) && n <= Width(a)
  {
    if n == 0 then 0.0 else DotUpTo(a, b, r, c, n - 1) + a[r][n - 1] * b[n - 1][c]
  }

  /** The matrix product: `Height(a)` rows of `Width(b)` dot products. */
  function Product(a: Rows, b: Rows): (p: Rows)
    requires Conformable(a, b)
    ensures IsMatrix(p) && Height(p) == Height(a) && Width(p) == Width(b)
    ensures forall r, c | 0 <= r < Height(a) && 0 <= c < Width(b) :: p[r][c] == DotUpTo(a, b, r, c, Width(a))
  {
    seq(Height(a), r requires 0 <= r < Height(a) =>
      seq(Width(b), c requires 0 <= c < Width(b) => DotUpTo(a, b, r, c, Width(a))))
  }

  /** Two row lists with the same shape and the same entries are equal. */
  lemma RowsEqual(x: Rows, y: Rows)
    requires |x| == |y| && forall r | 0 <= r < |x| :: |x[r]| == |y[r]|
    requires forall r, c | 0 <= r < |x| && 0 <= c < |x[r]| :: x[r][c] == y[r][c]
    ensures x == y
  {
    forall r | 0 <= r < |x| ensures x[r] == y[r] {
      assert x[r] == y[r];
    }
  }

  /** `Matrix.transpose`. */
  method Transpose(m: Rows) returns (t: Rows)
    requires IsMatrix(m)
    ensures t == Transposed(m)
  {
    var width, height := Width(m), Height(m);
    var src: map<(int, int), real> := map[];
    var c := 0;
    while c < width
      invariant 0 <= c <= width
      invariant forall i, j | 0 <= i < c && 0 <= j < height :: (i, j) in src && src[(i, j)] == m[j][i]
    {
      var r := 0;
      while r < height
        invariant 0 <= r <= height
        invariant forall i, j | 0 <= i < c && 0 <= j < height :: (i, j) in src && src[(i, j)] == m[j][i]
        invariant forall j | 0 <= j < r :: (c, j) in src && src[(c, j)] == m[j][c]
      {
        src := src[(c, r) := m[r][c]];
        r := r + 1;
      }
      c := c + 1;
    }
    t := FromDict(src, height, width);
    RowsEqual(t, Transposed(m));
  }

  /** `Matrix.__add__`: ValueError unless both shapes agree. */
  method Add(a: Rows, b: Rows) returns (s: Result<Rows>)
    requires IsMatrix(a) && IsMatrix(b)
    ensures s.Success? <==> SameShape(a, b)
    ensures s.Success? ==> s.value == Plus(a, b)
    ensures s.Failure? ==> s.error == ValueError("Must be same size")
  {
    var width, height := Width(a), Height(a);
    if (width, height) != (Width(b), Height(b)) {
      return Failure(ValueError("Must be same size"));
    }
    var src: map<(int, int), real> := map[];
    var r := 0;
    while r < height
      invariant 0 <= r <= height
      invariant forall i, j | 0 <= i < r && 0 <= j < width :: (i, j) in src && src[(i, j)] == a[i][j] + b[i][j]
    {
      var c := 0;
      while c < width
        invariant 0 <= c <= width
        invariant forall i, j | 0 <= i < r && 0 <= j < width :: (i, j) in src && src[(i, j)] == a[i][j] + b[i][j]
        invariant forall j | 0 <= j < c :: (r, j) in src && src[(r, j)] == a[r][j] + b[r][j]
      {
        src := src[(r, c) := a[r][c] + b[r][c]];
        c := c + 1;
      }
      r := r + 1;
    }
    var m := FromDict(src, width, height);
    RowsEqual(m, Plus(a, b));
    s := Success(m);
  }

  /** The generator sum of one entry of a product. */
  method Dot(a: Rows, b: Rows, r: nat, c: nat) returns (s: real)
    requires Conformable(a, b) && r < Height(a) && c < Width(b)
    ensures s == DotUpTo(a, b, r, c, Width(a))
  {
    s := 0.0;
    var x := 0;
    while x < Width(a)
      invariant 0 <= x <= Width(a) && s == DotUpTo(a, b, r, c, x)
    {
      s := s + a[r][x] * b[x][c];
      x := x + 1;
    }
  }

  /** `Matrix.__mul__`: ValueError unless `a` has as many columns as `b`
      has rows. */
  method Mul(a: Rows, b: Rows) returns (p: Result<Rows>)
    requires IsMatrix(a) && IsMatrix(b)
    ensures p.Success? <==> Width(a) == Height(b)
    ensures p.Success? ==> p.value == Product(a, b)
    ensures p.Failure? ==> p.error == ValueError("Bad size")
  {
    if Width(a) != Height(b) {
      return Failure(ValueError("Bad size"));
    }
    var width, height := Width(b), Height(a);
    var src: map<(int, int), real> := map[];
    var r := 0;
    while r < height
      invariant 0 <= r <= height
      invariant forall i, j | 0 <= i < r && 0 <= j < width ::
                  (i, j) in src && src[(i, j)] == DotUpTo(a, b, i, j, Width(a))
    {
      var c := 0;
      while c < width
        invariant 0 <= c <= width
        invariant forall i, j | 0 <= i < r && 0 <= j < width ::
                    (i, j) in src && src[(i, j)] == DotUpTo(a, b, i, j, Width(a))
        invariant forall j | 0 <= j < c :: (r, j) in src && src[(r, j)] == DotUpTo(a, b, r, j, Width(a))
      {
        var d := Dot(a, b, r, c);
        src := src[(r, c) := d];
        c := c + 1;
      }
      r := r + 1;
    }
    var m := FromDict(src, width, height);
    RowsEqual(m, Product(a, b));
    p := Success(m);
  }

  /** `Matrix.__rmul__`: a number times a matrix. (The source's TypeError
      for a non-number operand is excluded by the types here.) */
  method ScalarMul(k: real, m: Rows) returns (s: Rows)
    requires IsMatrix(m)
    ensures s == Scaled(k, m)
  {
    var width, height := Width(m), Height(m);
    var src: map<(int, int), real> := map[];
    var r := 0;
    while r < height
      invariant 0 <= r <= height
      invariant forall i, j | 0 <= i < r && 0 <= j < width :: (i, j) in src && src[(i, j)] == k * m[i][j]
    {
      var c := 0;
      while c < width
        invariant 0 <= c <= width
        invariant forall i, j | 0 <= i < r && 0 <= j < width :: (i, j) in src && src[(i, j)] == k * m[i][j]
        invariant forall j | 0 <= j < c :: (r, j) in src && src[(r, j)] == k * m[r][j]
      {
        src := src[(r, c) := k * m[r][c]];
        c := c + 1;
      }
      r := r + 1;
    }
    s := FromDict(src, width, height);
    RowsEqual(s, Scaled(k, m));
  }

  /* ---------------------------------------------------------------------
     Minor. */

  /** The index in the original of index `i` once index `k` is dropped. */
  function Skip(i: nat, k: nat): (j: nat)
    ensures j != k && (j < k ==> j == i) && (j > k ==> j == i + 1)
  {
    if i < k then i else i + 1
  }

  /** `s` with position `k` left out. */
  function DropAt(s: seq<real>, k: nat): (d: seq<real>)
    requires k < |s|
    ensures |d| == |s| - 1
    ensures forall j | 0 <= j < |d| :: d[j] == s[Skip(j, k)]
  {
    s[..k] + s[k + 1..]
  }

  /** The rows of `minor(row, col)`: every row but `row`, each without
      column `col`. */
  function MinorRows(m: Rows, row: nat, col: nat): (n: Rows)
    requires IsMatrix(m) && row < Height(m) && col < Width(m)
    ensures |n| == Height(m) - 1
    ensures forall i | 0 <= i < |n| :: |n[i]| == Width(m) - 1
    ensures forall i, j | 0 <= i < |n| && 0 <= j < Width(m) - 1 :: n[i][j] == m[Skip(i, row)][Skip(j, col)]
    ensures Height(m) >= 2 && Width(m) >= 2 ==> IsMatrix(n) && Width(n) == Width(m) - 1
  {
    seq(Height(m) - 1, i requires 0 <= i < Height(m) - 1 => DropAt(m[Skip(i, row)], col))
  }

  /** `Matrix.minor`: an AssertionError for an index out of range; the list
      constructor then refuses a minor with no entry (of a single row or a
      single column). */
  method Minor(m: Rows, row: int, col: int) returns (r: Result<Rows>)
    requires IsMatrix(m)
    ensures !(0 <= row < Height(m) && 0 <= col < Width(m)) ==>
              r == Failure(AssertionError("Invalid row or column number"))
    ensures 0 <= row < Height(m) && 0 <= col < Width(m) ==> r == FromList(MinorRows(m, row, col))
  {
    var width, height := Width(m), Height(m);
    if !(0 <= row < height && 0 <= col < width) {
      return Failure(AssertionError("Invalid row or column number"));
    }
    var rows: Rows := [];
    var i := 0;
    while i < height
      invariant 0 <= i <= height
      invariant |rows| == if i <= row then i else i - 1
      invariant forall k | 0 <= k < |rows| :: rows[k] == DropAt(m[Skip(k, row)], col)
    {
      if i != row {
        var line: seq<real> := [];
        var c := 0;
        while c < width
          invariant 0 <= c <= width
          invariant line == if c <= col then m[i][..c] else m[i][..col] + m[i][col + 1..c]
        {
          if c != col {
            line := line + [m[i][c]];
          }
          c := c + 1;
        }
        assert m[i][col + 1..c] == m[i][col + 1..];
        rows := rows + [line];
      }
      i := i + 1;
    }
    RowsEqual(rows, MinorRows(m, row, col));
    r := FromList(rows);
  }

  /** A minor is a matrix exactly when at least two rows and two columns
      remain to be cut. */
  lemma MinorDefined(m: Rows, row: nat, col: nat)
    requires IsMatrix(m) && row < Height(m) && col < Width(m)
    ensures FromList(MinorRows(m, row, col)).Success? <==> Height(m) >= 2 && Width(m) >= 2
  {
    var n := MinorRows(m, row, col);
    if Height(m) >= 2 && Width(m) >= 2 {
      assert |n[0]| == Width(m) - 1;
    }
  }

  /* ---------------------------------------------------------------------
     Properties of the algebra. */

  /** Transposing twice gives the matrix back. */
  lemma TransposedTwice(m: Rows)
    requires IsMatrix(m)
    ensures Transposed(Transposed(m)) == m
  {
    RowsEqual(Transposed(Transposed(m)), m);
  }

  /** The dot product of row `r` of `a` and column `c` of `b` is the dot
      product of row `c` of `b` transposed and column `r` of `a` transposed. */
  lemma {:induction false} DotUpToTransposed(a: Rows, b: Rows, r: nat, c: nat, n: nat)
    requires Conformable(a, b) && r < Height(a) && c < Width(b) && n <= Width(a)
    ensures Conformable(Transposed(b), Transposed(a))
    ensures DotUpTo(a, b, r, c, n) == DotUpTo(Transposed(b), Transposed(a), c, r, n)
  {
    if n > 0 {
      DotUpToTransposed(a, b, r, c, n - 1);
    }
  }

  /** `(a b)^T == b^T a^T`. */
  lemma TransposedProduct(a: Rows, b: Rows)
    requires Conformable(a, b)
    ensures Conformable(Transposed(b), Transposed(a))
    ensures Transposed(Product(a, b)) == Product(Transposed(b), Transposed(a))
  {
    var lhs, rhs := Transposed(Product(a, b)), Product(Transposed(b), Transposed(a));
    forall c, r | 0 <= c < Width(b) && 0 <= r < Height(a) ensures lhs[c][r] == rhs[c][r] {
      DotUpToTransposed(a, b, r, c, Width(a));
    }
    RowsEqual(lhs, rhs);
  }

  /** The dot product is linear in the left factor's row scaling. */
  lemma {:induction false} DotUpToScaled(k: real, a: Rows, b: Rows, r: nat, c: nat, n: nat)
    requires Conformable(a, b) && r < Height(a) && c < Width(b) && n <= Width(a)
    ensures Conformable(Scaled(k, a), b)
    ensures DotUpTo(Scaled(k, a), b, r, c, n) == k * DotUpTo(a, b, r, c, n)
  {
    if n > 0 {
      DotUpToScaled(k, a, b, r, c, n - 1);
      calc {
        DotUpTo(Scaled(k, a), b, r, c, n);
        DotUpTo(Scaled(k, a), b, r, c, n - 1) + (k * a[r][n - 1]) * b[n - 1][c];
        k * DotUpTo(a, b, r, c, n - 1) + k * (a[r][n - 1] * b[n - 1][c]);
      }
    }
  }

  /** A scalar moves out of a product: `(k a) b == k (a b)`, which is how
      `(beta ** 2) * A * B` of the match quality reads. */
  lemma ScaledProduct(k: real, a: Rows, b: Rows)
    requires Conformable(a, b)
    ensures Conformable(Scaled(k, a), b)
    ensures Product(Scaled(k, a), b) == Scaled(k, Product(a, b))
  {
    var lhs, rhs := Product(Scaled(k, a), b), Scaled(k, Product(a, b));
    forall r, c | 0 <= r < Height(a) && 0 <= c < Width(b) ensures lhs[r][c] == rhs[r][c] {
      DotUpToScaled(k, a, b, r, c, Width(a));
    }
    RowsEqual(lhs, rhs);
  }

  /** Entrywise addition commutes. */
  lemma PlusCommutes(a: Rows, b: Rows)
    requires SameShape(a, b)
    ensures Plus(a, b) == Plus(b, a)
  {
    RowsEqual(Plus(a, b), Plus(b, a));
  }

  /** `Matrix([[1, 2], [3, 4]]) * Matrix([[5, 6, 7], [8, 9, 10]])` is
      `[[21, 24, 27], [47, 54, 61]]`, and `* Matrix([[5, 6]])` is refused. */
  lemma ProductExample()
    ensures Conformable([[1.0, 2.0], [3.0, 4.0]], [[5.0, 6.0, 7.0], [8.0, 9.0, 10.0]])
    ensures Product([[1.0, 2.0], [3.0, 4.0]], [[5.0, 6.0, 7.0], [8.0, 9.0, 10.0]])
            == [[21.0, 24.0, 27.0], [47.0, 54.0, 61.0]]
    ensures !Conformable([[1.0, 2.0], [3.0, 4.0]], [[5.0, 6.0]])
  {
    var a: Rows := [[1.0, 2.0], [3.0, 4.0]];
    var b: Rows := [[5.0, 6.0, 7.0], [8.0, 9.0, 10.0]];
    var p := Product(a, b);
    var e: Rows := [[21.0, 24.0, 27.0], [47.0, 54.0, 61.0]];
    forall r, c | 0 <= r < 2 && 0 <= c < 3 ensures p[r][c] == e[r][c] {
      assert p[r][c] == DotUpTo(a, b, r, c, 2);
      assert DotUpTo(a, b, r, c, 2) == a[r][0] * b[0][c] + a[r][1] * b[1][c];
    }
    RowsEqual(p, e);
  }

  /** `Matrix([[1, 2], [3, 4]]) + Matrix([[5, 6], [7, 8]])` is
      `[[6, 8], [10, 12]]`, and a 2x3 operand is refused. */
  lemma PlusExample()
    ensures SameShape([[1.0, 2.0], [3.0, 4.0]], [[5.0, 6.0], [7.0, 8.0]])
    ensures Plus([[1.0, 2.0], [3.0, 4.0]], [[5.0, 6.0], [7.0, 8.0]]) == [[6.0, 8.0], [10.0, 12.0]]
    ensures !SameShape([[1.0, 2.0], [3.0, 4.0]], [[5.0, 6.0, 7.0], [8.0, 9.0, 10.0]])
  {
    RowsEqual(Plus([[1.0, 2.0], [3.0, 4.0]], [[5.0, 6.0], [7.0, 8.0]]), [[6.0, 8.0], [10.0, 12.0]]);
  }

  /* ---------------------------------------------------------------------
     Size inference of the dict form. */

  /** The keys `(0, 0)` and `(4, 9)` (a 5-row, 10-column layout) give, as
      written, 10 rows of 5 entries: the entry at `(4, 9)` falls outside and
      only the one at `(0, 0)` survives. */
  method DictInferenceSwapsShape() returns (m: Rows)
    ensures |m| == 10 && forall r | 0 <= r < |m| :: |m[r]| == 5
    ensures !(4 < |m| && 9 < |m[4]|)
    ensures forall r, c | 0 <= r < |m| && 0 <= c < |m[r]| :: m[r][c] == if r == 0 && c == 0 then 1.0 else 0.0
  {
    var src := map[(0, 0) := 1.0, (4, 9) := 1.0];
    m := FromDict(src, 0, 0);
    assert (4, 9) in src.Keys && (0, 0) in src.Keys;
    assert src.Keys == {(0, 0), (4, 9)};
    ghost var w :| LeastRowBound(src.Keys, w) && forall r | 0 <= r < |m| :: |m[r]| == w;
    assert w == 5;
  }

  /** The dict form with the sizes inferred the intended way round: the
      height from the row indices and the width from the column indices. */
  method FromDictIntended(src: map<(int, int), real>, width: nat, height: nat) returns (m: Rows)
    ensures width != 0 ==> forall r | 0 <= r < |m| :: |m[r]| == width
    ensures height != 0 ==> |m| == height
    ensures width == 0 ==> exists w :: LeastColBound(src.Keys, w) && forall r | 0 <= r < |m| :: |m[r]| == w
    ensures height == 0 ==> LeastRowBound(src.Keys, |m|)
    ensures forall r, c | 0 <= r < |m| && 0 <= c < |m[r]| :: m[r][c] == Get(src, r, c)
    ensures width == 0 && height == 0 ==>
              forall k | k in src && k.0 >= 0 && k.1 >= 0 :: k.0 < |m| && k.1 < |m[k.0]| && m[k.0][k.1] == src[k]
  {
    var w, h := width, height;
    if width == 0 || height == 0 {
      var iw, ih := 0, 0;
      var keys := src.Keys;
      ghost var done: set<(int, int)> := {};
      while keys != {}
        invariant keys <= src.Keys && done == src.Keys - keys
        invariant width == 0 ==> LeastColBound(done, iw)
        invariant height == 0 ==> LeastRowBound(done, ih)
        decreases keys
      {
        var k :| k in keys;
        done := done + {k};
        if width == 0 {
          iw := if iw < k.1 + 1 then k.1 + 1 else iw;
        }
        if height == 0 {
          ih := if ih < k.0 + 1 then k.0 + 1 else ih;
        }
        keys := keys - {k};
      }
      if width == 0 {
        w := iw;
        assert LeastColBound(src.Keys, w);
      }
      if height == 0 {
        h := ih;
      }
    }
    m := Tabulate(src, w, h);
  }
}
