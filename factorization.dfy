/**
 * The training loop of Recommender.fit (Data/recommendation.py) stated on values:
 * one cell update, one pass over the customer x offer matrix in row-major order, and
 * a number of passes. The imperative code in the Recommendation module is proved to
 * compute exactly these values.
 */
module Factorization {

  type Mat = seq<seq<real>>
  type Mask = seq<seq<bool>>

  ghost predicate Shape<T>(a: seq<seq<T>>, rows: nat, cols: nat) {
    |a| == rows && forall i :: 0 <= i < rows ==> |a[i]| == cols
  }

  /**
   * The fixed inputs of one training run: the score matrix, which of its cells are
   * present (not NaN), the numbers of customers, offers and latent features, and the
   * learning rate.
   */
  datatype Problem = Problem(scores: Mat, observed: Mask, n: nat, m: nat, k: nat, lr: real)

  ghost predicate Valid(p: Problem) {
    Shape(p.scores, p.n, p.m) && Shape(p.observed, p.n, p.m)
  }

  /** customers_mat (n x k), offer_mat (k x m) and sse_accum. */
  datatype State = State(C: Mat, O: Mat, sse: real)

  ghost predicate Fits(p: Problem, s: State) {
    Shape(s.C, p.n, p.k) && Shape(s.O, p.k, p.m)
  }

  /** np.dot(C[c, :], O[:, o]) over the first k latent features. */
  function Dot(C: Mat, O: Mat, c: nat, o: nat, k: nat): (d: real)
    requires c < |C| && k <= |C[c]| && k <= |O|
    requires forall j :: 0 <= j < k ==> o < |O[j]|
  {
    if k == 0 then 0.0 else Dot(C, O, c, o, k - 1) + C[c][k - 1] * O[k - 1][o]
  }

  /** One gradient step of a factor (recommendation.py:110-111): x + lr * (2 * diff * y). */
  function Nudge(x: real, lr: real, diff: real, y: real): (x': real)
    ensures diff == 0.0 ==> x' == x
    ensures lr > 0.0 && diff > 0.0 && y > 0.0 ==> x' > x
    ensures lr > 0.0 && diff < 0.0 && y > 0.0 ==> x' < x
  {
    var step := 2.0 * diff * y;
    assert diff > 0.0 && y > 0.0 ==> step > 0.0;
    assert diff < 0.0 && y > 0.0 ==> step < 0.0;
    x + lr * step
  }

  /**
   * The inner loop over latent features for cell (c, o), run for features 0 .. k-1:
   * customers_mat[c, j] is updated first, and the update of offer_mat[j, o] reads
   * that new value.
   */
  function Descend(p: Problem, s: State, c: nat, o: nat, diff: real, k: nat): (r: State)
    requires Fits(p, s) && c < p.n && o < p.m && k <= p.k
    ensures Fits(p, r) && r.sse == s.sse
    decreases k
  {
    if k == 0 then s
    else
      var t := Descend(p, s, c, o, diff, k - 1);
      var cv := Nudge(t.C[c][k - 1], p.lr, diff, t.O[k - 1][o]);
      var ov := Nudge(t.O[k - 1][o], p.lr, diff, cv);
      State(t.C[c := t.C[c][k - 1 := cv]], t.O[k - 1 := t.O[k - 1][o := ov]], t.sse)
  }

  /** The customer factor (i, j) after the inner loop has run over features 0 .. k-1. */
  lemma {:induction false} DescendCustomerAt(p: Problem, s: State, c: nat, o: nat, diff: real, k: nat, i: nat, j: nat)
    requires Fits(p, s) && c < p.n && o < p.m && k <= p.k && i < p.n && j < p.k
    ensures Descend(p, s, c, o, diff, k).C[i][j]
         == if i == c && j < k then Nudge(s.C[c][j], p.lr, diff, s.O[j][o]) else s.C[i][j]
    decreases k
  {
    if k > 0 {
      DescendCustomerAt(p, s, c, o, diff, k - 1, i, j);
      DescendCustomerAt(p, s, c, o, diff, k - 1, c, k - 1);
      DescendOfferAt(p, s, c, o, diff, k - 1, k - 1, o);
    }
  }

  /** The offer factor (i, j) after the inner loop has run over features 0 .. k-1. */
  lemma {:induction false} DescendOfferAt(p: Problem, s: State, c: nat, o: nat, diff: real, k: nat, i: nat, j: nat)
    requires Fits(p, s) && c < p.n && o < p.m && k <= p.k && i < p.k && j < p.m
    ensures Descend(p, s, c, o, diff, k).O[i][j]
         == if j == o && i < k
            then Nudge(s.O[i][o], p.lr, diff, Nudge(s.C[c][i], p.lr, diff, s.O[i][o]))
            else s.O[i][j]
    decreases k
  {
    if k > 0 {
      DescendOfferAt(p, s, c, o, diff, k - 1, i, j);
      DescendCustomerAt(p, s, c, o, diff, k - 1, c, k - 1);
      DescendOfferAt(p, s, c, o, diff, k - 1, k - 1, o);
    }
  }

  /**
   * What the inner loop does to the whole matrices: row c of customers_mat moves along
   * the old offer column, column o of offer_mat moves along the NEW customer row, and
   * every other entry of both matrices keeps its value.
   */
  lemma DescendEffect(p: Problem, s: State, c: nat, o: nat, diff: real)
    requires Fits(p, s) && c < p.n && o < p.m
    ensures forall j :: 0 <= j < p.k ==>
              Descend(p, s, c, o, diff, p.k).C[c][j] == Nudge(s.C[c][j], p.lr, diff, s.O[j][o])
    ensures forall i :: 0 <= i < p.n && i != c ==> Descend(p, s, c, o, diff, p.k).C[i] == s.C[i]
    ensures forall i :: 0 <= i < p.k ==>
              Descend(p, s, c, o, diff, p.k).O[i][o]
              == Nudge(s.O[i][o], p.lr, diff, Descend(p, s, c, o, diff, p.k).C[c][i])
    ensures forall i, j :: 0 <= i < p.k && 0 <= j < p.m && j != o ==>
              Descend(p, s, c, o, diff, p.k).O[i][j] == s.O[i][j]
  {
    var r := Descend(p, s, c, o, diff, p.k);
    forall j | 0 <= j < p.k ensures r.C[c][j] == Nudge(s.C[c][j], p.lr, diff, s.O[j][o]) {
      DescendCustomerAt(p, s, c, o, diff, p.k, c, j);
    }
    forall i | 0 <= i < p.n && i != c ensures r.C[i] == s.C[i] {
      forall j | 0 <= j < p.k ensures r.C[i][j] == s.C[i][j] {
        DescendCustomerAt(p, s, c, o, diff, p.k, i, j);
      }
    }
    forall i | 0 <= i < p.k ensures r.O[i][o] == Nudge(s.O[i][o], p.lr, diff, r.C[c][i]) {
      DescendOfferAt(p, s, c, o, diff, p.k, i, o);
      DescendCustomerAt(p, s, c, o, diff, p.k, c, i);
    }
    forall i, j | 0 <= i < p.k && 0 <= j < p.m && j != o ensures r.O[i][j] == s.O[i][j] {
      DescendOfferAt(p, s, c, o, diff, p.k, i, j);
    }
  }

  /**
   * Because the update is sequential, the offer factor picks up a second-order term:
   * with g = 2 * lr * diff, O'[j][o] = O[j][o] + g * C[c][j] + g * g * O[j][o].
   * A simultaneous update would stop at the first two terms.
   */
  lemma SequentialOfferUpdate(p: Problem, s: State, c: nat, o: nat, diff: real, j: nat)
    requires Fits(p, s) && c < p.n && o < p.m && j < p.k
    ensures var g := 2.0 * p.lr * diff;
            Descend(p, s, c, o, diff, p.k).O[j][o] == s.O[j][o] + g * s.C[c][j] + g * g * s.O[j][o]
  {
    DescendOfferAt(p, s, c, o, diff, p.k, j, o);
    var g := 2.0 * p.lr * diff;
    var cj := Nudge(s.C[c][j], p.lr, diff, s.O[j][o]);
    assert p.lr * (2.0 * diff * s.O[j][o]) == g * s.O[j][o];
    assert p.lr * (2.0 * diff * cj) == g * cj;
    assert g * cj == g * s.C[c][j] + g * (g * s.O[j][o]);
  }

  /** With a zero residual the inner loop moves nothing. */
  lemma {:induction false} DescendStill(p: Problem, s: State, c: nat, o: nat, k: nat)
    requires Fits(p, s) && c < p.n && o < p.m && k <= p.k
    ensures Descend(p, s, c, o, 0.0, k) == s
    decreases k
  {
    if k > 0 {
      DescendStill(p, s, c, o, k - 1);
      assert s.C[c][k - 1 := s.C[c][k - 1]] == s.C[c];
      assert s.C[c := s.C[c]] == s.C;
      assert s.O[k - 1][o := s.O[k - 1][o]] == s.O[k - 1];
      assert s.O[k - 1 := s.O[k - 1]] == s.O;
    }
  }

  /**
   * The residual of cell (c, o): the actual score minus the current prediction. A cell
   * predicted exactly has residual 0 and moves no factor.
   */
  function Residual(p: Problem, s: State, c: nat, o: nat): (diff: real)
    requires Valid(p) && Fits(p, s) && c < p.n && o < p.m
    ensures diff == 0.0 <==> Dot(s.C, s.O, c, o, p.k) == p.scores[c][o]
    ensures diff == 0.0 ==> Descend(p, s, c, o, diff, p.k) == s
  {
    DescendStill(p, s, c, o, p.k);
    p.scores[c][o] - Dot(s.C, s.O, c, o, p.k)
  }

  /** One visit of cell (c, o): nothing happens at a missing cell. */
  function Visit(p: Problem, s: State, c: nat, o: nat): (r: State)
    requires Valid(p) && Fits(p, s) && c < p.n && o < p.m
    ensures Fits(p, r) && r.sse >= s.sse
    ensures !p.observed[c][o] ==> r == s
  {
    if !p.observed[c][o] then s
    else
      var diff := Residual(p, s, c, o);
      var t := Descend(p, s, c, o, diff, p.k);
      State(t.C, t.O, s.sse + diff * diff)
  }

  /** Visits cells (c, 0) .. (c, o-1) in that order. */
  function RowSweep(p: Problem, s: State, c: nat, o: nat): (r: State)
    requires Valid(p) && Fits(p, s) && c < p.n && o <= p.m
    ensures Fits(p, r) && r.sse >= s.sse
    decreases o
  {
    if o == 0 then s else Visit(p, RowSweep(p, s, c, o - 1), c, o - 1)
  }

  /** Visits rows 0 .. c-1, each in full, in that order. */
  function Sweep(p: Problem, s: State, c: nat): (r: State)
    requires Valid(p) && Fits(p, s) && c <= p.n
    ensures Fits(p, r) && r.sse >= s.sse
    decreases c
  {
    if c == 0 then s else RowSweep(p, Sweep(p, s, c - 1), c - 1, p.m)
  }

  /** One iteration: sse_accum is reset to 0, then every cell is visited. */
  function Pass(p: Problem, s: State): (r: State)
    requires Valid(p) && Fits(p, s)
    ensures Fits(p, r) && r.sse >= 0.0
  {
    Sweep(p, State(s.C, s.O, 0.0), p.n)
  }

  /** The state after t iterations. */
  function Train(p: Problem, s: State, t: nat): (r: State)
    requires Valid(p) && Fits(p, s)
    ensures Fits(p, r)
    ensures t > 0 ==> r.sse >= 0.0
  {
    if t == 0 then s else Pass(p, Train(p, s, t - 1))
  }

  /** The sum of squared errors of each of the first t iterations. */
  function History(p: Problem, s: State, t: nat): (h: seq<real>)
    requires Valid(p) && Fits(p, s)
    ensures |h| == t
    ensures forall i :: 0 <= i < t ==> h[i] == Train(p, s, i + 1).sse
  {
    if t == 0 then [] else History(p, s, t - 1) + [Train(p, s, t).sse]
  }

  /** Each iteration's sum of squared errors divided by n_PB, the number of present cells. */
  function MeanErrors(h: seq<real>, nPB: nat): (mse: seq<real>)
    requires nPB > 0 || h == []
    ensures |mse| == |h|
    ensures forall i :: 0 <= i < |h| ==> mse[i] * (nPB as real) == h[i]
  {
    if h == [] then [] else MeanErrors(h[..|h| - 1], nPB) + [h[|h| - 1] / (nPB as real)]
  }

  // ---- The running error never feeds back into the factors ----

  /** The inner loop carries sse_accum through untouched and never reads it. */
  lemma {:induction false} DescendIgnoresError(p: Problem, s: State, c: nat, o: nat, diff: real, k: nat, e: real)
    requires Fits(p, s) && c < p.n && o < p.m && k <= p.k
    ensures var r := Descend(p, s, c, o, diff, k);
            Descend(p, State(s.C, s.O, e), c, o, diff, k) == State(r.C, r.O, e)
    decreases k
  {
    if k > 0 {
      DescendIgnoresError(p, s, c, o, diff, k - 1, e);
    }
  }

  /** Starting a visit with x more error ends it with x more error and the same factors. */
  lemma VisitShift(p: Problem, s: State, c: nat, o: nat, x: real)
    requires Valid(p) && Fits(p, s) && c < p.n && o < p.m
    ensures var r := Visit(p, s, c, o);
            Visit(p, State(s.C, s.O, s.sse + x), c, o) == State(r.C, r.O, r.sse + x)
  {
    if p.observed[c][o] {
      var diff := Residual(p, s, c, o);
      DescendIgnoresError(p, s, c, o, diff, p.k, s.sse + x);
      DescendIgnoresError(p, s, c, o, diff, p.k, s.sse);
    }
  }

  lemma {:induction false} RowSweepShift(p: Problem, s: State, c: nat, o: nat, x: real)
    requires Valid(p) && Fits(p, s) && c < p.n && o <= p.m
    ensures var r := RowSweep(p, s, c, o);
            RowSweep(p, State(s.C, s.O, s.sse + x), c, o) == State(r.C, r.O, r.sse + x)
    decreases o
  {
    if o > 0 {
      RowSweepShift(p, s, c, o - 1, x);
      VisitShift(p, RowSweep(p, s, c, o - 1), c, o - 1, x);
    }
  }

  lemma {:induction false} SweepShift(p: Problem, s: State, c: nat, x: real)
    requires Valid(p) && Fits(p, s) && c <= p.n
    ensures var r := Sweep(p, s, c);
            Sweep(p, State(s.C, s.O, s.sse + x), c) == State(r.C, r.O, r.sse + x)
    decreases c
  {
    if c > 0 {
      SweepShift(p, s, c - 1, x);
      RowSweepShift(p, Sweep(p, s, c - 1), c - 1, p.m, x);
    }
  }

  /**
   * Each iteration restarts sse_accum at 0: whatever error the previous iteration left,
   * a pass moves the factors exactly as a sweep over the whole matrix does, and reports
   * only the error this sweep adds.
   */
  lemma PassRestarts(p: Problem, s: State, x: real)
    requires Valid(p) && Fits(p, s)
    ensures Pass(p, State(s.C, s.O, x)) == Pass(p, s)
    ensures var r := Sweep(p, s, p.n);
            Pass(p, s) == State(r.C, r.O, r.sse - s.sse)
  {
    SweepShift(p, State(s.C, s.O, 0.0), p.n, s.sse);
    assert State(s.C, s.O, 0.0 + s.sse) == s;
  }

  // ---- Locality: cells that are missing never move anything ----

  /** A visit changes row c of customers_mat and column o of offer_mat, nothing else. */
  lemma VisitLocal(p: Problem, s: State, c: nat, o: nat)
    requires Valid(p) && Fits(p, s) && c < p.n && o < p.m
    ensures var r := Visit(p, s, c, o);
            && (forall i :: 0 <= i < p.n && i != c ==> r.C[i] == s.C[i])
            && (forall i, j :: 0 <= i < p.k && 0 <= j < p.m && j != o ==> r.O[i][j] == s.O[i][j])
  {
    if p.observed[c][o] {
      var diff := Residual(p, s, c, o);
      DescendEffect(p, s, c, o, diff);
    }
  }

  ghost predicate RowMissing(p: Problem, c: nat)
    requires Valid(p) && c < p.n
  {
    forall o :: 0 <= o < p.m ==> !p.observed[c][o]
  }

  ghost predicate ColumnMissing(p: Problem, o: nat)
    requires Valid(p) && o < p.m
  {
    forall c :: 0 <= c < p.n ==> !p.observed[c][o]
  }

  /** Visiting any prefix of a row leaves alone customer rows and offer columns with no observed cell. */
  lemma {:induction false} RowSweepKeepsMissing(p: Problem, s: State, c: nat, o: nat, row: nat, col: nat)
    requires Valid(p) && Fits(p, s) && c < p.n && o <= p.m && row < p.n && col < p.m
    ensures RowMissing(p, row) ==> RowSweep(p, s, c, o).C[row] == s.C[row]
    ensures ColumnMissing(p, col) ==> forall j :: 0 <= j < p.k ==> RowSweep(p, s, c, o).O[j][col] == s.O[j][col]
    decreases o
  {
    if o > 0 {
      var t := RowSweep(p, s, c, o - 1);
      RowSweepKeepsMissing(p, s, c, o - 1, row, col);
      VisitLocal(p, t, c, o - 1);
    }
  }

  lemma {:induction false} SweepKeepsMissing(p: Problem, s: State, c: nat, row: nat, col: nat)
    requires Valid(p) && Fits(p, s) && c <= p.n && row < p.n && col < p.m
    ensures RowMissing(p, row) ==> Sweep(p, s, c).C[row] == s.C[row]
    ensures ColumnMissing(p, col) ==> forall j :: 0 <= j < p.k ==> Sweep(p, s, c).O[j][col] == s.O[j][col]
    decreases c
  {
    if c > 0 {
      SweepKeepsMissing(p, s, c - 1, row, col);
      RowSweepKeepsMissing(p, Sweep(p, s, c - 1), c - 1, p.m, row, col);
    }
  }

  /** Over any number of iterations, a customer with no observed score keeps its initial factors. */
  lemma {:induction false} TrainKeepsMissing(p: Problem, s: State, t: nat, row: nat, col: nat)
    requires Valid(p) && Fits(p, s) && row < p.n && col < p.m
    ensures RowMissing(p, row) ==> Train(p, s, t).C[row] == s.C[row]
    ensures ColumnMissing(p, col) ==> forall j :: 0 <= j < p.k ==> Train(p, s, t).O[j][col] == s.O[j][col]
  {
    if t > 0 {
      var u := Train(p, s, t - 1);
      TrainKeepsMissing(p, s, t - 1, row, col);
      SweepKeepsMissing(p, State(u.C, u.O, 0.0), p.n, row, col);
    }
  }

  /** With no observed cell at all, a pass changes nothing and its squared error is 0. */
  lemma {:induction false} SweepAllMissing(p: Problem, s: State, c: nat)
    requires Valid(p) && Fits(p, s) && c <= p.n
    requires forall i, j :: 0 <= i < p.n && 0 <= j < p.m ==> !p.observed[i][j]
    ensures Sweep(p, s, c) == s
    decreases c
  {
    if c > 0 {
      SweepAllMissing(p, s, c - 1);
      RowSweepAllMissing(p, s, c - 1, p.m);
    }
  }

  lemma {:induction false} RowSweepAllMissing(p: Problem, s: State, c: nat, o: nat)
    requires Valid(p) && Fits(p, s) && c < p.n && o <= p.m
    requires forall i, j :: 0 <= i < p.n && 0 <= j < p.m ==> !p.observed[i][j]
    ensures RowSweep(p, s, c, o) == s
    decreases o
  {
    if o > 0 {
      RowSweepAllMissing(p, s, c, o - 1);
    }
  }

  /** The prediction matrix np.dot(customers_mat, offer_mat): n x m, defined at every cell. */
  function Product(C: Mat, O: Mat, n: nat, m: nat, k: nat): (P: Mat)
    requires Shape(C, n, k) && Shape(O, k, m)
    ensures Shape(P, n, m)
    ensures forall i, j :: 0 <= i < n && 0 <= j < m ==> P[i][j] == Dot(C, O, i, j, k)
  {
    seq(n, i requires 0 <= i < n => seq(m, j requires 0 <= j < m => Dot(C, O, i, j, k)))
  }

  /** After a visit of an observed cell its squared residual has been added to the running error. */
  lemma VisitAccumulates(p: Problem, s: State, c: nat, o: nat)
    requires Valid(p) && Fits(p, s) && c < p.n && o < p.m
    ensures var d := Residual(p, s, c, o);
            Visit(p, s, c, o).sse == if p.observed[c][o] then s.sse + d * d else s.sse
  {
  }
}
