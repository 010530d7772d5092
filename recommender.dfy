/**
 * class Recommender of Data/recommendation.py: fit trains the customer and offer factor
 * matrices in place with the loop of Factorization, make_comparison multiplies them out,
 * and recommend lists the offers whose predicted score is above a threshold.
 */
module Recommendation {

  import opened Wrappers
  import opened OfferLabels
  import opened Partition
  import opened Factorization
  import opened Pivot

  /** The exceptions the source raises on the paths modelled here. */
  datatype Error =
    | NotLoaded        // fit before load_data: self.df_score does not exist
    | NotFitted        // make_comparison before fit: self.customers_mat does not exist
    | NoPredictions    // recommend before make_comparison: self.preds_mat does not exist
    | UnknownCustomer  // df_recs.loc[customer_id] with no such row label (KeyError)
    | IndexOutOfRange  // preds_mat[customer_id] outside the rows
    | ZeroDivision     // sse_accum / self.n_PB with no present cell

  // ---- Recommendation lists, on values ----

  /** Python indexing into n rows: a negative position counts from the end. */
  function PyIndex(c: int, n: nat): (r: Option<nat>)
    ensures r.Some? <==> -(n as int) <= c < n
    ensures r.Some? ==> r.value < n && (r.value as int - c == 0 || r.value as int - c == n)
  {
    if 0 <= c < n then Some(c) else if -(n as int) <= c < 0 then Some(c + n) else None
  }

  /** The positions whose score is above the threshold, ascending. */
  function AboveIndices(row: seq<real>, t: real): (idx: seq<nat>)
    ensures forall q :: 0 <= q < |idx| ==> idx[q] < |row| && row[idx[q]] > t
    ensures forall i: nat :: i < |row| && row[i] > t ==> i in idx
    ensures forall q, q' :: 0 <= q < q' < |idx| ==> idx[q] < idx[q']
    decreases |row|
  {
    if row == [] then []
    else
      var init := AboveIndices(row[..|row| - 1], t);
      if row[|row| - 1] > t then init + [|row| - 1] else init
  }

  /** The list recommend returns: "offer_" + str(i) for each such position i, in order. */
  function Recommended(row: seq<real>, t: real): (labels: seq<string>)
    ensures |labels| <= |row|
  {
    var idx := AboveIndices(row, t);
    StrictlyIncreasingBound(idx, |row|);
    seq(|idx|, q requires 0 <= q < |idx| => OfferLabel(idx[q]))
  }

  lemma {:induction false} StrictlyIncreasingBound(idx: seq<nat>, n: nat)
    requires forall q :: 0 <= q < |idx| ==> idx[q] < n
    requires forall q, q' :: 0 <= q < q' < |idx| ==> idx[q] < idx[q']
    ensures |idx| <= n
    decreases n
  {
    if idx != [] {
      var init := idx[..|idx| - 1];
      assert forall q :: 0 <= q < |init| ==> init[q] < idx[|idx| - 1];
      StrictlyIncreasingBound(init, idx[|idx| - 1]);
    }
  }

  /** Extending the row by one score extends the list by that score's label, if it is above. */
  lemma RecommendedStep(row: seq<real>, j: nat, t: real)
    requires j < |row|
    ensures Recommended(row[..j + 1], t)
         == Recommended(row[..j], t) + (if row[j] > t then [OfferLabel(j)] else [])
  {
    assert row[..j + 1][..j] == row[..j];
  }

  /** offer_i is recommended exactly when position i exists and its score is above the threshold. */
  lemma RecommendedMembership(row: seq<real>, t: real, i: nat)
    ensures OfferLabel(i) in Recommended(row, t) <==> i < |row| && row[i] > t
  {
    var idx := AboveIndices(row, t);
    var labels := Recommended(row, t);
    if OfferLabel(i) in labels {
      var q :| 0 <= q < |labels| && labels[q] == OfferLabel(i);
      OfferLabelInjective(idx[q], i);
    }
    if i < |row| && row[i] > t {
      var q :| 0 <= q < |idx| && idx[q] == i;
      assert labels[q] == OfferLabel(i);
    }
  }

  /** No offer is listed twice. */
  lemma RecommendedDistinct(row: seq<real>, t: real)
    ensures Distinct(Recommended(row, t))
  {
    var idx := AboveIndices(row, t);
    var labels := Recommended(row, t);
    forall q, q' | 0 <= q < q' < |labels| ensures labels[q] != labels[q'] {
      OfferLabelInjective(idx[q], idx[q']);
    }
  }

  /** Raising the threshold can only drop offers from the list. */
  lemma RecommendedAntitone(row: seq<real>, t1: real, t2: real, i: nat)
    requires t1 <= t2
    ensures OfferLabel(i) in Recommended(row, t2) ==> OfferLabel(i) in Recommended(row, t1)
  {
    RecommendedMembership(row, t1, i);
    RecommendedMembership(row, t2, i);
  }

  /**
   * recommend names offers by column position. When the pivot's columns are exactly
   * offer_0 .. offer_{m-1} in that order, a column is listed exactly when its score is
   * above the threshold, so position and column name agree.
   */
  lemma RecommendedNamesColumns(row: seq<real>, offers: seq<OfferId>, t: real)
    requires |offers| == |row|
    requires forall j :: 0 <= j < |offers| ==> offers[j] == OfferLabel(j)
    ensures forall j :: 0 <= j < |offers| ==> (offers[j] in Recommended(row, t) <==> row[j] > t)
  {
    forall j | 0 <= j < |offers| ensures offers[j] in Recommended(row, t) <==> row[j] > t {
      RecommendedMembership(row, t, j);
    }
  }

  // ---- Matrices held in arrays ----

  /** The array holds the matrix m, cell for cell. */
  ghost predicate Holds<T>(a: array2<T>, m: seq<seq<T>>)
    reads a
  {
    && Shape(m, a.Length0, a.Length1)
    && forall i, j {:trigger a[i, j]} :: 0 <= i < a.Length0 && 0 <= j < a.Length1 ==> a[i, j] == m[i][j]
  }

  /** The matrix an array holds. */
  function Grid<T>(a: array2<T>): (m: seq<seq<T>>)
    reads a
    ensures Holds(a, m)
  {
    seq(a.Length0, i requires 0 <= i < a.Length0 reads a =>
      seq(a.Length1, j requires 0 <= j < a.Length1 reads a => a[i, j]))
  }

  /** A fresh array holding the matrix. */
  method ArrayOf<T>(mat: seq<seq<T>>, n: nat, m: nat) returns (a: array2<T>)
    requires Shape(mat, n, m)
    ensures fresh(a) && a.Length0 == n && a.Length1 == m && Holds(a, mat)
  {
    a := new T[n, m]((i, j) requires 0 <= i < n && 0 <= j < m => mat[i][j]);
  }

  /** np.dot(C[c, :], O[:, o]) over the first k latent features, read from the arrays. */
  function DotAt(C: array2<real>, O: array2<real>, c: nat, o: nat, k: nat): real
    reads C, O
    requires c < C.Length0 && k <= C.Length1 && k <= O.Length0 && o < O.Length1
  {
    if k == 0 then 0.0 else DotAt(C, O, c, o, k - 1) + C[c, k - 1] * O[k - 1, o]
  }

  lemma {:induction false} DotAtIsDot(C: array2<real>, O: array2<real>, mC: Mat, mO: Mat, c: nat, o: nat, k: nat)
    requires Holds(C, mC) && Holds(O, mO)
    requires c < C.Length0 && k <= C.Length1 && k <= O.Length0 && o < O.Length1
    ensures DotAt(C, O, c, o, k) == Dot(mC, mO, c, o, k)
    decreases k
  {
    if k > 0 {
      DotAtIsDot(C, O, mC, mO, c, o, k - 1);
    }
  }

  /**
   * The loop over latent features for cell (c, o) (recommendation.py:109-111), in place:
   * each customer factor moves first and the offer factor reads the moved value.
   */
  method UpdateCell(C: array2<real>, O: array2<real>, c: nat, o: nat, diff: real, lr: real,
                    ghost p: Problem, ghost s: State)
    requires C != O && p.lr == lr
    requires Fits(p, s) && c < p.n && o < p.m
    requires C.Length0 == p.n && C.Length1 == p.k && O.Length0 == p.k && O.Length1 == p.m
    requires Holds(C, s.C) && Holds(O, s.O)
    modifies C, O
    ensures Holds(C, Descend(p, s, c, o, diff, p.k).C) && Holds(O, Descend(p, s, c, o, diff, p.k).O)
  {
    var k := C.Length1;
    var j := 0;
    while j < k
      invariant 0 <= j <= k
      invariant Holds(C, Descend(p, s, c, o, diff, j).C) && Holds(O, Descend(p, s, c, o, diff, j).O)
    {
      C[c, j] := Nudge(C[c, j], lr, diff, O[j, o]);
      O[j, o] := Nudge(O[j, o], lr, diff, C[c, j]);
      j := j + 1;
    }
  }

  /**
   * The body of the loop over offers (recommendation.py:99-111): a present cell adds its
   * squared residual to sse_accum and moves the factors; a missing cell changes nothing.
   */
  method VisitCell(matrix: array2<real>, observed: array2<bool>, C: array2<real>, O: array2<real>,
                   lr: real, c: nat, o: nat, sse: real, ghost p: Problem, ghost s: State)
    returns (sse': real)
    requires Valid(p) && Fits(p, s) && p.lr == lr && s.sse == sse && c < p.n && o < p.m
    requires Holds(matrix, p.scores) && Holds(observed, p.observed)
    requires Holds(C, s.C) && Holds(O, s.O) && C != O && matrix != C && matrix != O
    requires matrix.Length0 == C.Length0 == p.n && matrix.Length1 == O.Length1 == p.m
    requires C.Length1 == O.Length0 == p.k
    modifies C, O
    ensures Holds(C, Visit(p, s, c, o).C) && Holds(O, Visit(p, s, c, o).O) && sse' == Visit(p, s, c, o).sse
  {
    sse' := sse;
    assert |p.observed[c]| == p.m;
    if observed[c, o] {
      DotAtIsDot(C, O, s.C, s.O, c, o, p.k);
      var diff := matrix[c, o] - DotAt(C, O, c, o, C.Length1);
      sse' := sse + diff * diff;
      UpdateCell(C, O, c, o, diff, lr, p, s);
    }
  }

  /** The loop over the offers of one customer (recommendation.py:96-111). */
  method VisitRow(matrix: array2<real>, observed: array2<bool>, C: array2<real>, O: array2<real>,
                  lr: real, c: nat, sse: real, ghost p: Problem, ghost s: State)
    returns (sse': real)
    requires Valid(p) && Fits(p, s) && p.lr == lr && s.sse == sse && c < p.n
    requires Holds(matrix, p.scores) && Holds(observed, p.observed)
    requires Holds(C, s.C) && Holds(O, s.O) && C != O && matrix != C && matrix != O
    requires matrix.Length0 == C.Length0 == p.n && matrix.Length1 == O.Length1 == p.m
    requires C.Length1 == O.Length0 == p.k
    modifies C, O
    ensures var t := RowSweep(p, s, c, p.m);
            Holds(C, t.C) && Holds(O, t.O) && sse' == t.sse
  {
    sse' := sse;
    var o := 0;
    while o < matrix.Length1
      invariant 0 <= o <= p.m
      invariant var t := RowSweep(p, s, c, o);
                Holds(C, t.C) && Holds(O, t.O) && sse' == t.sse
    {
      sse' := VisitCell(matrix, observed, C, O, lr, c, o, sse', p, RowSweep(p, s, c, o));
      o := o + 1;
    }
  }

  /**
   * One iteration of the training loop (recommendation.py:91-111): sse_accum starts at 0,
   * every present cell in row-major order adds its squared residual and moves the factors.
   */
  method RunPass(matrix: array2<real>, observed: array2<bool>, C: array2<real>, O: array2<real>,
                 lr: real, ghost p: Problem, ghost s: State) returns (sse: real)
    requires Valid(p) && Fits(p, s) && p.lr == lr
    requires Holds(matrix, p.scores) && Holds(observed, p.observed)
    requires Holds(C, s.C) && Holds(O, s.O) && C != O && matrix != C && matrix != O
    requires matrix.Length0 == C.Length0 == p.n && matrix.Length1 == O.Length1 == p.m
    requires C.Length1 == O.Length0 == p.k
    modifies C, O
    ensures Holds(C, Pass(p, s).C) && Holds(O, Pass(p, s).O) && sse == Pass(p, s).sse
  {
    ghost var s0 := State(s.C, s.O, 0.0);
    sse := 0.0;
    var c := 0;
    while c < matrix.Length0
      invariant 0 <= c <= p.n
      invariant Holds(C, Sweep(p, s0, c).C) && Holds(O, Sweep(p, s0, c).O) && sse == Sweep(p, s0, c).sse
    {
      sse := VisitRow(matrix, observed, C, O, lr, c, sse, p, Sweep(p, s0, c));
      c := c + 1;
    }
  }

  /**
   * The iterations of fit (recommendation.py:88-119). After each pass the mean squared
   * error sse_accum / n_PB is recorded; with no present cell that division fails.
   */
  method Optimize(matrix: array2<real>, observed: array2<bool>, C: array2<real>, O: array2<real>,
                  lr: real, iters: nat, nPB: nat, ghost p: Problem, ghost s: State)
    returns (r: Result<seq<real>, Error>)
    requires Valid(p) && Fits(p, s) && p.lr == lr
    requires Holds(matrix, p.scores) && Holds(observed, p.observed)
    requires Holds(C, s.C) && Holds(O, s.O) && C != O && matrix != C && matrix != O
    requires matrix.Length0 == C.Length0 == p.n && matrix.Length1 == O.Length1 == p.m
    requires C.Length1 == O.Length0 == p.k
    modifies C, O
    ensures r.Success? <==> iters == 0 || nPB > 0
    ensures r.Failure? ==> r.error == ZeroDivision
    ensures r.Success? ==> Holds(C, Train(p, s, iters).C) && Holds(O, Train(p, s, iters).O)
    ensures r.Success? ==> r.value == MeanErrors(History(p, s, iters), nPB)
  {
    var mse: seq<real> := [];
    var it := 0;
    while it < iters
      invariant 0 <= it <= iters
      invariant it > 0 ==> nPB > 0
      invariant Holds(C, Train(p, s, it).C) && Holds(O, Train(p, s, it).O)
      invariant mse == MeanErrors(History(p, s, it), nPB)
    {
      var sse := RunPass(matrix, observed, C, O, lr, p, Train(p, s, it));
      if nPB == 0 {
        return Failure(ZeroDivision);
      }
      mse := mse + [sse / (nPB as real)];
      it := it + 1;
    }
    r := Success(mse);
  }

  /** df_recs.values with its missing cells, and n_PB. */
  method BuildPivot(train: map<Key, real>, customers: seq<CustomerId>, offers: seq<OfferId>)
    returns (matrix: array2<real>, observed: array2<bool>, nPB: nat)
    requires Labels(train, customers, offers)
    ensures fresh(matrix) && Holds(matrix, PivotScores(train, customers, offers))
    ensures fresh(observed) && Holds(observed, PivotMask(train, customers, offers))
    ensures matrix.Length0 == observed.Length0 == |customers| && matrix.Length1 == observed.Length1 == |offers|
    ensures nPB == |train|
  {
    matrix := ArrayOf(PivotScores(train, customers, offers), |customers|, |offers|);
    observed := ArrayOf(PivotMask(train, customers, offers), |customers|, |offers|);
    nPB := ObservedCount(train, customers, offers);
  }

  /**
   * The factor matrices of fit, drawn as initC and initO, trained for iters iterations
   * over the pivot matrix.
   */
  method TrainFactors(matrix: array2<real>, observed: array2<bool>, initC: Mat, initO: Mat,
                      latent: nat, lr: real, iters: nat, nPB: nat, ghost p: Problem)
    returns (r: Result<seq<real>, Error>, C: array2<real>, O: array2<real>)
    requires Valid(p) && p.lr == lr && p.k == latent
    requires Holds(matrix, p.scores) && Holds(observed, p.observed)
    requires matrix.Length0 == p.n && matrix.Length1 == p.m
    requires Shape(initC, p.n, p.k) && Shape(initO, p.k, p.m)
    ensures fresh(C) && fresh(O) && C != O && C.Length1 == O.Length0
    ensures r.Success? <==> iters == 0 || nPB > 0
    ensures r.Failure? ==> r.error == ZeroDivision
    ensures r.Success? ==> Holds(C, Train(p, State(initC, initO, 0.0), iters).C)
    ensures r.Success? ==> Holds(O, Train(p, State(initC, initO, 0.0), iters).O)
    ensures r.Success? ==> r.value == MeanErrors(History(p, State(initC, initO, 0.0), iters), nPB)
  {
    C := ArrayOf(initC, matrix.Length0, latent);
    O := ArrayOf(initO, latent, matrix.Length1);
    r := Optimize(matrix, observed, C, O, lr, iters, nPB, p, State(initC, initO, 0.0));
  }

  /** np.dot(C, O) into a fresh array: every cell is the dot product of its row and column. */
  method Predictions(C: array2<real>, O: array2<real>) returns (P: array2<real>)
    requires C.Length1 == O.Length0
    ensures fresh(P) && P.Length0 == C.Length0 && P.Length1 == O.Length1
    ensures Holds(P, Product(Grid(C), Grid(O), C.Length0, O.Length1, C.Length1))
  {
    var n, m, k := C.Length0, O.Length1, C.Length1;
    P := new real[n, m]((i, j) reads C, O requires 0 <= i < n && 0 <= j < m => DotAt(C, O, i, j, k));
    ghost var preds := Product(Grid(C), Grid(O), n, m, k);
    forall i, j | 0 <= i < n && 0 <= j < m ensures P[i, j] == preds[i][j] {
      DotAtIsDot(C, O, Grid(C), Grid(O), i, j, k);
    }
  }

  /** preds_mat[c, :]: the row the array holds at position c. */
  method RowAt(P: array2<real>, c: nat, ghost mat: Mat) returns (row: seq<real>)
    requires Holds(P, mat) && c < P.Length0
    ensures row == mat[c]
  {
    row := seq(P.Length1, j requires 0 <= j < P.Length1 reads P => P[c, j]);
  }

  /**
   * The body of make_comparison once the factors exist: the prediction matrix; then
   * df_recs.loc[customer_id] treats the argument as a row label, and preds_mat[customer_id]
   * as a row position.
   */
  method Compare(C: array2<real>, O: array2<real>, labels: seq<CustomerId>, customer: int)
    returns (P: array2<real>, r: Result<seq<real>, Error>)
    requires C.Length1 == O.Length0
    ensures fresh(P) && P.Length0 == C.Length0 && P.Length1 == O.Length1
    ensures var preds := Product(Grid(C), Grid(O), C.Length0, O.Length1, C.Length1);
            && Holds(P, preds)
            && r == if customer !in labels then Failure(UnknownCustomer)
                    else match PyIndex(customer, C.Length0)
                         case None => Failure(IndexOutOfRange)
                         case Some(c) => Success(preds[c])
  {
    P := Predictions(C, O);
    if customer !in labels {
      r := Failure(UnknownCustomer);
      return;
    }
    match PyIndex(customer, P.Length0)
    case None =>
      r := Failure(IndexOutOfRange);
    case Some(c) =>
      var row := RowAt(P, c, Product(Grid(C), Grid(O), C.Length0, O.Length1, C.Length1));
      r := Success(row);
  }

  /** The problem fit solves for a training table and its pivot labels. */
  ghost function FitProblem(train: map<Key, real>, customers: seq<CustomerId>, offers: seq<OfferId>,
                            latent: nat, lr: real): (p: Problem)
    ensures Valid(p)
  {
    Problem(PivotScores(train, customers, offers), PivotMask(train, customers, offers),
            |customers|, |offers|, latent, lr)
  }

  class Recommender {
    /** self.df_score, and whether load_data has set it. */
    var dfScore: seq<Observation>
    var loaded: bool
    /** self.df_score_train and self.df_score_test. */
    var train: map<Key, real>
    var test: map<Key, real>
    /** The row and column labels of self.df_recs, and self.matrix with its missing cells. */
    var customers: seq<CustomerId>
    var offers: seq<OfferId>
    var matrix: array2<real>
    var observed: array2<bool>
    var nCustomers: nat
    var nOffers: nat
    var nPB: nat
    var latentFeatures: nat
    var learningRate: real
    var iters: nat
    /** self.customers_mat and self.offer_mat, and whether fit has set them. */
    var customersMat: array2<real>
    var offerMat: array2<real>
    var fitted: bool
    /** self.preds_mat, and whether make_comparison has set it. */
    var predsMat: array2<real>
    var hasPreds: bool

    ghost predicate Valid()
      reads this`matrix, this`observed, this`nCustomers, this`nOffers, this`customers, this`offers
      reads this`fitted, this`customersMat, this`offerMat
    {
      && matrix.Length0 == observed.Length0 == nCustomers == |customers|
      && matrix.Length1 == observed.Length1 == nOffers == |offers|
      && (fitted ==> customersMat != offerMat && customersMat.Length1 == offerMat.Length0)
    }

    /** __init__ sets no attribute. */
    constructor ()
      ensures Valid() && !loaded && !fitted && !hasPreds
    {
      dfScore, loaded := [], false;
      train, test := map[], map[];
      customers, offers := [], [];
      matrix := new real[0, 0];
      observed := new bool[0, 0];
      nCustomers, nOffers, nPB := 0, 0, 0;
      latentFeatures, learningRate, iters := 0, 0.0, 0;
      customersMat := new real[0, 0];
      offerMat := new real[0, 0];
      predsMat := new real[0, 0];
      fitted, hasPreds := false, false;
    }

    /** load_data, with the rows of the score CSV as a parameter. */
    method LoadData(rows: seq<Observation>) returns (scores: seq<Observation>)
      requires Valid()
      modifies this`dfScore, this`loaded
      ensures Valid() && loaded && dfScore == rows && scores == rows
    {
      dfScore, loaded := rows, true;
      scores := rows;
    }

    /**
     * fit. The random draws are parameters: training holds the indices np.random.choice
     * returns, initC and initO the values of np.random.rand. The pivot's row and column
     * labels are parameters too, constrained to be what unstack produces up to order.
     * Without load_data there is no df_score, and fit fails before changing anything.
     */
    method Fit(latent: nat, lr: real, iters: nat, training: seq<nat>,
               customers: seq<CustomerId>, offers: seq<OfferId>, initC: Mat, initO: Mat)
      returns (r: Result<seq<real>, Error>)
      requires Valid()
      requires loaded ==> IsSample(|dfScore|, training) && |training| == TrainingSize(|dfScore|)
      requires loaded ==> Labels(SplitTrainTest(dfScore, training).train, customers, offers)
      requires Shape(initC, |customers|, latent) && Shape(initO, latent, |offers|)
      modifies this`train, this`test, this`latentFeatures, this`learningRate, this`iters
      modifies this`customers, this`offers, this`matrix, this`observed, this`nCustomers, this`nOffers, this`nPB
      modifies this`customersMat, this`offerMat, this`fitted
      ensures !loaded ==> r == Failure(NotLoaded) && unchanged(this)
      ensures !loaded || Fitted(SplitTrainTest(old(dfScore), training), latent, lr, iters, customers, offers, initC, initO, r)
      ensures r.Failure? ==> fitted == old(fitted) && customersMat == old(customersMat) && offerMat == old(offerMat)
      ensures r.Success? ==> fresh(customersMat) && fresh(offerMat)
    {
      if !loaded {
        return Failure(NotLoaded);
      }
      var split := SplitTrainTest(dfScore, training);
      r := FitLoaded(split, latent, lr, iters, customers, offers, initC, initO);
    }

    /**
     * What fit leaves behind: the split tables and hyperparameters, the pivot and n_PB,
     * and the outcome of the descent.
     */
    ghost predicate Fitted(split: Split, latent: nat, lr: real, iters: nat,
                           customers: seq<CustomerId>, offers: seq<OfferId>, initC: Mat, initO: Mat,
                           r: Result<seq<real>, Error>)
      reads this, matrix, observed, customersMat, offerMat
    {
      && Valid()
      && SplitDone(split, latent, lr, iters)
      && PivotDone(customers, offers)
      && Trained(initC, initO, r)
    }

    /** The two tables split_train_test returns, and the stored hyperparameters. */
    ghost predicate SplitDone(split: Split, latent: nat, lr: real, iters: nat)
      reads this`train, this`test, this`latentFeatures, this`learningRate, this`iters
    {
      && train == split.train && test == split.test
      && latentFeatures == latent && learningRate == lr && this.iters == iters
    }

    /**
     * df_recs and self.matrix: one row per customer label and one column per offer label,
     * holding the training score where there is one and marked missing elsewhere; n_PB is
     * the number of training keys.
     */
    ghost predicate PivotDone(customers: seq<CustomerId>, offers: seq<OfferId>)
      reads this`train, this`customers, this`offers, this`matrix, this`observed
      reads this`nCustomers, this`nOffers, this`nPB, matrix, observed
    {
      && this.customers == customers && this.offers == offers
      && nCustomers == |customers| && nOffers == |offers|
      && matrix.Length0 == observed.Length0 == |customers| && matrix.Length1 == observed.Length1 == |offers|
      && Holds(matrix, PivotScores(train, customers, offers))
      && Holds(observed, PivotMask(train, customers, offers))
      && nPB == |train|
    }

    /**
     * The descent succeeds exactly when the loop body never runs or n_PB is positive (else
     * the mean squared error divides by zero); on success customers_mat and offer_mat hold
     * iters passes from the drawn matrices, and each iteration's MSE is recorded.
     */
    ghost predicate Trained(initC: Mat, initO: Mat, r: Result<seq<real>, Error>)
      reads this`train, this`customers, this`offers, this`latentFeatures, this`learningRate
      reads this`customersMat, this`offerMat, this`fitted, this`iters, this`nPB, customersMat, offerMat
    {
      var p := FitProblem(train, customers, offers, latentFeatures, learningRate);
      && Fits(p, State(initC, initO, 0.0))
      && (r.Success? <==> iters == 0 || nPB > 0)
      && (r.Failure? ==> r.error == ZeroDivision)
      && (r.Success? ==>
            var t := Train(p, State(initC, initO, 0.0), iters);
            && fitted && customersMat != offerMat && customersMat.Length1 == offerMat.Length0
            && Holds(customersMat, t.C) && Holds(offerMat, t.O)
            && r.value == MeanErrors(History(p, State(initC, initO, 0.0), iters), nPB))
    }

    method FitLoaded(split: Split, latent: nat, lr: real, iters: nat,
                     customers: seq<CustomerId>, offers: seq<OfferId>, initC: Mat, initO: Mat)
      returns (r: Result<seq<real>, Error>)
      requires Valid()
      requires Labels(split.train, customers, offers)
      requires Shape(initC, |customers|, latent) && Shape(initO, latent, |offers|)
      modifies this`train, this`test, this`latentFeatures, this`learningRate, this`iters
      modifies this`customers, this`offers, this`matrix, this`observed, this`nCustomers, this`nOffers, this`nPB
      modifies this`customersMat, this`offerMat, this`fitted
      ensures Fitted(split, latent, lr, iters, customers, offers, initC, initO, r)
      ensures r.Failure? ==> fitted == old(fitted) && customersMat == old(customersMat) && offerMat == old(offerMat)
      ensures r.Success? ==> fresh(customersMat) && fresh(offerMat)
    {
      SetSplit(split, latent, lr, iters);
      r := SetPivotAndFactors(customers, offers, initC, initO);
    }

    /** The pivot and the descent of fit, on a split already made. */
    method SetPivotAndFactors(customers: seq<CustomerId>, offers: seq<OfferId>, initC: Mat, initO: Mat)
      returns (r: Result<seq<real>, Error>)
      requires Labels(train, customers, offers)
      requires Shape(initC, |customers|, latentFeatures) && Shape(initO, latentFeatures, |offers|)
      modifies this`customers, this`offers, this`matrix, this`observed, this`nCustomers, this`nOffers, this`nPB
      modifies this`customersMat, this`offerMat, this`fitted
      ensures PivotDone(customers, offers) && Trained(initC, initO, r)
      ensures r.Failure? ==> fitted == old(fitted) && customersMat == old(customersMat) && offerMat == old(offerMat)
      ensures r.Success? ==> fresh(customersMat) && fresh(offerMat)
    {
      SetPivot(customers, offers);
      r := SetFactors(initC, initO);
    }

    /** The first steps of fit: the hyperparameters, self.df_score_train and self.df_score_test. */
    method SetSplit(split: Split, latent: nat, lr: real, iters: nat)
      modifies this`train, this`test, this`latentFeatures, this`learningRate, this`iters
      ensures SplitDone(split, latent, lr, iters)
    {
      train, test := split.train, split.test;
      latentFeatures, learningRate, this.iters := latent, lr, iters;
    }

    /**
     * The pivot step of fit: self.df_recs, self.matrix, its shape and n_PB, from the
     * training table and the labels unstack gives its rows and columns.
     */
    method SetPivot(customers: seq<CustomerId>, offers: seq<OfferId>)
      requires Labels(train, customers, offers)
      modifies this`customers, this`offers, this`matrix, this`observed, this`nCustomers, this`nOffers, this`nPB
      ensures PivotDone(customers, offers)
      ensures fresh(matrix) && fresh(observed)
    {
      matrix, observed, nPB := BuildPivot(train, customers, offers);
      this.customers, this.offers := customers, offers;
      nCustomers, nOffers := |customers|, |offers|;
    }

    /**
     * The descent step of fit: customers_mat and offer_mat start from the given draws and
     * are trained for iters passes over the pivot; they are kept only when the loop ran.
     */
    method SetFactors(initC: Mat, initO: Mat) returns (r: Result<seq<real>, Error>)
      requires PivotDone(customers, offers)
      requires Shape(initC, nCustomers, latentFeatures) && Shape(initO, latentFeatures, nOffers)
      modifies this`customersMat, this`offerMat, this`fitted
      ensures Trained(initC, initO, r)
      ensures r.Failure? ==> fitted == old(fitted) && customersMat == old(customersMat) && offerMat == old(offerMat)
      ensures r.Success? ==> fresh(customersMat) && fresh(offerMat)
    {
      ghost var p := FitProblem(train, customers, offers, latentFeatures, learningRate);
      var C, O;
      r, C, O := TrainFactors(matrix, observed, initC, initO, latentFeatures, learningRate, iters, nPB, p);
      if r.Success? {
        customersMat, offerMat, fitted := C, O, true;
      }
    }

    /**
     * make_comparison: preds_mat becomes np.dot(customers_mat, offer_mat) first; then the
     * customer's row of df_recs is looked up by label, which fails for an id that is not a
     * row label, and the customer's predicted row is taken by position (the source prints both).
     */
    method MakeComparison(customer: int) returns (r: Result<seq<real>, Error>)
      requires Valid()
      modifies this`predsMat, this`hasPreds
      ensures Valid()
      ensures !fitted ==> r == Failure(NotFitted) && predsMat == old(predsMat) && hasPreds == old(hasPreds)
      ensures fitted ==>
                var preds := Product(Grid(customersMat), Grid(offerMat),
                                     customersMat.Length0, offerMat.Length1, customersMat.Length1);
                && hasPreds && fresh(predsMat) && Holds(predsMat, preds)
                && r == if customer !in customers then Failure(UnknownCustomer)
                        else match PyIndex(customer, customersMat.Length0)
                             case None => Failure(IndexOutOfRange)
                             case Some(c) => Success(preds[c])
    {
      if !fitted {
        return Failure(NotFitted);
      }
      var P;
      P, r := Compare(customersMat, offerMat, customers, customer);
      predsMat, hasPreds := P, true;
    }

    /** recommend: the offers whose predicted score for the customer exceeds averageScore. */
    method Recommend(customer: int, averageScore: real) returns (r: Result<seq<string>, Error>)
      requires Valid()
      ensures !hasPreds ==> r == Failure(NoPredictions)
      ensures hasPreds ==>
                r == match PyIndex(customer, predsMat.Length0)
                     case None => Failure(IndexOutOfRange)
                     case Some(c) => Success(Recommended(Grid(predsMat)[c], averageScore))
    {
      if !hasPreds {
        return Failure(NoPredictions);
      }
      match PyIndex(customer, predsMat.Length0)
      case None =>
        r := Failure(IndexOutOfRange);
      case Some(c) =>
        ghost var row := Grid(predsMat)[c];
        var labels: seq<string> := [];
        var j := 0;
        while j < predsMat.Length1
          invariant 0 <= j <= predsMat.Length1 == |row|
          invariant labels == Recommended(row[..j], averageScore)
        {
          RecommendedStep(row, j, averageScore);
          if predsMat[c, j] > averageScore {
            labels := labels + ["offer_" + Decimal(j)];
          }
          j := j + 1;
        }
        assert row[..j] == row;
        r := Success(labels);
    }
  }
}
