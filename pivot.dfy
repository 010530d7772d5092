/**
 * The pivot in Recommender.fit (Data/recommendation.py): the de-duplicated training
 * table becomes a customer x offer matrix whose cells are missing where no training
 * row has that key, and n_PB counts the cells that are present.
 */
module Pivot {

  import opened Partition
  import opened Factorization

  /** Every training key's customer and offer appear among the labels. */
  ghost predicate Covers(train: map<Key, real>, customers: seq<CustomerId>, offers: seq<OfferId>) {
    forall k :: k in train ==> k.0 in customers && k.1 in offers
  }

  /** Every row label is the customer of some training key. */
  ghost predicate CustomersUsed(train: map<Key, real>, customers: seq<CustomerId>) {
    forall c :: c in customers ==> exists k :: k in train && k.0 == c
  }

  /** Every column label is the offer of some training key. */
  ghost predicate OffersUsed(train: map<Key, real>, offers: seq<OfferId>) {
    forall o :: o in offers ==> exists k :: k in train && k.1 == o
  }

  /** The row and column labels index the training keys: each label once, every key's parts present. */
  ghost predicate Labels(train: map<Key, real>, customers: seq<CustomerId>, offers: seq<OfferId>) {
    Distinct(customers) && Distinct(offers) && Covers(train, customers, offers)
  }

  /** Which offers the customer has a training score for, column by column. */
  function MaskRow(train: map<Key, real>, customer: CustomerId, offers: seq<OfferId>): (row: seq<bool>)
    ensures |row| == |offers|
    ensures forall j {:trigger row[j]} :: 0 <= j < |offers| ==> (row[j] <==> (customer, offers[j]) in train)
    decreases |offers|
  {
    if offers == [] then []
    else MaskRow(train, customer, offers[..|offers| - 1]) + [(customer, offers[|offers| - 1]) in train]
  }

  /** The customer's training scores, column by column; 0.0 where there is none. */
  function ScoreRow(train: map<Key, real>, customer: CustomerId, offers: seq<OfferId>): (row: seq<real>)
    ensures |row| == |offers|
    ensures forall j {:trigger row[j]} :: 0 <= j < |offers| && (customer, offers[j]) in train ==>
              row[j] == train[(customer, offers[j])]
    decreases |offers|
  {
    if offers == [] then []
    else
      var key := (customer, offers[|offers| - 1]);
      ScoreRow(train, customer, offers[..|offers| - 1]) + [if key in train then train[key] else 0.0]
  }

  /** Which cells of df_recs hold a score (are not NaN). */
  function PivotMask(train: map<Key, real>, customers: seq<CustomerId>, offers: seq<OfferId>): (mask: Mask)
    ensures Shape(mask, |customers|, |offers|)
    ensures forall i, j {:trigger mask[i][j]} :: 0 <= i < |customers| && 0 <= j < |offers| ==>
              (mask[i][j] <==> (customers[i], offers[j]) in train)
  {
    seq(|customers|, i requires 0 <= i < |customers| => MaskRow(train, customers[i], offers))
  }

  /** The scores of df_recs; a missing cell holds 0.0 here, and the mask says it is missing. */
  function PivotScores(train: map<Key, real>, customers: seq<CustomerId>, offers: seq<OfferId>): (scores: Mat)
    ensures Shape(scores, |customers|, |offers|)
    ensures forall i, j {:trigger scores[i][j]} :: 0 <= i < |customers| && 0 <= j < |offers| && (customers[i], offers[j]) in train ==>
              scores[i][j] == train[(customers[i], offers[j])]
  {
    seq(|customers|, i requires 0 <= i < |customers| => ScoreRow(train, customers[i], offers))
  }

  /** The present cells, as (row, column) pairs. */
  function ObservedCells(mask: Mask, n: nat, m: nat): (cells: set<(int, int)>)
    requires Shape(mask, n, m)
    ensures forall x :: x in cells ==> 0 <= x.0 < n && 0 <= x.1 < m && mask[x.0][x.1]
    ensures forall i, j :: 0 <= i < n && 0 <= j < m && mask[i][j] ==> (i, j) in cells
  {
    set i, j | 0 <= i < n && 0 <= j < m && mask[i][j] :: (i, j)
  }

  /** The training key a cell stands for. */
  function CellKey(customers: seq<CustomerId>, offers: seq<OfferId>, cell: (int, int)): Key {
    if 0 <= cell.0 < |customers| && 0 <= cell.1 < |offers| then (customers[cell.0], offers[cell.1]) else (0, "")
  }

  lemma CellKeyInjective(customers: seq<CustomerId>, offers: seq<OfferId>, x: (int, int), y: (int, int))
    requires Distinct(customers) && Distinct(offers)
    requires 0 <= x.0 < |customers| && 0 <= x.1 < |offers| && 0 <= y.0 < |customers| && 0 <= y.1 < |offers|
    requires CellKey(customers, offers, x) == CellKey(customers, offers, y)
    ensures x == y
  {
  }

  /** A present cell stands for a training key. */
  lemma CellIsTrainKey(train: map<Key, real>, customers: seq<CustomerId>, offers: seq<OfferId>, x: (int, int))
    requires x in ObservedCells(PivotMask(train, customers, offers), |customers|, |offers|)
    ensures CellKey(customers, offers, x) in train
  {
  }

  /** A training key whose parts are labels has a present cell. */
  lemma TrainKeyIsCell(train: map<Key, real>, customers: seq<CustomerId>, offers: seq<OfferId>, k: Key)
    requires k in train && k.0 in customers && k.1 in offers
    ensures exists x :: x in ObservedCells(PivotMask(train, customers, offers), |customers|, |offers|)
                     && CellKey(customers, offers, x) == k
  {
    var mask := PivotMask(train, customers, offers);
    var i :| 0 <= i < |customers| && customers[i] == k.0;
    var j :| 0 <= j < |offers| && offers[j] == k.1;
    assert mask[i][j];
    assert (i, j) in ObservedCells(mask, |customers|, |offers|);
    assert CellKey(customers, offers, (i, j)) == k;
  }

  /** The present cells stand for exactly the training keys. */
  lemma CellKeysAreTrainKeys(train: map<Key, real>, customers: seq<CustomerId>, offers: seq<OfferId>)
    requires Covers(train, customers, offers)
    ensures var cells := ObservedCells(PivotMask(train, customers, offers), |customers|, |offers|);
            (set x | x in cells :: CellKey(customers, offers, x)) == train.Keys
  {
    var cells := ObservedCells(PivotMask(train, customers, offers), |customers|, |offers|);
    var image := set x | x in cells :: CellKey(customers, offers, x);
    forall x | x in cells ensures CellKey(customers, offers, x) in train {
      CellIsTrainKey(train, customers, offers, x);
    }
    forall k | k in train ensures k in image {
      TrainKeyIsCell(train, customers, offers, k);
    }
  }

  ghost predicate InRange(cells: set<(int, int)>, n: nat, m: nat) {
    forall x :: x in cells ==> 0 <= x.0 < n && 0 <= x.1 < m
  }

  /** With distinct labels, distinct cells stand for distinct keys, so no two cells share one. */
  lemma {:induction false} CellKeyImageCard(customers: seq<CustomerId>, offers: seq<OfferId>, cells: set<(int, int)>)
    requires Distinct(customers) && Distinct(offers) && InRange(cells, |customers|, |offers|)
    ensures |set x | x in cells :: CellKey(customers, offers, x)| == |cells|
    decreases |cells|
  {
    if cells != {} {
      var x :| x in cells;
      var rest := cells - {x};
      CellKeyImageCard(customers, offers, rest);
      var image := set y | y in rest :: CellKey(customers, offers, y);
      assert (set y | y in cells :: CellKey(customers, offers, y)) == image + {CellKey(customers, offers, x)};
      forall y | y in rest ensures CellKey(customers, offers, y) != CellKey(customers, offers, x) {
        if CellKey(customers, offers, y) == CellKey(customers, offers, x) {
          CellKeyInjective(customers, offers, x, y);
        }
      }
    }
  }

  /**
   * np.count_nonzero(~np.isnan(matrix)): the number of present cells equals the number
   * of distinct (customer, offer) keys in the training table.
   */
  lemma ObservedCountIsKeyCount(train: map<Key, real>, customers: seq<CustomerId>, offers: seq<OfferId>)
    requires Labels(train, customers, offers)
    ensures |ObservedCells(PivotMask(train, customers, offers), |customers|, |offers|)| == |train|
  {
    var cells := ObservedCells(PivotMask(train, customers, offers), |customers|, |offers|);
    CellKeyImageCard(customers, offers, cells);
    CellKeysAreTrainKeys(train, customers, offers);
  }

  /** n_PB as fit computes it: the present cells of the pivot, which are as many as the training keys. */
  function ObservedCount(train: map<Key, real>, customers: seq<CustomerId>, offers: seq<OfferId>): (count: nat)
    requires Labels(train, customers, offers)
    ensures count == |train|
  {
    ObservedCountIsKeyCount(train, customers, offers);
    |ObservedCells(PivotMask(train, customers, offers), |customers|, |offers|)|
  }

  ghost predicate RowHasCell(mask: Mask, i: nat)
    requires i < |mask|
  {
    exists j :: 0 <= j < |mask[i]| && mask[i][j]
  }

  ghost predicate ColumnHasCell(mask: Mask, j: nat) {
    exists i :: 0 <= i < |mask| && j < |mask[i]| && mask[i][j]
  }

  /**
   * unstack makes a row for each customer that has a training key, and only for those:
   * with such row labels, every row of the pivot has a present cell.
   */
  lemma EveryRowHasCell(train: map<Key, real>, customers: seq<CustomerId>, offers: seq<OfferId>)
    requires Covers(train, customers, offers) && CustomersUsed(train, customers)
    ensures forall i :: 0 <= i < |customers| ==> RowHasCell(PivotMask(train, customers, offers), i)
  {
    var mask := PivotMask(train, customers, offers);
    forall i | 0 <= i < |customers| ensures RowHasCell(mask, i) {
      assert customers[i] in customers;
      var k :| k in train && k.0 == customers[i];
      var j :| 0 <= j < |offers| && offers[j] == k.1;
      assert mask[i][j];
    }
  }

  /** Likewise for the columns: with the offer labels unstack produces, no column is all missing. */
  lemma EveryColumnHasCell(train: map<Key, real>, customers: seq<CustomerId>, offers: seq<OfferId>)
    requires Covers(train, customers, offers) && OffersUsed(train, offers)
    ensures forall j :: 0 <= j < |offers| ==> ColumnHasCell(PivotMask(train, customers, offers), j)
  {
    var mask := PivotMask(train, customers, offers);
    forall j | 0 <= j < |offers| ensures ColumnHasCell(mask, j) {
      assert offers[j] in offers;
      var k :| k in train && k.1 == offers[j];
      var i :| 0 <= i < |customers| && customers[i] == k.0;
      assert mask[i][j];
    }
  }
}
