/**
 * split_train_test of Data/recommendation.py: the training row indices (drawn at random
 * without replacement by the source, a parameter here), their complement as the test
 * indices, and each side reduced to one maximum score per (customer, offer) key.
 */
module Partition {

  /** customer_id: the score table's customer identifiers are integers (fit's caller passes 945). */
  type CustomerId = int

  /** offer_number: "offer_0" .. "offer_9". */
  type OfferId = string

  /** One row of the score table: customer_id, offer_number and the PB score. */
  datatype Observation = Observation(customer: CustomerId, offer: OfferId, score: real)

  type Key = (CustomerId, OfferId)

  function KeyOf(row: Observation): Key {
    (row.customer, row.offer)
  }

  ghost predicate Distinct<T>(s: seq<T>) {
    forall i, j :: 0 <= i < j < |s| ==> s[i] != s[j]
  }

  /** What sampling without replacement from range(total) guarantees of the training indices. */
  ghost predicate IsSample(total: nat, training: seq<nat>) {
    Distinct(training) && forall i :: 0 <= i < |training| ==> training[i] < total
  }

  /**
   * int(np.round(total * 0.9)): nine tenths of the table, rounded to the nearest integer
   * with ties going to the even neighbour (computed exactly, not in floating point).
   */
  function TrainingSize(total: nat): (size: nat)
    ensures size <= total
  {
    var q, rem := (9 * total) / 10, (9 * total) % 10;
    if rem > 5 || (rem == 5 && q % 2 == 1) then q + 1 else q
  }

  /** The training size is at most the table, within half a row of 0.9 * total, and even on a tie. */
  lemma TrainingSizeRounds(total: nat)
    ensures var size := TrainingSize(total);
            && size <= total
            && -5 <= 10 * size - 9 * total <= 5
            && (10 * size - 9 * total == 5 ==> size % 2 == 0)
            && (10 * size - 9 * total == -5 ==> size % 2 == 0)
  {
  }

  /** np.setdiff1d(np.arange(0, total), training): the indices below total not drawn, ascending. */
  function Complement(total: nat, training: seq<nat>): (testing: seq<nat>)
    ensures forall q :: 0 <= q < |testing| ==> testing[q] < total && testing[q] !in training
  {
    if total == 0 then []
    else
      var below := Complement(total - 1, training);
      if total - 1 in training then below else below + [total - 1]
  }

  /** The test indices are exactly those below total that were not drawn, in ascending order. */
  lemma {:induction false} ComplementMembers(total: nat, training: seq<nat>)
    ensures var testing := Complement(total, training);
            && (forall x: int :: x in testing <==> 0 <= x < total && x !in training)
            && (forall i, j :: 0 <= i < j < |testing| ==> testing[i] < testing[j])
            && (forall i :: 0 <= i < |testing| ==> testing[i] < total)
  {
    if total > 0 {
      var below := Complement(total - 1, training);
      ComplementMembers(total - 1, training);
      if total - 1 !in training {
        var testing := below + [total - 1];
        assert Complement(total, training) == testing;
        forall x: int ensures x in testing <==> 0 <= x < total && x !in training {
          assert x in testing <==> x in below || x == total - 1;
        }
        forall i, j | 0 <= i < j < |testing| ensures testing[i] < testing[j] {
          if j < |below| {
            assert testing[i] == below[i] && testing[j] == below[j];
          } else {
            assert testing[i] == below[i];
          }
        }
      }
    }
  }

  lemma {:induction false} DistinctCardinality(s: seq<nat>)
    requires Distinct(s)
    ensures |set x: nat | x in s| == |s|
  {
    if s != [] {
      var init := s[..|s| - 1];
      assert Distinct(init) by {
        forall i, j | 0 <= i < j < |init| ensures init[i] != init[j] {
          assert init[i] == s[i] && init[j] == s[j];
        }
      }
      DistinctCardinality(init);
      var last := s[|s| - 1];
      assert s == init + [last];
      assert last !in init;
      var a, b := set x: nat | x in s, set x: nat | x in init;
      assert a == b + {last};
      assert |a| == |b| + 1;
    }
  }

  /** np.arange(0, n). */
  function Range(n: nat): (r: seq<nat>)
    ensures |r| == n
    ensures forall i :: 0 <= i < n ==> r[i] == i
    ensures forall x: nat :: x in r <==> x < n
  {
    var r := seq(n, i requires 0 <= i => i);
    forall x: nat ensures x in r <==> x < n {
      if x < n {
        assert r[x] == x;
      }
    }
    r
  }

  /** The two index sets are disjoint, cover range(total), and their sizes add up to total. */
  lemma PartitionSizes(total: nat, training: seq<nat>)
    requires IsSample(total, training)
    ensures var testing := Complement(total, training);
            && (forall x :: x in training ==> x !in testing)
            && (forall x: nat :: x < total <==> x in training || x in testing)
            && |training| + |testing| == total
  {
    var testing := Complement(total, training);
    ComplementMembers(total, training);
    DistinctCardinality(training);
    DistinctCardinality(testing);
    DistinctCardinality(Range(total));
    var a, b := set x: nat | x in training, set x: nat | x in testing;
    assert a !! b;
    assert a + b == set x: nat | x in Range(total);
    assert |a + b| == |a| + |b|;
  }

  /** df_score.loc[idx]: the rows at the given positions, in that order. */
  function Select(rows: seq<Observation>, idx: seq<nat>): (picked: seq<Observation>)
    requires forall i :: 0 <= i < |idx| ==> idx[i] < |rows|
    ensures |picked| == |idx|
    ensures forall i :: 0 <= i < |idx| ==> picked[i] == rows[idx[i]]
  {
    seq(|idx|, i requires 0 <= i < |idx| => rows[idx[i]])
  }

  /** groupby(['customer_id', 'offer_number']).max(), for the score column. */
  function GroupMax(rows: seq<Observation>): (grouped: map<Key, real>)
    ensures |grouped| <= |rows|
    decreases |rows|
  {
    if rows == [] then map[]
    else
      var m := GroupMax(rows[..|rows| - 1]);
      var last := rows[|rows| - 1];
      var k := KeyOf(last);
      m[k := if k in m && last.score < m[k] then m[k] else last.score]
  }

  /** The keys of the grouped table are exactly the keys of the rows. */
  lemma {:induction false} GroupMaxKeys(rows: seq<Observation>)
    ensures GroupMax(rows).Keys == set i | 0 <= i < |rows| :: KeyOf(rows[i])
    decreases |rows|
  {
    if rows != [] {
      var init := rows[..|rows| - 1];
      GroupMaxKeys(init);
      assert forall i :: 0 <= i < |init| ==> init[i] == rows[i];
      assert (set i | 0 <= i < |rows| :: KeyOf(rows[i]))
          == (set i | 0 <= i < |init| :: KeyOf(init[i])) + {KeyOf(rows[|rows| - 1])};
    }
  }

  /** Every row's score is at most the grouped maximum of its key. */
  lemma {:induction false} GroupMaxBound(rows: seq<Observation>, i: nat)
    requires i < |rows|
    ensures KeyOf(rows[i]) in GroupMax(rows) && rows[i].score <= GroupMax(rows)[KeyOf(rows[i])]
    decreases |rows|
  {
    var init := rows[..|rows| - 1];
    if i < |init| {
      assert init[i] == rows[i];
      GroupMaxBound(init, i);
    }
  }

  /** The grouped maximum of a key is the score of one of the rows with that key. */
  lemma {:induction false} GroupMaxWitness(rows: seq<Observation>, k: Key) returns (i: nat)
    requires k in GroupMax(rows)
    ensures i < |rows| && KeyOf(rows[i]) == k && rows[i].score == GroupMax(rows)[k]
    decreases |rows|
  {
    var init := rows[..|rows| - 1];
    var m := GroupMax(init);
    var last := rows[|rows| - 1];
    if k == KeyOf(last) && !(k in m && last.score < m[k]) {
      i := |rows| - 1;
    } else {
      i := GroupMaxWitness(init, k);
      assert init[i] == rows[i];
    }
  }

  /** A key with a single row keeps that row's score. */
  lemma GroupMaxSingle(rows: seq<Observation>, i: nat)
    requires i < |rows|
    requires forall j :: 0 <= j < |rows| && KeyOf(rows[j]) == KeyOf(rows[i]) ==> j == i
    ensures KeyOf(rows[i]) in GroupMax(rows) && GroupMax(rows)[KeyOf(rows[i])] == rows[i].score
  {
    GroupMaxBound(rows, i);
    var j := GroupMaxWitness(rows, KeyOf(rows[i]));
  }

  /** The keys of the rows at the given positions. */
  function KeysAt(rows: seq<Observation>, idx: seq<nat>): set<Key> {
    set j | 0 <= j < |idx| && idx[j] < |rows| :: KeyOf(rows[idx[j]])
  }

  /** The two keyed tables split_train_test returns, and the test positions. */
  datatype Split = Split(train: map<Key, real>, test: map<Key, real>, testing: seq<nat>)

  function SplitTrainTest(rows: seq<Observation>, training: seq<nat>): (s: Split)
    requires IsSample(|rows|, training)
    ensures |training| + |s.testing| == |rows|
    ensures |s.train| <= |training| && |s.test| <= |s.testing|
  {
    ComplementMembers(|rows|, training);
    PartitionSizes(|rows|, training);
    var testing := Complement(|rows|, training);
    Split(GroupMax(Select(rows, training)), GroupMax(Select(rows, testing)), testing)
  }

  /**
   * The test positions are the complement of the training positions, and each keyed
   * table has exactly the keys of the rows on its side.
   */
  lemma SplitTrainTestKeys(rows: seq<Observation>, training: seq<nat>)
    requires IsSample(|rows|, training)
    ensures var s := SplitTrainTest(rows, training);
            && s.testing == Complement(|rows|, training)
            && s.train.Keys == KeysAt(rows, training)
            && s.test.Keys == KeysAt(rows, s.testing)
  {
    ComplementMembers(|rows|, training);
    var testing := Complement(|rows|, training);
    var train, test := Select(rows, training), Select(rows, testing);
    GroupMaxKeys(train);
    GroupMaxKeys(test);
    assert KeysAt(rows, training) == set i | 0 <= i < |train| :: KeyOf(train[i]);
    assert KeysAt(rows, testing) == set i | 0 <= i < |test| :: KeyOf(test[i]);
  }

  ghost predicate UniqueKeys(rows: seq<Observation>) {
    forall i, j :: 0 <= i < j < |rows| ==> KeyOf(rows[i]) != KeyOf(rows[j])
  }

  /** With one row per key, the key of row i is not the key of any other listed row. */
  lemma UniqueKeyElsewhere(rows: seq<Observation>, i: nat, idx: seq<nat>)
    requires UniqueKeys(rows) && i < |rows|
    requires forall q :: 0 <= q < |idx| ==> idx[q] != i
    ensures KeyOf(rows[i]) !in KeysAt(rows, idx)
  {
    forall q | 0 <= q < |idx| && idx[q] < |rows| ensures KeyOf(rows[idx[q]]) != KeyOf(rows[i]) {
      var j := idx[q];
      if i < j {
        assert KeyOf(rows[i]) != KeyOf(rows[j]);
      } else {
        assert KeyOf(rows[j]) != KeyOf(rows[i]);
      }
    }
  }

  /** On a score table with one row per key, no key lands on both sides of the split. */
  lemma SplitKeysDisjoint(rows: seq<Observation>, training: seq<nat>)
    requires IsSample(|rows|, training) && UniqueKeys(rows)
    ensures SplitTrainTest(rows, training).train.Keys !! SplitTrainTest(rows, training).test.Keys
  {
    var s := SplitTrainTest(rows, training);
    SplitTrainTestKeys(rows, training);
    ComplementMembers(|rows|, training);
    forall k | k in s.train ensures k !in s.test {
      var p :| 0 <= p < |training| && training[p] < |rows| && KeyOf(rows[training[p]]) == k;
      assert training[p] in training;
      UniqueKeyElsewhere(rows, training[p], s.testing);
    }
  }
}
