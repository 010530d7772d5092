/**
 * The purchasing-behaviour (PB) score of Data/create_df_score.py: per (customer, offer)
 * the offer events are counted, and the three counts are folded into one score.
 */
module Engagement {

  /** The event column of the transcript. */
  datatype EventKind = OfferReceived | OfferViewed | OfferCompleted | Transaction

  /** The per-group sums of the three offer-event dummy columns. */
  datatype Counts = Counts(received: nat, viewed: nat, completed: nat)

  function Plus(a: Counts, b: Counts): Counts {
    Counts(a.received + b.received, a.viewed + b.viewed, a.completed + b.completed)
  }

  /** df[df['event'] != 'transaction']: the offer events, in order. */
  function OfferEvents(events: seq<EventKind>): (offers: seq<EventKind>)
    ensures |offers| <= |events|
    ensures forall i :: 0 <= i < |offers| ==> offers[i] != Transaction
    ensures forall e :: e in offers <==> e in events && e != Transaction
  {
    if events == [] then []
    else
      var init := OfferEvents(events[..|events| - 1]);
      var last := events[|events| - 1];
      assert forall e :: e in events <==> e in events[..|events| - 1] || e == last;
      if last == Transaction then init else init + [last]
  }

  /** The dummy columns of one event: a one in the column of its kind. */
  function Single(e: EventKind): Counts {
    match e
    case OfferReceived => Counts(1, 0, 0)
    case OfferViewed => Counts(0, 1, 0)
    case OfferCompleted => Counts(0, 0, 1)
    case Transaction => Counts(0, 0, 0)
  }

  /**
   * The sums of the dummy columns over one (customer, offer) group: each event adds one
   * to the column of its kind, and a transaction to none.
   */
  function Tally(events: seq<EventKind>): (t: Counts)
    ensures t.received + t.viewed + t.completed <= |events|
  {
    if events == [] then Counts(0, 0, 0)
    else Plus(Tally(events[..|events| - 1]), Single(events[|events| - 1]))
  }

  /** Dropping the transactions first, as clean_data does, does not change the sums. */
  lemma {:induction false} TallyIgnoresTransactions(events: seq<EventKind>)
    ensures Tally(OfferEvents(events)) == Tally(events)
  {
    if events != [] {
      var init, last := events[..|events| - 1], events[|events| - 1];
      TallyIgnoresTransactions(init);
      if last != Transaction {
        var offers := OfferEvents(init) + [last];
        assert offers[..|offers| - 1] == OfferEvents(init);
      }
    }
  }

  /** After the transactions are dropped, every remaining event is counted exactly once. */
  lemma {:induction false} TallyCountsOfferEvents(events: seq<EventKind>)
    ensures var t := Tally(OfferEvents(events));
            t.received + t.viewed + t.completed == |OfferEvents(events)|
  {
    if events != [] {
      var init, last := events[..|events| - 1], events[|events| - 1];
      TallyCountsOfferEvents(init);
      if last != Transaction {
        var offers := OfferEvents(init) + [last];
        assert offers[..|offers| - 1] == OfferEvents(init);
      }
    }
  }

  /** Each sum counts the events of its own kind: received, viewed and completed, in that order. */
  lemma {:induction false} TallyCountsKinds(events: seq<EventKind>)
    ensures Tally(events) == Counts(multiset(events)[OfferReceived],
                                    multiset(events)[OfferViewed],
                                    multiset(events)[OfferCompleted])
  {
    if events != [] {
      var init := events[..|events| - 1];
      TallyCountsKinds(init);
      assert events == init + [events[|events| - 1]];
    }
  }

  /** The sums do not depend on how a group's events are split up: tallying is a fold. */
  lemma {:induction false} TallyConcat(xs: seq<EventKind>, ys: seq<EventKind>)
    ensures Tally(xs + ys) == Plus(Tally(xs), Tally(ys))
    decreases |ys|
  {
    if ys == [] {
      assert xs + ys == xs;
    } else {
      var init, last := ys[..|ys| - 1], ys[|ys| - 1];
      var zs := xs + ys;
      assert zs[..|zs| - 1] == xs + init;
      assert zs[|zs| - 1] == last;
      TallyConcat(xs, init);
      assert Tally(zs) == Plus(Tally(xs + init), Single(last));
    }
  }

  function Min(a: nat, b: nat): nat {
    if a <= b then a else b
  }

  /**
   * PB_score without the rounding to two decimals. Both branches divide by
   * 9 * n_received, so a received count of zero is excluded.
   */
  function PBScore(nReceived: nat, nViewed: nat, nCompleted: nat): (score: real)
    requires nReceived > 0
    ensures score >= 10.0 / 9.0
    ensures nViewed <= nReceived ==> score <= 10.0
  {
    var r, v, c := nReceived as real, nViewed as real, nCompleted as real;
    var numerator := if nCompleted <= nViewed then 10.0 * (r + 3.0 * v + 5.0 * c) else 10.0 * (r + 8.0 * v);
    QuotientBetween(numerator, 9.0 * r, 10.0 / 9.0, 10.0, nViewed <= nReceived);
    numerator / (9.0 * r)
  }

  /** A quotient lies between lo and hi when the numerator lies between lo and hi times the denominator. */
  lemma QuotientBetween(numerator: real, denominator: real, lo: real, hi: real, upper: bool)
    requires denominator > 0.0 && lo * denominator <= numerator
    requires upper ==> numerator <= hi * denominator
    ensures lo <= numerator / denominator
    ensures upper ==> numerator / denominator <= hi
  {
    var q := numerator / denominator;
    assert numerator == q * denominator;
  }

  /** Reference formula: the completed count is capped at the viewed count. */
  function CappedScore(nReceived: nat, nViewed: nat, nCompleted: nat): real
    requires nReceived > 0
  {
    var r := nReceived as real;
    10.0 * (r + 3.0 * (nViewed as real) + 5.0 * (Min(nCompleted, nViewed) as real)) / (9.0 * r)
  }

  lemma PBScoreIsCapped(nReceived: nat, nViewed: nat, nCompleted: nat)
    requires nReceived > 0
    ensures PBScore(nReceived, nViewed, nCompleted) == CappedScore(nReceived, nViewed, nCompleted)
    ensures nCompleted > nViewed ==> PBScore(nReceived, nViewed, nCompleted) == PBScore(nReceived, nViewed, nViewed)
  {
  }

  lemma DivideMonotone(a: real, b: real, d: real)
    requires d > 0.0 && a <= b
    ensures a / d <= b / d
  {
  }

  /** More views or more completions never lower the score. */
  lemma PBScoreMonotone(nReceived: nat, v1: nat, c1: nat, v2: nat, c2: nat)
    requires nReceived > 0 && v1 <= v2 && c1 <= c2
    ensures PBScore(nReceived, v1, c1) <= PBScore(nReceived, v2, c2)
  {
    PBScoreIsCapped(nReceived, v1, c1);
    PBScoreIsCapped(nReceived, v2, c2);
    var r := nReceived as real;
    DivideMonotone(10.0 * (r + 3.0 * (v1 as real) + 5.0 * (Min(c1, v1) as real)),
                   10.0 * (r + 3.0 * (v2 as real) + 5.0 * (Min(c2, v2) as real)), 9.0 * r);
  }

  /** The score of one group of events, as the list comprehension over the grouped sums computes it. */
  function GroupScore(events: seq<EventKind>): (score: real)
    requires Tally(events).received > 0
    ensures score >= 10.0 / 9.0
  {
    var t := Tally(events);
    PBScore(t.received, t.viewed, t.completed)
  }
}
