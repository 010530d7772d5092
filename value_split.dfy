/**
 * split_values: unzips the key/value records of the transcript's "value" column into
 * three aligned columns (offer id, reward, amount). The function appears, identical,
 * in Data/create_df_score.py and Data/process_data.py.
 */
module ValueSplit {

  import opened Wrappers

  /** A JSON value of the transcript: an offer id is text, a reward or an amount a number. */
  datatype Value = Text(text: string) | Number(number: real)

  /** One transcript record: a dictionary from key to value. */
  type Record = map<string, Value>

  /** The three columns produced for a sequence of records; a missing entry is NaN. */
  datatype Columns = Columns(offers: seq<Option<Value>>, rewards: seq<Option<Value>>, amounts: seq<Option<Value>>)

  /** The record's value at key, or missing. */
  function Lookup(rec: Record, key: string): (r: Option<Value>)
    ensures r.Some? <==> key in rec
    ensures r.Some? ==> r.value == rec[key]
  {
    if key in rec then Some(rec[key]) else None
  }

  /** The offer entry: "offer id" takes precedence over "offer_id"; missing if neither is present. */
  function OfferOf(rec: Record): (r: Option<Value>)
    ensures r.Some? <==> "offer id" in rec || "offer_id" in rec
    ensures "offer id" in rec ==> r == Some(rec["offer id"])
    ensures "offer id" !in rec && "offer_id" in rec ==> r == Some(rec["offer_id"])
  {
    match Lookup(rec, "offer id")
    case Some(v) => Some(v)
    case None => Lookup(rec, "offer_id")
  }

  /**
   * The columns the loop is evidently meant to build: one entry per record in each column,
   * including for an empty input (three empty columns).
   */
  function Split(records: seq<Record>): (cols: Columns)
    ensures |cols.offers| == |cols.rewards| == |cols.amounts| == |records|
    ensures forall i :: 0 <= i < |records| ==>
              && cols.offers[i] == OfferOf(records[i])
              && cols.rewards[i] == Lookup(records[i], "reward")
              && cols.amounts[i] == Lookup(records[i], "amount")
    decreases |records|
  {
    if records == [] then Columns([], [], [])
    else
      var init := Split(records[..|records| - 1]);
      var last := records[|records| - 1];
      Columns(init.offers + [OfferOf(last)],
              init.rewards + [Lookup(last, "reward")],
              init.amounts + [Lookup(last, "amount")])
  }

  /** Splitting a concatenation is splitting each part and concatenating the columns. */
  lemma {:induction false} SplitConcat(xs: seq<Record>, ys: seq<Record>)
    ensures var a, b, c := Split(xs), Split(ys), Split(xs + ys);
            c == Columns(a.offers + b.offers, a.rewards + b.rewards, a.amounts + b.amounts)
  {
    var a, b, c := Split(xs), Split(ys), Split(xs + ys);
    assert c.offers == a.offers + b.offers;
    assert c.rewards == a.rewards + b.rewards;
    assert c.amounts == a.amounts + b.amounts;
  }

  /**
   * split_values as written. The three result names are bound only inside the loop
   * body, so an empty input reaches the return with them unbound and Python raises
   * UnboundLocalError: that outcome is None here.
   */
  method SplitValues(allValues: seq<Record>) returns (r: Option<Columns>)
    ensures r.None? <==> |allValues| == 0
    ensures r.Some? ==> r.value == Split(allValues)
  {
    var offers: seq<Option<Value>> := [];
    var rewards: seq<Option<Value>> := [];
    var amounts: seq<Option<Value>> := [];
    var bound := false;   // whether lst_offer, lst_reward and lst_amount have been assigned
    for n := 0 to |allValues|
      invariant bound <==> n > 0
      invariant Columns(offers, rewards, amounts) == Split(allValues[..n])
    {
      var val := allValues[n];
      if "offer id" in val {
        offers := offers + [Some(val["offer id"])];
      } else if "offer_id" in val {
        offers := offers + [Some(val["offer_id"])];
      } else {
        offers := offers + [None];
      }
      if "reward" in val {
        rewards := rewards + [Some(val["reward"])];
      } else {
        rewards := rewards + [None];
      }
      if "amount" in val {
        amounts := amounts + [Some(val["amount"])];
      } else {
        amounts := amounts + [None];
      }
      bound := true;
      assert allValues[..n + 1][..n] == allValues[..n];
    }
    assert allValues[..|allValues|] == allValues;
    if bound {
      r := Some(Columns(offers, rewards, amounts));
    } else {
      r := None;
    }
  }
}
