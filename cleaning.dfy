/**
 * The pure column computations of Data/process_data.py: the offer labels and channel
 * flags of load_data, and the age and income buckets of clean_data (pandas.cut with
 * right=False, then "unknown" for every value outside the bins).
 */
module Cleaning {

  import opened Wrappers
  import opened OfferLabels

  /** load_data builds its label and flag columns for exactly this many portfolio rows. */
  const PortfolioRows: nat := 10

  /** The offer_number column: "offer_" + str(i) for each portfolio row i. */
  function OfferNumbers(): (labels: seq<string>)
    ensures |labels| == PortfolioRows
    ensures forall i :: 0 <= i < PortfolioRows ==> OfferIndex(labels[i]) == Some(i)
  {
    var labels := seq(PortfolioRows, i requires 0 <= i => OfferLabel(i));
    assert forall i :: 0 <= i < PortfolioRows ==> OfferIndex(labels[i]) == Some(i) by {
      forall i | 0 <= i < PortfolioRows ensures OfferIndex(labels[i]) == Some(i) {
        OfferIndexInverts(i);
      }
    }
    labels
  }

  lemma OfferNumbersDistinct()
    ensures forall i, j :: 0 <= i < j < PortfolioRows ==> OfferNumbers()[i] != OfferNumbers()[j]
  {
    var labels := OfferNumbers();
    forall i, j | 0 <= i < j < PortfolioRows ensures labels[i] != labels[j] {
      OfferLabelInjective(i, j);
    }
  }

  /** 1 if the channel is among the offer's channels, else 0. */
  function ChannelFlag(channels: seq<string>, name: string): (flag: int)
    ensures flag == 0 || flag == 1
    ensures flag == 1 <==> name in channels
  {
    if name in channels then 1 else 0
  }

  /**
   * One flag column ("email", "mobile", "social" or "web"): the comprehension reads the
   * channel lists of rows 0 .. 9, so the portfolio needs at least ten rows.
   */
  function ChannelColumn(portfolio: seq<seq<string>>, name: string): (column: seq<int>)
    requires |portfolio| >= PortfolioRows
    ensures |column| == PortfolioRows
    ensures forall i :: 0 <= i < PortfolioRows ==> (column[i] == 1 <==> name in portfolio[i])
    ensures forall i :: 0 <= i < PortfolioRows ==> (column[i] == 0 <==> name !in portfolio[i])
  {
    seq(PortfolioRows, i requires 0 <= i < PortfolioRows => ChannelFlag(portfolio[i], name))
  }

  /** The portfolio columns added by load_data. */
  datatype PortfolioColumns = PortfolioColumns(
    offerNumber: seq<string>, email: seq<int>, mobile: seq<int>, social: seq<int>, web: seq<int>)

  /** Why load_data cannot add its portfolio columns. */
  datatype LoadError =
    | MissingRow      // fewer than ten rows: portfolio.index[i] raises IndexError
    | LengthMismatch  // more than ten rows: a ten-element column does not fit (ValueError)

  /**
   * The five columns load_data adds to the portfolio, each a ten-element list; they fit
   * only a portfolio of exactly ten rows.
   */
  function PortfolioFlags(portfolio: seq<seq<string>>): (r: Result<PortfolioColumns, LoadError>)
    ensures r.Success? <==> |portfolio| == PortfolioRows
    ensures |portfolio| < PortfolioRows ==> r == Failure(MissingRow)
    ensures |portfolio| > PortfolioRows ==> r == Failure(LengthMismatch)
    ensures r.Success? ==>
              && r.value.offerNumber == OfferNumbers()
              && |r.value.email| == |r.value.mobile| == |r.value.social| == |r.value.web| == PortfolioRows
              && forall i :: 0 <= i < PortfolioRows ==>
                   && (r.value.email[i] == 1 <==> "email" in portfolio[i])
                   && (r.value.mobile[i] == 1 <==> "mobile" in portfolio[i])
                   && (r.value.social[i] == 1 <==> "social" in portfolio[i])
                   && (r.value.web[i] == 1 <==> "web" in portfolio[i])
  {
    if |portfolio| < PortfolioRows then Failure(MissingRow)
    else if |portfolio| > PortfolioRows then Failure(LengthMismatch)
    else
      Success(PortfolioColumns(OfferNumbers(), ChannelColumn(portfolio, "email"), ChannelColumn(portfolio, "mobile"),
                               ChannelColumn(portfolio, "social"), ChannelColumn(portfolio, "web")))
  }

  // ---- Bucketing (pandas.cut with right=False) ----

  ghost predicate StrictlyIncreasing(bins: seq<int>) {
    forall i, j :: 0 <= i < j < |bins| ==> bins[i] < bins[j]
  }

  /** x lies in the left-closed, right-open interval number j. */
  ghost predicate InBin(bins: seq<int>, x: real, j: nat) {
    j + 1 < |bins| && bins[j] as real <= x < bins[j + 1] as real
  }

  /** Searches the intervals from number j upwards for the one holding x. */
  function BinFrom(bins: seq<int>, x: real, j: nat): (r: Option<nat>)
    requires StrictlyIncreasing(bins)
    ensures r.Some? ==> j <= r.value && InBin(bins, x, r.value)
    ensures r.None? ==> forall b :: j <= b ==> !InBin(bins, x, b)
    decreases |bins| - j
  {
    if j + 1 >= |bins| then None
    else if bins[j] as real <= x < bins[j + 1] as real then Some(j)
    else BinFrom(bins, x, j + 1)
  }

  /** The number of the interval holding x, if any. */
  function BinOf(bins: seq<int>, x: real): (r: Option<nat>)
    requires StrictlyIncreasing(bins)
    ensures r.Some? ==> InBin(bins, x, r.value)
    ensures r.None? ==> forall b :: !InBin(bins, x, b)
  {
    BinFrom(bins, x, 0)
  }

  /** Strictly increasing bins do not overlap, so the interval holding x is unique. */
  lemma BinUnique(bins: seq<int>, x: real, j: nat)
    requires StrictlyIncreasing(bins) && InBin(bins, x, j)
    ensures BinOf(bins, x) == Some(j)
  {
  }

  /** An x outside [first bin edge, last bin edge) lies in no interval. */
  lemma OutsideAllBins(bins: seq<int>, x: real)
    requires StrictlyIncreasing(bins) && |bins| >= 2
    requires x < bins[0] as real || bins[|bins| - 1] as real <= x
    ensures BinOf(bins, x) == None
  {
  }

  /** An x inside [first bin edge, last bin edge) lies in some interval. */
  lemma {:induction false} InsideSomeBin(bins: seq<int>, x: real, j: nat)
    requires StrictlyIncreasing(bins) && j + 1 < |bins|
    requires bins[j] as real <= x < bins[|bins| - 1] as real
    ensures BinFrom(bins, x, j).Some?
    decreases |bins| - j
  {
    if bins[j + 1] as real <= x {
      InsideSomeBin(bins, x, j + 1);
    }
  }

  const Unknown: string := "unknown"

  /** pandas.cut(..., right=False) followed by fillna("unknown"). */
  function Cut(bins: seq<int>, labels: seq<string>, x: Option<real>): (group: string)
    requires StrictlyIncreasing(bins) && |labels| + 1 == |bins|
    ensures group == Unknown || group in labels
  {
    match x
    case None => Unknown
    case Some(v) =>
      match BinOf(bins, v)
      case Some(j) => labels[j]
      case None => Unknown
  }

  const AgeBins: seq<int> := [10, 20, 30, 40, 50, 60, 70, 80, 90, 100, 105]
  const AgeLabels: seq<string> := ["10s", "20s", "30s", "40s", "50s", "60s", "70s", "80s", "90s", "100s"]
  const IncomeBins: seq<int> := [25000, 40000, 50000, 60000, 70000, 80000, 90000, 100000, 110000, 120000, 1250000]
  const IncomeLabels: seq<string> := ["30K", "40K", "50K", "60K", "70K", "80K", "90K", "100K", "110K", "120K"]

  /** The age sentinel of the profile data for customers who did not give their age. */
  const AgeSentinel: int := 118

  lemma AgeBinsIncreasing()
    ensures StrictlyIncreasing(AgeBins) && |AgeLabels| + 1 == |AgeBins|
    ensures Unknown !in AgeLabels
  {
  }

  lemma IncomeBinsIncreasing()
    ensures StrictlyIncreasing(IncomeBins) && |IncomeLabels| + 1 == |IncomeBins|
    ensures Unknown !in IncomeLabels
  {
  }

  function AgeGroup(age: Option<int>): (group: string)
    ensures group == Unknown || group in AgeLabels
  {
    AgeBinsIncreasing();
    Cut(AgeBins, AgeLabels, match age case Some(a) => Some(a as real) case None => None)
  }

  function IncomeGroup(income: Option<real>): (group: string)
    ensures group == Unknown || group in IncomeLabels
  {
    IncomeBinsIncreasing();
    Cut(IncomeBins, IncomeLabels, income)
  }

  /** Ages 10 + 10j .. 19 + 10j (j = 0..8) fall in decade j: "10s" .. "90s"; 100 .. 104 in "100s". */
  lemma AgeGroupBands(age: int)
    requires 10 <= age < 105
    ensures age < 100 ==> AgeGroup(Some(age)) == AgeLabels[(age - 10) / 10]
    ensures 100 <= age ==> AgeGroup(Some(age)) == "100s"
  {
    AgeBinsIncreasing();
    var j := if age < 100 then (age - 10) / 10 else 9;
    assert AgeBins[j] <= age < AgeBins[j + 1];
    BinUnique(AgeBins, age as real, j);
  }

  /** Every age outside [10, 105), among them the sentinel 118, and a missing age are "unknown". */
  lemma AgeGroupUnknown(age: Option<int>)
    ensures AgeGroup(age) == Unknown <==> age.None? || age.value < 10 || 105 <= age.value
  {
    AgeBinsIncreasing();
    if age.Some? {
      if age.value < 10 || 105 <= age.value {
        OutsideAllBins(AgeBins, age.value as real);
      } else {
        AgeGroupBands(age.value);
      }
    }
  }

  /** Income in [IncomeBins[j], IncomeBins[j + 1]) gets IncomeLabels[j]; outside [25000, 1250000) "unknown". */
  lemma IncomeGroupBands(income: real, j: nat)
    requires j < |IncomeLabels| && IncomeBins[j] as real <= income < IncomeBins[j + 1] as real
    ensures IncomeGroup(Some(income)) == IncomeLabels[j]
  {
    IncomeBinsIncreasing();
    BinUnique(IncomeBins, income, j);
  }

  lemma IncomeGroupUnknown(income: Option<real>)
    ensures IncomeGroup(income) == Unknown <==> income.None? || income.value < 25000.0 || 1250000.0 <= income.value
  {
    IncomeBinsIncreasing();
    if income.Some? {
      var v := income.value;
      if v < 25000.0 || 1250000.0 <= v {
        OutsideAllBins(IncomeBins, v);
      } else {
        InsideSomeBin(IncomeBins, v, 0);
      }
    }
  }

  /** The demographic columns of one merged row that clean_data reads. */
  datatype Row = Row(age: Option<int>, income: Option<real>)

  /** The same row after clean_data: its two group columns, and the age with 118 replaced by missing. */
  datatype CleanRow = CleanRow(age: Option<int>, ageGroup: string, income: Option<real>, incomeGroup: string)

  function CleanRowOf(row: Row): (clean: CleanRow)
    ensures clean.income == row.income
    ensures clean.age == (if row.age == Some(AgeSentinel) then None else row.age)
    ensures clean.ageGroup == AgeGroup(row.age) && clean.incomeGroup == IncomeGroup(row.income)
    ensures clean.ageGroup == Unknown <==> row.age.None? || row.age.value < 10 || 105 <= row.age.value
    ensures clean.incomeGroup == Unknown <==> row.income.None? || row.income.value < 25000.0 || 1250000.0 <= row.income.value
  {
    AgeGroupUnknown(row.age);
    IncomeGroupUnknown(row.income);
    var group := AgeGroup(row.age);   // computed before 118 is replaced
    var age := if row.age == Some(AgeSentinel) then None else row.age;
    CleanRow(age, group, row.income, IncomeGroup(row.income))
  }

  /** A customer with the sentinel age loses the age and is bucketed "unknown". */
  lemma SentinelAgeIsUnknown(row: Row)
    requires row.age == Some(AgeSentinel)
    ensures CleanRowOf(row).age.None? && CleanRowOf(row).ageGroup == Unknown
  {
    AgeGroupUnknown(row.age);
  }

  /** The sentinel age and a missing age fall in the same group: "unknown". */
  lemma SentinelLikeMissing()
    ensures AgeGroup(Some(AgeSentinel)) == AgeGroup(None) == Unknown
  {
    AgeGroupUnknown(Some(AgeSentinel));
    AgeGroupUnknown(None);
  }

  /** clean_data on the whole frame, row by row. */
  function CleanData(rows: seq<Row>): (cleaned: seq<CleanRow>)
    ensures |cleaned| == |rows|
    ensures forall i :: 0 <= i < |rows| ==> cleaned[i] == CleanRowOf(rows[i])
  {
    seq(|rows|, i requires 0 <= i < |rows| => CleanRowOf(rows[i]))
  }
}
