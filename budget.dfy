/** The public budget page (src/pages/Budget.jsx): the effect that narrows a
    year of the budget table to one month and builds the bar chart, and the
    monthly and yearly totals. */
module Budget {
  import opened Records
  import opened Seqs

  /** One bar series of the chart; `name` is its `label`. */
  datatype Dataset = Dataset(name: string, data: seq<int>, backgroundColor: string)

  /** What the chart is given: one label per bar group and the series. */
  datatype ChartData = ChartData(labels: seq<string>, datasets: seq<Dataset>)

  /** The month option that means "every month". */
  const Semua: string := "Semua"

  /** The rows of a year the table shows: all of them under "Semua",
      otherwise exactly those of the chosen month, in order. */
  function MonthFilter(year: seq<BudgetMonth>, bulan: string): (r: seq<BudgetMonth>)
    ensures bulan == Semua ==> r == year
    ensures IsSubsequence(r, year)
    ensures bulan != Semua ==> forall m :: m in r <==> m in year && m.bulan == bulan
    ensures bulan != Semua ==> forall m :: multiset(r)[m] == if m.bulan == bulan then multiset(year)[m] else 0
  {
    if bulan == Semua then
      assert IsSubsequence(year, year) by { SubsequenceRefl(year); }
      year
    else Filter(OfMonth(bulan), year)
  }

  /** `rows.map(f)`: one value per row, in row order. */
  function Column(rows: seq<BudgetMonth>, f: BudgetMonth -> int): (r: seq<int>)
    ensures |r| == |rows|
    ensures forall k :: 0 <= k < |rows| ==> r[k] == f(rows[k])
  {
    if rows == [] then [] else [f(rows[0])] + Column(rows[1..], f)
  }

  /** The chart of a list of rows: the month names as labels and the five
      amount series, each with its label and colour, lined up with the rows. */
  function BuildChart(rows: seq<BudgetMonth>): (c: ChartData)
    ensures |c.labels| == |rows| && |c.datasets| == 5
    ensures forall d :: 0 <= d < 5 ==> |c.datasets[d].data| == |rows|
    ensures forall k :: 0 <= k < |rows| ==>
      && c.labels[k] == rows[k].bulan
      && c.datasets[0].data[k] == rows[k].gajiTunjangan
      && c.datasets[1].data[k] == rows[k].danaLegislasi
      && c.datasets[2].data[k] == rows[k].danaResesKunjungan
      && c.datasets[3].data[k] == rows[k].operasionalStaf
      && c.datasets[4].data[k] == rows[k].biayaBadan
    ensures c.datasets[0].name == "Gaji & Tunjangan" && c.datasets[0].backgroundColor == "rgba(46,83,57,0.8)"
    ensures c.datasets[1].name == "Dana Legislasi" && c.datasets[1].backgroundColor == "rgba(244,180,0,0.8)"
    ensures c.datasets[2].name == "Dana Reses & Kunjungan" && c.datasets[2].backgroundColor == "rgba(220,38,38,0.8)"
    ensures c.datasets[3].name == "Operasional Staf" && c.datasets[3].backgroundColor == "rgba(37,99,235,0.8)"
    ensures c.datasets[4].name == "Biaya Badan" && c.datasets[4].backgroundColor == "rgba(168,85,247,0.8)"
  {
    var labels := seq(|rows|, k requires 0 <= k < |rows| => rows[k].bulan);
    ChartData(labels, [
      Dataset("Gaji & Tunjangan", Column(rows, (m: BudgetMonth) => m.gajiTunjangan), "rgba(46,83,57,0.8)"),
      Dataset("Dana Legislasi", Column(rows, (m: BudgetMonth) => m.danaLegislasi), "rgba(244,180,0,0.8)"),
      Dataset("Dana Reses & Kunjungan", Column(rows, (m: BudgetMonth) => m.danaResesKunjungan), "rgba(220,38,38,0.8)"),
      Dataset("Operasional Staf", Column(rows, (m: BudgetMonth) => m.operasionalStaf), "rgba(37,99,235,0.8)"),
      Dataset("Biaya Badan", Column(rows, (m: BudgetMonth) => m.biayaBadan), "rgba(168,85,247,0.8)")
    ])
  }

  /** The five amounts of one month added up. */
  function MonthTotal(m: BudgetMonth): int {
    m.gajiTunjangan + m.danaLegislasi + m.danaResesKunjungan + m.operasionalStaf + m.biayaBadan
  }

  /** The `reduce` of the totals: the sum of the month totals of `rows`. */
  function Total(rows: seq<BudgetMonth>): (t: int)
    ensures (forall k :: 0 <= k < |rows| ==> MonthTotal(rows[k]) >= 0) ==> t >= 0
  {
    if rows == [] then 0
    else
      assert forall k :: 0 <= k < |rows[1..]| ==> rows[1..][k] == rows[k + 1];
      MonthTotal(rows[0]) + Total(rows[1..])
  }

  /** The total of one month and that of all the other months add up to the
      year's total. */
  lemma {:induction false} TotalSplitsByMonth(year: seq<BudgetMonth>, bulan: string)
    ensures Total(Filter(OfMonth(bulan), year)) + Total(Filter(NotOfMonth(bulan), year)) == Total(year)
  {
    if year != [] {
      TotalSplitsByMonth(year[1..], bulan);
    }
  }

  /** With no negative amount, a month's total never exceeds the year's. */
  lemma MonthTotalAtMostYearTotal(year: seq<BudgetMonth>, bulan: string)
    requires forall k :: 0 <= k < |year| ==> MonthTotal(year[k]) >= 0
    ensures Total(MonthFilter(year, bulan)) <= Total(year)
  {
    if bulan != Semua {
      TotalSplitsByMonth(year, bulan);
      var rest := Filter(NotOfMonth(bulan), year);
      forall k | 0 <= k < |rest| ensures MonthTotal(rest[k]) >= 0 {
        assert rest[k] in year;
      }
    }
  }

  /** `totalTahunan`: the total of the year, 0 for a year the table lacks. */
  function YearTotal(data: map<Year, seq<BudgetMonth>>, tahun: Year): (t: int)
    ensures tahun !in data ==> t == 0
    ensures tahun in data ==> t == Total(data[tahun])
  {
    if tahun in data then Total(data[tahun]) else 0
  }

  class BudgetPage {
    const budgetData: map<Year, seq<BudgetMonth>>
    var tahun: Year
    var bulan: string
    var chartData: ChartData
    var tableData: seq<BudgetMonth>

    /** For a year the table has, the table and chart show that year narrowed
      to the chosen month. */
    ghost predicate Valid()
      reads this
    {
      tahun in budgetData ==>
        tableData == MonthFilter(budgetData[tahun], bulan) && chartData == BuildChart(tableData)
    }

    /** The page after mounting: year "2024", every month, and the effect
      run once on that selection. */
    constructor (data: map<Year, seq<BudgetMonth>>)
      ensures Valid() && budgetData == data && tahun == "2024" && bulan == Semua
      ensures "2024" !in data ==> tableData == [] && chartData == ChartData([], [])
    {
      budgetData := data;
      tahun := "2024";
      bulan := Semua;
      if "2024" in data {
        tableData := data["2024"];
        chartData := BuildChart(data["2024"]);
      } else {
        tableData := [];
        chartData := ChartData([], []);
      }
    }

    /** The effect: a year the table lacks leaves the chart and the rows as
      they were; otherwise they are rebuilt from the year and month. */
    method ApplyFilters()
      modifies this`chartData, this`tableData
      ensures Valid()
      ensures tahun !in budgetData ==> chartData == old(chartData) && tableData == old(tableData)
    {
      if tahun !in budgetData {
        return;
      }
      var filtered := MonthFilter(budgetData[tahun], bulan);
      chartData := BuildChart(filtered);
      tableData := filtered;
    }

    /** Choosing a year, followed by the effect. */
    method SetTahun(value: Year)
      modifies this`tahun, this`chartData, this`tableData
      ensures tahun == value && Valid()
      ensures value !in budgetData ==> chartData == old(chartData) && tableData == old(tableData)
    {
      tahun := value;
      ApplyFilters();
    }

    /** Choosing a month, followed by the effect. */
    method SetBulan(value: string)
      modifies this`bulan, this`chartData, this`tableData
      ensures bulan == value && Valid()
      ensures tahun !in budgetData ==> chartData == old(chartData) && tableData == old(tableData)
    {
      bulan := value;
      ApplyFilters();
    }

    /** `totalBulanan`. */
    function MonthlyTotal(): int
      reads this
    {
      Total(tableData)
    }

    /** `totalTahunan`. */
    function YearlyTotal(): int
      reads this
    {
      YearTotal(budgetData, tahun)
    }

    /** Under "Semua" for a year the table has, the two totals agree; for a
      single month, that month's total and the rest add up to the year's. */
    lemma TotalsAgree()
      requires Valid() && tahun in budgetData
      ensures bulan == Semua ==> MonthlyTotal() == YearlyTotal()
      ensures bulan != Semua ==>
        MonthlyTotal() + Total(Filter(NotOfMonth(bulan), budgetData[tahun])) == YearlyTotal()
    {
      if bulan != Semua {
        TotalSplitsByMonth(budgetData[tahun], bulan);
      }
    }
  }
}
