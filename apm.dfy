// The APM overlay: key presses and mouse clicks are counted while the game
// window is in the foreground, a timer turns the counts into an
// actions-per-minute figure every 600 ms, and a second timer draws the last
// twenty figures as a chart with a rounded ceiling.
module Apm {
  import opened Wrappers
  import opened Text

  /** The process whose window must be in the foreground for counting. */
  const GameProcess: string := "RelicCardinal.exe"

  /** How many tallies `apm_count` keeps to compute the rate over. */
  const TallyWindow: nat := 5

  /** How many results the counting tick keeps before appending. */
  const ResultKeep: nat := 200

  /** How many results the chart shows. */
  const ChartWidth: nat := 20

  /** One entry of `apm_count_list`: a clock reading and the number of
      actions counted so far. */
  datatype Tally = Tally(time: real, count: int)

  /** One entry of `apm_result_list`: a clock reading and the APM figure as
      the text `str(int(...))` produced. */
  datatype Sample = Sample(time: real, apm: string)

  /** Python's `int(x)` on a number: truncation toward zero. */
  function Truncate(x: real): int {
    if x >= 0.0 then x.Floor else -((-x).Floor)
  }

  /** Truncation moves toward zero by less than one. */
  lemma TruncateTowardZero(x: real)
    ensures x >= 0.0 ==> 0 <= Truncate(x) && Truncate(x) as real <= x < Truncate(x) as real + 1.0
    ensures x < 0.0 ==> Truncate(x) <= 0 && Truncate(x) as real - 1.0 < x <= Truncate(x) as real
  {
  }

  /** The APM between two tallies: the actions between them per second
      times 60, truncated; a zero time span divides by 1 instead. */
  function ApmRate(st: Tally, ed: Tally): int {
    var span := ed.time - st.time;
    Truncate((ed.count - st.count) as real / (if span != 0.0 then span else 1.0) * 60.0)
  }

  /** The rate does not depend on which of two tallies with different clock
      readings is taken as the start. */
  lemma RateSymmetric(a: Tally, b: Tally)
    requires a.time != b.time
    ensures ApmRate(a, b) == ApmRate(b, a)
  {
    NegateBoth((b.count - a.count) as real, b.time - a.time);
  }

  lemma NegateBoth(p: real, q: real)
    requires q != 0.0
    ensures (-p) / (-q) == p / q
  {
    var x := p / q;
    assert x * q == p;
    assert x * (-q) == -p;
  }

  /** The figure computed from two tallies; the program uses `ApmRate` on
      floating-point clock readings, which this model takes as a
      parameter of the tick. */
  type Rate = (Tally, Tally) -> int

  /** Swapping two tallies with different clock readings gives the same
      figure. */
  ghost predicate Symmetric(rate: Rate) {
    forall a: Tally, b: Tally :: a.time != b.time ==> rate(a, b) == rate(b, a)
  }

  lemma ApmRateSymmetric()
    ensures Symmetric(ApmRate)
  {
    forall a: Tally, b: Tally | a.time != b.time
      ensures ApmRate(a, b) == ApmRate(b, a)
    {
      RateSymmetric(a, b);
    }
  }

  /** Counting forward in time never gives a negative APM. */
  lemma RateNonNegative(st: Tally, ed: Tally)
    requires st.time < ed.time && st.count <= ed.count
    ensures ApmRate(st, ed) >= 0
  {
    var q := (ed.count - st.count) as real / (ed.time - st.time);
    assert q >= 0.0;
    assert q * 60.0 >= 0.0;
  }

  /** Python's `data[-n:]`: the last `n` entries, or all of them; since
      `-0` is `0`, `data[-0:]` is the whole list. */
  function LastN<T>(data: seq<T>, n: nat): (r: seq<T>)
    ensures |r| == if n == 0 || |data| < n then |data| else n
  {
    if n == 0 || |data| <= n then data else data[|data| - n..]
  }

  /** `normalize_tuple_list`: the data followed by copies of `fill` when it
      has fewer than `target` entries, otherwise `data[-target:]`. */
  function Normalize<T>(data: seq<T>, target: nat, fill: T): (r: seq<T>)
  {
    if |data| < target then data + seq(target - |data|, _ => fill)
    else LastN(data, target)
  }

  /** A positive target gives exactly `target` entries: a short history
      first, padded at the end, or a long one cut to its most recent
      entries. A target of 0 keeps all the data. */
  lemma NormalizeShape<T>(data: seq<T>, target: nat, fill: T)
    ensures target == 0 ==> Normalize(data, target, fill) == data
    ensures target > 0 ==> |Normalize(data, target, fill)| == target
    ensures |data| < target ==>
              Normalize(data, target, fill)[..|data|] == data
              && forall k :: |data| <= k < target ==> Normalize(data, target, fill)[k] == fill
    ensures 0 < target <= |data| ==>
              forall k :: 0 <= k < target ==> Normalize(data, target, fill)[k] == data[|data| - target + k]
  {
  }

  /** Normalizing twice changes nothing. */
  lemma NormalizeIdempotent<T>(data: seq<T>, target: nat, fill: T)
    ensures Normalize(Normalize(data, target, fill), target, fill) == Normalize(data, target, fill)
  {
    NormalizeShape(data, target, fill);
    if target > 0 {
      var w := Normalize(data, target, fill);
      assert w[|w| - target..] == w;
    }
  }

  // ---------------------------------------------------------------------
  // The counter's state and its operations as functions.

  datatype ApmState = ApmState(
    isCounting: bool,
    keyCount: int,
    mouseCount: int,
    countList: seq<Tally>,
    resultList: seq<Sample>,
    apm: int,
    labelText: string)

  /** The text of the APM label. */
  function ApmLabel(apm: int): string {
    IntToString(apm) + "  APM"
  }

  /** `initialize_count`. */
  function Reset(s: ApmState): ApmState {
    s.(keyCount := 0, mouseCount := 0, countList := [])
  }

  /** The tallies after appending a new one, cut to the last five. */
  function NextTallies(s: ApmState, countTime: real): seq<Tally> {
    LastN(s.countList + [Tally(countTime, s.keyCount + s.mouseCount)], TallyWindow)
  }

  /** The pair of tallies `apm_count` divides: the newest and the fifth
      newest once the list was cut, otherwise the oldest and the newest. */
  function Endpoints(before: seq<Tally>, tallies: seq<Tally>): (Tally, Tally)
    requires tallies != [] && (|before| + 1 > TallyWindow ==> |tallies| == TallyWindow)
  {
    if |before| + 1 > TallyWindow then (tallies[|tallies| - 1], tallies[|tallies| - 5])
    else (tallies[0], tallies[|tallies| - 1])
  }

  /** The figure `apm_count` computes from the tallies it keeps. */
  function WindowRate(before: seq<Tally>, tallies: seq<Tally>, rate: Rate): int
    requires tallies != [] && (|before| + 1 > TallyWindow ==> |tallies| == TallyWindow)
  {
    var pair := Endpoints(before, tallies);
    rate(pair.0, pair.1)
  }

  /** The tally step of `apm_count`: append, cut to five, and divide the
      chosen pair. */
  method Advance(before: seq<Tally>, tally: Tally, rate: Rate) returns (tallies: seq<Tally>, figure: int)
    ensures tallies == LastN(before + [tally], TallyWindow)
    ensures tallies != [] && figure == WindowRate(before, tallies, rate)
  {
    tallies := before + [tally];
    var st, ed;
    if |tallies| > TallyWindow {
      tallies := tallies[|tallies| - TallyWindow..];
      st := tallies[|tallies| - 1];
      ed := tallies[|tallies| - 5];
    } else {
      st := tallies[0];
      ed := tallies[|tallies| - 1];
    }
    figure := rate(st, ed);
  }

  /** `apm_count`: one timer tick at clock readings `thTime` (taken first)
      and `countTime`. */
  function Tick(s: ApmState, thTime: real, countTime: real, rate: Rate): ApmState {
    if s.isCounting then
      var tallies := NextTallies(s, countTime);
      var apm := WindowRate(s.countList, tallies, rate);
      s.(countList := tallies, apm := apm, labelText := ApmLabel(apm),
         resultList := LastN(s.resultList, ResultKeep) + [Sample(thTime, IntToString(apm))])
    else
      s.(resultList := s.resultList + [Sample(thTime, "0")])
  }

  /** The loop of `checking_forwardwindow`, one pass: `foreground` is the
      process owning the active window, None when there is none. */
  function Foreground(s: ApmState, foreground: Option<string>): ApmState {
    match foreground
    case None => s
    case Some(name) =>
      if name == GameProcess then
        if !s.isCounting then Reset(s).(isCounting := true) else s
      else
        if s.isCounting then Reset(s.(isCounting := false)) else s
  }

  /** Counting is on exactly when the game owns the active window, and
      every switch starts from zero counts. */
  lemma ForegroundFollowsGame(s: ApmState, foreground: Option<string>)
    ensures foreground.Some? ==> Foreground(s, foreground).isCounting == (foreground.value == GameProcess)
    ensures foreground.None? ==> Foreground(s, foreground) == s
    ensures Foreground(s, foreground).isCounting != s.isCounting ==>
              Foreground(s, foreground) == Reset(s).(isCounting := !s.isCounting)
    ensures Foreground(s, foreground).isCounting == s.isCounting ==> Foreground(s, foreground) == s
  {
  }

  /** After a counting tick at most five tallies and at most 201 results
      are kept, the newest tally holds the current counts, and the newest
      result is the label's figure. */
  lemma CountingTickBounds(s: ApmState, thTime: real, countTime: real, rate: Rate)
    requires s.isCounting
    ensures var t := Tick(s, thTime, countTime, rate);
            && 1 <= |t.countList| <= TallyWindow
            && t.countList[|t.countList| - 1] == Tally(countTime, s.keyCount + s.mouseCount)
            && |t.resultList| <= ResultKeep + 1
            && t.resultList[|t.resultList| - 1] == Sample(thTime, IntToString(t.apm))
            && t.labelText == ApmLabel(t.apm)
  {
  }

  /** The counting tick keeps the newest results: what it keeps of the old
      list is its last entries, at most 200 of them. */
  lemma CountingTickKeepsRecent(s: ApmState, thTime: real, countTime: real, rate: Rate)
    requires s.isCounting
    ensures var r := Tick(s, thTime, countTime, rate).resultList;
            r[..|r| - 1] == LastN(s.resultList, ResultKeep)
  {
  }

  /** The idle tick only appends a zero figure: nothing trims the result
      list while the game is not in the foreground. */
  lemma IdleTickGrows(s: ApmState, thTime: real, countTime: real, rate: Rate)
    requires !s.isCounting
    ensures Tick(s, thTime, countTime, rate) == s.(resultList := s.resultList + [Sample(thTime, "0")])
    ensures |Tick(s, thTime, countTime, rate).resultList| == |s.resultList| + 1
  {
  }

  /** The figure of a counting tick is the rate between the oldest and the
      newest tally it keeps, when their clock readings differ. */
  lemma TickMeasuresWindow(s: ApmState, thTime: real, countTime: real, rate: Rate)
    requires s.isCounting && Symmetric(rate)
    ensures var w := Tick(s, thTime, countTime, rate).countList;
            w != [] && (w[0].time != w[|w| - 1].time ==>
              Tick(s, thTime, countTime, rate).apm == rate(w[0], w[|w| - 1]))
  {
    var w := NextTallies(s, countTime);
    if |s.countList| + 1 > TallyWindow && w[0].time != w[|w| - 1].time {
      assert rate(w[|w| - 1], w[0]) == rate(w[0], w[|w| - 1]);
    }
  }

  /** With the program's formula, the figure is the APM between the oldest
      and the newest tally kept, whichever order `apm_count` divides
      them in. */
  lemma ApmIsWindowRate(s: ApmState, thTime: real, countTime: real)
    requires s.isCounting
    ensures var w := Tick(s, thTime, countTime, ApmRate).countList;
            w != [] && (w[0].time != w[|w| - 1].time ==>
              Tick(s, thTime, countTime, ApmRate).apm == ApmRate(w[0], w[|w| - 1]))
  {
    ApmRateSymmetric();
    TickMeasuresWindow(s, thTime, countTime, ApmRate);
  }

  /** Every stored figure reads back as a number. */
  predicate SamplesReadable(results: seq<Sample>) {
    forall k :: 0 <= k < |results| ==> ParseInt(results[k].apm).Some?
  }

  lemma TickKeepsReadable(s: ApmState, thTime: real, countTime: real, rate: Rate)
    requires SamplesReadable(s.resultList)
    ensures SamplesReadable(Tick(s, thTime, countTime, rate).resultList)
    ensures s.isCounting ==>
              var r := Tick(s, thTime, countTime, rate).resultList;
              ParseInt(r[|r| - 1].apm) == Some(Tick(s, thTime, countTime, rate).apm)
  {
    if s.isCounting {
      IntRoundTrip(Tick(s, thTime, countTime, rate).apm);
    } else {
      assert ParseInt("0") == Some(0);
    }
  }

  // ---------------------------------------------------------------------
  // The chart.

  /** The number a stored figure reads as. */
  function FigureOf(x: Sample): int
    requires ParseInt(x.apm).Some?
  {
    ParseInt(x.apm).value
  }

  /** The slot `normalize_tuple_list` fills empty positions with. */
  const Blank: Sample := Sample(0.0, "0")

  /** The largest figure, and never less than 0. */
  function Peak(ys: seq<int>): (y: int)
    ensures y >= 0
    ensures forall k :: 0 <= k < |ys| ==> ys[k] <= y
    ensures y == 0 || exists k :: 0 <= k < |ys| && ys[k] == y
  {
    if ys == [] then 0
    else
      var m := Peak(ys[..|ys| - 1]);
      var last := ys[|ys| - 1];
      if last > m then last else m
  }

  /** The chart's vertical range: 100 for one or two digits, the next
      hundred for three digits, 10000 for anything longer. */
  function Ceiling(y: nat): int {
    var digits := |NatToString(y)|;
    if digits == 1 || digits == 2 then 100
    else if digits == 3 then (y / 100 + 1) * 100
    else 10000
  }

  /** Below 10000 the ceiling is a multiple of 100 at least 100 that lies
      above the peak, within one hundred of it once the peak reaches 100;
      from 10000 on the chart is clipped at 10000. */
  lemma CeilingBounds(y: nat)
    ensures y < 10000 ==> y < Ceiling(y) && Ceiling(y) % 100 == 0 && Ceiling(y) >= 100
    ensures 100 <= y < 1000 ==> Ceiling(y) <= y + 100
    ensures y < 100 ==> Ceiling(y) == 100
    ensures y >= 1000 ==> Ceiling(y) == 10000
  {
    NatToStringLength(y, 2);
    NatToStringLength(y, 3);
    assert Pow10(2) == 100 && Pow10(3) == 1000;
  }

  /** What `update_chart` passes to the page: times, figures and ceiling. */
  datatype Chart = Chart(datax: seq<real>, datay: seq<int>, maxy: int)

  /** Padding and cutting keep every figure readable. */
  lemma NormalizeReadable(results: seq<Sample>)
    requires SamplesReadable(results)
    ensures SamplesReadable(Normalize(results, ChartWidth, Blank))
  {
    NormalizeShape(results, ChartWidth, Blank);
    assert ParseInt(Blank.apm) == Some(0);
  }

  /** The chart of a window of results: their times, their figures, and
      the ceiling over the largest figure. */
  function PlotOf(data: seq<Sample>): Chart
    requires SamplesReadable(data)
  {
    var ys := seq(|data|, k requires 0 <= k < |data| => FigureOf(data[k]));
    Chart(seq(|data|, k requires 0 <= k < |data| => data[k].time), ys, Ceiling(Peak(ys)))
  }

  function ChartOf(results: seq<Sample>): Chart
    requires SamplesReadable(results)
  {
    NormalizeReadable(results);
    PlotOf(Normalize(results, ChartWidth, Blank))
  }

  /** The loop of `update_chart` over the window. */
  method Plot(data: seq<Sample>) returns (chart: Chart)
    requires SamplesReadable(data)
    ensures chart == PlotOf(data)
  {
    var datax: seq<real> := [];
    var datay: seq<int> := [];
    var y := 0;
    var n := 0;
    while n < |data|
      invariant 0 <= n <= |data|
      invariant |datax| == n && forall k :: 0 <= k < n ==> datax[k] == data[k].time
      invariant |datay| == n && forall k :: 0 <= k < n ==> datay[k] == FigureOf(data[k])
      invariant y == Peak(datay)
    {
      var value := data[n];
      datax := datax + [value.time];
      var figure := ParseInt(value.apm).value;
      assert (datay + [figure])[..|datay|] == datay;
      datay := datay + [figure];
      y := if y > figure then y else figure;
      n := n + 1;
    }
    assert datax == PlotOf(data).datax;
    assert datay == PlotOf(data).datay;
    chart := Chart(datax, datay, Ceiling(y));
  }

  /** The chart has twenty points, shows the most recent figures, and its
      ceiling lies above every point unless a figure reaches 10000. */
  lemma ChartShowsRecent(results: seq<Sample>)
    requires SamplesReadable(results)
    ensures var c := ChartOf(results);
            && |c.datax| == ChartWidth && |c.datay| == ChartWidth
            && (|results| >= ChartWidth ==>
                  forall k :: 0 <= k < ChartWidth ==> c.datay[k] == FigureOf(results[|results| - ChartWidth + k]))
            && (|results| < ChartWidth ==>
                  forall k :: |results| <= k < ChartWidth ==> c.datay[k] == 0)
            && (Peak(c.datay) < 10000 ==> forall k :: 0 <= k < ChartWidth ==> c.datay[k] < c.maxy)
  {
    NormalizeShape(results, ChartWidth, Blank);
    var c := ChartOf(results);
    assert FigureOf(Blank) == 0;
    CeilingBounds(Peak(c.datay));
  }

  // ---------------------------------------------------------------------
  // The counter as the object the overlay updates.

  class ApmCounter {
    var isCounting: bool
    var keyCount: int
    var mouseCount: int
    var countList: seq<Tally>
    var resultList: seq<Sample>
    var apm: int
    var labelText: string

    function Abs(): ApmState
      reads this
    {
      ApmState(isCounting, keyCount, mouseCount, countList, resultList, apm, labelText)
    }

    ghost predicate Valid()
      reads this
    {
      SamplesReadable(resultList)
    }

    /** The state `apmwindow` sets up. */
    constructor ()
      ensures Valid()
      ensures Abs() == ApmState(false, 0, 0, [], [], 0, ApmLabel(0))
    {
      apm := 0;
      isCounting := false;
      resultList := [];
      keyCount := 0;
      mouseCount := 0;
      countList := [];
      labelText := "0  APM";
    }

    /** `initialize_count`. */
    method InitializeCount()
      modifies this
      ensures Abs() == Reset(old(Abs()))
    {
      keyCount := 0;
      mouseCount := 0;
      countList := [];
    }

    /** `on_keyboard_press`, called on every key release. */
    method OnKeyboardPress()
      modifies this
      ensures Abs() == old(Abs()).(keyCount := old(keyCount) + 1)
    {
      keyCount := keyCount + 1;
    }

    /** `on_mouse_click`: only the press of a button counts. */
    method OnMouseClick(pressed: bool)
      modifies this
      ensures Abs() == if pressed then old(Abs()).(mouseCount := old(mouseCount) + 1) else old(Abs())
    {
      if pressed {
        mouseCount := mouseCount + 1;
      }
    }

    /** One pass of `checking_forwardwindow`. */
    method CheckForeground(foreground: Option<string>)
      modifies this
      ensures Abs() == Foreground(old(Abs()), foreground)
    {
      if foreground.Some? {
        if foreground.value == GameProcess {
          if !isCounting {
            InitializeCount();
            isCounting := true;
          }
        } else {
          if isCounting {
            isCounting := false;
            InitializeCount();
          }
        }
      }
    }

    /** `apm_count`. */
    method ApmCount(thTime: real, countTime: real, rate: Rate)
      requires Valid()
      modifies this
      ensures Valid()
      ensures Abs() == Tick(old(Abs()), thTime, countTime, rate)
    {
      TickKeepsReadable(Abs(), thTime, countTime, rate);
      if isCounting {
        CountingTick(thTime, countTime, rate);
      } else {
        resultList := resultList + [Sample(thTime, "0")];
      }
    }

    /** The counting branch of `apm_count`. */
    method CountingTick(thTime: real, countTime: real, rate: Rate)
      requires isCounting
      modifies this
      ensures Abs() == Tick(old(Abs()), thTime, countTime, rate)
    {
      var results := resultList;
      if |results| > ResultKeep {
        results := results[|results| - ResultKeep..];
      }
      var tallies, figure := Advance(countList, Tally(countTime, keyCount + mouseCount), rate);
      countList, apm, labelText, resultList := tallies, figure, ApmLabel(figure), results + [Sample(thTime, IntToString(figure))];
    }

    /** `update_chart`: the chart when counting, None when the window is
        hidden instead. */
    method UpdateChart() returns (chart: Option<Chart>)
      requires Valid()
      ensures chart == if isCounting then Some(ChartOf(resultList)) else None
    {
      if !isCounting {
        return None;
      }
      var data := Normalize(resultList, ChartWidth, Blank);
      NormalizeReadable(resultList);
      var c := Plot(data);
      chart := Some(c);
    }
  }
}
