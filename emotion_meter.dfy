/** The emotion panel: a radar chart over six emotions, one bar per emotion,
    and the dominant emotion highlighted; a placeholder when no vector has
    arrived. `disgusted` is never shown. */
module EmotionMeter {
  import opened Common
  import opened Emotions

  /** The six displayed emotions, in the order the chart and bars list them. */
  const MeterOrder: seq<Emotion> := [Happy, Sad, Angry, Fearful, Surprised, Neutral]

  function DisplayName(k: Emotion): string
  {
    match k
    case Happy => "Happy"
    case Sad => "Sad"
    case Angry => "Angry"
    case Fearful => "Fearful"
    case Disgusted => "Disgusted"
    case Surprised => "Surprised"
    case Neutral => "Neutral"
  }

  datatype Entry = Entry(emotion: Emotion, value: real)

  /** Whether some entry is for emotion k. */
  predicate Lists(es: seq<Entry>, k: Emotion)
  {
    exists i :: 0 <= i < |es| && es[i].emotion == k
  }

  /** The entries the panel lists: one per emotion other than disgusted,
      each carrying that emotion's score, in display order. */
  function Entries(e: EmotionData): (es: seq<Entry>)
    ensures |es| == |MeterOrder|
    ensures forall i, j :: 0 <= i < j < |es| ==> es[i].emotion != es[j].emotion
    ensures forall k :: Lists(es, k) <==> k != Disgusted
    ensures forall i :: 0 <= i < |es| ==> es[i].emotion == MeterOrder[i] && es[i].value == e.Value(es[i].emotion)
  {
    var es := seq(|MeterOrder|, i requires 0 <= i < |MeterOrder| => Entry(MeterOrder[i], e.Value(MeterOrder[i])));
    assert forall k | k != Disgusted :: Lists(es, k) by {
      forall k | k != Disgusted ensures Lists(es, k) {
        var i := match k
          case Happy => 0 case Sad => 1 case Angry => 2 case Fearful => 3
          case Surprised => 4 case _ => 5;
        assert es[i].emotion == k;
      }
    }
    es
  }

  // ---------------------------------------------------------------------
  // Radar chart.

  datatype Indicator = Indicator(name: string, max: real)

  datatype ChartOptions = ChartOptions(indicators: seq<Indicator>, values: seq<real>)

  function ChartOptionsFor(data: Option<EmotionData>): (c: Option<ChartOptions>)
    ensures c.Some? <==> data.Some?
    ensures c.Some? ==>
      && |c.value.indicators| == |c.value.values| == 6
      && (forall i :: 0 <= i < 6 ==> c.value.indicators[i].max == 1.0)
      && (forall i :: 0 <= i < 6 ==> c.value.indicators[i].name == DisplayName(MeterOrder[i]))
      && (forall i :: 0 <= i < 6 ==> c.value.values[i] == data.value.Value(MeterOrder[i]))
  {
    match data
    case None => None
    case Some(e) =>
      var es := Entries(e);
      Some(ChartOptions(
        seq(|es|, i requires 0 <= i < |es| => Indicator(DisplayName(es[i].emotion), 1.0)),
        seq(|es|, i requires 0 <= i < |es| => es[i].value)))
  }

  /** The chart lists happy, sad, angry, fearful, surprised, neutral, and
      never disgusted. */
  lemma ChartOmitsDisgusted(e: EmotionData)
    ensures var c := ChartOptionsFor(Some(e)).value;
            c.values == [e.happy, e.sad, e.angry, e.fearful, e.surprised, e.neutral]
            && forall i :: 0 <= i < 6 ==> c.indicators[i].name != "Disgusted"
  {
    var c := ChartOptionsFor(Some(e)).value;
    assert c.values[4] == e.surprised;
  }

  // ---------------------------------------------------------------------
  // Dominant emotion: `reduce((max, x) => x.value > max.value ? x : max)`.

  /** Position i holds a maximal value, and every earlier position is
      strictly smaller: i is the FIRST maximum of es. */
  predicate IsFirstMax(es: seq<Entry>, i: int)
  {
    && 0 <= i < |es|
    && (forall j :: 0 <= j < |es| ==> es[j].value <= es[i].value)
    && (forall j :: 0 <= j < i ==> es[j].value < es[i].value)
  }

  /** The reduce folded from the left; the result is the position of the
      entry it keeps. */
  function FirstMax(es: seq<Entry>): (i: nat)
    requires |es| > 0
    ensures IsFirstMax(es, i)
  {
    if |es| == 1 then 0
    else
      var m := FirstMax(es[..|es| - 1]);
      if es[|es| - 1].value > es[m].value then |es| - 1 else m
  }

  lemma FirstMaxUnique(es: seq<Entry>, i: int, j: int)
    requires IsFirstMax(es, i) && IsFirstMax(es, j)
    ensures i == j
  {
    assert es[i].value == es[j].value;
  }

  /** The highlighted entry, or none without data. */
  function DominantEntry(data: Option<EmotionData>): (d: Option<Entry>)
    ensures d.Some? <==> data.Some?
    ensures d.Some? ==> d.value.emotion != Disgusted && d.value.emotion in MeterOrder
    ensures d.Some? ==> forall k :: k in MeterOrder ==> data.value.Value(k) <= d.value.value
    ensures d.Some? ==> d.value.value == data.value.Value(d.value.emotion)
  {
    match data
    case None => None
    case Some(e) =>
      var es := Entries(e);
      var i := FirstMax(es);
      assert forall k :: k in MeterOrder ==> e.Value(k) <= es[i].value by {
        forall k | k in MeterOrder ensures e.Value(k) <= es[i].value {
          var j :| 0 <= j < |MeterOrder| && MeterOrder[j] == k;
          assert es[j].value == e.Value(k);
        }
      }
      Some(es[i])
  }

  /** The highlighted entry is the first entry, in display order, that holds
      the largest score. */
  lemma DominantIsFirstMaximum(e: EmotionData, i: int)
    requires IsFirstMax(Entries(e), i)
    ensures DominantEntry(Some(e)).value == Entries(e)[i]
  {
    FirstMaxUnique(Entries(e), i, FirstMax(Entries(e)));
  }

  /** On a tie the earliest emotion in display order wins: with all six
      equal, `Happy` is highlighted. */
  lemma TieGoesToEarliest(e: EmotionData)
    requires e.happy == e.sad == e.angry == e.fearful == e.surprised == e.neutral
    ensures DominantEntry(Some(e)).value.emotion == Happy
  {
    var es := Entries(e);
    assert IsFirstMax(es, 0);
    FirstMaxUnique(es, 0, FirstMax(es));
  }

  /** disgusted plays no part: changing it changes neither the highlighted
      emotion nor the chart. */
  lemma DisgustedIgnored(e: EmotionData, v: real)
    ensures DominantEntry(Some(e.(disgusted := v))) == DominantEntry(Some(e))
    ensures ChartOptionsFor(Some(e.(disgusted := v))) == ChartOptionsFor(Some(e))
  {
    assert Entries(e.(disgusted := v)) == Entries(e);
  }

  // ---------------------------------------------------------------------
  // Bars and percentages.

  /** Math.round: the nearest integer, halves rounded up. */
  function Round(x: real): (r: int)
    ensures (r as real) - 0.5 <= x < (r as real) + 0.5
  {
    (x + 0.5).Floor
  }

  datatype Bar = Bar(emotion: Emotion, widthPercent: real, percentLabel: int)

  function Bars(e: EmotionData): (bs: seq<Bar>)
    ensures |bs| == 6
    ensures forall i :: 0 <= i < 6 ==>
      && bs[i].emotion == MeterOrder[i]
      && bs[i].widthPercent == e.Value(MeterOrder[i]) * 100.0
      && (bs[i].percentLabel as real) - 0.5 <= bs[i].widthPercent < (bs[i].percentLabel as real) + 0.5
  {
    var es := Entries(e);
    seq(|es|, i requires 0 <= i < |es| => Bar(es[i].emotion, es[i].value * 100.0, Round(es[i].value * 100.0)))
  }

  datatype MeterView =
    | Placeholder
    | Meter(dominant: Entry, intensity: int, chart: ChartOptions, bars: seq<Bar>)

  /** What the panel shows. */
  function View(data: Option<EmotionData>): (v: MeterView)
    ensures v.Placeholder? <==> data.None?
    ensures v.Meter? ==> Some(v.dominant) == DominantEntry(data) && Some(v.chart) == ChartOptionsFor(data)
    ensures v.Meter? ==> v.intensity == Round(v.dominant.value * 100.0)
    ensures v.Meter? ==> v.bars == Bars(data.value)
  {
    match data
    case None => Placeholder
    case Some(e) =>
      var d := DominantEntry(data).value;
      Meter(d, Round(d.value * 100.0), ChartOptionsFor(data).value, Bars(e))
  }
}
