/**
  The dashboard's own logic (`components/Dashboard.tsx`): the emotion pie chart (journal entries
  counted per primary emotion, one slice per emotion, coloured from a fixed table with a fallback)
  and the stress forecast tooltip (a High / Moderate / Low status and its colour by thresholds).
*/
module Dashboard {
  import opened Wrappers
  import opened Grouping
  import opened EmotionWheel

  // ---------------------------------------------------------------------------------------------
  // Emotion frequency and pie slices
  // ---------------------------------------------------------------------------------------------

  /** Each journal entry tagged with its primary emotion. */
  function Tagged(journal: seq<JournalEntry>): (r: seq<(string, JournalEntry)>)
    ensures |r| == |journal| && forall i :: 0 <= i < |journal| ==> r[i] == (journal[i].primaryEmotion, journal[i])
  {
    seq(|journal|, i requires 0 <= i < |journal| => (journal[i].primaryEmotion, journal[i]))
  }

  /** `freq` counts the tagged entries `xs` per emotion; `order` lists the emotions as they were added. */
  ghost predicate Counted(freq: map<string, int>, order: seq<string>, xs: seq<(string, JournalEntry)>) {
    && order == FirstAppearance(TagsOf(xs))
    && (forall k :: k in freq <==> k in order)
    && (forall k :: k in freq ==> freq[k] == |Members(xs, k)|)
  }

  /** One count of emotion `k`: a missing count starts from zero. */
  function Increment(freq: map<string, int>, k: string): (r: map<string, int>)
    ensures r.Keys == freq.Keys + {k}
  {
    freq[k := (if k in freq && freq[k] != 0 then freq[k] else 0) + 1]
  }

  lemma CountStep(freq: map<string, int>, order: seq<string>, xs: seq<(string, JournalEntry)>, e: JournalEntry)
    requires Counted(freq, order, xs)
    ensures var k := e.primaryEmotion;
      Counted(Increment(freq, k), if k in freq then order else order + [k], xs + [(k, e)])
  {
    var k := e.primaryEmotion;
    var xs2, freq2 := xs + [(k, e)], Increment(freq, k);
    var order2 := if k in freq then order else order + [k];
    assert TagsOf(xs2) == TagsOf(xs) + [k];
    OrderStep(freq, order, TagsOf(xs), k, freq2);
    FirstAppearanceSame(TagsOf(xs), k);
    MembersNonEmpty(xs, k);
    assert xs2[..|xs2| - 1] == xs;
    forall j | j in freq2
      ensures freq2[j] == |Members(xs2, j)|
    {
      if j != k {
        assert Members(xs2, j) == Members(xs, j);
      } else {
        assert Members(xs2, k) == Members(xs, k) + [e];
      }
    }
    assert Counted(freq2, order2, xs2);
  }

  /** `emotionFrequency`: the `reduce` counting entries per primary emotion into a dictionary. */
  method EmotionFrequency(journal: seq<JournalEntry>) returns (freq: map<string, int>, order: seq<string>)
    ensures Counted(freq, order, Tagged(journal))
  {
    freq, order := map[], [];
    for i := 0 to |journal|
      invariant Counted(freq, order, Tagged(journal[..i]))
    {
      var e := journal[i];
      assert Tagged(journal[..i + 1]) == Tagged(journal[..i]) + [(e.primaryEmotion, e)];
      CountStep(freq, order, Tagged(journal[..i]), e);
      if e.primaryEmotion !in freq {
        order := order + [e.primaryEmotion];
      }
      freq := Increment(freq, e.primaryEmotion);
    }
    assert journal[..|journal|] == journal;
  }

  datatype Slice = Slice(name: string, value: int)

  /** The emotions of the journal, in the order `Object.keys` lists them. */
  function Emotions(journal: seq<JournalEntry>): seq<string> {
    FirstAppearance(TagsOf(Tagged(journal)))
  }

  /** `emotionChartData`: one slice per emotion carrying its number of entries. */
  function EmotionChartData(journal: seq<JournalEntry>): (r: seq<Slice>)
    ensures |r| == |Emotions(journal)|
    ensures forall i :: 0 <= i < |r| ==> r[i] == Slice(Emotions(journal)[i], |Members(Tagged(journal), Emotions(journal)[i])|)
  {
    var xs, ks := Tagged(journal), Emotions(journal);
    seq(|ks|, i requires 0 <= i < |ks| => Slice(ks[i], |Members(xs, ks[i])|))
  }

  /** The slices built from the counted dictionary, emotions in key order. */
  method ComputeEmotionChart(journal: seq<JournalEntry>) returns (slices: seq<Slice>)
    ensures slices == EmotionChartData(journal)
  {
    var freq, order := EmotionFrequency(journal);
    slices := seq(|order|, i requires 0 <= i < |order| && order[i] in freq => Slice(order[i], freq[order[i]]));
  }

  /** The sum of the slices' values. */
  function Total(slices: seq<Slice>): int {
    if slices == [] then 0 else slices[0].value + Total(slices[1..])
  }

  lemma {:induction false} TotalIsTotalSize(xs: seq<(string, JournalEntry)>, ks: seq<string>)
    ensures Total(seq(|ks|, i requires 0 <= i < |ks| => Slice(ks[i], |Members(xs, ks[i])|))) == TotalSize(xs, ks)
  {
    if ks != [] {
      var s := seq(|ks|, i requires 0 <= i < |ks| => Slice(ks[i], |Members(xs, ks[i])|));
      var tail := ks[1..];
      TotalIsTotalSize(xs, tail);
      assert s[1..] == seq(|tail|, i requires 0 <= i < |tail| => Slice(tail[i], |Members(xs, tail[i])|));
    }
  }

  /** Every entry is counted exactly once: the slice values add up to the number of entries. */
  lemma SlicesSumToJournal(journal: seq<JournalEntry>)
    ensures Total(EmotionChartData(journal)) == |journal|
  {
    var xs, ks := Tagged(journal), Emotions(journal);
    TotalIsTotalSize(xs, ks);
    assert EmotionChartData(journal) == seq(|ks|, i requires 0 <= i < |ks| => Slice(ks[i], |Members(xs, ks[i])|));
    GroupsPartition(xs);
  }

  /**
    Exactly one slice per emotion of the journal: the names are distinct, every journal emotion has
    a slice, and each value is at least one.
  */
  lemma OneSlicePerEmotion(journal: seq<JournalEntry>)
    ensures var r := EmotionChartData(journal);
      && (forall i, j :: 0 <= i < j < |r| ==> r[i].name != r[j].name)
      && (forall i :: 0 <= i < |r| ==> r[i].value >= 1)
      && (forall n :: 0 <= n < |journal| ==> exists i :: 0 <= i < |r| && r[i].name == journal[n].primaryEmotion)
  {
    var xs, ks := Tagged(journal), Emotions(journal);
    var r := EmotionChartData(journal);
    assert Distinct(ks);
    forall i | 0 <= i < |r|
      ensures r[i].value >= 1
    {
      FirstAppearanceWithin(TagsOf(xs), i);
      MembersNonEmpty(xs, ks[i]);
    }
    forall n | 0 <= n < |journal|
      ensures exists i :: 0 <= i < |r| && r[i].name == journal[n].primaryEmotion
    {
      FirstAppearanceCovers(TagsOf(xs), n);
      var i :| 0 <= i < |ks| && ks[i] == journal[n].primaryEmotion;
      assert r[i].name == ks[i];
    }
  }

  /** The pie is drawn exactly when the journal has an entry. */
  lemma PieShownIffEntries(journal: seq<JournalEntry>)
    ensures |EmotionChartData(journal)| > 0 <==> |journal| > 0
  {
    var xs := Tagged(journal);
    if |journal| > 0 {
      FirstAppearanceCovers(TagsOf(xs), 0);
    }
  }

  // ---------------------------------------------------------------------------------------------
  // Slice colours
  // ---------------------------------------------------------------------------------------------

  const FallbackColor := "#8884d8"

  /** `EMOTION_COLORS` as written: keyed by capitalised English names. */
  const EmotionColors: map<string, string> := map[
    "Joy" := "#34D399", "Sadness" := "#3B82F6", "Anger" := "#EF4444",
    "Fear" := "#8B5CF6", "Surprise" := "#F59E0B", "Disgust" := "#10B981"]

  /** The slice fill as written: the colour table's entry for the name, or the fallback colour. */
  function SliceColorAsWritten(name: string): (r: string)
    ensures name !in EmotionColors ==> r == FallbackColor
    ensures name in EmotionColors ==> r == EmotionColors[name]
  {
    if name in EmotionColors && EmotionColors[name] != "" then EmotionColors[name] else FallbackColor
  }

  /**
    As written, no entry logged through the emotion wheel gets its colour: the wheel stores the
    lower-case keys, which the table does not hold, so every such slice is drawn in the fallback.
  */
  lemma WheelKeysMissTheTable()
    ensures forall i :: 0 <= i < |StorageKeys| ==> SliceColorAsWritten(StorageKeys[i]) == FallbackColor
  {
    forall i | 0 <= i < |StorageKeys|
      ensures StorageKeys[i] !in EmotionColors
    {
      assert StorageKeys[i][0] in "jsafd";
    }
  }

  /** The table keyed by the keys the wheel stores, with the colours of `EMOTION_COLORS`. */
  const StoredKeyColors: map<string, string> := map[
    "joy" := "#34D399", "sadness" := "#3B82F6", "anger" := "#EF4444",
    "fear" := "#8B5CF6", "surprise" := "#F59E0B", "disgust" := "#10B981"]

  /** The slice colour looked up by stored key, with the same fallback for unknown names. */
  function SliceColor(name: string): (r: string)
    ensures name !in StoredKeyColors ==> r == FallbackColor
  {
    if name in StoredKeyColors then StoredKeyColors[name] else FallbackColor
  }

  /** The capitalised names of `EMOTION_COLORS`, in the order of the wheel's storage keys. */
  const ColorNames := ["Joy", "Sadness", "Anger", "Fear", "Surprise", "Disgust"]

  /**
    Looked up by stored key, each of the wheel's six emotions gets the colour the table lists for
    it, never the fallback, and no two of them share a colour.
  */
  lemma WheelKeysGetTheirColors()
    ensures forall i :: 0 <= i < |StorageKeys| ==>
      SliceColor(StorageKeys[i]) == EmotionColors[ColorNames[i]] && SliceColor(StorageKeys[i]) != FallbackColor
    ensures forall i, j :: 0 <= i < j < |StorageKeys| ==> SliceColor(StorageKeys[i]) != SliceColor(StorageKeys[j])
  {
  }

  /** The fill of each slice of the pie as written: every slice of an emotion from the wheel is drawn in the fallback. */
  function SliceColorsAsWritten(slices: seq<Slice>): (r: seq<string>)
    ensures |r| == |slices|
    ensures forall i :: 0 <= i < |slices| && slices[i].name in StorageKeys ==> r[i] == FallbackColor
    ensures forall i :: 0 <= i < |slices| && slices[i].name in EmotionColors ==> r[i] == EmotionColors[slices[i].name]
  {
    WheelKeysMissTheTable();
    seq(|slices|, i requires 0 <= i < |slices| => SliceColorAsWritten(slices[i].name))
  }

  /**
    The fill of each slice of the pie, looked up by stored key: a slice of an emotion from the wheel
    never gets the fallback, and slices of two different such emotions never share a fill.
  */
  function SliceColors(slices: seq<Slice>): (r: seq<string>)
    ensures |r| == |slices| && forall i :: 0 <= i < |slices| ==> r[i] == SliceColor(slices[i].name)
    ensures forall i :: 0 <= i < |slices| && slices[i].name in StorageKeys ==> r[i] != FallbackColor
    ensures forall i, j ::
      (0 <= i < |slices| && 0 <= j < |slices| && slices[i].name != slices[j].name
       && slices[i].name in StorageKeys && slices[j].name in StorageKeys) ==> r[i] != r[j]
    ensures forall i :: 0 <= i < |slices| && slices[i].name !in StoredKeyColors ==> r[i] == FallbackColor
  {
    WheelKeysGetTheirColors();
    DistinctWheelKeysDistinctColors();
    seq(|slices|, i requires 0 <= i < |slices| => SliceColor(slices[i].name))
  }

  /** Looked up by stored key, two different emotions of the wheel get two different colours. */
  lemma DistinctWheelKeysDistinctColors()
    ensures forall a, b :: a in StorageKeys && b in StorageKeys && a != b ==> SliceColor(a) != SliceColor(b)
  {
    WheelKeysGetTheirColors();
    forall a, b | a in StorageKeys && b in StorageKeys && a != b
      ensures SliceColor(a) != SliceColor(b)
    {
      var i :| 0 <= i < |StorageKeys| && StorageKeys[i] == a;
      var j :| 0 <= j < |StorageKeys| && StorageKeys[j] == b;
      if i < j {
        assert SliceColor(StorageKeys[i]) != SliceColor(StorageKeys[j]);
      } else {
        assert SliceColor(StorageKeys[j]) != SliceColor(StorageKeys[i]);
      }
    }
  }

  /**
    The legend swatch of each slice as written: the colour table's entry with no fallback, so an
    emotion from the wheel has no colour at all.
  */
  function LegendColorsAsWritten(slices: seq<Slice>): (r: seq<Option<string>>)
    ensures |r| == |slices|
    ensures forall i :: 0 <= i < |slices| ==> (r[i].Some? <==> slices[i].name in EmotionColors)
    ensures forall i :: 0 <= i < |slices| && slices[i].name in StorageKeys ==> r[i] == None
  {
    WheelKeysMissTheTable();
    seq(|slices|, i requires 0 <= i < |slices| =>
      if slices[i].name in EmotionColors then Some(EmotionColors[slices[i].name]) else None)
  }

  // ---------------------------------------------------------------------------------------------
  // Forecast tooltip
  // ---------------------------------------------------------------------------------------------

  datatype Status = High | Moderate | Low

  /** The forecast status: High above 70, Moderate above 40, Low otherwise. */
  function StatusOf(value: real): (r: Status)
    ensures r == High <==> value > 70.0
    ensures r == Moderate <==> 40.0 < value <= 70.0
    ensures r == Low <==> value <= 40.0
  {
    if value > 70.0 then High else if value > 40.0 then Moderate else Low
  }

  /** The class colouring the status: red, amber or emerald, by the same thresholds. */
  function StatusColor(value: real): (r: string)
    ensures r == "text-red-400" <==> StatusOf(value) == High
    ensures r == "text-amber-400" <==> StatusOf(value) == Moderate
    ensures r == "text-emerald-400" <==> StatusOf(value) == Low
  {
    if value > 70.0 then "text-red-400" else if value > 40.0 then "text-amber-400" else "text-emerald-400"
  }

  datatype TooltipView = TooltipView(caption: string, value: real, status: Status, color: string)

  /**
    `CustomForecastTooltip`: nothing unless the tooltip is active with a non-empty payload (an
    absent payload is `None`); otherwise the first payload value with its status and colour.
  */
  function ForecastTooltip(active: bool, payload: Option<seq<real>>, caption: string): (r: Option<TooltipView>)
    ensures r.Some? <==> active && payload.Some? && |payload.value| > 0
    ensures r.Some? ==> r.value.value == payload.value[0] && r.value.caption == caption
    ensures r.Some? ==> r.value.status == StatusOf(r.value.value) && r.value.color == StatusColor(r.value.value)
  {
    if active && payload.Some? && |payload.value| > 0 then
      var value := payload.value[0];
      Some(TooltipView(caption, value, StatusOf(value), StatusColor(value)))
    else None
  }
}
