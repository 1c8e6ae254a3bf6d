/**
 * The mood tracker's rolling seven-day history.
 *
 * A history is a list of at most seven day entries. Selecting an emotion
 * (by hand, or as the outcome of a capture's analysis) either overwrites the
 * metrics of the entry whose weekday label is today's, or appends a new entry
 * for today and drops the oldest entry by position once there are more than
 * seven. The pure functions below specify that update, the initial history and
 * the catalog lookup; the class `Tracker` holds the view's state and changes
 * it step by step, proved against those functions.
 *
 * `moodScore` is kept in integer tenths (4.8 is 48): the tracker only copies
 * scores, it never computes with them.
 */
module MoodTracker {

  datatype Option<T> = None | Some(value: T)

  /** The most entries a history keeps. */
  const Capacity: nat := 7

  /** The weekday labels, in the order the initial history lists them. */
  const Days: seq<string> := ["Mon", "Tue", "Wed", "Thu", "Fri", "Sat", "Sun"]

  /** The numeric projection of one emotion. */
  datatype MoodValues = MoodValues(anxiety: int, depression: int, moodScore: int)

  /** One row of the emotion catalog. */
  datatype Emotion = Emotion(mood: string, emoji: string, values: MoodValues)

  /** One day's metrics in the history. */
  datatype MoodEntry = MoodEntry(day: string, moodScore: int, anxiety: int, depression: int)

  /** The fixed emotion catalog, in the order the mood picker shows it. */
  const Catalog: seq<Emotion> := [
    Emotion("Happy", "\U{1F60A}", MoodValues(18, 10, 48)),
    Emotion("Sad", "\U{1F614}", MoodValues(48, 62, 20)),
    Emotion("Angry", "\U{1F621}", MoodValues(55, 40, 26)),
    Emotion("Anxious", "\U{1F61F}", MoodValues(72, 45, 19)),
    Emotion("Calm", "\U{1F60C}", MoodValues(12, 8, 50)),
    Emotion("Neutral", "\U{1F610}", MoodValues(32, 28, 35))
  ]

  // ---------------------------------------------------------------------------
  // Catalog lookup
  // ---------------------------------------------------------------------------

  /** The moods of a list of emotions are pairwise distinct. */
  ghost predicate DistinctMoods(c: seq<Emotion>)
  {
    forall i, j :: 0 <= i < j < |c| ==> c[i].mood != c[j].mood
  }

  /**
   * The first emotion of `c` whose mood is `name`, or None when there is
   * none (a lookup with `find`).
   */
  function FindEmotion(c: seq<Emotion>, name: string): (r: Option<Emotion>)
    ensures r.None? <==> forall k :: 0 <= k < |c| ==> c[k].mood != name
    ensures r.Some? ==> exists i :: 0 <= i < |c| && c[i] == r.value && c[i].mood == name
                                    && forall k :: 0 <= k < i ==> c[k].mood != name
  {
    if |c| == 0 then None
    else if c[0].mood == name then Some(c[0])
    else
      var r := FindEmotion(c[1..], name);
      assert r.Some? ==> exists i :: 0 <= i < |c| && c[i] == r.value && c[i].mood == name
                                      && forall k :: 0 <= k < i ==> c[k].mood != name by {
        if r.Some? {
          var i :| 0 <= i < |c| - 1 && c[1..][i] == r.value && c[1..][i].mood == name
                   && forall k :: 0 <= k < i ==> c[1..][k].mood != name;
          assert c[i + 1] == r.value;
          forall k | 0 <= k < i + 1 ensures c[k].mood != name {
            if k > 0 { assert c[k] == c[1..][k - 1]; }
          }
        }
      }
      r
  }

  /** In a list with distinct moods, looking up an entry's mood yields that entry. */
  lemma {:induction false} FindEmotionExact(c: seq<Emotion>, i: nat)
    requires DistinctMoods(c) && i < |c|
    ensures FindEmotion(c, c[i].mood) == Some(c[i])
  {
    var r := FindEmotion(c, c[i].mood);
    var j :| 0 <= j < |c| && c[j] == r.value && c[j].mood == c[i].mood
             && forall k :: 0 <= k < j ==> c[k].mood != c[i].mood;
    assert j == i;
  }

  /** The catalog's moods, in catalog order. */
  const Moods: seq<string> := ["Happy", "Sad", "Angry", "Anxious", "Calm", "Neutral"]

  /** The catalog has six emotions, whose moods are `Moods` and pairwise distinct. */
  lemma CatalogShape()
    ensures |Catalog| == |Moods| == 6
    ensures forall k :: 0 <= k < |Catalog| ==> Catalog[k].mood == Moods[k]
    ensures DistinctMoods(Catalog)
  {
    assert Catalog[0].mood == Moods[0] && Catalog[1].mood == Moods[1] && Catalog[2].mood == Moods[2];
    assert Catalog[3].mood == Moods[3] && Catalog[4].mood == Moods[4] && Catalog[5].mood == Moods[5];
    assert Moods[0][1] == 'a' && Moods[1][1] == 'a' && Moods[2][1] == 'n';
    assert Moods[3][1] == 'n' && Moods[4][1] == 'a' && Moods[5][1] == 'e';
    assert Moods[0][0] == 'H' && Moods[1][0] == 'S' && Moods[2][0] == 'A';
    assert Moods[3][0] == 'A' && Moods[4][0] == 'C' && Moods[5][0] == 'N';
    assert |Moods[2]| == 5 && |Moods[3]| == 7;
  }

  /**
   * Looking up each catalog mood yields exactly its row, and a label outside
   * the catalog yields nothing.
   */
  lemma CatalogLookup(name: string)
    ensures forall i :: 0 <= i < |Catalog| ==> FindEmotion(Catalog, Catalog[i].mood) == Some(Catalog[i])
    ensures FindEmotion(Catalog, name).None? <==> name !in Moods
  {
    CatalogShape();
    forall i | 0 <= i < |Catalog|
      ensures FindEmotion(Catalog, Catalog[i].mood) == Some(Catalog[i])
    {
      FindEmotionExact(Catalog, i);
    }
    if name in Moods {
      var k :| 0 <= k < |Moods| && Moods[k] == name;
      assert Catalog[k].mood == name;
    }
  }

  // ---------------------------------------------------------------------------
  // The history update
  // ---------------------------------------------------------------------------

  /** `i` is the first position of `h` whose day is `day`. */
  ghost predicate IsFirstDay(h: seq<MoodEntry>, day: string, i: int)
  {
    0 <= i < |h| && h[i].day == day && forall k :: 0 <= k < i ==> h[k].day != day
  }

  /** No entry of `h` is labelled `day`. */
  ghost predicate Absent(h: seq<MoodEntry>, day: string)
  {
    forall k :: 0 <= k < |h| ==> h[k].day != day
  }

  /** The position of the first entry labelled `day`, or -1 (a `findIndex`). */
  function FindIndex(h: seq<MoodEntry>, day: string): (i: int)
    ensures i == -1 <==> Absent(h, day)
    ensures i != -1 ==> IsFirstDay(h, day, i)
  {
    if |h| == 0 then -1
    else if h[0].day == day then 0
    else
      var j := FindIndex(h[1..], day);
      assert forall k :: 1 <= k < |h| ==> h[k] == h[1..][k - 1];
      if j == -1 then -1 else j + 1
  }

  /** The entry a new observation of `v` for `day` appends. */
  function NewEntry(day: string, v: MoodValues): MoodEntry
  {
    MoodEntry(day, v.moodScore, v.anxiety, v.depression)
  }

  /**
   * The history after observing `v` on weekday `today`: the first entry for
   * today takes the observation's metrics where it stands, or else a new entry
   * for today is appended and, past the capacity, the entry at position 0 is
   * dropped.
   */
  function ApplyEmotion(h: seq<MoodEntry>, today: string, v: MoodValues): (r: seq<MoodEntry>)
    ensures |r| > 0
    ensures |h| <= Capacity ==> |r| <= Capacity
    // replace branch: only the first entry for today changes, and only its metrics
    ensures forall i :: IsFirstDay(h, today, i) ==>
              && |r| == |h|
              && r[i] == NewEntry(h[i].day, v)
              && forall k :: 0 <= k < |h| && k != i ==> r[k] == h[k]
    // append branch: today's entry comes last, after the kept entries in order
    ensures Absent(h, today) ==>
              && r[|r| - 1] == NewEntry(today, v)
              && r[..|r| - 1] == if |h| < Capacity then h else h[1..]
  {
    var todayIndex := FindIndex(h, today);
    if todayIndex != -1 then
      h[todayIndex := h[todayIndex].(moodScore := v.moodScore, anxiety := v.anxiety, depression := v.depression)]
    else
      var pushed := h + [NewEntry(today, v)];
      if |pushed| > Capacity then pushed[1..] else pushed
  }

  /** Observing the same values twice on the same day is the same as observing them once. */
  lemma {:induction false} ApplyEmotionIdempotent(h: seq<MoodEntry>, today: string, v: MoodValues)
    ensures ApplyEmotion(ApplyEmotion(h, today, v), today, v) == ApplyEmotion(h, today, v)
  {
    var once := ApplyEmotion(h, today, v);
    var i := FindIndex(h, today);
    var j: int;
    if i != -1 {
      assert IsFirstDay(once, today, i);
      j := i;
    } else {
      var last := |once| - 1;
      assert once[..last] == if |h| < Capacity then h else h[1..];
      forall k | 0 <= k < last ensures once[k].day != today {
        assert once[k] == once[..last][k];
      }
      assert IsFirstDay(once, today, last);
      j := last;
    }
    assert once[j] == NewEntry(today, v);
    assert FindIndex(once, today) == j;
    assert once[j := once[j].(moodScore := v.moodScore, anxiety := v.anxiety, depression := v.depression)] == once;
  }

  /**
   * From a Mon..Sun history, an update on any weekday but Sunday leaves the
   * last entry, the one the results panel reads, as it was.
   */
  lemma WeekdayUpdateKeepsLatest(h: seq<MoodEntry>, today: string, v: MoodValues)
    requires Labels(h) == Days && today in Days && today != "Sun"
    ensures var r := ApplyEmotion(h, today, v);
            |r| == |h| == 7 && r[6] == h[6]
  {
    var k :| 0 <= k < |Days| && Days[k] == today;
    assert h[k].day == today;
    var i := FindIndex(h, today);
    assert h[6].day == "Sun";
    assert i != 6;
  }

  /**
   * Selecting Happy on a Monday over a history whose Monday entry is
   * (3.0, 20, 20) turns that entry into (4.8, 18, 10) where it stands.
   */
  lemma HappyOnMonday(h: seq<MoodEntry>, i: nat)
    requires i < |h| && h[i] == MoodEntry("Mon", 30, 20, 20)
    requires forall k :: 0 <= k < i ==> h[k].day != "Mon"
    ensures var r := ApplyEmotion(h, "Mon", Catalog[0].values);
            |r| == |h| && r[i] == MoodEntry("Mon", 48, 18, 10)
  {
    assert IsFirstDay(h, "Mon", i);
  }

  /** The day labels of `h`, in order. */
  function Labels(h: seq<MoodEntry>): (ls: seq<string>)
    ensures |ls| == |h| && forall k :: 0 <= k < |h| ==> ls[k] == h[k].day
  {
    if |h| == 0 then [] else [h[0].day] + Labels(h[1..])
  }

  /** No two entries of `h` share a day label. */
  ghost predicate DistinctDays(h: seq<MoodEntry>)
  {
    forall i, j :: 0 <= i < j < |h| ==> h[i].day != h[j].day
  }

  /** An update keeps the labels of a history pairwise distinct. */
  lemma ApplyEmotionKeepsDistinct(h: seq<MoodEntry>, today: string, v: MoodValues)
    requires DistinctDays(h)
    ensures DistinctDays(ApplyEmotion(h, today, v))
  {
    var r := ApplyEmotion(h, today, v);
    var i := FindIndex(h, today);
    if i != -1 {
      assert Labels(r) == Labels(h);
    } else {
      var last := |r| - 1;
      var kept := r[..last];
      assert kept == if |h| < Capacity then h else h[1..];
      assert DistinctDays(kept);
      forall a, b | 0 <= a < b < |r| ensures r[a].day != r[b].day {
        assert r[a] == kept[a];
        if b < last {
          assert r[b] == kept[b];
        } else {
          assert kept[a] in h;
        }
      }
    }
  }

  /** When today's label is present, an update leaves the label sequence as it was. */
  lemma {:induction false} ApplyEmotionKeepsLabels(h: seq<MoodEntry>, today: string, v: MoodValues)
    requires today in Labels(h)
    ensures Labels(ApplyEmotion(h, today, v)) == Labels(h)
  {
    var k :| 0 <= k < |h| && Labels(h)[k] == today;
    assert !Absent(h, today) by { assert h[k].day == today; }
    var i := FindIndex(h, today);
    var r := ApplyEmotion(h, today, v);
    assert IsFirstDay(h, today, i);
    SameDaysSameLabels(r, h);
  }

  /** Histories whose entries carry the same days position by position have the same labels. */
  lemma SameDaysSameLabels(a: seq<MoodEntry>, b: seq<MoodEntry>)
    requires |a| == |b| && forall m :: 0 <= m < |a| ==> a[m].day == b[m].day
    ensures Labels(a) == Labels(b)
  {
    var la, lb := Labels(a), Labels(b);
    assert |la| == |lb| && forall m :: 0 <= m < |la| ==> la[m] == lb[m];
  }

  /** One observation: the weekday it happened on and the values observed. */
  datatype Observation = Observation(today: string, values: MoodValues)

  /** The history after a run of observations, oldest first. */
  function ApplyAll(h: seq<MoodEntry>, obs: seq<Observation>): (r: seq<MoodEntry>)
    decreases |obs|
  {
    if |obs| == 0 then h
    else ApplyAll(ApplyEmotion(h, obs[0].today, obs[0].values), obs[1..])
  }

  /** A run of observations keeps a history within capacity and non-empty. */
  lemma {:induction false} ApplyAllWithinCapacity(h: seq<MoodEntry>, obs: seq<Observation>)
    requires |h| <= Capacity
    ensures |ApplyAll(h, obs)| <= Capacity
    decreases |obs|
    ensures |obs| > 0 ==> |ApplyAll(h, obs)| > 0
  {
    if |obs| > 0 {
      ApplyAllWithinCapacity(ApplyEmotion(h, obs[0].today, obs[0].values), obs[1..]);
    }
  }

  /**
   * From a history labelled Mon..Sun, observations made on those weekdays
   * always overwrite in place: the labels never change and nothing is evicted.
   */
  lemma {:induction false} WeekHistoryKeepsLabels(h: seq<MoodEntry>, obs: seq<Observation>)
    requires Labels(h) == Days
    requires forall k :: 0 <= k < |obs| ==> obs[k].today in Days
    ensures Labels(ApplyAll(h, obs)) == Days
    decreases |obs|
  {
    if |obs| > 0 {
      ApplyEmotionKeepsLabels(h, obs[0].today, obs[0].values);
      WeekHistoryKeepsLabels(ApplyEmotion(h, obs[0].today, obs[0].values), obs[1..]);
    }
  }

  // ---------------------------------------------------------------------------
  // The initial (and reset) history
  // ---------------------------------------------------------------------------

  /** The seven weekday labels are pairwise distinct. */
  lemma DaysDistinct()
    ensures forall i, j :: 0 <= i < j < |Days| ==> Days[i] != Days[j]
  {
    assert Days[0][0] == 'M' && Days[1][0] == 'T' && Days[2][0] == 'W' && Days[3][0] == 'T';
    assert Days[4][0] == 'F' && Days[5][0] == 'S' && Days[6][0] == 'S';
    assert Days[1][1] == 'u' && Days[3][1] == 'h' && Days[5][1] == 'a' && Days[6][1] == 'u';
  }

  /** A value drawn by the random source: a real in [0, 1). */
  type Unit = r: real | 0.0 <= r < 1.0 witness 0.0

  /** The three draws made for one day: score, anxiety, depression, in that order. */
  datatype Draw = Draw(score: Unit, anxiety: Unit, depression: Unit)

  /** `floor(r * n)`: a uniform integer in 0..n-1. */
  function RandomBelow(r: Unit, n: nat): (k: int)
    requires n > 0
    ensures 0 <= k < n
    ensures k as real <= r * n as real < k as real + 1.0
  {
    assert r * n as real < n as real by {
      assert n as real - r * n as real == (1.0 - r) * n as real;
    }
    (r * n as real).Floor
  }

  /** `r * 3 + 2` rounded to one decimal (half up), in tenths. */
  function RandomScore(r: Unit): (tenths: int)
    ensures 20 <= tenths <= 50
    ensures -0.5 <= (r * 3.0 + 2.0) * 10.0 - tenths as real < 0.5
  {
    ((r * 3.0 + 2.0) * 10.0 + 0.5).Floor
  }

  /** The entry generated for `day` from one day's draws. */
  function InitialEntry(day: string, d: Draw): MoodEntry
  {
    MoodEntry(day, RandomScore(d.score), RandomBelow(d.anxiety, 60) + 10, RandomBelow(d.depression, 50) + 5)
  }

  /** An entry's metrics lie in the ranges the generator draws from. */
  ghost predicate InGeneratedRange(e: MoodEntry)
  {
    20 <= e.moodScore <= 50 && 10 <= e.anxiety <= 69 && 5 <= e.depression <= 54
  }

  /** The history for weekdays `days`, drawing from `draws` position by position. */
  function GenerateHistory(days: seq<string>, draws: seq<Draw>): (h: seq<MoodEntry>)
    requires |draws| == |days|
    ensures Labels(h) == days
    ensures forall k :: 0 <= k < |h| ==> InGeneratedRange(h[k])
  {
    if |days| == 0 then []
    else [InitialEntry(days[0], draws[0])] + GenerateHistory(days[1..], draws[1..])
  }

  /**
   * The history at session start and after a reset: seven entries labelled
   * Mon..Sun in order, each with metrics in the generated ranges.
   */
  function InitialHistory(draws: seq<Draw>): (h: seq<MoodEntry>)
    requires |draws| == |Days|
    ensures |h| == Capacity && Labels(h) == Days && DistinctDays(h)
    ensures forall k :: 0 <= k < |h| ==> InGeneratedRange(h[k])
  {
    var h := GenerateHistory(Days, draws);
    DaysDistinct();
    assert forall k :: 0 <= k < |h| ==> h[k].day == Days[k];
    h
  }

  // ---------------------------------------------------------------------------
  // The tracker's state
  // ---------------------------------------------------------------------------

  /** A captured webcam frame, kept only for display. */
  type Image = string

  class Tracker {
    var history: seq<MoodEntry>
    var selectedMood: Option<string>
    var showResults: bool
    var capturedImages: seq<Image>

    /** The history is non-empty, within capacity, and one entry per label. */
    ghost predicate Valid()
      reads this
    {
      0 < |history| <= Capacity && DistinctDays(history)
    }

    /** A fresh session: a generated week, no mood selected, no results, no images. */
    constructor (draws: seq<Draw>)
      requires |draws| == |Days|
      ensures Valid()
      ensures history == InitialHistory(draws)
      ensures selectedMood == None && !showResults && capturedImages == []
    {
      history := InitialHistory(draws);
      selectedMood := None;
      showResults := false;
      capturedImages := [];
    }

    /** The newest entry, which the results panel shows. */
    function LatestData(): (e: MoodEntry)
      reads this
      requires Valid()
      ensures e in history && e == history[|history| - 1]
    {
      history[|history| - 1]
    }

    /** Selects `emo` on weekday `today` and folds its values into the history. */
    method SelectEmoji(emo: Emotion, today: string)
      requires Valid()
      modifies this
      ensures Valid()
      ensures history == ApplyEmotion(old(history), today, emo.values)
      ensures selectedMood == Some(emo.mood)
      ensures showResults == old(showResults) && capturedImages == old(capturedImages)
    {
      ApplyEmotionKeepsDistinct(history, today, emo.values);
      selectedMood := Some(emo.mood);
      var newHistory := history;
      var todayIndex := FindIndex(newHistory, today);
      if todayIndex != -1 {
        newHistory := newHistory[todayIndex := newHistory[todayIndex].(
          moodScore := emo.values.moodScore,
          anxiety := emo.values.anxiety,
          depression := emo.values.depression)];
      } else {
        newHistory := newHistory + [NewEntry(today, emo.values)];
        if |newHistory| > Capacity {
          newHistory := newHistory[1..];
        }
      }
      history := newHistory;
    }

    /**
     * Stores a captured frame first in the image list and applies the mood the
     * analysis detected: a name from the catalog is selected and shows the
     * results, any other name changes nothing else.
     */
    method CaptureAndAnalyze(image: Image, detected: string, today: string)
      requires Valid()
      modifies this
      ensures Valid()
      ensures capturedImages == [image] + old(capturedImages)
      ensures FindEmotion(Catalog, detected).Some? ==>
                && history == ApplyEmotion(old(history), today, FindEmotion(Catalog, detected).value.values)
                && selectedMood == Some(detected)
                && showResults
      ensures FindEmotion(Catalog, detected).None? ==>
                && history == old(history)
                && selectedMood == old(selectedMood)
                && showResults == old(showResults)
    {
      capturedImages := [image] + capturedImages;
      var detectedEmoji := FindEmotion(Catalog, detected);
      if detectedEmoji.Some? {
        SelectEmoji(detectedEmoji.value, today);
        showResults := true;
      }
    }

    /** Hides the results, forgets the images and generates a fresh week. */
    method Reset(draws: seq<Draw>)
      requires |draws| == |Days|
      modifies this
      ensures Valid()
      ensures !showResults && capturedImages == []
      ensures history == InitialHistory(draws)
      ensures selectedMood == old(selectedMood)
    {
      showResults := false;
      capturedImages := [];
      history := InitialHistory(draws);
    }
  }
}
