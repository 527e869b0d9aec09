/**
 * The progress page (client/src/pages/progress-page.tsx): the mood score used by the
 * thirty-day trend, and the two bar charts that count completions per activity type and
 * moods per mood name. A count table keyed by strings is a map plus the order in which
 * its keys were first set, which is the order `Object.entries` lists non-numeric keys in.
 */
module Progress {
  import opened Wrappers
  import opened Text
  import opened Schema
  import opened Collections

  /** `moodValueMap[mood] || 3` */
  function MoodScore(mood: string): (r: nat)
    ensures 1 <= r <= 5
    ensures mood !in {"happy", "calm", "sad", "anxious"} ==> r == 3
    ensures r == 5 <==> mood == "happy"
    ensures r == 1 <==> mood == "anxious"
  {
    match mood
    case "happy" => 5
    case "calm" => 4
    case "neutral" => 3
    case "sad" => 2
    case "anxious" => 1
    case _ => 3
  }

  /** The sum the trend's `reduce` computes over one day's moods. */
  function ScoreTotal(moods: seq<Mood>): (r: nat)
    ensures |moods| <= r <= 5 * |moods|
  {
    if moods == [] then 0
    else ScoreTotal(moods[..|moods| - 1]) + MoodScore(moods[|moods| - 1].mood)
  }

  function MoodDay(m: Mood): int { m.timestamp.day }

  /** One point of the trend: no score on a day without moods, else the day's average score. */
  function TrendPoint(moods: seq<Mood>, day: int): (r: Option<real>)
    ensures r.None? <==> forall m :: m in moods ==> MoodDay(m) != day
    ensures r.Some? ==> 1.0 <= r.value <= 5.0
    ensures r.Some? ==>
      r.value == ScoreTotal(FilterBy(moods, MoodDay, day)) as real / |FilterBy(moods, MoodDay, day)| as real
  {
    var dayMoods := FilterBy(moods, MoodDay, day);
    if |dayMoods| == 0 then None
    else
      var n := |dayMoods| as real;
      var t := ScoreTotal(dayMoods) as real;
      assert n <= t <= 5.0 * n;
      Some(Mean(t, n))
  }

  /** `total / count`: the value that, taken `count` times, makes up `total`. */
  function Mean(total: real, count: real): (q: real)
    requires count > 0.0
    ensures q * count == total
    ensures count <= total <= 5.0 * count ==> 1.0 <= q <= 5.0
  {
    if count <= total <= 5.0 * count then AverageBounds(total, count); total / count
    else total / count
  }

  lemma AverageBounds(t: real, n: real)
    requires n > 0.0 && n <= t <= 5.0 * n
    ensures 1.0 <= t / n <= 5.0
  {
    var q := t / n;
    assert q * n == t;
    assert (q - 1.0) * n == t - n;
    assert (5.0 - q) * n == 5.0 * n - t;
    assert (q - 1.0) * n >= 0.0 && (5.0 - q) * n >= 0.0;
  }

  /** `prepareMoodTrendData`: the 31 days from 30 days ago to today, oldest first. */
  function MoodTrend(moods: Option<seq<Mood>>, today: int): (r: seq<Option<real>>)
    ensures moods.None? ==> r == []
    ensures moods.Some? ==> |r| == 31
    ensures moods.Some? ==> forall i :: 0 <= i < |r| ==>
      (r[i].None? <==> forall m :: m in moods.value ==> MoodDay(m) != today - 30 + i)
    ensures moods.Some? ==> forall i :: 0 <= i < |r| ==> r[i] == TrendPoint(moods.value, today - 30 + i)
    ensures forall i :: 0 <= i < |r| && r[i].Some? ==> 1.0 <= r[i].value <= 5.0
  {
    if moods.None? then []
    else
      var r := seq(31, i => TrendPoint(moods.value, today - 30 + i));
      assert forall i :: 0 <= i < 31 ==> r[i] == TrendPoint(moods.value, today - 30 + i);
      r
  }

  /** One bar of a chart: its key and its count. */
  datatype Bar = Bar(key: string, count: nat)

  predicate NoDuplicates(s: seq<string>) {
    forall i, j :: 0 <= i < j < |s| ==> s[i] != s[j]
  }

  /** The distinct keys, in the order of their first occurrence. */
  function Dedup(s: seq<string>): (r: seq<string>)
    ensures forall x :: x in r <==> x in s
    ensures NoDuplicates(r)
  {
    if s == [] then []
    else
      var init := s[..|s| - 1];
      var d := Dedup(init);
      assert s == init + [s[|s| - 1]];
      if s[|s| - 1] in d then d else d + [s[|s| - 1]]
  }

  /** A bar per key, each counting how often its key occurs in `m`. */
  function Counted(keys: seq<string>, m: multiset<string>): (r: seq<Bar>)
    ensures |r| == |keys|
  {
    if keys == [] then []
    else Counted(keys[..|keys| - 1], m) + [Bar(keys[|keys| - 1], m[keys[|keys| - 1]])]
  }

  lemma {:induction false} CountedAt(keys: seq<string>, m: multiset<string>)
    ensures forall j :: 0 <= j < |keys| ==> Counted(keys, m)[j] == Bar(keys[j], m[keys[j]])
  {
    if keys != [] {
      var init := keys[..|keys| - 1];
      CountedAt(init, m);
      assert forall j :: 0 <= j < |init| ==> init[j] == keys[j];
    }
  }

  /** The count table a `forEach` over `keys` builds, as bars in first-occurrence order. */
  function Tallied(keys: seq<string>): seq<Bar> {
    Counted(Dedup(keys), multiset(keys))
  }

  /**
   * The table has one bar per distinct key, no key twice, and each bar counts how often its
   * key occurs (at least once).
   */
  lemma TalliedKeys(keys: seq<string>)
    ensures forall j :: 0 <= j < |Tallied(keys)| ==>
      Tallied(keys)[j].key in keys && Tallied(keys)[j].count == multiset(keys)[Tallied(keys)[j].key] >= 1
    ensures forall x :: x in keys ==> exists j :: 0 <= j < |Tallied(keys)| && Tallied(keys)[j].key == x
    ensures forall i, j :: 0 <= i < j < |Tallied(keys)| ==> Tallied(keys)[i].key != Tallied(keys)[j].key
  {
    var d := Dedup(keys);
    var r := Tallied(keys);
    CountedAt(d, multiset(keys));
    assert forall j :: 0 <= j < |r| ==> r[j].key == d[j] && d[j] in d;
    forall x | x in keys ensures exists j :: 0 <= j < |r| && r[j].key == x {
      var j :| 0 <= j < |d| && d[j] == x;
      assert r[j].key == x;
    }
  }

  lemma DedupSnoc(s: seq<string>, x: string)
    ensures Dedup(s + [x]) == if x in Dedup(s) then Dedup(s) else Dedup(s) + [x]
  {
    assert (s + [x])[..|s|] == s;
  }

  /** The sum of the bars' counts. */
  function Total(bars: seq<Bar>): nat {
    if bars == [] then 0 else Total(bars[..|bars| - 1]) + bars[|bars| - 1].count
  }

  lemma TotalAppend(bars: seq<Bar>, b: Bar)
    ensures Total(bars + [b]) == Total(bars) + b.count
  {
    assert (bars + [b])[..|bars|] == bars;
  }

  /** One more occurrence of `x` adds one to the total exactly when `x` has a bar. */
  lemma {:induction false} CountedBump(keys: seq<string>, m: multiset<string>, x: string)
    requires NoDuplicates(keys)
    ensures Total(Counted(keys, m + multiset{x})) == Total(Counted(keys, m)) + if x in keys then 1 else 0
  {
    if keys != [] {
      var init := keys[..|keys| - 1];
      var last := keys[|keys| - 1];
      var m' := m + multiset{x};
      assert keys == init + [last];
      assert NoDuplicates(init) by {
        forall i, j | 0 <= i < j < |init| ensures init[i] != init[j] {
          assert init[i] == keys[i] && init[j] == keys[j];
        }
      }
      assert last !in init by {
        forall i | 0 <= i < |init| ensures init[i] != last {
          assert init[i] == keys[i];
        }
      }
      CountedBump(init, m, x);
      assert Counted(keys, m') == Counted(init, m') + [Bar(last, m'[last])];
      assert Counted(keys, m) == Counted(init, m) + [Bar(last, m[last])];
      TotalAppend(Counted(init, m'), Bar(last, m'[last]));
      TotalAppend(Counted(init, m), Bar(last, m[last]));
      assert m'[last] == m[last] + if last == x then 1 else 0;
    }
  }

  /** Every occurrence is counted once: the bars' counts add up to the number of keys. */
  lemma {:induction false} TalliedTotal(keys: seq<string>)
    ensures Total(Tallied(keys)) == |keys|
  {
    if keys != [] {
      var init := keys[..|keys| - 1];
      var x := keys[|keys| - 1];
      assert keys == init + [x];
      var m := multiset(init);
      assert multiset(keys) == m + multiset{x};
      TalliedTotal(init);
      var d := Dedup(init);
      DedupSnoc(init, x);
      CountedBump(d, m, x);
      if x !in d {
        CountedSnoc(d, m + multiset{x}, x);
        TotalAppend(Counted(d, m + multiset{x}), Bar(x, (m + multiset{x})[x]));
        assert m[x] == 0;
      }
    }
  }

  lemma CountedSnoc(keys: seq<string>, m: multiset<string>, x: string)
    ensures Counted(keys + [x], m) == Counted(keys, m) + [Bar(x, m[x])]
  {
    assert (keys + [x])[..|keys|] == keys;
  }

  /** Bars with the same counts have the same total, whatever their labels. */
  lemma {:induction false} TotalOfSameCounts(a: seq<Bar>, b: seq<Bar>)
    requires |a| == |b| && forall j :: 0 <= j < |a| ==> a[j].count == b[j].count
    ensures Total(a) == Total(b)
  {
    if a != [] {
      TotalOfSameCounts(a[..|a| - 1], b[..|b| - 1]);
    }
  }

  /** `counts` holds, for each key of `prefix` and no other, how often it occurs there. */
  ghost predicate CountsOf(counts: map<string, nat>, prefix: seq<string>) {
    && (forall k :: k in counts <==> k in prefix)
    && (forall k :: k in counts ==> counts[k] == multiset(prefix)[k])
  }

  /** One more occurrence of a key already counted adds one to its count. */
  lemma CountsKnown(counts: map<string, nat>, prefix: seq<string>, k: string)
    requires CountsOf(counts, prefix) && k in counts
    ensures CountsOf(counts[k := counts[k] + 1], prefix + [k])
  {
    var c' := counts[k := counts[k] + 1];
    var m' := multiset(prefix + [k]);
    assert m' == multiset(prefix) + multiset{k};
    forall x ensures x in c' <==> x in prefix + [k] {
      assert x in prefix + [k] <==> x in prefix || x == k;
    }
    forall x | x in c' ensures c'[x] == m'[x] {
      if x != k {
        assert c'[x] == counts[x] && m'[x] == multiset(prefix)[x];
      }
    }
  }

  /** A key seen for the first time gets count 1. */
  lemma CountsNew(counts: map<string, nat>, prefix: seq<string>, k: string)
    requires CountsOf(counts, prefix) && k !in counts
    ensures CountsOf(counts[k := 1], prefix + [k])
  {
    var c' := counts[k := 1];
    var m' := multiset(prefix + [k]);
    assert m' == multiset(prefix) + multiset{k};
    assert multiset(prefix)[k] == 0;
    forall x ensures x in c' <==> x in prefix + [k] {
      assert x in prefix + [k] <==> x in prefix || x == k;
    }
    forall x | x in c' ensures c'[x] == m'[x] {
      if x != k {
        assert c'[x] == counts[x] && m'[x] == multiset(prefix)[x];
      }
    }
  }

  /**
   * The count table the `forEach` loops build: which keys have been set, in order, and the
   * count under each.
   */
  method Tally(keys: seq<string>) returns (order: seq<string>, counts: map<string, nat>)
    ensures order == Dedup(keys)
    ensures forall k :: k in counts <==> k in keys
    ensures forall k :: k in counts ==> counts[k] == multiset(keys)[k]
  {
    order := [];
    counts := map[];
    for i := 0 to |keys|
      invariant order == Dedup(keys[..i])
      invariant CountsOf(counts, keys[..i])
    {
      var k := keys[i];
      assert keys[..i + 1] == keys[..i] + [k];
      DedupSnoc(keys[..i], k);
      if k !in counts {
        CountsNew(counts, keys[..i], k);
        order := order + [k];
        counts := counts[k := 1];
      } else {
        CountsKnown(counts, keys[..i], k);
        counts := counts[k := counts[k] + 1];
      }
    }
    assert keys[..|keys|] == keys;
  }

  /** The bars of a tally, each labelled by `counts`' key order. */
  method Bars(order: seq<string>, counts: map<string, nat>, keys: seq<string>) returns (bars: seq<Bar>)
    requires order == Dedup(keys)
    requires forall k :: k in counts <==> k in keys
    requires forall k :: k in counts ==> counts[k] == multiset(keys)[k]
    ensures bars == Tallied(keys)
  {
    bars := seq(|order|, j requires 0 <= j < |order| => Bar(order[j], counts[order[j]]));
    CountedAt(order, multiset(keys));
  }

  /** `moodDisplayMap[mood] || mood` */
  function MoodDisplay(mood: string): (r: string)
    ensures mood !in {"happy", "calm", "neutral", "sad", "anxious"} ==> r == mood
    ensures r == "" <==> mood == ""
  {
    match mood
    case "happy" => "Happy 😊"
    case "calm" => "Calm 😌"
    case "neutral" => "Neutral 😐"
    case "sad" => "Sad 😔"
    case "anxious" => "Anxious 😰"
    case _ => mood
  }

  function MoodNames(moods: seq<Mood>): (r: seq<string>)
    ensures |r| == |moods| && forall i :: 0 <= i < |moods| ==> r[i] == moods[i].mood
  {
    seq(|moods|, i requires 0 <= i < |moods| => moods[i].mood)
  }

  /** The mood-distribution bars: one per distinct mood, labelled for display. */
  function MoodDistribution(moods: seq<Mood>): (r: seq<Bar>)
    ensures |r| == |Tallied(MoodNames(moods))|
    ensures forall j :: 0 <= j < |r| ==> r[j].count == Tallied(MoodNames(moods))[j].count
    ensures forall j :: 0 <= j < |r| ==> r[j].key == MoodDisplay(Tallied(MoodNames(moods))[j].key)
  {
    var t := Tallied(MoodNames(moods));
    seq(|t|, j requires 0 <= j < |t| => Bar(MoodDisplay(t[j].key), t[j].count))
  }

  /** The distribution counts every mood once. */
  lemma MoodDistributionTotal(moods: seq<Mood>)
    ensures Total(MoodDistribution(moods)) == |moods|
  {
    TalliedTotal(MoodNames(moods));
    TotalOfSameCounts(MoodDistribution(moods), Tallied(MoodNames(moods)));
  }

  /** `prepareMoodDistributionData`: nothing without moods. */
  method PrepareMoodDistribution(moods: Option<seq<Mood>>) returns (r: seq<Bar>)
    ensures moods.None? ==> r == []
    ensures moods.Some? ==> r == MoodDistribution(moods.value) && Total(r) == |moods.value|
  {
    if moods.None? {
      return [];
    }
    var keys := MoodNames(moods.value);
    var order, counts := Tally(keys);
    var t := Bars(order, counts, keys);
    r := seq(|t|, j requires 0 <= j < |t| => Bar(MoodDisplay(t[j].key), t[j].count));
    MoodDistributionTotal(moods.value);
  }

  /**
   * The `reduce` over the catalog: each id maps to the type of the last activity listed with
   * that id.
   */
  function TypeTable(catalog: seq<Activity>): (r: map<int, string>)
    ensures forall i :: 0 <= i < |catalog| ==> catalog[i].id in r
    ensures catalog != [] ==> r[catalog[|catalog| - 1].id] == catalog[|catalog| - 1].activityType
  {
    if catalog == [] then map[]
    else
      var last := catalog[|catalog| - 1];
      TypeTable(catalog[..|catalog| - 1])[last.id := last.activityType]
  }

  /** The table knows exactly the catalog's ids. */
  lemma {:induction false} TypeTableDomain(catalog: seq<Activity>, id: int)
    ensures id in TypeTable(catalog) <==> exists i :: 0 <= i < |catalog| && catalog[i].id == id
  {
    if catalog != [] {
      var init := catalog[..|catalog| - 1];
      TypeTableDomain(init, id);
      if id in TypeTable(init) {
        var i :| 0 <= i < |init| && init[i].id == id;
        assert catalog[i].id == id;
      }
      if exists i :: 0 <= i < |catalog| && catalog[i].id == id {
        var i :| 0 <= i < |catalog| && catalog[i].id == id;
        if i < |init| {
          assert init[i].id == id;
        }
      }
    }
  }

  /** Later entries win: an id maps to the type of the last entry listed with it. */
  lemma {:induction false} TypeTableLastWins(catalog: seq<Activity>, i: nat)
    requires i < |catalog|
    requires forall j :: i < j < |catalog| ==> catalog[j].id != catalog[i].id
    ensures catalog[i].id in TypeTable(catalog)
    ensures TypeTable(catalog)[catalog[i].id] == catalog[i].activityType
  {
    if i < |catalog| - 1 {
      var init := catalog[..|catalog| - 1];
      assert init[i] == catalog[i];
      TypeTableLastWins(init, i);
    }
  }

  /** `activityTypes[ua.activityId] || 'unknown'` */
  function TypeKey(types: map<int, string>, activityId: int): (r: string)
    ensures r != ""
    ensures activityId in types && types[activityId] != "" ==> r == types[activityId]
    ensures activityId !in types || types[activityId] == "" ==> r == "unknown"
  {
    if activityId in types && types[activityId] != "" then types[activityId] else "unknown"
  }

  function ActivityKeys(userActivities: seq<UserActivity>, types: map<int, string>): (r: seq<string>)
    ensures |r| == |userActivities|
    ensures forall i :: 0 <= i < |r| ==> r[i] == TypeKey(types, userActivities[i].activityId)
  {
    seq(|userActivities|, i requires 0 <= i < |userActivities| => TypeKey(types, userActivities[i].activityId))
  }

  /** The activity bars: one per type completed, its first letter uppercased. */
  function ActivityData(userActivities: seq<UserActivity>, catalog: seq<Activity>): (r: seq<Bar>)
    ensures |r| == |Tallied(ActivityKeys(userActivities, TypeTable(catalog)))|
    ensures forall j :: 0 <= j < |r| ==> r[j].count == Tallied(ActivityKeys(userActivities, TypeTable(catalog)))[j].count
    ensures forall j :: 0 <= j < |r| ==> r[j].key == Capitalize(Tallied(ActivityKeys(userActivities, TypeTable(catalog)))[j].key)
  {
    var t := Tallied(ActivityKeys(userActivities, TypeTable(catalog)));
    seq(|t|, j requires 0 <= j < |t| => Bar(Capitalize(t[j].key), t[j].count))
  }

  /** Every completion record is counted once, under its catalog type or under "unknown". */
  lemma ActivityDataTotal(userActivities: seq<UserActivity>, catalog: seq<Activity>)
    ensures Total(ActivityData(userActivities, catalog)) == |userActivities|
  {
    var keys := ActivityKeys(userActivities, TypeTable(catalog));
    TalliedTotal(keys);
    TotalOfSameCounts(ActivityData(userActivities, catalog), Tallied(keys));
  }

  /** `prepareActivityData`: nothing unless both the completions and the catalog have loaded. */
  method PrepareActivityData(userActivities: Option<seq<UserActivity>>, activities: Option<seq<Activity>>)
    returns (r: seq<Bar>)
    ensures userActivities.None? || activities.None? ==> r == []
    ensures userActivities.Some? && activities.Some? ==>
      r == ActivityData(userActivities.value, activities.value) && Total(r) == |userActivities.value|
  {
    if userActivities.None? || activities.None? {
      return [];
    }
    var catalog := activities.value;
    var types: map<int, string> := map[];
    for i := 0 to |catalog|
      invariant types == TypeTable(catalog[..i])
    {
      assert catalog[..i + 1][..i] == catalog[..i];
      types := types[catalog[i].id := catalog[i].activityType];
    }
    assert catalog[..|catalog|] == catalog;
    var keys := ActivityKeys(userActivities.value, types);
    var order, counts := Tally(keys);
    var t := Bars(order, counts, keys);
    r := seq(|t|, j requires 0 <= j < |t| => Bar(Capitalize(t[j].key), t[j].count));
    ActivityDataTotal(userActivities.value, catalog);
  }
}
