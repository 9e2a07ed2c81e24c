/**
  `StatsService`, its integer parts: the window of runs a period selects, the
  run and success counts, the rounded average duration, and the grouping of
  runs by task type and by model. Costs and the success rate are floating
  point and are not part of this model.
 */
module Stats {
  import opened Wrappers
  import opened RunLogger

  const DayMs: int := 24 * 60 * 60 * 1000
  const WeekMs: int := 7 * 24 * 60 * 60 * 1000
  const MonthMs: int := 30 * 24 * 60 * 60 * 1000

  /** `getStartDate`, with the clock reading `now` given: "day" and "week" have their own offsets, anything else takes 30 days. */
  function StartDate(period: string, now: int): (start: int)
    ensures now - start in {86400000, 604800000, 2592000000}
    ensures now - start == 86400000 <==> period == "day"
    ensures now - start == 604800000 <==> period == "week"
  {
    match period
    case "day" => now - DayMs
    case "week" => now - WeekMs
    case "month" => now - MonthMs
    case _ => now - MonthMs
  }

  /** The runs the repository returns for `createdAt >= start`, in stored order. */
  function InWindow(runs: seq<SavedRun>, start: int): (r: seq<SavedRun>)
    ensures |r| <= |runs|
    ensures forall x :: x in r <==> x in runs && x.record.createdAt >= start
  {
    if runs == [] then []
    else
      var last := runs[|runs| - 1];
      InWindow(runs[..|runs| - 1], start) + (if last.record.createdAt >= start then [last] else [])
  }

  /** `runs.filter((r) => r.success).length`. */
  function SuccessCount(runs: seq<SavedRun>): (n: nat)
    ensures n <= |runs|
    ensures n == 0 <==> forall i :: 0 <= i < |runs| ==> !runs[i].record.success
  {
    if runs == [] then 0
    else SuccessCount(runs[..|runs| - 1]) + (if runs[|runs| - 1].record.success then 1 else 0)
  }

  /** `runs.reduce((sum, r) => sum + r.durationMs, 0)`. */
  function SumDurations(runs: seq<SavedRun>): int {
    if runs == [] then 0 else SumDurations(runs[..|runs| - 1]) + runs[|runs| - 1].record.durationMs
  }

  /** `Math.round(s / c)`: the nearest integer, halves rounded up. */
  function RoundDiv(s: int, c: int): (r: int)
    requires c > 0
    ensures 2 * c * r - c <= 2 * s < 2 * c * r + c
  {
    (2 * s + c) / (2 * c)
  }

  /** The grouping key: a run's task type, or its model. */
  type KeyOf = SavedRun -> string

  function TaskTypeKey(): KeyOf {
    (r: SavedRun) => r.record.taskType
  }

  function ModelKey(): KeyOf {
    (r: SavedRun) => r.record.model
  }

  /** The runs of group `k`, in input order. */
  function Members(runs: seq<SavedRun>, key: KeyOf, k: string): (m: seq<SavedRun>)
    ensures |m| <= |runs|
    ensures forall x :: x in m <==> x in runs && key(x) == k
  {
    if runs == [] then []
    else
      var last := runs[|runs| - 1];
      Members(runs[..|runs| - 1], key, k) + (if key(last) == k then [last] else [])
  }

  /** The group keys in order of first appearance (the order `Object.entries` lists them for non-numeric keys). */
  function DistinctKeys(runs: seq<SavedRun>, key: KeyOf): (ks: seq<string>)
    ensures forall k :: k in ks <==> exists i :: 0 <= i < |runs| && key(runs[i]) == k
    ensures forall i, j :: 0 <= i < j < |ks| ==> ks[i] != ks[j]
  {
    if runs == [] then []
    else
      var ks := DistinctKeys(runs[..|runs| - 1], key);
      var k := key(runs[|runs| - 1]);
      if k in ks then ks else ks + [k]
  }

  /**
    The keys are listed in order of first appearance: the keys of any prefix of
    the runs come first, in the same order, before every key first seen later.
   */
  lemma {:induction false} DistinctKeysPrefix(runs: seq<SavedRun>, key: KeyOf, i: nat)
    requires i <= |runs|
    ensures DistinctKeys(runs[..i], key) <= DistinctKeys(runs, key)
    decreases |runs|
  {
    if i < |runs| {
      var p := runs[..|runs| - 1];
      assert p[..i] == runs[..i];
      DistinctKeysPrefix(p, key, i);
    } else {
      assert runs[..i] == runs;
    }
  }

  /** A key that occurs has a non-empty group. */
  lemma MembersNonEmpty(runs: seq<SavedRun>, key: KeyOf, k: string)
    requires k in DistinctKeys(runs, key)
    ensures |Members(runs, key, k)| > 0
  {
    var i :| 0 <= i < |runs| && key(runs[i]) == k;
    assert runs[i] in Members(runs, key, k);
  }

  /** `TaskTypeStatsDto`. */
  datatype TaskTypeStats = TaskTypeStats(runs: nat, avgDuration: int)

  /** `ModelStatsDto` without its cost. */
  datatype ModelStats = ModelStats(runs: nat)

  /** The summary of one task type: its size and its rounded average duration. */
  function GroupSummary(group: seq<SavedRun>): (s: TaskTypeStats)
    requires |group| > 0
    ensures s.runs == |group|
    ensures 2 * s.runs * s.avgDuration - s.runs <= 2 * SumDurations(group) < 2 * s.runs * s.avgDuration + s.runs
  {
    TaskTypeStats(|group|, RoundDiv(SumDurations(group), |group|))
  }

  /** The sizes of the groups named by `ks`, added up. */
  function SumSizes(ks: seq<string>, runs: seq<SavedRun>, key: KeyOf): nat {
    if ks == [] then 0 else SumSizes(ks[..|ks| - 1], runs, key) + |Members(runs, key, ks[|ks| - 1])|
  }

  /** Adding a run to the input adds one to the group of its key, if that key is named, and nothing else. */
  lemma {:induction false} SumSizesSnoc(ks: seq<string>, runs: seq<SavedRun>, x: SavedRun, key: KeyOf)
    requires forall i, j :: 0 <= i < j < |ks| ==> ks[i] != ks[j]
    ensures SumSizes(ks, runs + [x], key) == SumSizes(ks, runs, key) + (if key(x) in ks then 1 else 0)
  {
    if ks != [] {
      var q := ks[..|ks| - 1];
      var k := ks[|ks| - 1];
      SumSizesSnoc(q, runs, x, key);
      assert (runs + [x])[..|runs + [x]| - 1] == runs;
      assert |Members(runs + [x], key, k)| == |Members(runs, key, k)| + (if key(x) == k then 1 else 0);
      assert key(x) in ks <==> key(x) in q || key(x) == k;
      if key(x) == k {
        assert k !in q by {
          forall i | 0 <= i < |q| ensures q[i] != k {
            assert ks[i] != ks[|ks| - 1];
          }
        }
      }
    }
  }

  /** A key that does not occur has an empty group. */
  lemma NoMembersOfAbsentKey(runs: seq<SavedRun>, key: KeyOf, k: string)
    requires k !in DistinctKeys(runs, key)
    ensures Members(runs, key, k) == []
  {
  }

  /** The groups partition the runs: their sizes add up to the number of runs. */
  lemma {:induction false} GroupsPartition(runs: seq<SavedRun>, key: KeyOf)
    ensures SumSizes(DistinctKeys(runs, key), runs, key) == |runs|
  {
    if runs != [] {
      var p := runs[..|runs| - 1];
      var x := runs[|runs| - 1];
      assert runs == p + [x];
      var ks := DistinctKeys(p, key);
      GroupsPartition(p, key);
      SumSizesSnoc(ks, p, x, key);
      if key(x) !in ks {
        NoMembersOfAbsentKey(p, key, key(x));
        assert SumSizes(ks + [key(x)], runs, key) == SumSizes(ks, runs, key) + |Members(runs, key, key(x))| by {
          assert (ks + [key(x)])[..|ks|] == ks;
        }
      }
    }
  }

  /** The per-task summary `groupByTaskType` returns. */
  function TaskTypeSummary(runs: seq<SavedRun>): (r: map<string, TaskTypeStats>)
    ensures forall k :: k in r <==> exists i :: 0 <= i < |runs| && runs[i].record.taskType == k
  {
    map k | k in DistinctKeys(runs, TaskTypeKey()) ::
      (MembersNonEmpty(runs, TaskTypeKey(), k); GroupSummary(Members(runs, TaskTypeKey(), k)))
  }

  /** The per-model summary `groupByModel` returns, without costs. */
  function ModelSummary(runs: seq<SavedRun>): (r: map<string, ModelStats>)
    ensures forall k :: k in r <==> exists i :: 0 <= i < |runs| && runs[i].record.model == k
  {
    map k | k in DistinctKeys(runs, ModelKey()) :: ModelStats(|Members(runs, ModelKey(), k)|)
  }

  /** The groups of `runs`, built as the first loop of `groupByTaskType`/`groupByModel` builds them. */
  method GroupBy(runs: seq<SavedRun>, key: KeyOf) returns (groups: map<string, seq<SavedRun>>, order: seq<string>)
    ensures order == DistinctKeys(runs, key)
    ensures forall k :: k in groups <==> k in order
    ensures forall k :: k in groups ==> groups[k] == Members(runs, key, k)
  {
    groups, order := map[], [];
    for i := 0 to |runs|
      invariant order == DistinctKeys(runs[..i], key)
      invariant forall k :: k in groups <==> k in order
      invariant forall k :: k in groups ==> groups[k] == Members(runs[..i], key, k)
    {
      assert runs[..i + 1][..i] == runs[..i];
      var k := key(runs[i]);
      if k !in groups {
        groups := groups[k := []];
        order := order + [k];
        NoMembersOfAbsentKey(runs[..i], key, k);
      }
      groups := groups[k := groups[k] + [runs[i]]];
    }
    assert runs[..|runs|] == runs;
  }

  /** The second loop of `groupByTaskType`: one summary per group, keyed as the groups are. */
  method SummariseGroups(groups: map<string, seq<SavedRun>>, order: seq<string>) returns (result: map<string, TaskTypeStats>)
    requires forall k :: k in groups <==> k in order
    requires forall k :: k in groups ==> |groups[k]| > 0
    ensures result == map k | k in groups :: GroupSummary(groups[k])
  {
    result := map[];
    for j := 0 to |order|
      invariant result == map k | k in order[..j] :: GroupSummary(groups[k])
    {
      var k := order[j];
      assert order[..j + 1] == order[..j] + [k];
      result := result[k := GroupSummary(groups[k])];
    }
    assert order[..|order|] == order;
  }

  /** The second loop of `groupByModel`, without costs: one run count per group. */
  method CountGroups(groups: map<string, seq<SavedRun>>, order: seq<string>) returns (result: map<string, ModelStats>)
    requires forall k :: k in groups <==> k in order
    ensures result == map k | k in groups :: ModelStats(|groups[k]|)
  {
    result := map[];
    for j := 0 to |order|
      invariant result == map k | k in order[..j] :: ModelStats(|groups[k]|)
    {
      var k := order[j];
      assert order[..j + 1] == order[..j] + [k];
      result := result[k := ModelStats(|groups[k]|)];
    }
    assert order[..|order|] == order;
  }

  /** `groupByTaskType`: the groups, then one summary per group. */
  method GroupByTaskType(runs: seq<SavedRun>) returns (result: map<string, TaskTypeStats>)
    ensures result == TaskTypeSummary(runs)
  {
    var groups, order := GroupBy(runs, TaskTypeKey());
    SummaryOfGroups(runs, groups);
    result := SummariseGroups(groups, order);
  }

  /** `groupByModel`, without costs: the groups, then one run count per group. */
  method GroupByModel(runs: seq<SavedRun>) returns (result: map<string, ModelStats>)
    ensures result == ModelSummary(runs)
  {
    var groups, order := GroupBy(runs, ModelKey());
    result := CountGroups(groups, order);
    CountsOfGroups(runs, groups);
  }

  /** Summarising the groups `GroupBy` returns gives `TaskTypeSummary`. */
  lemma SummaryOfGroups(runs: seq<SavedRun>, groups: map<string, seq<SavedRun>>)
    requires forall k :: k in groups <==> k in DistinctKeys(runs, TaskTypeKey())
    requires forall k :: k in groups ==> groups[k] == Members(runs, TaskTypeKey(), k)
    ensures forall k :: k in groups ==> |groups[k]| > 0
    ensures (map k | k in groups :: GroupSummary(groups[k])) == TaskTypeSummary(runs)
  {
    forall k | k in groups ensures |groups[k]| > 0 {
      MembersNonEmpty(runs, TaskTypeKey(), k);
    }
  }

  /** Counting the groups `GroupBy` returns gives `ModelSummary`. */
  lemma CountsOfGroups(runs: seq<SavedRun>, groups: map<string, seq<SavedRun>>)
    requires forall k :: k in groups <==> k in DistinctKeys(runs, ModelKey())
    requires forall k :: k in groups ==> groups[k] == Members(runs, ModelKey(), k)
    ensures (map k | k in groups :: ModelStats(|groups[k]|)) == ModelSummary(runs)
  {
  }

  /** The groups of `runs` as a map from key to the runs of that key. */
  function Groups(runs: seq<SavedRun>, key: KeyOf): (g: map<string, seq<SavedRun>>)
    ensures forall k :: k in g <==> exists i :: 0 <= i < |runs| && key(runs[i]) == k
    ensures forall k :: k in g ==> g[k] == Members(runs, key, k)
  {
    map k | k in DistinctKeys(runs, key) :: Members(runs, key, k)
  }

  /** One more run joins the group of its key and no other. */
  lemma MembersSnoc(p: seq<SavedRun>, x: SavedRun, key: KeyOf, k: string)
    ensures Members(p + [x], key, k) == Members(p, key, k) + (if key(x) == k then [x] else [])
  {
    assert (p + [x])[..|p|] == p;
  }

  /** One more run adds its key to the keys, if it is new. */
  lemma DistinctKeysSnoc(p: seq<SavedRun>, x: SavedRun, key: KeyOf, k: string)
    ensures k in DistinctKeys(p + [x], key) <==> k in DistinctKeys(p, key) || k == key(x)
  {
    assert (p + [x])[..|p|] == p;
  }

  /** One more run joins the group of its key, which is created if it is new. */
  lemma GroupsSnoc(p: seq<SavedRun>, x: SavedRun, key: KeyOf)
    ensures var g, k := Groups(p, key), key(x);
      Groups(p + [x], key) == g[k := (if k in g then g[k] else []) + [x]]
  {
    var g, k := Groups(p, key), key(x);
    var g' := Groups(p + [x], key);
    var h := g[k := (if k in g then g[k] else []) + [x]];
    assert g'.Keys == h.Keys by {
      GroupsSnocKeys(p, x, key);
    }
    forall k' | k' in h ensures g'[k'] == h[k'] {
      GroupSnocValue(p, x, key, k');
    }
  }

  /** One more run adds its key to the groups' keys and nothing else. */
  lemma GroupsSnocKeys(p: seq<SavedRun>, x: SavedRun, key: KeyOf)
    ensures Groups(p + [x], key).Keys == Groups(p, key).Keys + {key(x)}
  {
    GroupKeysAreDistinctKeys(p + [x], key);
    GroupKeysAreDistinctKeys(p, key);
    DistinctKeySetSnoc(p, x, key);
  }

  /** The groups are keyed by exactly the distinct keys. */
  lemma GroupKeysAreDistinctKeys(runs: seq<SavedRun>, key: KeyOf)
    ensures Groups(runs, key).Keys == set k | k in DistinctKeys(runs, key)
  {
  }

  /** `DistinctKeysSnoc` for every key at once. */
  lemma DistinctKeySetSnoc(p: seq<SavedRun>, x: SavedRun, key: KeyOf)
    ensures (set k | k in DistinctKeys(p + [x], key)) == (set k | k in DistinctKeys(p, key)) + {key(x)}
  {
    forall k' ensures k' in DistinctKeys(p + [x], key) <==> k' in DistinctKeys(p, key) || k' == key(x) {
      DistinctKeysSnoc(p, x, key, k');
    }
  }

  /** The group of `k` after one more run, in terms of the groups before. */
  lemma GroupSnocValue(p: seq<SavedRun>, x: SavedRun, key: KeyOf, k: string)
    requires k in Groups(p + [x], key)
    ensures var g := Groups(p, key);
      Groups(p + [x], key)[k] == if k == key(x) then (if k in g then g[k] else []) + [x] else g[k]
  {
    MembersSnoc(p, x, key, k);
    DistinctKeysSnoc(p, x, key, k);
    if k !in Groups(p, key) {
      NoMembersOfAbsentKey(p, key, k);
    }
  }

  /**
    The names every JavaScript object inherits from `Object.prototype`. Looked
    up on the empty object `{}` each yields a function (or, for `__proto__`,
    the prototype itself): a truthy value that is not an array.
   */
  const InheritedNames: set<string> := {
    "constructor", "__defineGetter__", "__defineSetter__", "hasOwnProperty",
    "__lookupGetter__", "__lookupSetter__", "isPrototypeOf", "propertyIsEnumerable",
    "toString", "valueOf", "__proto__", "toLocaleString"}

  /**
    The first loop of `groupByTaskType`/`groupByModel` as written, over a plain
    object `groups` that starts as `{}`: a key the object has as its own
    property is an array that grows; a missing key gets a new array; an
    inherited name reads as present (`!groups[k]` is false), so no array is
    made and `push` throws a TypeError whose text names the expression `expr`.
   */
  function GroupsAsWritten(acc: map<string, seq<SavedRun>>, runs: seq<SavedRun>, key: KeyOf, expr: string): (r: Result<map<string, seq<SavedRun>>, string>)
    ensures r.Failure? ==> r.error == expr + ".push is not a function"
    decreases |runs|
  {
    if runs == [] then Success(acc)
    else
      var k := key(runs[0]);
      if k in acc then GroupsAsWritten(acc[k := acc[k] + [runs[0]]], runs[1..], key, expr)
      else if k in InheritedNames then Failure(expr + ".push is not a function")
      else GroupsAsWritten(acc[k := [runs[0]]], runs[1..], key, expr)
  }

  /** Without inherited names among the keys, the loop as written builds exactly `Groups`. */
  lemma {:induction false} AsWrittenGroupsFrom(p: seq<SavedRun>, rest: seq<SavedRun>, key: KeyOf, expr: string)
    requires forall i :: 0 <= i < |rest| ==> key(rest[i]) !in InheritedNames
    ensures GroupsAsWritten(Groups(p, key), rest, key, expr) == Success(Groups(p + rest, key))
    decreases |rest|
  {
    if rest == [] {
      assert p + rest == p;
    } else {
      var x := rest[0];
      assert p + rest == (p + [x]) + rest[1..] by {
        assert rest == [x] + rest[1..];
      }
      var g, k := Groups(p, key), key(x);
      GroupsSnoc(p, x, key);
      assert [] + [x] == [x];
      assert GroupsAsWritten(g, rest, key, expr) == GroupsAsWritten(Groups(p + [x], key), rest[1..], key, expr);
      AsWrittenGroupsFrom(p + [x], rest[1..], key, expr);
    }
  }

  /** Once a run's key is an inherited name the object does not own, the loop as written throws. */
  lemma {:induction false} AsWrittenThrowsFrom(acc: map<string, seq<SavedRun>>, rest: seq<SavedRun>, key: KeyOf, expr: string, j: nat)
    requires forall k :: k in acc ==> k !in InheritedNames
    requires j < |rest| && key(rest[j]) in InheritedNames
    ensures GroupsAsWritten(acc, rest, key, expr) == Failure(expr + ".push is not a function")
    decreases |rest|
  {
    var k := key(rest[0]);
    if j > 0 && k !in InheritedNames {
      var acc' := if k in acc then acc[k := acc[k] + [rest[0]]] else acc[k := [rest[0]]];
      AsWrittenThrowsFrom(acc', rest[1..], key, expr, j - 1);
    }
  }

  /**
    The grouping as written succeeds exactly when no key is an inherited name,
    and then agrees with `Groups`; a single run whose task type is "toString"
    makes it throw, while `TaskTypeSummary` counts that run.
   */
  lemma AsWrittenGrouping(runs: seq<SavedRun>, key: KeyOf, expr: string)
    ensures GroupsAsWritten(map[], runs, key, expr).Success? <==> forall i :: 0 <= i < |runs| ==> key(runs[i]) !in InheritedNames
    ensures GroupsAsWritten(map[], runs, key, expr).Success? ==> GroupsAsWritten(map[], runs, key, expr).value == Groups(runs, key)
  {
    if forall i :: 0 <= i < |runs| ==> key(runs[i]) !in InheritedNames {
      assert Groups([], key) == map[];
      assert [] + runs == runs;
      AsWrittenGroupsFrom([], runs, key, expr);
    } else {
      var j :| 0 <= j < |runs| && key(runs[j]) in InheritedNames;
      AsWrittenThrowsFrom(map[], runs, key, expr, j);
    }
  }

  /** The counterexample: one run of task type "toString" makes `getStats` throw, where the intended summary counts it. */
  lemma ToStringTaskTypeThrows(r: SavedRun)
    requires r.record.taskType == "toString"
    ensures GroupsAsWritten(map[], [r], TaskTypeKey(), "groups[run.taskType]") == Failure("groups[run.taskType].push is not a function")
    ensures TaskTypeSummary([r]) == map["toString" := TaskTypeStats(1, r.record.durationMs)]
  {
    assert TaskTypeKey()(r) in InheritedNames;
    AsWrittenThrowsFrom(map[], [r], TaskTypeKey(), "groups[run.taskType]", 0);
    assert "groups[run.taskType]" + ".push is not a function" == "groups[run.taskType].push is not a function";
    SingleRunSummary(r);
  }

  /** A single run makes a single group of one, whatever its task type. */
  lemma SingleRunSummary(r: SavedRun)
    ensures TaskTypeSummary([r]) == map[r.record.taskType := TaskTypeStats(1, r.record.durationMs)]
  {
    var k := r.record.taskType;
    var m := TaskTypeSummary([r]);
    assert DistinctKeys([r], TaskTypeKey()) == [k] by {
      assert [r][..0] == [];
    }
    SummaryKeys([r]);
    assert m.Keys == {k};
    assert Members([r], TaskTypeKey(), k) == [r] by {
      assert [r][..0] == [];
    }
    assert SumDurations([r]) == r.record.durationMs by {
      assert [r][..0] == [];
    }
    SummaryValue([r], k);
    assert m[k] == TaskTypeStats(1, r.record.durationMs);
    assert m == map[k := m[k]];
  }

  /** The task-type summary has a group for each distinct task type and no other. */
  lemma SummaryKeys(runs: seq<SavedRun>)
    ensures TaskTypeSummary(runs).Keys == set k | k in DistinctKeys(runs, TaskTypeKey())
  {
  }

  /** The summary of one task type counts its runs and rounds their mean duration. */
  lemma SummaryValue(runs: seq<SavedRun>, k: string)
    requires k in DistinctKeys(runs, TaskTypeKey())
    ensures var g := Members(runs, TaskTypeKey(), k);
      |g| > 0 && TaskTypeSummary(runs)[k] == TaskTypeStats(|g|, RoundDiv(SumDurations(g), |g|))
  {
    MembersNonEmpty(runs, TaskTypeKey(), k);
  }

  /** `StatsResponseDto`, its integer parts. */
  datatype StatsResult = StatsResult(
    period: string,
    totalRuns: nat,
    successfulRuns: nat,
    avgDurationMs: int,
    byTaskType: map<string, TaskTypeStats>,
    byModel: map<string, ModelStats>)

  /** `getStats` over the stored runs, at clock reading `now`. */
  method GetStats(stored: seq<SavedRun>, period: string, now: int) returns (s: StatsResult)
    ensures var runs := InWindow(stored, StartDate(period, now));
      && s.period == period
      && s.totalRuns == |runs|
      && s.successfulRuns == SuccessCount(runs) <= s.totalRuns
      && (s.totalRuns == 0 ==> s.avgDurationMs == 0)
      && (s.totalRuns > 0 ==> s.avgDurationMs == RoundDiv(SumDurations(runs), |runs|))
      && s.byTaskType == TaskTypeSummary(runs)
      && s.byModel == ModelSummary(runs)
  {
    var runs := InWindow(stored, StartDate(period, now));
    var total := |runs|;
    var successful := SuccessCount(runs);
    var avg := if total > 0 then RoundDiv(SumDurations(runs), total) else 0;
    var byTaskType := GroupByTaskType(runs);
    var byModel := GroupByModel(runs);
    s := StatsResult(period, total, successful, avg, byTaskType, byModel);
  }

  /** Every run is counted once per grouping: the task-type groups and the model groups each add up to the total. */
  lemma SummariesCountEveryRun(runs: seq<SavedRun>)
    ensures SumSizes(DistinctKeys(runs, TaskTypeKey()), runs, TaskTypeKey()) == |runs|
    ensures SumSizes(DistinctKeys(runs, ModelKey()), runs, ModelKey()) == |runs|
    ensures forall k :: k in TaskTypeSummary(runs) ==>
      TaskTypeSummary(runs)[k].runs == |Members(runs, TaskTypeKey(), k)| > 0
  {
    GroupsPartition(runs, TaskTypeKey());
    GroupsPartition(runs, ModelKey());
    forall k | k in TaskTypeSummary(runs)
      ensures TaskTypeSummary(runs)[k].runs == |Members(runs, TaskTypeKey(), k)| > 0
    {
      MembersNonEmpty(runs, TaskTypeKey(), k);
    }
  }
}
