/** The dashboard (src/pages/Dashboard.tsx): the statistics computed from the
    list of models, the five most recent models, and the first fifteen tags. */
module Dashboard {
  import opened Wrappers
  import opened Types
  import opened Lists
  import opened Api

  const FetchError := "Failed to fetch models"

  /** The two fields the dashboard counts models by. */
  datatype Grouping = ByStatus | ByType

  function KeyOf(m: ModelEntry, g: Grouping): Option<string> {
    match g
    case ByStatus => m.status
    case ByType => m.modelType
  }

  /** The truthy values of one field, model by model. */
  function Keys(models: seq<ModelEntry>, g: Grouping): (r: seq<string>)
    ensures |r| <= |models|
  {
    if models == [] then []
    else
      var last := KeyOf(models[|models| - 1], g);
      Keys(models[..|models| - 1], g) + (if Truthy(last) then [last.value] else [])
  }

  /** The positions of the models whose field holds `k`. */
  function ModelsWith(models: seq<ModelEntry>, g: Grouping, k: string): set<nat> {
    set i: nat | i < |models| && KeyOf(models[i], g) == Some(k)
  }

  lemma ModelsWithSnoc(models: seq<ModelEntry>, g: Grouping, k: string)
    requires models != []
    ensures var n := |models| - 1;
      ModelsWith(models, g, k)
      == ModelsWith(models[..n], g, k) + (if KeyOf(models[n], g) == Some(k) then {n} else {})
  {
    var n := |models| - 1;
    var init := models[..n];
    forall i: nat | i < n
      ensures init[i] == models[i]
    {
    }
  }

  /** Each non-empty value occurs in `Keys` once per model whose field holds
      it, and the empty value does not occur at all. */
  lemma {:induction false} KeysCount(models: seq<ModelEntry>, g: Grouping, k: string)
    ensures multiset(Keys(models, g))[k] == if k == "" then 0 else |ModelsWith(models, g, k)|
    decreases |models|
  {
    if models == [] {
      assert ModelsWith(models, g, k) == {};
    } else {
      var n := |models| - 1;
      var last := KeyOf(models[n], g);
      var extra := if Truthy(last) then [last.value] else [];
      KeysCount(models[..n], g, k);
      ModelsWithSnoc(models, g, k);
      assert multiset(Keys(models, g)) == multiset(Keys(models[..n], g)) + multiset(extra);
      assert n !in ModelsWith(models[..n], g, k);
    }
  }

  /** The counts `getModelStats` records for a field, stated against the
      models: a value has an entry exactly when it is not empty and some model
      holds it, and the entry is the number of those models. */
  lemma CountsOfModels(models: seq<ModelEntry>, g: Grouping, k: string)
    ensures k in CountsOf(Keys(models, g)) <==> k != "" && ModelsWith(models, g, k) != {}
    ensures k in CountsOf(Keys(models, g)) ==> CountsOf(Keys(models, g))[k] == |ModelsWith(models, g, k)|
  {
    KeysCount(models, g, k);
    var ks := Keys(models, g);
    assert k in ks <==> multiset(ks)[k] > 0;
  }

  /** A record of counts: each key that occurs, with the number of its
      occurrences. */
  function CountsOf(ks: seq<string>): (r: map<string, nat>)
    ensures forall k :: k in r <==> k in ks
    ensures forall k :: k in r ==> r[k] == multiset(ks)[k]
  {
    if ks == [] then map[]
    else
      var init := ks[..|ks| - 1];
      var k := ks[|ks| - 1];
      assert ks == init + [k];
      var m := CountsOf(init);
      m[k := (if k in m then m[k] else 0) + 1]
  }

  datatype Stats = Stats(total: nat, byStatus: map<string, nat>, byType: map<string, nat>, totalTags: seq<string>)

  /** `count[key] = (count[key] || 0) + 1`. */
  function Bump(count: map<string, nat>, key: string): map<string, nat> {
    count[key := (if key in count then count[key] else 0) + 1]
  }

  lemma DistinctMember<T>(xs: seq<T>, x: T)
    ensures x in Distinct(xs) <==> x in xs
  {
    var d := Distinct(xs);
    if x in xs {
      var i :| 0 <= i < |xs| && xs[i] == x;
      assert xs[i] in d;
    }
    if x in d {
      var i :| 0 <= i < |d| && d[i] == x;
      assert d[i] in xs;
    }
  }

  lemma KeysStep(models: seq<ModelEntry>, i: nat, g: Grouping)
    requires i < |models|
    ensures Keys(models[..i + 1], g)
         == Keys(models[..i], g) + (if Truthy(KeyOf(models[i], g)) then [KeyOf(models[i], g).value] else [])
  {
    assert models[..i + 1][..i] == models[..i];
  }

  lemma CountsStep(ks: seq<string>, k: string)
    ensures CountsOf(ks + [k]) == Bump(CountsOf(ks), k)
  {
    assert (ks + [k])[..|ks|] == ks;
  }

  /** Counting one more model bumps its key, if it has one. */
  lemma CountStep(models: seq<ModelEntry>, i: nat, g: Grouping)
    requires i < |models|
    ensures var key := KeyOf(models[i], g);
      CountsOf(Keys(models[..i + 1], g))
      == if Truthy(key) then Bump(CountsOf(Keys(models[..i], g)), key.value) else CountsOf(Keys(models[..i], g))
  {
    KeysStep(models, i, g);
    var key := KeyOf(models[i], g);
    if Truthy(key) {
      CountsStep(Keys(models[..i], g), key.value);
    } else {
      assert Keys(models[..i], g) + [] == Keys(models[..i], g);
    }
  }

  lemma AllTagsStep(models: seq<ModelEntry>, i: nat)
    requires i < |models|
    ensures AllTags(models[..i + 1]) == AllTags(models[..i]) + TagsOf(models[i])
  {
    assert models[..i + 1][..i] == models[..i];
  }

  /** `set.add(x)` on an insertion-ordered set. */
  lemma DistinctStep<T>(xs: seq<T>, x: T)
    ensures Distinct(xs + [x]) == if x in Distinct(xs) then Distinct(xs) else Distinct(xs) + [x]
  {
    assert (xs + [x])[..|xs|] == xs;
    DistinctMember(xs, x);
  }

  lemma SnocPrefix<T>(seen: seq<T>, tags: seq<T>, j: nat)
    requires j < |tags|
    ensures seen + tags[..j + 1] == (seen + tags[..j]) + [tags[j]]
  {
    assert tags[..j + 1] == tags[..j] + [tags[j]];
  }

  /** `tags.forEach(tag => totalTags.add(tag))`. */
  method AddTags(totalTags: seq<string>, seen: seq<string>, tags: seq<string>) returns (r: seq<string>)
    requires totalTags == Distinct(seen)
    ensures r == Distinct(seen + tags)
  {
    r := totalTags;
    var j := 0;
    assert seen + tags[..0] == seen;
    while j < |tags|
      invariant 0 <= j <= |tags|
      invariant r == Distinct(seen + tags[..j])
    {
      var tag := tags[j];
      DistinctStep(seen + tags[..j], tag);
      SnocPrefix(seen, tags, j);
      if tag !in r {
        r := r + [tag];
      }
      j := j + 1;
    }
    assert tags[..j] == tags;
  }

  /** `getModelStats`: one pass over the models counts the truthy statuses
      and types and adds every tag to an insertion-ordered set. */
  method GetModelStats(models: seq<ModelEntry>) returns (stats: Stats)
    ensures stats.total == |models|
    ensures stats.byStatus == CountsOf(Keys(models, ByStatus))
    ensures stats.byType == CountsOf(Keys(models, ByType))
    ensures stats.totalTags == Distinct(AllTags(models))
  {
    var byStatus: map<string, nat> := map[];
    var byType: map<string, nat> := map[];
    var totalTags: seq<string> := [];
    var i := 0;
    while i < |models|
      invariant 0 <= i <= |models|
      invariant byStatus == CountsOf(Keys(models[..i], ByStatus))
      invariant byType == CountsOf(Keys(models[..i], ByType))
      invariant totalTags == Distinct(AllTags(models[..i]))
    {
      var model := models[i];
      CountStep(models, i, ByStatus);
      CountStep(models, i, ByType);
      AllTagsStep(models, i);
      if Truthy(model.status) {
        byStatus := Bump(byStatus, model.status.value);
      }
      if Truthy(model.modelType) {
        byType := Bump(byType, model.modelType.value);
      }
      if model.tags.Some? {
        totalTags := AddTags(totalTags, AllTags(models[..i]), model.tags.value);
      } else {
        assert AllTags(models[..i]) + [] == AllTags(models[..i]);
      }
      i := i + 1;
    }
    assert models[..i] == models;
    stats := Stats(|models|, byStatus, byType, totalTags);
  }

  // ---------------------------------------------------------------------------
  // What the counts add up to

  /** The sum of the counts of `keys`. */
  function SumOver(count: map<string, nat>, keys: seq<string>): nat
    requires forall i :: 0 <= i < |keys| ==> keys[i] in count
  {
    if keys == [] then 0
    else SumOver(count, keys[..|keys| - 1]) + count[keys[|keys| - 1]]
  }

  lemma {:induction false} SumOverOther(count: map<string, nat>, keys: seq<string>, k: string, v: nat)
    requires forall i :: 0 <= i < |keys| ==> keys[i] in count
    requires k !in keys
    ensures SumOver(count[k := v], keys) == SumOver(count, keys)
    decreases |keys|
  {
    if keys != [] {
      SumOverOther(count, keys[..|keys| - 1], k, v);
    }
  }

  lemma {:induction false} SumOverBump(count: map<string, nat>, keys: seq<string>, k: string)
    requires forall i :: 0 <= i < |keys| ==> keys[i] in count
    requires NoDuplicates(keys) && k in keys
    ensures SumOver(Bump(count, k), keys) == SumOver(count, keys) + 1
    decreases |keys|
  {
    var init := keys[..|keys| - 1];
    if keys[|keys| - 1] == k {
      assert k !in init;
      SumOverOther(count, init, k, count[k] + 1);
    } else {
      assert k in init;
      SumOverBump(count, init, k);
    }
  }

  /** Summed over every key that occurs, the counts add up to the number of
      values counted. */
  lemma {:induction false} CountsSum(ks: seq<string>)
    ensures forall i :: 0 <= i < |Distinct(ks)| ==> Distinct(ks)[i] in CountsOf(ks)
    ensures SumOver(CountsOf(ks), Distinct(ks)) == |ks|
    decreases |ks|
  {
    if ks != [] {
      var init := ks[..|ks| - 1];
      var k := ks[|ks| - 1];
      assert ks == init + [k];
      CountsSum(init);
      var d := Distinct(init);
      var m := CountsOf(init);
      if k in init {
        SumOverBump(m, d, k);
      } else {
        SumOverOther(m, d, k, 1);
        assert k !in d;
      }
    }
  }

  lemma {:induction false} NoDuplicatesCard<T>(s: seq<T>)
    requires NoDuplicates(s)
    ensures |set x | x in s| == |s|
    decreases |s|
  {
    if s != [] {
      var init := s[..|s| - 1];
      NoDuplicatesCard(init);
      assert (set x | x in s) == (set x | x in init) + {s[|s| - 1]};
      assert s[|s| - 1] !in init;
    }
  }

  /** The statuses (or types) shown with a count are exactly those some model
      has. */
  lemma GroupKeys(models: seq<ModelEntry>, g: Grouping)
    ensures CountsOf(Keys(models, g)).Keys == set k | k in Keys(models, g)
  {
  }

  /** As many statuses (or types) are shown as there are distinct ones; the
      "Model Types" figure is this number for the types. */
  lemma GroupSize(models: seq<ModelEntry>, g: Grouping)
    ensures |CountsOf(Keys(models, g)).Keys| == |Distinct(Keys(models, g))|
  {
    var ks := Keys(models, g);
    NoDuplicatesCard(Distinct(ks));
    assert (set k | k in Distinct(ks)) == CountsOf(ks).Keys by {
      forall k ensures k in Distinct(ks) <==> k in CountsOf(ks) {
        DistinctMember(ks, k);
      }
    }
  }

  /** The counts add up to the number of models that have the field, which is
      at most the total. */
  lemma GroupSum(models: seq<ModelEntry>, g: Grouping)
    ensures forall i :: 0 <= i < |Distinct(Keys(models, g))| ==> Distinct(Keys(models, g))[i] in CountsOf(Keys(models, g))
    ensures SumOver(CountsOf(Keys(models, g)), Distinct(Keys(models, g))) == |Keys(models, g)| <= |models|
  {
    CountsSum(Keys(models, g));
  }

  /** The number shown as "Total Tags" is the number of distinct tags. */
  lemma TotalTagsCount(models: seq<ModelEntry>)
    ensures |Distinct(AllTags(models))| == |set t | t in AllTags(models)|
  {
    NoDuplicatesCard(Distinct(AllTags(models)));
    assert (set t | t in Distinct(AllTags(models))) == (set t | t in AllTags(models)) by {
      forall t ensures t in Distinct(AllTags(models)) <==> t in AllTags(models) {
        DistinctMember(AllTags(models), t);
      }
    }
  }

  // ---------------------------------------------------------------------------
  // Recent models and popular tags

  /** `new Date(m.date_interacted || 0).getTime()`: a missing or empty date
      counts as time 0. */
  function DateKey(m: ModelEntry, timeOf: string -> int): int {
    if Truthy(m.dateInteracted) then timeOf(m.dateInteracted.value) else 0
  }

  predicate SortedByDate(s: seq<ModelEntry>, timeOf: string -> int) {
    forall p, q :: 0 <= p < q < |s| ==> DateKey(s[p], timeOf) >= DateKey(s[q], timeOf)
  }

  /** The insertion step's view of `s[..i + 1]` while the element at `j` moves
      left: sorted apart from position `j`, and that element newer than every
      one after it. */
  predicate Inserting(s: seq<ModelEntry>, i: nat, j: nat, timeOf: string -> int)
    requires j <= i < |s|
  {
    && (forall p, q :: 0 <= p < q <= i && p != j && q != j ==> DateKey(s[p], timeOf) >= DateKey(s[q], timeOf))
    && (forall q :: j < q <= i ==> DateKey(s[j], timeOf) > DateKey(s[q], timeOf))
  }

  lemma SwapStep(s: seq<ModelEntry>, i: nat, j: nat, timeOf: string -> int)
    requires 0 < j <= i < |s| && Inserting(s, i, j, timeOf)
    requires DateKey(s[j - 1], timeOf) < DateKey(s[j], timeOf)
    ensures Inserting(s[j - 1 := s[j]][j := s[j - 1]], i, j - 1, timeOf)
    ensures multiset(s[j - 1 := s[j]][j := s[j - 1]]) == multiset(s)
  {
    var t := s[j - 1 := s[j]][j := s[j - 1]];
    assert t[j - 1] == s[j] && t[j] == s[j - 1];
    assert forall p :: 0 <= p < |s| && p != j - 1 && p != j ==> t[p] == s[p];
    SwapPermutes(s, j);
  }

  lemma SwapPermutes<T>(s: seq<T>, j: nat)
    requires 0 < j < |s|
    ensures multiset(s[j - 1 := s[j]][j := s[j - 1]]) == multiset(s)
  {
  }

  lemma InsertDone(s: seq<ModelEntry>, i: nat, j: nat, timeOf: string -> int)
    requires j <= i < |s| && Inserting(s, i, j, timeOf)
    requires j == 0 || DateKey(s[j - 1], timeOf) >= DateKey(s[j], timeOf)
    ensures SortedByDate(s[..i + 1], timeOf)
  {
  }

  /** `models.sort((a, b) => time(b) - time(a))`, in place: newest first, the
      same models. */
  method SortRecent(a: array<ModelEntry>, timeOf: string -> int)
    modifies a
    ensures SortedByDate(a[..], timeOf)
    ensures multiset(a[..]) == multiset(old(a[..]))
  {
    var i := 0;
    while i < a.Length
      invariant 0 <= i <= a.Length
      invariant SortedByDate(a[..i], timeOf)
      invariant multiset(a[..]) == multiset(old(a[..]))
    {
      InsertNewest(a, i, timeOf);
      i := i + 1;
    }
    assert a[..i] == a[..];
  }

  /** One insertion step: the model at `i` moves left past every older one,
      so the first `i + 1` models are sorted. */
  method InsertNewest(a: array<ModelEntry>, i: nat, timeOf: string -> int)
    requires i < a.Length && SortedByDate(a[..i], timeOf)
    modifies a
    ensures SortedByDate(a[..i + 1], timeOf)
    ensures multiset(a[..]) == multiset(old(a[..]))
  {
    var j := i;
    assert Inserting(a[..], i, j, timeOf) by {
      assert forall p :: 0 <= p < i ==> a[..i][p] == a[..][p];
    }
    while j > 0 && DateKey(a[j - 1], timeOf) < DateKey(a[j], timeOf)
      invariant 0 <= j <= i
      invariant multiset(a[..]) == multiset(old(a[..]))
      invariant Inserting(a[..], i, j, timeOf)
    {
      SwapStep(a[..], i, j, timeOf);
      a[j - 1], a[j] := a[j], a[j - 1];
      j := j - 1;
    }
    InsertDone(a[..], i, j, timeOf);
  }

  /** "Popular Tags": the first fifteen distinct tags, in the order they were
      first seen. */
  function PopularTags(stats: Stats): (r: seq<string>)
    ensures |r| == if |stats.totalTags| < 15 then |stats.totalTags| else 15
    ensures r == stats.totalTags[..|r|]
  {
    Take(stats.totalTags, 15)
  }

  /** The popular tags come in the order of their first occurrence among the
      models' tags. */
  lemma PopularTagsFirstSeen(models: seq<ModelEntry>, stats: Stats, i: nat, j: nat)
    requires stats.totalTags == Distinct(AllTags(models))
    requires i < j < |PopularTags(stats)|
    ensures IndexOf(AllTags(models), PopularTags(stats)[i]) < IndexOf(AllTags(models), PopularTags(stats)[j])
  {
    DistinctFirstSeen(AllTags(models), i, j);
  }

  class DashboardPage {
    var models: array<ModelEntry>
    var loading: bool
    var error: string
    var calls: seq<Call>

    constructor ()
      ensures models.Length == 0 && loading && error == "" && calls == []
    {
      models := new ModelEntry[0];
      loading := true;
      error := "";
      calls := [];
    }

    /** The first render's fetch of every model. */
    method Fetch(outcome: Result<seq<ModelEntry>, ApiError>)
      modifies this
      ensures calls == old(calls) + [GetAllModels] && !loading
      ensures outcome.Success? ==> fresh(models) && models[..] == outcome.value && error == old(error)
      ensures outcome.Failure? ==> models == old(models) && error == FetchError
    {
      calls := calls + [GetAllModels];
      if outcome.Success? {
        var data := outcome.value;
        models := new ModelEntry[|data|](i requires 0 <= i < |data| => data[i]);
        loading := false;
      } else {
        error := FetchError;
        loading := false;
      }
    }

    /** "Recent Models": sorts the page's own list, newest first, and shows
        its first five. */
    method RecentModels(timeOf: string -> int) returns (recent: seq<ModelEntry>)
      modifies models
      ensures SortedByDate(models[..], timeOf) && multiset(models[..]) == multiset(old(models[..]))
      ensures |recent| == if models.Length < 5 then models.Length else 5
      ensures recent == models[..|recent|]
    {
      SortRecent(models, timeOf);
      recent := Take(models[..], 5);
    }
  }
}
