/** The comparison page (src/pages/ModelComparison.tsx): reads the ids from the
    `models` query parameter, refuses fewer than two, fetches every model in
    order and then the comparative analysis, and shows the analysis one
    paragraph per line. */
module ModelComparison {
  import opened Wrappers
  import opened Types
  import opened Text
  import opened Numbers
  import opened Api
  import ModelList

  const NotEnoughError := "Not enough models selected for comparison"
  const LoadError := "Failed to load comparison"

  /** `searchParams.get('models')?.split(',').map(Number) || []`: one number
      per comma-separated piece; no parameter gives no ids. */
  function ParseModelIds(param: Option<string>): (r: seq<Num>)
    ensures param.None? ==> r == []
    ensures param.Some? ==> |r| == |Split(param.value, ',')| == multiset(param.value)[','] + 1
    ensures param.Some? ==> forall i :: 0 <= i < |r| ==> r[i] == NumberOf(Split(param.value, ',')[i])
  {
    if param.None? then []
    else
      SplitCount(param.value, ',');
      var parts := Split(param.value, ',');
      seq(|parts|, i requires 0 <= i < |parts| => NumberOf(parts[i]))
  }

  /** Natural-number ids as the numbers they are read back as. */
  function AsNumbers(ids: seq<nat>): (r: seq<Num>)
    ensures |r| == |ids| && forall i :: 0 <= i < |ids| ==> r[i] == Int(ids[i])
  {
    seq(|ids|, i requires 0 <= i < |ids| => Int(ids[i]))
  }

  lemma PrefixedNothing(parts: seq<string>)
    ensures Prefixed("", parts) == parts
  {
    assert forall i :: 0 <= i < |parts| ==> "" + parts[i] == parts[i];
  }

  /** The ids the list page joins with ',' into the comparison link are read
      back here as the same ids, in the same order. */
  lemma ParseIdList(ids: seq<nat>)
    requires |ids| >= 1
    ensures ParseModelIds(Some(ModelList.IdList(ids))) == AsNumbers(ids)
  {
    SplitIdList(ids);
    var r := ParseModelIds(Some(ModelList.IdList(ids)));
    forall i | 0 <= i < |ids|
      ensures r[i] == Int(ids[i])
    {
      NumberOfString(ids[i]);
    }
  }

  /** The joined list splits back into the rendered ids. */
  lemma SplitIdList(ids: seq<nat>)
    requires |ids| >= 1
    ensures Split(ModelList.IdList(ids), ',') == ModelList.IdTexts(ids)
  {
    var texts := ModelList.IdTexts(ids);
    IdTextsCommaFree(ids);
    assert [','] + "" == ",";
    SplitJoin(texts, ',', "");
    PrefixedNothing(texts[1..]);
    assert [texts[0]] + texts[1..] == texts;
  }

  lemma IdTextsCommaFree(ids: seq<nat>)
    ensures forall i :: 0 <= i < |ids| ==> ',' !in ModelList.IdTexts(ids)[i]
  {
    var texts := ModelList.IdTexts(ids);
    forall i | 0 <= i < |texts|
      ensures ',' !in texts[i]
    {
      assert AllDigitsOf(texts[i], false);
    }
  }

  /** An empty parameter is one piece, read as the number 0. */
  lemma ParseEmptyParameter()
    ensures ParseModelIds(Some("")) == [Int(0)]
  {
    assert Split("", ',') == [""];
    assert Trim("") == "";
  }

  /** The detail requests: one per id, in order. */
  function DetailCalls(ids: seq<Num>): (r: seq<Call>)
    ensures |r| == |ids| && forall i :: 0 <= i < |ids| ==> r[i] == GetModel(ids[i])
  {
    seq(|ids|, i requires 0 <= i < |ids| => GetModel(ids[i]))
  }

  /** Every id names a model the backend returns. */
  predicate AllFound(ids: seq<Num>, getById: Num -> Result<ModelEntry, ApiError>) {
    forall k :: 0 <= k < |ids| ==> getById(ids[k]).Success?
  }

  /** `Promise.all(modelIds.map(id => modelApi.getById(id)))`: the models in
      the order of the ids when every request succeeds, and a failure of one
      of them otherwise. */
  method FetchAll(ids: seq<Num>, getById: Num -> Result<ModelEntry, ApiError>) returns (r: Result<seq<ModelEntry>, ApiError>)
    ensures r.Success? <==> AllFound(ids, getById)
    ensures r.Success? ==> |r.value| == |ids| && forall k :: 0 <= k < |ids| ==> getById(ids[k]) == Success(r.value[k])
    ensures r.Failure? ==> exists k :: 0 <= k < |ids| && getById(ids[k]) == Failure(r.error)
  {
    var fetched: seq<ModelEntry> := [];
    var i := 0;
    while i < |ids|
      invariant 0 <= i <= |ids|
      invariant |fetched| == i
      invariant forall k :: 0 <= k < i ==> getById(ids[k]) == Success(fetched[k])
    {
      var answer := getById(ids[i]);
      if answer.Failure? {
        return Failure(answer.error);
      }
      fetched := fetched + [answer.value];
      i := i + 1;
    }
    return Success(fetched);
  }

  /** `comparison.split('\n')`: as many paragraphs as line breaks plus one,
      none holding a line break, and joined with line breaks they give the
      text back. */
  function Paragraphs(text: string): (r: seq<string>)
    ensures |r| == multiset(text)['\n'] + 1
    ensures forall i :: 0 <= i < |r| ==> '\n' !in r[i]
    ensures Join(r, "\n") == text
  {
    SplitCount(text, '\n');
    SplitSepFree(text, '\n');
    JoinSplit(text, '\n');
    Split(text, '\n')
  }

  class ComparisonPage {
    var models: seq<ModelEntry>
    var comparison: string
    var loading: bool
    var error: string
    var calls: seq<Call>

    constructor ()
      ensures models == [] && comparison == "" && loading && error == "" && calls == []
    {
      models := [];
      comparison := "";
      loading := true;
      error := "";
      calls := [];
    }

    /** `loadComparison`: fewer than two ids sends nothing; otherwise every
        model is requested, then the comparison of the ids as parsed. Any
        failure reports one message, and the page stops loading in every
        case. */
    method Load(param: Option<string>, getById: Num -> Result<ModelEntry, ApiError>, outcome: Result<string, ApiError>)
      modifies this
      ensures !loading
      ensures var ids := ParseModelIds(param);
        |ids| < 2 ==> error == NotEnoughError && calls == old(calls) && models == old(models) && comparison == old(comparison)
      ensures var ids := ParseModelIds(param);
        |ids| >= 2 && !AllFound(ids, getById) ==>
          error == LoadError && models == old(models) && comparison == old(comparison)
          && calls == old(calls) + DetailCalls(ids)
      ensures var ids := ParseModelIds(param);
        |ids| >= 2 && AllFound(ids, getById) ==>
          |models| == |ids| && (forall k :: 0 <= k < |ids| ==> getById(ids[k]) == Success(models[k]))
          && calls == old(calls) + DetailCalls(ids) + [CompareModels(ids)]
          && (outcome.Success? ==> comparison == outcome.value && error == old(error))
          && (outcome.Failure? ==> comparison == old(comparison) && error == LoadError)
    {
      var ids := ParseModelIds(param);
      if |ids| < 2 {
        error := NotEnoughError;
        loading := false;
        return;
      }
      calls := calls + DetailCalls(ids);
      var fetched := FetchAll(ids, getById);
      if fetched.Failure? {
        error := LoadError;
        loading := false;
        return;
      }
      models := fetched.value;
      calls := calls + [CompareModels(ids)];
      if outcome.Failure? {
        error := LoadError;
        loading := false;
        return;
      }
      comparison := outcome.value;
      loading := false;
    }
  }
}
