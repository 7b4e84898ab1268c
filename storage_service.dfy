/** lib/storage-service.ts: the browser-storage implementation of the prediction and
    results store, and the rule that picks the backend. The stored items are held as
    values: the "predictions" item as a list, the "tournamentResults" item as a record,
    each None while nothing has been written under its key. */
module StorageService {
  import opened Types

  /** The position of the first prediction with the given id, or -1 (`findIndex`). */
  function IndexOfId(ps: seq<Prediction>, id: string): (k: int)
    ensures -1 <= k < |ps|
    ensures k >= 0 ==> ps[k].id == id && forall j :: 0 <= j < k ==> ps[j].id != id
    ensures k == -1 ==> forall j :: 0 <= j < |ps| ==> ps[j].id != id
  {
    if ps == [] then -1
    else if ps[0].id == id then 0
    else
      var k := IndexOfId(ps[1..], id);
      if k == -1 then -1 else k + 1
  }

  /** `predictions.findIndex(p => p.id === id)`, scanning from the front. */
  method FindIndex(ps: seq<Prediction>, id: string) returns (index: int)
    ensures -1 <= index < |ps|
    ensures index >= 0 ==> ps[index].id == id && forall j :: 0 <= j < index ==> ps[j].id != id
    ensures index == -1 ==> forall j :: 0 <= j < |ps| ==> ps[j].id != id
  {
    var k := 0;
    while k < |ps|
      invariant 0 <= k <= |ps|
      invariant forall j :: 0 <= j < k ==> ps[j].id != id
    {
      if ps[k].id == id {
        return k;
      }
      k := k + 1;
    }
    return -1;
  }

  /** The list savePrediction writes: a prediction whose id is already stored replaces
      the first entry with that id in place, and a new id is appended at the end. */
  function Upsert(ps: seq<Prediction>, p: Prediction): (r: seq<Prediction>)
    ensures IndexOfId(ps, p.id) >= 0 ==>
      |r| == |ps| && r[IndexOfId(ps, p.id)] == p &&
      forall j :: 0 <= j < |ps| && j != IndexOfId(ps, p.id) ==> r[j] == ps[j]
    ensures IndexOfId(ps, p.id) == -1 ==> |r| == |ps| + 1 && r[..|ps|] == ps && r[|ps|] == p
  {
    var k := IndexOfId(ps, p.id);
    if k >= 0 then ps[k := p] else ps + [p]
  }

  /** The list deletePrediction writes: every entry with the id is dropped. */
  function WithoutId(ps: seq<Prediction>, id: string): (r: seq<Prediction>)
    ensures forall k :: 0 <= k < |r| ==> r[k].id != id
    ensures forall q: Prediction :: q.id != id ==> multiset(r)[q] == multiset(ps)[q]
    ensures |r| <= |ps|
  {
    if ps == [] then []
    else
      assert ps == [ps[0]] + ps[1..];
      if ps[0].id == id then WithoutId(ps[1..], id) else [ps[0]] + WithoutId(ps[1..], id)
  }

  /** The kept entries stay in their order. */
  lemma {:induction false} WithoutIdAppend(a: seq<Prediction>, b: seq<Prediction>, id: string)
    ensures WithoutId(a + b, id) == WithoutId(a, id) + WithoutId(b, id)
  {
    if a == [] {
      assert a + b == b;
    } else {
      assert (a + b)[1..] == a[1..] + b;
      WithoutIdAppend(a[1..], b, id);
    }
  }

  /** Saving twice is saving once. */
  lemma UpsertIdempotent(ps: seq<Prediction>, p: Prediction)
    ensures Upsert(Upsert(ps, p), p) == Upsert(ps, p)
  {
    var r := Upsert(ps, p);
    var k := IndexOfId(ps, p.id);
    if k == -1 {
      assert r[|ps|].id == p.id;
      assert IndexOfId(r, p.id) == |ps|;
    } else {
      assert IndexOfId(r, p.id) == k;
    }
  }

  /** After a save the id is stored and its first entry is the saved prediction. */
  lemma UpsertFinds(ps: seq<Prediction>, p: Prediction)
    ensures IndexOfId(Upsert(ps, p), p.id) >= 0
    ensures Upsert(ps, p)[IndexOfId(Upsert(ps, p), p.id)] == p
  {
    var r := Upsert(ps, p);
    var k := IndexOfId(ps, p.id);
    if k == -1 {
      assert r[|ps|].id == p.id;
      assert IndexOfId(r, p.id) == |ps|;
    } else {
      assert IndexOfId(r, p.id) == k;
    }
  }

  /** Deleting an id undoes saving a prediction with that id. */
  lemma {:induction false} DeleteUndoesSave(ps: seq<Prediction>, p: Prediction)
    ensures WithoutId(Upsert(ps, p), p.id) == WithoutId(ps, p.id)
  {
    var k := IndexOfId(ps, p.id);
    if k == -1 {
      WithoutIdAppend(ps, [p], p.id);
    } else {
      var r := Upsert(ps, p);
      assert ps == ps[..k] + [ps[k]] + ps[k + 1..];
      assert r == ps[..k] + [p] + ps[k + 1..];
      WithoutIdAppend(ps[..k] + [ps[k]], ps[k + 1..], p.id);
      WithoutIdAppend(ps[..k], [ps[k]], p.id);
      WithoutIdAppend(ps[..k] + [p], ps[k + 1..], p.id);
      WithoutIdAppend(ps[..k], [p], p.id);
    }
  }

  /** The browser-storage store. `inBrowser` is `typeof window !== "undefined"`: outside
      a browser every operation does nothing and every read gives [] or null. */
  class LocalStorageService {
    const inBrowser: bool
    var predictions: Option<seq<Prediction>>
    var results: Option<TournamentResults>

    constructor(inBrowser: bool, predictions: Option<seq<Prediction>>, results: Option<TournamentResults>)
      ensures this.inBrowser == inBrowser
      ensures this.predictions == predictions && this.results == results
    {
      this.inBrowser := inBrowser;
      this.predictions := predictions;
      this.results := results;
    }

    /** The stored list, or [] when nothing is stored. */
    function StoredPredictions(): seq<Prediction>
      reads this
    {
      if predictions.Some? then predictions.value else []
    }

    method GetPredictions() returns (ps: seq<Prediction>)
      ensures inBrowser ==> ps == StoredPredictions()
      ensures !inBrowser || predictions.None? ==> ps == []
    {
      if !inBrowser {
        return [];
      }
      ps := StoredPredictions();
    }

    method SavePrediction(p: Prediction)
      modifies this
      ensures !inBrowser ==> predictions == old(predictions)
      ensures inBrowser ==> predictions == Some(Upsert(old(StoredPredictions()), p))
      ensures results == old(results)
    {
      if !inBrowser {
        return;
      }
      var ps := GetPredictions();
      var existingIndex := FindIndex(ps, p.id);
      if existingIndex >= 0 {
        ps := ps[existingIndex := p];
      } else {
        ps := ps + [p];
      }
      predictions := Some(ps);
    }

    method DeletePrediction(id: string)
      modifies this
      ensures !inBrowser ==> predictions == old(predictions)
      ensures inBrowser ==> predictions == Some(WithoutId(old(StoredPredictions()), id))
      ensures results == old(results)
    {
      if !inBrowser {
        return;
      }
      var ps := GetPredictions();
      predictions := Some(WithoutId(ps, id));
    }

    method DeleteAllPredictions()
      modifies this
      ensures !inBrowser ==> predictions == old(predictions)
      ensures inBrowser ==> predictions == Some([])
      ensures results == old(results)
    {
      if !inBrowser {
        return;
      }
      predictions := Some([]);
    }

    method GetResults() returns (r: Option<TournamentResults>)
      ensures r == (if inBrowser then results else None)
    {
      if !inBrowser {
        return None;
      }
      r := results;
    }

    method SaveResults(r: TournamentResults)
      modifies this
      ensures results == (if inBrowser then Some(r) else old(results))
      ensures predictions == old(predictions)
    {
      if !inBrowser {
        return;
      }
      results := Some(r);
    }
  }

  datatype Backend = Supabase | LocalStorage

  /** getStorageService: the database backend only in production with a configured client. */
  function ChooseBackend(nodeEnv: string, hasSupabaseConfig: bool): (b: Backend)
    ensures b == Supabase <==> nodeEnv == "production" && hasSupabaseConfig
    ensures b == LocalStorage <==> nodeEnv != "production" || !hasSupabaseConfig
  {
    var isProduction := nodeEnv == "production";
    if isProduction && hasSupabaseConfig then Supabase else LocalStorage
  }
}
