/** The `/models` listing: the models the API reports, grouped by owner, or a
    fixed list when the API cannot be reached or answers badly. */
module ModelManager {
  import opened Wrappers

  /** One element of the response's `data` array: its `id` and `owned_by`
      fields, `None` when absent. */
  datatype ModelEntry = ModelEntry(id: Option<string>, ownedBy: Option<string>)

  /** The outcome of the HTTP request: a decoded body, whose `data` field may
      be missing, or any failure (network, HTTP status, undecodable JSON). */
  datatype ModelsResponse = Fetched(data: Option<seq<ModelEntry>>) | FetchFailed

  function Owner(e: ModelEntry): string {
    e.ownedBy.GetOr("unknown")
  }

  predicate Listed(e: ModelEntry) {
    e.id.Some? && e.id.value != ""
  }

  /** The ids listed under `owner`, in response order. */
  function IdsOf(entries: seq<ModelEntry>, owner: string): seq<string>
  {
    if entries == [] then []
    else
      var last := entries[|entries| - 1];
      IdsOf(entries[..|entries| - 1], owner) + (if Listed(last) && Owner(last) == owner then [last.id.value] else [])
  }

  /** Every listed entry's id appears under its owner. */
  lemma {:induction false} IdsOfContains(entries: seq<ModelEntry>, i: nat)
    requires i < |entries| && Listed(entries[i])
    ensures entries[i].id.value in IdsOf(entries, Owner(entries[i]))
  {
    var n := |entries| - 1;
    if i < n {
      IdsOfContains(entries[..n], i);
    }
  }

  /** Only listed entries of that owner contribute, so each group's ids are
      exactly the non-empty ids of that owner. */
  lemma {:induction false} IdsOfSound(entries: seq<ModelEntry>, owner: string, id: string)
    requires id in IdsOf(entries, owner)
    ensures exists i :: 0 <= i < |entries| && Listed(entries[i]) && Owner(entries[i]) == owner && entries[i].id.value == id
  {
    var n := |entries| - 1;
    var last := entries[n];
    if id in IdsOf(entries[..n], owner) {
      IdsOfSound(entries[..n], owner, id);
      var i :| 0 <= i < n && Listed(entries[..n][i]) && Owner(entries[..n][i]) == owner && entries[..n][i].id.value == id;
      assert entries[i] == entries[..n][i];
    } else {
      assert Listed(last) && Owner(last) == owner && last.id.value == id;
    }
  }

  /** The owners under which at least one id is listed. */
  function Owners(entries: seq<ModelEntry>): set<string>
  {
    if entries == [] then {}
    else
      var last := entries[|entries| - 1];
      Owners(entries[..|entries| - 1]) + (if Listed(last) then {Owner(last)} else {})
  }

  lemma {:induction false} OwnersExactly(entries: seq<ModelEntry>, o: string)
    ensures o in Owners(entries) <==> exists i :: 0 <= i < |entries| && Listed(entries[i]) && Owner(entries[i]) == o
  {
    if entries != [] {
      var n := |entries| - 1;
      OwnersExactly(entries[..n], o);
      if o in Owners(entries[..n]) {
        var i :| 0 <= i < n && Listed(entries[..n][i]) && Owner(entries[..n][i]) == o;
        assert entries[i] == entries[..n][i];
      }
      if exists i :: 0 <= i < |entries| && Listed(entries[i]) && Owner(entries[i]) == o {
        var i :| 0 <= i < |entries| && Listed(entries[i]) && Owner(entries[i]) == o;
        if i < n {
          assert entries[..n][i] == entries[i];
        }
      }
    }
  }

  /** `byOwner` groups the listed ids of `entries` by owner. */
  ghost predicate Grouped(byOwner: map<string, seq<string>>, entries: seq<ModelEntry>) {
    && byOwner.Keys == Owners(entries)
    && (forall o :: o in byOwner ==> byOwner[o] == IdsOf(entries, o) && byOwner[o] != [])
    && (forall o :: o !in byOwner ==> IdsOf(entries, o) == [])
  }

  /** Appending entry `j`'s id under its owner extends the grouping of
      `entries[..j]` to `entries[..j + 1]`. */
  lemma GroupedStep(byOwner: map<string, seq<string>>, entries: seq<ModelEntry>, j: nat)
    requires j < |entries| && Grouped(byOwner, entries[..j])
    ensures var e := entries[j];
            Grouped(if Listed(e)
                    then byOwner[Owner(e) := (if Owner(e) in byOwner then byOwner[Owner(e)] else []) + [e.id.value]]
                    else byOwner,
                    entries[..j + 1])
  {
    var e := entries[j];
    PrefixStep(entries, j);
    if Listed(e) {
      var m := byOwner[Owner(e) := (if Owner(e) in byOwner then byOwner[Owner(e)] else []) + [e.id.value]];
      forall o | o in m ensures m[o] == IdsOf(entries[..j + 1], o) && m[o] != [] {
        assert IdsOf(entries[..j + 1], o) == IdsOf(entries[..j], o) + (if Owner(e) == o then [e.id.value] else []);
      }
      forall o | o !in m ensures IdsOf(entries[..j + 1], o) == [] {
        assert IdsOf(entries[..j + 1], o) == IdsOf(entries[..j], o) + [];
      }
    } else {
      forall o ensures IdsOf(entries[..j + 1], o) == IdsOf(entries[..j], o) {
        assert IdsOf(entries[..j + 1], o) == IdsOf(entries[..j], o) + [];
      }
    }
  }

  /** What one more entry adds to the owners and the ids of a prefix. */
  lemma PrefixStep(entries: seq<ModelEntry>, j: nat)
    requires j < |entries|
    ensures Owners(entries[..j + 1]) == Owners(entries[..j]) + (if Listed(entries[j]) then {Owner(entries[j])} else {})
    ensures forall o :: IdsOf(entries[..j + 1], o)
              == IdsOf(entries[..j], o) + (if Listed(entries[j]) && Owner(entries[j]) == o then [entries[j].id.value] else [])
  {
    assert entries[..j + 1][..j] == entries[..j] && entries[..j + 1][j] == entries[j];
  }

  /** The grouping loop of `fetch_models`: ids appended per owner into a
      default-list dictionary, entries with a missing or empty id dropped. */
  method GroupByOwner(entries: seq<ModelEntry>) returns (byOwner: map<string, seq<string>>)
    ensures forall o :: o in byOwner <==> exists i :: 0 <= i < |entries| && Listed(entries[i]) && Owner(entries[i]) == o
    ensures forall o :: o in byOwner ==> byOwner[o] == IdsOf(entries, o) && byOwner[o] != []
  {
    byOwner := map[];
    for j := 0 to |entries|
      invariant Grouped(byOwner, entries[..j])
    {
      var e := entries[j];
      GroupedStep(byOwner, entries, j);
      if Listed(e) {
        var owner := Owner(e);
        var ids := if owner in byOwner then byOwner[owner] else [];
        byOwner := byOwner[owner := ids + [e.id.value]];
      }
    }
    assert entries[..|entries|] == entries;
    forall o ensures o in byOwner <==> exists i :: 0 <= i < |entries| && Listed(entries[i]) && Owner(entries[i]) == o {
      OwnersExactly(entries, o);
    }
  }

  /** The list shown when fetching fails. */
  const Fallback: map<string, seq<string>> :=
    map["z.ai" := ["glm-4.7"], "qwen" := ["qwen3-coder-plus"], "openai" := ["gpt-5.2"]]

  /** `fetch_models` with the HTTP exchange given as its outcome. */
  method FetchModels(response: ModelsResponse) returns (byOwner: map<string, seq<string>>)
    ensures response.FetchFailed? ==> byOwner == Fallback
    ensures response.Fetched? ==>
      var entries := response.data.GetOr([]);
      (forall i :: 0 <= i < |entries| && Listed(entries[i]) ==>
         Owner(entries[i]) in byOwner && entries[i].id.value in byOwner[Owner(entries[i])])
      && (forall o :: o in byOwner ==> byOwner[o] == IdsOf(entries, o) && byOwner[o] != [])
  {
    match response
    case FetchFailed =>
      return Fallback;
    case Fetched(data) =>
      var entries := data.GetOr([]);
      byOwner := GroupByOwner(entries);
      forall i | 0 <= i < |entries| && Listed(entries[i])
        ensures Owner(entries[i]) in byOwner && entries[i].id.value in byOwner[Owner(entries[i])]
      {
        IdsOfContains(entries, i);
      }
  }
}
