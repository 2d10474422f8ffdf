/** The history hook: a local list of history entries kept beside the stored one, with search,
    favourites and the operations that change both. */
module History {
  import opened Wrappers
  import opened Strings
  import opened Records
  import Sequences
  import Storage

  const LoadHistoryError: string := "履歴の読み込み中にエラーが発生しました"
  const AddHistoryError: string := "履歴の追加中にエラーが発生しました"
  const DeleteHistoryError: string := "履歴の削除中にエラーが発生しました"
  const ClearHistoryError: string := "履歴のクリア中にエラーが発生しました"
  const ToggleFavoriteError: string := "お気に入り状態の変更中にエラーが発生しました"

  // ----- searchHistory -----

  /** `field && field.toLowerCase().includes(lowerQuery)`. */
  predicate FieldMatches(field: Option<string>, lowerQuery: string) {
    Truthy(field) && Contains(Lower(field.value), lowerQuery)
  }

  /** The search test: the lower-cased query occurs in the original text, the explanation or the language. */
  predicate MatchesQuery(e: HistoryEntry, lowerQuery: string) {
    FieldMatches(e.fields.originalText, lowerQuery) || FieldMatches(e.fields.translatedText, lowerQuery)
    || FieldMatches(e.fields.language, lowerQuery)
  }

  function QueryTest(lowerQuery: string): HistoryEntry -> bool {
    (e: HistoryEntry) => MatchesQuery(e, lowerQuery)
  }

  /** `searchHistory(query)` over a list: the list itself for an absent or empty query, otherwise
      the entries that match the lower-cased query. */
  function Search(history: seq<HistoryEntry>, query: Option<string>): (r: seq<HistoryEntry>)
    ensures !Truthy(query) ==> r == history
    ensures Truthy(query) ==> |r| <= |history| && forall e | e in r :: MatchesQuery(e, Lower(query.value))
  {
    if !Truthy(query) then history else Sequences.Filter(history, QueryTest(Lower(query.value)))
  }

  /** A non-empty query selects exactly the matching entries, as often as the list holds them,
      and keeps their order. */
  lemma SearchSpec(history: seq<HistoryEntry>, query: string)
    requires query != ""
    ensures forall e :: e in Search(history, Some(query)) <==> e in history && MatchesQuery(e, Lower(query))
    ensures forall e ::
      multiset(Search(history, Some(query)))[e] == if MatchesQuery(e, Lower(query)) then multiset(history)[e] else 0
    ensures Sequences.IsSubsequence(Search(history, Some(query)), history)
  {
    Sequences.FilterIsSubsequence(history, QueryTest(Lower(query)));
    Sequences.FilterCount(history, QueryTest(Lower(query)));
  }

  /** An absent or empty query returns the list unchanged. */
  lemma SearchWithoutQuery(history: seq<HistoryEntry>, query: Option<string>)
    requires query.None? || query.value == ""
    ensures Search(history, query) == history
  {
  }

  /** The search ignores the case of the query: lower-casing it first changes nothing. */
  lemma SearchIgnoresQueryCase(history: seq<HistoryEntry>, query: string)
    ensures Search(history, Some(query)) == Search(history, Some(Lower(query)))
  {
    LowerIdempotent(query);
  }

  /** An entry whose original text contains the query, in any case of the text, is found. */
  lemma SearchFindsContaining(history: seq<HistoryEntry>, query: string, i: nat)
    requires query != "" && i < |history|
    requires Truthy(history[i].fields.originalText) && Contains(history[i].fields.originalText.value, query)
    ensures history[i] in Search(history, Some(query))
  {
    ContainsLower(history[i].fields.originalText.value, query);
    assert MatchesQuery(history[i], Lower(query));
  }

  // ----- getFavorites -----

  function FavoriteTest(): HistoryEntry -> bool {
    (e: HistoryEntry) => e.fields.isFavorite
  }

  /** `getFavorites()` over a list. */
  function Favorites(history: seq<HistoryEntry>): (r: seq<HistoryEntry>)
    ensures |r| <= |history| && forall e | e in r :: e.fields.isFavorite
  {
    Sequences.Filter(history, FavoriteTest())
  }

  /** The favourites are exactly the entries marked as favourite, as often as the list holds them,
      in list order. */
  lemma FavoritesSpec(history: seq<HistoryEntry>)
    ensures forall e :: e in Favorites(history) <==> e in history && e.fields.isFavorite
    ensures forall e :: multiset(Favorites(history))[e] == if e.fields.isFavorite then multiset(history)[e] else 0
    ensures Sequences.IsSubsequence(Favorites(history), history)
  {
    Sequences.FilterIsSubsequence(history, FavoriteTest());
    Sequences.FilterCount(history, FavoriteTest());
  }

  // ----- toggleFavorite -----

  function Flip(e: HistoryEntry): HistoryEntry {
    e.(fields := e.fields.(isFavorite := !e.fields.isFavorite))
  }

  /** The `history.map` of `toggleFavorite(id)`: the same entries in the same order, with the
      favourite flag flipped on those with that id and every other entry untouched. */
  function ToggleById(history: seq<HistoryEntry>, id: string): (r: seq<HistoryEntry>)
    ensures |r| == |history|
    ensures forall i | 0 <= i < |history| :: history[i].id == id ==> r[i] == Flip(history[i])
    ensures forall i | 0 <= i < |history| :: history[i].id != id ==> r[i] == history[i]
  {
    if history == [] then []
    else [if history[0].id == id then Flip(history[0]) else history[0]] + ToggleById(history[1..], id)
  }

  /** Toggling twice restores the list. */
  lemma ToggleTwice(history: seq<HistoryEntry>, id: string)
    ensures ToggleById(ToggleById(history, id), id) == history
  {
    var r := ToggleById(ToggleById(history, id), id);
    assert forall i | 0 <= i < |history| :: r[i] == history[i];
  }

  /** Toggling an entry's id changes which entries are favourites only on that id. */
  lemma ToggleFavoritesElsewhere(history: seq<HistoryEntry>, id: string, e: HistoryEntry)
    requires e.id != id
    ensures e in Favorites(ToggleById(history, id)) <==> e in Favorites(history)
  {
    var r := ToggleById(history, id);
    if e in history {
      var i :| 0 <= i < |history| && history[i] == e;
      assert r[i] == e;
    }
    if e in r {
      var i :| 0 <= i < |r| && r[i] == e;
      assert history[i].id != id;
    }
  }

  /** What `toggleFavorite` hands to `saveHistoryItem`: the fields of the first entry of the updated
      list, or no field at all when the list is empty. */
  function ToggledAndSaved(updated: seq<HistoryEntry>): HistoryFields {
    if updated == [] then EmptyFields else updated[0].fields
  }

  /** Toggling an entry other than the first stores a copy of the first entry, unchanged: the
      toggled flag never reaches the store. */
  lemma ToggleSavesHeadCopy(history: seq<HistoryEntry>, id: string)
    requires history != [] && history[0].id != id
    ensures ToggledAndSaved(ToggleById(history, id)) == history[0].fields
  {
  }

  /** The state of one `useHistory` hook, over the storage hook it creates. */
  class HistoryHook {
    const storage: Storage.StorageHook
    var history: seq<HistoryEntry>
    var loading: bool
    var error: Option<string>

    constructor(storage: Storage.StorageHook)
      ensures this.storage == storage && history == [] && loading && error == None
    {
      this.storage := storage;
      history := [];
      loading := true;
      error := None;
    }

    /** `loadHistory`, run when the hook mounts: the stored list replaces the local one. */
    method LoadHistory()
      modifies this, storage
      ensures storage.store.readError.None? ==> history == Storage.StoredHistory(storage.store.data) && error == None
      ensures storage.store.readError.Some? ==> history == old(history) && error == Some(LoadHistoryError)
      ensures !loading && storage.settings == old(storage.settings) && storage.loading == old(storage.loading)
      ensures storage.error == if storage.store.readError.None? then old(storage.error) else Some(Storage.HistoryReadError)
    {
      loading := true;
      error := None;
      var read := storage.GetHistory();
      if read.Ok? {
        history := read.value;
      } else {
        error := Some(LoadHistoryError);
      }
      loading := false;
    }

    /** `addHistoryItem(item)`. The stored entry and the local one are stamped separately, so their ids
        and timestamps are separate parameters. Without both texts nothing is written and nothing changes
        but the error; the error is not re-raised. */
    method AddHistoryItem(item: HistoryFields, storedId: string, storedTimestamp: string, localId: string, localTimestamp: string)
      modifies this, storage, storage.store
      ensures var valid := Truthy(item.originalText) && Truthy(item.translatedText);
        var fault := if storage.store.readError.Some? then storage.store.readError else storage.store.writeError;
        && (!valid || fault.Some? ==>
              history == old(history) && storage.store.data == old(storage.store.data) && error == Some(AddHistoryError))
        && (valid && fault.None? ==>
              && history == [HistoryEntry(localId, localTimestamp, item)] + old(history)
              && error == old(error)
              && storage.store.data == old(storage.store.data)[Storage.HistoryKey := Entries(Storage.PrependBounded(
                   Storage.StoredHistory(old(storage.store.data)), HistoryEntry(storedId, storedTimestamp, item),
                   storage.settings.maxHistoryItems))])
      ensures !loading && storage.settings == old(storage.settings) && storage.loading == old(storage.loading)
      ensures var fault := if storage.store.readError.Some? then storage.store.readError else storage.store.writeError;
        storage.error == if Truthy(item.originalText) && Truthy(item.translatedText) && fault.Some?
          then Some(Storage.HistorySaveError) else old(storage.error)
    {
      loading := true;
      if !Truthy(item.originalText) || !Truthy(item.translatedText) {
        error := Some(AddHistoryError);
      } else {
        var thrown := storage.SaveHistoryItem(item, storedId, storedTimestamp);
        if thrown.Some? {
          error := Some(AddHistoryError);
        } else {
          history := [HistoryEntry(localId, localTimestamp, item)] + history;
        }
      }
      loading := false;
    }

    /** `deleteHistoryItem(id)`: the entries of that id leave the stored and the local list. */
    method DeleteHistoryItem(id: string)
      modifies this, storage, storage.store
      ensures var fault := if storage.store.readError.Some? then storage.store.readError else storage.store.writeError;
        && (fault.Some? ==>
              history == old(history) && storage.store.data == old(storage.store.data) && error == Some(DeleteHistoryError))
        && (fault.None? ==>
              && history == Storage.RemoveId(old(history), id) && error == old(error)
              && storage.store.data == old(storage.store.data)[Storage.HistoryKey := Entries(
                   Storage.RemoveId(Storage.StoredHistory(old(storage.store.data)), id))])
      ensures !loading && storage.settings == old(storage.settings) && storage.loading == old(storage.loading)
      ensures var fault := if storage.store.readError.Some? then storage.store.readError else storage.store.writeError;
        storage.error == if fault.None? then old(storage.error) else Some(Storage.HistoryRemoveError)
    {
      loading := true;
      var thrown := storage.RemoveHistoryItem(id);
      if thrown.Some? {
        error := Some(DeleteHistoryError);
      } else {
        history := Storage.RemoveId(history, id);
      }
      loading := false;
    }

    /** `deleteAllHistory()`: both lists become empty. */
    method DeleteAllHistory()
      modifies this, storage, storage.store
      ensures storage.store.writeError.Some? ==>
        history == old(history) && storage.store.data == old(storage.store.data) && error == Some(ClearHistoryError)
      ensures storage.store.writeError.None? ==>
        history == [] && error == old(error) && storage.store.data == old(storage.store.data) - {Storage.HistoryKey}
      ensures !loading && storage.settings == old(storage.settings) && storage.loading == old(storage.loading)
      ensures storage.error == if storage.store.writeError.None? then old(storage.error) else Some(Storage.HistoryClearError)
    {
      loading := true;
      var thrown := storage.ClearHistory();
      if thrown.Some? {
        error := Some(ClearHistoryError);
      } else {
        history := [];
      }
      loading := false;
    }

    /** `toggleFavorite(id)`: the local list is updated first, whatever the store does; then the first
        entry of the updated list is saved as a new stored entry. */
    method ToggleFavorite(id: string, storedId: string, storedTimestamp: string)
      modifies this, storage, storage.store
      ensures history == ToggleById(old(history), id)
      ensures var fault := if storage.store.readError.Some? then storage.store.readError else storage.store.writeError;
        && (fault.Some? ==> storage.store.data == old(storage.store.data) && error == Some(ToggleFavoriteError))
        && (fault.None? ==>
              && error == old(error)
              && storage.store.data == old(storage.store.data)[Storage.HistoryKey := Entries(Storage.PrependBounded(
                   Storage.StoredHistory(old(storage.store.data)),
                   HistoryEntry(storedId, storedTimestamp, ToggledAndSaved(ToggleById(old(history), id))),
                   storage.settings.maxHistoryItems))])
      ensures !loading && storage.settings == old(storage.settings) && storage.loading == old(storage.loading)
      ensures var fault := if storage.store.readError.Some? then storage.store.readError else storage.store.writeError;
        storage.error == if fault.None? then old(storage.error) else Some(Storage.HistorySaveError)
    {
      loading := true;
      var updated := ToggleById(history, id);
      history := updated;
      var thrown := storage.SaveHistoryItem(ToggledAndSaved(updated), storedId, storedTimestamp);
      if thrown.Some? {
        error := Some(ToggleFavoriteError);
      }
      loading := false;
    }

    /** `searchHistory(query)` on the current list. */
    function SearchHistory(query: Option<string>): (r: seq<HistoryEntry>)
      reads this
      ensures !Truthy(query) ==> r == history
      ensures Truthy(query) ==> forall e :: e in r <==> e in history && MatchesQuery(e, Lower(query.value))
      ensures Truthy(query) ==> forall e ::
        multiset(r)[e] == if MatchesQuery(e, Lower(query.value)) then multiset(history)[e] else 0
      ensures Truthy(query) ==> Sequences.IsSubsequence(r, history)
    {
      if Truthy(query) then
        SearchSpec(history, query.value);
        Search(history, query)
      else history
    }

    /** `getFavorites()` on the current list. */
    function GetFavorites(): (r: seq<HistoryEntry>)
      reads this
      ensures forall e :: e in r <==> e in history && e.fields.isFavorite
      ensures forall e :: multiset(r)[e] == if e.fields.isFavorite then multiset(history)[e] else 0
      ensures Sequences.IsSubsequence(r, history)
    {
      FavoritesSpec(history);
      Favorites(history)
    }

    /** `clearError()`. */
    method ClearError()
      modifies this
      ensures error == None && history == old(history) && loading == old(loading)
    {
      error := None;
    }
  }
}
