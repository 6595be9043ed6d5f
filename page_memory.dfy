/**
 * Page-state memory (src/utils/pageMemory.ts): the article list's paging
 * position saved under one `localStorage` key and restored while it is young
 * enough. The clock reading is a parameter, and JSON conversion is the `Json`
 * codec handed in by the caller, whose `parse` yields None where
 * `JSON.parse` would throw.
 */
module PageMemory {

  import opened Wrappers
  import Storage

  const StateKey := "blog_page_state"
  /** The default `maxAge` of `getPageState`: thirty minutes in milliseconds. */
  const DefaultMaxAge: int := 30 * 60 * 1000

  datatype PageState = PageState(
    current: int,
    pageSize: int,
    lastVisitTime: int,
    scrollPosition: Option<int>,
    categoryId: Option<string>,
    tagId: Option<string>)

  /** `JSON.stringify` and `JSON.parse` restricted to page states. */
  datatype Json = Json(stringify: PageState -> string, parse: string -> Option<PageState>)

  /** What the round trip needs of the codec: text is never empty and parses back to the record. */
  ghost predicate Faithful(json: Json)
  {
    forall ps :: json.stringify(ps) != "" && json.parse(json.stringify(ps)) == Some(ps)
  }

  /** What `getPageState` returns, with the storage contents it leaves behind. */
  datatype Restored = Restored(state: Option<PageState>, storage: map<string, string>)

  /** `savePageState`: the record of the arguments stamped with `now`, under the one key. */
  function Saved(storage: map<string, string>, json: Json, now: int, current: int, pageSize: int,
                 scrollPosition: Option<int>, categoryId: Option<string>, tagId: Option<string>): (r: map<string, string>)
    ensures r.Keys == storage.Keys + {StateKey}
    ensures r[StateKey] == json.stringify(PageState(current, pageSize, now, scrollPosition, categoryId, tagId))
    ensures forall k :: k in storage && k != StateKey ==> r[k] == storage[k]
  {
    storage[StateKey := json.stringify(PageState(current, pageSize, now, scrollPosition, categoryId, tagId))]
  }

  /**
   * `getPageState(maxAge)` at time `now`: a missing or empty entry yields
   * nothing and changes nothing; an entry that does not parse, or whose age
   * exceeds `maxAge`, yields nothing and is removed; otherwise the parsed
   * record is returned and storage is untouched.
   */
  function Restore(storage: map<string, string>, json: Json, now: int, maxAge: int := DefaultMaxAge): (r: Restored)
    ensures r.state.Some? <==>
      Truthy(Storage.Lookup(storage, StateKey))
      && json.parse(storage[StateKey]).Some?
      && now - json.parse(storage[StateKey]).value.lastVisitTime <= maxAge
    ensures r.state.Some? ==> r.state == json.parse(storage[StateKey]) && r.storage == storage
    ensures !Truthy(Storage.Lookup(storage, StateKey)) ==> r.storage == storage
    ensures Truthy(Storage.Lookup(storage, StateKey)) && r.state.None? ==> r.storage == storage - {StateKey}
  {
    var stateJson := Storage.Lookup(storage, StateKey);
    if !Truthy(stateJson) then Restored(None, storage)
    else
      match json.parse(stateJson.value)
      case None => Restored(None, storage - {StateKey})
      case Some(pageState) =>
        if now - pageState.lastVisitTime > maxAge then Restored(None, storage - {StateKey})
        else Restored(Some(pageState), storage)
  }

  /** Restoring within `maxAge` of a save gives back exactly the saved fields and the save time. */
  lemma SaveThenRestore(storage: map<string, string>, json: Json, saveTime: int, now: int, maxAge: int,
                        current: int, pageSize: int, scrollPosition: Option<int>,
                        categoryId: Option<string>, tagId: Option<string>)
    requires Faithful(json)
    requires now - saveTime <= maxAge
    ensures var saved := Saved(storage, json, saveTime, current, pageSize, scrollPosition, categoryId, tagId);
      Restore(saved, json, now, maxAge) == Restored(Some(PageState(current, pageSize, saveTime, scrollPosition, categoryId, tagId)), saved)
  {
    var ps := PageState(current, pageSize, saveTime, scrollPosition, categoryId, tagId);
    assert json.stringify(ps) != "" && json.parse(json.stringify(ps)) == Some(ps);
  }

  /** The expiry test is strict: an age of exactly `maxAge` is still restored, one more millisecond is not. */
  lemma ExpiryBoundary(storage: map<string, string>, json: Json, saveTime: int, maxAge: int,
                       current: int, pageSize: int, scrollPosition: Option<int>,
                       categoryId: Option<string>, tagId: Option<string>)
    requires Faithful(json)
    ensures var saved := Saved(storage, json, saveTime, current, pageSize, scrollPosition, categoryId, tagId);
      && Restore(saved, json, saveTime + maxAge, maxAge).state.Some?
      && Restore(saved, json, saveTime + maxAge + 1, maxAge) == Restored(None, saved - {StateKey})
  {
    var ps := PageState(current, pageSize, saveTime, scrollPosition, categoryId, tagId);
    assert json.stringify(ps) != "" && json.parse(json.stringify(ps)) == Some(ps);
  }

  /** With the default `maxAge`, a saved state is restored for thirty minutes (1,800,000 ms) and not a millisecond longer. */
  lemma DefaultExpiryIsHalfAnHour(storage: map<string, string>, json: Json, saveTime: int,
                                  current: int, pageSize: int, scrollPosition: Option<int>,
                                  categoryId: Option<string>, tagId: Option<string>)
    requires Faithful(json)
    ensures var saved := Saved(storage, json, saveTime, current, pageSize, scrollPosition, categoryId, tagId);
      && Restore(saved, json, saveTime + 1800000).state.Some?
      && Restore(saved, json, saveTime + 1800001) == Restored(None, saved - {StateKey})
  {
    ExpiryBoundary(storage, json, saveTime, DefaultMaxAge, current, pageSize, scrollPosition, categoryId, tagId);
  }

  /** After `clearPageState` nothing is restored, whatever the time and the codec. */
  lemma ClearThenRestore(storage: map<string, string>, json: Json, now: int, maxAge: int)
    ensures Restore(storage - {StateKey}, json, now, maxAge) == Restored(None, storage - {StateKey})
  {
  }

  /** `savePageState(current, pageSize, scrollPosition, categoryId, tagId)` at time `now`. */
  method SavePageState(storage: Storage.LocalStorage, json: Json, now: int, current: int, pageSize: int,
                       scrollPosition: Option<int>, categoryId: Option<string>, tagId: Option<string>)
    modifies storage
    ensures storage.items == Saved(old(storage.items), json, now, current, pageSize, scrollPosition, categoryId, tagId)
  {
    var pageState := PageState(current, pageSize, now, scrollPosition, categoryId, tagId);
    storage.SetItem(StateKey, json.stringify(pageState));
  }

  /** `getPageState(maxAge)` at time `now`. */
  method GetPageState(storage: Storage.LocalStorage, json: Json, now: int, maxAge: int := DefaultMaxAge) returns (state: Option<PageState>)
    modifies storage
    ensures Restored(state, storage.items) == Restore(old(storage.items), json, now, maxAge)
  {
    var stateJson := storage.GetItem(StateKey);
    if !Truthy(stateJson) {
      return None;
    }
    var parsed := json.parse(stateJson.value);
    if parsed.None? {
      ClearPageState(storage);
      return None;
    }
    var pageState := parsed.value;
    if now - pageState.lastVisitTime > maxAge {
      ClearPageState(storage);
      return None;
    }
    return Some(pageState);
  }

  /** `clearPageState()`: removes the page-state key and no other. */
  method ClearPageState(storage: Storage.LocalStorage)
    modifies storage
    ensures storage.items == old(storage.items) - {StateKey}
  {
    storage.RemoveItem(StateKey);
  }
}
