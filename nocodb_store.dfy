/**
 * The remote table store: the one-way switch to the local fallback store, the
 * table URL, the list manipulations of the fallback branches, and the lookup
 * the remote branches do before they patch or delete a row. HTTP requests and
 * file contents are inputs; the local file is the `file` field.
 */
module NocoDB {
  import opened Results
  import opened Json
  import Seqs

  const DefaultBaseUrl: string := "http://localhost:8080"

  /** An environment variable is set to something truthy. */
  predicate IsSet(v: Option<string>) {
    v.Some? && v.value != ""
  }

  /** What `fallbackStore` holds: nothing yet, the `DataStore` class itself, or an instance of it. */
  datatype FallbackStore = NoFallback | DataStoreClass | DataStoreInstance

  /** What a write gives back: the fallback store's `saveData` flag, or the remote `response.data`. */
  datatype Reply = Saved(ok: bool) | Response(data: Object)

  /** `${v}` in a template literal: an unset variable renders as "undefined". */
  function Render(v: Option<string>): (r: string)
    ensures v.Some? ==> r == v.value
  {
    match v
    case Some(s) => s
    case None => "undefined"
  }

  /** `${baseUrl}/api/v2/tables/${tableId}/records`. */
  function TableUrl(baseUrl: string, tableId: Option<string>): (r: string)
    ensures |r| == |baseUrl| + 15 + |Render(tableId)| + 8
    ensures r[..|baseUrl|] == baseUrl
    ensures r[|baseUrl|..|baseUrl| + 15] == "/api/v2/tables/"
    ensures r[|baseUrl| + 15..|r| - 8] == Render(tableId)
    ensures r[|r| - 8..] == "/records"
  {
    var r := baseUrl + "/api/v2/tables/" + Render(tableId) + "/records";
    assert r[..|baseUrl|] == baseUrl;
    assert r[|baseUrl|..|baseUrl| + 15] == "/api/v2/tables/";
    assert r[|baseUrl| + 15..|r| - 8] == Render(tableId);
    r
  }

  /** `item.case_id === k || item.id === k`. */
  predicate Matches(item: Object, k: string) {
    Get(item, "case_id") == Some(Str(k)) || Get(item, "id") == Some(Str(k))
  }

  /** `findIndex` by `Matches`. */
  function FindRecord(data: seq<Object>, k: string): (r: Option<nat>)
    ensures r.None? <==> forall j :: 0 <= j < |data| ==> !Matches(data[j], k)
    ensures r.Some? ==> (r.value < |data| && Matches(data[r.value], k) &&
                         forall j :: 0 <= j < r.value ==> !Matches(data[j], k))
  {
    Seqs.FirstIndex(data, (item: Object) => Matches(item, k))
  }

  /** The `find` the remote branches do over the loaded rows, throwing "Record not found" when nothing matches. */
  function Lookup(rows: seq<Object>, k: string): (r: Result<Object>)
    ensures r.Err? <==> forall j :: 0 <= j < |rows| ==> !Matches(rows[j], k)
    ensures r.Err? ==> r.error == RecordNotFound
    ensures r.Ok? ==> exists i :: (0 <= i < |rows| && rows[i] == r.value && Matches(r.value, k) &&
                                   forall j :: 0 <= j < i ==> !Matches(rows[j], k))
  {
    match FindRecord(rows, k)
    case None => Err(RecordNotFound)
    case Some(i) => Ok(rows[i])
  }

  /** `{ ...data[i], ...updates }` written back at `i`. */
  function MergeAt(data: seq<Object>, i: nat, updates: Object): (r: seq<Object>)
    requires i < |data|
    ensures |r| == |data|
    ensures forall j :: 0 <= j < |data| && j != i ==> r[j] == data[j]
    ensures forall key :: Get(r[i], key) == if HasKey(updates, key) then Get(updates, key) else Get(data[i], key)
  {
    data[i := Assign(data[i], updates)]
  }

  /** An update that names neither `case_id` nor `id` leaves the entry findable under the same key. */
  lemma MergeKeepsMatch(data: seq<Object>, i: nat, updates: Object, k: string)
    requires i < |data| && Matches(data[i], k)
    requires !HasKey(updates, "case_id") && !HasKey(updates, "id")
    ensures Matches(MergeAt(data, i, updates)[i], k)
  {
  }

  class NocoDBStore {
    const baseUrl: string
    const apiToken: Option<string>
    const tableId: Option<string>
    /** Once set, every operation goes to `fallbackStore`. */
    var useFallback: bool
    var fallbackStore: FallbackStore
    /** The local JSON file the fallback store reads and writes; `None` when missing or unreadable. */
    var file: Option<seq<Object>>

    /** The flag and the store agree, and the remote branch runs only when configured. */
    ghost predicate Valid()
      reads this
    {
      && (useFallback <==> fallbackStore != NoFallback)
      && (!useFallback ==> IsSet(apiToken) && IsSet(tableId))
    }

    /** The constructor with the fallback store instantiated, as `ensureTable` does it. */
    constructor(baseUrlEnv: Option<string>, apiToken: Option<string>, tableId: Option<string>, file: Option<seq<Object>>)
      ensures Valid()
      ensures baseUrl == (if IsSet(baseUrlEnv) then baseUrlEnv.value else DefaultBaseUrl)
      ensures this.apiToken == apiToken && this.tableId == tableId && this.file == file
      ensures useFallback <==> !IsSet(apiToken) || !IsSet(tableId)
      ensures fallbackStore == (if useFallback then DataStoreInstance else NoFallback)
    {
      baseUrl := if IsSet(baseUrlEnv) then baseUrlEnv.value else DefaultBaseUrl;
      this.apiToken := apiToken;
      this.tableId := tableId;
      this.file := file;
      if !IsSet(apiToken) || !IsSet(tableId) {
        fallbackStore := DataStoreInstance;
        useFallback := true;
      } else {
        fallbackStore := NoFallback;
        useFallback := false;
      }
    }

    /** The constructor as written: the fallback store is the `DataStore` class, not an instance of it. */
    constructor AsWritten(baseUrlEnv: Option<string>, apiToken: Option<string>, tableId: Option<string>, file: Option<seq<Object>>)
      ensures Valid()
      ensures baseUrl == (if IsSet(baseUrlEnv) then baseUrlEnv.value else DefaultBaseUrl)
      ensures this.apiToken == apiToken && this.tableId == tableId && this.file == file
      ensures useFallback <==> !IsSet(apiToken) || !IsSet(tableId)
      ensures fallbackStore == (if useFallback then DataStoreClass else NoFallback)
    {
      baseUrl := if IsSet(baseUrlEnv) then baseUrlEnv.value else DefaultBaseUrl;
      this.apiToken := apiToken;
      this.tableId := tableId;
      this.file := file;
      if !IsSet(apiToken) || !IsSet(tableId) {
        fallbackStore := DataStoreClass;
        useFallback := true;
      } else {
        fallbackStore := NoFallback;
        useFallback := false;
      }
    }

    /** `getTableUrl()`. */
    function GetTableUrl(): (r: string)
      reads this
      ensures r == TableUrl(baseUrl, tableId)
      ensures IsSet(tableId) ==> r == baseUrl + "/api/v2/tables/" + tableId.value + "/records"
    {
      TableUrl(baseUrl, tableId)
    }

    /**
     * `ensureTable()`: in fallback it answers true and changes nothing;
     * otherwise an unreachable server switches to a fresh local store for good.
     */
    method EnsureTable(reachable: bool) returns (ok: bool)
      requires Valid()
      modifies this`useFallback, this`fallbackStore
      ensures Valid()
      ensures old(useFallback) ==> ok && useFallback && fallbackStore == old(fallbackStore)
      ensures !old(useFallback) ==> (ok == reachable && useFallback == !reachable &&
                                     fallbackStore == (if reachable then NoFallback else DataStoreInstance))
    {
      if useFallback {
        return true;
      }
      if reachable {
        ok := true;
      } else {
        fallbackStore := DataStoreInstance;
        useFallback := true;
        ok := false;
      }
    }

    /** `fallbackStore.loadData()`: a class has no such method; an instance reads the file, or nothing. */
    function FallbackLoad(): (r: Result<seq<Object>>)
      reads this
      ensures fallbackStore == DataStoreClass <==> r == Err(NotAFunction)
      ensures fallbackStore != DataStoreClass ==> r == Ok(file.GetOr([]))
    {
      if fallbackStore == DataStoreClass then Err(NotAFunction) else Ok(file.GetOr([]))
    }

    /**
     * `loadData()`: the fallback store's contents, or the remote `list`
     * (`rows`), which is empty when the request fails or lists nothing.
     */
    method LoadData(reachable: bool, rows: Option<seq<Object>>) returns (r: Result<seq<Object>>)
      requires Valid()
      modifies this`useFallback, this`fallbackStore
      ensures Valid() && (old(useFallback) ==> useFallback)
      ensures useFallback == (old(useFallback) || !reachable)
      ensures fallbackStore == if old(useFallback) then old(fallbackStore) else if reachable then NoFallback else DataStoreInstance
      ensures useFallback ==> r == FallbackLoad()
      ensures !useFallback ==> r == Ok(rows.GetOr([]))
    {
      var _ := EnsureTable(reachable);
      if useFallback {
        return FallbackLoad();
      }
      r := Ok(rows.GetOr([]));
    }

    /**
     * `createRecord(record)`: in fallback the record is appended after every
     * stored entry and the list is saved; remotely the response is returned.
     */
    method CreateRecord(record: Object, reachable: bool, write: bool, response: Result<Object>)
      returns (r: Result<Reply>)
      requires Valid()
      requires response.Err? ==> response.error == Transport
      modifies this`useFallback, this`fallbackStore, this`file
      ensures Valid() && (old(useFallback) ==> useFallback)
      ensures useFallback == (old(useFallback) || !reachable)
      ensures fallbackStore == if old(useFallback) then old(fallbackStore) else if reachable then NoFallback else DataStoreInstance
      ensures useFallback && fallbackStore == DataStoreClass ==> r == Err(NotAFunction) && file == old(file)
      ensures useFallback && fallbackStore == DataStoreInstance ==>
        (r == Ok(Saved(write)) && file == if write then Some(old(file).GetOr([]) + [record]) else old(file))
      ensures !useFallback ==> file == old(file)
      ensures !useFallback ==> r == match response { case Ok(data) => Ok(Response(data)) case Err(e) => Err(e) }
    {
      var _ := EnsureTable(reachable);
      if useFallback {
        var current := FallbackLoad();
        if current.Err? {
          return Err(current.error);
        }
        var data := current.value + [record];
        if write {
          file := Some(data);
        }
        return Ok(Saved(write));
      }
      match response
      case Ok(data) => r := Ok(Response(data));
      case Err(e) => r := Err(e);
    }

    /**
     * `updateRecord(k, updates)`: in fallback the first entry matching `k` is
     * merged with `updates` and the list saved, or false is answered when none
     * matches; remotely a row matching `k` must be among the loaded `rows`.
     */
    method UpdateRecord(k: string, updates: Object, reachable: bool, write: bool,
                        rows: Option<seq<Object>>, response: Result<Object>)
      returns (r: Result<Reply>)
      requires Valid()
      requires response.Err? ==> response.error == Transport
      modifies this`useFallback, this`fallbackStore, this`file
      ensures Valid() && (old(useFallback) ==> useFallback)
      ensures useFallback == (old(useFallback) || !reachable)
      ensures fallbackStore == if old(useFallback) then old(fallbackStore) else if reachable then NoFallback else DataStoreInstance
      ensures useFallback && fallbackStore == DataStoreClass ==> r == Err(NotAFunction) && file == old(file)
      ensures useFallback && fallbackStore == DataStoreInstance ==>
        var data := old(file).GetOr([]);
        match FindRecord(data, k)
        case None => r == Ok(Saved(false)) && file == old(file)
        case Some(i) => r == Ok(Saved(write)) && file == if write then Some(MergeAt(data, i, updates)) else old(file)
      ensures !useFallback ==> file == old(file)
      ensures !useFallback ==>
        r == match Lookup(rows.GetOr([]), k) {
          case Err(e) => Err(e)
          case Ok(_) => match response { case Ok(data) => Ok(Response(data)) case Err(e) => Err(e) }
        }
    {
      var _ := EnsureTable(reachable);
      if useFallback {
        var current := FallbackLoad();
        if current.Err? {
          return Err(current.error);
        }
        var data := current.value;
        var index := FindRecord(data, k);
        if index.Some? {
          data := MergeAt(data, index.value, updates);
          if write {
            file := Some(data);
          }
          return Ok(Saved(write));
        }
        return Ok(Saved(false));
      }
      var existing := LoadData(reachable, rows);
      var record := Lookup(existing.value, k);
      if record.Err? {
        return Err(record.error);
      }
      match response
      case Ok(data) => r := Ok(Response(data));
      case Err(e) => r := Err(e);
    }

    /**
     * `deleteRecord(k)`: in fallback the first entry matching `k` is spliced
     * out and the list saved, or false is answered when none matches;
     * remotely a row matching `k` must be among the loaded `rows`.
     */
    method DeleteRecord(k: string, reachable: bool, write: bool,
                        rows: Option<seq<Object>>, response: Result<Object>)
      returns (r: Result<Reply>)
      requires Valid()
      requires response.Err? ==> response.error == Transport
      modifies this`useFallback, this`fallbackStore, this`file
      ensures Valid() && (old(useFallback) ==> useFallback)
      ensures useFallback == (old(useFallback) || !reachable)
      ensures fallbackStore == if old(useFallback) then old(fallbackStore) else if reachable then NoFallback else DataStoreInstance
      ensures useFallback && fallbackStore == DataStoreClass ==> r == Err(NotAFunction) && file == old(file)
      ensures useFallback && fallbackStore == DataStoreInstance ==>
        var data := old(file).GetOr([]);
        match FindRecord(data, k)
        case None => r == Ok(Saved(false)) && file == old(file)
        case Some(i) => r == Ok(Saved(write)) && file == if write then Some(Seqs.RemoveAt(data, i)) else old(file)
      ensures !useFallback ==> file == old(file)
      ensures !useFallback ==>
        r == match Lookup(rows.GetOr([]), k) {
          case Err(e) => Err(e)
          case Ok(_) => match response { case Ok(data) => Ok(Response(data)) case Err(e) => Err(e) }
        }
    {
      var _ := EnsureTable(reachable);
      if useFallback {
        var current := FallbackLoad();
        if current.Err? {
          return Err(current.error);
        }
        var data := current.value;
        var index := FindRecord(data, k);
        if index.Some? {
          data := Seqs.RemoveAt(data, index.value);
          if write {
            file := Some(data);
          }
          return Ok(Saved(write));
        }
        return Ok(Saved(false));
      }
      var existing := LoadData(reachable, rows);
      var record := Lookup(existing.value, k);
      if record.Err? {
        return Err(record.error);
      }
      match response
      case Ok(data) => r := Ok(Response(data));
      case Err(e) => r := Err(e);
    }
  }

  /** Without credentials the store as written cannot create anything: the class it kept has no `loadData`. */
  method UnconfiguredCreateFails(record: Object, write: bool) returns (r: Result<Reply>)
    ensures r == Err(NotAFunction)
  {
    var store := new NocoDBStore.AsWritten(None, None, None, None);
    r := store.CreateRecord(record, true, write, Err(Transport));
  }

  /** With the fallback store instantiated, the same call appends to the local file. */
  method UnconfiguredCreateAppends(record: Object) returns (r: Result<Reply>, file: Option<seq<Object>>)
    ensures r == Ok(Saved(true)) && file == Some([record])
  {
    var store := new NocoDBStore(None, None, None, None);
    r := store.CreateRecord(record, true, true, Err(Transport));
    file := store.file;
    assert [] + [record] == [record];
  }
}
