/** The `useOfflineData` hook: the in-memory list of one entity kind
    (`data`), the `loading` flag and the `isOnline` flag, with the callbacks
    that load, save, delete and look up entities through the backend.
    Every backend call is an input: the `Reply` it settled to. Connectivity
    at the time of a call (`navigator.onLine`) is the input `online`. */
module OfflineData {
  import opened Options
  import Lists

  /** How an awaited backend call settled. */
  datatype Reply<T> = Resolved(value: T) | Rejected

  /** Why a save or delete threw. */
  datatype CacheError = Offline | RemoteFailure

  /** A callback that either returns a value or throws. */
  datatype Outcome<T> = Ok(value: T) | Err(error: CacheError)

  class EntityCache<T> {
    /** How the entity kind exposes its `id`. */
    const idOf: T -> string
    var data: seq<T>
    var loading: bool
    var isOnline: bool

    /** The hook's initial state: no data, loading, online as the platform says. */
    constructor (idOf: T -> string, online: bool)
      ensures this.idOf == idOf
      ensures data == [] && loading && isOnline == online
    {
      this.idOf := idOf;
      data := [];
      loading := true;
      isOnline := online;
    }

    /** `loadData`: the fetched list replaces `data`; on failure `data` is kept
        and the caller gets []; `loading` ends false either way. */
    method LoadData(reply: Reply<seq<T>>) returns (result: seq<T>)
      modifies this`data, this`loading
      ensures !loading
      ensures reply.Resolved? ==> data == reply.value && result == reply.value
      ensures reply.Rejected? ==> data == old(data) && result == []
    {
      loading := true;
      match reply {
        case Resolved(rows) =>
          data := rows;
          result := rows;
        case Rejected =>
          result := [];
      }
      loading := false;
    }

    /** `saveItem`: refuses to run offline; otherwise the entity the backend
        returns is merged into `data` by id. A failure leaves `data` as it was. */
    method SaveItem(item: T, online: bool, reply: Reply<T>) returns (r: Outcome<T>)
      modifies this`data
      ensures !online ==> r == Err(Offline) && data == old(data)
      ensures online && reply.Rejected? ==> r == Err(RemoteFailure) && data == old(data)
      ensures online && reply.Resolved? ==>
        r == Ok(reply.value) && data == Lists.Upsert(old(data), idOf, reply.value)
      ensures Lists.DistinctKeys(old(data), idOf) ==> Lists.DistinctKeys(data, idOf)
    {
      if !online {
        return Err(Offline);
      }
      match reply {
        case Rejected =>
          r := Err(RemoteFailure);
        case Resolved(saved) =>
          if Lists.DistinctKeys(data, idOf) {
            Lists.UpsertKeepsDistinct(data, idOf, saved);
          }
          data := Lists.Upsert(data, idOf, saved);
          r := Ok(saved);
      }
    }

    /** `deleteItem`: refuses to run offline; otherwise, once the backend has
        deleted the row, every entry with that id leaves `data`. `permanent`
        changes nothing. */
    method DeleteItem(id: string, permanent: bool, online: bool, reply: Reply<()>) returns (r: Outcome<()>)
      modifies this`data
      ensures !online ==> r == Err(Offline) && data == old(data)
      ensures online && reply.Rejected? ==> r == Err(RemoteFailure) && data == old(data)
      ensures online && reply.Resolved? ==> r == Ok(()) && data == Lists.RemoveKey(old(data), idOf, id)
    {
      if !online {
        return Err(Offline);
      }
      match reply {
        case Rejected =>
          r := Err(RemoteFailure);
        case Resolved(_) =>
          data := Lists.RemoveKey(data, idOf, id);
          r := Ok(());
      }
    }

    /** `getItem`: never throws; a failed lookup yields null, a missing row too. */
    method GetItem(id: string, reply: Reply<Option<T>>) returns (r: Option<T>)
      ensures reply.Rejected? ==> r == None
      ensures reply.Resolved? ==> r == reply.value
    {
      match reply {
        case Rejected => r := None;
        case Resolved(found) => r := found;
      }
    }

    /** The `online`/`offline` listener: records the new status and reloads when back online. */
    method HandleOnlineStatus(online: bool, reply: Reply<seq<T>>)
      modifies this`data, this`loading, this`isOnline
      ensures isOnline == online
      ensures !online ==> data == old(data) && loading == old(loading)
      ensures online ==> !loading
      ensures online && reply.Resolved? ==> data == reply.value
      ensures online && reply.Rejected? ==> data == old(data)
    {
      isOnline := online;
      if online {
        var _ := LoadData(reply);
      }
    }
  }

  /** Saving with distinct ids: the saved entity is the only one with its id,
      every other entry is untouched, and saving it again changes nothing. */
  lemma SaveMergeProperties<T>(data: seq<T>, idOf: T -> string, saved: T)
    requires Lists.DistinctKeys(data, idOf)
    ensures Lists.DistinctKeys(Lists.Upsert(data, idOf, saved), idOf)
    ensures saved in Lists.Upsert(data, idOf, saved)
    ensures Lists.RemoveKey(Lists.Upsert(data, idOf, saved), idOf, idOf(saved)) == Lists.RemoveKey(data, idOf, idOf(saved))
    ensures Lists.Upsert(Lists.Upsert(data, idOf, saved), idOf, saved) == Lists.Upsert(data, idOf, saved)
  {
    Lists.UpsertKeepsDistinct(data, idOf, saved);
    Lists.UpsertKeepsOthers(data, idOf, saved);
    Lists.UpsertIdempotent(data, idOf, saved);
  }

  /** Deleting with distinct ids removes exactly the entry at that id's position. */
  lemma DeleteRemovesOne<T>(data: seq<T>, idOf: T -> string, i: nat)
    requires Lists.DistinctKeys(data, idOf) && i < |data|
    ensures Lists.RemoveKey(data, idOf, idOf(data[i])) == data[..i] + data[i + 1..]
    ensures |Lists.RemoveKey(data, idOf, idOf(data[i]))| == |data| - 1
  {
    Lists.RemoveKeyDistinct(data, idOf, i);
  }
}
