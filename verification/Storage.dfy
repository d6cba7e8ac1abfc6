/** The remote key-value store as the recorders see it: values are encoded lists of commands. */
module Storage {
  import opened Fates
  import opened Histories

  /** What a stored value decodes to; the codec itself loses nothing. */
  datatype Blob = EmptyBlob | ListBlob(records: seq<string>) | GarbledBlob

  type Store = map<string, Blob>

  /** The history a reload finds under a key; a missing, empty or garbled value is no history. */
  function Decoded(data: Store, key: string, capacity: nat): (h: seq<string>)
    ensures History(h, capacity)
  {
    if key in data && data[key].ListBlob? then
      LoadedIsHistory(data[key].records, capacity);
      Loaded(data[key].records, capacity)
    else []
  }

  datatype Reply = Value(blob: Blob) | EmptyValueError | TransportError

  class EtcdStore {
    var data: Store

    constructor ()
      ensures data == map[]
    {
      data := map[];
    }

    /** An error does not tell whether the value was stored. */
    method PutKV(k: string, v: Blob, fate: Fate) returns (failed: bool)
      modifies this
      ensures failed <==> !fate.Done?
      ensures data == if fate == Done || fate == DoneUnheard then old(data)[k := v] else old(data)
    {
      if fate.Landed() {
        data := data[k := v];
      }
      failed := !fate.Done?;
    }

    /** `reached` says whether the value came back. */
    method GetKV(k: string, reached: bool) returns (reply: Reply)
      ensures reply == if !reached then TransportError else if k in data then Value(data[k]) else EmptyValueError
    {
      if !reached {
        return TransportError;
      }
      if k in data {
        return Value(data[k]);
      }
      reply := EmptyValueError;
    }
  }
}
