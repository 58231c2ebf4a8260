/** The key-value store behind the service (app/database.py): a collection of
    JSON documents keyed by string id, held in memory and written through to
    one JSON file per collection after every successful change. The file is
    represented by a field holding what was last written to it. */
module Database {
  import opened Wrappers

  /** A JSON value as `json.load` produces it and `json.dump` writes it. All
      numbers are kept as reals. */
  datatype Json =
    | JNull
    | JBool(b: bool)
    | JNum(n: real)
    | JStr(s: string)
    | JArr(items: seq<Json>)
    | JObj(fields: map<string, Json>)

  /** Python's truth value of a JSON value, as `if not value` tests it: null,
      false, zero and empty strings, lists and objects are false. */
  predicate Truthy(v: Json) {
    match v
    case JNull => false
    case JBool(b) => b
    case JNum(n) => n != 0.0
    case JStr(s) => s != ""
    case JArr(items) => items != []
    case JObj(fields) => fields != map[]
  }

  /** What the collection's file holds when the store starts. */
  datatype StoredFile =
    | Missing                                    // the file does not exist
    | Unparsable                                 // its text is not valid JSON
    | Document(entries: map<string, Json>)      // a JSON object: id -> document

  /** `_load_data`: the file's object, or an empty collection when the file is
      missing or not valid JSON. */
  function LoadData(file: StoredFile): (entries: map<string, Json>)
    ensures file.Document? ==> entries == file.entries
    ensures file.Missing? || file.Unparsable? ==> entries == map[]
  {
    match file
    case Document(entries) => entries
    case _ => map[]
  }

  class JsonDatabase {
    const collectionName: string
    const dbFile: string
    /** The in-memory collection, `self.data`. */
    var data: map<string, Json>
    /** The contents of `dbFile` as of the last save (or as found at start-up). */
    var persisted: StoredFile

    /** The file holds exactly the in-memory collection. */
    ghost predicate Synced()
      reads this
    {
      persisted == Document(data)
    }

    /** Opens the collection `collectionName`, whose file is found in state `file`. */
    constructor (collectionName: string, file: StoredFile)
      ensures this.collectionName == collectionName && dbFile == collectionName + ".json"
      ensures data == LoadData(file) && persisted == file
      ensures file.Document? ==> data == file.entries && Synced()
      ensures !file.Document? ==> data == map[]
    {
      this.collectionName := collectionName;
      dbFile := collectionName + ".json";
      data := LoadData(file);
      persisted := file;
    }

    /** `_save_data`: the file now holds the in-memory collection. */
    method SaveData()
      modifies this`persisted
      ensures Synced()
    {
      persisted := Document(data);
    }

    /** `get_all`: the whole collection. */
    function GetAll(): (all: map<string, Json>)
      reads this
      ensures all == data
    {
      data
    }

    /** `get`: the document stored under `id`, or None when there is none. */
    function Get(id: string): (r: Option<Json>)
      reads this
      ensures r.Some? <==> id in data
      ensures r.Some? ==> r.value == data[id]
    {
      if id in data then Some(data[id]) else None
    }

    /** `create`: stores `item` under `id`, replacing any document already
        there, saves, and returns `item`. */
    method Create(id: string, item: Json) returns (r: Json)
      modifies this`data, this`persisted
      ensures r == item
      ensures data == old(data)[id := item]
      ensures Get(id) == Some(item)
      ensures forall k :: k != id ==> Get(k) == old(Get(k))
      ensures Synced()
    {
      data := data[id := item];
      SaveData();
      r := item;
    }

    /** `update`: replaces the document under an existing `id` and saves; an
        unknown `id` yields None and changes nothing, the file included. */
    method Update(id: string, item: Json) returns (r: Option<Json>)
      modifies this`data, this`persisted
      ensures r.Some? <==> id in old(data)
      ensures id !in old(data) ==> data == old(data) && persisted == old(persisted)
      ensures id in old(data) ==> r == Some(item) && data == old(data)[id := item] && Synced()
      ensures forall k :: k != id ==> Get(k) == old(Get(k))
    {
      if id !in data {
        return None;
      }
      data := data[id := item];
      SaveData();
      r := Some(item);
    }

    /** `delete`: removes the document under an existing `id` and saves,
        reporting true; an unknown `id` yields false and changes nothing. */
    method Delete(id: string) returns (deleted: bool)
      modifies this`data, this`persisted
      ensures deleted <==> id in old(data)
      ensures !deleted ==> data == old(data) && persisted == old(persisted)
      ensures deleted ==> data == old(data) - {id} && Synced()
      ensures Get(id) == None
      ensures forall k :: k != id ==> Get(k) == old(Get(k))
    {
      if id !in data {
        return false;
      }
      data := data - {id};
      SaveData();
      deleted := true;
    }
  }

  /** Reopening the collection after `create`, on the file the store has just
      written, finds the same collection: the new document and all the others. */
  method CreateThenReopen(db: JsonDatabase, id: string, item: Json) returns (reopened: JsonDatabase)
    modifies db
    ensures fresh(reopened)
    ensures reopened.data == db.data == old(db.data)[id := item]
    ensures reopened.Get(id) == Some(item)
    ensures reopened.Synced()
  {
    var created := db.Create(id, item);
    reopened := new JsonDatabase(db.collectionName, db.persisted);
  }

  /** Reopening after `update` finds the replaced document when the id existed,
      and otherwise whatever the file held before. */
  method UpdateThenReopen(db: JsonDatabase, id: string, item: Json) returns (reopened: JsonDatabase)
    modifies db
    ensures fresh(reopened)
    ensures id in old(db.data) ==> reopened.data == db.data && reopened.Get(id) == Some(item)
    ensures id !in old(db.data) ==> reopened.data == LoadData(old(db.persisted))
  {
    var updated := db.Update(id, item);
    reopened := new JsonDatabase(db.collectionName, db.persisted);
  }

  /** Reopening after a successful `delete` no longer finds the document, and
      finds every other one. */
  method DeleteThenReopen(db: JsonDatabase, id: string) returns (reopened: JsonDatabase)
    modifies db
    ensures fresh(reopened)
    ensures id in old(db.data) ==> reopened.data == old(db.data) - {id} && reopened.Get(id) == None
    ensures id !in old(db.data) ==> reopened.data == LoadData(old(db.persisted))
  {
    var deleted := db.Delete(id);
    reopened := new JsonDatabase(db.collectionName, db.persisted);
  }
}
