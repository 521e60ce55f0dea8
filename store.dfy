/**
  The per-user key-value table kept in memory by the store: a map from a user
  id to that user's entry, and from a key ('settings' or 'token') to the
  document saved under it. Writing the table to the JSON file and reading it
  back at start-up are not modelled; only the in-memory table is.
 */
module Store {

  /** The two keys the bound helpers fix: 'settings' and 'token'. */
  datatype Key = Settings | Token

  /** What a lookup yields, keeping apart the two falsy answers of the source:
      `NoUser` is the `false` returned for a user without an entry, `NoKey`
      is the `undefined` of an entry that lacks the key. */
  datatype Lookup<V> = NoUser | NoKey | Found(value: V)

  type Entry<V> = map<Key, V>

  type Data<V> = map<string, Entry<V>>

  /** The lookup `get(key, userId)` performs on the table. */
  function Find<V>(data: Data<V>, key: Key, userId: string): Lookup<V>
  {
    if userId !in data then NoUser
    else if key !in data[userId] then NoKey
    else Found(data[userId][key])
  }

  /** The update `save(key, userId, obj)` performs on the table: the entry of
      the user is created on demand, then the key is set in it. */
  function Put<V>(data: Data<V>, key: Key, userId: string, obj: V): Data<V>
  {
    var entry := if userId in data then data[userId] else map[];
    data[userId := entry[key := obj]]
  }

  /** Saving then reading the same key of the same user yields what was saved. */
  lemma FindPutSame<V>(data: Data<V>, key: Key, userId: string, obj: V)
    ensures Find(Put(data, key, userId, obj), key, userId) == Found(obj)
  {
  }

  /** Saving under one key leaves the user's other key as it was; only a user
      who had no entry at all now has one, so the other key reads `undefined`
      where it read `false` before. */
  lemma FindPutOtherKey<V>(data: Data<V>, key: Key, other: Key, userId: string, obj: V)
    requires other != key
    ensures Find(Put(data, key, userId, obj), other, userId)
         == if userId in data then Find(data, other, userId) else NoKey
  {
  }

  /** Saving for one user changes nothing that any other user reads. */
  lemma FindPutOtherUser<V>(data: Data<V>, key: Key, k: Key, userId: string, w: string, obj: V)
    requires w != userId
    ensures Find(Put(data, key, userId, obj), k, w) == Find(data, k, w)
  {
  }

  /** Saving a document that is already stored under the key leaves the table as it was. */
  lemma PutStored<V>(data: Data<V>, key: Key, userId: string, obj: V)
    requires Find(data, key, userId) == Found(obj)
    ensures Put(data, key, userId, obj) == data
  {
    var after := Put(data, key, userId, obj);
    assert after.Keys == data.Keys;
    assert after[userId] == data[userId];
  }

  /** The entries of `users`, one per user and in the same order, as `getValues` maps them. */
  function ValuesOf<V>(users: seq<string>, data: Data<V>): (r: seq<Entry<V>>)
    requires forall w :: w in users ==> w in data
    ensures |r| == |users|
    ensures forall i :: 0 <= i < |users| ==> r[i] == data[users[i]]
  {
    if users == [] then [] else [data[users[0]]] + ValuesOf(users[1..], data)
  }

  /** The module-level table. `users` is the key order of the table object,
      which for user ids that are neither array-index-like nor inherited
      property names is the order in which users were added. `saves` counts
      the writes of the table to the data file. */
  class Table<V> {
    var data: Data<V>
    var users: seq<string>
    /** How many times the table has been written out to the data file. */
    ghost var saves: nat

    ghost predicate Valid()
      reads this
    {
      && (forall i, j :: 0 <= i < j < |users| ==> users[i] != users[j])
      && (forall w :: w in data <==> w in users)
    }

    /** The table as it is right after the data file has been created empty. */
    constructor ()
      ensures Valid()
      ensures data == map[] && users == [] && saves == 0
    {
      data := map[];
      users := [];
      saves := 0;
    }

    /** `get(key, userId)`: `false` for a user with no entry instead of a failure. */
    function Get(key: Key, userId: string): (r: Lookup<V>)
      reads this
      ensures userId !in data ==> r == NoUser
      ensures userId in data && key !in data[userId] ==> r == NoKey
      ensures userId in data && key in data[userId] ==> r == Found(data[userId][key])
    {
      Find(data, key, userId)
    }

    /** `getUsers()`: every user with an entry, each once, in the order they were added. */
    function GetUsers(): (r: seq<string>)
      reads this
      requires Valid()
      ensures r == users
      ensures forall w :: w in r <==> w in data
      ensures forall i, j :: 0 <= i < j < |r| ==> r[i] != r[j]
    {
      users
    }

    /** `getValues()`: exactly one entry per user, in the order of `GetUsers()`. */
    function GetValues(): (r: seq<Entry<V>>)
      reads this
      requires Valid()
      ensures |r| == |GetUsers()|
      ensures forall i :: 0 <= i < |r| ==> GetUsers()[i] in data && r[i] == data[GetUsers()[i]]
    {
      ValuesOf(users, data)
    }

    /** `save(key, userId, obj)`: the user's entry is created on demand and the
        key set in it; every other user and key reads as before. */
    method Save(key: Key, userId: string, obj: V)
      requires Valid()
      modifies this
      ensures Valid()
      ensures data == Put(old(data), key, userId, obj)
      ensures saves == old(saves) + 1
      ensures users == if userId in old(data) then old(users) else old(users) + [userId]
      ensures userId in GetUsers()
      ensures Get(key, userId) == Found(obj)
      ensures forall k :: k != key ==>
                Get(k, userId) == if userId in old(data) then old(Get(k, userId)) else NoKey
      ensures forall k, w :: w != userId ==> Get(k, w) == old(Get(k, w))
    {
      if userId !in data {
        users := users + [userId];
      }
      data := Put(data, key, userId, obj);
      saves := saves + 1;
    }

    /** `saveSettings`: `save` bound to the 'settings' key. */
    method SaveSettings(userId: string, obj: V)
      requires Valid()
      modifies this
      ensures Valid()
      ensures data == Put(old(data), Settings, userId, obj)
      ensures saves == old(saves) + 1
      ensures users == if userId in old(data) then old(users) else old(users) + [userId]
      ensures GetSettings(userId) == Found(obj)
      ensures GetToken(userId) == if userId in old(data) then old(GetToken(userId)) else NoKey
    {
      Save(Settings, userId, obj);
    }

    /** `saveToken`: `save` bound to the 'token' key. */
    method SaveToken(userId: string, obj: V)
      requires Valid()
      modifies this
      ensures Valid()
      ensures data == Put(old(data), Token, userId, obj)
      ensures saves == old(saves) + 1
      ensures users == if userId in old(data) then old(users) else old(users) + [userId]
      ensures GetToken(userId) == Found(obj)
      ensures GetSettings(userId) == if userId in old(data) then old(GetSettings(userId)) else NoKey
    {
      Save(Token, userId, obj);
    }

    /** `getSettings`: `get` bound to the 'settings' key. */
    function GetSettings(userId: string): (r: Lookup<V>)
      reads this
      ensures r == Get(Settings, userId)
      ensures userId !in data ==> r == NoUser
      ensures userId in data && Settings !in data[userId] ==> r == NoKey
      ensures userId in data && Settings in data[userId] ==> r == Found(data[userId][Settings])
    {
      Get(Settings, userId)
    }

    /** `getToken`: `get` bound to the 'token' key. */
    function GetToken(userId: string): (r: Lookup<V>)
      reads this
      ensures r == Get(Token, userId)
      ensures userId !in data ==> r == NoUser
      ensures userId in data && Token !in data[userId] ==> r == NoKey
      ensures userId in data && Token in data[userId] ==> r == Found(data[userId][Token])
    {
      Get(Token, userId)
    }
  }
}
