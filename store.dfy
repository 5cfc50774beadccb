/**
 * The Redis store as one mutable map from keys to entries: a string blob or a
 * field-to-value hash, each with a TTL in seconds (0 = no expiry). Expiry itself
 * is not modelled (there is no clock). `online` stands for the connection: when
 * it is down every command fails. Every write command is recorded in `log`.
 */
module KeyValue {
  import opened Domain
  import opened Json

  datatype Entry =
    | Blob(payload: Payload, ttl: nat)
    | Hash(fields: map<string, string>, ttl: nat)

  datatype Write =
    | SetCall(key: string, payload: Payload, ttl: nat)
    | HSetCall(key: string, fields: map<string, string>)
    | ExpireCall(key: string, ttl: nat)

  type Entries = map<string, Entry>

  const SevenDays: nat := 7 * 24 * 60 * 60
  const FiveMinutes: nat := 5 * 60

  /** GET: the blob at key; redis.Nil when absent; WRONGTYPE on a hash. */
  function GetOf(m: Entries, online: bool, key: string): (r: Result<Payload>)
    ensures r.Ok? <==> online && key in m && m[key].Blob?
    ensures r.Ok? ==> r.value == m[key].payload
    ensures online && key !in m ==> r == Err(StoreNil)
  {
    if !online then Err(StoreDown)
    else if key !in m then Err(StoreNil)
    else if m[key].Hash? then Err(WrongType)
    else Ok(m[key].payload)
  }

  /** SET key value EX ttl: replaces whatever the key held, TTL included. */
  function SetOf(m: Entries, online: bool, key: string, p: Payload, ttl: nat): (m': Entries)
    ensures online ==> GetOf(m', online, key) == Ok(p) && m'[key].ttl == ttl
    ensures !online ==> m' == m
    ensures forall k :: k != key ==> GetOf(m', online, k) == GetOf(m, online, k)
    ensures m'.Keys == if online then m.Keys + {key} else m.Keys
  {
    if online then m[key := Blob(p, ttl)] else m
  }

  /** HGETALL: the fields of the hash at key; an absent key reads as no fields. */
  function HGetAllOf(m: Entries, online: bool, key: string): (r: Result<map<string, string>>)
    ensures r.Ok? <==> online && !(key in m && m[key].Blob?)
    ensures r.Ok? && key !in m ==> r.value == map[]
  {
    if !online then Err(StoreDown)
    else if key !in m then Ok(map[])
    else if m[key].Blob? then Err(WrongType)
    else Ok(m[key].fields)
  }

  function HSetResult(m: Entries, online: bool, key: string): Outcome {
    if !online then Fail(StoreDown)
    else if key in m && m[key].Blob? then Fail(WrongType)
    else Pass
  }

  /** HSET key f v ...: merges the fields into the hash, keeping its TTL; a new hash has none. */
  function HSetOf(m: Entries, online: bool, key: string, fields: map<string, string>): (m': Entries)
    ensures HSetResult(m, online, key).Pass? ==>
      HGetAllOf(m', online, key).Ok? &&
      forall f :: f in fields ==> f in HGetAllOf(m', online, key).value && HGetAllOf(m', online, key).value[f] == fields[f]
    ensures HSetResult(m, online, key).Fail? ==> m' == m
    ensures forall k :: k != key ==> (k in m' <==> k in m)
    ensures forall k :: k != key && k in m ==> m'[k] == m[k]
  {
    if HSetResult(m, online, key).Fail? then m
    else if key in m then m[key := Hash(m[key].fields + fields, m[key].ttl)]
    else m[key := Hash(fields, 0)]
  }

  function ExistsOf(m: Entries, online: bool, key: string): (r: Result<bool>)
    ensures r.Ok? <==> online
    ensures r.Ok? ==> r.value == (key in m)
  {
    if online then Ok(key in m) else Err(StoreDown)
  }

  /** EXPIRE: sets the TTL of an existing key, of either kind. */
  function ExpireOf(m: Entries, online: bool, key: string, ttl: nat): (m': Entries)
    ensures m'.Keys == m.Keys
    ensures online && key in m ==> m'[key].ttl == ttl
    ensures forall k :: k in m && (k != key || !online) ==> m'[k] == m[k]
  {
    if online && key in m then
      m[key := if m[key].Blob? then Blob(m[key].payload, ttl) else Hash(m[key].fields, ttl)]
    else m
  }

  class Store {
    var entries: Entries
    const online: bool
    var log: seq<Write>

    constructor (initial: Entries, online: bool)
      ensures entries == initial && this.online == online && log == []
    {
      entries := initial;
      this.online := online;
      log := [];
    }

    method Get(key: string) returns (r: Result<Payload>)
      ensures r == GetOf(entries, online, key)
    {
      if !online {
        r := Err(StoreDown);
      } else if key !in entries {
        r := Err(StoreNil);
      } else if entries[key].Hash? {
        r := Err(WrongType);
      } else {
        r := Ok(entries[key].payload);
      }
    }

    method Set(key: string, p: Payload, ttl: nat) returns (r: Outcome)
      modifies this
      ensures r == if online then Pass else Fail(StoreDown)
      ensures entries == SetOf(old(entries), online, key, p, ttl)
      ensures log == old(log) + [SetCall(key, p, ttl)]
    {
      log := log + [SetCall(key, p, ttl)];
      if online {
        entries := entries[key := Blob(p, ttl)];
        r := Pass;
      } else {
        r := Fail(StoreDown);
      }
    }

    method HGetAll(key: string) returns (r: Result<map<string, string>>)
      ensures r == HGetAllOf(entries, online, key)
    {
      if !online {
        r := Err(StoreDown);
      } else if key !in entries {
        r := Ok(map[]);
      } else if entries[key].Blob? {
        r := Err(WrongType);
      } else {
        r := Ok(entries[key].fields);
      }
    }

    method HSet(key: string, fields: map<string, string>) returns (r: Outcome)
      modifies this
      ensures r == HSetResult(old(entries), online, key)
      ensures entries == HSetOf(old(entries), online, key, fields)
      ensures log == old(log) + [HSetCall(key, fields)]
    {
      log := log + [HSetCall(key, fields)];
      r := HSetResult(entries, online, key);
      if r.Pass? {
        if key in entries {
          entries := entries[key := Hash(entries[key].fields + fields, entries[key].ttl)];
        } else {
          entries := entries[key := Hash(fields, 0)];
        }
      }
    }

    method Exists(key: string) returns (r: Result<bool>)
      ensures r == ExistsOf(entries, online, key)
    {
      r := if online then Ok(key in entries) else Err(StoreDown);
    }

    method Expire(key: string, ttl: nat) returns (r: Result<bool>)
      modifies this
      ensures r == if online then Ok(key in old(entries)) else Err(StoreDown)
      ensures entries == ExpireOf(old(entries), online, key, ttl)
      ensures log == old(log) + [ExpireCall(key, ttl)]
    {
      log := log + [ExpireCall(key, ttl)];
      if !online {
        r := Err(StoreDown);
      } else {
        r := Ok(key in entries);
        if key in entries {
          var e := entries[key];
          entries := entries[key := if e.Blob? then Blob(e.payload, ttl) else Hash(e.fields, ttl)];
        }
      }
    }
  }
}
