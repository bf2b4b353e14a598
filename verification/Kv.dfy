/** The versioned key/value server: every key carries a version, and a Put
    installs its value only when it names the current version. */
module Kv {

  datatype Err = OK | ErrNoKey | ErrVersion | ErrMaybe

  datatype Entry<V> = Entry(value: V, version: nat)

  type Store<V> = map<string, Entry<V>>

  datatype PutArgs<V> = PutArgs(key: string, value: V, version: nat)

  // What a Get answers: the error ErrNoKey, or a value with its version.
  datatype Got<V> = NoKey | Got(value: V, version: nat)

  // Versions start at 1, so 0 can stand for "no such key".
  ghost predicate Versioned<V>(s: Store<V>) {
    forall k :: k in s ==> s[k].version >= 1
  }

  function Version<V>(s: Store<V>, k: string): nat {
    if k in s then s[k].version else 0
  }

  function HandleGet<V>(s: Store<V>, k: string): Got<V> {
    if k in s then Got(s[k].value, s[k].version) else NoKey
  }

  function HandlePut<V>(s: Store<V>, a: PutArgs<V>): (r: (Store<V>, Err))
    ensures Versioned(s) ==> Versioned(r.0)
    ensures Versioned(s) ==> (r.1 == OK <==> a.version == Version(s, a.key))
    ensures r.1 != OK ==> r.0 == s
    ensures r.1 == OK ==> HandleGet(r.0, a.key) == Got(a.value, a.version + 1)
    ensures r.1 == ErrNoKey <==> a.key !in s && a.version != 0
    ensures r.1 != ErrMaybe
    ensures forall k :: k != a.key ==> HandleGet(r.0, k) == HandleGet(s, k)
  {
    if a.key !in s then
      if a.version == 0 then (s[a.key := Entry(a.value, 1)], OK) else (s, ErrNoKey)
    else if a.version == s[a.key].version then
      (s[a.key := Entry(a.value, a.version + 1)], OK)
    else
      (s, ErrVersion)
  }

  /** The server object: two maps over the same keys, updated in place. */
  class KVServer {
    var KV: map<string, string>
    var VersionMap: map<string, nat>

    ghost predicate Valid()
      reads this
    {
      KV.Keys == VersionMap.Keys && Versioned(Contents())
    }

    ghost function Contents(): Store<string>
      reads this
    {
      map k | k in KV && k in VersionMap :: Entry(KV[k], VersionMap[k])
    }

    constructor ()
      ensures Valid() && Contents() == map[]
    {
      KV := map[];
      VersionMap := map[];
    }

    method Get(key: string) returns (reply: Got<string>)
      requires Valid()
      ensures reply == HandleGet(Contents(), key)
    {
      if key !in KV {
        return NoKey;
      }
      return Got(KV[key], VersionMap[key]);
    }

    method Put(args: PutArgs<string>) returns (err: Err)
      requires Valid()
      modifies this
      ensures Valid()
      ensures (Contents(), err) == HandlePut(old(Contents()), args)
    {
      ghost var before := Contents();
      if args.key !in VersionMap {
        if args.version == 0 {
          KV := KV[args.key := args.value];
          VersionMap := VersionMap[args.key := args.version + 1];
          assert Contents() == before[args.key := Entry(args.value, 1)];
          return OK;
        } else {
          return ErrNoKey;
        }
      }
      if args.version == VersionMap[args.key] {
        KV := KV[args.key := args.value];
        VersionMap := VersionMap[args.key := args.version + 1];
        assert Contents() == before[args.key := Entry(args.value, args.version + 1)];
        return OK;
      }
      return ErrVersion;
    }
  }
}
