/**
 * The part of Redis the bots use, as a sequential in-memory store: list keys
 * (RPUSH / LPOP), plain string keys set with SETNX, and DEL. A command that
 * fails in the client (a lost connection) is a `fault` argument chosen by the
 * caller; a list command on a string key answers WRONGTYPE, as Redis does.
 */
module RedisStore {
  import opened Wrappers

  datatype RedisError = WrongType | ConnectionLost

  datatype Reply<T> = Ok(value: T) | Err(error: RedisError)

  class Store {
    /** List keys; Redis deletes a list key once its list is empty. */
    var lists: map<string, seq<string>>
    /** String keys (only the processing locks are ever set). */
    var locks: set<string>

    ghost predicate Valid()
      reads this
    {
      forall k :: k in lists ==> k !in locks && |lists[k]| > 0
    }

    /** The list stored at `key`, `[]` for a missing key (LRANGE key 0 -1). */
    function List(key: string): (l: seq<string>)
      reads this
      ensures key !in lists ==> l == []
    {
      if key in lists then lists[key] else []
    }

    predicate Exists(key: string)
      reads this
    {
      key in lists || key in locks
    }

    constructor ()
      ensures Valid() && lists == map[] && locks == {}
    {
      lists := map[];
      locks := {};
    }

    /** SETNX key value: sets the key only if it does not exist as any type. */
    method SetNx(key: string) returns (ok: bool)
      requires Valid()
      modifies this
      ensures Valid()
      ensures ok <==> !old(Exists(key))
      ensures lists == old(lists)
      ensures locks == if ok then old(locks) + {key} else old(locks)
    {
      ok := key !in lists && key !in locks;
      if ok {
        locks := locks + {key};
      }
    }

    /** DEL key: removes the key whatever its type; a missing key is no error. */
    method Delete(key: string)
      requires Valid()
      modifies this
      ensures Valid()
      ensures lists == old(lists) - {key} && locks == old(locks) - {key}
    {
      lists := lists - {key};
      locks := locks - {key};
    }

    /** RPUSH key value: appends at the tail and answers the new length. */
    method RPush(key: string, value: string, fault: bool) returns (r: Reply<nat>)
      requires Valid()
      modifies this
      ensures Valid() && locks == old(locks)
      ensures fault ==> r == Err(ConnectionLost)
      ensures !fault && key in locks ==> r == Err(WrongType)
      ensures r.Err? <==> fault || key in locks
      ensures r.Err? ==> lists == old(lists)
      ensures r.Ok? ==> lists == old(lists)[key := old(List(key)) + [value]] && r.value == |List(key)|
    {
      if fault {
        return Err(ConnectionLost);
      }
      if key in locks {
        return Err(WrongType);
      }
      var l := List(key) + [value];
      lists := lists[key := l];
      r := Ok(|l|);
    }

    /** LPOP key: removes and answers the head, `None` for a missing key. */
    method LPop(key: string, fault: bool) returns (r: Reply<Option<string>>)
      requires Valid()
      modifies this
      ensures Valid() && locks == old(locks)
      ensures fault ==> r == Err(ConnectionLost)
      ensures !fault && key in locks ==> r == Err(WrongType)
      ensures r.Err? <==> fault || key in locks
      ensures r.Err? || r == Ok(None) ==> lists == old(lists)
      ensures r == Ok(None) <==> !fault && key !in locks && old(List(key)) == []
      ensures r.Ok? && r.value.Some? ==>
        old(List(key)) != [] && r.value.value == old(List(key))[0]
        && List(key) == old(List(key))[1..]
      ensures r.Ok? ==> forall k :: k != key ==> List(k) == old(List(k))
    {
      if fault {
        return Err(ConnectionLost);
      }
      if key in locks {
        return Err(WrongType);
      }
      if key !in lists {
        return Ok(None);
      }
      var l := lists[key];
      if |l| == 1 {
        lists := lists - {key};
      } else {
        lists := lists[key := l[1..]];
      }
      r := Ok(Some(l[0]));
    }
  }
}
