/** The keyed store of the API-key bot: one `Thread` record per thread id and
    one `User` record per user id, each written by `get_or_insert`, field
    assignment and `put()`. The specification functions describe a write and
    a read on the two maps; the `Datastore` class performs them in place. */
module Datastore {

  import opened Wrappers
  import opened Messages
  import opened Models

  /** Python truthiness of an optional id: neither `None` nor `""`. */
  predicate Truthy(id: Option<string>)
  {
    id.Some? && id.value != ""
  }

  /** The thread map after `store_messages(threadId, messages, threadType)`. */
  function PutThread(threads: map<string, Thread>, threadId: Option<string>,
                     messages: seq<Message>, threadType: string, clock: int): (r: map<string, Thread>)
    ensures !Truthy(threadId) ==> r == threads
    ensures Truthy(threadId) ==>
      && r.Keys == threads.Keys + {threadId.value}
      && GetMessages(r[threadId.value]) == Ok(messages)
      && r[threadId.value].messageHistory == WrapHistory(messages)
      && r[threadId.value].threadType == threadType
      && r[threadId.value].timestamp ==
           (if threadId.value in threads then threads[threadId.value].timestamp else clock)
    ensures forall k :: k in threads && (threadId.None? || k != threadId.value) ==> k in r && r[k] == threads[k]
  {
    if !Truthy(threadId) then threads
    else
      var shell := if threadId.value in threads then threads[threadId.value] else NewThread(clock);
      threads[threadId.value := shell.(messageHistory := WrapHistory(messages), threadType := threadType)]
  }

  /** `get_thread(threadId)` */
  function LookupThread(threads: map<string, Thread>, threadId: Option<string>): (r: Option<Thread>)
    ensures r.Some? <==> Truthy(threadId) && threadId.value in threads
    ensures r.Some? ==> r.value == threads[threadId.value]
  {
    if Truthy(threadId) && threadId.value in threads then Some(threads[threadId.value]) else None
  }

  /** The user map after `store_api_key(userId, apiKey)`. */
  function PutApiKey(users: map<string, User>, userId: string, apiKey: string): (r: map<string, User>)
    ensures r.Keys == users.Keys + {userId}
    ensures r[userId] == Models.User(apiKey)
    ensures forall k :: k in users && k != userId ==> r[k] == users[k]
  {
    users[userId := Models.User(apiKey)]
  }

  /** `get_api_key(userId)` */
  function LookupApiKey(users: map<string, User>, userId: string): (r: Option<string>)
    ensures r.Some? <==> userId in users
    ensures r.Some? ==> r.value == users[userId].apiKey
  {
    if userId in users then Some(users[userId].apiKey) else None
  }

  /** A store followed by a read with the same id returns exactly the stored
      messages and type, and nothing of the earlier content. */
  lemma GetThreadAfterStore(threads: map<string, Thread>, threadId: Option<string>,
                            messages: seq<Message>, threadType: string, clock: int)
    requires Truthy(threadId)
    ensures var t := LookupThread(PutThread(threads, threadId, messages, threadType, clock), threadId);
      t.Some? && GetMessages(t.value) == Ok(messages) && t.value.threadType == threadType
  {
  }

  /** Two writes to one id: the second wins outright, with no merge; the
      creation time stays that of the first write. */
  lemma LastWriteWins(threads: map<string, Thread>, threadId: Option<string>,
                      m1: seq<Message>, t1: string, c1: int,
                      m2: seq<Message>, t2: string, c2: int)
    ensures PutThread(PutThread(threads, threadId, m1, t1, c1), threadId, m2, t2, c2)
         == PutThread(threads, threadId, m2, t2, c1)
  {
  }

  /** A write creates at most one record: the number of records grows by one
      for a new id and not at all for a known one. */
  lemma {:induction false} AtMostOneRecordPerKey(threads: map<string, Thread>, threadId: Option<string>,
                                                messages: seq<Message>, threadType: string, clock: int)
    requires Truthy(threadId)
    ensures |PutThread(threads, threadId, messages, threadType, clock)| ==
            |threads| + (if threadId.value in threads then 0 else 1)
  {
    var r := PutThread(threads, threadId, messages, threadType, clock);
    if threadId.value in threads {
      assert r.Keys == threads.Keys;
    } else {
      assert r.Keys == threads.Keys + {threadId.value};
    }
    assert |r| == |r.Keys| && |threads| == |threads.Keys|;
  }

  /** `get_api_key` after `store_api_key` returns the last key written, and a
      never-written user reads as `None`. */
  lemma GetApiKeyAfterStore(users: map<string, User>, userId: string, apiKey: string, other: string)
    ensures LookupApiKey(PutApiKey(users, userId, apiKey), userId) == Some(apiKey)
    ensures other != userId ==> LookupApiKey(PutApiKey(users, userId, apiKey), other) == LookupApiKey(users, other)
  {
  }

  class Datastore {
    /** Thread records by thread id. */
    var threads: map<string, Thread>
    /** User records by user id. */
    var users: map<string, User>
    /** The time `auto_now_add` stamps on a record created now; the environment's clock. */
    var clock: int

    constructor (clock: int)
      ensures threads == map[] && users == map[] && this.clock == clock
    {
      threads := map[];
      users := map[];
      this.clock := clock;
    }

    /** `store_messages(thread_id, messages=[], thread_type="")` */
    method StoreMessages(threadId: Option<string>, messages: seq<Message> := [], threadType: string := "")
      modifies this`threads
      ensures threads == PutThread(old(threads), threadId, messages, threadType, clock)
    {
      if !Truthy(threadId) {
        return;
      }
      var id := threadId.value;
      var thread: Thread;
      if id in threads {
        thread := threads[id];
      } else {
        thread := NewThread(clock);
      }
      thread := thread.(messageHistory := WrapHistory(messages));
      thread := thread.(threadType := threadType);
      threads := threads[id := thread];
    }

    /** `get_thread(thread_id)` */
    method GetThread(threadId: Option<string>) returns (t: Option<Thread>)
      ensures t == LookupThread(threads, threadId)
    {
      if !Truthy(threadId) {
        return None;
      }
      if threadId.value in threads {
        t := Some(threads[threadId.value]);
      } else {
        t := None;
      }
    }

    /** `store_api_key(user_id, api_key)` */
    method StoreApiKey(userId: string, apiKey: string)
      modifies this`users
      ensures users == PutApiKey(old(users), userId, apiKey)
    {
      var user := if userId in users then users[userId] else Models.User("");
      user := user.(apiKey := apiKey);
      users := users[userId := user];
    }

    /** `get_api_key(user_id)` */
    method GetApiKey(userId: string) returns (k: Option<string>)
      ensures k == LookupApiKey(users, userId)
    {
      if userId in users {
        k := Some(users[userId].apiKey);
      } else {
        k := None;
      }
    }
  }
}
