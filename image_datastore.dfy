/** The keyed store of the image bot: thread records only. Its two operations
    are the thread half of `Datastore` and are specified by the same
    functions. */
module ImageDatastore {

  import opened Wrappers
  import opened Messages
  import opened Models
  import Datastore

  class ThreadStore {
    /** Thread records by thread id. */
    var threads: map<string, Thread>
    /** The time stamped on a record created now; the environment's clock. */
    var clock: int

    constructor (clock: int)
      ensures threads == map[] && this.clock == clock
    {
      threads := map[];
      this.clock := clock;
    }

    /** `store_messages(thread_id, messages=[], thread_type="")` */
    method StoreMessages(threadId: Option<string>, messages: seq<Message> := [], threadType: string := "")
      modifies this`threads
      ensures threads == Datastore.PutThread(old(threads), threadId, messages, threadType, clock)
    {
      if !Datastore.Truthy(threadId) {
        return;
      }
      var id := threadId.value;
      var thread := if id in threads then threads[id] else NewThread(clock);
      thread := thread.(messageHistory := WrapHistory(messages), threadType := threadType);
      threads := threads[id := thread];
    }

    /** `get_thread(thread_id)` */
    method GetThread(threadId: Option<string>) returns (t: Option<Thread>)
      ensures t == Datastore.LookupThread(threads, threadId)
      ensures t.Some? ==> t.value == threads[threadId.value]
    {
      if !Datastore.Truthy(threadId) {
        return None;
      }
      t := if threadId.value in threads then Some(threads[threadId.value]) else None;
    }
  }
}
