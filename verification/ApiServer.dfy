/** The API server as the controller meets it: a store that requests change in place, and the fate
    of each request. Once the replies have run out every request is lost, which is a crash. */
module ApiServers {
  import opened Objects
  import opened Cluster
  import opened Machine

  datatype Result<+T> = Ok(value: T) | Err(error: Error)

  class ApiServer {
    var store: Store
    var replies: seq<Reply>

    constructor (store: Store, replies: seq<Reply>)
      ensures this.store == store && this.replies == replies
    {
      this.store := store;
      this.replies := replies;
    }

    /** Gets an object that the store holds as `found`. */
    method Get<T>(found: Option<T>) returns (r: Result<T>)
      modifies this`replies
      ensures replies == Tail(old(replies))
      ensures r == if !Head(old(replies)).Answer? then Err(Unavailable)
                   else if found.None? then Err(NotFound) else Ok(found.value)
    {
      var reply := Head(replies);
      replies := Tail(replies);
      match reply
      case Answer(_) => r := if found.None? then Err(NotFound) else Ok(found.value);
      case _ => r := Err(Unavailable);
    }

    /** Creates, updates or deletes: the server decides on `verdict` and the effect is `now`. */
    method Put(verdict: Option<Error>, now: Store) returns (status: Status)
      modifies this
      ensures replies == Tail(old(replies))
      ensures var w := Write(old(store), verdict, now, Head(old(replies)));
        store == w.store && status == if w.error.Some? then Failed(w.error.value) else Done
    {
      var reply := Head(replies);
      replies := Tail(replies);
      if reply.Answer? {
        if verdict.Some? {
          return Failed(verdict.value);
        }
        store := now;
        return Done;
      }
      if reply.Unacked? && verdict.None? {
        store := now;
      }
      return Failed(Unavailable);
    }

    /** Lists the objects `ids`, in the order the server likes. */
    method List(ids: set<NsName>) returns (r: Result<seq<NsName>>)
      modifies this`replies
      ensures replies == Tail(old(replies))
      ensures var reply := Head(old(replies));
        r == if reply.Answer? && Enumerates(reply.listing, ids) then Ok(reply.listing) else Err(Unavailable)
    {
      var reply := Head(replies);
      replies := Tail(replies);
      if reply.Answer? && Enumerates(reply.listing, ids) {
        return Ok(reply.listing);
      }
      return Err(Unavailable);
    }
  }
}
