// The client's request bookkeeping: the registry of pending completion handles, the cache of
// immutable data, the request counters and the client type, all updated in place by the
// operations that issue requests.
module CoreClient {
  import opened Routing
  import opened Core
  import opened ClientTypes
  import opened Futures

  /** What one request handed to routing asks for. */
  datatype RequestBody =
    | GetRequest(dataId: DataIdentifier)
    | PutRequest(putData: Data)
    | PostRequest(postData: Data)
    | DeleteRequest(deleteData: Data)
    | AppendRequest(appender: AppendWrapper)
    | AccountInfoRequest

  /** A request handed to routing: what, to whom, under which message id. */
  datatype Request = Request(body: RequestBody, dst: Authority, msgId: MessageId)

  /** A oneshot channel: the client keeps its completing end in `heads`, the caller's future
      waits on the other end. `event` is what it was completed with, None while pending. */
  class Oneshot {
    var event: Option<CoreEvent>

    constructor ()
      ensures event == None
    {
      event := None;
    }

    /** Completes the channel; a handle completes at most once. */
    method Complete(ev: CoreEvent)
      requires event == None
      modifies this
      ensures event == Some(ev)
    {
      event := Some(ev);
    }
  }

  /** Every cached entry is immutable data stored under its own name. */
  predicate CacheConsistent(cache: map<XorName, Data>) {
    forall name :: name in cache ==> cache[name].Immutable? && cache[name].Name() == name
  }

  /** A `get` that the cache answers without a request. */
  predicate CacheHit(cache: map<XorName, Data>, dataId: DataIdentifier) {
    dataId.ImmutableId? && dataId.name in cache
  }

  /** The handle `rx` of a request handed to routing under `id`: on a successful send it is
      registered under `id` and stays pending; on a failed send it is completed at once with
      the converted error under the event constructor `kind`, and nothing is registered. */
  ghost predicate Filed(before: map<MessageId, Oneshot>, after: map<MessageId, Oneshot>,
                        id: MessageId, rx: Oneshot, send: SendOutcome, kind: EventKind)
    reads rx
  {
    match send
    case Sent => after == before[id := rx] && rx.event == None
    case SendFailed(e) => after == before && rx.event == Some(FailureEvent(kind, SendError(e)))
  }

  /** The client's shared state. `sent` lists the requests handed to routing, in order (the
      routing handle itself is not modelled); `calls` is the history of operations issued. */
  class Client {
    var heads: map<MessageId, Oneshot>
    var cache: map<XorName, Data>
    var clientType: ClientType
    var stats: Stats
    var sent: seq<Request>
    ghost var calls: seq<Op>

    ghost predicate Valid()
      reads this
    {
      CacheConsistent(cache) && stats == Tally(calls)
    }

    /** A new client: nothing pending, nothing cached, all counters at zero. */
    constructor (clientType: ClientType)
      ensures Valid()
      ensures heads == map[] && cache == map[] && this.clientType == clientType
      ensures stats == DefaultStats() && sent == [] && calls == []
    {
      heads := map[];
      cache := map[];
      this.clientType := clientType;
      stats := DefaultStats();
      sent := [];
      calls := [];
    }

    // ------------------------------------------------------------ the registry

    /** Takes the handle registered under `id` out of the registry. */
    method RemoveHead(id: MessageId) returns (head: Option<Oneshot>)
      modifies this`heads
      ensures heads == old(heads) - {id}
      ensures head == (if id in old(heads) then Some(old(heads)[id]) else None)
    {
      if id in heads {
        head := Some(heads[id]);
      } else {
        head := None;
      }
      heads := heads - {id};
    }

    /** Registers `head` under `msgId`. */
    method InsertHead(msgId: MessageId, head: Oneshot)
      modifies this`heads
      ensures heads == old(heads)[msgId := head]
    {
      heads := heads[msgId := head];
    }

    /** Hands `request` to routing; registers `rx` if the send succeeds, otherwise completes it. */
    method Submit(request: Request, send: SendOutcome, rx: Oneshot, kind: EventKind)
      requires rx.event == None
      modifies this`heads, this`sent, rx
      ensures sent == old(sent) + [request]
      ensures Filed(old(heads), heads, request.msgId, rx, send, kind)
    {
      sent := sent + [request];
      match send
      case Sent =>
        InsertHead(request.msgId, rx);
      case SendFailed(e) =>
        rx.Complete(FailureEvent(kind, SendError(e)));
    }

    // ------------------------------------------------------------ requests

    /** Fetches data. Immutable data found in the cache is answered at once, without a request. */
    method Get(dataId: DataIdentifier, dst: Option<Authority>, msgId: MessageId, send: SendOutcome)
      returns (rx: Oneshot)
      requires Valid()
      modifies this`stats, this`calls, this`heads, this`sent
      ensures Valid() && fresh(rx)
      ensures calls == old(calls) + [GetOp]
      ensures stats == old(stats).(issuedGets := old(stats).issuedGets + 1)
      ensures CacheHit(cache, dataId) ==>
                && rx.event == Some(CoreEvent.Get(Ok(cache[dataId.name])))
                && heads == old(heads) && sent == old(sent)
      ensures CacheHit(cache, dataId) ==>
                var got := GetFuture(rx.event);
                got.Ok? && got.value.Immutable? && got.value.Name() == dataId.name
      ensures !CacheHit(cache, dataId) ==>
                && sent == old(sent) + [Request(GetRequest(dataId), DataDestination(dataId.name, dst), msgId)]
                && Filed(old(heads), heads, msgId, rx, send, GetKind)
    {
      stats := Bump(stats, GetOp);
      calls := calls + [GetOp];
      rx := new Oneshot();
      if dataId.ImmutableId? && dataId.name in cache {
        rx.Complete(CoreEvent.Get(Ok(cache[dataId.name])));
        return;
      }
      Submit(Request(GetRequest(dataId), DataDestination(dataId.name, dst), msgId), send, rx, GetKind);
    }

    /** The step a `get` of an immutable identifier that missed the cache adds to its future: a
        fetched value that is immutable data is cached under its own name; the value is passed
        on unchanged. */
    method CacheFetched(dataId: DataIdentifier, fetched: Result<Data>) returns (r: Result<Data>)
      requires Valid()
      modifies this`cache
      ensures Valid()
      ensures r == fetched
      ensures cache == if dataId.ImmutableId? && fetched.Ok? && fetched.value.Immutable?
                       then old(cache)[fetched.value.Name() := fetched.value]
                       else old(cache)
    {
      r := fetched;
      if dataId.ImmutableId? && fetched.Ok? && fetched.value.Immutable? {
        cache := cache[fetched.value.Name() := fetched.value];
      }
    }

    /** Stores data, by default at the client manager. A failed send completes the handle with a
        Get event, which the caller's mutation future reports as ReceivedUnexpectedEvent. */
    method Put(data: Data, dst: Option<Authority>, msgId: MessageId, send: SendOutcome)
      returns (rx: Oneshot)
      requires Valid()
      modifies this`stats, this`calls, this`heads, this`sent
      ensures Valid() && fresh(rx)
      ensures calls == old(calls) + [PutOp]
      ensures stats == old(stats).(issuedPuts := old(stats).issuedPuts + 1)
      ensures ManagerDestination(clientType, dst).Err? ==>
                && rx.event == Some(CoreEvent.Mutation(Err(OperationForbiddenForClient)))
                && MutationFuture(rx.event) == Err(OperationForbiddenForClient)
                && heads == old(heads) && sent == old(sent)
      ensures ManagerDestination(clientType, dst).Ok? ==>
                && sent == old(sent) + [Request(PutRequest(data), ManagerDestination(clientType, dst).value, msgId)]
                && Filed(old(heads), heads, msgId, rx, send, GetKind)
      ensures ManagerDestination(clientType, dst).Ok? && send.SendFailed? ==>
                MutationFuture(rx.event) == Err(ReceivedUnexpectedEvent)
    {
      stats := Bump(stats, PutOp);
      calls := calls + [PutOp];
      rx := new Oneshot();
      match ManagerDestination(clientType, dst)
      case Err(e) =>
        rx.Complete(CoreEvent.Mutation(Err(e)));
      case Ok(a) =>
        Submit(Request(PutRequest(data), a, msgId), send, rx, GetKind);
    }

    /** Updates data, by default at the managers of its name. */
    method Post(data: Data, dst: Option<Authority>, msgId: MessageId, send: SendOutcome)
      returns (rx: Oneshot)
      requires Valid()
      modifies this`stats, this`calls, this`heads, this`sent
      ensures Valid() && fresh(rx)
      ensures calls == old(calls) + [PostOp]
      ensures stats == old(stats).(issuedPosts := old(stats).issuedPosts + 1)
      ensures sent == old(sent) + [Request(PostRequest(data), DataDestination(data.Name(), dst), msgId)]
      ensures Filed(old(heads), heads, msgId, rx, send, MutationKind)
    {
      stats := Bump(stats, PostOp);
      calls := calls + [PostOp];
      rx := new Oneshot();
      Submit(Request(PostRequest(data), DataDestination(data.Name(), dst), msgId), send, rx, MutationKind);
    }

    /** Deletes data, by default at the managers of its name. Its outcome, recovered or not, is
        decoded by MutationFuture and DeleteRecover. */
    method Delete(data: Data, dst: Option<Authority>, msgId: MessageId, send: SendOutcome)
      returns (rx: Oneshot)
      requires Valid()
      modifies this`stats, this`calls, this`heads, this`sent
      ensures Valid() && fresh(rx)
      ensures calls == old(calls) + [DeleteOp]
      ensures stats == old(stats).(issuedDeletes := old(stats).issuedDeletes + 1)
      ensures sent == old(sent) + [Request(DeleteRequest(data), DataDestination(data.Name(), dst), msgId)]
      ensures Filed(old(heads), heads, msgId, rx, send, MutationKind)
    {
      stats := Bump(stats, DeleteOp);
      calls := calls + [DeleteOp];
      rx := new Oneshot();
      Submit(Request(DeleteRequest(data), DataDestination(data.Name(), dst), msgId), send, rx, MutationKind);
    }

    /** Appends to appendable data, by default at the managers of the data appended to. */
    method Append(appender: AppendWrapper, dst: Option<Authority>, msgId: MessageId, send: SendOutcome)
      returns (rx: Oneshot)
      requires Valid()
      modifies this`stats, this`calls, this`heads, this`sent
      ensures Valid() && fresh(rx)
      ensures calls == old(calls) + [AppendOp]
      ensures stats == old(stats).(issuedAppends := old(stats).issuedAppends + 1)
      ensures sent == old(sent) + [Request(AppendRequest(appender), AppendDestination(appender, dst), msgId)]
      ensures Filed(old(heads), heads, msgId, rx, send, MutationKind)
    {
      stats := Bump(stats, AppendOp);
      calls := calls + [AppendOp];
      rx := new Oneshot();
      Submit(Request(AppendRequest(appender), AppendDestination(appender, dst), msgId), send, rx, MutationKind);
    }

    /** Asks for the account's statistics, by default at the client manager. No counter moves.
        Without a client manager the handle is completed with a Mutation event, which the
        caller's account-info future reports as ReceivedUnexpectedEvent. */
    method GetAccountInfo(dst: Option<Authority>, msgId: MessageId, send: SendOutcome)
      returns (rx: Oneshot)
      requires Valid()
      modifies this`calls, this`heads, this`sent
      ensures Valid() && fresh(rx)
      ensures calls == old(calls) + [AccountInfoOp]
      ensures ManagerDestination(clientType, dst).Err? ==>
                && rx.event == Some(CoreEvent.Mutation(Err(OperationForbiddenForClient)))
                && AccountInfoFuture(rx.event) == Err(ReceivedUnexpectedEvent)
                && heads == old(heads) && sent == old(sent)
      ensures ManagerDestination(clientType, dst).Ok? ==>
                && sent == old(sent) + [Request(AccountInfoRequest, ManagerDestination(clientType, dst).value, msgId)]
                && Filed(old(heads), heads, msgId, rx, send, AccountInfoKind)
    {
      calls := calls + [AccountInfoOp];
      rx := new Oneshot();
      match ManagerDestination(clientType, dst)
      case Err(e) =>
        rx.Complete(CoreEvent.Mutation(Err(e)));
      case Ok(a) =>
        Submit(Request(AccountInfoRequest, a, msgId), send, rx, AccountInfoKind);
    }

    // ------------------------------------------------------------ the account

    /** Starts re-storing the session packet: fetches the current packet from the managers of
        the account location. The rest of the update (re-encrypting the account, signing the
        next version, posting it) follows NextSessionPacketVersion. */
    method UpdateSessionPacket(msgId: MessageId, send: SendOutcome) returns (r: Result<Oneshot>)
      requires Valid()
      modifies this`stats, this`calls, this`heads, this`sent
      ensures Valid()
      ensures clientType.Unregistered? ==> r == Err(OperationForbiddenForClient) && unchanged(this)
      ensures clientType.Registered? ==>
                var loc := clientType.accLoc;
                && r.Ok? && fresh(r.value)
                && calls == old(calls) + [GetOp]
                && stats == old(stats).(issuedGets := old(stats).issuedGets + 1)
                && sent == old(sent) + [Request(GetRequest(StructuredId(loc, SessionPacketTag)), NaeManager(loc), msgId)]
                && Filed(old(heads), heads, msgId, r.value, send, GetKind)
    {
      match AccLoc(clientType)
      case Err(e) =>
        r := Err(e);
      case Ok(accLoc) =>
        var rx := Get(StructuredId(accLoc, SessionPacketTag), None, msgId, send);
        r := Ok(rx);
    }

    /** Records the user's root directory in the account (once) and re-stores the session packet. */
    method SetUserRootDirId(dirId: DirId, msgId: MessageId, send: SendOutcome) returns (r: Result<Oneshot>)
      requires Valid()
      modifies this`clientType, this`stats, this`calls, this`heads, this`sent
      ensures Valid()
      ensures old(clientType).Unregistered? ==> r == Err(OperationForbiddenForClient) && unchanged(this)
      ensures old(clientType).Registered? && old(clientType).acc.userRootDir.Some? ==>
                r == Err(RootDirectoryAlreadyExists) && unchanged(this)
      ensures old(clientType).Registered? && old(clientType).acc.userRootDir.None? ==>
                var loc := old(clientType).accLoc;
                && clientType == old(clientType).(acc := old(clientType).acc.(userRootDir := Some(dirId)))
                && r.Ok? && fresh(r.value)
                && calls == old(calls) + [GetOp]
                && stats == old(stats).(issuedGets := old(stats).issuedGets + 1)
                && sent == old(sent) + [Request(GetRequest(StructuredId(loc, SessionPacketTag)), NaeManager(loc), msgId)]
                && Filed(old(heads), heads, msgId, r.value, send, GetKind)
    {
      match clientType
      case Unregistered =>
        r := Err(OperationForbiddenForClient);
      case Registered(acc, _, _, _) =>
        if acc.userRootDir.Some? {
          r := Err(RootDirectoryAlreadyExists);
        } else {
          clientType := clientType.(acc := acc.(userRootDir := Some(dirId)));
          r := UpdateSessionPacket(msgId, send);
        }
    }

    /** Records the configuration root directory in the account (once) and re-stores the
        session packet. */
    method SetConfigRootDirId(dirId: DirId, msgId: MessageId, send: SendOutcome) returns (r: Result<Oneshot>)
      requires Valid()
      modifies this`clientType, this`stats, this`calls, this`heads, this`sent
      ensures Valid()
      ensures old(clientType).Unregistered? ==> r == Err(OperationForbiddenForClient) && unchanged(this)
      ensures old(clientType).Registered? && old(clientType).acc.configRootDir.Some? ==>
                r == Err(RootDirectoryAlreadyExists) && unchanged(this)
      ensures old(clientType).Registered? && old(clientType).acc.configRootDir.None? ==>
                var loc := old(clientType).accLoc;
                && clientType == old(clientType).(acc := old(clientType).acc.(configRootDir := Some(dirId)))
                && r.Ok? && fresh(r.value)
                && calls == old(calls) + [GetOp]
                && stats == old(stats).(issuedGets := old(stats).issuedGets + 1)
                && sent == old(sent) + [Request(GetRequest(StructuredId(loc, SessionPacketTag)), NaeManager(loc), msgId)]
                && Filed(old(heads), heads, msgId, r.value, send, GetKind)
    {
      match clientType
      case Unregistered =>
        r := Err(OperationForbiddenForClient);
      case Registered(acc, _, _, _) =>
        if acc.configRootDir.Some? {
          r := Err(RootDirectoryAlreadyExists);
        } else {
          clientType := clientType.(acc := acc.(configRootDir := Some(dirId)));
          r := UpdateSessionPacket(msgId, send);
        }
    }

    /** The user's root directory, if the client is registered and one is recorded. */
    function UserRootDirId(): (d: Option<DirId>)
      reads this
      ensures d.Some? <==> clientType.Registered? && clientType.acc.userRootDir.Some?
      ensures d.Some? ==> d == clientType.acc.userRootDir
    {
      match Acc(clientType)
      case Ok(acc) => acc.userRootDir
      case Err(_) => None
    }

    /** The configuration root directory, if the client is registered and one is recorded. */
    function ConfigRootDirId(): (d: Option<DirId>)
      reads this
      ensures d.Some? <==> clientType.Registered? && clientType.acc.configRootDir.Some?
      ensures d.Some? ==> d == clientType.acc.configRootDir
    {
      match Acc(clientType)
      case Ok(acc) => acc.configRootDir
      case Err(_) => None
    }

    /** The account's public encryption key; forbidden for an unregistered client. */
    function PublicEncryptionKey(): (r: Result<nat>)
      reads this
      ensures r.Ok? <==> clientType.Registered?
      ensures r.Ok? ==> r.value == clientType.acc.maid.publicEncrypt
      ensures r.Err? ==> r.error == OperationForbiddenForClient
    {
      match Acc(clientType)
      case Ok(acc) => Ok(acc.maid.publicEncrypt)
      case Err(e) => Err(e)
    }

    /** The account's secret encryption key; forbidden for an unregistered client. */
    function SecretEncryptionKey(): (r: Result<nat>)
      reads this
      ensures r.Ok? <==> clientType.Registered?
      ensures r.Ok? ==> r.value == clientType.acc.maid.secretEncrypt
      ensures r.Err? ==> r.error == OperationForbiddenForClient
    {
      match Acc(clientType)
      case Ok(acc) => Ok(acc.maid.secretEncrypt)
      case Err(e) => Err(e)
    }

    /** The account's public signing key; forbidden for an unregistered client. */
    function PublicSigningKey(): (r: Result<PublicKey>)
      reads this
      ensures r.Ok? <==> clientType.Registered?
      ensures r.Ok? ==> r.value == clientType.acc.maid.publicSign
      ensures r.Err? ==> r.error == OperationForbiddenForClient
    {
      match Acc(clientType)
      case Ok(acc) => Ok(acc.maid.publicSign)
      case Err(e) => Err(e)
    }

    /** The account's secret signing key; forbidden for an unregistered client. */
    function SecretSigningKey(): (r: Result<nat>)
      reads this
      ensures r.Ok? <==> clientType.Registered?
      ensures r.Ok? ==> r.value == clientType.acc.maid.secretSign
      ensures r.Err? ==> r.error == OperationForbiddenForClient
    {
      match Acc(clientType)
      case Ok(acc) => Ok(acc.maid.secretSign)
      case Err(e) => Err(e)
    }

    // ------------------------------------------------------------ counters

    /** The number of `get` calls issued so far. */
    function IssuedGets(): (n: nat)
      reads this
      requires Valid()
      ensures n == stats.issuedGets && n == Count(calls, GetOp)
    {
      TallyCounts(calls);
      stats.issuedGets
    }

    /** The number of `put` calls issued so far. */
    function IssuedPuts(): (n: nat)
      reads this
      requires Valid()
      ensures n == stats.issuedPuts && n == Count(calls, PutOp)
    {
      TallyCounts(calls);
      stats.issuedPuts
    }

    /** The number of `post` calls issued so far. */
    function IssuedPosts(): (n: nat)
      reads this
      requires Valid()
      ensures n == stats.issuedPosts && n == Count(calls, PostOp)
    {
      TallyCounts(calls);
      stats.issuedPosts
    }

    /** The number of `delete` calls issued so far. */
    function IssuedDeletes(): (n: nat)
      reads this
      requires Valid()
      ensures n == stats.issuedDeletes && n == Count(calls, DeleteOp)
    {
      TallyCounts(calls);
      stats.issuedDeletes
    }

    /** The number of `append` calls issued so far. */
    function IssuedAppends(): (n: nat)
      reads this
      requires Valid()
      ensures n == stats.issuedAppends && n == Count(calls, AppendOp)
    {
      TallyCounts(calls);
      stats.issuedAppends
    }
  }

  /** What the routing event loop relies on: a request whose send succeeded is pending under
      its message id, removing that id yields its handle, and removing it again yields None. */
  method GetThenRemoveTwice(c: Client, dataId: DataIdentifier, msgId: MessageId)
    returns (rx: Oneshot, first: Option<Oneshot>, second: Option<Oneshot>)
    requires c.Valid() && !CacheHit(c.cache, dataId)
    modifies c
    ensures first == Some(rx) && rx.event == None && second == None
    ensures c.heads == old(c.heads) - {msgId}
  {
    rx := c.Get(dataId, None, msgId, Sent);
    first := c.RemoveHead(msgId);
    second := c.RemoveHead(msgId);
  }
}
