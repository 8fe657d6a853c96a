// Who the client is (unregistered, or logged in to an account) and what it has counted.
module ClientTypes {
  import opened Routing
  import opened Core

  /** A secret symmetric key, carried as bytes. */
  type SymmetricKey = seq<bv8>

  /** The location of a root directory: its identifier and the key its listing is encrypted with. */
  datatype DirId = DirId(id: DataIdentifier, key: Option<SymmetricKey>)

  /** The account's signing and encryption key pairs; their values are opaque to the client. */
  datatype Maid = Maid(publicSign: PublicKey, secretSign: nat, publicEncrypt: nat, secretEncrypt: nat)

  /** The decrypted account: its keys and the root directories recorded so far. */
  datatype Account = Account(maid: Maid, userRootDir: Option<DirId>, configRootDir: Option<DirId>)

  /** The credentials derived from the user's secrets. */
  datatype UserCred = UserCred(pin: seq<bv8>, password: seq<bv8>)

  /** An unregistered client may only read; a registered one owns an account. */
  datatype ClientType =
    | Unregistered
    | Registered(acc: Account, accLoc: XorName, userCred: UserCred, cmAddr: Authority)

  /** The account of a registered client (`acc`, and `acc_mut` for the mutating callers). */
  function Acc(ct: ClientType): (r: Result<Account>)
    ensures r.Ok? <==> ct.Registered?
    ensures r.Ok? ==> r.value == ct.acc
    ensures r.Err? ==> r.error == OperationForbiddenForClient
  {
    match ct
    case Registered(acc, _, _, _) => Ok(acc)
    case Unregistered => Err(OperationForbiddenForClient)
  }

  /** Where the account's session packet is stored. */
  function AccLoc(ct: ClientType): (r: Result<XorName>)
    ensures r.Ok? <==> ct.Registered?
    ensures r.Ok? ==> r.value == ct.accLoc
    ensures r.Err? ==> r.error == OperationForbiddenForClient
  {
    match ct
    case Registered(_, accLoc, _, _) => Ok(accLoc)
    case Unregistered => Err(OperationForbiddenForClient)
  }

  /** The credentials the session packet is encrypted with. */
  function UserCredOf(ct: ClientType): (r: Result<UserCred>)
    ensures r.Ok? <==> ct.Registered?
    ensures r.Ok? ==> r.value == ct.userCred
    ensures r.Err? ==> r.error == OperationForbiddenForClient
  {
    match ct
    case Registered(_, _, userCred, _) => Ok(userCred)
    case Unregistered => Err(OperationForbiddenForClient)
  }

  /** The address of the client's own client-manager group. */
  function CmAddr(ct: ClientType): (r: Result<Authority>)
    ensures r.Ok? <==> ct.Registered?
    ensures r.Ok? ==> r.value == ct.cmAddr
    ensures r.Err? ==> r.error == OperationForbiddenForClient
  {
    match ct
    case Registered(_, _, _, cmAddr) => Ok(cmAddr)
    case Unregistered => Err(OperationForbiddenForClient)
  }

  /** The five request counters of a client. */
  datatype Stats = Stats(
    issuedGets: nat,
    issuedPuts: nat,
    issuedPosts: nat,
    issuedDeletes: nat,
    issuedAppends: nat)

  /** The kinds of request a client issues; each call of an operation is one of these. */
  datatype Op = GetOp | PutOp | PostOp | DeleteOp | AppendOp | AccountInfoOp

  /** The counters of a new client. */
  function DefaultStats(): (s: Stats)
    ensures s.issuedGets == s.issuedPuts == s.issuedPosts == s.issuedDeletes == s.issuedAppends == 0
  {
    Stats(0, 0, 0, 0, 0)
  }

  /** The `+= 1` each operation applies to its own counter on entry (account-info has none). */
  function Bump(s: Stats, op: Op): (s': Stats) {
    match op
    case GetOp => s.(issuedGets := s.issuedGets + 1)
    case PutOp => s.(issuedPuts := s.issuedPuts + 1)
    case PostOp => s.(issuedPosts := s.issuedPosts + 1)
    case DeleteOp => s.(issuedDeletes := s.issuedDeletes + 1)
    case AppendOp => s.(issuedAppends := s.issuedAppends + 1)
    case AccountInfoOp => s
  }

  /** The counters after a new client has issued `calls`, in order. */
  function Tally(calls: seq<Op>): (s: Stats) {
    if calls == [] then DefaultStats() else Bump(Tally(calls[..|calls| - 1]), calls[|calls| - 1])
  }

  /** How many of `calls` are of kind `op`. */
  function Count(calls: seq<Op>, op: Op): (n: nat) {
    if calls == [] then 0
    else Count(calls[..|calls| - 1], op) + (if calls[|calls| - 1] == op then 1 else 0)
  }

  /** Each counter is exactly the number of calls of its own operation: cache hits, send
      failures and refusals count too, and no other operation touches it. */
  lemma {:induction false} TallyCounts(calls: seq<Op>)
    ensures Tally(calls).issuedGets == Count(calls, GetOp)
    ensures Tally(calls).issuedPuts == Count(calls, PutOp)
    ensures Tally(calls).issuedPosts == Count(calls, PostOp)
    ensures Tally(calls).issuedDeletes == Count(calls, DeleteOp)
    ensures Tally(calls).issuedAppends == Count(calls, AppendOp)
  {
    if calls != [] {
      TallyCounts(calls[..|calls| - 1]);
    }
  }
}
