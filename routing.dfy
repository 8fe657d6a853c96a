// Values of the routing library as the client core uses them. The library itself (message
// transport, signatures, hashing) is not part of this model: names, keys and payloads are
// carried as plain values, and only the fields the client reads are kept.
module Routing {

  /** A network address (a 256-bit XOR-space name); its bits play no role in the client's logic. */
  type XorName = nat

  /** The identifier routing attaches to one request and echoes in its response. */
  type MessageId = nat

  /** A public signing key, compared only for equality. */
  type PublicKey = nat

  /** Names one piece of data on the network. Every kind carries a name. */
  datatype DataIdentifier =
    | StructuredId(name: XorName, typeTag: nat)
    | ImmutableId(name: XorName)
    | PubAppendableId(name: XorName)
    | PrivAppendableId(name: XorName)

  /** Versioned, owned, mutable data. `deleted` is what its `is_deleted` reports. */
  datatype StructuredData = StructuredData(
    typeTag: nat,
    name: XorName,
    version: nat,
    payload: seq<bv8>,
    owners: seq<PublicKey>,
    previousOwners: seq<PublicKey>,
    deleted: bool)

  /** Versioned, owned data that others may append to (public or private flavour). */
  datatype AppendableData = AppendableData(name: XorName, version: nat, owners: seq<PublicKey>)

  /** The four kinds of data the network stores. */
  datatype Data =
    | Structured(sd: StructuredData)
    | Immutable(immutableName: XorName, value: seq<bv8>)
    | PubAppendable(pub: AppendableData)
    | PrivAppendable(priv: AppendableData)
  {
    /** The name the data is stored under. */
    function Name(): (n: XorName) {
      match this
      case Structured(sd) => sd.name
      case Immutable(n, _) => n
      case PubAppendable(ad) => ad.name
      case PrivAppendable(ad) => ad.name
    }

    /** The identifier that fetches this data back. */
    function Identifier(): (id: DataIdentifier)
      ensures id.name == Name()
      ensures id.StructuredId? <==> Structured?
      ensures id.StructuredId? ==> id.typeTag == sd.typeTag
      ensures id.ImmutableId? <==> Immutable?
      ensures id.PubAppendableId? <==> PubAppendable?
      ensures id.PrivAppendableId? <==> PrivAppendable?
    {
      match this
      case Structured(sd) => StructuredId(sd.name, sd.typeTag)
      case Immutable(n, _) => ImmutableId(n)
      case PubAppendable(ad) => PubAppendableId(ad.name)
      case PrivAppendable(ad) => PrivAppendableId(ad.name)
    }
  }

  /** A request to append an item to appendable data named `appendTo`. */
  datatype AppendWrapper =
    | Pub(appendTo: XorName, item: seq<bv8>)
    | Priv(appendTo: XorName, item: seq<bv8>)

  /** The group of nodes a request is addressed to (the client-facing variants). */
  datatype Authority =
    | ClientManager(clientName: XorName)
    | NaeManager(dataName: XorName)
    | NodeManager(nodeName: XorName)
    | ManagedNode(managedName: XorName)

  /** Why the network refused a mutation. */
  datatype MutationError =
    | NoSuchAccount
    | AccountExists
    | NoSuchData
    | DataExists
    | LowBalance
    | InvalidSuccessor
    | InvalidOperation
    | NetworkOther(reason: string)
    | NetworkFull
    | DataTooLarge

  /** Why the network could not return data. */
  datatype GetError = GetNoSuchAccount | GetNoSuchData | GetNetworkOther(reason: string)

  /** What routing's `send_*_request` reports when it cannot hand a request over. */
  datatype InterfaceError = InterfaceError(code: nat)

  /** The type tag of an account's session packet; its value is fixed by routing and plays no
      role here beyond naming the packet. */
  const SessionPacketTag: nat

  /** The outcome of handing one request to routing: the send step is opaque to the client. */
  datatype SendOutcome = Sent | SendFailed(err: InterfaceError)
}
