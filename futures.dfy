// The decisions the client's futures make once the event for a request arrives: how each
// future decodes its event, where a request is addressed, and how the two recovering
// operations turn errors into outcomes. All of it is pure.
module Futures {
  import opened Routing
  import opened Core
  import opened ClientTypes

  // ---------------------------------------------------------------- decoding events

  // The decoders below read a handle once it is settled: `ev` is the event the handle was
  // completed with, or None when the handle was dropped without completing. A handle still
  // pending in the client's registry (also `event == None` in `Oneshot`) has not resolved
  // yet, and these decoders say nothing about it.

  /** What a `get` future resolves to once its handle is completed or dropped. */
  function GetFuture(ev: Option<CoreEvent>): (r: Result<Data>)
    ensures ev.None? ==> r == Err(OperationAborted)
    ensures ev.Some? && ev.value.Get? ==> r == ev.value.getResult
    ensures ev.Some? && !ev.value.Get? ==> r == Err(ReceivedUnexpectedEvent)
  {
    match ev
    case None => Err(OperationAborted)
    case Some(Get(res)) => res
    case Some(_) => Err(ReceivedUnexpectedEvent)
  }

  /** What a mutation future (put, post, delete, append) resolves to once its handle is
      completed or dropped. */
  function MutationFuture(ev: Option<CoreEvent>): (r: Result<()>)
    ensures ev.None? ==> r == Err(OperationAborted)
    ensures ev.Some? && ev.value.Mutation? ==> r == ev.value.mutationResult
    ensures ev.Some? && !ev.value.Mutation? ==> r == Err(ReceivedUnexpectedEvent)
  {
    match ev
    case None => Err(OperationAborted)
    case Some(Mutation(res)) => res
    case Some(_) => Err(ReceivedUnexpectedEvent)
  }

  /** What an account-info future resolves to once its handle is completed or dropped. */
  function AccountInfoFuture(ev: Option<CoreEvent>): (r: Result<AccountStats>)
    ensures ev.None? ==> r == Err(OperationAborted)
    ensures ev.Some? && ev.value.AccountInfo? ==> r == ev.value.accountInfoResult
    ensures ev.Some? && !ev.value.AccountInfo? ==> r == Err(ReceivedUnexpectedEvent)
  {
    match ev
    case None => Err(OperationAborted)
    case Some(AccountInfo(res)) => res
    case Some(_) => Err(ReceivedUnexpectedEvent)
  }

  /** The event constructor an operation uses when it completes its own handle at once. */
  datatype EventKind = GetKind | MutationKind | AccountInfoKind

  /** The event that carries the error `e` under the given constructor. */
  function FailureEvent(kind: EventKind, e: CoreError): (ev: CoreEvent)
    ensures GetFuture(Some(ev)) == (if kind == GetKind then Err(e) else Err(ReceivedUnexpectedEvent))
    ensures MutationFuture(Some(ev)) == (if kind == MutationKind then Err(e) else Err(ReceivedUnexpectedEvent))
    ensures AccountInfoFuture(Some(ev)) == (if kind == AccountInfoKind then Err(e) else Err(ReceivedUnexpectedEvent))
  {
    match kind
    case GetKind => Get(Err(e))
    case MutationKind => Mutation(Err(e))
    case AccountInfoKind => AccountInfo(Err(e))
  }

  // ---------------------------------------------------------------- destinations

  /** Where `get`, `post` and `delete` send a request about data named `name`. */
  function DataDestination(name: XorName, dst: Option<Authority>): (a: Authority)
    ensures dst.Some? ==> a == dst.value
    ensures dst.None? ==> a == NaeManager(name)
  {
    match dst
    case Some(auth) => auth
    case None => NaeManager(name)
  }

  /** Where `append` sends its request: the data appended to, unless told otherwise. */
  function AppendDestination(appender: AppendWrapper, dst: Option<Authority>): (a: Authority)
    ensures dst.Some? ==> a == dst.value
    ensures dst.None? ==> a == NaeManager(appender.appendTo)
  {
    match dst
    case Some(auth) => auth
    case None =>
      match appender
      case Pub(appendTo, _) => NaeManager(appendTo)
      case Priv(appendTo, _) => NaeManager(appendTo)
  }

  /** Where `put` and `get_account_info` send a request: the client manager by default, which
      an unregistered client does not have. */
  function ManagerDestination(ct: ClientType, dst: Option<Authority>): (r: Result<Authority>)
    ensures dst.Some? ==> r == Ok(dst.value)
    ensures dst.None? && ct.Registered? ==> r == Ok(ct.cmAddr)
    ensures dst.None? && ct.Unregistered? ==> r == Err(OperationForbiddenForClient)
  {
    match dst
    case Some(a) => Ok(a)
    case None => CmAddr(ct)
  }

  // ---------------------------------------------------------------- delete with recovery

  /** `delete_recover`: a delete also succeeds when the data is already gone (NoSuchData) or
      can no longer be deleted (InvalidOperation); any other error comes back unchanged. */
  function DeleteRecover(deleted: Result<()>): (r: Result<()>)
    ensures r.Ok? <==>
              (|| deleted.Ok?
               || IsMutationFailure(deleted.error, NoSuchData)
               || IsMutationFailure(deleted.error, InvalidOperation))
    ensures r.Err? ==> r == deleted
  {
    match deleted
    case Ok(_) => Ok(())
    case Err(MutationFailure(_, NoSuchData)) => Ok(())
    case Err(MutationFailure(_, InvalidOperation)) => Ok(())
    case Err(e) => Err(e)
  }

  // ---------------------------------------------------------------- put with recovery

  /** The version put_recover reports for data of this kind; None for kinds it does not recover. */
  function VersionOf(d: Data): (v: Option<nat>)
    ensures v.Some? <==> !d.Immutable?
    ensures d.Structured? ==> v == Some(d.sd.version)
    ensures d.PubAppendable? ==> v == Some(d.pub.version)
    ensures d.PrivAppendable? ==> v == Some(d.priv.version)
  {
    match d
    case Structured(sd) => Some(sd.version)
    case PrivAppendable(ad) => Some(ad.version)
    case PubAppendable(ad) => Some(ad.version)
    case Immutable(_, _) => None
  }

  /** The lookup put_recover makes once the first put of `ours` has come back: only for a
      versioned kind after a recoverable error, a `get` of our own data's identifier, sent to
      the default destination, the manager of our data's name. None when no lookup is made. */
  function RecoveryLookup(ours: Data, firstPut: Result<()>): (r: Option<(DataIdentifier, Authority)>)
    ensures r.Some? <==> VersionOf(ours).Some? && firstPut.Err? && Recoverable(firstPut.error)
    ensures r.Some? ==> r.value.0 == ours.Identifier()
    ensures r.Some? ==> r.value.0.name == ours.Name() && r.value.1 == NaeManager(ours.Name())
    ensures r.Some? ==> (r.value.0.StructuredId? <==> ours.Structured?)
    ensures r.Some? && ours.Structured? ==> r.value.0.typeTag == ours.sd.typeTag
    ensures r.Some? ==> (r.value.0.PubAppendableId? <==> ours.PubAppendable?)
    ensures r.Some? ==> (r.value.0.PrivAppendableId? <==> ours.PrivAppendable?)
  {
    if VersionOf(ours).Some? && firstPut.Err? && Recoverable(firstPut.error) then
      var id := ours.Identifier();
      Some((id, DataDestination(id.name, None)))
    else
      None
  }

  /** The put errors after which recovery is attempted. */
  predicate Recoverable(e: CoreError) {
    IsMutationFailure(e, InvalidSuccessor) || IsMutationFailure(e, DataExists)
  }

  /** The data found under the name is of the same kind as ours and has the same owners. */
  predicate OwnersMatch(found: Data, ours: Data) {
    match (found, ours)
    case (Structured(prior), Structured(mine)) => prior.owners == mine.owners
    case (PrivAppendable(prior), PrivAppendable(mine)) => prior.owners == mine.owners
    case (PubAppendable(prior), PubAppendable(mine)) => prior.owners == mine.owners
    case _ => false
  }

  /** The found entry is deleted structured data and ours is structured data: reclaim it. */
  predicate ReclaimsDeleted(found: Data, ours: Data) {
    found.Structured? && ours.Structured? && found.sd.deleted
  }

  /** The entry put_recover puts to reclaim a deleted name: ours, one version past the old one. */
  function ReclaimEntry(prior: StructuredData, ours: StructuredData): (e: StructuredData)
    ensures e.version == prior.version + 1 && e.version > prior.version
    ensures e.typeTag == ours.typeTag && e.name == ours.name && e.payload == ours.payload
    ensures e.owners == ours.owners && e.previousOwners == ours.previousOwners
  {
    ours.(version := prior.version + 1)
  }

  /** What put_recover decides once the data already under the name has been fetched. */
  datatype Recovery = Resolved(result: Result<nat>) | Reclaim(entry: StructuredData)

  /** The decision after the lookup that follows a recoverable put error `putErr`. */
  function AfterLookup(ours: Data, putErr: CoreError, fetched: Result<Data>, version: nat): (r: Recovery)
    ensures r.Reclaim? <==> fetched.Ok? && ReclaimsDeleted(fetched.value, ours)
    ensures r.Reclaim? ==> r.entry == ReclaimEntry(fetched.value.sd, ours.sd)
    ensures r.Resolved? && r.result.Ok? <==> !r.Reclaim? && fetched.Ok? && OwnersMatch(fetched.value, ours)
    ensures r.Resolved? && r.result.Ok? ==> r.result.value == version
    ensures r.Resolved? && r.result.Err? ==> r.result.error == putErr
  {
    match (fetched, ours)
    case (Ok(Structured(prior)), Structured(mine)) =>
      if prior.deleted then Reclaim(ReclaimEntry(prior, mine))
      else if prior.owners == mine.owners then Resolved(Ok(version)) else Resolved(Err(putErr))
    case (Ok(PrivAppendable(prior)), PrivAppendable(mine)) =>
      if prior.owners == mine.owners then Resolved(Ok(version)) else Resolved(Err(putErr))
    case (Ok(PubAppendable(prior)), PubAppendable(mine)) =>
      if prior.owners == mine.owners then Resolved(Ok(version)) else Resolved(Err(putErr))
    case (Ok(_), _) => Resolved(Err(putErr))
    case (Err(_), _) => Resolved(Err(putErr))
  }

  /** put_recover, from the results of the requests it makes: the first put of `ours`, then
      `fetched`, the result of the `get` that `RecoveryLookup(ours, firstPut)` names (read only
      when that lookup is made), then (only to reclaim a deleted entry) whether the reclaiming
      entry could be built and signed, and its put. */
  function PutRecover(ours: Data, firstPut: Result<()>, fetched: Result<Data>,
                      entryBuilt: bool, reclaimPut: Result<()>): (r: Result<nat>)
    // Kinds without a version: a plain put that resolves to 0, errors unchanged.
    ensures VersionOf(ours).None? ==>
              r == (if firstPut.Ok? then Ok(0) else Err(firstPut.error))
    // A put that succeeds resolves to the data's own version.
    ensures VersionOf(ours).Some? && firstPut.Ok? ==> r == Ok(VersionOf(ours).value)
    // Recovery only after InvalidSuccessor or DataExists.
    ensures VersionOf(ours).Some? && firstPut.Err? && !Recoverable(firstPut.error) ==>
              r == Err(firstPut.error)
    // Reclaiming a deleted structured entry resolves to the old version + 1.
    ensures VersionOf(ours).Some? && firstPut.Err? && Recoverable(firstPut.error)
            && fetched.Ok? && ReclaimsDeleted(fetched.value, ours) ==>
              r == (if !entryBuilt then Err(firstPut.error)
                    else if reclaimPut.Ok? then Ok(fetched.value.sd.version + 1)
                    else Err(reclaimPut.error))
    // Data of our kind with our owners: the put counts as done, at our version.
    ensures VersionOf(ours).Some? && firstPut.Err? && Recoverable(firstPut.error)
            && fetched.Ok? && !ReclaimsDeleted(fetched.value, ours) ==>
              r == (if OwnersMatch(fetched.value, ours) then Ok(VersionOf(ours).value)
                    else Err(firstPut.error))
    // A failed lookup leaves the original put error.
    ensures VersionOf(ours).Some? && firstPut.Err? && Recoverable(firstPut.error) && fetched.Err? ==>
              r == Err(firstPut.error)
  {
    match VersionOf(ours)
    case None => if firstPut.Ok? then Ok(0) else Err(firstPut.error)
    case Some(version) =>
      if firstPut.Ok? then Ok(version)
      else if !Recoverable(firstPut.error) then Err(firstPut.error)
      else
        match AfterLookup(ours, firstPut.error, fetched, version)
        case Resolved(result) => result
        case Reclaim(entry) =>
          if !entryBuilt then Err(firstPut.error)
          else if reclaimPut.Ok? then Ok(entry.version)
          else Err(reclaimPut.error)
  }

  /** put_recover never reports success for data that is not ours: success means the put went
      through, or the name holds our kind of data with our owners, or a deleted entry was
      reclaimed by a put that went through. A failure is the original put error, or the error
      of the reclaiming put. */
  lemma PutRecoverSound(ours: Data, firstPut: Result<()>, fetched: Result<Data>,
                        entryBuilt: bool, reclaimPut: Result<()>)
    ensures var r := PutRecover(ours, firstPut, fetched, entryBuilt, reclaimPut);
            && (r.Ok? ==>
                  || firstPut.Ok?
                  || (fetched.Ok? && OwnersMatch(fetched.value, ours))
                  || (fetched.Ok? && ReclaimsDeleted(fetched.value, ours) && entryBuilt && reclaimPut.Ok?))
            && (r.Err? ==>
                  || (firstPut.Err? && r.error == firstPut.error)
                  || (reclaimPut.Err? && r.error == reclaimPut.error))
  {
  }

  /** When put_recover makes no lookup, the lookup's result plays no part in the outcome. */
  lemma PutRecoverWithoutLookup(ours: Data, firstPut: Result<()>, fetched1: Result<Data>,
                                fetched2: Result<Data>, entryBuilt: bool, reclaimPut: Result<()>)
    requires RecoveryLookup(ours, firstPut).None?
    ensures PutRecover(ours, firstPut, fetched1, entryBuilt, reclaimPut)
            == PutRecover(ours, firstPut, fetched2, entryBuilt, reclaimPut)
  {
  }

  // ---------------------------------------------------------------- session packet

  /** The step of update_session_packet after the current packet is fetched: the packet must
      be structured data, and its successor takes the next version. */
  function NextSessionPacketVersion(fetched: Result<Data>): (r: Result<nat>)
    ensures fetched.Err? ==> r == Err(fetched.error)
    ensures fetched.Ok? && fetched.value.Structured? ==> r == Ok(fetched.value.sd.version + 1)
    ensures fetched.Ok? && !fetched.value.Structured? ==> r == Err(ReceivedUnexpectedData)
  {
    match fetched
    case Err(e) => Err(e)
    case Ok(Structured(sd)) => Ok(sd.version + 1)
    case Ok(_) => Err(ReceivedUnexpectedData)
  }
}
