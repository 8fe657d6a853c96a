# safe_core client core, modelled in Dafny

This project models two parts of the SAFE Network client library `safe_core`:

- **The request bookkeeping of `Client`.** This is `Inner` in `src/core/client/mod.rs`. Every
  request operation (`get`, `put`, `post`, `delete`, `append`, `get_account_info`) follows one
  pattern:
  - bump its own counter (`get_account_info` has none);
  - create a oneshot channel;
  - choose a destination;
  - either complete the handle at once, registering nothing, or hand the request to routing.
  When routing takes the request, the handle is registered in `heads` under the request's
  message id. When routing refuses it, the handle is completed with the converted error.
  `get` answers immutable data from the cache without any request. When a `get` of immutable
  data resolves later, it caches the fetched immutable data under that data's own name.
  `delete_recover` and `put_recover` turn the errors of those futures into outcomes.
  Setting a root directory records it in the account and then re-fetches the session packet.
- **`DirectoryListing`** (`src/nfs/types/directory_listing.rs`). This is a mutable record whose
  setters each overwrite one part.

Files and modules:

- `routing.dfy`, module `Routing`: the routing library's values as the client uses them
  (names, data, identifiers, authorities, error enums, the outcome of a send).
- `core.dfy`, module `Core`: `CoreError`, `CoreEvent`, and `Result`/`Option`.
- `client_type.dfy`, module `ClientTypes`: `ClientType` and its accessors, `Stats`, and the
  proof that each counter counts the calls of its operation.
- `futures.dfy`, module `Futures`: the pure decisions. These are how each future decodes its
  event, where requests go, `delete_recover`, `put_recover` and the session-packet step.
- `client.dfy`, module `CoreClient`: class `Client`, whose fields are `heads`, `cache`,
  `clientType`, `stats` and `sent`, plus class `Oneshot`.
  - `sent` is the list of requests handed to routing. Routing itself is not modelled.
  - The ghost history `calls` records every operation issued. `Valid()` keeps
    `stats == Tally(calls)` and keeps each cache entry as immutable data under its own name.
- `directory_listing.dfy`, module `Nfs`: class `DirectoryListing`.

Three inputs that the source takes from its environment are parameters:

- the random `MessageId` (`msgId`);
- the outcome of routing's `send_*_request` (`send: SendOutcome`);
- the random `ContainerId`.

A future's value is one of the pure decoders applied to the event its channel was completed
with. `None` stands for a handle that was dropped, which the source reports as
`OperationAborted`. The decoders apply only once a handle is settled: a handle still pending in
the registry also has no event, and its future has not resolved yet.

The model keeps two quirks exactly as written:

- **`put` after a failed send.** `put` completes its handle with a `Get` event
  (`src/core/client/mod.rs:325`). Its mutation future therefore reports
  `ReceivedUnexpectedEvent`, not the routing error (`Client.Put`).
- **`get_account_info` without a client manager.** Without a destination, an unregistered
  client's `get_account_info` completes its handle with a `Mutation` event. Its future
  therefore reports `ReceivedUnexpectedEvent`, not `OperationForbiddenForClient`
  (`Client.GetAccountInfo`).

`get_account_info` moves no counter: the code has no `+= 1` there, and the model follows the code.

## Model

| member | source | states |
|---|---|---|
| ClientTypes.Acc | src/core/client/mod.rs:781-793 | `acc`/`acc_mut` return the account exactly when the client is registered; otherwise `OperationForbiddenForClient` |
| ClientTypes.AccLoc | src/core/client/mod.rs:795-800 | the account location exactly when registered; otherwise `OperationForbiddenForClient` |
| ClientTypes.UserCredOf | src/core/client/mod.rs:802-807 | the credentials exactly when registered; otherwise `OperationForbiddenForClient` |
| ClientTypes.CmAddr | src/core/client/mod.rs:809-814 | the client-manager address exactly when registered; otherwise `OperationForbiddenForClient` |
| ClientTypes.DefaultStats | src/core/client/mod.rs:825-835 | a new client's five counters are all 0 |
| ClientTypes.TallyCounts | src/core/client/mod.rs:651-674 | after any sequence of calls from a new client, each counter equals the number of calls of its own operation; account-info calls move none |
| Futures.GetFuture | src/core/client/mod.rs:245-250 | a `get` future yields the result carried by a `Get` event, `ReceivedUnexpectedEvent` for any other event, `OperationAborted` if the handle is dropped |
| Futures.MutationFuture | src/core/client/mod.rs:860-867 | a mutation future yields the result of a `Mutation` event, `ReceivedUnexpectedEvent` for any other event, `OperationAborted` if dropped |
| Futures.AccountInfoFuture | src/core/client/mod.rs:534-540 | an account-info future yields the result of an `AccountInfo` event, `ReceivedUnexpectedEvent` otherwise, `OperationAborted` if dropped |
| Futures.DataDestination | src/core/client/mod.rs:283-286 | an explicit destination is used unchanged; otherwise `NaeManager` of the data's name (`get`, `post`, `delete`) |
| Futures.AppendDestination | src/core/client/mod.rs:507-516 | an explicit destination is used unchanged; otherwise `NaeManager(append_to)` |
| Futures.ManagerDestination | src/core/client/mod.rs:309-312 | an explicit destination is used unchanged; otherwise the client manager, or `OperationForbiddenForClient` for an unregistered client (`put`, `get_account_info`) |
| Futures.DeleteRecover | src/core/client/mod.rs:473-496 | succeeds exactly when the delete succeeded or failed with `NoSuchData` or `InvalidOperation`; every other error is returned unchanged |
| Futures.VersionOf | src/core/client/mod.rs:347-355 | structured and both appendable kinds report their own version; immutable data has none |
| Futures.RecoveryLookup | src/core/client/mod.rs:347-372 | put_recover makes a lookup exactly for a versioned kind after an `InvalidSuccessor` or `DataExists` put error; the lookup asks for our data's own identifier (same name, same kind, same type tag) at the manager of that name |
| Routing.Data.Identifier | src/core/client/mod.rs:372 | the identifier of a piece of data has its name and its kind (and, for structured data, its type tag) |
| Futures.ReclaimEntry | src/core/client/mod.rs:378-388 | the reclaiming entry is ours (tag, name, payload, owners, previous owners), one version past the deleted one |
| Futures.AfterLookup | src/core/client/mod.rs:372-413 | after the lookup: reclaim exactly when a deleted structured entry meets our structured data; otherwise succeed at our version exactly when the found data has our kind and our owners; otherwise the original put error |
| Futures.PutRecover | src/core/client/mod.rs:342-426 | unversioned data: a plain put that resolves to 0; a successful put resolves to the data's version; recovery only after `InvalidSuccessor`/`DataExists`; a reclaim resolves to the old version + 1, or the reclaiming put's error; matching owners resolve to our version; every other case gives the original put error |
| Futures.PutRecoverSound | src/core/client/mod.rs:357-425 | `put_recover` succeeds only if the put went through, or the name holds our kind of data with our owners, or a deleted entry was reclaimed by a put that went through; a failure carries the original put error or the reclaiming put's error |
| Futures.PutRecoverWithoutLookup | src/core/client/mod.rs:347-372 | when no lookup is made (unversioned data, a successful put, or an error other than `InvalidSuccessor`/`DataExists`), the outcome does not depend on any lookup result |
| Futures.NextSessionPacketVersion | src/core/client/mod.rs:690-707 | a failed fetch passes its error on; a non-structured packet gives `ReceivedUnexpectedData`; otherwise the successor packet takes version + 1 |
| CoreClient.Client.constructor | src/core/client/mod.rs:79-86 | a new client has no pending handles, an empty cache, the given client type and all counters at 0 |
| CoreClient.Client.RemoveHead | src/core/client/mod.rs:227-230 | returns the handle registered under the id (None if there is none) and removes the id from `heads` |
| CoreClient.Client.InsertHead | src/core/client/mod.rs:232-234 | `heads` afterwards maps the id to the handle and is otherwise unchanged |
| CoreClient.Client.Submit | src/core/client/mod.rs:288-294 | the request is handed to routing; on success the handle is registered under the message id and stays pending; on failure `heads` is unchanged and the handle is completed with the converted error |
| CoreClient.Client.Get | src/core/client/mod.rs:238-297 | `issued_gets` grows by 1, nothing else counted; a cache hit completes the handle with the cached immutable data of that name, sends nothing and leaves `heads` unchanged; otherwise one get request to the chosen destination, registered or failed as above |
| CoreClient.Client.CacheFetched | src/core/client/mod.rs:266-278 | a fetched value passes through unchanged; only immutable data is cached, under its own name; the cache invariant is kept |
| CoreClient.Client.Put | src/core/client/mod.rs:302-331 | `issued_puts` grows by 1; without a destination, an unregistered client fails with `OperationForbiddenForClient` and sends nothing; a failed send completes with a `Get` event, which the mutation future reports as `ReceivedUnexpectedEvent` |
| CoreClient.Client.Post | src/core/client/mod.rs:429-447 | `issued_posts` grows by 1; one post request to the chosen destination, registered or completed with the error as a `Mutation` event |
| CoreClient.Client.Delete | src/core/client/mod.rs:450-469 | `issued_deletes` grows by 1; one delete request to the chosen destination, registered or completed with the error as a `Mutation` event |
| CoreClient.Client.Append | src/core/client/mod.rs:499-528 | `issued_appends` grows by 1; one append request to the chosen destination, registered or completed with the error as a `Mutation` event |
| CoreClient.Client.GetAccountInfo | src/core/client/mod.rs:531-565 | no counter moves; without a client manager the handle is completed with a `Mutation` event, which the future reports as `ReceivedUnexpectedEvent`, and nothing is sent; otherwise one account-info request |
| CoreClient.Client.UpdateSessionPacket | src/core/client/mod.rs:681-690 | an unregistered client fails with `OperationForbiddenForClient` and changes nothing; otherwise a `get` of the session packet at the account location |
| CoreClient.Client.SetUserRootDirId | src/core/client/mod.rs:571-587 | unregistered: `OperationForbiddenForClient`, nothing changes; a root directory already recorded: `RootDirectoryAlreadyExists`, nothing changes and no session-packet update; otherwise the account records it and the session packet is fetched |
| CoreClient.Client.SetConfigRootDirId | src/core/client/mod.rs:599-615 | the same three outcomes for the configuration root directory |
| CoreClient.Client.UserRootDirId | src/core/client/mod.rs:589-592 | the recorded user root directory exactly when the client is registered and one is recorded |
| CoreClient.Client.ConfigRootDirId | src/core/client/mod.rs:617-621 | the recorded configuration root directory exactly when registered and recorded |
| CoreClient.Client.PublicEncryptionKey | src/core/client/mod.rs:623-628 | the account's key exactly when registered; otherwise `OperationForbiddenForClient` |
| CoreClient.Client.SecretEncryptionKey | src/core/client/mod.rs:630-635 | the account's key exactly when registered; otherwise `OperationForbiddenForClient` |
| CoreClient.Client.PublicSigningKey | src/core/client/mod.rs:637-642 | the account's key exactly when registered; otherwise `OperationForbiddenForClient` |
| CoreClient.Client.SecretSigningKey | src/core/client/mod.rs:644-649 | the account's key exactly when registered; otherwise `OperationForbiddenForClient` |
| CoreClient.Client.IssuedGets | src/core/client/mod.rs:651-654 | the number of `get` calls issued so far |
| CoreClient.Client.IssuedPuts | src/core/client/mod.rs:656-659 | the number of `put` calls issued so far |
| CoreClient.Client.IssuedPosts | src/core/client/mod.rs:661-664 | the number of `post` calls issued so far |
| CoreClient.Client.IssuedDeletes | src/core/client/mod.rs:666-669 | the number of `delete` calls issued so far |
| CoreClient.Client.IssuedAppends | src/core/client/mod.rs:671-674 | the number of `append` calls issued so far |
| CoreClient.GetThenRemoveTwice | src/core/client/mod.rs:288-294 | after a successful send the handle is pending under its message id; the first removal returns it, a second returns None |
| Nfs.DirectoryListing.constructor | src/nfs/types/directory_listing.rs:32-39 | a new listing has the given id, metadata built from the name and user metadata, and no files or sub-directories |
| Nfs.DirectoryListing.GetMetadata | src/nfs/types/directory_listing.rs:41-43 | returns the metadata and changes nothing |
| Nfs.DirectoryListing.SetMetadata | src/nfs/types/directory_listing.rs:45-47 | the metadata becomes the given one; id, files and sub-directories are unchanged |
| Nfs.DirectoryListing.GetFiles | src/nfs/types/directory_listing.rs:49-51 | returns the files and changes nothing |
| Nfs.DirectoryListing.SetFiles | src/nfs/types/directory_listing.rs:53-55 | the files become the given ones; id, metadata and sub-directories are unchanged |
| Nfs.DirectoryListing.GetSubDirectories | src/nfs/types/directory_listing.rs:57-59 | returns the sub-directories and changes nothing |
| Nfs.DirectoryListing.SetSubDirectories | src/nfs/types/directory_listing.rs:61-63 | the sub-directories become the given ones; id, metadata and files are unchanged |
| Nfs.DirectoryListing.SetName | src/nfs/types/directory_listing.rs:65-67 | only the metadata's name changes; id, files, sub-directories and user metadata are unchanged |
| Nfs.SetThenGet | src/nfs/types/directory_listing.rs:41-67 | after each setter the matching getter returns what was set, and the other getters return what they did before |

## Left out

- Creating, registering and logging in a client (`src/core/client/mod.rs:73-221`) are left out. These steps derive secrets, encrypt and decrypt the account, hash keys, sign the session packet and wait on the network. The constructor takes the resulting `ClientType` instead.
- `setup_routing`, `spawn_routing_thread`, the routing event loop, connection timeouts and `set_network_limits` are left out. The event loop completes registered handles through `remove_head`; only `remove_head` itself is modelled.
- The message id, the container id and the outcome of a send are parameters, not random or network values. When a message id is reused, the registry entry is replaced (`heads == old(heads)[msgId := rx]`), as `insert_head` does. The model does not capture that dropping the replaced handle cancels its future.
- The cache is a plain map. `LruCache`'s capacity of 300 entries, its eviction and its recency updates belong to a library outside this model.
- The counters are unbounded. Overflowing a `u64` counter would take 2^64 calls, so the wrap-around is not modelled. The same holds for the `u64` version arithmetic in `put_recover` and in the session-packet update.
- `Futures.PutRecover` and `Futures.DeleteRecover` decide from the results of the futures they chain. The requests those futures make are modelled by `Client.Put`, `Client.Get` and `Client.Delete`. The futures and oneshot combinators themselves, and the `Rc`/`RefCell` sharing, are not modelled.
- Whether `StructuredData::new` accepts the reclaiming entry is a parameter (`entryBuilt`). The signature checks and size limits behind that answer belong to routing.
- The session-packet update stops after its fetch and the version step. Re-encrypting the account, signing the next packet and posting it involve encryption and signing, which are not modelled. The session packet's type tag is routing's constant, whose value is not modelled.
- `account.rs` is not part of this model. Setting a user or configuration root directory is modelled as set once: it records the directory only if none is recorded yet, as the `RootDirectoryAlreadyExists` error indicates.
- `metadata.rs`, `file.rs`, `container_info.rs` and `container_id.rs` are not part of this model. Metadata keeps only the name and the user metadata, which the listing passes and changes. Files and sub-directory entries are plain values.
- The `trace!`, `debug!` and `warn!` logging of every operation is dropped. It changes no state and no result.
- The CBOR encoding of a listing, its derived ordering, and the `Debug`/`Display` formatting of the client and the listing are left out. The encoding and formatting belong to libraries.
