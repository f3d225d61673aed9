# kv-server storage and service core, in Dafny

This project models the core of `kv-server`, a key-value server. The server
keeps hash tables of `Value`s, keyed by table name and then by key. The model
covers:

- the `Storage` interface and the two backends that implement it:
  - `MemTable`, a map of maps created lazily;
  - `SledDb`, one flat keyspace addressed by `table:key` and enumerated by a
    prefix scan;
- the three request handlers `Hset`, `Hget` and `Hgetall`;
- `dispatch`;
- the hook-carrying `ServiceInner` and `Service`;
- the constructors and conversions of the protocol messages.

Modules, one per file:

- **`Wrappers`**: `Option` and `Result`.
- **`Pb`**: the message shapes; `Kvpair::new`, `CommandRequest::new_hset`, the
  `Value` conversions and the response conversions.
- **`Errors`**: `KvError`, its status code (404 / 400 / 500) and its conversion
  into a response.
- **`Storage`**: the storage contract as reference functions over a two-level
  map. A table that does not exist reads as an empty one. This module also
  holds:
  - `IsListing`, which says what a `get_all` result must be (one pair per
    entry, no key twice, in no promised order);
  - `StorageIter` and `collect`.
- **`Memory`**: the `MemTable` class. Its state is the two-level map itself,
  so each method's new state is the matching reference function of its old
  state.
- **`Sled`**: the `SledDb` class over a map from string keys to bytes, with a
  value codec given as a parameter. It holds:
  - the key arithmetic (`get_full_key`, `get_table_prefix`, `ivec_to_key`)
    and its round-trip lemmas;
  - the simulation relation `Mirrors`, which relates a keyspace to the
    two-level map it represents, with one preservation lemma per operation.
- **`Backend`**: the `&dyn Storage` handle. It is the closed sum of the two
  backends, with `get`, `set` and `get_all`. `Agree` relates a `MemTable`
  state to a `SledDb` state holding the same contents, and the backend
  agreement lemmas build on it.
- **`Commands`**: the three handlers as methods on the handle. What each one
  answers, and the state it leaves, is an outcome function (`Hgetall`: a
  relation, since the listing order is free). Beside them are lemmas on
  those functions and the handler tests of `command_service.rs`.
- **`Service`**:
  - `Notify` and `NotifyMut` over lists of hooks;
  - `dispatch`;
  - the `ServiceInner` builder;
  - `Service::execute`, which runs the received hooks, dispatches, runs the
    executed hooks, then folds the before-send hooks over the response;
  - the two service tests.

Two behaviours of the code are modelled as written:

- The second assertion of `hset_should_work` expects the second `Hset` to
  answer `"world"`. The code answers the value the first `Hset` stored
  (`"v1"`). `SecondHsetAnswersFirst` and `HsetShouldWork` prove the code's
  behaviour.
- `ivec_to_key` keeps only the second `:`-separated segment of a stored key,
  so a key that holds `:` comes back truncated. `ColonInKeyIsTruncated`
  proves this for every such key under a colon-free table name. The backend-agreement lemmas therefore assume colon-free
  table names and keys.

## Model

| member | source | states |
|---|---|---|
| Pb.NewKvpair | src/pb/mod.rs:24-35 | the pair carries the given key and the given value, present |
| Pb.NewHset | src/pb/mod.rs:6-22 | the request is an `Hset` on the given table whose pair is `Kvpair::new(key, value)` |
| Pb.ValueFromString | src/pb/mod.rs:37-43 | the value's payload is the string; it is never the default value |
| Pb.ValueFromStr | src/pb/mod.rs:45-51 | the value's payload is the string |
| Pb.FromStrAgreesWithFromString | src/pb/mod.rs:37-51 | both string conversions give the same, non-default value |
| Errors.NotFoundResponse | src/service/command_service.rs:66-73 | a not-found error becomes status 404, a message starting with "Not found" and ending with the key, and no values or pairs |
| Errors.ErrorResponse | src/service/command_service.rs:11 | an error becomes a response with status 404 for not found, 400 for an invalid command and 500 otherwise, and no values or pairs |
| Errors.ErrorIsNeverOk | src/service/command_service.rs:11 | an error response never has status 200; its status is 400, 404 or 500 |
| Storage.Touch | src/storage/memory.rs:17-25 | after looking up a table, it exists; every table reads as before |
| Storage.WithSet | src/storage/memory.rs:34-37 | after `set`, the table exists and binds the key to the value; other tables read as before |
| Storage.WithDel | src/storage/memory.rs:44-47 | after `del`, the table exists and no longer binds the key; other tables read as before |
| Storage.SetThenLookup | src/storage/mod.rs:11 | a lookup after `set(t, k, v)` gives `v` at `(t, k)` and the old answer at every other coordinate |
| Storage.DelThenLookup | src/storage/mod.rs:15 | a lookup after `del(t, k)` gives nothing at `(t, k)` and the old answer at every other coordinate |
| Storage.Entries | src/storage/memory.rs:51-53 | iterating a map yields every entry exactly once, in some order |
| Storage.Converted | src/storage/memory.rs:52-53 | mapping a conversion over items keeps their number and order |
| Storage.EntriesGiveListing | src/storage/memory.rs:49-55 | converting an enumeration of a table's entries gives a listing of that table |
| Storage.ListingsArePermutations | src/storage/mod.rs:91-105 | any two listings of one table are permutations of each other, so they are equal once sorted |
| Storage.ListingSize | src/storage/mod.rs:17 | a listing has one pair per key of the table; an empty table lists as `[]` |
| Storage.StorageIter.constructor | src/storage/mod.rs:26-30 | the iterator wraps the given items and conversion |
| Storage.StorageIter.Next | src/storage/mod.rs:32-42 | `next` is `None` exactly when the inner items are exhausted; otherwise it is the first item, converted, and that item is consumed |
| Storage.Collect | src/storage/mod.rs:107-112 | collecting an iterator gives every remaining item converted, in the inner order, and exhausts it |
| Storage.TwoKeyListing | src/storage/mod.rs:91-121 | any listing of `{k1: v1, k2: v2}` is a permutation of the two pairs |
| Memory.MemTable.constructor | src/storage/memory.rs:12-15 | a new `MemTable` has no tables |
| Memory.MemTable.GetOrCreate | src/storage/memory.rs:17-25 | returns the table's contents (empty if new); inserts an empty table only when none exists, and never replaces one |
| Memory.MemTable.Get | src/storage/memory.rs:29-32 | answers the binding at `(t, k)`, or none; the table now exists |
| Memory.MemTable.Set | src/storage/memory.rs:34-37 | answers the previous binding; the new state is `WithSet` of the old one |
| Memory.MemTable.Contains | src/storage/memory.rs:39-42 | answers whether `(t, k)` is bound; the table now exists |
| Memory.MemTable.Del | src/storage/memory.rs:44-47 | answers the removed binding; the new state is `WithDel` of the old one |
| Memory.MemTable.GetAll | src/storage/memory.rs:49-55 | always succeeds with a listing of the table; the table now exists |
| Memory.MemTable.GetIter | src/storage/memory.rs:57-61 | a fresh iterator over an enumeration of the table's entries, converted by `Kvpair::new`; converting all its items gives a listing of the table; the table now exists |
| Memory.BasicInterface | src/storage/mod.rs:67-89 | on a fresh `MemTable`, for any two tables, two keys and two values, every outcome the basic-interface test asserts |
| Memory.GetAllTwoKeys | src/storage/mod.rs:91-105 | on a fresh `MemTable`, `get_all` after two sets is the two pairs, up to order |
| Memory.GetIterTwoKeys | src/storage/mod.rs:107-121 | on a fresh `MemTable`, collecting `get_iter` after two sets gives the two pairs, up to order |
| Sled.TablePrefix | src/storage/sleddb.rs:17-19 | the prefix is the table name followed by one ':' |
| Sled.FullKey | src/storage/sleddb.rs:13-15 | every full key of a table starts with that table's prefix, and the key follows it |
| Sled.SegmentEnd | src/storage/sleddb.rs:79 | the first ':'-separated segment ends at the first ':', or at the end when there is none |
| Sled.IvecToKey | src/storage/sleddb.rs:77-82 | the result is colon-free and is the part of the stored key after its first ':', cut at the next ':' or at the end |
| Sled.KeyRoundTrip | src/storage/sleddb.rs:77-82 | for colon-free names, `ivec_to_key` of the full key gives the key back, and the full key splits into table and key |
| Sled.PrefixSeparatesTables | src/storage/sleddb.rs:48-52 | for colon-free names, a prefix scan of table `t` sees table `t2`'s keys exactly when `t2 == t` |
| Sled.FullKeyInjective | src/storage/sleddb.rs:13-15 | for colon-free names, distinct coordinates have distinct full keys |
| Sled.ColonInKeyIsTruncated | src/storage/sleddb.rs:77-82 | under a colon-free table name, every key holding ':' comes back as its first segment only, which differs from the key |
| Sled.ColonInKeyExample | src/storage/sleddb.rs:77-82 | key "a:b" of table "t" comes back as "a" |
| Sled.Flip | src/storage/sleddb.rs:73-75 | `flip` gives `Ok(None)` exactly for `None`; an `Ok(Some(v))` comes from `Some(Ok(v))` and an `Err(e)` from `Some(Err(e))` |
| Sled.FlipIsBijective | src/storage/sleddb.rs:73-75 | `flip` maps `None` to `Ok(None)` and `Some(Err(e))` to `Err(e)`, and has an inverse |
| Sled.GetResult | src/storage/sleddb.rs:23-27 | `get` answers `Ok(None)` when the full key is not stored, and otherwise the decoding of its bytes, as a value or as the decode error |
| Sled.SetResult | src/storage/sleddb.rs:29-35 | `set` answers the encode error when the value does not encode, and otherwise what `get` of the key answered before the write |
| Sled.SetTree | src/storage/sleddb.rs:29-35 | an encode failure leaves the keyspace as it was; otherwise the full key is added and holds the encoded bytes; every other key keeps its bytes |
| Sled.DelTree | src/storage/sleddb.rs:42-46 | `del` removes exactly the full key; every other key keeps its bytes |
| Sled.ScanTable | src/storage/sleddb.rs:49-50 | a prefix scan visits exactly the stored entries under the table's prefix, and every key it visits holds ':' |
| Sled.ScanItemPair | src/storage/sleddb.rs:61-71 | an engine error or an undecodable value becomes `Kvpair::default()`; otherwise the pair of `ivec_to_key` and the decoded value |
| Sled.EmptyMirrors | src/storage/sleddb.rs:8-11 | an empty keyspace mirrors an empty `MemTable` |
| Sled.TouchMirrors | src/storage/memory.rs:17-25 | `MemTable`'s lazy table creation does not break the mirror |
| Sled.MirroredGet | src/storage/sleddb.rs:23-27 | on a mirrored keyspace, `get` and `contains` answer as `MemTable` does |
| Sled.MirroredSet | src/storage/sleddb.rs:29-35 | on a mirrored keyspace with a lossless codec, `set` answers as `MemTable` does and keeps the mirror |
| Sled.MirroredDel | src/storage/sleddb.rs:42-46 | on a mirrored keyspace, `del` answers as `MemTable` does and keeps the mirror |
| Sled.ScannedKey | src/storage/sleddb.rs:61-71 | on a mirrored keyspace, a scanned key of table `t` is the full key of a bound key, and converts to that binding's pair |
| Sled.MirroredScan | src/storage/sleddb.rs:48-52 | on a mirrored keyspace, every `get_all` result lists `MemTable`'s table |
| Sled.SledDb.constructor | src/storage/sleddb.rs:8-11 | a new database has an empty keyspace |
| Sled.SledDb.Get | src/storage/sleddb.rs:23-27 | answers the flipped decode of the full key's bytes, or `Ok(None)` when the key is absent |
| Sled.SledDb.Set | src/storage/sleddb.rs:29-35 | an encode failure is answered and writes nothing; otherwise the bytes are stored under the full key and the flipped decode of the previous bytes is answered |
| Sled.SledDb.Contains | src/storage/sleddb.rs:37-40 | answers whether the full key is stored |
| Sled.SledDb.Del | src/storage/sleddb.rs:42-46 | removes exactly the full key and answers the flipped decode of its bytes |
| Sled.SledDb.GetAll | src/storage/sleddb.rs:48-52 | always succeeds with the converted items of a prefix scan over the table's prefix |
| Sled.SledDb.GetIter | src/storage/sleddb.rs:54-58 | a fresh iterator whose items are a prefix scan and whose conversion is the scan-item conversion |
| Sled.BasicInterface | src/storage/sleddb.rs:90-95 | on a fresh `SledDb` with a lossless codec and colon-free names, every outcome the basic-interface test asserts |
| Sled.GetAllTwoKeys | src/storage/sleddb.rs:97-102 | on a fresh `SledDb`, `get_all` after two sets is the two pairs, up to order |
| Sled.GetIterTwoKeys | src/storage/sleddb.rs:104-109 | on a fresh `SledDb`, collecting `get_iter` after two sets gives the two pairs, up to order |
| Backend.AgreeOnSet | src/storage/mod.rs:11 | agreeing backends answer `set` alike and agree afterwards |
| Backend.AgreeOnGet | src/storage/mod.rs:9 | agreeing backends answer `get` alike and agree afterwards |
| Backend.AgreeOnGetAll | src/storage/mod.rs:17 | every `get_all` result of `SledDb` is a valid `MemTable` result in the agreeing state |
| Backend.GetAfterSet | src/storage/mod.rs:9-11 | on either backend, `get` right after `set` of the same key returns the value set |
| Backend.Store.Get | src/storage/mod.rs:9 | the handle's `get` answers and updates as the backend it wraps |
| Backend.Store.Set | src/storage/mod.rs:11 | the handle's `set` answers and updates as the backend it wraps |
| Backend.Store.GetAll | src/storage/mod.rs:17 | the handle's `get_all` succeeds with a listing valid for the backend it wraps |
| Commands.HsetReply | src/service/command_service.rs:8-12 | status 200 exactly when `set` succeeded; then the only value is the previous one, or the default; an error becomes its error response |
| Commands.HgetReply | src/service/command_service.rs:19-23 | status 200 exactly when a value was found, and it is the only value; no value gives the 404 naming table and key; an error becomes its error response |
| Commands.HgetallReply | src/service/command_service.rs:29-32 | status 200 exactly when `get_all` succeeded, and the pairs are its result; an error becomes its error response |
| Commands.HsetOutcome | src/service/command_service.rs:4-15 | a request without a pair answers the default value and touches nothing; otherwise the state is the one after `set`; status 200 exactly when `set` succeeded, and then the only value is the previous binding or the default |
| Commands.HgetOutcome | src/service/command_service.rs:17-25 | on `MemTable`: the bound value, or the 404 naming table and key, and the table now exists; on `SledDb`: the 404 when the full key is not stored, otherwise the decoded value or the decode error, and the keyspace is unchanged |
| Commands.ExecuteHset | src/service/command_service.rs:4-15 | the handler answers and updates as `HsetOutcome` |
| Commands.ExecuteHget | src/service/command_service.rs:17-25 | the handler answers and updates as `HgetOutcome` |
| Commands.ExecuteHgetall | src/service/command_service.rs:27-34 | the handler answers the pairs of some listing of the table |
| Commands.FirstHsetAnswersDefault | src/service/command_service.rs:10 | the first `Hset` of a key on `MemTable` answers the default value |
| Commands.SecondHsetAnswersFirst | src/service/command_service.rs:41-52 | on either backend, a second `Hset` of a key answers the value the first stored |
| Commands.HgetAfterHset | src/service/command_service.rs:54-64 | on either backend, `Hget` after `Hset` of the same key answers the value set |
| Commands.HgetMissingIs404 | src/service/command_service.rs:66-73 | `Hget` of an unbound key answers 404, "Not found", no values and no pairs |
| Commands.HsetEncodeFailure | src/storage/sleddb.rs:31 | on `SledDb`, an `Hset` whose value does not encode answers that error and leaves the keyspace unchanged |
| Commands.BackendsAgreeOnHset | src/service/command_service.rs:4-15 | agreeing backends answer `Hset` alike and agree afterwards, with or without a pair |
| Commands.BackendsAgreeOnHget | src/service/command_service.rs:17-25 | agreeing backends answer `Hget` alike and agree afterwards |
| Commands.BackendsAgreeOnHgetall | src/service/command_service.rs:27-34 | every `Hgetall` answer of `SledDb` is a valid `MemTable` answer in the agreeing state |
| Commands.HgetallAnswersAreOneListing | src/service/command_service.rs:75-98 | any two `Hgetall` answers on one `MemTable` state hold the same pairs up to order, one per key, with status 200 and no values |
| Commands.HsetShouldWork | src/service/command_service.rs:41-52 | on a fresh `MemTable`, the first `Hset` answers 200 with the default value, and the second answers the first's value |
| Commands.HgetShouldWork | src/service/command_service.rs:54-64 | `Hget` after `Hset score u1 10` answers 200 with 10 |
| Commands.HgetMissingShouldReturn404 | src/service/command_service.rs:66-73 | `Hget` on a fresh `MemTable` answers 404 with "Not found" and nothing else |
| Commands.HgetallShouldWork | src/service/command_service.rs:75-98 | after four `Hset`s, `Hgetall` answers 200 with the four pairs, up to order |
| Service.ApplyAllAppend | src/service/mod.rs:105-111 | running two hook lists one after the other equals running their concatenation |
| Service.FirstHookRunsFirst | src/service/mod.rs:105-111 | the first registered hook sees the response unmodified |
| Service.Notify | src/service/mod.rs:97-103 | every inspection hook runs once on the argument, in order |
| Service.NotifyMut | src/service/mod.rs:105-111 | the result is the argument after every mutating hook, first to last |
| Service.Dispatch | src/service/mod.rs:113-126 | each request goes to its own handler; a batch request's answer is its handler's answer for the store's state; a request without data is an invalid-command error |
| Service.NoDataIsRejected | src/service/mod.rs:124 | a request without data answers 400 with "Invalid command", no values or pairs, and leaves the store unchanged |
| Service.ServiceInner.constructor | src/service/mod.rs:22-30 | the store, and no hooks |
| Service.ServiceInner.FnReceived | src/service/mod.rs:32-35 | appends the hook to the received list; the other lists are unchanged |
| Service.ServiceInner.FnExecuted | src/service/mod.rs:37-40 | appends the hook to the executed list; the other lists are unchanged |
| Service.ServiceInner.FnBeforeSend | src/service/mod.rs:42-45 | appends the hook to the before-send list; the other lists are unchanged |
| Service.ServiceInner.FnAfterSend | src/service/mod.rs:47-50 | appends the hook to the after-send list; the other lists are unchanged |
| Service.Service.From | src/service/mod.rs:81-87 | the service wraps the given inner service |
| Service.Service.Clone | src/service/mod.rs:57-63 | a new handle on the same inner service |
| Service.Service.Execute | src/service/mod.rs:66-78 | received hooks see the request; the dispatcher's answer obeys `Handles`; executed hooks see that answer; the result is that answer after the before-send hooks |
| Service.ServiceShouldWork | src/service/mod.rs:135-150 | an `Hset` through one clone, then an `Hget` through the other, answer the default value and then `"v1"` |
| Service.EventRegistration | src/service/mod.rs:152-183 | with the test's hooks, `Hset` answers status 201, message "" and the default value; each inspection hook ran once |

## Left out

- Concurrency: the model is sequential.
  - This covers DashMap's sharded locking, the shared `Arc` and the thread in `service_should_works`.
  - `Service::clone` is a second handle on the same inner service.
- `SledDb` engine details:
  - opening the database at a path (and its `unwrap`);
  - persistence;
  - engine I/O errors. `get`, `set`, `contains` and `del` never fail on the engine in the model, and every scanned item is `Ok`.
- Iteration order: DashMap's order and sled's ascending key order are both modelled as "some order". Every listing claim is up to permutation.
- The value codec: the protobuf encoding of a `Value` into bytes and back is not part of this model.
  - `Codec` is a parameter.
  - Decoding after encoding is assumed (`Lossless`) wherever it is needed, never proved.
- `ivec_to_key`'s UTF-8 check and second-segment `unwrap`: keys are strings, and every scanned key holds ':', so neither can fail in the model.
- Service.Dispatch: the six batch handlers (`Hmset`, `Hmget`, `Hdel`, `Hmdel`, `Hexist`, `Hmexist`) are not part of this model.
  - Each is a parameter: a function from its request and the store's state to a response.
  - `Handles` promises nothing about the store after them. The model's `Dispatch` writes nothing in those cases, since their effect on the store is not modelled.
- Error texts: the error type's file is not part of this model.
  - Status codes follow the protocol: 404 for not found, 400 for an invalid command, 500 otherwise.
  - The not-found and invalid-command texts are this model's choice, and so are two claims made about them. `Errors.NotFoundResponse` says the message ends with the key, and `Service.NoDataIsRejected` says the message starts with "Invalid command". The tests check only that the not-found message contains "Not found".
- Logging: `tracing` output (`debug!`, `info!`) is not modelled. The inspection hooks' effect is the `Note` they return.
- After-send hooks are registered but never run, as in `Service::execute`. The model has no code path that runs them.
- Value kinds: the payload covers strings, 64-bit integers and booleans. Other kinds of the generated message type are not modelled.
- Sled.BasicInterface: stated only for colon-free table names and keys and a codec that encodes both values losslessly.
  - With a ':' in a name, two coordinates can share one full key.
  - The test's own names are colon-free.
- Sled.GetAllTwoKeys and Sled.GetIterTwoKeys: stated under the same assumptions as `Sled.BasicInterface`.
- Commands.BackendsAgreeOnHset, Commands.BackendsAgreeOnHget, Commands.BackendsAgreeOnHgetall: stated only for colon-free names, and for an `Hset` with a pair only for a value the codec encodes.
- Sled.SledDb.GetIter: the iterator holds a snapshot of the prefix scan taken at the call. Sled's `scan_prefix` reads lazily as the iterator advances, so a write between `get_iter` and consuming the iterator is not reflected in the model.
- Generic `Service<Store>` over any storage: modelled only for the two backends of the crate; `Store` is their closed sum.
