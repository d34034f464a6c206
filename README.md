# In-memory resource store and exporter loop of the test connector

This project models the core of `connector.go` in Dafny. That file is the reference connector of a backup repository. It has two parts, and the model covers both:

- **`testStore`**: a volatile key/value store. It keeps three independent keyspaces: packfiles, states and locks. Each keyspace maps a 32-byte content hash (MAC) to an immutable blob. The store also holds a configuration that `Create` sets and `Open` returns.
- **`testConnector.Export`**: the consumer loop. It reads records from a channel, copies each record's content, and sends back one result per record.

The model is split into four modules:

- `Wrappers` (`wrappers.dfy`): `Option` stands for a Go value that may be nil. `Result` stands for a Go `(value, error)` pair.
- `Resources` (`resources.dfy`): content hashes, blobs and resource tags. It also holds `mapFor`, which sends a resource tag to its keyspace, the store's errors, and the arithmetic of a ranged read. That arithmetic uses `uint64` addition that wraps around.
- `StoreModel` (`store_model.dfy`): the store's contents as a value (`Snapshot`). The read-only operations `Open`, `Mode` and `Get` are functions of that value. This module also defines what a write or a delete does to one keyspace and the total size in bytes, and proves the laws that relate these.
- `Connector` (`connector.dfy`): the class `TestStore`. Its fields are the configuration and the three maps. `Create`, `Put` and `Delete` update those fields in place. `Size` and `List` loop over the maps the way the source's `Range` callbacks do. Each method is proved against the `StoreModel` value that `View()` returns. The module also holds the `Export` loop. It models the record channel as an input sequence and the result channel as an output sequence.

Where the code's behaviour differs from what a caller might expect, the model follows the code:

- **Ranged reads.** A clamping range read would give an empty result for an offset past the end of a blob. The code instead slices `data[Offset:end]` with `end = min(Offset+Length, len)`. When `Offset > len` that slice panics. It also panics when `Offset+Length` wraps around in `uint64`, because `end` then falls below `Offset`. The model does not model the panic. Instead `Get` requires `GetInBounds`, which says these slice bounds are valid. `Resources.SliceOkIff` proves that this holds exactly when `Offset <= len` and the sum does not wrap. `Offset == len` is allowed and gives an empty read.
- **Creating with a nil configuration.** `Create(nil)` leaves the store not created, because `Open` tests `config == nil`. The model keeps the configuration as an `Option` for this reason.
- **Result order.** Nothing requires results to come back in record order. This exporter emits them in record order, and the model proves that order.

## Model

| member | source | states |
|---|---|---|
| `Resources.MapFor` | connector.go:148-158 | Packfile, State and Lock each get a keyspace, and `ResourceOf` of that keyspace is the tag again. Every other tag fails with `ErrUnsupported`. |
| `Resources.MapForResourceOf` | connector.go:148-158 | Each keyspace is reached by its own tag and by no other tag. |
| `Resources.MapForSeparates` | connector.go:148-158 | Two different tags never share a keyspace, so writes under one cannot reach the other. |
| `Resources.SliceOkIff` | connector.go:199-201 | The slice `data[Offset:end]`, with `end` computed by wrapping `uint64` addition, is valid exactly when `Offset <= len(data)` and `Offset+Length` does not wrap. |
| `Resources.ClampRange` | connector.go:199-202 | A ranged read returns `min(Length, len-Offset)` bytes, and byte i of the result is byte `Offset+i` of the blob. `Offset == len` gives an empty result. |
| `StoreModel.Snapshot.Stored` | connector.go:182 | Publishing a blob replaces the value at that hash in one keyspace only. The other two keyspaces and the configuration stay the same. |
| `StoreModel.Snapshot.Deleted` | connector.go:211 | Deleting removes the hash from one keyspace only. The other two keyspaces and the configuration stay the same. |
| `StoreModel.Open` | connector.go:130-135 | `Open` fails with "store not created" exactly when there is no configuration. Otherwise it returns the stored configuration. |
| `StoreModel.Mode` | connector.go:121-123 | The store always reports both read and write, with no error. |
| `StoreModel.OpenAfterCreate` | connector.go:125-135 | After `Create(cfg)` with a non-nil `cfg`, `Open` returns exactly `cfg`. After `Create(nil)` it still fails. |
| `StoreModel.Get` | connector.go:186-204 | An unknown tag fails with `ErrUnsupported`. An absent hash fails with `ErrPackfileNotFound` for packfiles and with the generic not-found error otherwise. With no range the whole blob is returned. With a range, `blob[Offset .. min(Offset+Length, len)]` is returned. |
| `StoreModel.TotalLengthRemove` | connector.go:137-146 | The byte total of a keyspace is the same whatever order its entries are visited in: it equals any one blob's length plus the total of the rest. |
| `StoreModel.SizeAfterDelete` | connector.go:137-146 | Deleting a present hash lowers the total size by exactly the length of its blob. Deleting an absent hash leaves the total unchanged. |
| `StoreModel.SizeAfterPut` | connector.go:137-146 | Putting a fresh hash raises the total size by `len(d)`. Overwriting a hash swaps the old blob's length for the new one's. |
| `StoreModel.PutThenGet` | connector.go:173-204 | A get after a put of the same hash returns exactly the bytes that were put, including the empty blob. |
| `StoreModel.LastWriteWins` | connector.go:182 | Two puts to the same hash leave the store as if only the second put had happened. |
| `StoreModel.GetAfterDelete` | connector.go:186-213 | After a delete, a get of that hash fails with its tag's not-found error, whatever range is asked for. |
| `StoreModel.DeleteAbsent` | connector.go:206-213 | Deleting an absent hash changes nothing. |
| `StoreModel.DeleteIdempotent` | connector.go:206-213 | Deleting a hash twice has the same effect as deleting it once. |
| `StoreModel.WritesAreIsolated` | connector.go:148-158 | A put or a delete cannot change a get in another keyspace, or a get of a different hash in the same keyspace. |
| `Connector.TestStore.constructor` | connector.go:24-29 | The zero store has no configuration and three empty keyspaces. |
| `Connector.TestStore.Create` | connector.go:125-128 | `Create` sets the configuration, leaves the keyspaces alone and returns no error. A later `Open` returns the new configuration. |
| `Connector.TestStore.Size` | connector.go:137-146 | The loops over the three maps return the sum of the lengths of all blobs in all three keyspaces, with no error. |
| `Connector.TestStore.List` | connector.go:160-171 | An unknown tag fails with `ErrUnsupported` and no list. Otherwise the list holds exactly the hashes of the selected keyspace, each once, so an empty keyspace gives an empty list and no error. |
| `Connector.TestStore.Put` | connector.go:173-184 | An unknown tag returns -1 with `ErrUnsupported`, and a reader error returns -1 with that error. In both cases the store is unchanged. Otherwise `Put` returns `len(data)` and the store becomes `Stored(keyspace, mac, data)`. |
| `Connector.TestStore.Delete` | connector.go:206-213 | An unknown tag fails with `ErrUnsupported` and the store is unchanged. Otherwise `Delete` succeeds, present hash or not, and the store becomes `Deleted(keyspace, mac)`. |
| `Connector.LastWriteWinsScenario` | connector.go:173-204 | On a fresh store, `Put(Packfile, h, "abc")`, then `Put(Packfile, h, "xyz")`, then `Get(Packfile, h)` returns `"xyz"`. |
| `Connector.EmptyListScenario` | connector.go:160-171 | `List(State)` on a fresh store returns an empty list and no error. |
| `Connector.Export` | connector.go:86-104 | The loop emits exactly one result per record, in record order, and each result belongs to its record. A result is a failure exactly when the record has a reader and the copy fails, and it then carries the copy's error. Records with no reader, or with a successful copy, succeed. A failure does not stop the later records. `Export` itself returns no error. |

## Left out

- `Import` (connector.go:63-84): it only calls `os.Stat` and `os.Open` on a fixed path, so it is filesystem I/O. A stat failure returns the error with no record. Otherwise it sends one record.
- `init` registration and the `NewImporter`, `NewExporter` and `NewStore` factories (connector.go:33-49): registry plumbing. The zero store that `NewStore` returns is `TestStore`'s constructor.
- The constant metadata getters `Root`, `Origin`, `Type`, `Flags`, `Ping` and `Close` of both connectors: they return constants and have no behaviour to verify.
- Concurrency: `sync.Map` and context cancellation. Each store method is modelled as one atomic, sequential step. The model does not cover interleavings of concurrent `Put`s.
- `Export`'s writes to standard error (the per-record delimiter line and the copied content), and `io.Copy` itself. Each record's copy is an input with three possible outcomes: no reader, copied, or failed with a message.
- `Record` metadata other than the path name (file info, the alternate name, the lazy opener), and `io.ReadCloser` as a type. `Get` returns the bytes its reader would yield. `Put` takes the outcome of `io.ReadAll`. A partial read before a reader error is discarded, as in the source.
- The Go panic of a ranged `Get` whose offset is past the blob's end, or whose `Offset+Length` wraps around in `uint64`: `Get` requires `GetInBounds` instead of modelling the panic.
- `Connector.TestStore.Create` and `StoreModel.Open`: the configuration slice is shared with the caller, not copied: `Create` keeps the caller's slice and `Open` hands out the store's own. The model treats the configuration as a value, so it does not capture a later change made through either slice; `Open` returns exactly `cfg` only as long as no caller changes it.
- `Connector.TestStore.Size`: does not model wrap-around of the `int64` accumulator. Wrap-around would need more than 2^63 bytes held in memory at once.
- Channel mechanics (blocking, closing, back-pressure): `Export` is modelled on a finite input sequence. Closing the result channel is the end of the output sequence.
