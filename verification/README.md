# Storage client settings and options

This project models how the Cloud Storage client resolves its transport-agnostic
settings, as written in `storage/client.go`. A `settings` record has four fields:

- a retry policy reference, which may be nil;
- a slice of gax call options;
- an idempotency flag;
- a slice of transport construction options.

A `storageOption` is one configuration write. There are four kinds, and each one
replaces exactly one of those fields. The client code works with the options in
three ways:

- `resolveOptions` applies a list of options to a settings object in place, in
  list order.
- `initSettings` resolves options onto a zero-valued record.
- `callSettings` builds per-call settings. It makes a shallow copy of the
  client's defaults and resolves the call's options onto that copy. The defaults
  are never written. Nil defaults give a nil result.

Everything is in `client.dfy`, module `Storage`:

- `Settings` is a class with the four mutable fields. `Settings.Value()` gives
  the value the object holds, as a `SettingsValue` datatype.
- `StorageOption` is a datatype with one constructor per option kind:
  - `GaxOption` for `withGAXOptions` / `gaxOption`;
  - `RetryOption` for `withRetryConfig` / `retryOption`;
  - `IdempotentOption` for `idempotent` / `idempotentOption`;
  - `ClientOption` for `withClientOptions` / `clientOption`.
- `StorageOption.Apply` writes the option into a `Settings` object in place.
  `StorageOption.ApplyTo` is its counterpart on values.
- `ResolveOptions`, `InitSettings` and `CallSettings` are methods that work on
  objects. Each is proved against the pure left fold `Resolve`.
- `LastWriter` is an independent definition of "the last option that writes a
  field". The lemma `LastWriterWins` ties it to `Resolve`.

The element types of the two option slices belong to other packages. They are
the type parameters `G` (gax call option) and `C` (client option). The retry
policy is the empty class `RetryConfig`. A `retry` field is a nullable
reference to it, so two settings can share one policy, as the Go pointer
allows.

## Model

| member | source | states |
|---|---|---|
| `Storage.StorageOption.ApplyTo` | storage/client.go:160-198 | The option's field holds its payload afterwards. The other three fields are unchanged. |
| `Storage.StorageOption.Apply` | storage/client.go:164-198 | In place: the object's new value is the old value with the option applied. Only that object is modified. |
| `Storage.ApplyIgnoresPrior` | storage/client.go:168-198 | An option never reads the settings. Its field ends up the same whatever the settings held before. |
| `Storage.ApplyIdempotent` | storage/client.go:168-198 | Applying the same option twice in a row gives the same settings as applying it once. |
| `Storage.ApplyPair` | storage/client.go:168-198 | Two options that write different fields commute. Of two options that write the same field, the later one wins. |
| `Storage.Resolve` | storage/client.go:131-135 | The left fold of the options over the settings. A field that no option in the list writes keeps its prior value. |
| `Storage.LastWriter` | storage/client.go:31-34 | The index of the last option that writes a field, or -1 when no option writes it. It is the reference definition of "resolved in the order received". |
| `Storage.LastWriterWins` | storage/client.go:131-135 | After resolving, each field holds the payload of its last writer. A field with no writer holds its value from before. |
| `Storage.ResolveAppend` | storage/client.go:131-135 | Resolving `a + b` is the same as resolving `a` and then `b`. |
| `Storage.ResolveTwice` | storage/client.go:131-135 | Resolving the same list a second time, or resolving `opts + opts`, gives the same result as resolving `opts` once. |
| `Storage.RepeatedOptionCollapses` | storage/client.go:131-135 | An option repeated immediately at any position in a list has the same effect as one occurrence. |
| `Storage.FieldsDetermineValue` | storage/client.go:106-123 | Helper for `ResolveTwice`: two settings values that agree on all four fields of the record are equal. The record itself is modelled by `SettingsValue` and the class `Settings`. |
| `Storage.Settings.constructor` | storage/client.go:126 | `&settings{}` holds the zero value: nil retry, no call options, not idempotent, no client options. |
| `Storage.Settings.Copy` | storage/client.go:146-149 | The shallow copy `*defaults` holds the same value as the original. This includes the same retry reference and the same slices. |
| `Storage.ResolveOptions` | storage/client.go:131-135 | In place: the new value is the fold of the options, in list order, over the old value. An empty list leaves the object unchanged. |
| `Storage.InitSettings` | storage/client.go:125-129 | Returns a fresh object holding the options resolved onto the zero value. |
| `Storage.CallSettings` | storage/client.go:137-152 | Nil defaults give nil. Otherwise it returns a fresh object, distinct from the defaults, holding the call's options resolved onto the defaults' value. The defaults are unchanged. |
| `Storage.CallsDoNotInterfere` | storage/client.go:137-140 | Two calls that share one defaults object each see only their own options. The defaults keep their value throughout. |

## Left out

- The `storageClient` interface (storage/client.go:40-101) is only method signatures for remote calls over HTTP or gRPC. There are no bodies to model.
- The interface's promises that errors are wrapped in the gax APIError type and that unimplemented methods return `StorageUnimplementedErr` (storage/client.go:35-36) are not modelled. No code in the file implements them.
- `composeObjectRequest`, `rewriteObjectRequest` and `rewriteObjectResponse` (storage/client.go:200-227) are not modelled. They are plain data records with no operations. The multi-step rewrite protocol is not implemented in this file.
- The contents of `gax.CallOption` and `option.ClientOption` are not modelled. They belong to other packages and are opaque here, as type parameters.
- The contents of `retryConfig` are not modelled. It is declared in package `storage` but outside `storage/client.go`, and is opaque here: an empty class.
- A nil option in the list is not modelled. In Go, calling `Apply` on it panics. The model's types rule it out.
- A nil settings pointer passed to `resolveOptions` is not modelled. In Go it panics as soon as the first option is applied; with no options the call does nothing. Both callers (storage/client.go:126-127 and 149-150) pass a non-nil pointer, and the model's types require one.
- Nil and empty slices are treated as the same value `[]`. In Go, `&settings{}` (storage/client.go:126) and `withGAXOptions()` / `withClientOptions()` called with no arguments hold nil slices, which differ from non-nil empty slices; nothing in this file tells the two apart.
- Slices are modelled as immutable sequences, so the model does not capture aliasing of the slice backing arrays between the defaults and a call's copy. This is sound here because every option replaces its field wholesale and never mutates the slice in place.
- Concurrent calls are not modelled. `CallsDoNotInterfere` states the sequential property the concurrency claim rests on: the defaults are never written.
