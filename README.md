# VM snapshot to custom image — a Dafny model

This project models the snapshot workflow of the multi-cloud infra service
(`src/core/mcis/snapshot.go`). `CreateVmSnapshot` takes a namespace, an MCIS, a VM
and an optional snapshot name. It looks the VM up in the key-value store and
resolves the snapshot name, generating one from the VM's name and a 5-character
random suffix when the caller gave none. It then asks the provider layer (the
"Spider" abstraction service) to create an image of the VM. It turns the provider's
answer into a custom-image record and registers that record in the catalog. The file
also holds `Difference_dataDisks`, a helper for a data-disk reconciliation step that
is currently commented out. The helper returns the resources of one list that do not
occur in another.

Modules:

- `Wrappers` (`wrappers.dfy`): `Option` and `Result`.
- `McirTypes` (`mcir_types.dfy`): the records the workflow exchanges with the provider
  layer and the catalog, plus the zero custom-image record.
- `DataDiskDifference` (`data_disk_difference.dfy`): `Difference_dataDisks` as a method
  with two loops. The first loop fills a membership map. The second appends to the
  output. The method is proved equal to the specification function `Difference`, and
  lemmas about `Difference` give its meaning: membership, multiplicities, order, and
  the exact positions it keeps.
- `VmSnapshot` (`vm_snapshot.dfy`): `CreateVmSnapshot` as a pure function.

Every collaborator of `CreateVmSnapshot` becomes an input field of `Collaborators`:

- the store, as a map from `(namespace, mcis, vm)` keys to decoded VM records, plus a
  flag for a store read that fails;
- the generated suffix, as a string of length 5;
- the provider call, as a function from request to status code, body and decoded
  image description;
- the registrar, as a function from `(namespace, record)` to a `Result`.

The outcome records the calls made to the provider and the registrar, in order. This
is how "no provider call" and "no registration" are stated.

Three points where what the workflow is meant to do and what the code does are worth
spelling out. The model follows the code in each:

- A store read that reports an error fails the lookup even when a record came back
  (`keyValue == nil || err != nil`).
- A transport failure is not checked separately. It shows up only as status code 0,
  which lies outside [200, 400).
- A registered custom image is meant to come back with a non-empty id assigned by the
  registrar. The code returns whatever the registrar returns, so the model proves a
  non-empty id only for a registrar that fills one in (`SuccessfulSnapshotIsTraceable`).

## Model

| member | source | states |
|---|---|---|
| `DataDiskDifference.DifferenceDataDisks` | src/core/mcis/snapshot.go:151-163 | The helper's two loops (fill the membership map from `b`, then append each element of `a` not in it) return exactly `Difference(a, b)` |
| `DataDiskDifference.Difference` | src/core/mcis/snapshot.go:156-162 | The difference is never longer than `a` |
| `DataDiskDifference.DifferenceMembership` | src/core/mcis/snapshot.go:152-162 | An element is in the result if and only if it is in `a` and not in `b`, so the result is disjoint from `b` |
| `DataDiskDifference.DifferenceCount` | src/core/mcis/snapshot.go:157-161 | Every element of `b` occurs 0 times in the result; every other element occurs exactly as often as in `a`, so duplicates are kept |
| `DataDiskDifference.DifferenceSelectsPositions` | src/core/mcis/snapshot.go:151-163 | The result is the elements of `a` at exactly the positions whose element is not in `b`, taken in increasing order: a subsequence of `a` in `a`'s order that misses no such position |
| `DataDiskDifference.DifferenceAppend` | src/core/mcis/snapshot.go:157-161 | The difference of a concatenation is the concatenation of the differences, so relative order is kept |
| `DataDiskDifference.DifferenceCons` | src/core/mcis/snapshot.go:157-161 | Read from the front, the first element of `a` is kept exactly when it is not in `b`, followed by the difference of the rest |
| `DataDiskDifference.DifferenceEdgeCases` | src/core/mcis/snapshot.go:152-162 | With `b` empty the result equals `a`; with `a` empty the result is empty |
| `DataDiskDifference.NewDataDisks` | src/core/mcis/snapshot.go:130 | The corrected call `Difference(after, before)` contains a disk if and only if it is present after the snapshot and not before |
| `DataDiskDifference.NewDataDisksAsWritten` | src/core/mcis/snapshot.go:130 | The call as written, `Difference(before, after)`, contains a disk if and only if it was present before the snapshot and is gone after it |
| `DataDiskDifference.NewDataDisksExact` | src/core/mcis/snapshot.go:130 | `Difference(after, before)` holds exactly the disks present after the snapshot and not before, with every occurrence they have in `after` |
| `DataDiskDifference.AsWrittenCallMissesNewDisk` | src/core/mcis/snapshot.go:130 | The argument order of the disabled call, `(before, after)`, misses a disk that appears only after the snapshot and reports one that disappeared |
| `VmSnapshot.ResolveSnapshotName` | src/core/mcis/snapshot.go:45-47 | The resolved name is never empty; a non-empty caller name is used verbatim; an empty one becomes the VM's name, then a dash, then exactly the five suffix characters (length of the name plus 6) |
| `VmSnapshot.LookupFails` | src/core/mcis/snapshot.go:36 | The lookup fails whenever the store read reports an error, even if a record came back; when it does not fail, a record exists for the key |
| `VmSnapshot.SnapshotRequest` | src/core/mcis/snapshot.go:49-58 | The request carries the VM's connection and the resolved name, and names the source VM by its provider-side name |
| `VmSnapshot.IsSuccessStatus` | src/core/mcis/snapshot.go:86 | A status is a success exactly when the source's failure test (`>= 400` or `< 200`) is false; 0 (transport failure) and 500 are failures |
| `VmSnapshot.CandidateImage` | src/core/mcis/snapshot.go:95-111 | The record for the registrar has no id yet; namespace, name and internal VM id come from the call; connection from the VM; provider ids, creation time, status and key-value list from the provider's image; no associated objects, not auto-generated, and empty description, guest OS and system label |
| `VmSnapshot.GeneratedNamesDistinct` | src/core/mcis/snapshot.go:45-47 | Two generated names for the same VM are equal if and only if their random suffixes are equal |
| `VmSnapshot.CreateVmSnapshot` | src/core/mcis/snapshot.go:31-149 | Every error outcome carries the zero record; a success made two calls, and its record is exactly what the registrar returned for the second call |
| `VmSnapshot.LookupFailureMakesNoCall` | src/core/mcis/snapshot.go:35-40 | The lookup fails (store error or no record) if and only if the workflow made no call and returned the zero record with a not-found error for the key |
| `VmSnapshot.ProviderRequestFields` | src/core/mcis/snapshot.go:49-58 | After a successful lookup the first call is the image request, with the VM's connection, the resolved name (the caller's name when non-empty) and the VM's provider-side name as source VM |
| `VmSnapshot.ProviderFailureSkipsRegistration` | src/core/mcis/snapshot.go:82-91 | After a successful lookup, a status outside [200, 400), 0 included, holds if and only if the provider was the only call and the result is the zero record with the response body as error |
| `VmSnapshot.CandidateImageFields` | src/core/mcis/snapshot.go:93-113 | On a successful status the second call registers, under the namespace, the record with namespace, empty id, the resolved name, the VM's connection, the internal VM id, the provider's system id and name id, creation time, status and key-value list, no associated objects, not auto-generated, and empty description, guest OS and system label |
| `VmSnapshot.RegistrationDecidesResult` | src/core/mcis/snapshot.go:113-148 | After a successful provider call, a registrar failure yields the zero record and an error; a registrar success yields the registrar's record unchanged and no error |
| `VmSnapshot.SuccessNeedsEveryStage` | src/core/mcis/snapshot.go:31-149 | The workflow succeeds if and only if the lookup, the provider call (status in [200, 400)) and the registration all succeed |
| `VmSnapshot.SourceVmIdentifiers` | src/core/mcis/snapshot.go:49-100 | The provider request names the VM by its provider-side name, while the registered record's source VM id is the internal VM id |
| `VmSnapshot.SuccessfulSnapshotIsTraceable` | src/core/mcis/snapshot.go:95-118 | With a registrar that only assigns a non-empty id, a successful result belongs to the requested namespace, has an id, and points to an existing VM and its connection |
| `VmSnapshot.ScenarioNamedSnapshot` | src/core/mcis/snapshot.go:31-149 | Worked case: VM `vm1` with connection `aws-ap-southeast-1` and provider name `i-0123`, name `my-snap`, provider image `ami-999`. The request, the registered record and the registrar-assigned id come out as expected |

## Left out

- HTTP client set-up, URL construction, headers and response decoding by the client
  library (snapshot.go:60-66, 80-84). The provider call is an input function, and the
  decoded image description is taken as given for every successful status. How the
  client library fills it for 3xx answers is not modelled.
- The store key encoding (`GenMcisKey`). The store is a map keyed by the
  `(namespace, mcis, vm)` triple, so the model assumes distinct triples give distinct
  keys.
- Decoding the stored VM record (snapshot.go:43). The source ignores the decoding
  error. The store holds decoded records, and only the fields the workflow reads
  (name, connection, provider-side name) are kept.
- The random string generator. The suffix is an input of length 5. Whether two
  generated names collide depends only on the suffixes (`GeneratedNamesDistinct`).
- The registrar's internals (`RegisterCustomImageWithInfo`). It is an input function
  returning a record or an error.
- Error message texts, logging and printing. Errors are kinds (`VmNotFound`,
  `ProviderError`, `RegistrationFailed`). The source reports a registration failure
  with the same "Failed to find 'ns/mcis/vm'" text as a failed lookup, and the model
  does not carry that text.
- `ProviderError` carries the response body verbatim. The source passes the body to
  `fmt.Errorf` as a format string, which would rewrite a body containing `%`. That
  rewriting is not modelled.
- Go's distinction between a nil slice and an empty one. `Difference_dataDisks`
  returns nil when nothing is kept, and the zero record's lists are nil. The candidate
  record's associated-object list is a non-nil empty slice. All of these are `[]`
  here.
- The disk records are an abstract element type that has equality and holds no object
  references. The source's record is a plain struct compared by value, and its fields
  are not modelled.
- Timestamps and statuses are strings. Their Go types are not part of this model.
- The commented-out data-disk inspection and registration (snapshot.go:71-77,
  122-146). Only the difference helper and the argument order of its disabled call
  are modelled.
- Concurrency between snapshot requests. Each call is one sequential workflow.

## Findings

| source | as written | input that shows it | evidently intended | confidence | as-written member | corrected member |
|---|---|---|---|---|---|---|
| src/core/mcis/snapshot.go:130 | `Difference_dataDisks(before, after)`, the disks that disappeared | before = [], after = [d]: the result is empty, so the new disk d is missed | `Difference_dataDisks(after, before)`: the disks that appeared with the snapshot, which the loop it feeds treats as newly created disks (lines 132 and 142) | medium; not executed, and the call is commented out | `DataDiskDifference.AsWrittenCallMissesNewDisk` | `DataDiskDifference.NewDataDisks` |
