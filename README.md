# libsignal-node: job queue, key clamping and key helpers in Dafny

This project models the three pieces of libsignal-node's own logic and proves
properties of them. Everything else in the library forwards to a native
Curve25519 library.

- **The per-key serialized job queue** (`src/queue_job.js`). Callers submit
  asynchronous jobs under a bucket key. Jobs of one key run one at a time, in
  submission order. Jobs of different keys are independent. The module keeps a
  map from key to `{ queue, active }`. A submit to an idle key starts a drain
  loop, and the drain loop deletes the bucket once its queue is empty.
  - `QueueSpec` models this as a state machine on values.
  - `QueueJob.Dispatcher` is a class whose fields are the module state. Its
    methods `Submit`, `Resume` and `ProcessQueue` are proved to perform
    exactly the steps of `QueueSpec`.
  - The `await` at line 39 splits the drain loop across turns of the event
    loop. A suspended loop is recorded in `awaiting`. The settling of the
    awaited value is the `Resume` event.
  - A ghost log of Submit/Start/Finish events (`QueueTrace`) states ordering
    and mutual exclusion.
  - `QueueProperties` proves that every event keeps the invariant `Inv`:
    - FIFO per key;
    - one job in flight per key;
    - a promise is pending exactly while its job is queued or awaited;
    - between turns a key is registered exactly when its bucket is active with
      a suspended loop.
  - `QueueBehaviour` proves what single events do to the state.
- **Private-key clamping** (`src/curve25519_wrapper.js`). `keyPair` and
  `sharedSecret` clamp the private scalar as `decodeScalar25519` of RFC 7748,
  section 5 does. They then call the native `curve25519_donna` through the
  binding in `src/crypto_binding.cpp`.
  - `keyPair` clamps a copy. `sharedSecret` clamps the caller's array in place.
  - The native routine is a function-valued parameter. Only the binding's
    32-byte argument check is modelled.
- **Key helpers** (`src/keyhelper.js`):
  - `isNonNegativeInteger` on JavaScript values;
  - the registration id derived from two random bytes;
  - the argument checks and results of `generateSignedPreKey` and
    `generatePreKey`.

  The curve module these call (`src/curve.js`) is not part of this model.
  What its key-pair generation and its signing settle with, a value or a
  rejection, is a parameter. Each generator reports the curve calls it made.

## Model

| member | source | states |
|---|---|---|
| QueueTrace.SerialFinishesInStartOrder | src/queue_job.js:36-44 | in a serial history of one key, the started jobs are the finished ones, in the same order, followed by at most one job in flight |
| QueueTrace.SerialOneInFlight | src/queue_job.js:36-44 | at every point of a serial history, the number of started jobs is the number of finished jobs or one more |
| QueueSpec.Drain | src/queue_job.js:35-50 | the synchronous run of a drain loop changes no other key's bucket or suspended loop, allocates no id, only appends to the log, and leaves its key registered only while it awaits a job whose awaitable returned |
| QueueProperties.ThrowingJobKeepsDraining | src/queue_job.js:37-43 | a job whose awaitable throws is started and rejected in the same turn, and the state stays consistent while the loop runs on |
| QueueProperties.SuspendingJobRestoresInv | src/queue_job.js:37-39 | a job whose awaitable returns is started, the loop suspends awaiting it, and the between-turns invariant holds again |
| QueueProperties.RetireRestoresInv | src/queue_job.js:46-49 | a loop that finds its queue empty clears `active`, deletes its bucket, and the invariant holds again |
| QueueProperties.DrainRestoresInv | src/queue_job.js:35-50 | a drain loop started or resumed in a consistent state ends its turn with the invariant restored (FIFO, one job in flight, promises pending exactly while queued or awaited, registered keys exactly the active ones) |
| QueueProperties.SubmitKeepsInvariant | src/queue_job.js:11-28 | a submit keeps the invariant and changes no other key's bucket or suspended loop |
| QueueProperties.ResumeKeepsInvariant | src/queue_job.js:36-49 | the settling of an awaited job, with the loop that then runs on, keeps the invariant and changes no other key's bucket or suspended loop |
| QueueBehaviour.DrainSettlesOnlyQueued | src/queue_job.js:36-44 | a drain loop removes no promise and changes the state of no promise outside its queue |
| QueueBehaviour.DrainIgnoresPromise | src/queue_job.js:36-44 | a drain loop never reads a promise: changing a promise outside the queue changes the result in that promise only |
| QueueBehaviour.DrainStartsFront | src/queue_job.js:36-39 | on a non-empty queue the first thing the loop does is start the front job (`shift`) |
| QueueBehaviour.SubmitToActiveBucket | src/queue_job.js:16-25 | on a key whose loop runs, the job is appended at the end of that key's queue with a fresh pending promise, no loop starts, and nothing else changes |
| QueueBehaviour.SubmitToIdleKey | src/queue_job.js:12-25 | on a key with no bucket (never used, or deleted at line 48) the bucket is created and the job starts inside the call. If its awaitable returns, the bucket stays active with an empty queue and the job awaited. If it throws, the promise is rejected and the bucket is gone. The result does not depend on the key's history |
| QueueBehaviour.SubmitSettlesOnlyPending | src/queue_job.js:11-28 | a submit settles no promise that was already settled, and removes none |
| QueueBehaviour.WaitingIsPending | src/queue_job.js:38-43 | a queued or awaited job has a pending promise, owned by its key |
| QueueBehaviour.AwaitedNotQueued | src/queue_job.js:37-39 | the awaited job has left its queue and its promise is pending |
| QueueBehaviour.ResumeIsDrainThenSettle | src/queue_job.js:39-44 | resuming is the rest of the loop followed by the write of the awaited job's outcome: the loop does not depend on that outcome |
| QueueBehaviour.ResumeSettlesAwaited | src/queue_job.js:39-49 | the awaited job's promise goes from pending to settled with the awaitable's outcome, exactly once. Then either the next queued job starts at once, or, with the queue empty, the bucket is deleted |
| QueueBehaviour.ResumeContinues | src/queue_job.js:36-49 | after the awaited job finishes, the loop logs that Finish first, then starts the next queued job, or with an empty queue deletes the bucket and logs nothing more |
| QueueBehaviour.ResumeSettlesOnlyPending | src/queue_job.js:38-44 | resuming settles no promise that was already settled, and removes none: each promise is settled at most once |
| QueueBehaviour.FailureIsolated | src/queue_job.js:40-44 | whether the awaited job fulfils or rejects, buckets, loops and log end the same. Only that job's promise differs |
| QueueBehaviour.JobsRunInSubmissionOrder | src/queue_job.js:36-39 | the finished jobs of a key, then its awaited job, then its queue, are exactly its submitted jobs in submission order, and at every point of its history at most one job was in flight |
| QueueSpec.SubmitStep | src/queue_job.js:11-28 | one submit allocates the next id, owned by its key, logs its Submit first, and changes no other key's bucket or suspended loop. Its full effect is in `SubmitToActiveBucket` and `SubmitToIdleKey`, and its invariant in `SubmitKeepsInvariant` |
| QueueSpec.ResumeStep | src/queue_job.js:39-49 | the settling of an awaited value allocates no id, logs that job's Finish first, and changes no other key's bucket or suspended loop. Its full effect is in `ResumeSettlesAwaited` and `FailureIsolated`, and its invariant in `ResumeKeepsInvariant` |
| QueueJob.Dispatcher.constructor | src/queue_job.js:3 | the module starts with an empty bucket map, in a consistent state |
| QueueJob.Dispatcher.Submit | src/queue_job.js:11-28 | the in-place update is exactly `SubmitStep`, the returned promise is the next fresh id, and the invariant is kept |
| QueueJob.Dispatcher.Resume | src/queue_job.js:39-44 | the in-place update is exactly `ResumeStep`, and the invariant is kept |
| QueueJob.Dispatcher.ProcessQueue | src/queue_job.js:35-50 | the `while` loop over the bucket's queue updates the state exactly as `Drain` |
| Curve25519Wrapper.BasePointIsNine | src/curve25519_wrapper.js:2-3 | the base point is 32 bytes, byte 0 is 9, the others are 0, and it denotes the u-coordinate 9 |
| Curve25519Wrapper.Clamp | src/curve25519_wrapper.js:7-10 | length is kept. Bytes other than 0 and 31 are unchanged. The low three bits of byte 0 are cleared and its other bits kept. Bit 7 of byte 31 is cleared, bit 6 is set, and its low six bits are kept |
| Curve25519Wrapper.ClampIdempotent | src/curve25519_wrapper.js:8-10 | clamping an already clamped key changes nothing, so a private key `keyPair` returned is left as it is by `sharedSecret` |
| Curve25519Wrapper.ClampedScalar | src/curve25519_wrapper.js:8-10 | as a number, a clamped 32-byte key is 2^254 plus the key modulo 2^254 with its three low bits cleared. Hence it is a multiple of 8 in [2^254, 2^255) |
| Curve25519Wrapper.ClampedDigits | src/curve25519_wrapper.js:8-10 | a key and its clamping differ, as numbers, only in the first and the last byte |
| Curve25519Wrapper.ClampInPlace | src/curve25519_wrapper.js:24-26 | the compound assignments leave the array holding exactly the clamping of its old contents |
| Curve25519Wrapper.NativeDonna | src/crypto_binding.cpp:73-103 | the binding fails with "Inputs must be 32 bytes" exactly when an argument is not 32 bytes long, and otherwise yields the native result |
| Curve25519Wrapper.KeyPairFrom | src/curve25519_wrapper.js:5-20 | the caller's array is not written. On a 32-byte key, the private key returned is its clamped copy and the public key is the native product of that copy and the base point. Otherwise it rejects with the binding's error |
| Curve25519Wrapper.SharedSecret | src/curve25519_wrapper.js:22-33 | the caller's private-key array is clamped in place, even when the call then rejects, and a separate peer-key array is not written. With both arrays 32 bytes long, it yields the native product of the clamped key and the peer key as read after the clamp, so a peer key that is the private key's own array is passed clamped. Otherwise it rejects |
| Curve25519Wrapper.SharedSecretOfBuffer | src/curve25519_wrapper.js:22-33 | with an ArrayBuffer key the writes miss the bytes, and the native routine gets the key unchanged |
| Curve25519Wrapper.BufferPathAgrees | src/curve25519_wrapper.js:16 | for a private key `KeyPairFrom` returned, the ArrayBuffer path and the typed-array path hand the native routine the same scalar |
| KeyHelper.RemainderOne | src/keyhelper.js:5 | `n % 1` takes the sign of its dividend, lies strictly between -1 and 1, is zero exactly for integral numbers, and is NaN for infinities |
| KeyHelper.IsNonNegativeIntegerMeans | src/keyhelper.js:4-6 | `isNonNegativeInteger` holds exactly for finite numbers that are integral and not negative, so NaN, the infinities and non-numbers fail it |
| KeyHelper.Uint16ArrayFrom | src/keyhelper.js:11 | one 16-bit element per byte, each with the byte's value |
| KeyHelper.GenerateRegistrationId | src/keyhelper.js:10-13 | the id equals the first random byte |
| KeyHelper.RegistrationIdIsFirstByte | src/keyhelper.js:11-12 | the id is at most 0x3fff, in fact at most 255, and the second random byte has no effect |
| KeyHelper.RegistrationIdMisses256 | src/keyhelper.js:11-12 | the 14-bit value 256 is never produced |
| KeyHelper.IntendedRegistrationId | src/keyhelper.js:11-12 | the two bytes read as one little-endian 16-bit number and masked give an id of at most 0x3fff whose low byte is the first random byte |
| KeyHelper.IntendedRegistrationIdCoversAll | src/keyhelper.js:11-12 | every 14-bit value is the intended id of some pair of random bytes |
| KeyHelper.GenerateSignedPreKey | src/keyhelper.js:15-32 | no TypeError is raised exactly when the private key is a 32-byte Buffer, the public key a 33-byte Buffer and the id a non-negative integral number. A bad identity key pair is reported first, then a bad id, and a TypeError makes no curve call. Past the checks, the key pair is awaited first and its rejection rejects the call. Then the signature by the identity private key over the new public key is awaited, and its rejection rejects the call. Otherwise the result keeps the id and carries the generated key pair and that signature |
| KeyHelper.GeneratePreKey | src/keyhelper.js:34-43 | no TypeError is raised exactly when the id is a non-negative integral number. Otherwise it rejects with the bad id and makes no curve call. Past the check, exactly one key pair is awaited. Its rejection rejects the call, otherwise the result is the id unchanged with that key pair |
| KeyHelper.RejectionIgnoresCurve | src/keyhelper.js:16-25 | a call rejected by its own argument checks has the same outcome whatever the curve module would generate or sign: validation finishes before the first `await` |
| KeyHelper.GeneratorsAgreeOnIds | src/keyhelper.js:22-24 | with a valid identity key pair, both generators pass their checks for exactly the same ids. When the signed pre-key succeeds, the pre-key succeeds with the same id and key pair |

## Left out

- Promise and microtask scheduling are not modelled. A suspended drain loop is resumed by an explicit `Resume` event, and the order in which the event loop delivers the events is left open.
- Re-entrant submits are not modelled: an awaitable that calls `submit` while it is being invoked (synchronously, inside line 39).
- A bucket object is a value in the map. That the drain loop holds the same object as the map (line 24) is not modelled. It makes no observable difference because the bucket is deleted only by its own loop.
- Awaitables are modelled by what they do in the turn they are invoked: they throw at once, or they return a value that is awaited. The values themselves, and thenables, are not modelled.
- SharedSecret: a peer key and a private key that are distinct views over overlapping parts of one ArrayBuffer are not modelled. Two arrays here are either the same array or share no bytes.
- `keyPair` with a raw ArrayBuffer: there `new Uint8Array(privKey)` is a view, so the clamping writes into the caller's buffer. This aliasing is not modelled.
- Curve25519 scalar multiplication, `curve25519_sign` and `curve25519_verify` are foreign code. The native routine is a parameter, and `sign` and `verify` (src/curve25519_wrapper.js:35-52) forward to the native code without logic of their own.
- The binding's checks of argument count and argument types ("Wrong number of arguments", "Wrong arguments") are not modelled. The wrapper always passes three arguments of the right kinds.
- The binding's asynchronous worker is not modelled: the thread pool, and the `success` flag it computes but never reports.
- `src/curve.js` is not part of this model. What its `generateKeyPair` and `calculateSignature` settle with, a value or a rejection, is an input. When either rejects, the generator passes the rejection on. `generateIdentityKeyPair` (src/keyhelper.js:8) is a re-export of `src/curve.js` and is left out with it.
- `nodeCrypto.randomBytes(2)` is replaced by its two bytes, given as input.
- JavaScript numbers are modelled as reals plus NaN and the two infinities. Rounding, and the distinction between `-0` and `0`, are not modelled (`isNonNegativeInteger(-0)` is true, as for `0`).
- An `identityKeyPair` that is not an object, where reading a property throws, is not modelled. Each of its two fields is either a Buffer or any other value.
- test.js has no logic of its own to model.

## Findings

| source | as written | input that shows it | evidently intended | confidence | as-written member | corrected member |
|---|---|---|---|---|---|---|
| src/keyhelper.js:11-12 | `Uint16Array.from(randomBytes(2))[0]` converts element by element, so the id is the first random byte and only 256 of the 16384 ids that the mask `0x3fff` admits can occur | any two random bytes: the id is never 256 (`RegistrationIdMisses256`), and the second byte is ignored (`RegistrationIdIsFirstByte`) | read both bytes as one 16-bit number and mask it to 14 bits, so that every id in 0..16383 can occur | high; not executed | KeyHelper.GenerateRegistrationId | KeyHelper.IntendedRegistrationId |
