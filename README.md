# Dependency cache of setup-java, modelled in Dafny

This project models the dependency-cache coordinator of the setup-java action
(`src/cache.ts`). The coordinator knows two package managers, Maven and Gradle.
For each one it knows the directories to cache and the manifest pattern whose
hash forms the cache key. `restore(id)` runs before the build. It computes the
primary key `<RUNNER_OS>-<id>-<hash>` and records it in the per-invocation state
store. It then asks the cache backend for that key, with `<RUNNER_OS>-<id>` as
the only restore key, and records the key it got back on a hit. `save(id)` runs
after the build. It recomputes the key and skips the write when the key equals
the recorded matched key. Otherwise it writes, and it sorts backend errors into
re-raised, info and warning.

Files:

- `wrappers.dfy`: `Option`, `Result`, `Outcome` (a promise that resolves or rejects).
- `errors.dfy`: the lookup failure, the three backend error kinds, the error message.
- `registry.dfy`: the list of supported managers, `findPackageManager`, the key
  builders and the restore key, with lemmas about key shape.
- `store.dfy`: the state store as a map, how `getState` reads it (a name never
  written reads as `""`), and the two state names. The effect of `saveState` is
  `Apply` / `Replay` and the method `Coordinator.SaveState` in `coordinator.dfy`.
- `coordinator.dfy`: events (state writes, backend calls, log lines), the pure
  step functions `RestoreStep` / `SaveStep`, and the class `Coordinator`. Its
  `Restore` and `Save` methods act step by step on a mutable state map and an
  event trace, and are proved to produce exactly the events and outcome of the
  step functions. The class invariant says the state map is the replay of the
  recorded writes over the initial store.
- `properties.dfy`: what the two calls promise, proved over the step functions
  for every id, hash function and backend behaviour.

Collaborators are parameters. `hashFiles` is any function from a pattern string
to a digest (one per call: the workspace as it is at that moment). The backend
is a pair of functions giving the outcome of `restoreCache` and `saveCache`.
`Runner` holds the platform name and the home directory.

The model keeps these details of the code:

- `restore` treats an empty string returned by `restoreCache` as a miss, the same
  as no key at all (`if (!matchedKey)`).
- The "no files matched" warning is not in this code. It lives inside `hashFiles`,
  so the model has no such log line.
- The key builders write the literal `maven` / `gradle`. This equals the entry's
  id, which is what the model uses.

## Model

| member | source | states |
|---|---|---|
| Registry.Join | src/cache.ts:22 | `path.join(home, …)` gives a path that starts with `home` and is longer than it when segments are added |
| Registry.SupportedPackageManagers | src/cache.ts:19-36 | the registry lists Maven then Gradle, with distinct ids; every entry has at least one directory and a non-empty pattern |
| Registry.Find | src/cache.ts:39 | `find` returns an entry of the list with the given id, the first such one, and returns nothing exactly when no entry has that id |
| Registry.FindPackageManager | src/cache.ts:38-44 | the lookup succeeds exactly for `maven` and `gradle`, returning a registered entry with that id; otherwise it fails with `UnknownPackageManager(id)` |
| Registry.ArtifactPaths | src/cache.ts:19-36 | Maven caches `[home/.m2/repository]` and hashes `**/pom.xml`; Gradle caches `[home/.gradle/caches, home/.gradle/wrapper]` and hashes `**/*.gradle*` plus `**/gradle-wrapper.properties` |
| Registry.PrimaryKey | src/cache.ts:23-34 | the key a manager builds always has the restore key `<os>-<id>` as a proper prefix |
| Registry.FallbackKey | src/cache.ts:57 | the restore key is the platform, a dash, then the id |
| Registry.KeyShape | src/cache.ts:23-34 | a primary key is never empty and has `-<id>-` right after the platform name |
| Registry.KeyDeterminesHash | src/cache.ts:23-34 | for one manager and platform, two keys are equal exactly when the hashes of the manifest pattern are equal |
| Registry.ManagersNeverShareKey | src/cache.ts:19-36 | on one platform, a Maven key never equals a Gradle key, and neither do their restore keys |
| Errors.Message | src/cache.ts:41 | the lookup error's message is `unknown package manager specified: ` followed by the id; a re-raised backend error keeps its own message |
| StateStore.NamesDistinct | src/cache.ts:11-12 | the primary-key and matched-key state names differ |
| Coordinator.IsMiss | src/cache.ts:59 | the falsiness test on a string or undefined value: no key and the empty key are misses, and every non-empty key is a hit |
| Coordinator.ReactionTo | src/cache.ts:84-91 | a validation error is rethrown, a reservation conflict is reported at info level, every other error at warning level |
| Coordinator.RestoreStep | src/cache.ts:50-66 | `restore` rejects exactly for an unknown id, and then with no events at all; a miss and a hit both resolve |
| Coordinator.SaveStep | src/cache.ts:72-93 | `save` rejects with the lookup error exactly for an unknown id (with no events), or with `Rethrown(e)` exactly when the keys differ and `saveCache` failed with validation error `e`; on an exact hit, a successful write and any other error it resolves |
| Coordinator.Coordinator.SaveState | src/cache.ts:54 | writing a state name updates that entry of the store and appends the write to the trace |
| Coordinator.Coordinator.GetState | src/cache.ts:75 | reading a state name gives its stored value, or the empty string if it was never written |
| Coordinator.Coordinator.Log | src/cache.ts:53 | a log line is appended to the trace and the store is unchanged |
| Coordinator.Coordinator.Restore | src/cache.ts:50-66 | the method's outcome and appended events are those of `RestoreStep`; the new store is the old one with those writes replayed; the class invariant holds |
| Coordinator.Coordinator.Save | src/cache.ts:72-93 | the method's outcome and appended events are those of `SaveStep` on the old store; the store is unchanged |
| CacheProperties.UnknownIdRejected | src/cache.ts:38-44 | for an unknown id both `restore` and `save` reject with `unknown package manager specified: <id>`, with no state write, backend call or log line |
| CacheProperties.RestoreCallsAndOrder | src/cache.ts:54-65 | `restore` queries the backend exactly once, with the manager's paths, the primary key and the single restore key; its state writes are exactly the primary key, before the query, then on a hit the matched key, after it; it never writes to the cache and never logs a warning; it ends with an info line: not found on a miss, restored-from-key on a hit |
| CacheProperties.RestoreState | src/cache.ts:54-64 | after `restore` the primary key is stored; the matched key is stored on a hit and unchanged on a miss (including an empty returned key); other names are unchanged |
| CacheProperties.SaveLeavesStateAlone | src/cache.ts:72-93 | `save` never writes to the state store and never asks the backend to restore |
| CacheProperties.SaveWritesIffKeysDiffer | src/cache.ts:74-82 | `save` calls `saveCache` exactly when the id is known and the stored matched key differs from the fresh primary key; it writes at most once, with the manager's paths and that key; on equal keys it only logs at info level |
| CacheProperties.UnrecordedMatchMeansWrite | src/cache.ts:75-76 | if no matched key was recorded (`getState` gives `""`), `save` of a known id always writes, because a primary key is never empty |
| CacheProperties.SaveFailures | src/cache.ts:81-92 | `save` rejects only with the lookup error or a validation error, which it re-raises unchanged and without logging after the write attempt; a successful write ends with an info line naming the key; a reservation conflict ends with an info line and resolves; any other error ends with a warning and resolves; no other path logs a warning |
| CacheProperties.SaveAfterRestore | src/cache.ts:54-80 | in an invocation with no matched key at the start and unchanged manifests, `save` after `restore` writes exactly when the backend did not return the primary key itself, so a miss or a hit on any other key leads to a write |

## Left out

- File hashing and glob expansion (`hashFiles` of `@actions/glob`): an arbitrary function from the pattern string to a digest. Its "no files matched" warning is not modelled.
- The cache backend's storage, network transport and archive format: only the outcomes of `restoreCache` and `saveCache` are modelled. Extracting files on a hit is not modelled.
- Exceptions thrown by `restoreCache` (for example on invalid keys): the model's `restoreCache` always returns a key or none, so it has no such path. In the source these propagate out of `restore`.
- Reading `RUNNER_OS` and `os.homedir()`: passed in as `Runner`. An unset `RUNNER_OS`, which the template turns into `undefined`, is just another platform string.
- `path.join` normalisation and the Windows separator: `Join` concatenates with `/`.
- Async sequencing: `restore` and `save` are synchronous steps; a rejected promise is `Fail`.
- Log message wording: each line is a severity plus what it reports (`Note`). The text of the "cache is not found" line, which prints the entry object, is not modelled.
- Telling backend errors apart by `error.name`: replaced by the tagged `CacheError`.
- `src/cleanup-java.ts` (the post-step entry point, which runs `save` concurrently with GPG key removal) and the installer tests are not part of this model.
