/** What `restore` and `save` promise, stated over the events and outcome of one
    call (`RestoreStep`, `SaveStep`) for every id, hash and backend. */
module CacheProperties {
  import opened Wrappers
  import opened Errors
  import opened Registry
  import opened StateStore
  import opened Coordinator

  /** Some event of `t` asks the backend to write. */
  predicate CallsSaveCache(t: seq<Event>)
  {
    exists i :: 0 <= i < |t| && t[i].SaveRequested?
  }

  /** Some event of `t` asks the backend to restore. */
  predicate CallsRestoreCache(t: seq<Event>)
  {
    exists i :: 0 <= i < |t| && t[i].RestoreRequested?
  }

  /** Some event of `t` writes to the state store. */
  predicate WritesState(t: seq<Event>)
  {
    exists i :: 0 <= i < |t| && t[i].StateWritten?
  }

  /** The state writes of `t`, in order. */
  function StateWrites(t: seq<Event>): seq<Event>
    decreases |t|
  {
    if t == [] then []
    else (if t[0].StateWritten? then [t[0]] else []) + StateWrites(t[1..])
  }

  /** `a` happens strictly before `b` in `t`. */
  predicate Precedes(t: seq<Event>, a: Event, b: Event)
  {
    exists i, j :: 0 <= i < j < |t| && t[i] == a && t[j] == b
  }

  /** An unknown id makes both calls reject with the lookup error, before any
      state write, backend call or log line. */
  lemma UnknownIdRejected(runner: Runner, hashFiles: string -> string, backend: Backend, s: Store, id: string)
    requires !Supported(id)
    ensures RestoreStep(runner, hashFiles, backend, id) == Step([], Fail(UnknownPackageManager(id)))
    ensures SaveStep(s, runner, hashFiles, backend, id) == Step([], Fail(UnknownPackageManager(id)))
    ensures Message(UnknownPackageManager(id)) == "unknown package manager specified: " + id
    ensures Message(UnknownPackageManager("ant")) == "unknown package manager specified: ant"
  {
  }

  /** For a known id, `restore` queries the backend exactly once, with the
      manager's paths, the primary key and the one restore key `<os>-<id>`. Its
      state writes are the primary key, before that query, then the matched key
      on a hit, after it, and nothing else. It never writes to the cache and never
      logs a warning; its last act is an info line saying the cache was not found,
      or the key it was restored from. */
  lemma RestoreCallsAndOrder(runner: Runner, hashFiles: string -> string, backend: Backend, id: string)
    requires Supported(id)
    ensures var pm := FindPackageManager(id, runner.home).value;
            var key := PrimaryKey(runner.os, pm, hashFiles);
            var query := RestoreRequested(pm.path, key, [FallbackKey(runner.os, id)]);
            var matched := backend.restoreCache(pm.path, key, [FallbackKey(runner.os, id)]);
            var t := RestoreStep(runner, hashFiles, backend, id).events;
            && (exists k :: 0 <= k < |t| && t[k] == query &&
                  forall i :: 0 <= i < |t| && i != k ==> !t[i].RestoreRequested?)
            && Precedes(t, StateWritten(CachePrimaryKey, key), query)
            && (!IsMiss(matched) ==> Precedes(t, query, StateWritten(CacheMatchedKey, matched.value)))
            && (forall i :: 0 <= i < |t| && t[i].StateWritten? ==>
                  t[i] == StateWritten(CachePrimaryKey, key) ||
                  (!IsMiss(matched) && t[i] == StateWritten(CacheMatchedKey, matched.value)))
            && StateWrites(t) == [StateWritten(CachePrimaryKey, key)] +
                 (if IsMiss(matched) then [] else [StateWritten(CacheMatchedKey, matched.value)])
            && !CallsSaveCache(t)
            && (forall i :: 0 <= i < |t| && t[i].Logged? ==> t[i].level != Warning)
            && t != []
            && t[|t| - 1] == (if IsMiss(matched) then Logged(Info, CacheNotFound)
                              else Logged(Info, RestoredFrom(matched.value)))
  {
    var pm := FindPackageManager(id, runner.home).value;
    var key := PrimaryKey(runner.os, pm, hashFiles);
    var query := RestoreRequested(pm.path, key, [FallbackKey(runner.os, id)]);
    var matched := backend.restoreCache(pm.path, key, [FallbackKey(runner.os, id)]);
    var t := RestoreStep(runner, hashFiles, backend, id).events;
    assert t[1] == StateWritten(CachePrimaryKey, key) && t[2] == query;
    assert t[1..][1..] == t[2..] && t[2..][1..] == t[3..] && t[3..][1..] == t[4..];
    assert StateWrites(t) == StateWrites(t[1..]) == [t[1]] + StateWrites(t[2..]);
    assert StateWrites(t[2..]) == StateWrites(t[3..]);
    if IsMiss(matched) {
      assert t[4..] == [];
      assert StateWrites(t[3..]) == StateWrites(t[4..]) == [];
    } else {
      assert t[3] == StateWritten(CacheMatchedKey, matched.value);
      assert t[4..][1..] == t[5..] == [];
      assert StateWrites(t[3..]) == [t[3]] + StateWrites(t[4..]);
      assert StateWrites(t[4..]) == StateWrites(t[5..]) == [];
    }
  }

  /** The state store after `restore` of a known id: the primary key recorded,
      the matched key recorded on a hit and left as it was on a miss, every other
      name untouched. */
  lemma RestoreState(runner: Runner, hashFiles: string -> string, backend: Backend, s: Store, id: string, other: string)
    requires Supported(id)
    ensures var pm := FindPackageManager(id, runner.home).value;
            var key := PrimaryKey(runner.os, pm, hashFiles);
            var matched := backend.restoreCache(pm.path, key, [FallbackKey(runner.os, id)]);
            var after := Replay(s, RestoreStep(runner, hashFiles, backend, id).events);
            && GetState(after, CachePrimaryKey) == key
            && GetState(after, CacheMatchedKey) == (if IsMiss(matched) then GetState(s, CacheMatchedKey) else matched.value)
            && (other != CachePrimaryKey && other != CacheMatchedKey ==> GetState(after, other) == GetState(s, other))
  {
    var pm := FindPackageManager(id, runner.home).value;
    var key := PrimaryKey(runner.os, pm, hashFiles);
    var restoreKeys := [FallbackKey(runner.os, id)];
    var matched := backend.restoreCache(pm.path, key, restoreKeys);
    var w1 := StateWritten(CachePrimaryKey, key);
    var q := RestoreRequested(pm.path, key, restoreKeys);
    var t := RestoreStep(runner, hashFiles, backend, id).events;
    NamesDistinct();
    var s1 := s[CachePrimaryKey := key];
    assert Replay(s, t) == Replay(s, t[1..]);
    assert t[1..][0] == w1 && t[1..][1..] == t[2..];
    assert Replay(s, t[1..]) == Replay(s1, t[2..]);
    assert t[2..][0] == q && t[2..][1..] == t[3..];
    assert Replay(s1, t[2..]) == Replay(s1, t[3..]);
    if IsMiss(matched) {
      assert t[3..] == [Logged(Info, CacheNotFound)];
      assert Replay(s1, t[3..]) == Replay(s1, []);
    } else {
      var s2 := s1[CacheMatchedKey := matched.value];
      assert t[3..][0] == StateWritten(CacheMatchedKey, matched.value) && t[3..][1..] == t[4..];
      assert t[4..] == [Logged(Info, RestoredFrom(matched.value))];
      assert Replay(s1, t[3..]) == Replay(s2, t[4..]);
      assert Replay(s2, t[4..]) == Replay(s2, []);
    }
  }

  /** `save` never writes to the state store and never asks the backend to restore. */
  lemma SaveLeavesStateAlone(s: Store, runner: Runner, hashFiles: string -> string, backend: Backend, id: string)
    ensures !WritesState(SaveStep(s, runner, hashFiles, backend, id).events)
    ensures !CallsRestoreCache(SaveStep(s, runner, hashFiles, backend, id).events)
    ensures Replay(s, SaveStep(s, runner, hashFiles, backend, id).events) == s
  {
    var t := SaveStep(s, runner, hashFiles, backend, id).events;
    assert t == [] || Replay(s, t) == Replay(s, t[1..]);
    assert |t| <= 1 || Replay(s, t[1..]) == Replay(s, t[2..]);
  }

  /** `save` asks the backend to write exactly when the id is known and the
      recorded matched key differs from the freshly computed primary key; it
      writes at most once, with the manager's paths and that key. On an exact hit
      it only logs, at info level. */
  lemma SaveWritesIffKeysDiffer(s: Store, runner: Runner, hashFiles: string -> string, backend: Backend, id: string)
    ensures var t := SaveStep(s, runner, hashFiles, backend, id).events;
            CallsSaveCache(t) <==>
              Supported(id) &&
              GetState(s, CacheMatchedKey) != PrimaryKey(runner.os, FindPackageManager(id, runner.home).value, hashFiles)
    ensures Supported(id) ==>
              var pm := FindPackageManager(id, runner.home).value;
              var key := PrimaryKey(runner.os, pm, hashFiles);
              var t := SaveStep(s, runner, hashFiles, backend, id).events;
              && (forall i :: 0 <= i < |t| && t[i].SaveRequested? ==> t[i] == SaveRequested(pm.path, key))
              && (forall i, j :: 0 <= i < j < |t| && t[i].SaveRequested? ==> !t[j].SaveRequested?)
              && (GetState(s, CacheMatchedKey) == key ==> t == [Logged(Info, HitOnPrimaryKey(key))])
  {
    var t := SaveStep(s, runner, hashFiles, backend, id).events;
    if Supported(id) {
      var pm := FindPackageManager(id, runner.home).value;
      var key := PrimaryKey(runner.os, pm, hashFiles);
      if GetState(s, CacheMatchedKey) != key {
        assert t[0] == SaveRequested(pm.path, key);
      }
    }
  }

  /** Since a primary key is never empty, a store in which no match was recorded
      always leads `save` of a known id to write. */
  lemma UnrecordedMatchMeansWrite(s: Store, runner: Runner, hashFiles: string -> string, backend: Backend, id: string)
    requires Supported(id)
    requires GetState(s, CacheMatchedKey) == ""
    ensures CallsSaveCache(SaveStep(s, runner, hashFiles, backend, id).events)
  {
    KeyShape(runner.os, FindPackageManager(id, runner.home).value, hashFiles);
    SaveWritesIffKeysDiffer(s, runner, hashFiles, backend, id);
  }

  /** `save` rejects only for an unknown id or a validation error from the
      backend, which it re-raises unchanged and without logging. A successful
      write ends with an info line naming the key, a reservation conflict is
      reported as info and any other error as a warning, and all three resolve
      normally; a warning is logged only for that last kind of error. */
  lemma SaveFailures(s: Store, runner: Runner, hashFiles: string -> string, backend: Backend, id: string)
    ensures var out := SaveStep(s, runner, hashFiles, backend, id).outcome;
            out.Fail? ==> out.error == UnknownPackageManager(id) ||
                          (out.error.Rethrown? && out.error.error.ValidationError?)
    ensures Supported(id) ==>
              var pm := FindPackageManager(id, runner.home).value;
              var key := PrimaryKey(runner.os, pm, hashFiles);
              var step := SaveStep(s, runner, hashFiles, backend, id);
              var written := backend.saveCache(pm.path, key);
              && (forall i :: 0 <= i < |step.events| && step.events[i].Logged? && step.events[i].level == Warning ==>
                    written.Fail? && written.error.OtherError?)
              && (GetState(s, CacheMatchedKey) != key ==>
                && (written.Pass? ==>
                      step.outcome == Pass && step.events[|step.events| - 1] == Logged(Info, SavedWith(key)))
                && (written.Fail? && written.error.ValidationError? ==>
                      step.outcome == Fail(Rethrown(written.error)) && step.events == [SaveRequested(pm.path, key)])
                && (written.Fail? && written.error.ReserveCacheError? ==>
                      step.outcome == Pass && step.events[|step.events| - 1] == Logged(Info, ErrorText(written.error.message)))
                && (written.Fail? && written.error.OtherError? ==>
                      step.outcome == Pass && step.events[|step.events| - 1] == Logged(Warning, ErrorText(written.error.message))))
  {
  }

  /** Within one invocation that starts with no matched key, `save` after
      `restore` with unchanged manifests writes exactly when the backend did not
      restore from the primary key itself: a miss, and a hit on any other key
      (such as an older entry found through the restore key), lead to a write. */
  lemma SaveAfterRestore(s: Store, runner: Runner, hashFiles: string -> string, backend: Backend, id: string)
    requires Supported(id)
    requires GetState(s, CacheMatchedKey) == ""
    ensures var pm := FindPackageManager(id, runner.home).value;
            var key := PrimaryKey(runner.os, pm, hashFiles);
            var matched := backend.restoreCache(pm.path, key, [FallbackKey(runner.os, id)]);
            var afterRestore := Replay(s, RestoreStep(runner, hashFiles, backend, id).events);
            CallsSaveCache(SaveStep(afterRestore, runner, hashFiles, backend, id).events) <==> matched != Some(key)
  {
    var pm := FindPackageManager(id, runner.home).value;
    var afterRestore := Replay(s, RestoreStep(runner, hashFiles, backend, id).events);
    RestoreState(runner, hashFiles, backend, s, id, "");
    KeyShape(runner.os, pm, hashFiles);
    SaveWritesIffKeysDiffer(afterRestore, runner, hashFiles, backend, id);
  }
}
