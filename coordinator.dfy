/** `restore` and `save` of src/cache.ts. Everything they do to the outside
    world is an event in a trace: state writes, the two backend calls and log
    lines. The pure functions `RestoreStep` and `SaveStep` say which events one
    call produces and how it settles; the class `Coordinator` performs the same
    calls step by step against a mutable state store and is proved to match them. */
module Coordinator {
  import opened Wrappers
  import opened Errors
  import opened Registry
  import opened StateStore

  /** What the source reads from the environment: `RUNNER_OS` and `os.homedir()`. */
  datatype Runner = Runner(os: string, home: string)

  /** The cache backend, reduced to the outcomes of its two calls. */
  datatype Backend = Backend(
    restoreCache: (seq<string>, string, seq<string>) -> Option<string>,
    saveCache: (seq<string>, string) -> Outcome<CacheError>)

  datatype Level = Debug | Info | Warning

  /** A log line, by what it reports rather than by its wording. */
  datatype Note =
    | PrimaryKeyIs(key: string)
    | CacheNotFound
    | RestoredFrom(key: string)
    | HitOnPrimaryKey(key: string)
    | SavedWith(key: string)
    | ErrorText(message: string)

  datatype Event =
    | StateWritten(name: string, value: string)
    | RestoreRequested(paths: seq<string>, primaryKey: string, restoreKeys: seq<string>)
    | SaveRequested(paths: seq<string>, key: string)
    | Logged(level: Level, note: Note)

  /** The events one call produces, in order, and how its promise settles. */
  datatype Step = Step(events: seq<Event>, outcome: Outcome<Failure>)

  /** The effect of one event on the state store. */
  function Apply(s: Store, e: Event): Store
  {
    if e.StateWritten? then s[e.name := e.value] else s
  }

  /** The state store after a trace of events. */
  function Replay(s: Store, t: seq<Event>): Store
    decreases |t|
  {
    if t == [] then s else Replay(Apply(s, t[0]), t[1..])
  }

  lemma {:induction false} ReplayAppend(s: Store, t: seq<Event>, u: seq<Event>)
    ensures Replay(s, t + u) == Replay(Replay(s, t), u)
    decreases |t|
  {
    if t == [] {
      assert t + u == u;
    } else {
      assert (t + u)[0] == t[0];
      assert (t + u)[1..] == t[1..] + u;
      ReplayAppend(Apply(s, t[0]), t[1..], u);
    }
  }

  /** How `save` treats an error from `saveCache`. */
  datatype Reaction = Rethrow | Report(level: Level)

  /** Validation errors are re-raised, reservation conflicts reported as info,
      anything else downgraded to a warning. */
  function ReactionTo(e: CacheError): (r: Reaction)
    ensures r == Rethrow <==> e.ValidationError?
    ensures r == Report(Info) <==> e.ReserveCacheError?
    ensures r == Report(Warning) <==> e.OtherError?
  {
    match e
    case ValidationError(_) => Rethrow
    case ReserveCacheError(_) => Report(Info)
    case OtherError(_) => Report(Warning)
  }

  /** A falsy value returned by `restoreCache`: no key, or the empty string.
      Anything else is a hit on a non-empty key. */
  predicate IsMiss(matched: Option<string>)
    ensures matched.None? ==> IsMiss(matched)
    ensures !IsMiss(matched) ==> matched.Some? && |matched.value| > 0
    ensures matched.Some? && matched.value != "" ==> !IsMiss(matched)
  {
    matched.None? || matched.value == ""
  }

  /** What `restore(id)` does. It rejects exactly for an unknown id, and then
      before doing anything else; a cache miss, like a hit, resolves. */
  function RestoreStep(runner: Runner, hashFiles: string -> string, backend: Backend, id: string): (r: Step)
    ensures r.outcome == if Supported(id) then Pass else Fail(UnknownPackageManager(id))
    ensures r.outcome.Fail? ==> r.events == []
  {
    match FindPackageManager(id, runner.home)
    case Failure(f) => Step([], Fail(f))
    case Success(pm) =>
      var primaryKey := PrimaryKey(runner.os, pm, hashFiles);
      var restoreKeys := [FallbackKey(runner.os, id)];
      var matched := backend.restoreCache(pm.path, primaryKey, restoreKeys);
      var asked := [Logged(Debug, PrimaryKeyIs(primaryKey)),
                    StateWritten(CachePrimaryKey, primaryKey),
                    RestoreRequested(pm.path, primaryKey, restoreKeys)];
      if IsMiss(matched) then
        Step(asked + [Logged(Info, CacheNotFound)], Pass)
      else
        Step(asked + [StateWritten(CacheMatchedKey, matched.value), Logged(Info, RestoredFrom(matched.value))], Pass)
  }

  /** What `save(id)` does against the state store `s`. It rejects for an
      unknown id, before doing anything else, or with the validation error of a
      write it attempted; on an exact hit, after a successful write, and after any
      other backend error it resolves. */
  function SaveStep(s: Store, runner: Runner, hashFiles: string -> string, backend: Backend, id: string): (r: Step)
    ensures r.outcome ==
      if !Supported(id) then Fail(UnknownPackageManager(id))
      else
        var pm := FindPackageManager(id, runner.home).value;
        var key := PrimaryKey(runner.os, pm, hashFiles);
        var written := backend.saveCache(pm.path, key);
        if GetState(s, CacheMatchedKey) != key && written.Fail? && written.error.ValidationError?
        then Fail(Rethrown(written.error))
        else Pass
    ensures r.outcome == Fail(UnknownPackageManager(id)) ==> r.events == []
  {
    match FindPackageManager(id, runner.home)
    case Failure(f) => Step([], Fail(f))
    case Success(pm) =>
      var primaryKey := PrimaryKey(runner.os, pm, hashFiles);
      if GetState(s, CacheMatchedKey) == primaryKey then
        Step([Logged(Info, HitOnPrimaryKey(primaryKey))], Pass)
      else
        var write := SaveRequested(pm.path, primaryKey);
        match backend.saveCache(pm.path, primaryKey)
        case Pass => Step([write, Logged(Info, SavedWith(primaryKey))], Pass)
        case Fail(e) =>
          match ReactionTo(e)
          case Rethrow => Step([write], Fail(Rethrown(e)))
          case Report(level) => Step([write, Logged(level, ErrorText(e.message))], Pass)
  }

  /** One orchestrator invocation: the state store it shares between `restore`
      and `save`, and the trace of everything done so far. */
  class Coordinator {
    const runner: Runner
    var state: Store
    var trace: seq<Event>
    /** the state store as it was when the invocation began */
    ghost var initial: Store

    /** every change to the state store is a recorded write */
    ghost predicate Valid()
      reads this
    {
      state == Replay(initial, trace)
    }

    constructor (runner: Runner, state: Store)
      ensures Valid()
      ensures this.runner == runner && this.state == state && this.initial == state && trace == []
    {
      this.runner := runner;
      this.state := state;
      this.initial := state;
      this.trace := [];
    }

    /** Appends an event and applies it to the state store. */
    method Record(e: Event)
      requires Valid()
      modifies this
      ensures Valid() && initial == old(initial)
      ensures trace == old(trace) + [e] && state == Apply(old(state), e)
    {
      ReplayAppend(initial, trace, [e]);
      trace := trace + [e];
      state := Apply(state, e);
    }

    /** `core.saveState`. */
    method SaveState(name: string, value: string)
      requires Valid()
      modifies this
      ensures Valid() && initial == old(initial)
      ensures trace == old(trace) + [StateWritten(name, value)]
      ensures state == old(state)[name := value]
    {
      Record(StateWritten(name, value));
    }

    /** `core.getState`. */
    method GetState(name: string) returns (value: string)
      ensures value == StateStore.GetState(state, name)
      ensures name !in state ==> value == ""
    {
      value := StateStore.GetState(state, name);
    }

    /** `core.debug`, `core.info` and `core.warning`. */
    method Log(level: Level, note: Note)
      requires Valid()
      modifies this
      ensures Valid() && initial == old(initial)
      ensures trace == old(trace) + [Logged(level, note)] && state == old(state)
    {
      Record(Logged(level, note));
    }

    /** `restore(id)`: look the manager up, record the primary key, ask the backend,
        and record the key it restored from, if any. */
    method Restore(id: string, hashFiles: string -> string, backend: Backend) returns (r: Outcome<Failure>)
      requires Valid()
      modifies this
      ensures Valid() && initial == old(initial)
      ensures r == RestoreStep(runner, hashFiles, backend, id).outcome
      ensures trace == old(trace) + RestoreStep(runner, hashFiles, backend, id).events
      ensures state == Replay(old(state), RestoreStep(runner, hashFiles, backend, id).events)
    {
      ghost var before := trace;
      ghost var step := RestoreStep(runner, hashFiles, backend, id);
      var found := FindPackageManager(id, runner.home);
      if found.Failure? {
        return Fail(found.error);
      }
      var pm := found.value;
      var primaryKey := PrimaryKey(runner.os, pm, hashFiles);
      Log(Debug, PrimaryKeyIs(primaryKey));
      SaveState(CachePrimaryKey, primaryKey);
      var restoreKeys := [FallbackKey(runner.os, id)];
      Record(RestoreRequested(pm.path, primaryKey, restoreKeys));
      var matchedKey := backend.restoreCache(pm.path, primaryKey, restoreKeys);
      if IsMiss(matchedKey) {
        Log(Info, CacheNotFound);
      } else {
        SaveState(CacheMatchedKey, matchedKey.value);
        Log(Info, RestoredFrom(matchedKey.value));
      }
      r := Pass;
      assert trace == before + step.events;
      ReplayAppend(initial, before, step.events);
    }

    /** `save(id)`: recompute the key, skip the write on an exact hit, otherwise
        write and sort any backend error. */
    method Save(id: string, hashFiles: string -> string, backend: Backend) returns (r: Outcome<Failure>)
      requires Valid()
      modifies this
      ensures Valid() && initial == old(initial)
      ensures r == SaveStep(old(state), runner, hashFiles, backend, id).outcome
      ensures trace == old(trace) + SaveStep(old(state), runner, hashFiles, backend, id).events
      ensures state == old(state)
    {
      var found := FindPackageManager(id, runner.home);
      if found.Failure? {
        return Fail(found.error);
      }
      var pm := found.value;
      var primaryKey := PrimaryKey(runner.os, pm, hashFiles);
      var matchedKey := GetState(CacheMatchedKey);
      if matchedKey == primaryKey {
        Log(Info, HitOnPrimaryKey(primaryKey));
        return Pass;
      }
      Record(SaveRequested(pm.path, primaryKey));
      var written := backend.saveCache(pm.path, primaryKey);
      match written
      case Pass =>
        Log(Info, SavedWith(primaryKey));
        r := Pass;
      case Fail(error) =>
        match ReactionTo(error)
        case Rethrow =>
          r := Fail(Rethrown(error));
        case Report(level) =>
          Log(level, ErrorText(error.message));
          r := Pass;
    }
  }
}
