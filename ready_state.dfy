/** The backend readiness tracker of the conversation backend
    (`app/services/ready_state.py`): an overall initialisation state, a
    progress percentage, one status record per service (tts, chat, stt), an
    error log and a one-shot startup duration. The wall clock is a parameter:
    `now` is `time.time()` in seconds and `nowIso` is
    `datetime.utcnow().isoformat()` at the moment of the call. */
module ReadyState {
  import opened Wrappers
  import opened JsonValues

  datatype State = Initializing | LoadingModels | WarmingUp | Ready | Error {
    /** The enum's string value. */
    function Value(): string {
      match this
      case Initializing => "INITIALIZING"
      case LoadingModels => "LOADING_MODELS"
      case WarmingUp => "WARMING_UP"
      case Ready => "READY"
      case Error => "ERROR"
    }

    predicate IsFinal() {
      this == Ready || this == Error
    }
  }

  /** One service's record. `error` and `loadedAt` are `Optional[str]`,
      `warmupTimeMs` is `Optional[float]`, `metadata` the free-form keyword
      arguments accumulated by `mark_service_ready`. */
  datatype ServiceStatus = ServiceStatus(
    name: string,
    ready: bool,
    status: string,
    error: Option<string>,
    warmupTimeMs: Option<real>,
    loadedAt: Option<string>,
    metadata: map<string, Json>)

  /** `ServiceStatus(name)`: a fresh, pending record. */
  function Pending(name: string): ServiceStatus {
    ServiceStatus(name, false, "pending", None, None, None, map[])
  }

  /** Python truthiness of an `Optional[str]`: present and non-empty. */
  predicate Truthy(s: Option<string>) {
    s.Some? && s.value != ""
  }

  /** `ServiceStatus.to_dict`. "ready" and "status" are always present;
      "error" only for a non-empty error, "warmup_time_ms" only when it is not
      None (0.0 included), "loaded_at" only when non-empty; the metadata is
      merged last, so its keys win over the fixed ones. */
  function ServiceToDict(s: ServiceStatus): (d: map<string, Json>)
    ensures d.Keys == {"ready", "status"} + s.metadata.Keys
                      + (if Truthy(s.error) then {"error"} else {})
                      + (if s.warmupTimeMs.Some? then {"warmup_time_ms"} else {})
                      + (if Truthy(s.loadedAt) then {"loaded_at"} else {})
    ensures forall k :: k in s.metadata ==> d[k] == s.metadata[k]
    ensures "ready" !in s.metadata ==> d["ready"] == JBool(s.ready)
    ensures "status" !in s.metadata ==> d["status"] == JStr(s.status)
    ensures Truthy(s.error) && "error" !in s.metadata ==> d["error"] == JStr(s.error.value)
    ensures s.warmupTimeMs.Some? && "warmup_time_ms" !in s.metadata ==> d["warmup_time_ms"] == JReal(s.warmupTimeMs.value)
    ensures Truthy(s.loadedAt) && "loaded_at" !in s.metadata ==> d["loaded_at"] == JStr(s.loadedAt.value)
  {
    var base := map["ready" := JBool(s.ready), "status" := JStr(s.status)];
    var withError := if Truthy(s.error) then base["error" := JStr(s.error.value)] else base;
    var withWarmup := if s.warmupTimeMs.Some? then withError["warmup_time_ms" := JReal(s.warmupTimeMs.value)] else withError;
    var withLoaded := if Truthy(s.loadedAt) then withWarmup["loaded_at" := JStr(s.loadedAt.value)] else withWarmup;
    withLoaded + s.metadata
  }

  const ServiceNames: set<string> := {"tts", "chat", "stt"}

  function InitialServices(): map<string, ServiceStatus> {
    map["tts" := Pending("tts"), "chat" := Pending("chat"), "stt" := Pending("stt")]
  }

  /** `max(0, min(100, progress))`. */
  function Clamp(p: int): (r: int)
    ensures 0 <= r <= 100
    ensures 0 <= p <= 100 ==> r == p
    ensures p < 0 ==> r == 0
    ensures p > 100 ==> r == 100
  {
    if p < 0 then 0 else if p > 100 then 100 else p
  }

  /** The startup duration after a `set_state(state)` call at elapsed time
      `elapsedMs`: recorded on the first READY or ERROR, kept afterwards. */
  function NextStartupTime(current: Option<real>, state: State, elapsedMs: real): Option<real> {
    if state.IsFinal() && current.None? then Some(elapsedMs) else current
  }

  /** The startup duration after a run of `set_state` calls, each given as the
      state and the elapsed milliseconds at that call. */
  function StartupAfter(current: Option<real>, calls: seq<(State, real)>): Option<real>
    decreases |calls|
  {
    if calls == [] then current
    else StartupAfter(NextStartupTime(current, calls[0].0, calls[0].1), calls[1..])
  }

  /** Once recorded, the startup duration is never overwritten by `set_state`;
      it is recorded at all exactly when some call reaches READY or ERROR, and
      its value is the elapsed time at the first such call. */
  lemma {:induction false} StartupTimeIsOneShot(current: Option<real>, calls: seq<(State, real)>)
    ensures current.Some? ==> StartupAfter(current, calls) == current
    ensures current.None? ==>
      (StartupAfter(current, calls).Some? <==> exists i :: 0 <= i < |calls| && calls[i].0.IsFinal())
    ensures current.None? ==>
      forall i :: (0 <= i < |calls| && calls[i].0.IsFinal() && forall j :: 0 <= j < i ==> !calls[j].0.IsFinal())
                  ==> StartupAfter(current, calls) == Some(calls[i].1)
    decreases |calls|
  {
    if calls != [] {
      var next := NextStartupTime(current, calls[0].0, calls[0].1);
      StartupTimeIsOneShot(next, calls[1..]);
      assert forall i :: 1 <= i < |calls| ==> calls[i] == calls[1..][i - 1];
      if current.None? && !calls[0].0.IsFinal() {
        assert forall i :: 0 <= i < |calls[1..]| ==> calls[1..][i] == calls[i + 1];
      }
    }
  }

  /** What `ReadyStateManager.to_dict` returns. */
  datatype ManagerDict = ManagerDict(
    ready: bool,
    state: string,
    progress: int,
    services: map<string, map<string, Json>>,
    startupTimeMs: Option<real>,
    errors: seq<string>)

  /** The manager, without its lock and singleton plumbing. */
  /** The kind of `_state_lock`: the manager creates a `threading.Lock`,
      which, unlike a `threading.RLock`, is not reentrant. */
  datatype LockKind = PlainLock | ReentrantLock

  /** The outcome of a `with self._state_lock:` block entered by a thread:
      the block's value, or `Blocked` when the thread must wait for a release
      only it could make (it already holds a plain lock). */
  datatype Guarded<T> = Done(value: T) | Blocked

  function UnderLock<T>(kind: LockKind, alreadyHeld: bool, body: T): (g: Guarded<T>)
    ensures g.Blocked? <==> alreadyHeld && kind == PlainLock
    ensures g.Done? ==> g.value == body
  {
    if alreadyHeld && kind == PlainLock then Blocked else Done(body)
  }

  class ReadyStateManager {
    var state: State
    var progress: int
    var services: map<string, ServiceStatus>
    var errors: seq<string>
    var startupStartTime: real
    var startupTimeMs: Option<real>

    /** The invariants every public operation keeps: progress stays within
        [0, 100], exactly the three service records exist (each under its own
        name), a record is ready exactly when its status is "ready", and a
        final state always has its startup duration recorded. */
    ghost predicate Valid()
      reads this
    {
      && 0 <= progress <= 100
      && services.Keys == ServiceNames
      && (forall n :: n in services ==> services[n].name == n)
      && (forall n :: n in services ==> (services[n].ready <==> services[n].status == "ready"))
      && (state.IsFinal() ==> startupTimeMs.Some?)
    }

    constructor (now: real)
      ensures Valid()
      ensures state == Initializing && progress == 0 && services == InitialServices()
      ensures errors == [] && startupStartTime == now && startupTimeMs == None
    {
      state := Initializing;
      progress := 0;
      services := InitialServices();
      errors := [];
      startupStartTime := now;
      startupTimeMs := None;
    }

    /** `set_state(state, progress)`. */
    method SetState(newState: State, newProgress: Option<int>, now: real)
      requires Valid()
      modifies this
      ensures Valid()
      ensures state == newState
      ensures progress == if newProgress.Some? then Clamp(newProgress.value) else old(progress)
      ensures startupTimeMs == NextStartupTime(old(startupTimeMs), newState, (now - startupStartTime) * 1000.0)
      ensures services == old(services) && errors == old(errors) && startupStartTime == old(startupStartTime)
    {
      state := newState;
      if newProgress.Some? {
        progress := Clamp(newProgress.value);
      }
      if newState.IsFinal() && startupTimeMs.None? {
        startupTimeMs := Some((now - startupStartTime) * 1000.0);
      }
    }

    /** `get_state()`: a final state is only ever read together with its
        recorded startup duration. */
    function GetState(): (s: State)
      requires Valid()
      reads this
      ensures s.IsFinal() ==> startupTimeMs.Some?
    {
      state
    }

    function GetProgress(): (p: int)
      requires Valid()
      reads this
      ensures 0 <= p <= 100
    {
      progress
    }

    /** `mark_service_ready(name, warmup_time_ms, **metadata)`; an unknown
        name changes nothing. */
    method MarkServiceReady(name: string, warmupTimeMs: Option<real>, metadata: map<string, Json>, nowIso: string)
      requires Valid()
      modifies this
      ensures Valid()
      ensures name in old(services) ==> services == old(services)[name := old(services)[name].(
        ready := true, status := "ready", warmupTimeMs := warmupTimeMs,
        loadedAt := Some(nowIso + "Z"), metadata := old(services)[name].metadata + metadata)]
      ensures name !in old(services) ==> services == old(services)
      ensures state == old(state) && progress == old(progress) && errors == old(errors)
      ensures startupStartTime == old(startupStartTime) && startupTimeMs == old(startupTimeMs)
    {
      if name in services {
        var s := services[name];
        services := services[name := s.(ready := true, status := "ready", warmupTimeMs := warmupTimeMs,
                                         loadedAt := Some(nowIso + "Z"), metadata := s.metadata + metadata)];
      }
    }

    /** `mark_service_error(name, error)`; an unknown name changes nothing. */
    method MarkServiceError(name: string, error: string)
      requires Valid()
      modifies this
      ensures Valid()
      ensures name in old(services) ==> services == old(services)[name := old(services)[name].(
        ready := false, status := "error", error := Some(error))]
      ensures name !in old(services) ==> services == old(services)
      ensures state == old(state) && progress == old(progress) && errors == old(errors)
      ensures startupStartTime == old(startupStartTime) && startupTimeMs == old(startupTimeMs)
    {
      if name in services {
        services := services[name := services[name].(ready := false, status := "error", error := Some(error))];
      }
    }

    /** `mark_service_loading(name)`: the previous error, if any, is kept. */
    method MarkServiceLoading(name: string)
      requires Valid()
      modifies this
      ensures Valid()
      ensures name in old(services) ==> services == old(services)[name := old(services)[name].(
        ready := false, status := "loading")]
      ensures name in old(services) ==> services[name].error == old(services)[name].error
      ensures name !in old(services) ==> services == old(services)
      ensures state == old(state) && progress == old(progress) && errors == old(errors)
      ensures startupStartTime == old(startupStartTime) && startupTimeMs == old(startupTimeMs)
    {
      if name in services {
        services := services[name := services[name].(ready := false, status := "loading")];
      }
    }

    /** `is_service_ready(name)`: an unknown name reads as a fresh record, so
        as not ready. */
    function IsServiceReady(name: string): (r: bool)
      requires Valid()
      reads this
      ensures r <==> name in ServiceNames && services[name].status == "ready"
    {
      (if name in services then services[name] else Pending("")).ready
    }

    /** `add_error(error)`. */
    method AddError(error: string)
      requires Valid()
      modifies this
      ensures Valid()
      ensures errors == old(errors) + [error]
      ensures state == old(state) && progress == old(progress) && services == old(services)
      ensures startupStartTime == old(startupStartTime) && startupTimeMs == old(startupTimeMs)
    {
      errors := errors + [error];
    }

    /** `is_ready()`: READY with both required services (tts and chat) ready;
        stt is optional and never consulted. */
    function IsReady(): (r: bool)
      requires Valid()
      reads this
      ensures r <==> state == Ready && IsServiceReady("tts") && IsServiceReady("chat")
      ensures r ==> startupTimeMs.Some?
    {
      state == Ready && services["tts"].ready && services["chat"].ready
    }

    /** `to_dict()`: the errors are a copy, since a Dafny sequence is a value. */
    function ToDict(): (d: ManagerDict)
      requires Valid()
      reads this
      ensures d.ready == IsReady() && d.state == state.Value()
      ensures 0 <= d.progress <= 100 && d.progress == progress
      ensures d.services.Keys == ServiceNames
      ensures forall n :: n in d.services ==> d.services[n] == ServiceToDict(services[n])
      ensures forall n :: n in d.services ==> "ready" in d.services[n] && "status" in d.services[n]
      ensures d.startupTimeMs == startupTimeMs && d.errors == errors
    {
      ManagerDict(IsReady(), state.Value(), progress,
                  map n | n in services :: ServiceToDict(services[n]),
                  startupTimeMs, errors)
    }

    /** `to_dict()` as written, for a `_state_lock` of the given kind: it
        enters `with self._state_lock:` and, inside that block, calls
        `is_ready()`, which enters the same block again. */
    function ToDictWith(kind: LockKind): Guarded<ManagerDict>
      requires Valid()
      reads this
    {
      var isReady: Guarded<bool> := UnderLock(kind, true, IsReady());
      var outer: Guarded<Guarded<bool>> := UnderLock(kind, false, isReady);
      if outer.Blocked? || outer.value.Blocked? then Blocked
      else Done(ManagerDict(outer.value.value, state.Value(), progress,
                            map n | n in services :: ServiceToDict(services[n]),
                            startupTimeMs, errors))
    }

    /** `reset()`: back to the state of a fresh manager started at `now`. */
    method Reset(now: real)
      requires Valid()
      modifies this
      ensures Valid()
      ensures state == Initializing && progress == 0 && services == InitialServices()
      ensures errors == [] && startupStartTime == now && startupTimeMs == None
      ensures !IsReady()
    {
      state := Initializing;
      progress := 0;
      services := InitialServices();
      errors := [];
      startupStartTime := now;
      startupTimeMs := None;
    }
  }

  /** Whatever the manager's state, `to_dict()` with the manager's plain
      `threading.Lock` never returns: the call to `is_ready()` waits on the
      lock its caller holds. With a reentrant lock it returns `ToDict()`. */
  lemma ToDictWithPlainLockBlocks(m: ReadyStateManager)
    requires m.Valid()
    ensures m.ToDictWith(PlainLock) == Blocked
    ensures m.ToDictWith(ReentrantLock) == Done(m.ToDict())
  {
  }
}
