/** The window registry and transition state machine of `WindowManager`. */
module WindowManagement {
  import opened Wrappers
  import opened Windows
  import opened Errors
  import opened HookShape

  /** A callable offered as a global hook: an identity and the parameter kinds
      `inspect.signature` reports for it. */
  datatype Hook = Hook(id: nat, signature: seq<ParamKind>)

  /** One listener invocation. Window listeners are no-ops by default and user
      hook bodies are not modelled, so a call is recorded and nothing else. */
  datatype Event =
    | GlobalSetupCalled(hook: Hook, window: Window)
    | SetupCalled(window: Window)
    | GlobalLeaveCalled(hook: Hook, leaving: Option<Window>, entering: Window)
    | LeaveCalled(window: Window, next: Window)
    | GlobalEnterCalled(hook: Hook, entering: Window, previous: Option<Window>)
    | EnterCalled(window: Window, previous: Option<Window>)

  /** The calls made when window `w` has just been stored in the registry. */
  function SetupEvents(onSetup: Option<Hook>, w: Window): seq<Event> {
    (if onSetup.Some? then [GlobalSetupCalled(onSetup.value, w)] else []) + [SetupCalled(w)]
  }

  /** The calls made while the windows `ws` are loaded one after another. */
  function SetupTrace(onSetup: Option<Hook>, ws: seq<Window>): seq<Event> {
    if ws == [] then [] else SetupTrace(onSetup, ws[..|ws| - 1]) + SetupEvents(onSetup, ws[|ws| - 1])
  }

  /** The calls made by a transition from `last` to `current`. */
  function TransitionEvents(onLeave: Option<Hook>, onEnter: Option<Hook>, last: Option<Window>, current: Window): seq<Event> {
    (if onLeave.Some? then [GlobalLeaveCalled(onLeave.value, last, current)] else [])
    + (if last.Some? then [LeaveCalled(last.value, current)] else [])
    + (if onEnter.Some? then [GlobalEnterCalled(onEnter.value, current, last)] else [])
    + [EnterCalled(current, last)]
  }

  /** The position of each kind of call in a transition. */
  function Rank(e: Event): nat {
    match e
    case GlobalLeaveCalled(_, _, _) => 0
    case LeaveCalled(_, _) => 1
    case GlobalEnterCalled(_, _, _) => 2
    case EnterCalled(_, _) => 3
    case GlobalSetupCalled(_, _) => 4
    case SetupCalled(_) => 5
  }

  /** A transition calls global leave, the old window's leave, global enter and
      the new window's enter, each at most once and in that order, and the new
      window's enter last. */
  lemma TransitionOrder(onLeave: Option<Hook>, onEnter: Option<Hook>, last: Option<Window>, current: Window)
    ensures var e := TransitionEvents(onLeave, onEnter, last, current);
      && (forall i, j :: 0 <= i < j < |e| ==> Rank(e[i]) < Rank(e[j]))
      && e[|e| - 1] == EnterCalled(current, last)
  {
    var e := TransitionEvents(onLeave, onEnter, last, current);
    var gl := if onLeave.Some? then [GlobalLeaveCalled(onLeave.value, last, current)] else [];
    var l := if last.Some? then [LeaveCalled(last.value, current)] else [];
    var ge := if onEnter.Some? then [GlobalEnterCalled(onEnter.value, current, last)] else [];
    assert e == gl + l + ge + [EnterCalled(current, last)];
    forall k | 0 <= k < |e|
      ensures Rank(e[k]) == if k < |gl| then 0 else if k < |gl| + |l| then 1 else if k < |gl| + |l| + |ge| then 2 else 3
    {
    }
  }

  /** In a transition each global listener is called exactly when it is set,
      the old window's leave exactly when there is an old window, each with the
      windows involved; on a first activation both enter listeners are told
      there was no previous window. */
  lemma TransitionCalls(onLeave: Option<Hook>, onEnter: Option<Hook>, last: Option<Window>, current: Window)
    ensures var e := TransitionEvents(onLeave, onEnter, last, current);
      && (onLeave.Some? <==> exists i :: 0 <= i < |e| && e[i].GlobalLeaveCalled?)
      && (last.Some? <==> exists i :: 0 <= i < |e| && e[i].LeaveCalled?)
      && (onEnter.Some? <==> exists i :: 0 <= i < |e| && e[i].GlobalEnterCalled?)
      && (forall i :: 0 <= i < |e| && e[i].GlobalLeaveCalled? ==>
            Some(e[i].hook) == onLeave && e[i].leaving == last && e[i].entering == current)
      && (forall i :: 0 <= i < |e| && e[i].LeaveCalled? ==> Some(e[i].window) == last && e[i].next == current)
      && (forall i :: 0 <= i < |e| && e[i].GlobalEnterCalled? ==>
            Some(e[i].hook) == onEnter && e[i].entering == current && e[i].previous == last)
      && (last.None? ==> forall i :: 0 <= i < |e| && (e[i].GlobalEnterCalled? || e[i].EnterCalled?) ==> e[i].previous.None?)
  {
    var e := TransitionEvents(onLeave, onEnter, last, current);
    var gl := if onLeave.Some? then [GlobalLeaveCalled(onLeave.value, last, current)] else [];
    var l := if last.Some? then [LeaveCalled(last.value, current)] else [];
    var ge := if onEnter.Some? then [GlobalEnterCalled(onEnter.value, current, last)] else [];
    assert e == gl + l + ge + [EnterCalled(current, last)];
    if onLeave.Some? {
      assert e[0] == GlobalLeaveCalled(onLeave.value, last, current);
    }
    if last.Some? {
      assert e[|gl|] == LeaveCalled(last.value, current);
    }
    if onEnter.Some? {
      assert e[|gl| + |l|] == GlobalEnterCalled(onEnter.value, current, last);
    }
  }

  /** The names of the windows `ws`. */
  function Names(ws: seq<Window>): set<string> {
    if ws == [] then {} else Names(ws[..|ws| - 1]) + {ws[|ws| - 1].Name()}
  }

  /** A name is in Names(ws) exactly when some window of `ws` carries it. */
  lemma {:induction false} NamesIff(ws: seq<Window>, n: string)
    ensures n in Names(ws) <==> exists i :: 0 <= i < |ws| && ws[i].Name() == n
  {
    if ws != [] {
      var init := ws[..|ws| - 1];
      NamesIff(init, n);
      assert forall i :: 0 <= i < |init| ==> init[i] == ws[i];
      if n in Names(init) {
        var i :| 0 <= i < |init| && init[i].Name() == n;
        assert ws[i].Name() == n;
      }
    }
  }

  /** The registry entries that loading `ws` one after another writes: each
      window under its own name, a later one replacing an earlier one of the
      same name. */
  function Registered(ws: seq<Window>): (m: map<string, Window>)
    ensures m.Keys == Names(ws)
    ensures Keyed(m)
  {
    if ws == [] then map[]
    else Registered(ws[..|ws| - 1])[ws[|ws| - 1].Name() := ws[|ws| - 1]]
  }

  /** The entry Registered(ws) holds for a name is the last window of that name. */
  lemma {:induction false} RegisteredLatest(ws: seq<Window>, n: string)
    requires n in Names(ws)
    ensures exists j :: 0 <= j < |ws| && ws[j] == Registered(ws)[n] && forall k :: j < k < |ws| ==> ws[k].Name() != n
  {
    var last := ws[|ws| - 1];
    var init := ws[..|ws| - 1];
    if last.Name() == n {
      assert ws[|ws| - 1] == Registered(ws)[n];
    } else {
      assert n in Names(init);
      RegisteredLatest(init, n);
      var j :| 0 <= j < |init| && init[j] == Registered(init)[n] && forall k :: j < k < |init| ==> init[k].Name() != n;
      assert ws[j] == Registered(ws)[n];
      assert forall k :: j < k < |ws| ==> ws[k].Name() != n by {
        forall k | j < k < |ws| ensures ws[k].Name() != n {
          if k < |init| { assert init[k] == ws[k]; }
        }
      }
    }
  }

  /** Appending a window to a batch. */
  lemma Snoc(onSetup: Option<Hook>, ws: seq<Window>, w: Window)
    ensures Names(ws + [w]) == Names(ws) + {w.Name()}
    ensures Registered(ws + [w]) == Registered(ws)[w.Name() := w]
    ensures SetupTrace(onSetup, ws + [w]) == SetupTrace(onSetup, ws) + SetupEvents(onSetup, w)
  {
    assert (ws + [w])[..|ws|] == ws;
  }

  /** Every window in `m` is stored under its own name. */
  predicate Keyed(m: map<string, Window>) {
    forall n :: n in m ==> m[n].Name() == n
  }

  /** The window `current`, if any, is the entry of `m` for its name. */
  predicate HoldsCurrent(m: map<string, Window>, current: Option<Window>) {
    current.Some? ==> current.value.Name() in m && m[current.value.Name()] == current.value
  }

  /** Loading windows whose names `m` does not hold keeps the entry `m` holds
      for the current window. */
  lemma LoadKeepsCurrent(m: map<string, Window>, ws: seq<Window>, current: Option<Window>)
    requires HoldsCurrent(m, current)
    requires forall j :: 0 <= j < |ws| ==> ws[j].Name() !in m
    ensures HoldsCurrent(m + Registered(ws), current)
  {
    if current.Some? {
      NamesIff(ws, current.value.Name());
    }
  }

  /** Registering one more entry after a merge. */
  lemma MergeUpdate(a: map<string, Window>, b: map<string, Window>, k: string, v: Window)
    ensures (a + b)[k := v] == a + b[k := v]
  {
    assert ((a + b)[k := v]).Keys == (a + b[k := v]).Keys;
  }

  /** The first |created| types of `batch` passed the checks of `load_windows`
      in turn, starting from the names `keys`, and `created` holds the
      instances made from them, numbered from `first`. */
  predicate Accepted(batch: seq<PyType>, created: seq<Window>, keys: set<string>, force: bool, last: Option<Window>, first: nat) {
    && |created| <= |batch|
    && (created != [] ==>
      var k := |created| - 1;
      && Accepted(batch, created[..k], keys, force, last, first)
      && batch[k].WindowSubclass?
      && created[k] == Window(batch[k].cls, first + k)
      && LoadCheck(batch[k], keys + Names(created[..k]), force, last) == None)
  }

  /** One more type passing the checks. */
  lemma AcceptedSnoc(batch: seq<PyType>, created: seq<Window>, keys: set<string>, force: bool, last: Option<Window>, first: nat)
    requires Accepted(batch, created, keys, force, last, first)
    requires |created| < |batch| && batch[|created|].WindowSubclass?
    requires LoadCheck(batch[|created|], keys + Names(created), force, last) == None
    ensures Accepted(batch, created + [Window(batch[|created|].cls, first + |created|)], keys, force, last, first)
  {
    assert (created + [Window(batch[|created|].cls, first + |created|)])[..|created|] == created;
  }

  /** The instances a batch load makes are numbered in order from `first`. */
  lemma {:induction false} AcceptedSerials(batch: seq<PyType>, created: seq<Window>, keys: set<string>, force: bool, last: Option<Window>, first: nat)
    requires Accepted(batch, created, keys, force, last, first)
    ensures forall j :: 0 <= j < |created| ==> batch[j].WindowSubclass? && created[j] == Window(batch[j].cls, first + j)
    ensures forall n :: n in Registered(created) ==> first <= Registered(created)[n].serial < first + |created|
  {
    if created != [] {
      var k := |created| - 1;
      AcceptedSerials(batch, created[..k], keys, force, last, first);
      assert forall j :: 0 <= j < k ==> created[j] == created[..k][j];
    }
  }

  /** Without `force`, the windows a batch load accepts carry names that were
      not registered before and that differ from each other. */
  lemma {:induction false} LoadedNamesUnique(batch: seq<PyType>, created: seq<Window>, keys: set<string>, last: Option<Window>, first: nat)
    requires Accepted(batch, created, keys, false, last, first)
    ensures forall j :: 0 <= j < |created| ==>
      created[j].Name() !in keys && forall k :: 0 <= k < j ==> created[k].Name() != created[j].Name()
  {
    if created != [] {
      var n := |created| - 1;
      var init := created[..n];
      LoadedNamesUnique(batch, init, keys, last, first);
      forall k | 0 <= k < n ensures created[k].Name() != created[n].Name() {
        NamesIff(init, created[k].Name());
        assert init[k] == created[k];
      }
      forall j | 0 <= j < n ensures created[j] == init[j] {
      }
    }
  }

  /** One loaded type extends the accepted prefix, the registry and the trace
      of a batch load. */
  lemma LoadStep(batch: seq<PyType>, created: seq<Window>, m: map<string, Window>, trace0: seq<Event>, onSetup: Option<Hook>, force: bool, last: Option<Window>, first: nat, w: Window)
    requires Accepted(batch, created, m.Keys, force, last, first)
    requires |created| < |batch| && batch[|created|].WindowSubclass?
    requires w == Window(batch[|created|].cls, first + |created|)
    requires LoadCheck(batch[|created|], m.Keys + Names(created), force, last) == None
    ensures Accepted(batch, created + [w], m.Keys, force, last, first)
    ensures (m + Registered(created))[w.Name() := w] == m + Registered(created + [w])
    ensures (trace0 + SetupTrace(onSetup, created)) + SetupEvents(onSetup, w) == trace0 + SetupTrace(onSetup, created + [w])
  {
    AcceptedSnoc(batch, created, m.Keys, force, last, first);
    MergeUpdate(m, Registered(created), w.Name(), w);
    Snoc(onSetup, created, w);
  }

  /** What a batch load leaves in the registry `m` it started from: entries
      keyed by name, serials below the next one to issue, and, without `force`,
      distinct new names and the current window's entry untouched. */
  lemma BatchLoaded(batch: seq<PyType>, created: seq<Window>, m: map<string, Window>, force: bool, last: Option<Window>, current: Option<Window>, first: nat)
    requires Accepted(batch, created, m.Keys, force, last, first)
    requires Keyed(m) && forall n :: n in m ==> m[n].serial < first
    ensures Keyed(m + Registered(created))
    ensures forall n :: n in m + Registered(created) ==> (m + Registered(created))[n].serial < first + |created|
    ensures !force ==> forall j :: 0 <= j < |created| ==>
      created[j].Name() !in m && forall k :: 0 <= k < j ==> created[k].Name() != created[j].Name()
    ensures !force && HoldsCurrent(m, current) ==> HoldsCurrent(m + Registered(created), current)
  {
    AcceptedSerials(batch, created, m.Keys, force, last, first);
    if !force {
      LoadedNamesUnique(batch, created, m.Keys, last, first);
      if HoldsCurrent(m, current) {
        LoadKeepsCurrent(m, created, current);
      }
    }
  }

  /** Why `load_windows` refuses type `t` when the registry holds the names `keys`. */
  function LoadCheck(t: PyType, keys: set<string>, force: bool, last: Option<Window>): Option<Error> {
    if !t.WindowSubclass? then Some(WindowError(last))
    else if !force && t.cls.WindowName() in keys then Some(WindowLoadError(last))
    else None
  }

  /** Why `unload_window` refuses `name`. */
  function UnloadCheck(name: string, keys: set<string>, force: bool, current: Option<Window>, last: Option<Window>): Option<Error> {
    if name !in keys then Some(WindowLoadError(last))
    else if !force && current.Some? && name == current.value.Name() then Some(WindowError(last))
    else None
  }

  /** The manager. The read-only properties `current_window`, `last_window` and
      `window_map` are the fields `currentWindow`, `lastWindow` and `windows`
      (a Dafny map is a value, so reading it hands out a copy). */
  class WindowManager {
    /** Controls the render loop; nothing in the manager itself clears it. */
    var isRunning: bool
    var globalOnSetup: Option<Hook>
    var globalOnEnter: Option<Hook>
    var globalOnLeave: Option<Hook>
    var windows: map<string, Window>
    var currentWindow: Option<Window>
    var lastWindow: Option<Window>
    /** The serial number the next instantiated window receives. */
    var nextSerial: nat
    /** The listener calls made so far, oldest first. */
    ghost var trace: seq<Event>

    /** Every window is registered under its own name, and every window the
        manager refers to was instantiated before: its serial is below
        `nextSerial`. */
    ghost predicate Valid()
      reads this
    {
      && Keyed(windows)
      && (forall n :: n in windows ==> windows[n].serial < nextSerial)
      && (currentWindow.Some? ==> currentWindow.value.serial < nextSerial)
      && (lastWindow.Some? ==> lastWindow.value.serial < nextSerial)
    }

    /** The current window, if any, is the registry's entry for its name. */
    ghost predicate CurrentRegistered()
      reads this
    {
      HoldsCurrent(windows, currentWindow)
    }

    constructor ()
      ensures Valid() && CurrentRegistered()
      ensures isRunning
      ensures globalOnSetup == None && globalOnEnter == None && globalOnLeave == None
      ensures windows == map[] && currentWindow == None && lastWindow == None
      ensures nextSerial == 0 && trace == []
    {
      isRunning := true;
      globalOnSetup, globalOnEnter, globalOnLeave := None, None, None;
      windows := map[];
      currentWindow, lastWindow := None, None;
      nextSerial := 0;
      trace := [];
    }

    /** Assigning `current_window` raises `ValueError` and changes nothing. */
    method AssignCurrentWindow(value: Option<Window>) returns (r: Outcome<Error>)
      ensures r == Fail(ValueError)
    {
      r := Fail(ValueError);
    }

    /** Assigning `last_window` raises `ValueError` and changes nothing. */
    method AssignLastWindow(value: Option<Window>) returns (r: Outcome<Error>)
      ensures r == Fail(ValueError)
    {
      r := Fail(ValueError);
    }

    /** Assigning `window_map` raises `ValueError` and changes nothing. */
    method AssignWindowMap(value: map<string, Window>) returns (r: Outcome<Error>)
      ensures r == Fail(ValueError)
    {
      r := Fail(ValueError);
    }

    /** The `global_on_setup` setter. */
    method SetGlobalOnSetup(hook: Hook) returns (r: Outcome<Error>)
      modifies this`globalOnSetup
      ensures r.Pass? <==> ShapeAccepted(hook.signature, GLOBAL_ON_SETUP_ARGS)
      ensures r.Fail? ==> r.error == TypeError
      ensures globalOnSetup == if r.Pass? then Some(hook) else old(globalOnSetup)
    {
      r := ValidateSignature(hook.signature, GLOBAL_ON_SETUP_ARGS);
      ShapeAcceptedIff(hook.signature, GLOBAL_ON_SETUP_ARGS);
      if r.Pass? {
        globalOnSetup := Some(hook);
      }
    }

    /** The `global_on_enter` setter. */
    method SetGlobalOnEnter(hook: Hook) returns (r: Outcome<Error>)
      modifies this`globalOnEnter
      ensures r.Pass? <==> ShapeAccepted(hook.signature, GLOBAL_ON_ENTER_ARGS)
      ensures r.Fail? ==> r.error == TypeError
      ensures globalOnEnter == if r.Pass? then Some(hook) else old(globalOnEnter)
    {
      r := ValidateSignature(hook.signature, GLOBAL_ON_ENTER_ARGS);
      ShapeAcceptedIff(hook.signature, GLOBAL_ON_ENTER_ARGS);
      if r.Pass? {
        globalOnEnter := Some(hook);
      }
    }

    /** The `global_on_leave` setter. */
    method SetGlobalOnLeave(hook: Hook) returns (r: Outcome<Error>)
      modifies this`globalOnLeave
      ensures r.Pass? <==> ShapeAccepted(hook.signature, GLOBAL_ON_LEAVE_ARGS)
      ensures r.Fail? ==> r.error == TypeError
      ensures globalOnLeave == if r.Pass? then Some(hook) else old(globalOnLeave)
    {
      r := ValidateSignature(hook.signature, GLOBAL_ON_LEAVE_ARGS);
      ShapeAcceptedIff(hook.signature, GLOBAL_ON_LEAVE_ARGS);
      if r.Pass? {
        globalOnLeave := Some(hook);
      }
    }

    /** `change_window`: makes the window registered as `name` current, the old
        current window the last one, and calls the listeners. */
    method ChangeWindow(name: string) returns (r: Outcome<Error>)
      requires Valid()
      modifies this`currentWindow, this`lastWindow, this`trace
      ensures Valid()
      ensures name !in windows ==>
        && r == Fail(WindowError(lastWindow))
        && currentWindow == old(currentWindow) && lastWindow == old(lastWindow)
        && trace == old(trace)
      ensures name in windows ==>
        && r == Pass
        && lastWindow == old(currentWindow)
        && currentWindow == Some(windows[name])
        && trace == old(trace) + TransitionEvents(globalOnLeave, globalOnEnter, old(currentWindow), windows[name])
      ensures r.Pass? ==> CurrentRegistered()
    {
      if name !in windows {
        return Fail(WindowError(lastWindow));
      }
      lastWindow := currentWindow;
      currentWindow := Some(windows[name]);
      var current := windows[name];
      if globalOnLeave.Some? {
        trace := trace + [GlobalLeaveCalled(globalOnLeave.value, lastWindow, current)];
      }
      if lastWindow.Some? {
        trace := trace + [LeaveCalled(lastWindow.value, current)];
      }
      if globalOnEnter.Some? {
        trace := trace + [GlobalEnterCalled(globalOnEnter.value, current, lastWindow)];
      }
      trace := trace + [EnterCalled(current, lastWindow)];
      r := Pass;
    }

    /** `load_windows`: registers a new instance of each type in turn and runs
        its setup listeners, stopping at the first type it refuses. `created`
        lists the instances made, one per type loaded; those stay loaded when a
        later type is refused. */
    method LoadWindows(batch: seq<PyType>, force: bool) returns (r: Outcome<Error>, ghost created: seq<Window>)
      requires Valid()
      modifies this`windows, this`trace, this`nextSerial
      ensures Valid()
      ensures Accepted(batch, created, old(windows).Keys, force, lastWindow, old(nextSerial))
      ensures nextSerial == old(nextSerial) + |created|
      ensures r.Pass? <==> |created| == |batch|
      ensures r.Fail? ==> LoadCheck(batch[|created|], old(windows).Keys + Names(created), force, lastWindow) == Some(r.error)
      ensures windows == old(windows) + Registered(created)
      ensures trace == old(trace) + SetupTrace(globalOnSetup, created)
      ensures !force ==> forall j :: 0 <= j < |created| ==>
        created[j].Name() !in old(windows) && forall k :: 0 <= k < j ==> created[k].Name() != created[j].Name()
      ensures !force && old(CurrentRegistered()) ==> CurrentRegistered()
    {
      ghost var registry0, trace0, serial0 := windows, trace, nextSerial;
      created := [];
      r := Pass;
      var i := 0;
      while i < |batch|
        invariant 0 <= i <= |batch| && |created| == i
        invariant Accepted(batch, created, registry0.Keys, force, lastWindow, serial0)
        invariant nextSerial == serial0 + i
        invariant windows == registry0 + Registered(created)
        invariant trace == trace0 + SetupTrace(globalOnSetup, created)
      {
        assert windows.Keys == registry0.Keys + Names(created);
        var refused := LoadOne(batch[i], force);
        if refused.Some? {
          r := Fail(refused.value);
          break;
        }
        var w := Window(batch[i].cls, serial0 + i);
        assert windows == (registry0 + Registered(created))[w.Name() := w];
        LoadStep(batch, created, registry0, trace0, globalOnSetup, force, lastWindow, serial0, w);
        created := created + [w];
        i := i + 1;
      }
      BatchLoaded(batch, created, registry0, force, lastWindow, currentWindow, serial0);
    }

    /** One iteration of `load_windows`: refuses a type that is not a `Window`
        subclass, or whose name is taken when `force` is off; otherwise stores a
        new instance under its name, then calls the global setup listener, if
        set, and the instance's own. */
    method LoadOne(t: PyType, force: bool) returns (refused: Option<Error>)
      modifies this`windows, this`trace, this`nextSerial
      ensures refused == LoadCheck(t, old(windows).Keys, force, lastWindow)
      ensures refused.Some? ==> windows == old(windows) && trace == old(trace) && nextSerial == old(nextSerial)
      ensures refused.None? ==>
        var w := Window(t.cls, old(nextSerial));
        && nextSerial == old(nextSerial) + 1
        && windows == old(windows)[w.Name() := w]
        && trace == old(trace) + SetupEvents(globalOnSetup, w)
    {
      if !t.WindowSubclass? {
        return Some(WindowError(lastWindow));
      }
      if !force && t.cls.WindowName() in windows {
        return Some(WindowLoadError(lastWindow));
      }
      var instance := Window(t.cls, nextSerial);
      nextSerial := nextSerial + 1;
      windows := windows[instance.Name() := instance];
      if globalOnSetup.Some? {
        trace := trace + [GlobalSetupCalled(globalOnSetup.value, windows[instance.Name()])];
      }
      trace := trace + [SetupCalled(windows[instance.Name()])];
      refused := None;
    }

    /** `unload_window`: removes the entry for `name` and returns its class,
        unless the name is absent, or is the current window's and `force` is off. */
    method UnloadWindow(name: string, force: bool) returns (r: Result<WindowClass, Error>)
      requires Valid()
      modifies this`windows
      ensures Valid()
      ensures UnloadCheck(name, old(windows).Keys, force, currentWindow, lastWindow) == (if r.Err? then Some(r.error) else None)
      ensures name !in old(windows) ==> r == Err(WindowLoadError(lastWindow))
      ensures !force && currentWindow.Some? && name == currentWindow.value.Name() ==> r.Err?
      ensures r.Err? ==> windows == old(windows)
      ensures r.Ok? ==> name in old(windows) && r.value == old(windows)[name].cls && windows == old(windows) - {name}
      ensures !force && old(CurrentRegistered()) ==> CurrentRegistered()
      ensures r.Ok? && old(CurrentRegistered()) && currentWindow.Some? && name == currentWindow.value.Name() ==> !CurrentRegistered()
    {
      if name !in windows {
        return Err(WindowLoadError(lastWindow));
      } else if !force && currentWindow.Some? && name == currentWindow.value.Name() {
        return Err(WindowError(lastWindow));
      }
      var cls := windows[name].cls;
      windows := windows - {name};
      r := Ok(cls);
    }

    /** `reload_window`: unloads `name`, loads its class again with the same
        `force`, and returns the new instance. The current window is not updated. */
    method ReloadWindow(name: string, force: bool) returns (r: Result<Window, Error>)
      requires Valid()
      modifies this`windows, this`trace, this`nextSerial
      ensures Valid()
      ensures UnloadCheck(name, old(windows).Keys, force, currentWindow, lastWindow) == (if r.Err? then Some(r.error) else None)
      ensures r.Err? ==> windows == old(windows) && trace == old(trace) && nextSerial == old(nextSerial)
      ensures r.Ok? ==>
        && name in old(windows)
        && r.value == Window(old(windows)[name].cls, old(nextSerial))
        && r.value != old(windows)[name]
        && windows == old(windows)[name := r.value]
        && trace == old(trace) + SetupEvents(globalOnSetup, r.value)
      ensures !force && old(CurrentRegistered()) ==> CurrentRegistered()
      ensures r.Ok? && old(currentWindow) == Some(old(windows)[name]) ==>
        currentWindow == old(currentWindow) && !CurrentRegistered()
    {
      var unloaded := UnloadWindow(name, force);
      if unloaded.Err? {
        return Err(unloaded.error);
      }
      var loaded;
      ghost var created;
      loaded, created := LoadWindows([WindowSubclass(unloaded.value)], force);
      // The class came from the entry for `name`, which was just removed.
      assert loaded.Pass?;
      assert created[..0] == [];
      r := Ok(windows[name]);
    }
  }
}
