# Mineral window manager, modelled in Dafny

Mineral is a small terminal-UI framework. Its `WindowManager` keeps a registry of
named windows (screens), switches the current window, and calls lifecycle
listeners. These are the window's own `on_setup`, `on_enter` and `on_leave`, plus
optional global hooks for setup, enter and leave. This project models that
manager and proves what it promises:

- the shape check a callable must pass before it is installed as a global hook;
- the registry's load, unload and reload operations, with their error cases and
  the `force` escape hatch;
- the transition state machine of `change_window`, with the exact order of
  listener calls.

Files:

- `wrappers.dfy`: `Option`, `Result` and `Outcome`.
- `window.dfy`: a `Window` subclass (`WindowClass`) and the name it registers under.
  Python's `window_name or cls.__name__` makes an empty override fall back to the
  class name. Also here are the types a caller can hand to `load_windows`
  (`PyType`) and window instances (`Window`).
- `errors.dfy`: the exceptions raised. `WindowError` and `WindowLoadError` carry
  the manager's last window.
- `hook_shape.dfy`: parameter kinds, the two counting loops `_get_kw_args` and
  `_get_pos_args`, and the validation the three setters share. It also holds the
  as-written form of the keyword test (see Findings).
- `window_manager.dfy`: the listener calls a load or a transition makes, as
  functions over values. It also holds the `WindowManager` class, whose methods
  update its fields in place.
- `scenario.dfy`: a host application that exercises the contracts. It installs a
  hook of the wrong shape and one of the right shape. It then loads `Menu` and
  `Game`, installs global leave and enter hooks, switches to `Menu` and then to
  `Game`, and checks the four listener calls of the second switch.

### How the model works

- **Listener calls.** Every listener call is appended to a ghost `trace` of
  events. Listener bodies are not modelled.
- **Window identity.** A window instance is a value: its class plus a serial
  number issued by the manager (`nextSerial`). The serial stands for Python object
  identity, so a reloaded window is a different instance from the one it
  replaces.
- **Read-only properties.** `current_window`, `last_window` and `window_map` are
  the fields `currentWindow`, `lastWindow` and `windows`. A Dafny map is a value,
  so reading `windows` hands out a copy, as `window_map` does.
- **Invariants.** `WindowManager.Valid()` says that every window is stored under
  its own name, and that every window the manager refers to has a serial it has
  already issued. Every operation preserves `Valid()`.
  `WindowManager.CurrentRegistered()` says the current window is still the
  registry's entry for its name.

Points where the model departs from the code as written, or states more than
its docstrings do:

- **Keyword parameters.** The hook setters (window_manager.py:114-117) are meant
  to reject a hook with a keyword-only or `**kwargs` parameter. Their `TypeError`
  message reports "N keyword argument(s)" (window_manager.py:118-126). As
  written, the keyword test never fires (see Findings). The manager in this
  model uses the intended test: `SetGlobalOnSetup`, `SetGlobalOnEnter`,
  `SetGlobalOnLeave` and `ValidateSignature` reject such hooks. The code as
  written is modelled separately by `ShapeAcceptedAsWritten` and
  `PositionalCountAsWritten`, with the lemmas about them.
- **The `force` flag.** The docstrings of `load_windows`, `reload_window` and
  `unload_window` warn that `force` "may lead to unexpected behavior"
  (window_manager.py:321-322, 371-372, 407-408). The model names that
  behaviour:
  - every non-forced load, unload and reload keeps the current window
    registered;
  - a forced unload or reload of the current window leaves `current_window`
    pointing at an instance the registry no longer holds.
- **Return value of reload.** `reload_window` returns the new instance, read back
  from the registry (window_manager.py:391). `ReloadWindow` returns it too, and
  states that it is a new instance of the unloaded class.

## Model

| member | source | states |
|---|---|---|
| Windows.WindowClass.WindowName | src/mineral/window.py:28-29 | a class registers under its `window_name=` keyword when one is given and non-empty, and under its class name otherwise |
| HookShape.KeywordKinds | src/mineral/window_manager.py:19 | a parameter kind's name is in `_KW_CONSIDER` exactly when the kind is keyword-only or variadic keyword |
| HookShape.GetKwArgs | src/mineral/window_manager.py:50-55 | the loop's count equals `KeywordCount`, the number of keyword-only and `**kwargs` parameters (kinds compared by name, as intended) |
| HookShape.GetPosArgs | src/mineral/window_manager.py:57-62 | the loop's count equals `PositionalCount`, the number of all other parameters (as intended; as written: `AsWrittenPositionalCountIsLength`) |
| HookShape.AsWrittenPositionalCountIsLength | src/mineral/window_manager.py:60 | with the membership test as written, `_get_pos_args` counts every parameter: its count equals the signature's length, which is the intended positional count plus the keyword count |
| HookShape.AsWrittenPositionalCountDiffers | src/mineral/window_manager.py:60 | for `(current, *, previous)` the count as written is 2, while the intended positional count is 1 |
| HookShape.CountsPartition | src/mineral/window_manager.py:50-62 | every parameter is counted by exactly one of the two counters: the counts add up to the number of parameters |
| HookShape.KeywordCountZero | src/mineral/window_manager.py:50-55 | the keyword count is zero if and only if no parameter is keyword-only or variadic keyword |
| HookShape.ShapeAcceptedIff | src/mineral/window_manager.py:114-117 | the setters' test holds if and only if there are exactly `arity` parameters and none is keyword-only or variadic keyword |
| HookShape.ValidateSignature | src/mineral/window_manager.py:110-127 | passes if and only if the signature has exactly `arity` parameters and none is keyword-only or variadic keyword; otherwise fails with `TypeError` |
| HookShape.AsWrittenChecksCountOnly | src/mineral/window_manager.py:53 | with the membership test as written, the keyword count is always 0, so a signature is accepted if and only if its length equals the arity |
| HookShape.AsWrittenAcceptsKeywordParameters | src/mineral/window_manager.py:114-117 | `(current, *, previous)` as a global enter hook and `(**kwargs)` as a global setup hook pass the check as written but fail the intended one |
| WindowManagement.TransitionOrder | src/mineral/window_manager.py:271-279 | a transition calls global leave, the old window's leave, global enter and the new window's enter, each at most once and in that order; the new window's enter comes last |
| WindowManagement.TransitionCalls | src/mineral/window_manager.py:269-279 | each global listener is called exactly when it is set, and the old window's leave exactly when there was a current window; each call receives the old and new windows; on a first activation both enter listeners receive no previous window |
| WindowManagement.Registered | src/mineral/window_manager.py:351 | the registry entries a sequence of loads writes: its keys are exactly the loaded names, and each entry is stored under its own name |
| WindowManagement.RegisteredLatest | src/mineral/window_manager.py:351 | a name's entry is the last loaded window of that name: a forced reload of a name overwrites the earlier instance |
| WindowManagement.AcceptedSerials | src/mineral/window_manager.py:336-351 | the instances a batch load makes come from the batch's types in order, each a new instance with the next serial |
| WindowManagement.LoadedNamesUnique | src/mineral/window_manager.py:344-349 | without `force`, every loaded name was absent before the call and no two windows loaded by one call share a name |
| WindowManagement.LoadKeepsCurrent | src/mineral/window_manager.py:344-351 | loading windows under names the registry does not hold keeps the current window's entry |
| WindowManagement.BatchLoaded | src/mineral/window_manager.py:336-354 | after a batch load the registry is still keyed by name and holds only issued serials; without `force`, names are unique and the current window's entry is kept |
| WindowManagement.WindowManager.constructor | src/mineral/window_manager.py:33-48 | a new manager is running, has no global hooks, an empty registry and no current or last window |
| WindowManagement.WindowManager.AssignCurrentWindow | src/mineral/window_manager.py:74-78 | assigning `current_window` fails with `ValueError` and changes nothing |
| WindowManagement.WindowManager.AssignLastWindow | src/mineral/window_manager.py:233-235 | assigning `last_window` fails with `ValueError` and changes nothing |
| WindowManagement.WindowManager.AssignWindowMap | src/mineral/window_manager.py:246-248 | assigning `window_map` fails with `ValueError` and changes nothing |
| WindowManagement.WindowManager.SetGlobalOnEnter | src/mineral/window_manager.py:106-129 | installs the hook if and only if it takes exactly 2 parameters, none keyword-only or variadic keyword; otherwise fails with `TypeError` and keeps the previous hook (intended test; as written: `AsWrittenChecksCountOnly`) |
| WindowManagement.WindowManager.SetGlobalOnLeave | src/mineral/window_manager.py:157-180 | installs the hook if and only if it takes exactly 2 parameters, none keyword-only or variadic keyword; otherwise fails with `TypeError` and keeps the previous hook (intended test; as written: `AsWrittenChecksCountOnly`) |
| WindowManagement.WindowManager.SetGlobalOnSetup | src/mineral/window_manager.py:201-222 | installs the hook if and only if it takes exactly 1 parameter, not keyword-only or variadic keyword; otherwise fails with `TypeError` and keeps the previous hook (intended test; as written: `AsWrittenChecksCountOnly`) |
| WindowManagement.WindowManager.ChangeWindow | src/mineral/window_manager.py:250-279 | an unknown name fails with `WindowError` carrying the last window and changes nothing; otherwise the old current window becomes the last window, the named window becomes current (so the current window is registered), and exactly the calls of `TransitionEvents` are made |
| WindowManagement.WindowManager.LoadWindows | src/mineral/window_manager.py:307-354 | types are loaded in order until the first refused one; the error is the refused type's `LoadCheck`, given the names loaded before it; the loaded prefix stays (not atomic); the registry gains exactly the new instances, and the setup calls are made in order; without `force`, names are unique and the current window stays registered |
| WindowManagement.WindowManager.LoadOne | src/mineral/window_manager.py:337-354 | refuses a type that is not a `Window` subclass (`WindowError`) or, without `force`, whose name is taken (`WindowLoadError`), changing nothing; otherwise stores a new instance under its name and calls global setup before the window's own setup |
| WindowManagement.WindowManager.UnloadWindow | src/mineral/window_manager.py:393-445 | an absent name fails with `WindowLoadError`; the current window's name without `force` fails with `WindowError`; otherwise removes exactly that entry and returns its class; a forced unload of the current window leaves it unregistered |
| WindowManagement.WindowManager.ReloadWindow | src/mineral/window_manager.py:356-391 | fails exactly as unload does; otherwise replaces the entry with a new instance of the same class, returns that instance and makes its setup calls; the current window is not updated, so a forced reload of the current window leaves it pointing at the old, now unregistered instance |

## Left out

- `connect_window_hook` (window_manager.py:281-305) imports a module by path and
  calls its `hook` function. That is a foreign call and is not modelled.
- `inspect.signature` is not modelled. A hook is given as the list of its
  parameters' kinds.
- Error message text is not modelled. The extra keyword arguments that callers
  pass through `**kwargs` and that errors copy onto themselves as attributes are
  not modelled either.
- Listener and hook bodies are not modelled: each call is recorded as an event
  and does nothing else. Because of this the model does not capture:
  - re-entrant calls from a hook into the manager;
  - exceptions raised by a hook;
  - exceptions raised by a window constructor.
- WindowManagement.WindowManager.ReloadWindow: the load step cannot fail in the
  model, because the class came from a registered instance and its name was just
  removed. Exceptions from constructors and hooks are not modelled. So the
  non-atomic failure of `reload_window`, where a window is unloaded and then not
  loaded again (window_manager.py:387-390), cannot arise here.
- Constructor keyword arguments passed on by `load_windows` and `reload_window`
  are not modelled.
- `Window.manager = self` (window_manager.py:34) sets a class attribute shared by
  every window. It is not modelled.
- The base `Window` class itself, with `window_name` still MISSING, is not a
  `PyType` of the model.
- `issubclass` on an argument that is not a class raises `TypeError` in Python.
  In the model every non-`Window` type is refused with `WindowError`.
- The tests `if self._last_window:` and `if self._global_on_leave:` assume that
  windows and hooks are truthy. A window class that defines `__bool__` or
  `__len__` is not modelled.
- The serial numbers (`nextSerial`) are a device of the model for Python object
  identity. The source has no such counter.
- `is_running` is kept, but the render loop that reads it (app.py) is not part of
  this model. Nor are consoles, gadgets, screens, states, `window.py`'s `states`
  list with `add_state` and `remove_state`, or `update`.
- The positional count computed by `_get_pos_args` only feeds the error message,
  whose text is not modelled. `ValidateSignature` computes it but states nothing
  about it beyond `GetPosArgs`'s own contract.

## Findings

| source | as written | input that shows it | evidently intended | confidence | as-written member | corrected member |
|---|---|---|---|---|---|---|
| src/mineral/window_manager.py:53 | `param.kind in _KW_CONSIDER` compares an `inspect._ParameterKind` (an `IntEnum` member) with the strings `"VAR_KEYWORD"` and `"KEYWORD_ONLY"`. That comparison is always false, so `_get_kw_args` always returns 0 and the setters check only the parameter count. | `def hook(current, *, previous)` assigned to `global_on_enter`, or `def hook(**kwargs)` assigned to `global_on_setup`: both are accepted, and the manager's later positional calls fail | compare the kind's name (`param.kind.name in _KW_CONSIDER`), so that keyword-only and `**kwargs` parameters are counted and such hooks are rejected with `TypeError` | high, not executed | HookShape.AsWrittenAcceptsKeywordParameters | HookShape.ValidateSignature |
| src/mineral/window_manager.py:60 | `param.kind not in _KW_CONSIDER` compares the same `IntEnum` member with strings and is always true. So `_get_pos_args` returns the total parameter count. | `def hook(current, *, previous)` assigned to `global_on_setup`: the message reports "2 positional argument(s)" and no keyword argument; the intended report is 1 positional and 1 keyword argument | compare the kind's name, so that only parameters that can be passed positionally are counted | high, not executed | HookShape.AsWrittenPositionalCountDiffers | HookShape.GetPosArgs |
