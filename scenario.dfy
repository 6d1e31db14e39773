/** A host application driving the manager: two windows, a refused early
    transition, two transitions and the listener calls they make. */
module Scenario {
  import opened Wrappers
  import opened Windows
  import opened Errors
  import opened HookShape
  import opened WindowManagement

  /** A global setup hook with two positional parameters is refused; one with a
      single positional parameter is installed. */
  method HookShapeScenario() returns (manager: WindowManager)
    ensures manager.globalOnSetup == Some(Hook(1, [PositionalOrKeyword]))
  {
    manager := new WindowManager();
    var tooWide := manager.SetGlobalOnSetup(Hook(0, [PositionalOrKeyword, PositionalOrKeyword]));
    assert tooWide == Fail(TypeError);
    var accepted := manager.SetGlobalOnSetup(Hook(1, [PositionalOrKeyword]));
    assert accepted == Pass;
  }

  /** The listener calls of the Menu/Game run: loading both with no global
      setup hook, entering Menu first, then moving to Game, with global leave and
      enter hooks installed. */
  lemma MenuGameEvents(onLeave: Hook, onEnter: Hook, menu: Window, game: Window)
    ensures SetupTrace(None, [menu, game]) == [SetupCalled(menu), SetupCalled(game)]
    ensures TransitionEvents(Some(onLeave), Some(onEnter), None, menu)
      == [GlobalLeaveCalled(onLeave, None, menu), GlobalEnterCalled(onEnter, menu, None), EnterCalled(menu, None)]
    ensures TransitionEvents(Some(onLeave), Some(onEnter), Some(menu), game)
      == [GlobalLeaveCalled(onLeave, Some(menu), game), LeaveCalled(menu, game),
          GlobalEnterCalled(onEnter, game, Some(menu)), EnterCalled(game, Some(menu))]
  {
    assert [menu][..0] == [] && [menu, game][..1] == [menu];
    assert SetupTrace(None, [menu]) == SetupEvents(None, menu);
  }

  /** Loading `Menu` and `Game` into an empty registry makes serials 0 and 1,
      registers both under their names and sets each up once. */
  lemma MenuGameLoaded(batch: seq<PyType>, created: seq<Window>)
    requires batch == [WindowSubclass(WindowClass("Menu", None)), WindowSubclass(WindowClass("Game", None))]
    requires Accepted(batch, created, {}, false, None, 0) && |created| == 2
    ensures created == [Window(WindowClass("Menu", None), 0), Window(WindowClass("Game", None), 1)]
    ensures Registered(created) == map["Menu" := created[0], "Game" := created[1]]
    ensures SetupTrace(None, created) == [SetupCalled(created[0]), SetupCalled(created[1])]
  {
    assert created[..1][..0] == [] && created[..1] == [created[0]];
    MenuGameEvents(Hook(0, []), Hook(0, []), created[0], created[1]);
    assert created == [created[0], created[1]];
  }

  /** An empty manager refuses a transition to `Game` and reports no last
      window; then `Menu` and `Game` are loaded, each set up once. */
  method LoadMenuAndGame(manager: WindowManager)
    requires manager.Valid()
    requires manager.windows == map[] && manager.currentWindow == None && manager.lastWindow == None
    requires manager.nextSerial == 0 && manager.trace == [] && manager.globalOnSetup == None
    modifies manager
    ensures manager.Valid()
    ensures manager.windows == map["Menu" := Window(WindowClass("Menu", None), 0), "Game" := Window(WindowClass("Game", None), 1)]
    ensures manager.currentWindow == None && manager.lastWindow == None
    ensures manager.globalOnLeave == old(manager.globalOnLeave) && manager.globalOnEnter == old(manager.globalOnEnter)
    ensures manager.trace == [SetupCalled(Window(WindowClass("Menu", None), 0)), SetupCalled(Window(WindowClass("Game", None), 1))]
  {
    var early := manager.ChangeWindow("Game");
    assert early == Fail(WindowError(None));
    var batch := [WindowSubclass(WindowClass("Menu", None)), WindowSubclass(WindowClass("Game", None))];
    var loaded, created := manager.LoadWindows(batch, false);
    assert loaded.Pass? by {
      assert created[..0] == [] && created[..1] == [created[0]];
    }
    MenuGameLoaded(batch, created);
  }

  /** Installs two-parameter global leave and enter hooks, then switches from
      nothing to `Menu` and from `Menu` to `Game`. The first transition tells
      both enter listeners there was no previous window; the second calls global
      leave, Menu's leave, global enter and Game's enter, in that order. */
  method MenuGameScenario() returns (manager: WindowManager)
    ensures manager.Valid() && manager.CurrentRegistered()
    ensures manager.currentWindow == Some(Window(WindowClass("Game", None), 1))
    ensures manager.lastWindow == Some(Window(WindowClass("Menu", None), 0))
    ensures |manager.trace| == 9
    ensures manager.trace[5..] == [
      GlobalLeaveCalled(Hook(2, [PositionalOrKeyword, PositionalOrKeyword]), Some(Window(WindowClass("Menu", None), 0)), Window(WindowClass("Game", None), 1)),
      LeaveCalled(Window(WindowClass("Menu", None), 0), Window(WindowClass("Game", None), 1)),
      GlobalEnterCalled(Hook(3, [PositionalOrKeyword, PositionalOrKeyword]), Window(WindowClass("Game", None), 1), Some(Window(WindowClass("Menu", None), 0))),
      EnterCalled(Window(WindowClass("Game", None), 1), Some(Window(WindowClass("Menu", None), 0)))]
  {
    manager := new WindowManager();
    LoadMenuAndGame(manager);
    var onLeave := Hook(2, [PositionalOrKeyword, PositionalOrKeyword]);
    var onEnter := Hook(3, [PositionalOrKeyword, PositionalOrKeyword]);
    ShapeAcceptedIff(onLeave.signature, GLOBAL_ON_LEAVE_ARGS);
    var leaveSet := manager.SetGlobalOnLeave(onLeave);
    ShapeAcceptedIff(onEnter.signature, GLOBAL_ON_ENTER_ARGS);
    var enterSet := manager.SetGlobalOnEnter(onEnter);
    assert leaveSet == Pass && enterSet == Pass;

    var m, g := Window(WindowClass("Menu", None), 0), Window(WindowClass("Game", None), 1);
    MenuGameEvents(onLeave, onEnter, m, g);
    var first := manager.ChangeWindow("Menu");
    assert first == Pass && manager.lastWindow == None;
    assert |manager.trace| == 5;
    var second := manager.ChangeWindow("Game");
    assert second == Pass && manager.lastWindow == Some(m);
  }
}
