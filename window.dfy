/** Windows as the manager sees them: a name derived from the concrete class,
    and four lifecycle listeners that do nothing unless a subclass overrides them. */
module Windows {
  import opened Wrappers

  /** A concrete subclass of `Window`: its Python class name and the optional
      `window_name=` keyword given in its class statement. */
  datatype WindowClass = WindowClass(className: string, nameOverride: Option<string>)
  {
    /** The name the class registers under. Python's `or` treats the empty
        string as false, so an empty override falls back to the class name. */
    function WindowName(): (name: string)
      ensures nameOverride.Some? && nameOverride.value != "" ==> name == nameOverride.value
      ensures nameOverride.None? || nameOverride.value == "" ==> name == className
    {
      if nameOverride.Some? && nameOverride.value != "" then nameOverride.value else className
    }
  }

  /** A type handed to `load_windows`: a subclass of `Window`, or some other type. */
  datatype PyType = WindowSubclass(cls: WindowClass) | OtherType(typeName: string)

  /** A window instance: the class it was made from, and a serial number that
      stands for the object's identity (two instantiations of one class are two
      different windows). The listeners `on_setup`, `on_enter` and `on_leave`
      appear as events in the manager's trace. */
  datatype Window = Window(cls: WindowClass, serial: nat)
  {
    /** The instance's `window_name`, a class attribute. */
    function Name(): string {
      cls.WindowName()
    }
  }
}
