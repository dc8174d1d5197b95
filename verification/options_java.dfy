/** The Java-tree revision of `CopyImageOptionsProvider.kt`: six options, a nullable
    save directory, and a state held by each provider instance. */
module JavaOptions {
  import opened Wrappers
  import JavaTransferable

  datatype State = State(
    scale: real,
    removeCaret: bool,
    chopIndentation: bool,
    directoryToSave: Option<string>,
    padding: int,
    format: JavaTransferable.Format)

  /** `State()` with every default. */
  function DefaultState(): (s: State)
    ensures s.scale == 4.0 && s.removeCaret && s.chopIndentation && s.padding == 0
    ensures s.directoryToSave == None && s.format == JavaTransferable.PNG
  {
    State(4.0, true, true, None, 0, JavaTransferable.PNG)
  }

  class CopyImageOptionsProvider {
    var myState: State

    /** A new provider starts from the defaults. */
    constructor ()
      ensures GetState() == DefaultState()
    {
      myState := DefaultState();
    }

    /** `getState()`. */
    function GetState(): State
      reads this
    {
      myState
    }

    /** `loadState(state)`. */
    method LoadState(s: State)
      modifies this
      ensures GetState() == s
    {
      myState := s;
    }
  }

  /** Loading options into one provider leaves every other provider as it was. */
  method LoadIsPerInstance(first: CopyImageOptionsProvider, second: CopyImageOptionsProvider, s: State)
    requires first != second
    modifies first
    ensures first.GetState() == s
    ensures second.GetState() == old(second.GetState())
  {
    first.LoadState(s);
  }
}
