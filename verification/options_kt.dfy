/** The Kotlin revision of `CopyImageOptionsProvider.kt`: the persisted screenshot options
    and the provider that hands them out. The provider keeps its state in a companion
    object, so every provider (one per project) reads and writes the same value. */
module KotlinOptions {
  import KotlinTransferable

  /** The persisted options. `scale` is the `Double` image scale; `lineLimitToWarn` is a
      `Long`. */
  datatype State = State(
    scale: real,
    removeCaret: bool,
    chopIndentation: bool,
    directoryToSave: string,
    padding: int,
    format: KotlinTransferable.Format,
    lineLimitToWarn: int,
    dateTimePattern: string,
    gutterIconsShown: bool,
    foldingOutlineShown: bool,
    innerWhitespaceShown: bool,
    indentGuidesShown: bool,
    lineNumbersShown: bool)

  /** `State()` with every default; `pictureDirectory` is what
      `ScreenShoterUtils.pictureDefaultDirectory()` answered. */
  function DefaultState(pictureDirectory: string): (s: State)
    ensures s.scale == 4.0 && s.removeCaret && s.chopIndentation && s.padding == 0
    ensures s.directoryToSave == pictureDirectory
    ensures s.format == KotlinTransferable.PNG && s.lineLimitToWarn == 50
    ensures s.dateTimePattern == "yyyyMMdd_HHmmss"
    ensures !s.gutterIconsShown && !s.foldingOutlineShown && !s.innerWhitespaceShown
    ensures !s.indentGuidesShown && !s.lineNumbersShown
  {
    State(4.0, true, true, pictureDirectory, 0, KotlinTransferable.PNG, 50, "yyyyMMdd_HHmmss",
          false, false, false, false, false)
  }

  /** The companion object: one `defaultState` for the whole plugin. */
  class Companion {
    var defaultState: State

    constructor (pictureDirectory: string)
      ensures defaultState == DefaultState(pictureDirectory)
    {
      defaultState := DefaultState(pictureDirectory);
    }
  }

  /** A provider instance, as `project.getService` returns it; all instances share the
      companion. */
  class CopyImageOptionsProvider {
    const companion: Companion

    constructor (companion: Companion)
      ensures this.companion == companion
    {
      this.companion := companion;
    }

    /** `getState()`. */
    function GetState(): State
      reads this, companion
    {
      companion.defaultState
    }

    /** `loadState(state)`. */
    method LoadState(s: State)
      modifies companion
      ensures GetState() == s
    {
      companion.defaultState := s;
    }
  }

  /** Loading options into the provider of one project changes what the provider of any
      other project answers: both now return the loaded state. */
  method LoadIsShared(companion: Companion, pictureDirectory: string, s: State)
    returns (first: CopyImageOptionsProvider, second: CopyImageOptionsProvider)
    modifies companion
    ensures first != second
    ensures first.GetState() == s && second.GetState() == s
  {
    first := new CopyImageOptionsProvider(companion);
    second := new CopyImageOptionsProvider(companion);
    first.LoadState(s);
  }
}
