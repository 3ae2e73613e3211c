/** The static reader slot of `AnnotationsUtil`: `useReader` stores a reader, `reader` returns
    it. The class-level static is modelled as one registry object. */
module AnnotationsUtil {
  import opened Collections

  class ReaderRegistry<R> {
    var readerInstance: Option<R>

    /** Before any `useReader` the slot is null. */
    constructor ()
      ensures Reader() == None
    {
      readerInstance := None;
    }

    method UseReader(r: R)
      modifies this
      ensures Reader() == Some(r)
    {
      readerInstance := Some(r);
    }

    function Reader(): Option<R>
      reads this
    {
      readerInstance
    }
  }

  /** `reader()` returns the reader most recently passed to `useReader`. */
  method LastReaderWins<R>(first: R, second: R) returns (current: Option<R>)
    ensures current == Some(second)
  {
    var registry := new ReaderRegistry<R>();
    registry.UseReader(first);
    registry.UseReader(second);
    current := registry.Reader();
  }
}
