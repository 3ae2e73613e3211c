/** The result record discovery fills in through setters: class, member and annotation payload
    (type `P`), plus the member's static and private flags. */
module AnnotationResult {
  import opened Collections

  /** What the getters of one result return, read off at once. */
  datatype ResultValue<P> = ResultValue(
    cls: string,
    methodName: string,
    propertyName: string,
    isStatic: Option<bool>,
    isPrivate: Option<bool>,
    annotation: Option<P>)

  /** A result no setter has touched yet. */
  function Blank<P>(): (v: ResultValue<P>)
    ensures v.cls == "" && v.methodName == "" && v.propertyName == ""
    ensures v.isStatic.None? && v.isPrivate.None? && v.annotation.None?
  {
    ResultValue("", "", "", None, None, None)
  }

  class AnnotationResult<P> {
    var cls: string
    var methodName: string
    var propertyName: string
    var isStatic: Option<bool>
    var isPrivate: Option<bool>
    var annotation: Option<P>

    /** Class, method and property default to "", the rest to null. */
    constructor ()
      ensures Value() == Blank()
    {
      cls, methodName, propertyName := "", "", "";
      isStatic, isPrivate, annotation := None, None, None;
    }

    function Value(): ResultValue<P>
      reads this
    {
      ResultValue(cls, methodName, propertyName, isStatic, isPrivate, annotation)
    }

    method SetClass(c: string)
      modifies this
      ensures GetClass() == c
      ensures Value() == old(Value()).(cls := c)
    {
      cls := c;
    }

    function GetClass(): string
      reads this
    {
      cls
    }

    method SetMethod(m: string)
      modifies this
      ensures GetMethod() == m
      ensures Value() == old(Value()).(methodName := m)
    {
      methodName := m;
    }

    function GetMethod(): string
      reads this
    {
      methodName
    }

    method SetProperty(p: string)
      modifies this
      ensures GetProperty() == p
      ensures Value() == old(Value()).(propertyName := p)
    {
      propertyName := p;
    }

    function GetProperty(): string
      reads this
    {
      propertyName
    }

    method SetStatic(s: bool)
      modifies this
      ensures GetStatic() == Some(s)
      ensures Value() == old(Value()).(isStatic := Some(s))
    {
      isStatic := Some(s);
    }

    function GetStatic(): Option<bool>
      reads this
    {
      isStatic
    }

    /** `setPrivate` as written: it assigns the undefined `$static`, which reads as null, so
        the argument is never stored. */
    method SetPrivate(p: bool)
      modifies this
      ensures GetPrivate() == None
      ensures Value() == old(Value()).(isPrivate := None)
    {
      isPrivate := None;
    }

    /** `setPrivate` as evidently intended: it stores its argument. */
    method SetPrivateFixed(p: bool)
      modifies this
      ensures GetPrivate() == Some(p)
      ensures Value() == old(Value()).(isPrivate := Some(p))
    {
      isPrivate := Some(p);
    }

    function GetPrivate(): Option<bool>
      reads this
    {
      isPrivate
    }

    method SetAnnotation(a: P)
      modifies this
      ensures GetAnnotation() == Some(a)
      ensures Value() == old(Value()).(annotation := Some(a))
    {
      annotation := Some(a);
    }

    function GetAnnotation(): Option<P>
      reads this
    {
      annotation
    }
  }

  /** A private member reported through `setPrivate` as written reads back as null. */
  method SetPrivateLosesFlag() returns (stored: Option<bool>)
    ensures stored == None
  {
    var r := new AnnotationResult<string>();
    r.SetPrivate(true);
    stored := r.GetPrivate();
  }

  /** Through the corrected setter the flag reads back as given. */
  method SetPrivateFixedKeepsFlag(p: bool) returns (stored: Option<bool>)
    ensures stored == Some(p)
  {
    var r := new AnnotationResult<string>();
    r.SetPrivateFixed(p);
    stored := r.GetPrivate();
  }

  /** The value of a method or property result after the discovery loop's setters have run,
      in their order: class, member name, annotation, static flag, private flag (the corrected
      setter). */
  method Fill<P>(c: string, member: string, isMethod: bool, a: P, isStatic: bool, isPrivate: bool)
    returns (v: ResultValue<P>)
    ensures v.cls == c && v.annotation == Some(a)
    ensures v.isStatic == Some(isStatic) && v.isPrivate == Some(isPrivate)
    ensures isMethod ==> v.methodName == member && v.propertyName == ""
    ensures !isMethod ==> v.propertyName == member && v.methodName == ""
  {
    var r := new AnnotationResult<P>();
    r.SetClass(c);
    if isMethod {
      r.SetMethod(member);
    } else {
      r.SetProperty(member);
    }
    r.SetAnnotation(a);
    r.SetStatic(isStatic);
    r.SetPrivateFixed(isPrivate);
    v := r.Value();
  }
}
