/**
 * `RejectFunction_t`: a nullable wrapper around a reject callback whose call
 * supplies a default reason. The promise does not use it.
 */
module RejectFunctions {
  import opened StdFunction

  const DefaultReason: string := "unspecified reason"

  /** Calling the wrapper: the wrapped callable runs on a reason, or the empty one throws. */
  datatype Invocation = Invoked(callback: Token, reason: string) | BadFunctionCall

  class RejectFunction {
    var func: Slot

    /** `RejectFunction_t(nullptr)`, the only constructor the class declares. */
    constructor FromNull()
      ensures !IsSet()
    {
      func := None;
    }

    /** `explicit operator bool`. */
    predicate IsSet(): (b: bool)
      reads this
      ensures b <==> func.Some?
    {
      func.Some?
    }

    /** `operator()(str = "unspecified reason")`; `None` stands for the omitted argument. */
    function Call(reason: Option<string>): (r: Invocation)
      reads this
      ensures r.Invoked? <==> IsSet()
      ensures r.Invoked? ==> r.callback == func.value
      ensures r.Invoked? && reason.None? ==> r.reason == DefaultReason
      ensures r.Invoked? && reason.Some? ==> r.reason == reason.value
    {
      match func
      case Some(f) => Invoked(f, if reason.Some? then reason.value else DefaultReason)
      case None => BadFunctionCall
    }

    /** `operator=(nullptr)`: empties the wrapper and returns it. */
    method AssignNull() returns (self: RejectFunction)
      modifies this
      ensures self == this && !IsSet()
    {
      func := None;
      self := this;
    }
  }

  /** Calling without an argument hands the default reason to the wrapped callable. */
  lemma CallWithoutReasonUsesDefault(f: RejectFunction)
    requires f.IsSet()
    ensures f.Call(None) == Invoked(f.func.value, "unspecified reason")
  {
  }

  /** Calling with a reason hands that reason over unchanged. */
  lemma CallPassesReasonUnchanged(f: RejectFunction, s: string)
    requires f.IsSet()
    ensures f.Call(Some(s)) == Invoked(f.func.value, s)
  {
  }

  /**
   * Every wrapper the class lets one build is empty, since its only constructor and its
   * only assignment take `nullptr`; calling one throws whatever the argument.
   */
  method NullWrapperCallThrows(reason: Option<string>) returns (isSet: bool, r: Invocation)
    ensures !isSet && r == BadFunctionCall
  {
    var f := new RejectFunction.FromNull();
    var g := f.AssignNull();
    isSet := g.IsSet();
    r := g.Call(reason);
  }
}
