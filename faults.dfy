/** The exceptions the analyser can raise while it walks a document, and the
    partially written output an interrupted step leaves behind. */
module Faults {
  import opened Wrappers

  /** The .NET exception classes the analysed code can throw. */
  datatype Fault =
    | ArgumentOutOfRange   // Enumerable.ElementAt past the end, GetPartById of an unknown id
    | IndexOutOfRange      // indexing the array returned by String.Split
    | NullReference        // member access on a null part or element
    | KeyNotFound          // OpenXmlElement.GetAttribute of an absent attribute
    | Format               // int.Parse of text that is not an integer
    | Overflow             // int.Parse of an integer outside the Int32 range

  /** Stands in for `ex.Message`: the runtime's message text is not part of
      the model, so the exception's class name is written instead. */
  function Message(f: Fault): string {
    match f
    case ArgumentOutOfRange => "ArgumentOutOfRangeException"
    case IndexOutOfRange => "IndexOutOfRangeException"
    case NullReference => "NullReferenceException"
    case KeyNotFound => "KeyNotFoundException"
    case Format => "FormatException"
    case Overflow => "OverflowException"
  }

  /** The lines a step appended before it stopped, and the fault that stopped
      it (None when the step ran to completion). */
  datatype Emit = Emit(lines: seq<string>, fault: Option<Fault>)

  /** Run `a`, then `b` unless `a` faulted. */
  function Then(a: Emit, b: Emit): (r: Emit)
    ensures a.fault.Some? ==> r == a
    ensures a.fault.None? ==> r.lines == a.lines + b.lines && r.fault == b.fault
  {
    if a.fault.Some? then a else Emit(a.lines + b.lines, b.fault)
  }

  /** Running `a` then `b`, then `c`, is the same in either grouping. */
  lemma ThenAssoc(a: Emit, b: Emit, c: Emit)
    ensures Then(Then(a, b), c) == Then(a, Then(b, c))
  {
    if a.fault.None? && b.fault.None? {
      assert (a.lines + b.lines) + c.lines == a.lines + (b.lines + c.lines);
    }
  }
}
