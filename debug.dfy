/**
 * The debug trace of the OpenWeather client, `_print_debug(*msgs)`. The
 * trace is printed only when the debug flag is set; printing itself is
 * console output, so what matters to the rest of the client is whether the
 * call returns normally or raises.
 */
module Debug {
  import opened Wrappers

  /** The Python values the trace is built from: strings and tuples. */
  datatype PyVal = PyStr(s: string) | PyTuple(items: seq<PyVal>)

  /**
   * Python's `+`: strings concatenate with strings and tuples with tuples;
   * any other pairing raises TypeError (`None` here).
   */
  function PyAdd(a: PyVal, b: PyVal): Option<PyVal>
  {
    match (a, b)
    case (PyStr(x), PyStr(y)) => Some(PyStr(x + y))
    case (PyTuple(x), PyTuple(y)) => Some(PyTuple(x + y))
    case _ => None
  }

  /** What one call of `_print_debug` does. */
  datatype Trace = Silent | Printed(line: PyVal) | RaisedTypeError

  const DebugTag := PyStr("[DEBUG]")

  /**
   * `_print_debug(*msgs)` as written: `("[DEBUG]")` is a parenthesised
   * string, not a one-element tuple, so it is added to the tuple `msgs`.
   */
  function PrintDebugAsWritten(debug: bool, msgs: seq<PyVal>): (t: Trace)
    ensures !t.Printed?
  {
    if !debug then Silent
    else match PyAdd(DebugTag, PyTuple(msgs))
      case Some(line) => Printed(line)
      case None => RaisedTypeError
  }

  /** As written, every debug trace raises TypeError once debugging is on, whatever the messages. */
  lemma PrintDebugAsWrittenRaises(msgs: seq<PyVal>)
    ensures PrintDebugAsWritten(true, msgs) == RaisedTypeError
    ensures PrintDebugAsWritten(true, [PyStr("OpenWeather units set: "), PyStr("metric")]) == RaisedTypeError
  {
  }

  /** `_print_debug(*msgs)` as evidently intended: the tag as a one-element tuple `("[DEBUG]",)`. */
  function PrintDebug(debug: bool, msgs: seq<PyVal>): (t: Trace)
    ensures t != RaisedTypeError
  {
    if !debug then Silent
    else match PyAdd(PyTuple([DebugTag]), PyTuple(msgs))
      case Some(line) => Printed(line)
      case None => RaisedTypeError
  }

  /**
   * The corrected trace never raises: with debugging off it prints nothing,
   * with debugging on it prints the tag followed by every message, in order.
   */
  lemma PrintDebugNeverRaises(debug: bool, msgs: seq<PyVal>)
    ensures PrintDebug(debug, msgs) != RaisedTypeError
    ensures !debug ==> PrintDebug(debug, msgs) == Silent
    ensures debug ==> PrintDebug(debug, msgs).Printed?
                      && PrintDebug(debug, msgs).line.PyTuple?
                      && |PrintDebug(debug, msgs).line.items| == |msgs| + 1
                      && PrintDebug(debug, msgs).line.items[0] == DebugTag
                      && PrintDebug(debug, msgs).line.items[1..] == msgs
  {
  }

  /** The two versions agree when debugging is off, and differ on every call when it is on. */
  lemma PrintDebugAgreeWhenOff(debug: bool, msgs: seq<PyVal>)
    ensures PrintDebug(debug, msgs) == PrintDebugAsWritten(debug, msgs) <==> !debug
  {
  }
}
