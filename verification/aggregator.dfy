/** The stack-trace aggregator: lines that are neither client nor server lines are
    buffered and later flushed as a single ERROR event (parseLine's default branch,
    finalizeStacktrace). */
module Aggregator {
  import opened Wrappers
  import opened Json
  import opened Events

  const Separator: string := " | "

  /** stacktraceFlag, stacktraceMessage and lastTimestamp. */
  datatype State = State(buffering: bool, buffer: string, lastTimestamp: string)

  /** The state when the first line arrives. */
  const Initial: State := State(false, "", "")

  /** Idle states hold no buffered text. */
  predicate Valid(st: State) {
    !st.buffering ==> st.buffer == ""
  }

  /** The default branch of parseLine: enter (or stay in) Buffering and add the line,
      with a separator only when the buffer is non-empty. */
  function Append(st: State, line: string): (st': State)
    ensures st'.buffering && Valid(st') && st'.lastTimestamp == st.lastTimestamp
    ensures st.buffer == "" ==> st'.buffer == line
    ensures st.buffer != "" ==> st'.buffer == st.buffer + Separator + line
  {
    State(true, (if st.buffer != "" then st.buffer + Separator else "") + line, st.lastTimestamp)
  }

  /** finalizeStacktrace: one ERROR event stamped with lastTimestamp and carrying the
      buffer, every other property as getNewInstance leaves it; afterwards the state is
      Idle with an empty buffer and lastTimestamp untouched. */
  function Flush(st: State): (r: (State, Event))
    ensures r.0 == State(false, "", st.lastTimestamp) && Valid(r.0)
    ensures r.1.eventType == Typed(Error)
    ensures r.1.timestamp == st.lastTimestamp && r.1.message == JString(st.buffer)
    ensures r.1.logsource == NoSource && r.1.data.None?
    ensures r.1.program == JString("") && r.1.host == JString("") && r.1.env == JString("")
  {
    var instance := Event(NoSource, JString(""), JString(""), JString(""), Typed(Error),
      st.lastTimestamp, JString(st.buffer), None);
    (State(false, "", st.lastTimestamp), instance)
  }

  /** `if (stacktraceFlag) finalizeStacktrace()`, the guard in parseLine and finalize:
      exactly one event when Buffering, none when Idle, and Idle afterwards. */
  function FlushIfBuffering(st: State): (r: (State, seq<Event>))
    ensures |r.1| == (if st.buffering then 1 else 0)
    ensures st.buffering ==> r == (Flush(st).0, [Flush(st).1])
    ensures !r.0.buffering && r.0.lastTimestamp == st.lastTimestamp
    ensures Valid(st) ==> r.0 == State(false, "", st.lastTimestamp)
  {
    if st.buffering then
      var (idle, e) := Flush(st);
      (idle, [e])
    else (st, [])
  }

  /** The lines of a run joined with the separator. */
  function Join(ls: seq<string>): string
    decreases |ls|
  {
    if |ls| == 0 then ""
    else if |ls| == 1 then ls[0]
    else ls[0] + Separator + Join(ls[1..])
  }

  /** The run without its leading empty lines. */
  function DropLeadingBlank(ls: seq<string>): seq<string>
    decreases |ls|
  {
    if |ls| > 0 && ls[0] == "" then DropLeadingBlank(ls[1..]) else ls
  }

  /** Appending a run of lines one after the other. */
  function AppendAll(st: State, ls: seq<string>): State
    decreases |ls|
  {
    if |ls| == 0 then st else AppendAll(Append(st, ls[0]), ls[1..])
  }

  /** Onto a non-empty buffer, a run of lines lands separator-joined, empty lines
      included. */
  lemma {:induction false} AppendAllExtends(st: State, ls: seq<string>)
    requires st.buffer != ""
    ensures AppendAll(st, ls).buffer == if ls == [] then st.buffer else st.buffer + Separator + Join(ls)
    decreases |ls|
  {
    if ls != [] {
      var next := Append(st, ls[0]);
      AppendAllExtends(next, ls[1..]);
      if ls[1..] != [] {
        assert Join(ls) == ls[0] + Separator + Join(ls[1..]);
      }
    }
  }

  /** Onto an empty buffer, a run of lines yields the separator-joined lines once the
      leading empty lines are dropped: those are absorbed without a separator. */
  lemma {:induction false} AppendAllJoins(st: State, ls: seq<string>)
    requires st.buffer == ""
    ensures AppendAll(st, ls).buffer == Join(DropLeadingBlank(ls))
    decreases |ls|
  {
    if ls != [] {
      var next := Append(st, ls[0]);
      if ls[0] == "" {
        AppendAllJoins(next, ls[1..]);
      } else {
        AppendAllExtends(next, ls[1..]);
        if ls[1..] != [] {
          assert Join(ls) == ls[0] + Separator + Join(ls[1..]);
        }
      }
    }
  }

  /** So a run of non-empty lines is joined exactly, in order. */
  lemma NonEmptyLinesJoin(st: State, ls: seq<string>)
    requires st.buffer == ""
    requires forall i | 0 <= i < |ls| :: ls[i] != ""
    ensures AppendAll(st, ls).buffer == Join(ls)
  {
    AppendAllJoins(st, ls);
    assert DropLeadingBlank(ls) == ls;
  }

  /** Appending never touches lastTimestamp, and leaves the state Buffering as soon as
      one line was appended. */
  lemma {:induction false} AppendAllKeeps(st: State, ls: seq<string>)
    ensures AppendAll(st, ls).lastTimestamp == st.lastTimestamp
    ensures AppendAll(st, ls).buffering == (st.buffering || ls != [])
    decreases |ls|
  {
    if ls != [] {
      AppendAllKeeps(Append(st, ls[0]), ls[1..]);
    }
  }
}
