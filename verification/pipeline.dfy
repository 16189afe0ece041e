/** The per-line router (parseLine), end of input (finalize) and the output filter
    (sendParsedData), as a fold of a pure step over the input lines. */
module Pipeline {
  import opened Wrappers
  import opened Json
  import opened Text
  import opened Events
  import opened Server
  import opened Client
  import opened Aggregator

  /** What the engine takes from outside its own logic: the client pattern test, the
      server pattern match with its captures, JSON.parse (None when it throws) and
      `new Date(v).toISOString()`. */
  datatype Oracles = Oracles(
    isClient: string -> bool,
    matchServer: string -> Option<ServerCaptures>,
    parseJson: string -> Option<JsonObject>,
    toIso: JsonValue -> string)

  datatype LineKind = ClientLine | ServerLine(captures: ServerCaptures) | Continuation

  /** The switch of parseLine: the client pattern is tried first, then the server one. */
  function Classify(o: Oracles, line: string): (k: LineKind)
    ensures k.ClientLine? <==> o.isClient(line)
    ensures k.ServerLine? <==> !o.isClient(line) && o.matchServer(line).Some?
    ensures k.ServerLine? ==> o.matchServer(line) == Some(k.captures)
  {
    if o.isClient(line) then ClientLine
    else match o.matchServer(line)
      case Some(c) => ServerLine(c)
      case None => Continuation
  }

  /** A line is routed on its trimmed form. */
  function KindOf(o: Oracles, line: string): LineKind {
    Classify(o, Trim(line))
  }

  /** Trimming an already trimmed line changes nothing, so neither does its route. */
  lemma ClassifyTrimStable(o: Oracles, line: string)
    ensures Classify(o, Trim(Trim(line))) == KindOf(o, line)
  {
    TrimIdempotent(line);
  }

  /** parseLine on one line: the new state and the events handed to sendParsedData,
      in order. */
  function Step(o: Oracles, st: State, line: string): (r: (State, seq<Event>))
    ensures KindOf(o, line).Continuation? ==> r.1 == [] && r.0 == Append(st, Trim(line))
    ensures !KindOf(o, line).Continuation? ==>
      && !r.0.buffering && (Valid(st) ==> r.0.buffer == "")
      && |r.1| == (if st.buffering then 2 else 1)
      && (st.buffering ==> r.1[0] == Flush(st).1)
    ensures KindOf(o, line).ServerLine? ==>
      r.1[|r.1| - 1] == ParseServer(KindOf(o, line).captures) && r.0.lastTimestamp == st.lastTimestamp
    ensures KindOf(o, line).ClientLine? ==>
      (r.1[|r.1| - 1], r.0.lastTimestamp) == ParseClient(o.parseJson(Trim(line)), o.toIso, st.lastTimestamp)
  {
    var l := Trim(line);
    match Classify(o, l)
    case ClientLine =>
      var (idle, flushed) := FlushIfBuffering(st);
      var (e, last) := ParseClient(o.parseJson(l), o.toIso, idle.lastTimestamp);
      (idle.(lastTimestamp := last), flushed + [e])
    case ServerLine(c) =>
      var (idle, flushed) := FlushIfBuffering(st);
      (idle, flushed + [ParseServer(c)])
    case Continuation =>
      (Append(st, l), [])
  }

  /** Every step keeps Idle states free of buffered text. */
  lemma StepPreservesValid(o: Oracles, st: State, line: string)
    requires Valid(st)
    ensures Valid(Step(o, st, line).0)
  {
  }

  /** A flushed stack trace goes out strictly before the event of the line that ended
      it; while Idle only the line's own event goes out. */
  lemma FlushPrecedesOwnEvent(o: Oracles, st: State, line: string)
    requires !KindOf(o, line).Continuation?
    ensures var es := Step(o, st, line).1;
      && (st.buffering ==>
            && |es| == 2
            && es[0].eventType == Typed(Error) && es[0].logsource == NoSource
            && es[0].message == JString(st.buffer) && es[0].timestamp == st.lastTimestamp)
      && (!st.buffering ==> |es| == 1)
      && (es[|es| - 1].logsource != NoSource <==> (KindOf(o, line).ServerLine? || o.parseJson(Trim(line)).Some?))
  {
  }

  /** lastTimestamp moves only on a client line that parses and carries a truthy
      timestamp; server lines, continuation lines and flushes leave it alone. */
  lemma LastTimestampOnlyFromClient(o: Oracles, st: State, line: string)
    ensures var st' := Step(o, st, line).0;
      st'.lastTimestamp != st.lastTimestamp ==>
        && KindOf(o, line).ClientLine?
        && o.parseJson(Trim(line)).Some?
        && TruthyProp(o.parseJson(Trim(line)).value, "timestamp")
  {
    var l := Trim(line);
    if KindOf(o, line).ClientLine? {
      ClientTimestampOnlyWhenTruthy(o.parseJson(l), o.toIso, st.lastTimestamp);
    }
  }

  /** The fold of Step over the lines. */
  function RunFrom(o: Oracles, st: State, lines: seq<string>): (r: (State, seq<Event>))
    decreases |lines|
  {
    if |lines| == 0 then (st, [])
    else
      var first := Step(o, st, lines[0]);
      var rest := RunFrom(o, first.0, lines[1..]);
      (rest.0, first.1 + rest.1)
  }

  /** The whole input: the lines from the initial state, then finalize. Every event
      produced, before the filter. */
  function Run(o: Oracles, lines: seq<string>): seq<Event> {
    var (st, es) := RunFrom(o, Initial, lines);
    es + FlushIfBuffering(st).1
  }

  /** The fold keeps Idle states free of buffered text. */
  lemma {:induction false} RunFromPreservesValid(o: Oracles, st: State, lines: seq<string>)
    requires Valid(st)
    ensures Valid(RunFrom(o, st, lines).0)
    decreases |lines|
  {
    if |lines| > 0 {
      StepPreservesValid(o, st, lines[0]);
      RunFromPreservesValid(o, Step(o, st, lines[0]).0, lines[1..]);
    }
  }

  /** The `null` branch of getServerEventType is never taken: no event of a run has a
      `null` type. */
  lemma StepNeverNull(o: Oracles, st: State, line: string)
    ensures forall e | e in Step(o, st, line).1 :: !e.eventType.Null?
  {
    var k := KindOf(o, line);
    var es := Step(o, st, line).1;
    if !k.Continuation? {
      var own := es[|es| - 1];
      assert !own.eventType.Null? by {
        if k.ClientLine? {
          var parsed := o.parseJson(Trim(line));
          assert own == ParseClient(parsed, o.toIso, st.lastTimestamp).0;
        }
      }
      forall i | 0 <= i < |es|
        ensures !es[i].eventType.Null?
      {
        if i < |es| - 1 {
          assert es[i] == Flush(st).1;
        }
      }
    }
  }

  lemma {:induction false} RunFromNeverNull(o: Oracles, st: State, lines: seq<string>)
    ensures forall e | e in RunFrom(o, st, lines).1 :: !e.eventType.Null?
    decreases |lines|
  {
    if |lines| > 0 {
      var first := Step(o, st, lines[0]);
      RunFromNeverNull(o, first.0, lines[1..]);
      StepNeverNull(o, st, lines[0]);
      assert RunFrom(o, st, lines).1 == first.1 + RunFrom(o, first.0, lines[1..]).1;
    }
  }

  lemma RunNeverNull(o: Oracles, lines: seq<string>)
    ensures forall e | e in Run(o, lines) :: !e.eventType.Null?
  {
    RunFromNeverNull(o, Initial, lines);
  }

  predicate IsContinuation(o: Oracles, line: string) {
    KindOf(o, line).Continuation?
  }

  /** How many lines are client or server lines. */
  function CountRecognised(o: Oracles, lines: seq<string>): nat
    decreases |lines|
  {
    if |lines| == 0 then 0
    else (if IsContinuation(o, lines[0]) then 0 else 1) + CountRecognised(o, lines[1..])
  }

  /** How many maximal runs of continuation lines begin within `lines`, when the line
      before them was (`continuing`) or was not a continuation line. */
  function RunStarts(o: Oracles, lines: seq<string>, continuing: bool): nat
    decreases |lines|
  {
    if |lines| == 0 then 0
    else
      var c := IsContinuation(o, lines[0]);
      (if c && !continuing then 1 else 0) + RunStarts(o, lines[1..], c)
  }

  function Pending(st: State): nat {
    if st.buffering then 1 else 0
  }

  /** Events emitted plus a pending run still buffered at the end is the number of
      recognised lines, plus the runs begun, plus a run pending at the start. */
  lemma {:induction false} EventCountFrom(o: Oracles, st: State, lines: seq<string>)
    ensures var (st', es) := RunFrom(o, st, lines);
      |es| + Pending(st') == CountRecognised(o, lines) + RunStarts(o, lines, st.buffering) + Pending(st)
    decreases |lines|
  {
    if |lines| > 0 {
      EventCountFrom(o, Step(o, st, lines[0]).0, lines[1..]);
    }
  }

  /** Over a whole run, the number of events before filtering is the number of client
      and server lines plus the number of maximal runs of other lines. */
  lemma EventCount(o: Oracles, lines: seq<string>)
    ensures |Run(o, lines)| == CountRecognised(o, lines) + RunStarts(o, lines, false)
  {
    EventCountFrom(o, Initial, lines);
  }

  /** A run made only of continuation lines emits nothing and appends their trimmed
      forms; whatever follows is processed from the state that leaves. */
  lemma {:induction false} ContinuationsAppend(o: Oracles, st: State, run: seq<string>, rest: seq<string>)
    requires forall i | 0 <= i < |run| :: IsContinuation(o, run[i])
    ensures RunFrom(o, st, run + rest) == RunFrom(o, AppendAll(st, TrimAll(run)), rest)
    decreases |run|
  {
    if |run| > 0 {
      var next := Append(st, Trim(run[0]));
      assert (run + rest)[0] == run[0] && (run + rest)[1..] == run[1..] + rest;
      ContinuationStep(o, st, run + rest);
      assert RunFrom(o, st, run + rest) == RunFrom(o, next, run[1..] + rest);
      ContinuationsAppend(o, next, run[1..], rest);
      var trimmed := TrimAll(run);
      assert trimmed[0] == Trim(run[0]) && trimmed[1..] == TrimAll(run[1..]);
      assert AppendAll(st, trimmed) == AppendAll(next, trimmed[1..]);
    } else {
      assert run + rest == rest;
    }
  }

  /** A continuation line at the head of the input only appends. */
  lemma ContinuationStep(o: Oracles, st: State, lines: seq<string>)
    requires |lines| > 0 && IsContinuation(o, lines[0])
    ensures RunFrom(o, st, lines) == RunFrom(o, Append(st, Trim(lines[0])), lines[1..])
  {
    var next := Append(st, Trim(lines[0]));
    assert Step(o, st, lines[0]) == (next, []);
    RunFromCons(o, st, lines);
    var after := RunFrom(o, next, lines[1..]);
    assert RunFrom(o, st, lines).1 == [] + after.1 == after.1;
  }

  /** One unfolding of the fold. */
  lemma RunFromCons(o: Oracles, st: State, lines: seq<string>)
    requires |lines| > 0
    ensures RunFrom(o, st, lines).0 == RunFrom(o, Step(o, st, lines[0]).0, lines[1..]).0
    ensures RunFrom(o, st, lines).1 == Step(o, st, lines[0]).1 + RunFrom(o, Step(o, st, lines[0]).0, lines[1..]).1
  {
  }

  function TrimAll(lines: seq<string>): (r: seq<string>)
    ensures |r| == |lines| && forall i | 0 <= i < |lines| :: r[i] == Trim(lines[i])
  {
    seq(|lines|, i requires 0 <= i < |lines| => Trim(lines[i]))
  }

  /** Continuation lines arriving while Idle, then a client or server line: one ERROR
      event whose message is the trimmed lines joined (leading empty ones absorbed) and
      whose timestamp is lastTimestamp as it stood, then the line's own event. */
  lemma ContinuationRunFlushed(o: Oracles, st: State, run: seq<string>, line: string)
    requires !st.buffering && Valid(st) && |run| > 0
    requires forall i | 0 <= i < |run| :: IsContinuation(o, run[i])
    requires !IsContinuation(o, line)
    ensures var es := RunFrom(o, st, run + [line]).1;
      && |es| == 2
      && es[0].eventType == Typed(Error)
      && es[0].message == JString(Join(DropLeadingBlank(TrimAll(run))))
      && es[0].timestamp == st.lastTimestamp
  {
    ContinuationsAppend(o, st, run, [line]);
    var mid := AppendAll(st, TrimAll(run));
    AppendAllJoins(st, TrimAll(run));
    AppendAllKeeps(st, TrimAll(run));
    assert mid.buffering && mid.lastTimestamp == st.lastTimestamp;
    RunFromCons(o, mid, [line]);
    assert [line][1..] == [];
    var step := Step(o, mid, line);
    assert RunFrom(o, step.0, []).1 == [];
    assert RunFrom(o, mid, [line]).1 == step.1 + [];
    assert |step.1| == 2 && step.1[0] == Flush(mid).1;
  }

  /** A trailing run of continuation lines is emitted exactly once, by finalize. */
  lemma TrailingRunFlushedOnce(o: Oracles, lines: seq<string>)
    requires |lines| > 0
    requires forall i | 0 <= i < |lines| :: IsContinuation(o, lines[i])
    ensures |Run(o, lines)| == 1
    ensures Run(o, lines)[0].eventType == Typed(Error)
    ensures Run(o, lines)[0].message == JString(Join(DropLeadingBlank(TrimAll(lines))))
  {
    ContinuationsAppend(o, Initial, lines, []);
    assert lines + [] == lines;
    AppendAllJoins(Initial, TrimAll(lines));
    AppendAllKeeps(Initial, TrimAll(lines));
  }

  /** The filter argument: `argv[3] ? argv[3].toUpperCase() : null`. */
  function MakeFilter(arg: Option<string>): (f: Option<string>)
    ensures f.None? <==> arg.None? || arg.value == ""
    ensures f.Some? ==> f.value == ToUpper(arg.value) && f.value != ""
  {
    if arg.Some? && arg.value != "" then Some(ToUpper(arg.value)) else None
  }

  /** sendParsedData's test: no filter, or `data.type === filter`. */
  predicate Passes(filter: Option<string>, e: Event) {
    filter.None? || e.eventType.Value() == filter
  }

  /** An event passes the filter made from an argument that upper-cases to a type name
      exactly when it has that type: the comparison ignores the argument's case, and
      records with an empty or null type never pass. */
  lemma FilterSelectsType(arg: string, s: Severity, e: Event)
    requires ToUpper(arg) == s.Name()
    ensures Passes(MakeFilter(Some(arg)), e) <==> e.eventType == Typed(s)
  {
    NamesIdentifyTypes(s, s);
    if Passes(MakeFilter(Some(arg)), e) {
      assert e.eventType.Typed?;
      NamesIdentifyTypes(s, e.eventType.severity);
    }
  }

  /** Upper-casing is not limited to ASCII: `ınfo` (dotless i, U+0131) selects INFO
      records and `warnıng` selects WARNING ones. */
  lemma DotlessIFiltersSelectTypes(e: Event)
    ensures Passes(MakeFilter(Some("\U{0131}nfo")), e) <==> e.eventType == Typed(Info)
    ensures Passes(MakeFilter(Some("warn\U{0131}ng")), e) <==> e.eventType == Typed(Warning)
  {
    DotlessInfo();
    DotlessWarning();
    FilterSelectsType("\U{0131}nfo", Info, e);
    FilterSelectsType("warn\U{0131}ng", Warning, e);
  }

  /** getNewInstance leaves `type` as '', which equals no filter: the record of an
      unparseable client line reaches the sink only when there is no filter. */
  lemma FreshRecordOnlyUnfiltered(filter: Option<string>)
    requires filter.Some? ==> filter.value != ""
    ensures Passes(filter, NewInstance()) <==> filter.None?
  {
  }

  /** The events that reach the sink: those that pass, in their original order. */
  function Select(filter: Option<string>, es: seq<Event>): (r: seq<Event>)
    ensures forall e :: e in r <==> e in es && Passes(filter, e)
    ensures |r| <= |es|
    ensures filter.None? ==> r == es
    decreases |es|
  {
    if |es| == 0 then []
    else
      var rest := Select(filter, es[1..]);
      assert forall e | e in es :: e == es[0] || e in es[1..];
      if Passes(filter, es[0]) then [es[0]] + rest else rest
  }

  /** Filtering two pieces is filtering each: the sink sees the passing events in order. */
  lemma {:induction false} SelectSplits(filter: Option<string>, xs: seq<Event>, ys: seq<Event>)
    ensures Select(filter, xs + ys) == Select(filter, xs) + Select(filter, ys)
    decreases |xs|
  {
    if |xs| > 0 {
      var zs := xs + ys;
      assert zs[0] == xs[0] && zs[1..] == xs[1..] + ys;
      SelectSplits(filter, xs[1..], ys);
      SelectCons(filter, zs);
      SelectCons(filter, xs);
    } else {
      assert xs + ys == ys;
    }
  }

  /** One unfolding of the filter. */
  lemma SelectCons(filter: Option<string>, es: seq<Event>)
    requires |es| > 0
    ensures Select(filter, es) == (if Passes(filter, es[0]) then [es[0]] else []) + Select(filter, es[1..])
  {
  }

  /** What the sink receives, step by step as the engine sends it: each step's events
      filtered as they are sent, then finalize's. */
  function EmitFrom(o: Oracles, filter: Option<string>, st: State, lines: seq<string>): (r: (State, seq<Event>))
    decreases |lines|
  {
    if |lines| == 0 then (st, [])
    else
      var first := Step(o, st, lines[0]);
      var rest := EmitFrom(o, filter, first.0, lines[1..]);
      (rest.0, Select(filter, first.1) + rest.1)
  }

  function Emitted(o: Oracles, filter: Option<string>, lines: seq<string>): seq<Event> {
    var (st, out) := EmitFrom(o, filter, Initial, lines);
    out + Select(filter, FlushIfBuffering(st).1)
  }

  /** Filtering at every send is filtering the whole stream once: order is kept and no
      event is dropped or added beyond the filter's verdict. */
  lemma {:induction false} EmitFromIsFilteredRun(o: Oracles, filter: Option<string>, st: State, lines: seq<string>)
    ensures EmitFrom(o, filter, st, lines).0 == RunFrom(o, st, lines).0
    ensures EmitFrom(o, filter, st, lines).1 == Select(filter, RunFrom(o, st, lines).1)
    decreases |lines|
  {
    if |lines| > 0 {
      var (st1, es1) := Step(o, st, lines[0]);
      EmitFromIsFilteredRun(o, filter, st1, lines[1..]);
      SelectSplits(filter, es1, RunFrom(o, st1, lines[1..]).1);
    }
  }

  lemma EmittedIsFilteredRun(o: Oracles, filter: Option<string>, lines: seq<string>)
    ensures Emitted(o, filter, lines) == Select(filter, Run(o, lines))
  {
    EmitFromIsFilteredRun(o, filter, Initial, lines);
    var (st, es) := RunFrom(o, Initial, lines);
    SelectSplits(filter, es, FlushIfBuffering(st).1);
  }
}
