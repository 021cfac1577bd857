/**
 * Processing of an OpenAI-compatible upstream response: the stream handler
 * (line splitting, the producer's per-line filter and rewrite, the
 * aggregation of the streamed text, the consumer's frame trimming) and the
 * non-stream handler (usage recount, sensitive-word collection, the error
 * payload short-circuit). The goroutine and channel hand-off of the stream
 * handler is modelled as one sequential pass: every frame the producer
 * pushes is rendered, in order.
 */
module OpenaiRelay {
  import opened Wrappers
  import opened Strings
  import opened Dto
  import opened Sensitive

  // ---------------------------------------------------------------------
  // The scanner's split function

  /** What the split function answers: how many bytes to consume and the token, if any. */
  datatype SplitStep = SplitStep(advance: nat, token: Option<string>)

  /**
   * The custom split function: a token ends at the first newline, which is
   * consumed but not returned; at end of input the unterminated remainder
   * is a token; otherwise more data is requested.
   */
  function SplitLine(data: string, atEOF: bool): (r: SplitStep)
    ensures r.advance <= |data|
    ensures r.token.None? ==> r.advance == 0
    ensures r.token.Some? ==> '\n' !in r.token.value && HasPrefix(data, r.token.value) && r.advance > 0
    ensures '\n' in data ==> r.token.Some? && r.advance == |r.token.value| + 1 && data[|r.token.value|] == '\n'
    ensures '\n' !in data ==> (r.token.Some? <==> atEOF && data != [])
    ensures '\n' !in data && r.token.Some? ==> r.token.value == data && r.advance == |data|
  {
    if atEOF && |data| == 0 then SplitStep(0, None)
    else if '\n' in data then
      var t := BeforeFirst(data, '\n');
      assert |t| < |data|;
      SplitStep(|t| + 1, Some(t))
    else if atEOF then SplitStep(|data|, Some(data))
    else SplitStep(0, None)
  }

  /**
   * A token the split function returns before end of input is the one it
   * returns on the whole body: reading the body in chunks yields the same
   * tokens as reading it at once.
   */
  lemma SplitIsChunkIndependent(data: string, body: string)
    requires HasPrefix(body, data)
    requires SplitLine(data, false).token.Some?
    ensures SplitLine(body, true) == SplitLine(data, false)
  {
    assert '\n' in data;
    assert body == data + body[|data|..];
    BeforeFirstOfExtension(data, body[|data|..], '\n');
  }

  /** The tokens the scanner yields for a whole response body. */
  function Tokens(body: string): (ts: seq<string>)
    ensures forall i :: 0 <= i < |ts| ==> '\n' !in ts[i]
    ensures body != [] ==> ts != []
    decreases |body|
  {
    var step := SplitLine(body, true);
    if step.token.None? then [] else [step.token.value] + Tokens(body[step.advance..])
  }

  /** The body with one trailing newline removed, if it has one. */
  function DropFinalNewline(s: string): string
  {
    if HasSuffix(s, "\n") then s[..|s| - 1] else s
  }

  /** Dropping a final newline only touches the last, non-empty part of a concatenation. */
  lemma DropFinalNewlineAppend(a: string, b: string)
    requires b != []
    ensures DropFinalNewline(a + b) == a + DropFinalNewline(b)
  {
    assert (a + b)[|a + b| - 1] == b[|b| - 1];
    if HasSuffix(b, "\n") {
      assert (a + b)[..|a + b| - 1] == a + b[..|b| - 1];
    }
  }

  /** The tokens joined with newlines give back the body, minus at most one trailing newline. */
  lemma {:induction false} TokensJoin(body: string)
    ensures Join(Tokens(body), "\n") == DropFinalNewline(body)
    decreases |body|, 1
  {
    if body != [] {
      if '\n' in body {
        TokensJoinLine(body);
      } else {
        assert Tokens(body[|body|..]) == [];
        assert Tokens(body) == [body];
        assert body[|body| - 1] != '\n' by { assert body[|body| - 1] in body; }
      }
    }
  }

  /** The inductive step of TokensJoin: a body with a newline is its first line, the newline and the rest. */
  lemma {:induction false} TokensJoinLine(body: string)
    requires '\n' in body
    ensures Join(Tokens(body), "\n") == DropFinalNewline(body)
    decreases |body|, 0
  {
    var t, rest := FirstLine(body);
    if rest == [] {
      assert Tokens(rest) == [];
      assert Join(Tokens(body), "\n") == t;
      assert DropFinalNewline(body) == t by { assert body[..|body| - 1] == t; }
    } else {
      TokensJoin(rest);
      JoinCons(t, Tokens(rest), "\n");
      DropFinalNewlineAppend(t + "\n", rest);
      assert Join(Tokens(body), "\n") == (t + "\n") + Join(Tokens(rest), "\n");
    }
  }

  /** A body with a newline is its first token, the newline and the rest, from which the remaining tokens come. */
  lemma FirstLine(body: string) returns (t: string, rest: string)
    requires '\n' in body
    ensures body == (t + "\n") + rest && |rest| < |body|
    ensures Tokens(body) == [t] + Tokens(rest)
  {
    var step := SplitLine(body, true);
    t := step.token.value;
    rest := body[|t| + 1..];
    assert body[..|t|] == t;
    assert body == body[..|t|] + [body[|t|]] + rest;
  }

  // ---------------------------------------------------------------------
  // The producer

  const DoneFrame: string := "data: [DONE]"
  const RoleNull: string := "\"role\":null"
  const RoleAssistant: string := "\"role\":\"assistant\""

  /** A line the producer keeps: at least six bytes, starting with `data: ` or `[DONE]`. */
  predicate IsEventLine(line: string)
  {
    |line| >= 6 && (line[..6] == "data: " || line[..6] == "[DONE]")
  }

  /** Every `"role":null` rewritten to `"role":"assistant"`. */
  function FixRole(s: string): string
  {
    ReplaceAll(s, RoleNull, RoleAssistant)
  }

  datatype StreamConfig = StreamConfig(checkSensitive: bool, stopOnSensitive: bool, configured: seq<string>)

  /** How the producer's loop ended: input exhausted, stopped on a sensitive hit, or a runtime panic. */
  datatype End = Exhausted | Stopped | Panicked

  /** The frames pushed to the consumer, the payloads kept for aggregation, and how the loop ended. */
  datatype Produced = Produced(frames: seq<string>, items: seq<string>, end: End)

  /** The redaction the producer applies to a kept line (none unless sensitive checking is on). */
  function LineRedaction(cfg: StreamConfig, line: string, hits: seq<Hit>): Option<Redaction>
  {
    if cfg.checkSensitive then Redact(cfg.configured, line, hits) else Some(Redaction(false, [], line))
  }

  /** The payload of a frame joins the aggregation unless it starts with `[DONE]`. */
  function ItemOf(payload: string): seq<string>
  {
    if HasPrefix(payload, "[DONE]") then [] else [payload]
  }

  /**
   * What the producer does with one scanned line: drop it, or push frames
   * and keep payloads, then go on (`end` is None) or end the loop.
   */
  datatype LineStep = Skip | Emit(frames: seq<string>, items: seq<string>, end: Option<End>)

  /**
   * One line: a line that is not an event line is skipped; a kept line is
   * redacted (when checking is on), role-rewritten and pushed; a frame
   * shorter than six bytes makes `data[6:]` panic after it was pushed; a
   * flagged line with stop-on-sensitive pushes a closing `data: [DONE]`.
   */
  function HandleLine(cfg: StreamConfig, line: string, hits: seq<Hit>): (r: LineStep)
    ensures r.Skip? <==> !IsEventLine(line)
    ensures r.Emit? && r.end != Some(Panicked) ==> 0 < |r.frames|
    ensures r.Emit? ==> |r.items| <= 1 && |r.items| <= |r.frames|
    ensures r.Emit? ==> forall i :: 0 <= i < |r.items| ==> !HasPrefix(r.items[i], "[DONE]")
    ensures r.Emit? && r.end == Some(Stopped) ==> r.frames[|r.frames| - 1] == DoneFrame
    ensures r.Emit? ==> r.end != Some(Exhausted)
  {
    if !IsEventLine(line) then Skip
    else match LineRedaction(cfg, line, hits)
      case None => Emit([], [], Some(Panicked))
      case Some(rd) =>
        var frame := FixRole(rd.text);
        if |frame| < 6 then Emit([frame], [], Some(Panicked))
        else if rd.sensitive && cfg.stopOnSensitive then Emit([frame, DoneFrame], ItemOf(frame[6..]), Some(Stopped))
        else Emit([frame], ItemOf(frame[6..]), None)
  }

  /** The producer's loop over the scanned lines; `hits[i]` is what the matcher reports on line i. */
  function Produce(cfg: StreamConfig, lines: seq<string>, hits: seq<seq<Hit>>): (p: Produced)
    requires |hits| == |lines|
    ensures |p.items| <= |p.frames|
    ensures forall i :: 0 <= i < |p.items| ==> !HasPrefix(p.items[i], "[DONE]")
    ensures p.end == Stopped ==> |p.frames| > 0 && p.frames[|p.frames| - 1] == DoneFrame
    decreases |lines|
  {
    if lines == [] then Produced([], [], Exhausted)
    else match HandleLine(cfg, lines[0], hits[0])
      case Skip => Produce(cfg, lines[1..], hits[1..])
      case Emit(f, it, Some(e)) => Produced(f, it, e)
      case Emit(f, it, None) => Then(f, it, Produce(cfg, lines[1..], hits[1..]))
  }

  /** What was produced so far followed by what the remaining lines produce. */
  function Then(frames: seq<string>, items: seq<string>, p: Produced): (r: Produced)
    ensures r.end == p.end && |r.frames| == |frames| + |p.frames| && |r.items| == |items| + |p.items|
  {
    Produced(frames + p.frames, items + p.items, p.end)
  }

  lemma ThenAssoc(frames0: seq<string>, items0: seq<string>, frames: seq<string>, items: seq<string>, p: Produced)
    ensures Then(frames0 + frames, items0 + items, p) == Then(frames0, items0, Then(frames, items, p))
  {
    assert (frames0 + frames) + p.frames == frames0 + (frames + p.frames);
    assert (items0 + items) + p.items == items0 + (items + p.items);
  }

  /** Producing from line i on is handling line i and then, unless it ended the loop, the lines after it. */
  lemma ProduceFrom(cfg: StreamConfig, lines: seq<string>, hits: seq<seq<Hit>>, i: nat)
    requires |hits| == |lines| && i < |lines|
    ensures Produce(cfg, lines[i..], hits[i..]) ==
      match HandleLine(cfg, lines[i], hits[i])
      case Skip => Produce(cfg, lines[i + 1..], hits[i + 1..])
      case Emit(f, it, Some(e)) => Produced(f, it, e)
      case Emit(f, it, None) => Then(f, it, Produce(cfg, lines[i + 1..], hits[i + 1..]))
  {
    assert lines[i..][0] == lines[i] && hits[i..][0] == hits[i];
    assert lines[i..][1..] == lines[i + 1..] && hits[i..][1..] == hits[i + 1..];
  }

  /** The body of the producer's loop for one scanned line. */
  method ProduceLine(cfg: StreamConfig, line: string, hits: seq<Hit>) returns (step: LineStep)
    requires MatcherHits(Dictionary(cfg.configured), Lower(line), hits, false)
    ensures step == HandleLine(cfg, line, hits)
  {
    var data := line;
    if |data| < 6 || (data[..6] != "data: " && data[..6] != "[DONE]") {
      return Skip;
    }
    var sensitive := false;
    if cfg.checkSensitive {
      var r := SensitiveWordReplace(cfg.configured, data, hits, false);
      if r.None? {
        return Emit([], [], Some(Panicked));
      }
      sensitive, data := r.value.sensitive, r.value.text;
    }
    data := FixRole(data);
    var frames := [data];
    if |data| < 6 {
      return Emit(frames, [], Some(Panicked));
    }
    data := data[6..];
    var items := [];
    if !HasPrefix(data, "[DONE]") {
      items := [data];
    }
    if sensitive && cfg.stopOnSensitive {
      return Emit(frames + [DoneFrame], items, Some(Stopped));
    }
    return Emit(frames, items, None);
  }

  /**
   * The producer goroutine's loop, run to completion over the scanned lines:
   * its frames are what the consumer receives, its items what the
   * aggregation decodes.
   */
  method StreamProducer(cfg: StreamConfig, lines: seq<string>, hits: seq<seq<Hit>>)
    returns (frames: seq<string>, items: seq<string>, end: End)
    requires |hits| == |lines|
    requires forall i :: 0 <= i < |lines| ==> MatcherHits(Dictionary(cfg.configured), Lower(lines[i]), hits[i], false)
    ensures Produced(frames, items, end) == Produce(cfg, lines, hits)
  {
    frames, items := [], [];
    var i := 0;
    while i < |lines|
      invariant 0 <= i <= |lines|
      invariant Produce(cfg, lines, hits) == Then(frames, items, Produce(cfg, lines[i..], hits[i..]))
    {
      ProduceFrom(cfg, lines, hits, i);
      var step := ProduceLine(cfg, lines[i], hits[i]);
      if step.Emit? {
        ThenAssoc(frames, items, step.frames, step.items, Produce(cfg, lines[i + 1..], hits[i + 1..]));
        frames, items := frames + step.frames, items + step.items;
        if step.end.Some? {
          return frames, items, step.end.value;
        }
      }
      i := i + 1;
    }
    assert lines[i..] == [];
    return frames, items, Exhausted;
  }

  // ---------------------------------------------------------------------
  // The producer without sensitive checking, against a direct definition

  /** The lines the producer keeps, in order. */
  function EventLines(lines: seq<string>): (r: seq<string>)
    ensures |r| <= |lines|
    ensures forall i :: 0 <= i < |r| ==> IsEventLine(r[i])
    decreases |lines|
  {
    if lines == [] then []
    else if IsEventLine(lines[0]) then [lines[0]] + EventLines(lines[1..])
    else EventLines(lines[1..])
  }

  function FixAll(lines: seq<string>): (r: seq<string>)
    ensures |r| == |lines|
  {
    seq(|lines|, i requires 0 <= i < |lines| => FixRole(lines[i]))
  }

  /** The aggregation payloads of a list of event frames. */
  function Payloads(frames: seq<string>): seq<string>
    requires forall i :: 0 <= i < |frames| ==> IsEventLine(frames[i])
    decreases |frames|
  {
    if frames == [] then [] else assert IsEventLine(frames[0]); ItemOf(frames[0][6..]) + Payloads(frames[1..])
  }

  /** A kept line keeps its six-byte prefix through the role rewrite. */
  lemma FixRoleKeepsEvent(line: string)
    requires IsEventLine(line)
    ensures IsEventLine(FixRole(line))
    ensures |FixRole(line)| >= |line|
    ensures FixRole(line)[..6] == line[..6]
  {
    ReplaceAllGrows(line, RoleNull, RoleAssistant);
    ReplaceAllKeepsPrefix(line, line[..6], RoleNull, RoleAssistant);
  }

  /**
   * Without sensitive checking, the producer forwards exactly the kept lines,
   * in input order, each with its roles rewritten; it aggregates their
   * payloads, never panics and never stops early. Every frame it forwards is
   * itself a well-formed event line.
   */
  lemma {:induction false} ProduceWithoutChecking(cfg: StreamConfig, lines: seq<string>, hits: seq<seq<Hit>>)
    requires |hits| == |lines| && !cfg.checkSensitive
    ensures forall i :: 0 <= i < |FixAll(EventLines(lines))| ==> IsEventLine(FixAll(EventLines(lines))[i])
    ensures Produce(cfg, lines, hits) == Produced(FixAll(EventLines(lines)), Payloads(FixAll(EventLines(lines))), Exhausted)
    decreases |lines|
  {
    FixedEventLines(EventLines(lines));
    if lines != [] {
      ProduceWithoutChecking(cfg, lines[1..], hits[1..]);
      if IsEventLine(lines[0]) {
        ProduceEventHead(cfg, lines, hits);
      }
    }
  }

  /** The role rewrite of event lines gives event lines. */
  lemma FixedEventLines(events: seq<string>)
    requires forall i :: 0 <= i < |events| ==> IsEventLine(events[i])
    ensures forall i :: 0 <= i < |FixAll(events)| ==> IsEventLine(FixAll(events)[i])
  {
    forall i | 0 <= i < |FixAll(events)| ensures IsEventLine(FixAll(events)[i]) {
      FixRoleKeepsEvent(events[i]);
    }
  }

  /** The step of ProduceWithoutChecking for a first line that is kept: its frame and payload come first. */
  lemma ProduceEventHead(cfg: StreamConfig, lines: seq<string>, hits: seq<seq<Hit>>)
    requires |hits| == |lines| && lines != [] && !cfg.checkSensitive && IsEventLine(lines[0])
    requires forall i :: 0 <= i < |FixAll(EventLines(lines))| ==> IsEventLine(FixAll(EventLines(lines))[i])
    requires forall i :: 0 <= i < |FixAll(EventLines(lines[1..]))| ==> IsEventLine(FixAll(EventLines(lines[1..]))[i])
    requires Produce(cfg, lines[1..], hits[1..])
             == Produced(FixAll(EventLines(lines[1..])), Payloads(FixAll(EventLines(lines[1..]))), Exhausted)
    ensures Produce(cfg, lines, hits) == Produced(FixAll(EventLines(lines)), Payloads(FixAll(EventLines(lines))), Exhausted)
  {
    var frame := FixRole(lines[0]);
    UncheckedEventLine(cfg, lines[0], hits[0]);
    FixAllEventCons(lines);
    var fixed := FixAll(EventLines(lines));
    var restFixed := FixAll(EventLines(lines[1..]));
    assert fixed[1..] == restFixed;
    assert Payloads(fixed) == ItemOf(frame[6..]) + Payloads(restFixed);
  }

  /** Without checking, a kept line is pushed role-rewritten, and the loop goes on. */
  lemma UncheckedEventLine(cfg: StreamConfig, line: string, hits: seq<Hit>)
    requires !cfg.checkSensitive && IsEventLine(line)
    ensures |FixRole(line)| >= 6
    ensures HandleLine(cfg, line, hits) == Emit([FixRole(line)], ItemOf(FixRole(line)[6..]), None)
  {
    FixRoleKeepsEvent(line);
  }

  /** A kept first line comes first among the rewritten kept lines. */
  lemma FixAllEventCons(lines: seq<string>)
    requires lines != [] && IsEventLine(lines[0])
    ensures FixAll(EventLines(lines)) == [FixRole(lines[0])] + FixAll(EventLines(lines[1..]))
  {
    assert EventLines(lines) == [lines[0]] + EventLines(lines[1..]);
  }

  /** A frame that starts a `[DONE]` line carries an empty payload, which joins the aggregation. */
  lemma BareDoneLineIsAggregated()
    ensures Produce(StreamConfig(false, false, []), ["data: {}", "[DONE]"], [[], []]).items == ["{}", ""]
    ensures StreamJson(Produce(StreamConfig(false, false, []), ["data: {}", "[DONE]"], [[], []]).items) == "[{},]"
  {
    var cfg := StreamConfig(false, false, []);
    var lines := ["data: {}", "[DONE]"];
    var hits: seq<seq<Hit>> := [[], []];
    ProduceWithoutChecking(cfg, lines, hits);
    assert lines[1..] == ["[DONE]"];
    assert lines[1..][1..] == [];
    assert EventLines(lines) == lines;
    ExampleLinesKeepRoles();
    var fixed := FixAll(lines);
    assert fixed == lines;
    assert fixed[1..] == ["[DONE]"];
    assert fixed[1..][1..] == [];
    assert "data: {}"[6..] == "{}";
    assert "[DONE]"[6..] == "";
    assert Join(["{}", ""], ",") == "{}" + "," + "";
  }

  /** The two lines of the `[DONE]` example hold no `"role":null`, so the rewrite leaves them as they are. */
  lemma ExampleLinesKeepRoles()
    ensures FixRole("data: {}") == "data: {}" && FixRole("[DONE]") == "[DONE]"
  {
    assert !Contains("data: {}", RoleNull) by {
      forall i: nat ensures !OccursAt("data: {}", RoleNull, i) {
      }
    }
    assert !Contains("[DONE]", RoleNull);
    ReplaceAllAbsent("data: {}", RoleNull, RoleAssistant);
    ReplaceAllAbsent("[DONE]", RoleNull, RoleAssistant);
  }

  /**
   * The role rewrite is a single left-to-right pass: a `"role":null` can
   * appear again where a replacement meets the text after it, so a forwarded
   * frame may still contain one.
   */
  lemma RoleNullCanReappear()
    ensures FixRole("\"role\":nullrole\":null") == "\"role\":\"assistant\"role\":null"
    ensures OccursAt(FixRole("\"role\":nullrole\":null"), RoleNull, 17)
  {
    var s := "\"role\":nullrole\":null";
    assert s[..11] == RoleNull;
    var t := s[11..];
    assert t == "role\":null";
    forall k: nat | k <= |t| ensures ReplaceAll(t[k..], RoleNull, RoleAssistant) == t[k..] {
      ReplaceAllAbsent(t[k..], RoleNull, RoleAssistant);
    }
    assert FixRole(s) == RoleAssistant + ReplaceAll(t, RoleNull, RoleAssistant);
  }

  // ---------------------------------------------------------------------
  // Aggregation of the streamed text

  /** The JSON array text the producer decodes: the items joined with commas inside brackets. */
  function StreamJson(items: seq<string>): string
  {
    "[" + Join(items, ",") + "]"
  }

  /**
   * The decoded stream, frame by frame, choice by choice: the `Delta.Content`
   * of each choice for chat completions, its `Text` for completions.
   */
  type DecodedStream = seq<seq<string>>

  function ConcatChoices(choices: seq<string>): string
    decreases |choices|
  {
    if choices == [] then [] else choices[0] + ConcatChoices(choices[1..])
  }

  /** The text over all frames and choices, in order. */
  function Flatten(frames: DecodedStream): string
    decreases |frames|
  {
    if frames == [] then [] else ConcatChoices(frames[0]) + Flatten(frames[1..])
  }

  lemma {:induction false} ConcatChoicesAppend(a: seq<string>, b: seq<string>)
    ensures ConcatChoices(a + b) == ConcatChoices(a) + ConcatChoices(b)
    decreases |a|
  {
    if a != [] {
      assert (a + b)[0] == a[0];
      assert (a + b)[1..] == a[1..] + b;
      ConcatChoicesAppend(a[1..], b);
      assert a[0] + (ConcatChoices(a[1..]) + ConcatChoices(b)) == (a[0] + ConcatChoices(a[1..])) + ConcatChoices(b);
    } else {
      assert a + b == b;
    }
  }

  /** Aggregation is compositional: the text of two consecutive runs of frames is the two texts in order. */
  lemma {:induction false} FlattenAppend(a: DecodedStream, b: DecodedStream)
    ensures Flatten(a + b) == Flatten(a) + Flatten(b)
    decreases |a|
  {
    if a != [] {
      assert (a + b)[0] == a[0];
      assert (a + b)[1..] == a[1..] + b;
      FlattenAppend(a[1..], b);
      var h := ConcatChoices(a[0]);
      assert h + (Flatten(a[1..]) + Flatten(b)) == (h + Flatten(a[1..])) + Flatten(b);
    } else {
      assert a + b == b;
    }
  }

  /** The aggregation's outcome: the text, and whether the stop signal is sent to the consumer. */
  datatype Aggregate = Aggregate(text: string, stopSignalled: bool)

  /** Only chat completions and completions are aggregated. */
  predicate IsAggregated(mode: RelayMode)
  {
    mode == ChatCompletions || mode == Completions
  }

  /**
   * Whether the aggregation never signals the consumer to stop: an
   * aggregated mode whose collected items fail to decode.
   */
  predicate StreamHangs(mode: RelayMode, items: seq<string>, decode: (RelayMode, string) -> Option<DecodedStream>)
  {
    IsAggregated(mode) && decode(mode, StreamJson(items)).None?
  }

  /** The text the aggregation yields: the decoded frames' choices, or nothing when the mode is not aggregated or decoding fails. */
  function StreamText(mode: RelayMode, items: seq<string>, decode: (RelayMode, string) -> Option<DecodedStream>): string
  {
    if IsAggregated(mode) && decode(mode, StreamJson(items)).Some? then Flatten(decode(mode, StreamJson(items)).value) else ""
  }

  /**
   * The aggregation after the producer's loop over its items; `decode` is
   * the JSON decoder for the mode's stream frames. When decoding fails the
   * goroutine returns without signalling the consumer to stop.
   */
  method AggregateStream(mode: RelayMode, items: seq<string>, decode: (RelayMode, string) -> Option<DecodedStream>)
    returns (r: Aggregate)
    ensures r.stopSignalled <==> !StreamHangs(mode, items, decode)
    ensures r.text == StreamText(mode, items, decode)
  {
    var text := "";
    if IsAggregated(mode) {
      var decoded := decode(mode, StreamJson(items));
      if decoded.None? {
        return Aggregate("", false);
      }
      var frames := decoded.value;
      for i := 0 to |frames|
        invariant text == Flatten(frames[..i])
      {
        ghost var before := frames[..i];
        var choices := frames[i];
        for j := 0 to |choices|
          invariant text == Flatten(before) + ConcatChoices(choices[..j])
        {
          ConcatChoicesAppend(choices[..j], [choices[j]]);
          assert choices[..j + 1] == choices[..j] + [choices[j]];
          text := text + choices[j];
        }
        assert choices[..|choices|] == choices;
        FlattenAppend(before, [choices]);
        assert frames[..i + 1] == before + [choices];
      }
      assert frames[..|frames|] == frames;
    }
    return Aggregate(text, true);
  }

  /** Two chat frames whose deltas are "Hi" and " there" aggregate to "Hi there". */
  lemma AggregatesDeltas()
    ensures Flatten([["Hi"], [" there"]]) == "Hi there"
  {
    var frames: DecodedStream := [["Hi"], [" there"]];
    assert frames[1..] == [[" there"]];
    assert frames[1..][1..] == [];
    assert ["Hi"][1..] == [];
    assert [" there"][1..] == [];
  }

  // ---------------------------------------------------------------------
  // The consumer

  /** A frame starting `data: [DONE]` is cut to those twelve bytes; then one trailing `\r` is dropped. */
  function RenderFrame(data: string): (r: string)
    ensures HasPrefix(data, DoneFrame) ==> r == DoneFrame
    ensures !HasPrefix(data, DoneFrame) ==> (r == data && !HasSuffix(data, "\r")) || r + "\r" == data
  {
    TrimSuffix(if HasPrefix(data, DoneFrame) then data[..12] else data, "\r")
  }

  /** The consumer renders the frames it receives, one event each, in order. */
  method StreamConsumer(frames: seq<string>) returns (rendered: seq<string>)
    ensures |rendered| == |frames|
    ensures forall i :: 0 <= i < |frames| ==> rendered[i] == RenderFrame(frames[i])
  {
    rendered := [];
    for i := 0 to |frames|
      invariant |rendered| == i
      invariant forall k :: 0 <= k < i ==> rendered[k] == RenderFrame(frames[k])
    {
      rendered := rendered + [RenderFrame(frames[i])];
    }
  }

  // ---------------------------------------------------------------------
  // The stream handler

  /**
   * What the stream handler leaves behind: the events rendered to the
   * client and then either a panic of the producer (which ends the
   * process), a hang, or the error and the aggregated text it returns. When
   * the stop signal is never sent, the step function waits on the two
   * channels for good once the data is drained, so the handler never
   * returns; gin only looks for a departed client between steps.
   */
  datatype StreamOutcome =
    | StreamPanicked(rendered: seq<string>)
    | StreamHung(rendered: seq<string>)
    | StreamDone(rendered: seq<string>, err: Option<RelayError>, text: string)

  /**
   * OpenaiStreamHandler: scan the body, run the producer, aggregate and
   * render; `closeError` is the error closing the body reports, if any.
   */
  method OpenaiStreamHandler(cfg: StreamConfig, body: string, hits: seq<seq<Hit>>, mode: RelayMode,
                             decode: (RelayMode, string) -> Option<DecodedStream>, closeError: Option<string>)
    returns (out: StreamOutcome)
    requires |hits| == |Tokens(body)|
    requires forall i :: 0 <= i < |Tokens(body)| ==> MatcherHits(Dictionary(cfg.configured), Lower(Tokens(body)[i]), hits[i], false)
    ensures var p := Produce(cfg, Tokens(body), hits);
            out.rendered == seq(|p.frames|, i requires 0 <= i < |p.frames| => RenderFrame(p.frames[i]))
    ensures var p := Produce(cfg, Tokens(body), hits);
            out.StreamPanicked? <==> p.end == Panicked
    ensures var p := Produce(cfg, Tokens(body), hits);
            out.StreamHung? <==> p.end != Panicked && StreamHangs(mode, p.items, decode)
    ensures out.StreamDone? && closeError.Some? ==>
              out.err == Some(Wrapped(closeError.value, "close_response_body_failed", StatusInternalServerError)) && out.text == ""
    ensures var p := Produce(cfg, Tokens(body), hits);
            out.StreamDone? && closeError.None? ==>
              out.err == None && out.text == StreamText(mode, p.items, decode)
  {
    var lines := Tokens(body);
    var frames, items, end := StreamProducer(cfg, lines, hits);
    var rendered := StreamConsumer(frames);
    if end == Panicked {
      return StreamPanicked(rendered);
    }
    var agg := AggregateStream(mode, items, decode);
    if !agg.stopSignalled {
      return StreamHung(rendered);
    }
    if closeError.Some? {
      return StreamDone(rendered, Some(Wrapped(closeError.value, "close_response_body_failed", StatusInternalServerError)), "");
    }
    return StreamDone(rendered, None, agg.text);
  }

  // ---------------------------------------------------------------------
  // The non-stream handler

  /** The decoded upstream response: an error object, the message content of each choice, and the usage. */
  datatype TextResponse = TextResponse(error: Option<OpenAIError>, choices: seq<string>, usage: Usage)

  /** The upstream body as the handler reads it: a read, close or decode failure, or a decoded response. */
  datatype UpstreamBody =
    | ReadFailed(readError: string)
    | CloseFailed(closeError: string)
    | Malformed(decodeError: string)
    | Decoded(response: TextResponse)

  /** Forwarding the re-encoded body to the client: it succeeds or fails while copying or closing. */
  datatype CopyResult = Copied | CopyFailed(copyError: string) | FinalCloseFailed(closeError: string)

  /** The answer written to the client, when the handler writes one. */
  datatype ClientResponse = ClientResponse(status: int, body: TextResponse)

  /** The handler's three results, and the response it wrote to the client, if any. */
  datatype HandlerResult = HandlerResult(err: Option<RelayError>, usage: Option<Usage>,
                                         sensitiveWords: Option<seq<string>>, written: Option<ClientResponse>)

  /** The completion tokens of the choices, counted one by one. */
  function CompletionTokens(choices: seq<string>, count: string -> int): int
    decreases |choices|
  {
    if choices == [] then 0 else CompletionTokens(choices[..|choices| - 1], count) + count(choices[|choices| - 1])
  }

  /**
   * The sensitive-word scan over the choices: whether any choice was
   * flagged and the words found, in choice order; None when a splice
   * panics.
   */
  function ScanChoices(configured: seq<string>, choices: seq<string>, hits: seq<seq<Hit>>): Option<(bool, seq<string>)>
    requires |hits| == |choices|
    decreases |choices|
  {
    if choices == [] then Some((false, []))
    else match ScanChoices(configured, choices[..|choices| - 1], hits[..|hits| - 1])
      case None => None
      case Some(acc) =>
        match Redact(configured, choices[|choices| - 1], hits[|hits| - 1])
        case None => None
        case Some(rd) => if rd.sensitive then Some((true, acc.1 + rd.words)) else Some(acc)
  }

  /** The usage the handler reports once the choices have been counted. */
  function RecountedUsage(reported: Usage, promptTokens: int, choices: seq<string>, count: string -> int, checkSensitive: bool): Usage
  {
    if reported.totalTokens == 0 || checkSensitive
    then Usage(promptTokens, CompletionTokens(choices, count), promptTokens + CompletionTokens(choices, count))
    else reported
  }

  /**
   * What OpenaiHandler returns for an upstream body: a read, close or decode
   * failure or the upstream's own error as a 500 or the upstream status; then,
   * unless a splice panics (None), the copy failures, the sensitive-word
   * report or success, with the recounted usage.
   */
  function HandlerResponse(cfg: StreamConfig, body: UpstreamBody, status: int, promptTokens: int,
                           count: string -> int, hits: seq<seq<Hit>>, copy: CopyResult): Option<HandlerResult>
    requires body.Decoded? ==> |hits| == |body.response.choices|
  {
    match body
    case ReadFailed(e) => Some(HandlerResult(Some(Wrapped(e, "read_response_body_failed", StatusInternalServerError)), None, None, None))
    case CloseFailed(e) => Some(HandlerResult(Some(Wrapped(e, "close_response_body_failed", StatusInternalServerError)), None, None, None))
    case Malformed(e) => Some(HandlerResult(Some(Wrapped(e, "unmarshal_response_body_failed", StatusInternalServerError)), None, None, None))
    case Decoded(resp) =>
      if resp.error.Some? then Some(HandlerResult(Some(Upstream(resp.error.value, status)), None, None, None))
      else
        var scan := if cfg.checkSensitive then ScanChoices(cfg.configured, resp.choices, hits) else Some((false, []));
        var usage := RecountedUsage(resp.usage, promptTokens, resp.choices, count, cfg.checkSensitive);
        var written := if cfg.stopOnSensitive then None else Some(ClientResponse(status, resp.(usage := usage)));
        match scan
        case None => None
        case Some(sc) =>
          if !cfg.stopOnSensitive && copy.CopyFailed? then
            Some(HandlerResult(Some(Wrapped(copy.copyError, "copy_response_body_failed", StatusInternalServerError)), None, None, written))
          else if !cfg.stopOnSensitive && copy.FinalCloseFailed? then
            Some(HandlerResult(Some(Wrapped(copy.closeError, "close_response_body_failed", StatusInternalServerError)), None, None, written))
          else if sc.0 then Some(HandlerResult(Some(SensitiveError(Distinct(sc.1))), Some(usage), Some(Distinct(sc.1)), written))
          else Some(HandlerResult(None, Some(usage), None, written))
  }

  /** The report attached to a flagged response. */
  function SensitiveError(words: seq<string>): RelayError
  {
    Wrapped("sensitive words detected: " + Join(words, ", "), "sensitive_words_detected", StatusBadRequest)
  }

  /**
   * OpenaiHandler. `count` is the tokenizer, `hits[i]` the matcher's hits on
   * choice i, `copy` what forwarding the body to the client reports. None is
   * a splice panic inside the handler.
   */
  method OpenaiHandler(cfg: StreamConfig, body: UpstreamBody, status: int, promptTokens: int,
                       count: string -> int, hits: seq<seq<Hit>>, copy: CopyResult)
    returns (r: Option<HandlerResult>)
    requires body.Decoded? ==> |hits| == |body.response.choices|
    requires body.Decoded? ==> forall i :: 0 <= i < |hits| ==>
               MatcherHits(Dictionary(cfg.configured), Lower(body.response.choices[i]), hits[i], false)
    ensures body.ReadFailed? ==> r == Some(HandlerResult(Some(Wrapped(body.readError, "read_response_body_failed", StatusInternalServerError)), None, None, None))
    ensures body.CloseFailed? ==> r == Some(HandlerResult(Some(Wrapped(body.closeError, "close_response_body_failed", StatusInternalServerError)), None, None, None))
    ensures body.Malformed? ==> r == Some(HandlerResult(Some(Wrapped(body.decodeError, "unmarshal_response_body_failed", StatusInternalServerError)), None, None, None))
    ensures body.Decoded? && body.response.error.Some? ==>
              r == Some(HandlerResult(Some(Upstream(body.response.error.value, status)), None, None, None))
    ensures body.Decoded? && body.response.error.None? ==>
              var resp := body.response;
              var scan := if cfg.checkSensitive then ScanChoices(cfg.configured, resp.choices, hits) else Some((false, []));
              var usage := RecountedUsage(resp.usage, promptTokens, resp.choices, count, cfg.checkSensitive);
              var written := if cfg.stopOnSensitive then None else Some(ClientResponse(status, resp.(usage := usage)));
              match scan
              case None => r == None
              case Some(sc) =>
                if !cfg.stopOnSensitive && copy.CopyFailed? then
                  r == Some(HandlerResult(Some(Wrapped(copy.copyError, "copy_response_body_failed", StatusInternalServerError)), None, None, written))
                else if !cfg.stopOnSensitive && copy.FinalCloseFailed? then
                  r == Some(HandlerResult(Some(Wrapped(copy.closeError, "close_response_body_failed", StatusInternalServerError)), None, None, written))
                else if sc.0 then
                  r == Some(HandlerResult(Some(SensitiveError(Distinct(sc.1))), Some(usage), Some(Distinct(sc.1)), written))
                else r == Some(HandlerResult(None, Some(usage), None, written))
    ensures body.Decoded? && r.Some? && r.value.written.Some? ==> r.value.written.value.body.choices == body.response.choices
    ensures r == HandlerResponse(cfg, body, status, promptTokens, count, hits, copy)
  {
    match body
    case ReadFailed(e) =>
      return Some(HandlerResult(Some(Wrapped(e, "read_response_body_failed", StatusInternalServerError)), None, None, None));
    case CloseFailed(e) =>
      return Some(HandlerResult(Some(Wrapped(e, "close_response_body_failed", StatusInternalServerError)), None, None, None));
    case Malformed(e) =>
      return Some(HandlerResult(Some(Wrapped(e, "unmarshal_response_body_failed", StatusInternalServerError)), None, None, None));
    case Decoded(resp) =>
      if resp.error.Some? {
        return Some(HandlerResult(Some(Upstream(resp.error.value, status)), None, None, None));
      }
      var textResponse := resp;
      var words: seq<string> := [];
      var triggered := false;
      if resp.usage.totalTokens == 0 || cfg.checkSensitive {
        var completionTokens, scan := CountAndScan(cfg, resp.choices, count, hits);
        if scan.None? {
          return None;
        }
        triggered, words := scan.value.0, scan.value.1;
        textResponse := textResponse.(usage := Usage(promptTokens, completionTokens, promptTokens + completionTokens));
      }
      var written: Option<ClientResponse> := None;
      if !cfg.stopOnSensitive {
        written := Some(ClientResponse(status, textResponse));
        if copy.CopyFailed? {
          return Some(HandlerResult(Some(Wrapped(copy.copyError, "copy_response_body_failed", StatusInternalServerError)), None, None, written));
        }
        if copy.FinalCloseFailed? {
          return Some(HandlerResult(Some(Wrapped(copy.closeError, "close_response_body_failed", StatusInternalServerError)), None, None, written));
        }
      }
      if cfg.checkSensitive && triggered {
        words := RemoveDuplicate(words);
        return Some(HandlerResult(Some(SensitiveError(words)), Some(textResponse.usage), Some(words), written));
      }
      return Some(HandlerResult(None, Some(textResponse.usage), None, written));
  }

  /**
   * The handler's loop over the choices: it counts each choice's tokens and,
   * when checking is on, redacts it and collects the flagged words; a splice
   * panic ends it (`scan` is None).
   */
  method CountAndScan(cfg: StreamConfig, choices: seq<string>, count: string -> int, hits: seq<seq<Hit>>)
    returns (completionTokens: int, scan: Option<(bool, seq<string>)>)
    requires |hits| == |choices|
    requires forall i :: 0 <= i < |hits| ==> MatcherHits(Dictionary(cfg.configured), Lower(choices[i]), hits[i], false)
    ensures scan == if cfg.checkSensitive then ScanChoices(cfg.configured, choices, hits) else Some((false, []))
    ensures scan.Some? ==> completionTokens == CompletionTokens(choices, count)
  {
    completionTokens := 0;
    var words: seq<string> := [];
    var triggered := false;
    for i := 0 to |choices|
      invariant completionTokens == CompletionTokens(choices[..i], count)
      invariant cfg.checkSensitive ==> ScanChoices(cfg.configured, choices[..i], hits[..i]) == Some((triggered, words))
      invariant !cfg.checkSensitive ==> !triggered && words == []
    {
      var content := choices[i];
      assert choices[..i + 1][..i] == choices[..i];
      assert hits[..i + 1][..i] == hits[..i];
      completionTokens := completionTokens + count(content);
      if cfg.checkSensitive {
        var red := SensitiveWordReplace(cfg.configured, content, hits[i], false);
        if red.None? {
          assert ScanChoices(cfg.configured, choices[..i + 1], hits[..i + 1]) == None;
          ScanPanicPersists(cfg.configured, choices, hits, i + 1);
          return completionTokens, None;
        }
        if red.value.sensitive {
          triggered := true;
          words := words + red.value.words;
        }
      }
    }
    assert choices[..|choices|] == choices;
    assert hits[..|hits|] == hits;
    return completionTokens, Some((triggered, words));
  }

  /** Once a splice has panicked on some choice, the scan of all choices panics. */
  lemma {:induction false} ScanPanicPersists(configured: seq<string>, choices: seq<string>, hits: seq<seq<Hit>>, i: nat)
    requires |hits| == |choices| && i <= |choices|
    requires ScanChoices(configured, choices[..i], hits[..i]) == None
    ensures ScanChoices(configured, choices, hits) == None
    decreases |choices| - i
  {
    if i < |choices| {
      var c, h := choices[..i + 1], hits[..i + 1];
      assert c[..|c| - 1] == choices[..i] && h[..|h| - 1] == hits[..i];
      assert ScanChoices(configured, c, h) == None;
      ScanPanicPersists(configured, choices, hits, i + 1);
    } else {
      assert choices[..i] == choices && hits[..i] == hits;
    }
  }

  /** Counting is additive over consecutive runs of choices. */
  lemma {:induction false} CompletionTokensAppend(a: seq<string>, b: seq<string>, count: string -> int)
    ensures CompletionTokens(a + b, count) == CompletionTokens(a, count) + CompletionTokens(b, count)
    decreases |b|
  {
    if b != [] {
      assert (a + b)[..|a + b| - 1] == a + b[..|b| - 1];
      CompletionTokensAppend(a, b[..|b| - 1], count);
    } else {
      assert a + b == a;
    }
  }

  // ---------------------------------------------------------------------
  // Deduplication of the reported words

  predicate NoDuplicates(s: seq<string>)
  {
    forall i, j :: 0 <= i < j < |s| ==> s[i] != s[j]
  }

  /** The words with every repeat of an earlier word removed, first occurrences in order. */
  function Distinct(s: seq<string>): (r: seq<string>)
    ensures NoDuplicates(r)
    ensures forall x :: x in r <==> x in s
    ensures |r| <= |s|
    decreases |s|
  {
    if s == [] then []
    else
      var prefix := Distinct(s[..|s| - 1]);
      var last := s[|s| - 1];
      assert forall x :: x in s <==> x in s[..|s| - 1] || x == last by {
        assert s == s[..|s| - 1] + [last];
      }
      if last in prefix then prefix else prefix + [last]
  }

  /** A list that has no repeats is its own deduplication. */
  lemma {:induction false} DistinctOfDistinct(s: seq<string>)
    requires NoDuplicates(s)
    ensures Distinct(s) == s
    decreases |s|
  {
    if s != [] {
      var init := s[..|s| - 1];
      assert NoDuplicates(init);
      DistinctOfDistinct(init);
      assert s[|s| - 1] !in init by {
        forall k | 0 <= k < |init| ensures init[k] != s[|s| - 1] {
          assert init[k] == s[k];
        }
      }
      assert s == init + [s[|s| - 1]];
    }
  }

  /** The word list de-duplicated, keeping each word at its first occurrence. */
  method RemoveDuplicate(s: seq<string>) returns (r: seq<string>)
    ensures r == Distinct(s)
  {
    r := [];
    var seen: set<string> := {};
    for i := 0 to |s|
      invariant r == Distinct(s[..i])
      invariant forall x :: x in seen <==> x in s[..i]
    {
      assert s[..i + 1] == s[..i] + [s[i]];
      assert s[..i + 1][..i] == s[..i];
      if s[i] !in seen {
        seen := seen + {s[i]};
        r := r + [s[i]];
      }
    }
    assert s[..|s|] == s;
  }
}
