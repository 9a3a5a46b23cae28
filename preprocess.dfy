/** The conditional-compilation filter of scripts/preprocess.js: a line-based
    pass driven by a stack of `// @if NAME` / `// @else` / `// @endif` frames,
    and the build-tool `transform` hook that wraps it. */
module Preprocess {
  import opened Wrappers
  import opened Text

  /** A value of the `defines` object. Only the boolean `true` switches a block on. */
  datatype DefineValue = Bool(b: bool) | Number(n: int) | Str(s: string) | OtherValue

  type Defines = map<string, DefineValue>

  /** One entry of the `stack` array: `{ condition, shouldInclude, hadElse }`. */
  datatype Frame = Frame(condition: string, shouldInclude: bool, hadElse: bool)

  /** The loop state after some lines: the frame stack, the `skip` flag, the
      lines pushed to `output` so far, and how many lines have been read. */
  datatype Scan = Scan(stack: seq<Frame>, skip: bool, output: seq<string>, lineNo: nat)

  /** The three errors `preprocess` throws; line numbers are 1-based. */
  datatype PreprocessError = ElseWithoutIf(line: nat) | EndifWithoutIf(line: nat) | UnclosedIf

  function Message(e: PreprocessError): string
  {
    match e
    case ElseWithoutIf(n) => "@else without @if at line " + NatToString(n)
    case EndifWithoutIf(n) => "@endif without @if at line " + NatToString(n)
    case UnclosedIf => "Unclosed @if directive"
  }

  const IfPrefix := "// @if "
  const ElseText := "// @else"
  const EndifText := "// @endif"

  /** How the loop reads one line, from its trimmed form. */
  datatype LineKind = IfDirective(condition: string) | ElseDirective | EndifDirective | TextLine

  function Classify(line: string): LineKind
  {
    var trimmed := Trim(line);
    if StartsWith(trimmed, IfPrefix) then IfDirective(Trim(trimmed[|IfPrefix|..]))
    else if trimmed == ElseText then ElseDirective
    else if trimmed == EndifText then EndifDirective
    else TextLine
  }

  predicate IsDirective(line: string)
  {
    !Classify(line).TextLine?
  }

  /** `defines[condition] === true`: strict equality with the boolean `true`. */
  predicate Included(defines: Defines, condition: string)
  {
    condition in defines && defines[condition] == Bool(true)
  }

  /** The `skip` property of a frame. The frames pushed by `preprocess` never
      get one, so reading it yields `undefined`, which is falsy. */
  function SkipProperty(f: Frame): bool
  {
    false
  }

  const Start := Scan([], false, [], 0)

  /** What one iteration of the loop does with one line. */
  function Step(defines: Defines, st: Scan, line: string): Result<Scan, PreprocessError>
  {
    var n := st.lineNo + 1;
    match Classify(line)
    case IfDirective(c) =>
      var inc := Included(defines, c);
      var stack := st.stack + [Frame(c, inc, false)];
      Success(Scan(stack, !inc || (|stack| > 1 && SkipProperty(stack[|stack| - 2])), st.output, n))
    case ElseDirective =>
      if |st.stack| == 0 then Failure(ElseWithoutIf(n))
      else
        var top := st.stack[|st.stack| - 1];
        var skip := top.shouldInclude || (|st.stack| > 1 && !st.stack[|st.stack| - 2].shouldInclude);
        Success(Scan(st.stack[|st.stack| - 1 := top.(hadElse := true)], skip, st.output, n))
    case EndifDirective =>
      if |st.stack| == 0 then Failure(EndifWithoutIf(n))
      else
        var rest := st.stack[..|st.stack| - 1];
        Success(Scan(rest, |rest| > 0 && !rest[|rest| - 1].shouldInclude, st.output, n))
    case TextLine =>
      Success(st.(output := if st.skip then st.output else st.output + [line], lineNo := n))
  }

  /** The loop over `lines`, stopping at the first thrown error. */
  function Run(defines: Defines, lines: seq<string>, st: Scan): Result<Scan, PreprocessError>
    decreases |lines|
  {
    if |lines| == 0 then Success(st)
    else
      match Step(defines, st, lines[0])
      case Failure(e) => Failure(e)
      case Success(next) => Run(defines, lines[1..], next)
  }

  /** The loop followed by the final check for an open frame. */
  function PreprocessLines(lines: seq<string>, defines: Defines): Result<seq<string>, PreprocessError>
  {
    match Run(defines, lines, Start)
    case Failure(e) => Failure(e)
    case Success(st) => if |st.stack| > 0 then Failure(UnclosedIf) else Success(st.output)
  }

  /** What `preprocess(code, defines)` returns or throws. */
  function Preprocessed(code: string, defines: Defines): Result<string, PreprocessError>
  {
    match PreprocessLines(Split(code), defines)
    case Failure(e) => Failure(e)
    case Success(out) => Success(Join(out))
  }

  /** One turn of the loop moves the run one line forward. */
  lemma RunStep(defines: Defines, lines: seq<string>, i: nat, st: Scan, next: Scan)
    requires i < |lines| && Step(defines, st, lines[i]) == Success(next)
    ensures Run(defines, lines[i..], st) == Run(defines, lines[i + 1..], next)
  {
    assert lines[i..][0] == lines[i] && lines[i..][1..] == lines[i + 1..];
  }

  /** A line that throws ends the whole pass with its error. */
  lemma RunStops(defines: Defines, lines: seq<string>, i: nat, st: Scan, e: PreprocessError)
    requires i < |lines| && Step(defines, st, lines[i]) == Failure(e)
    ensures Run(defines, lines[i..], st) == Failure(e)
  {
    assert lines[i..][0] == lines[i];
  }

  /** The body of the loop: what it does with line `i` to `stack`, `skip`
      and `output`, or the error it throws. */
  method ScanLine(defines: Defines, line: string, i: nat, stack0: seq<Frame>, skip0: bool, output0: seq<string>)
    returns (error: Option<PreprocessError>, stack: seq<Frame>, skip: bool, output: seq<string>)
    ensures error.Some? ==> Step(defines, Scan(stack0, skip0, output0, i), line) == Failure(error.value)
    ensures error.None? ==> Step(defines, Scan(stack0, skip0, output0, i), line) == Success(Scan(stack, skip, output, i + 1))
  {
    stack, skip, output := stack0, skip0, output0;
    var trimmed := Trim(line);
    if StartsWith(trimmed, IfPrefix) {
      var condition := Trim(trimmed[|IfPrefix|..]);
      var shouldInclude := condition in defines && defines[condition] == Bool(true);
      stack := stack + [Frame(condition, shouldInclude, false)];
      skip := !shouldInclude || (|stack| > 1 && SkipProperty(stack[|stack| - 2]));
      return None, stack, skip, output;
    }
    if trimmed == ElseText {
      if |stack| == 0 {
        return Some(ElseWithoutIf(i + 1)), stack, skip, output;
      }
      var current := stack[|stack| - 1];
      stack := stack[|stack| - 1 := current.(hadElse := true)];
      skip := current.shouldInclude || (|stack| > 1 && !stack[|stack| - 2].shouldInclude);
      return None, stack, skip, output;
    }
    if trimmed == EndifText {
      if |stack| == 0 {
        return Some(EndifWithoutIf(i + 1)), stack, skip, output;
      }
      stack := stack[..|stack| - 1];
      skip := |stack| > 0 && !stack[|stack| - 1].shouldInclude;
      return None, stack, skip, output;
    }
    if !skip {
      output := output + [line];
    }
    error := None;
  }

  /** `preprocess(code, defines)`: the loop over the lines, then the check
      for a frame left open. */
  method Preprocess(code: string, defines: Defines) returns (r: Result<string, PreprocessError>)
    ensures r == Preprocessed(code, defines)
  {
    var lines := Split(code);
    var output: seq<string> := [];
    var stack: seq<Frame> := [];
    var skip := false;
    for i := 0 to |lines|
      invariant Run(defines, lines, Start) == Run(defines, lines[i..], Scan(stack, skip, output, i))
    {
      ghost var st := Scan(stack, skip, output, i);
      var error;
      error, stack, skip, output := ScanLine(defines, lines[i], i, stack, skip, output);
      if error.Some? {
        RunStops(defines, lines, i, st, error.value);
        return Failure(error.value);
      }
      RunStep(defines, lines, i, st, Scan(stack, skip, output, i + 1));
    }
    assert lines[|lines|..] == [];
    if |stack| > 0 {
      return Failure(UnclosedIf);
    }
    return Success(Join(output));
  }

  /** What the `transform` hook of `preprocessPlugin(defines)` yields: `null`,
      `{ code, map: null }`, or the build error raised through `this.error`. */
  datatype TransformResult = NotHandled | Transformed(code: string) | PluginError(message: string)

  method Transform(defines: Defines, code: string, id: string) returns (r: TransformResult)
    ensures !EndsWith(id, ".js") ==> r == NotHandled
    ensures EndsWith(id, ".js") && Preprocessed(code, defines).Success? ==>
      r == Transformed(Preprocessed(code, defines).value)
    ensures EndsWith(id, ".js") && Preprocessed(code, defines).Failure? ==>
      r == PluginError("Preprocessing error in " + id + ": " + Message(Preprocessed(code, defines).error))
  {
    if !EndsWith(id, ".js") {
      return NotHandled;
    }
    var processed := Preprocess(code, defines);
    match processed
    case Success(out) => r := Transformed(out);
    case Failure(e) => r := PluginError("Preprocessing error in " + id + ": " + Message(e));
  }
}
