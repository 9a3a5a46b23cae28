/** What the preprocessor promises, stated over its specification functions. */
module PreprocessProperties {
  import opened Wrappers
  import opened Text
  import opened Preprocess

  /** The lines of `xs` whose flag in `keep` is set, in their original order. */
  function Select<T>(xs: seq<T>, keep: seq<bool>): seq<T>
    requires |keep| == |xs|
  {
    if |xs| == 0 then []
    else Select(xs[..|xs| - 1], keep[..|xs| - 1]) + (if keep[|xs| - 1] then [xs[|xs| - 1]] else [])
  }

  ghost predicate IsSubsequence<T>(sub: seq<T>, xs: seq<T>)
  {
    exists keep: seq<bool> :: |keep| == |xs| && Select(xs, keep) == sub
  }

  predicate NoDirectives(lines: seq<string>)
  {
    forall k :: 0 <= k < |lines| ==> !IsDirective(lines[k])
  }

  /** Running the loop over `a + b` is running it over `a`, then over `b`. */
  lemma {:induction false} RunAppend(defines: Defines, a: seq<string>, b: seq<string>, st: Scan)
    ensures Run(defines, a + b, st) ==
      match Run(defines, a, st)
      case Failure(e) => Failure(e)
      case Success(mid) => Run(defines, b, mid)
  {
    if |a| == 0 {
      assert a + b == b;
    } else {
      assert (a + b)[0] == a[0] && (a + b)[1..] == a[1..] + b;
      match Step(defines, st, a[0])
      case Failure(e) =>
      case Success(next) =>
        RunOne(defines, a + b, st, next);
        RunOne(defines, a, st, next);
        RunAppend(defines, a[1..], b, next);
    }
  }

  /** One successful step, then the rest of the lines. */
  lemma RunOne(defines: Defines, lines: seq<string>, st: Scan, next: Scan)
    requires |lines| > 0 && Step(defines, st, lines[0]) == Success(next)
    ensures Run(defines, lines, st) == Run(defines, lines[1..], next)
  {
  }

  /** The state after copying (or, under `skip`, dropping) some plain lines. */
  function Plain(st: Scan, lines: seq<string>): Scan
  {
    Scan(st.stack, st.skip, if st.skip then st.output else st.output + lines, st.lineNo + |lines|)
  }

  lemma PlainCompose(st: Scan, line: string, rest: seq<string>)
    ensures Plain(Plain(st, [line]), rest) == Plain(st, [line] + rest)
  {
    assert st.output + [line] + rest == st.output + ([line] + rest);
  }

  /** An `@if` pushes a frame, and `skip` follows the new frame's own condition only. */
  lemma StepIf(defines: Defines, st: Scan, line: string)
    requires Classify(line).IfDirective?
    ensures var c := Classify(line).condition;
      Step(defines, st, line) ==
      Success(Scan(st.stack + [Frame(c, Included(defines, c), false)], !Included(defines, c), st.output, st.lineNo + 1))
  {
  }

  /** An `@else` inside an open block marks the frame and flips `skip`. */
  lemma StepElse(defines: Defines, st: Scan, line: string)
    requires Classify(line) == ElseDirective && |st.stack| > 0
    ensures var top := st.stack[|st.stack| - 1];
      Step(defines, st, line) ==
      Success(Scan(st.stack[|st.stack| - 1 := top.(hadElse := true)],
                   top.shouldInclude || (|st.stack| > 1 && !st.stack[|st.stack| - 2].shouldInclude),
                   st.output, st.lineNo + 1))
  {
  }

  /** An `@endif` inside an open block pops its frame. */
  lemma StepEndif(defines: Defines, st: Scan, line: string)
    requires Classify(line) == EndifDirective && |st.stack| > 0
    ensures var rest := st.stack[..|st.stack| - 1];
      Step(defines, st, line) ==
      Success(Scan(rest, |rest| > 0 && !rest[|rest| - 1].shouldInclude, st.output, st.lineNo + 1))
  {
  }

  /** One plain line is copied unless `skip` is set. */
  lemma StepPlain(defines: Defines, st: Scan, line: string)
    requires !IsDirective(line)
    ensures Step(defines, st, line) == Success(Plain(st, [line]))
  {
  }

  /** Over lines that hold no directive the stack and `skip` stay as they are,
      and every line is copied to the output unless `skip` is set. */
  lemma {:induction false} RunPlain(defines: Defines, lines: seq<string>, st: Scan)
    requires NoDirectives(lines)
    ensures Run(defines, lines, st) == Success(Plain(st, lines))
  {
    if |lines| == 0 {
      assert st.output + lines == st.output;
    } else {
      StepPlain(defines, st, lines[0]);
      RunOne(defines, lines, st, Plain(st, [lines[0]]));
      RunPlain(defines, lines[1..], Plain(st, [lines[0]]));
      PlainCompose(st, lines[0], lines[1..]);
      assert [lines[0]] + lines[1..] == lines;
    }
  }

  /** The loop counts every line it reads. */
  lemma {:induction false} RunCountsLines(defines: Defines, lines: seq<string>, st: Scan)
    ensures Run(defines, lines, st).Success? ==> Run(defines, lines, st).value.lineNo == st.lineNo + |lines|
  {
    if |lines| > 0 {
      match Step(defines, st, lines[0])
      case Failure(_) =>
      case Success(next) => RunCountsLines(defines, lines[1..], next);
    }
  }

  lemma {:induction false} RunKeepsOutputClean(defines: Defines, lines: seq<string>, st: Scan)
    requires NoDirectives(st.output)
    ensures Run(defines, lines, st).Success? ==> NoDirectives(Run(defines, lines, st).value.output)
  {
    if |lines| > 0 {
      match Step(defines, st, lines[0])
      case Failure(_) =>
      case Success(next) =>
        assert NoDirectives(next.output);
        RunKeepsOutputClean(defines, lines[1..], next);
    }
  }

  /** Directive lines never reach the output. */
  lemma DirectivesNeverOutput(lines: seq<string>, defines: Defines)
    ensures PreprocessLines(lines, defines).Success? ==> NoDirectives(PreprocessLines(lines, defines).value)
  {
    RunKeepsOutputClean(defines, lines, Start);
  }

  /** Selecting from one more line. */
  lemma SelectSnoc(done: seq<string>, keep: seq<bool>, line: string, kept: bool)
    requires |keep| == |done|
    ensures Select(done + [line], keep + [kept]) == Select(done, keep) + (if kept then [line] else [])
  {
    assert (done + [line])[..|done|] == done && (keep + [kept])[..|done|] == keep;
  }

  lemma {:induction false} RunSelects(defines: Defines, lines: seq<string>, st: Scan, done: seq<string>, keep: seq<bool>)
    requires |keep| == |done| && st.output == Select(done, keep)
    ensures Run(defines, lines, st).Success? ==>
      IsSubsequence(Run(defines, lines, st).value.output, done + lines)
  {
    if |lines| == 0 {
      assert done + lines == done;
    } else {
      var line := lines[0];
      var kept := !IsDirective(line) && !st.skip;
      var done', keep' := done + [line], keep + [kept];
      SelectSnoc(done, keep, line, kept);
      assert done' + lines[1..] == done + lines;
      match Step(defines, st, line)
      case Failure(_) =>
      case Success(next) =>
        assert next.output == Select(done', keep');
        RunSelects(defines, lines[1..], next, done', keep');
    }
  }

  /** The output lines are an order-preserving subsequence of the input lines. */
  lemma OutputIsSubsequence(lines: seq<string>, defines: Defines)
    ensures PreprocessLines(lines, defines).Success? ==>
      IsSubsequence(PreprocessLines(lines, defines).value, lines)
  {
    RunSelects(defines, lines, Start, [], []);
    assert [] + lines == lines;
  }

  /** Text without directives comes back unchanged. */
  lemma UnchangedWithoutDirectives(code: string, defines: Defines)
    requires NoDirectives(Split(code))
    ensures Preprocessed(code, defines) == Success(code)
  {
    RunPlain(defines, Split(code), Start);
    assert [] + Split(code) == Split(code);
    JoinSplit(code);
  }

  /** Extending a run that reached `mid` by more lines. */
  lemma RunThen(defines: Defines, a: seq<string>, b: seq<string>, mid: Scan)
    requires Run(defines, a, Start) == Success(mid)
    ensures Run(defines, a + b, Start) == Run(defines, b, mid)
  {
    RunAppend(defines, a, b, Start);
  }

  /** Extending a run by one line that does not throw. */
  lemma {:induction false} RunLine(defines: Defines, a: seq<string>, line: string, mid: Scan, next: Scan)
    requires Run(defines, a, Start) == Success(mid) && Step(defines, mid, line) == Success(next)
    ensures Run(defines, a + [line], Start) == Success(next)
  {
    RunThen(defines, a, [line], mid);
    RunOne(defines, [line], mid, next);
    assert [line][1..] == [];
  }

  /** Extending a run by plain lines. */
  lemma {:induction false} RunPlainAfter(defines: Defines, a: seq<string>, lines: seq<string>, mid: Scan)
    requires Run(defines, a, Start) == Success(mid) && NoDirectives(lines)
    ensures Run(defines, a + lines, Start) == Success(Plain(mid, lines))
  {
    RunThen(defines, a, lines, mid);
    RunPlain(defines, lines, mid);
  }

  /** Plain lines, an `@if C` and its then-lines: one open frame, and the
      then-lines were kept exactly when `C` holds. */
  lemma {:induction false} OpenIfRun(defines: Defines, before: seq<string>, ifLine: string, thenLines: seq<string>)
    requires NoDirectives(before) && NoDirectives(thenLines) && Classify(ifLine).IfDirective?
    ensures var c := Classify(ifLine).condition;
      var inc := Included(defines, c);
      Run(defines, before + [ifLine] + thenLines, Start) ==
      Success(Scan([Frame(c, inc, false)], !inc, if inc then before + thenLines else before,
                   |before| + 1 + |thenLines|))
  {
    var inc := Included(defines, Classify(ifLine).condition);
    var f := Frame(Classify(ifLine).condition, inc, false);
    var s1 := Scan([], false, before, |before|);
    assert Run(defines, before, Start) == Success(s1) by {
      assert [] + before == before;
      RunPlain(defines, before, Start);
    }
    var s2 := Scan([f], !inc, before, |before| + 1);
    assert Run(defines, before + [ifLine], Start) == Success(s2) by {
      assert [] + [f] == [f];
      StepIf(defines, s1, ifLine);
      RunLine(defines, before, ifLine, s1, s2);
    }
    RunPlainAfter(defines, before + [ifLine], thenLines, s2);
  }

  /** Plain lines, then a whole `@if` / `@else` / `@endif` block: no frame is
      left open, and the output holds the then-lines or the else-lines. */
  lemma {:induction false} IfElseRun(defines: Defines, before: seq<string>, ifLine: string, thenLines: seq<string>,
                  elseLine: string, elseLines: seq<string>, endifLine: string)
    requires NoDirectives(before) && NoDirectives(thenLines) && NoDirectives(elseLines)
    requires Classify(ifLine).IfDirective? && Classify(elseLine) == ElseDirective && Classify(endifLine) == EndifDirective
    ensures var inc := Included(defines, Classify(ifLine).condition);
      Run(defines, before + [ifLine] + thenLines + [elseLine] + elseLines + [endifLine], Start) ==
      Success(Scan([], false, before + (if inc then thenLines else elseLines),
                   |before| + |thenLines| + |elseLines| + 3))
  {
    var inc := Included(defines, Classify(ifLine).condition);
    var f := Frame(Classify(ifLine).condition, inc, false);
    var fe := f.(hadElse := true);
    var L3 := before + [ifLine] + thenLines;
    var out3 := if inc then before + thenLines else before;
    var s3 := Scan([f], !inc, out3, |before| + 1 + |thenLines|);
    assert Run(defines, L3, Start) == Success(s3) by {
      OpenIfRun(defines, before, ifLine, thenLines);
    }
    var s4 := Scan([fe], inc, out3, s3.lineNo + 1);
    assert Run(defines, L3 + [elseLine], Start) == Success(s4) by {
      assert [f][0 := fe] == [fe];
      StepElse(defines, s3, elseLine);
      RunLine(defines, L3, elseLine, s3, s4);
    }
    var s5 := Plain(s4, elseLines);
    assert Run(defines, L3 + [elseLine] + elseLines, Start) == Success(s5) by {
      RunPlainAfter(defines, L3 + [elseLine], elseLines, s4);
    }
    var s6 := Scan([], false, s5.output, s5.lineNo + 1);
    StepEndif(defines, s5, endifLine);
    RunLine(defines, L3 + [elseLine] + elseLines, endifLine, s5, s6);
  }

  /** A single block `@if C` / `@else` / `@endif` with plain lines around it:
      the then-lines survive exactly when `defines[C] === true`, the else-lines
      exactly when not, and the lines before and after are kept. */
  lemma {:induction false} SingleIfElseBlock(defines: Defines, before: seq<string>, ifLine: string, thenLines: seq<string>,
                          elseLine: string, elseLines: seq<string>, endifLine: string, after: seq<string>)
    requires NoDirectives(before) && NoDirectives(thenLines) && NoDirectives(elseLines) && NoDirectives(after)
    requires Classify(ifLine).IfDirective? && Classify(elseLine) == ElseDirective && Classify(endifLine) == EndifDirective
    ensures PreprocessLines(before + [ifLine] + thenLines + [elseLine] + elseLines + [endifLine] + after, defines) ==
      Success(before + (if Included(defines, Classify(ifLine).condition) then thenLines else elseLines) + after)
  {
    var inc := Included(defines, Classify(ifLine).condition);
    var L6 := before + [ifLine] + thenLines + [elseLine] + elseLines + [endifLine];
    var s6 := Scan([], false, before + (if inc then thenLines else elseLines),
                   |before| + |thenLines| + |elseLines| + 3);
    IfElseRun(defines, before, ifLine, thenLines, elseLine, elseLines, endifLine);
    RunPlainAfter(defines, L6, after, s6);
  }

  /** A block without `@else`: its lines survive exactly when `defines[C] === true`. */
  lemma {:induction false} SingleIfBlock(defines: Defines, before: seq<string>, ifLine: string, thenLines: seq<string>,
                      endifLine: string, after: seq<string>)
    requires NoDirectives(before) && NoDirectives(thenLines) && NoDirectives(after)
    requires Classify(ifLine).IfDirective? && Classify(endifLine) == EndifDirective
    ensures PreprocessLines(before + [ifLine] + thenLines + [endifLine] + after, defines) ==
      Success(before + (if Included(defines, Classify(ifLine).condition) then thenLines else []) + after)
  {
    var inc := Included(defines, Classify(ifLine).condition);
    var out3 := if inc then before + thenLines else before;
    assert out3 == before + (if inc then thenLines else []) by {
      assert before + [] == before;
    }
    var f := Frame(Classify(ifLine).condition, inc, false);
    var L3 := before + [ifLine] + thenLines;
    var s3 := Scan([f], !inc, out3, |before| + 1 + |thenLines|);
    assert Run(defines, L3, Start) == Success(s3) by {
      OpenIfRun(defines, before, ifLine, thenLines);
    }
    var s4 := Scan([], false, out3, s3.lineNo + 1);
    assert Run(defines, L3 + [endifLine], Start) == Success(s4) by {
      StepEndif(defines, s3, endifLine);
      RunLine(defines, L3, endifLine, s3, s4);
    }
    RunPlainAfter(defines, L3 + [endifLine], after, s4);
  }

  /** Nesting as written: an inner `@if` whose condition holds keeps its lines
      even inside an outer `@if` whose condition fails, because the outer
      frame's state is never consulted when the inner frame is pushed. */
  lemma {:induction false} InnerIfIgnoresFalseOuter(defines: Defines, outerIf: string, innerIf: string, x: string,
                                 innerEndif: string, outerEndif: string)
    requires Classify(outerIf).IfDirective? && !Included(defines, Classify(outerIf).condition)
    requires Classify(innerIf).IfDirective? && Included(defines, Classify(innerIf).condition)
    requires !IsDirective(x) && Classify(innerEndif) == EndifDirective && Classify(outerEndif) == EndifDirective
    ensures PreprocessLines([outerIf, innerIf, x, innerEndif, outerEndif], defines) == Success([x])
  {
    assert [outerIf, innerIf, x, innerEndif, outerEndif] == [] + [outerIf] + [innerIf] + [x] + [innerEndif] + [outerEndif];
    var fo := Frame(Classify(outerIf).condition, false, false);
    var fi := Frame(Classify(innerIf).condition, true, false);
    var L1 := [] + [outerIf];
    var s1 := Scan([fo], true, [], 1);
    assert Run(defines, L1, Start) == Success(s1) by {
      assert [] + [fo] == [fo];
      StepIf(defines, Start, outerIf);
      RunLine(defines, [], outerIf, Start, s1);
    }
    var s2 := Scan([fo, fi], false, [], 2);
    assert Run(defines, L1 + [innerIf], Start) == Success(s2) by {
      assert [fo] + [fi] == [fo, fi];
      StepIf(defines, s1, innerIf);
      RunLine(defines, L1, innerIf, s1, s2);
    }
    var s3 := Scan([fo, fi], false, [x], 3);
    assert Run(defines, L1 + [innerIf] + [x], Start) == Success(s3) by {
      assert [] + [x] == [x];
      StepPlain(defines, s2, x);
      RunLine(defines, L1 + [innerIf], x, s2, s3);
    }
    var s4 := Scan([fo], true, [x], 4);
    assert Run(defines, L1 + [innerIf] + [x] + [innerEndif], Start) == Success(s4) by {
      assert [fo, fi][..1] == [fo];
      StepEndif(defines, s3, innerEndif);
      RunLine(defines, L1 + [innerIf] + [x], innerEndif, s3, s4);
    }
    var s5 := Scan([], false, [x], 5);
    StepEndif(defines, s4, outerEndif);
    RunLine(defines, L1 + [innerIf] + [x] + [innerEndif], outerEndif, s4, s5);
  }

  /** Nesting as written: after an inner block closes, `skip` follows the outer
      frame's condition and ignores that the outer block is in its `@else`
      branch, so a line there is kept although its branch is inactive. */
  lemma {:induction false} EndifIgnoresOuterElse(defines: Defines, outerIf: string, elseLine: string, innerIf: string,
                              innerEndif: string, y: string, outerEndif: string)
    requires Classify(outerIf).IfDirective? && Included(defines, Classify(outerIf).condition)
    requires Classify(elseLine) == ElseDirective && Classify(innerIf).IfDirective?
    requires !IsDirective(y) && Classify(innerEndif) == EndifDirective && Classify(outerEndif) == EndifDirective
    ensures PreprocessLines([outerIf, elseLine, innerIf, innerEndif, y, outerEndif], defines) == Success([y])
  {
    assert [outerIf, elseLine, innerIf, innerEndif, y, outerEndif]
        == [] + [outerIf] + [elseLine] + [innerIf] + [innerEndif] + [y] + [outerEndif];
    var c := Classify(innerIf).condition;
    var fo := Frame(Classify(outerIf).condition, true, false);
    var fe := fo.(hadElse := true);
    var fi := Frame(c, Included(defines, c), false);
    var L1 := [] + [outerIf];
    var s1 := Scan([fo], false, [], 1);
    assert Run(defines, L1, Start) == Success(s1) by {
      assert [] + [fo] == [fo];
      StepIf(defines, Start, outerIf);
      RunLine(defines, [], outerIf, Start, s1);
    }
    var s2 := Scan([fe], true, [], 2);
    assert Run(defines, L1 + [elseLine], Start) == Success(s2) by {
      assert [fo][0 := fe] == [fe];
      StepElse(defines, s1, elseLine);
      RunLine(defines, L1, elseLine, s1, s2);
    }
    var s3 := Scan([fe, fi], !Included(defines, c), [], 3);
    assert Run(defines, L1 + [elseLine] + [innerIf], Start) == Success(s3) by {
      assert [fe] + [fi] == [fe, fi];
      StepIf(defines, s2, innerIf);
      RunLine(defines, L1 + [elseLine], innerIf, s2, s3);
    }
    var s4 := Scan([fe], false, [], 4);
    assert Run(defines, L1 + [elseLine] + [innerIf] + [innerEndif], Start) == Success(s4) by {
      assert [fe, fi][..1] == [fe];
      StepEndif(defines, s3, innerEndif);
      RunLine(defines, L1 + [elseLine] + [innerIf], innerEndif, s3, s4);
    }
    var s5 := Scan([fe], false, [y], 5);
    assert Run(defines, L1 + [elseLine] + [innerIf] + [innerEndif] + [y], Start) == Success(s5) by {
      assert [] + [y] == [y];
      StepPlain(defines, s4, y);
      RunLine(defines, L1 + [elseLine] + [innerIf] + [innerEndif], y, s4, s5);
    }
    var s6 := Scan([], false, [y], 6);
    StepEndif(defines, s5, outerEndif);
    RunLine(defines, L1 + [elseLine] + [innerIf] + [innerEndif] + [y], outerEndif, s5, s6);
  }

  /** An `@else` met while no block is open throws with its 1-based line number. */
  lemma ElseWithoutIfReported(defines: Defines, before: seq<string>, elseLine: string, rest: seq<string>)
    requires Run(defines, before, Start).Success? && Run(defines, before, Start).value.stack == []
    requires Classify(elseLine) == ElseDirective
    ensures PreprocessLines(before + [elseLine] + rest, defines) == Failure(ElseWithoutIf(|before| + 1))
  {
    var mid := Run(defines, before, Start).value;
    RunCountsLines(defines, before, Start);
    RunAppend(defines, before, [elseLine] + rest, Start);
    assert before + [elseLine] + rest == before + ([elseLine] + rest);
    assert ([elseLine] + rest)[0] == elseLine;
  }

  /** An `@endif` met while no block is open throws with its 1-based line number. */
  lemma EndifWithoutIfReported(defines: Defines, before: seq<string>, endifLine: string, rest: seq<string>)
    requires Run(defines, before, Start).Success? && Run(defines, before, Start).value.stack == []
    requires Classify(endifLine) == EndifDirective
    ensures PreprocessLines(before + [endifLine] + rest, defines) == Failure(EndifWithoutIf(|before| + 1))
  {
    RunCountsLines(defines, before, Start);
    RunAppend(defines, before, [endifLine] + rest, Start);
    assert before + [endifLine] + rest == before + ([endifLine] + rest);
    assert ([endifLine] + rest)[0] == endifLine;
  }

  /** An `@if` never closed makes the whole call throw 'Unclosed @if directive'. */
  lemma UnclosedIfReported(defines: Defines, before: seq<string>, ifLine: string, rest: seq<string>)
    requires Run(defines, before, Start).Success?
    requires Classify(ifLine).IfDirective? && NoDirectives(rest)
    ensures PreprocessLines(before + [ifLine] + rest, defines) == Failure(UnclosedIf)
  {
    var mid := Run(defines, before, Start).value;
    var next := Step(defines, mid, ifLine).value;
    RunAppend(defines, before, [ifLine], Start);
    RunAppend(defines, before + [ifLine], rest, Start);
    assert Run(defines, [ifLine], mid) == Success(next);
    RunPlain(defines, rest, next);
  }
}
