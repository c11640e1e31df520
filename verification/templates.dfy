/**
 * Generation of the filter's code text from a code template
 * (`updateSimulationMethod`, assets/js/simulator.js): every `#{name}`
 * placeholder is replaced by its value, then the first and last lines are
 * dropped. The generated text is the filter's cache key.
 */
module Templates {
  import opened Wrappers
  import Strings

  // ---------------------------------------------------------------------------
  // Placeholder substitution: `template.replace(/#\{(.*?)\}/g, (m, id) => values[id])`
  // ---------------------------------------------------------------------------

  /** The characters that the regular-expression `.` does not match. */
  predicate IsLineTerminator(c: char)
  {
    c == '\n' || c == '\r' || c == '\U{2028}' || c == '\U{2029}'
  }

  /** `.*?\}` matches `s[i..k+1]`: `s[k]` is the first `}` at or after `i`, and no
      line terminator comes before it. */
  predicate Closes(s: string, i: nat, k: nat)
  {
    i <= k < |s| && s[k] == '}' && forall m :: i <= m < k ==> s[m] != '}' && !IsLineTerminator(s[m])
  }

  /** Where the lazy `.*?\}` starting at `i` ends, if it matches at all. */
  function CloseBrace(s: string, i: nat): (j: Option<nat>)
    requires i <= |s|
    ensures j.Some? ==> Closes(s, i, j.value)
    ensures j.None? ==> forall k :: !Closes(s, i, k)
    decreases |s| - i
  {
    if i == |s| then None
    else if s[i] == '}' then Some(i)
    else if IsLineTerminator(s[i]) then
      assert forall k: nat :: Closes(s, i, k) ==> k == i;
      None
    else
      var j := CloseBrace(s, i + 1);
      assert forall k: nat :: Closes(s, i, k) ==> k > i && Closes(s, i + 1, k);
      j
  }

  /** `values[name]`; a missing name turns into the text `undefined`. */
  function Lookup(values: map<string, string>, name: string): string
  {
    if name in values then values[name] else "undefined"
  }

  /** A `#{` starts at position `i` of `t`. */
  predicate OpensAt(t: string, i: nat)
    requires i + 1 < |t|
  {
    t[i] == '#' && t[i + 1] == '{'
  }

  /** No `#` in `t` is immediately followed by `{`. */
  predicate NoOpening(t: string)
  {
    forall i: nat :: i + 1 < |t| ==> !OpensAt(t, i)
  }

  /** The replacement, scanning left to right as the global regular expression
      does; text in which no `#{` occurs passes through unchanged. */
  function Substitute(s: string, values: map<string, string>): (r: string)
    ensures NoOpening(s) ==> r == s
    decreases |s|
  {
    if |s| == 0 then ""
    else if |s| >= 2 && s[0] == '#' && s[1] == '{' && CloseBrace(s, 2).Some? then
      var j := CloseBrace(s, 2).value;
      assert OpensAt(s, 0);
      Lookup(values, s[2..j]) + Substitute(s[j + 1..], values)
    else
      assert NoOpening(s) ==> NoOpening(s[1..]) by {
        if NoOpening(s) { NoOpeningTail(s); }
      }
      [s[0]] + Substitute(s[1..], values)
  }

  /** A template seen as literal text and placeholders. */
  datatype Piece = Text(text: string) | Hole(name: string)

  /** Literal text holds no `#{`; a placeholder name holds no `}` and no line break. */
  predicate WellFormed(p: Piece)
  {
    match p
    case Text(t) => NoOpening(t)
    case Hole(n) => forall m :: 0 <= m < |n| ==> n[m] != '}' && !IsLineTerminator(n[m])
  }

  /** Literal runs are maximal: no two text pieces are adjacent (every template
      can be written so). */
  predicate Maximal(ps: seq<Piece>)
  {
    forall i :: 0 <= i < |ps| - 1 ==> !(ps[i].Text? && ps[i + 1].Text?)
  }

  function Spell(p: Piece): string
  {
    match p
    case Text(t) => t
    case Hole(n) => "#{" + n + "}"
  }

  /** The template text the pieces spell. */
  function Unparse(ps: seq<Piece>): string
  {
    if |ps| == 0 then "" else Spell(ps[0]) + Unparse(ps[1..])
  }

  /** The intended result: every placeholder replaced by its value. */
  function Render(ps: seq<Piece>, values: map<string, string>): string
  {
    if |ps| == 0 then ""
    else
      (match ps[0]
       case Text(t) => t
       case Hole(n) => Lookup(values, n)) + Render(ps[1..], values)
  }

  /** Where no `#{` starts, the first character is copied. */
  lemma SubstituteCopies(s: string, values: map<string, string>)
    requires |s| > 0 && !(|s| >= 2 && s[0] == '#' && s[1] == '{')
    ensures Substitute(s, values) == [s[0]] + Substitute(s[1..], values)
  {
  }

  /** Text that starts a literal run does not start a placeholder. */
  lemma LiteralStart(t: string, rest: string)
    requires |t| > 0 && NoOpening(t)
    requires t[|t| - 1] == '#' ==> |rest| == 0 || rest[0] != '{'
    ensures var s := t + rest; !(|s| >= 2 && s[0] == '#' && s[1] == '{')
  {
    var s := t + rest;
    if |s| >= 2 && |t| >= 2 {
      assert !OpensAt(t, 0);
      assert s[0] == t[0] && s[1] == t[1];
    } else if |s| >= 2 {
      assert s[0] == t[|t| - 1] && s[1] == rest[0];
    }
  }

  lemma NoOpeningTail(t: string)
    requires |t| > 0 && NoOpening(t)
    ensures NoOpening(t[1..])
  {
    forall i: nat | i + 1 < |t[1..]| ensures !OpensAt(t[1..], i) {
      assert !OpensAt(t, i + 1);
    }
  }

  lemma ConsTail(t: string, x: string)
    requires |t| > 0
    ensures [t[0]] + (t[1..] + x) == t + x
  {
    assert t == [t[0]] + t[1..];
  }

  /** The first character of a literal run is copied. */
  lemma SubstituteLiteralStep(t: string, rest: string, values: map<string, string>)
    requires |t| > 0 && NoOpening(t)
    requires t[|t| - 1] == '#' ==> |rest| == 0 || rest[0] != '{'
    ensures Substitute(t + rest, values) == [t[0]] + Substitute(t[1..] + rest, values)
  {
    LiteralStart(t, rest);
    SubstituteCopies(t + rest, values);
    assert (t + rest)[1..] == t[1..] + rest;
  }

  /** Literal text passes through unchanged, provided a final `#` of it is not
      followed by `{`. */
  lemma {:induction false} SubstituteText(t: string, rest: string, values: map<string, string>)
    requires NoOpening(t)
    requires |t| > 0 && t[|t| - 1] == '#' ==> |rest| == 0 || rest[0] != '{'
    ensures Substitute(t + rest, values) == t + Substitute(rest, values)
  {
    if |t| == 0 {
      assert t + rest == rest;
    } else {
      var u := t[1..];
      SubstituteLiteralStep(t, rest, values);
      NoOpeningTail(t);
      assert |u| > 0 ==> u[|u| - 1] == t[|t| - 1];
      SubstituteText(u, rest, values);
      ConsTail(t, Substitute(rest, values));
    }
  }

  lemma SubstituteHole(n: string, rest: string, values: map<string, string>)
    requires WellFormed(Hole(n))
    ensures Substitute("#{" + n + "}" + rest, values) == Lookup(values, n) + Substitute(rest, values)
  {
    var s := "#{" + n + "}" + rest;
    assert Closes(s, 2, 2 + |n|);
    assert s[2..2 + |n|] == n;
    assert s[2 + |n| + 1..] == rest;
  }

  /** Substitution replaces exactly the placeholders of a well-formed template. */
  lemma {:induction false} SubstituteRenders(ps: seq<Piece>, values: map<string, string>)
    requires forall i :: 0 <= i < |ps| ==> WellFormed(ps[i])
    requires Maximal(ps)
    ensures Substitute(Unparse(ps), values) == Render(ps, values)
  {
    if |ps| > 0 {
      var tail := ps[1..];
      assert Maximal(tail) by {
        assert forall i :: 0 <= i < |tail| ==> tail[i] == ps[i + 1];
      }
      SubstituteRenders(tail, values);
      match ps[0]
      case Text(t) =>
        if |tail| > 0 {
          // The next piece is a placeholder, so what follows the text starts with `#`.
          assert tail[0].Hole?;
          assert Unparse(tail) == "#{" + tail[0].name + "}" + Unparse(tail[1..]);
          assert Unparse(tail)[0] == '#';
        }
        SubstituteText(t, Unparse(tail), values);
      case Hole(n) =>
        SubstituteHole(n, Unparse(tail), values);
        assert Spell(ps[0]) + Unparse(tail) == "#{" + n + "}" + Unparse(tail);
    }
  }

  // ---------------------------------------------------------------------------
  // Line slicing: `code.split(/\r?\n/).slice(1, -1).join("\n")`
  // ---------------------------------------------------------------------------

  predicate EndsWithCR(line: string)
  {
    |line| > 0 && line[|line| - 1] == '\r'
  }

  function DropCR(line: string): string
  {
    if EndsWithCR(line) then line[..|line| - 1] else line
  }

  /** `s.split(/\r?\n/)`: cut at every `\n`, a `\r` just before it going with it. */
  function SplitLines(s: string): (lines: seq<string>)
    ensures |lines| >= 1
    ensures forall i :: 0 <= i < |lines| ==> '\n' !in lines[i]
    ensures '\r' !in s ==> forall i :: 0 <= i < |lines| ==> '\r' !in lines[i]
    decreases |s|
  {
    var i := Strings.IndexOf(s, '\n');
    if i < 0 then [s]
    else
      assert '\r' !in s ==> '\r' !in s[..i] && '\r' !in s[i + 1..];
      [DropCR(s[..i])] + SplitLines(s[i + 1..])
  }

  /** `lines.join("\n")`. */
  function JoinLines(lines: seq<string>): string
  {
    if |lines| == 0 then ""
    else if |lines| == 1 then lines[0]
    else lines[0] + "\n" + JoinLines(lines[1..])
  }

  /** The text without its first and last lines. */
  function InnerLines(s: string): (r: string)
    ensures '\n' !in s ==> r == ""
    ensures '\r' !in s && |SplitLines(s)| >= 3 ==> SplitLines(r) == SplitLines(s)[1..|SplitLines(s)| - 1]
  {
    var lines := SplitLines(s);
    var inner := if |lines| < 2 then [] else lines[1..|lines| - 1];
    assert '\r' !in s && |lines| >= 3 ==> SplitLines(JoinLines(inner)) == inner by {
      if '\r' !in s && |lines| >= 3 {
        SplitJoin(inner);
      }
    }
    JoinLines(inner)
  }

  /** Lines with no line break, none but the last ending in `\r`. */
  predicate SplittableLines(lines: seq<string>)
  {
    && (forall i :: 0 <= i < |lines| ==> '\n' !in lines[i])
    && (forall i :: 0 <= i < |lines| - 1 ==> !EndsWithCR(lines[i]))
  }

  /** The first cut of a split is at the first line break. */
  lemma SplitAtFirstBreak(first: string, rest: string)
    requires '\n' !in first && !EndsWithCR(first)
    ensures SplitLines(first + "\n" + rest) == [first] + SplitLines(rest)
  {
    var s := first + "\n" + rest;
    assert s == first + ['\n'] + rest;
    Strings.IndexOfAfterPrefix(first, '\n', rest);
    assert s[..|first|] == first;
    assert s[|first| + 1..] == rest;
  }

  /** Splitting undoes joining. */
  lemma {:induction false} SplitJoin(lines: seq<string>)
    requires |lines| >= 1 && SplittableLines(lines)
    ensures SplitLines(JoinLines(lines)) == lines
  {
    if |lines| > 1 {
      var tail := lines[1..];
      assert SplittableLines(tail) by {
        assert forall i :: 0 <= i < |tail| ==> tail[i] == lines[i + 1];
      }
      calc {
        SplitLines(JoinLines(lines));
        SplitLines(lines[0] + "\n" + JoinLines(tail));
        { SplitAtFirstBreak(lines[0], JoinLines(tail)); }
        [lines[0]] + SplitLines(JoinLines(tail));
        { SplitJoin(tail); }
        [lines[0]] + tail;
        lines;
      }
    }
  }

  /** `lines.join("\r\n")`: text with Windows line endings. */
  function JoinCRLF(lines: seq<string>): string
  {
    if |lines| == 0 then ""
    else if |lines| == 1 then lines[0]
    else lines[0] + "\r\n" + JoinCRLF(lines[1..])
  }

  /** A `\r` just before a line break goes with the break. */
  lemma SplitAtFirstCRLF(first: string, rest: string)
    requires '\n' !in first
    ensures SplitLines(first + "\r\n" + rest) == [first] + SplitLines(rest)
  {
    var s := first + "\r\n" + rest;
    assert s == (first + ['\r']) + ['\n'] + rest;
    Strings.IndexOfAfterPrefix(first + ['\r'], '\n', rest);
    assert s[..|first| + 1] == first + ['\r'];
    assert s[|first| + 2..] == rest;
  }

  /** Splitting undoes joining with `\r\n`: the `\r` before every break is dropped. */
  lemma {:induction false} SplitJoinCRLF(lines: seq<string>)
    requires |lines| >= 1 && forall i :: 0 <= i < |lines| ==> '\n' !in lines[i]
    ensures SplitLines(JoinCRLF(lines)) == lines
  {
    if |lines| > 1 {
      var tail := lines[1..];
      assert forall i :: 0 <= i < |tail| ==> tail[i] == lines[i + 1];
      calc {
        SplitLines(JoinCRLF(lines));
        SplitLines(lines[0] + "\r\n" + JoinCRLF(tail));
        { SplitAtFirstCRLF(lines[0], JoinCRLF(tail)); }
        [lines[0]] + SplitLines(JoinCRLF(tail));
        { SplitJoinCRLF(tail); }
        [lines[0]] + tail;
        lines;
      }
    }
  }

  /** Joining undoes splitting when the text has no `\r`. */
  lemma {:induction false} JoinSplit(s: string)
    requires '\r' !in s
    ensures JoinLines(SplitLines(s)) == s
    decreases |s|
  {
    var i := Strings.IndexOf(s, '\n');
    if i >= 0 {
      var line, rest := s[..i], s[i + 1..];
      assert s == line + "\n" + rest;
      assert '\r' !in rest by {
        forall k | 0 <= k < |rest| ensures rest[k] != '\r' { assert rest[k] == s[i + 1 + k]; }
      }
      assert !EndsWithCR(line) by {
        if |line| > 0 { assert line[|line| - 1] == s[i - 1]; }
      }
      JoinSplit(rest);
      var tail := SplitLines(rest);
      assert SplitLines(s) == [line] + tail;
      assert ([line] + tail)[1..] == tail;
    }
  }

  /** Slicing keeps lines 2 to k-1 of the k lines, joined with `\n`. */
  lemma InnerLinesOfJoin(lines: seq<string>)
    requires |lines| >= 2 && SplittableLines(lines)
    ensures InnerLines(JoinLines(lines)) == JoinLines(lines[1..|lines| - 1])
  {
    SplitJoin(lines);
  }

  // ---------------------------------------------------------------------------
  // The code text of the current selection
  // ---------------------------------------------------------------------------

  /** The placeholder values: the deficiency upper-cased, the severity as given. */
  function Placeholders(cvd: string, severity: string): map<string, string>
  {
    map["deficiency" := Strings.Upper(cvd), "severity" := severity]
  }

  /** A `#{deficiency}` placeholder renders as the upper-cased deficiency, a
      `#{severity}` one as the severity, and any other as `undefined`. */
  lemma PlaceholderValues(cvd: string, severity: string, name: string)
    ensures Render([Hole(name)], Placeholders(cvd, severity))
         == if name == "deficiency" then Strings.Upper(cvd)
            else if name == "severity" then severity
            else "undefined"
  {
    assert [Hole(name)][1..] == [];
  }

  /** Which template is used: `none` when no deficiency is selected, else the method's own. */
  function TemplateName(simulation: string, cvd: string): string
  {
    if cvd == "none" then "none" else simulation
  }

  /** The code text for a selection, or `None` when the page has no such
      template (reading `innerHTML` of a missing element throws). */
  function GenerateCode(templates: map<string, string>, simulation: string, cvd: string, severity: string): (r: Option<string>)
    ensures cvd == "none" ==> (r.Some? <==> "none" in templates)
    ensures cvd != "none" ==> (r.Some? <==> simulation in templates)
  {
    var name := TemplateName(simulation, cvd);
    if name in templates then Some(InnerLines(Substitute(templates[name], Placeholders(cvd, severity))))
    else None
  }

  /** For a template whose rendered text has lines l1..lk, the generated code is
      l2..l(k-1), taken from the `none` template when no deficiency is selected. */
  lemma GeneratedCodeKeepsInnerLines(templates: map<string, string>, simulation: string, cvd: string,
                                     severity: string, ps: seq<Piece>, lines: seq<string>)
    requires TemplateName(simulation, cvd) in templates && templates[TemplateName(simulation, cvd)] == Unparse(ps)
    requires forall i :: 0 <= i < |ps| ==> WellFormed(ps[i])
    requires Maximal(ps)
    requires |lines| >= 2 && SplittableLines(lines)
    requires Render(ps, Placeholders(cvd, severity)) == JoinLines(lines)
    ensures cvd == "none" ==> "none" in templates && templates["none"] == Unparse(ps)
    ensures GenerateCode(templates, simulation, cvd, severity) == Some(JoinLines(lines[1..|lines| - 1]))
  {
    SubstituteRenders(ps, Placeholders(cvd, severity));
    InnerLinesOfJoin(lines);
  }
}
