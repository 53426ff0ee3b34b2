/** Reading a wrapped snippet back, line by line, without looking at how it was written. */
module WrappedSource {
  import opened Wrappers
  import opened CompilerKeys

  predicate StartsWith(s: string, prefix: string) { |prefix| <= |s| && s[..|prefix|] == prefix }

  predicate EndsWith(s: string, suffix: string) { |suffix| <= |s| && s[|s| - |suffix|..] == suffix }

  /** The length of the first line. */
  function LineLength(s: string): (n: nat)
    ensures n <= |s| && (n < |s| ==> s[n] == '\n') && forall i | 0 <= i < n :: s[i] != '\n'
  {
    if s == [] || s[0] == '\n' then 0 else 1 + LineLength(s[1..])
  }

  /** More names in front of those already read. */
  function Prepend(names: seq<string>, read: Option<(seq<string>, string)>): Option<(seq<string>, string)> {
    match read case None => None case Some((others, rest)) => Some((names + others, rest))
  }

  /** The names that the directives up to the first empty line bring in, and what follows that line. */
  function Directives(s: string): Option<(seq<string>, string)>
    decreases |s|
  {
    var n := LineLength(s);
    if n == |s| then None
    else if n == 0 then Some(([], s[1..]))
    else if n < 7 || s[..6] != "using " || s[n - 1] != ';' then None
    else Prepend([s[6..n - 1]], Directives(s[n + 1..]))
  }

  const METHOD_START := "public static class __CliDynamic {\n  public static object Execute() {\n"
  const METHOD_END := "\n  }\n}\n"

  /** The names brought in, and the body of the one method. */
  function Read(s: string): Option<(seq<string>, string)> {
    match Directives(s)
    case None => None
    case Some((names, rest)) =>
      if |METHOD_START| + |METHOD_END| <= |rest| && StartsWith(rest, METHOD_START) && EndsWith(rest, METHOD_END)
      then Some((names, rest[|METHOD_START|..|rest| - |METHOD_END|]))
      else None
  }

  predicate OneLine(s: string) { '\n' !in s }

  lemma LineLengthIs(line: string, rest: string)
    requires OneLine(line)
    ensures LineLength(line + ['\n'] + rest) == |line|
  {
    var s := line + ['\n'] + rest;
    assert s[|line|] == '\n';
    assert forall i | 0 <= i < |line| :: s[i] == line[i] && line[i] in line;
  }

  lemma {:induction false} NamesAreLines(s: string)
    requires Directives(s).Some?
    ensures forall name | name in Directives(s).value.0 :: OneLine(name)
    decreases |s|
  {
    var n := LineLength(s);
    if n > 0 {
      NamesAreLines(s[n + 1..]);
      assert OneLine(s[6..n - 1]);
    }
  }

  lemma OneDirective(name: string, rest: string)
    requires OneLine(name)
    ensures Directives("using " + name + ";\n" + rest) == Prepend([name], Directives(rest))
  {
    var line := "using " + name + ";";
    var s := "using " + name + ";\n" + rest;
    assert s == line + ['\n'] + rest;
    assert OneLine(line) by { assert forall c | c in "using " :: c != '\n'; }
    LineLengthIs(line, rest);
    assert s[..6] == "using " && s[|line| - 1] == ';';
    assert s[6..|line| - 1] == name && s[|line| + 1..] == rest;
  }

  lemma {:induction false} WrittenDirectives(usings: seq<string>, rest: string)
    requires forall u | u in usings :: OneLine(u)
    ensures Directives(UsingLines(usings) + rest) == Prepend(usings, Directives(rest))
  {
    if usings == [] {
      assert UsingLines(usings) + rest == rest;
      if Directives(rest).Some? { assert usings + Directives(rest).value.0 == Directives(rest).value.0; }
    } else {
      var front, last := usings[..|usings| - 1], usings[|usings| - 1];
      var more := "using " + last + ";\n" + rest;
      LinesRegroup(UsingLines(front), last, rest);
      assert UsingLines(usings) + rest == UsingLines(front) + more;
      assert forall u | u in front :: u in usings;
      hide Directives, UsingLines, OneLine, Prepend;
      WrittenDirectives(front, more);
      OneDirective(last, rest);
      PrependTwice(front, last, Directives(rest));
      assert usings == front + [last];
    }
  }

  lemma PrependTwice(names: seq<string>, name: string, read: Option<(seq<string>, string)>)
    ensures Prepend(names, Prepend([name], read)) == Prepend(names + [name], read)
  {
    if read.Some? { assert names + ([name] + read.value.0) == names + [name] + read.value.0; }
  }

  lemma LinesRegroup(lines: string, name: string, rest: string)
    ensures lines + "using " + name + ";\n" + rest == lines + ("using " + name + ";\n" + rest)
  {
    assert lines + "using " + name + ";\n" + rest == lines + "using " + name + (";\n" + rest);
    assert lines + "using " + name + (";\n" + rest) == lines + "using " + (name + (";\n" + rest));
  }

  lemma BodyRegroup(a: string, b: string, c: string, d: string, e: string)
    ensures a + b + c + d + e == a + (b + (c + d + e))
  {
  }

  lemma OpeningShape(code: string, usings: seq<string>)
    ensures BuildSource(code, usings) == UsingLines(DEFAULT_USINGS + usings) + ("\n" + (METHOD_START + code + METHOD_END))
  {
    var lines := UsingLines(DEFAULT_USINGS + usings);
    assert BuildSource(code, usings) == lines + "\n" + METHOD_START + code + METHOD_END;
    BodyRegroup(lines, "\n", METHOD_START, code, METHOD_END);
  }

  lemma DefaultsAreLines()
    ensures forall u | u in DEFAULT_USINGS :: OneLine(u)
  {
  }

  lemma ReadsBody(code: string)
    ensures var rest := METHOD_START + code + METHOD_END;
      && StartsWith(rest, METHOD_START) && EndsWith(rest, METHOD_END)
      && rest[|METHOD_START|..|rest| - |METHOD_END|] == code
  {
  }

  /** A wrapped snippet reads back as the eleven default names, then the caller's in order, and the
      snippet itself, if and only if none of the caller's names holds a line feed. */
  lemma ReadsBack(code: string, usings: seq<string>)
    ensures (Read(BuildSource(code, usings)) == Some((
      ["System", "System.Collections.Generic", "System.IO", "System.Linq", "System.Reflection", "System.Threading.Tasks",
       "UnityEngine", "UnityEngine.SceneManagement", "UnityEditor", "UnityEditor.SceneManagement", "UnityEditorInternal"]
      + usings, code)))
      <==> forall u | u in usings :: OneLine(u)
  {
    var s, rest, all := BuildSource(code, usings), METHOD_START + code + METHOD_END, DEFAULT_USINGS + usings;
    OpeningShape(code, usings);
    DefaultsAreLines();
    ReadsBody(code);
    hide BuildSource, UsingLines, OneLine;
    if forall u | u in usings :: OneLine(u) {
      WrittenDirectives(all, "\n" + rest);
      EmptyLine(rest);
      assert all + [] == all;
    }
    if Directives(s).Some? { NamesAreLines(s); }
    assert forall u | u in usings :: u in all;
  }

  lemma EmptyLine(rest: string)
    ensures Directives("\n" + rest) == Some(([], rest))
  {
    assert ("\n" + rest)[1..] == rest;
  }

  /** So no two requests with proper names are compiled from the same text. */
  lemma SourcesDiffer(a: string, us: seq<string>, b: string, vs: seq<string>)
    requires (forall u | u in us :: OneLine(u)) && (forall v | v in vs :: OneLine(v))
    requires BuildSource(a, us) == BuildSource(b, vs)
    ensures a == b && us == vs
  {
    ReadsBack(a, us);
    ReadsBack(b, vs);
    hide BuildSource, Read, OneLine;
    assert us == (DEFAULT_USINGS + us)[|DEFAULT_USINGS|..];
    assert vs == (DEFAULT_USINGS + vs)[|DEFAULT_USINGS|..];
  }
}
