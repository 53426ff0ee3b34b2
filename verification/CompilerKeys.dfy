/** The strings the compiler worker hashes into cache keys, and why no two different requests
    are given the same one. */
module CompilerKeys {
  const NUL: char := '\0'
  const COMPILER_VERSION := "roslyn-5.0.0/wrapper-1"
  const OPTIONS_KEY := "library;debug;unsafe=false;" + "nullable=disable;" + "nowarn=0105,1701,1702"
  const DEFAULT_USINGS := [
    "System", "System.Collections.Generic", "System.IO", "System.Linq", "System.Reflection",
    "System.Threading.Tasks", "UnityEngine", "UnityEngine.SceneManagement", "UnityEditor",
    "UnityEditor.SceneManagement", "UnityEditorInternal"
  ]

  /** The explicit language versions; a key spells one by its number or by its name. */
  datatype LanguageVersion =
    | CSharp1 | CSharp2 | CSharp3 | CSharp4 | CSharp5 | CSharp6 | CSharp7 | CSharp7_1 | CSharp7_2 | CSharp7_3
    | CSharp8 | CSharp9 | CSharp10 | CSharp11 | CSharp12 | CSharp13 | CSharp14
  {
    function Number(): string {
      match this
      case CSharp1 => "1" case CSharp2 => "2" case CSharp3 => "3" case CSharp4 => "4" case CSharp5 => "5"
      case CSharp6 => "6" case CSharp7 => "7" case CSharp7_1 => "701" case CSharp7_2 => "702" case CSharp7_3 => "703"
      case CSharp8 => "800" case CSharp9 => "900" case CSharp10 => "1000" case CSharp11 => "1100"
      case CSharp12 => "1200" case CSharp13 => "1300" case CSharp14 => "1400"
    }

    function Name(): string {
      match this
      case CSharp1 => "CSharp1" case CSharp2 => "CSharp2" case CSharp3 => "CSharp3" case CSharp4 => "CSharp4"
      case CSharp5 => "CSharp5" case CSharp6 => "CSharp6" case CSharp7 => "CSharp7" case CSharp7_1 => "CSharp7_1"
      case CSharp7_2 => "CSharp7_2" case CSharp7_3 => "CSharp7_3" case CSharp8 => "CSharp8" case CSharp9 => "CSharp9"
      case CSharp10 => "CSharp10" case CSharp11 => "CSharp11" case CSharp12 => "CSharp12"
      case CSharp13 => "CSharp13" case CSharp14 => "CSharp14"
    }
  }

  // ---- The wrapped source -----------------------------------------------------------

  function UsingLines(usings: seq<string>): string {
    if usings == [] then "" else UsingLines(usings[..|usings| - 1]) + "using " + usings[|usings| - 1] + ";\n"
  }

  const SOURCE_END := "\n  }\n}\n"

  function Opening(usings: seq<string>): string {
    UsingLines(DEFAULT_USINGS + usings) + "\n" + "public static class __CliDynamic {\n  public static object Execute() {\n"
  }

  function BuildSource(code: string, usings: seq<string>): string { Opening(usings) + code + SOURCE_END }

  // ---- The keys before hashing ------------------------------------------------------

  function Join(parts: seq<string>): string {
    if parts == [] then "" else if |parts| == 1 then parts[0] else parts[0] + [NUL] + Join(parts[1..])
  }

  function SourceKey(project: string, source: string, language: LanguageVersion, identities: seq<string>): string {
    Join([COMPILER_VERSION, project, source, language.Number(), OPTIONS_KEY, Join(identities)])
  }

  function BaseKey(project: string, language: LanguageVersion, identities: seq<string>): string {
    Join([COMPILER_VERSION, project, language.Name(), OPTIONS_KEY, Join(identities)])
  }

  /** A reference identity: a path, a bar, and 32 hexadecimal digits. */
  function Identity(path: string, mvid: string): string { path + "|" + mvid }

  function MvidOf(identity: string): string
    requires 32 <= |identity|
  {
    identity[|identity| - 32..]
  }

  predicate IsMvid(s: string) { |s| == 32 && forall c | c in s :: '0' <= c <= '9' || 'a' <= c <= 'f' }

  predicate IsIdentity(s: string) { 32 <= |s| && NUL !in s && IsMvid(MvidOf(s)) }

  predicate AreIdentities(identities: seq<string>) {
    identities != [] && forall s | s in identities :: IsIdentity(s)
  }

  // ---- Decoding ---------------------------------------------------------------------

  /** The length of the first NUL-free field. */
  function FieldLength(s: string): (n: nat)
    ensures n <= |s| && (n < |s| ==> s[n] == NUL) && forall i | 0 <= i < n :: s[i] != NUL
  {
    if s == [] || s[0] == NUL then 0 else 1 + FieldLength(s[1..])
  }

  lemma FieldLengthIs(a: string, x: string)
    requires NUL !in a
    ensures FieldLength(a + [NUL] + x) == |a|
  {
    var s := a + [NUL] + x;
    assert s[|a|] == NUL;
    assert forall i | 0 <= i < |a| :: s[i] == a[i];
  }

  lemma SplitAtNul(a: string, b: string, x: string, y: string)
    requires NUL !in a && NUL !in b && a + [NUL] + x == b + [NUL] + y
    ensures a == b && x == y
  {
    FieldLengthIs(a, x);
    FieldLengthIs(b, y);
    var s := a + [NUL] + x;
    assert a == s[..|a|] && b == s[..|b|] && x == s[|a| + 1..] && y == s[|b| + 1..];
  }

  lemma JoinHasNul(identities: seq<string>)
    requires AreIdentities(identities)
    ensures NUL in Join(identities) <==> |identities| > 1
  {
    assert IsIdentity(identities[0]);
    if |identities| > 1 {
      assert Join(identities)[|identities[0]|] == NUL;
    }
  }

  lemma {:induction false} JoinInjective(xs: seq<string>, ys: seq<string>)
    requires AreIdentities(xs) && AreIdentities(ys) && Join(xs) == Join(ys)
    ensures xs == ys
  {
    assert IsIdentity(xs[0]) && IsIdentity(ys[0]);
    JoinHasNul(xs);
    JoinHasNul(ys);
    if |xs| > 1 {
      SplitAtNul(xs[0], ys[0], Join(xs[1..]), Join(ys[1..]));
      JoinInjective(xs[1..], ys[1..]);
      assert xs == [xs[0]] + xs[1..] && ys == [ys[0]] + ys[1..];
    }
  }

  lemma JoinFive(a: string, b: string, c: string, d: string, e: string)
    ensures Join([a, b, c, d, e]) == a + [NUL] + (b + [NUL] + (c + [NUL] + (d + [NUL] + e)))
  {
    assert [a, b, c, d, e][1..] == [b, c, d, e];
    assert [b, c, d, e][1..] == [c, d, e];
    assert [c, d, e][1..] == [d, e] && [d, e][1..] == [e];
    assert Join([c, d, e]) == c + [NUL] + Join([d, e]);
    assert Join([d, e]) == d + [NUL] + e;
  }

  /** What follows the source in a key. */
  function Tail(language: LanguageVersion, identities: seq<string>): string {
    [NUL] + (language.Number() + [NUL] + (OPTIONS_KEY + [NUL] + Join(identities)))
  }

  lemma SourceKeyShape(project: string, source: string, language: LanguageVersion, identities: seq<string>)
    ensures SourceKey(project, source, language, identities)
         == COMPILER_VERSION + [NUL] + (project + [NUL] + (source + Tail(language, identities)))
  {
    var parts := [COMPILER_VERSION, project, source, language.Number(), OPTIONS_KEY, Join(identities)];
    assert parts[1..] == [project, source, language.Number(), OPTIONS_KEY, Join(identities)];
    JoinFive(project, source, language.Number(), OPTIONS_KEY, Join(identities));
    TailFollows(source, language.Number() + [NUL] + (OPTIONS_KEY + [NUL] + Join(identities)));
  }

  lemma TailFollows(source: string, rest: string)
    ensures source + [NUL] + rest == source + ([NUL] + rest)
  {
  }

  /** No field after the source ends in a line feed. */
  ghost predicate NoLineEndsField(s: string) {
    forall p | 0 <= p < |s| - 1 && s[p + 1] == NUL :: s[p] != '\n'
  }

  lemma {:induction false} JoinEndsNoLine(identities: seq<string>)
    requires AreIdentities(identities)
    ensures NoLineEndsField(Join(identities))
  {
    var first := identities[0];
    assert IsIdentity(first);
    if |identities| > 1 {
      JoinEndsNoLine(identities[1..]);
      var rest := Join(identities[1..]);
      var s := Join(identities);
      assert s == first + [NUL] + rest;
      assert rest != [] && rest[0] != NUL by {
        assert IsIdentity(identities[1]) && identities[1] == identities[1..][0];
        assert rest[0] == identities[1][0];
      }
      assert forall i | 0 <= i < |first| :: s[i] == first[i] && first[i] != NUL;
      forall p | 0 <= p < |s| - 1 && s[p + 1] == NUL
        ensures s[p] != '\n'
      {
        if p + 1 == |first| {
          assert s[p] == MvidOf(first)[31];
          assert MvidOf(first)[31] in MvidOf(first);
        } else {
          assert |first| < p + 1 && p != |first|;
          assert s[p] == rest[p - |first| - 1] && s[p + 1] == rest[p - |first|];
        }
      }
    }
  }

  lemma TailEndsNoLine(language: LanguageVersion, identities: seq<string>)
    requires AreIdentities(identities)
    ensures NoLineEndsField(Tail(language, identities))
  {
    JoinEndsNoLine(identities);
    var number, options, ids := language.Number(), OPTIONS_KEY, Join(identities);
    var s := Tail(language, identities);
    assert forall i | 0 <= i < |number| :: '0' <= number[i] <= '9';
    OptionsAreClean();
    forall p | 0 <= p < |s| - 1 && s[p + 1] == NUL
      ensures s[p] != '\n'
    {
      if p < |number| + 1 {
        assert s[p] == if p == 0 then NUL else number[p - 1];
      } else if p < |number| + |options| + 2 {
        assert s[p] == if p == |number| + 1 then NUL else options[p - |number| - 2];
      } else {
        var q := p - |number| - |options| - 2;
        assert s[p] == if q == 0 then NUL else ids[q - 1];
        assert s[p + 1] == ids[q];
      }
    }
  }

  lemma OptionsAreClean()
    ensures NUL !in OPTIONS_KEY && '\n' !in OPTIONS_KEY
  {
    assert forall c | c in "library;debug;unsafe=false;" :: c != NUL && c != '\n';
    assert forall c | c in "nullable=disable;" :: c != NUL && c != '\n';
    assert forall c | c in "nowarn=0105,1701,1702" :: c != NUL && c != '\n';
  }

  /** A field end just after a line feed. */
  predicate LineEndsField(s: string, p: int) {
    0 <= p < |s| - 1 && s[p] == '\n' && s[p + 1] == NUL
  }

  /** The source ends at the last field end that follows a line feed. */
  lemma LastLineEnd(a: string, x: string)
    requires a != [] && a[|a| - 1] == '\n' && x != [] && x[0] == NUL && NoLineEndsField(x)
    ensures LineEndsField(a + x, |a| - 1)
    ensures forall p | |a| <= p :: !LineEndsField(a + x, p)
  {
    var s := a + x;
    forall p | |a| <= p < |s| - 1
      ensures !LineEndsField(s, p)
    {
      assert s[p] == x[p - |a|] && s[p + 1] == x[p + 1 - |a|];
    }
  }

  lemma SameSource(a: string, b: string, x: string, y: string)
    requires a != [] && b != [] && a[|a| - 1] == '\n' && b[|b| - 1] == '\n'
    requires x != [] && y != [] && x[0] == NUL && y[0] == NUL && NoLineEndsField(x) && NoLineEndsField(y)
    requires a + x == b + y
    ensures a == b && x == y
  {
    LastLineEnd(a, x);
    LastLineEnd(b, y);
    var s := a + x;
    assert LineEndsField(s, |a| - 1) && LineEndsField(s, |b| - 1);
    assert |a| == |b|;
    assert a == s[..|a|] && b == s[..|b|] && x == s[|a|..] && y == s[|b|..];
  }

  /** A source may itself contain NUL; it still cannot be confused with its neighbours, because
      it ends in a line feed and no later field does. */
  lemma SourceKeyInjective(p: string, q: string, a: string, b: string, k: LanguageVersion, l: LanguageVersion,
                           xs: seq<string>, ys: seq<string>)
    requires NUL !in p && NUL !in q && AreIdentities(xs) && AreIdentities(ys)
    requires a != [] && b != [] && a[|a| - 1] == '\n' && b[|b| - 1] == '\n'
    requires SourceKey(p, a, k, xs) == SourceKey(q, b, l, ys)
    ensures p == q && a == b && k == l && xs == ys
  {
    SourceKeyShape(p, a, k, xs);
    SourceKeyShape(q, b, l, ys);
    VersionIsClean();
    OptionsAreClean();
    SplitAtNul(COMPILER_VERSION, COMPILER_VERSION, p + [NUL] + (a + Tail(k, xs)), q + [NUL] + (b + Tail(l, ys)));
    SplitAtNul(p, q, a + Tail(k, xs), b + Tail(l, ys));
    TailEndsNoLine(k, xs);
    TailEndsNoLine(l, ys);
    SameSource(a, b, Tail(k, xs), Tail(l, ys));
    var u, v := k.Number() + [NUL] + (OPTIONS_KEY + [NUL] + Join(xs)), l.Number() + [NUL] + (OPTIONS_KEY + [NUL] + Join(ys));
    assert u == Tail(k, xs)[1..] && v == Tail(l, ys)[1..];
    SplitAtNul(k.Number(), l.Number(), OPTIONS_KEY + [NUL] + Join(xs), OPTIONS_KEY + [NUL] + Join(ys));
    SplitAtNul(OPTIONS_KEY, OPTIONS_KEY, Join(xs), Join(ys));
    JoinInjective(xs, ys);
  }

  lemma VersionIsClean()
    ensures NUL !in COMPILER_VERSION
  {
  }

  lemma BaseKeyInjective(p: string, q: string, k: LanguageVersion, l: LanguageVersion, xs: seq<string>, ys: seq<string>)
    requires NUL !in p && NUL !in q && AreIdentities(xs) && AreIdentities(ys)
    requires BaseKey(p, k, xs) == BaseKey(q, l, ys)
    ensures p == q && k == l && xs == ys
  {
    BaseKeyShape(p, k, xs);
    BaseKeyShape(q, l, ys);
    VersionIsClean();
    OptionsAreClean();
    var u, v := k.Name() + [NUL] + (OPTIONS_KEY + [NUL] + Join(xs)), l.Name() + [NUL] + (OPTIONS_KEY + [NUL] + Join(ys));
    SplitAtNul(COMPILER_VERSION, COMPILER_VERSION, p + [NUL] + u, q + [NUL] + v);
    SplitAtNul(p, q, u, v);
    SplitAtNul(k.Name(), l.Name(), OPTIONS_KEY + [NUL] + Join(xs), OPTIONS_KEY + [NUL] + Join(ys));
    SplitAtNul(OPTIONS_KEY, OPTIONS_KEY, Join(xs), Join(ys));
    JoinInjective(xs, ys);
  }

  lemma BaseKeyShape(project: string, language: LanguageVersion, identities: seq<string>)
    ensures BaseKey(project, language, identities)
         == COMPILER_VERSION + [NUL] + (project + [NUL] + (language.Name() + [NUL] + (OPTIONS_KEY + [NUL] + Join(identities))))
  {
    JoinFive(COMPILER_VERSION, project, language.Name(), OPTIONS_KEY, Join(identities));
  }

  lemma BuildSourceEnds(code: string, usings: seq<string>)
    ensures var s := BuildSource(code, usings); s != [] && s[|s| - 1] == '\n'
  {
  }

  lemma Swallow(a: string, n: string, s: string, t: string)
    ensures a + n + ((s + n + s) + t) == (a + n + s) + n + (s + t)
  {
  }

  /** A wrapped source twice over, with a NUL between, is again a wrapped source. */
  lemma TwiceWrapped(code: string, usings: seq<string>)
    ensures BuildSource(code + SOURCE_END + [NUL] + Opening(usings) + code, usings)
         == BuildSource(code, usings) + [NUL] + BuildSource(code, usings)
  {
    Regroup(Opening(usings), code, SOURCE_END, [NUL]);
  }

  lemma Regroup(o: string, c: string, e: string, n: string)
    ensures o + (c + e + n + o + c) + e == (o + c + e) + n + (o + c + e)
  {
  }

  /** The condition on project ids is needed: a NUL in one lets it swallow part of a source, so that
      two different snippets of two different projects share a key. */
  lemma NulInProjectIdCollides(project: string, code: string, usings: seq<string>, language: LanguageVersion,
                               identities: seq<string>)
    ensures var source := BuildSource(code, usings);
      var longer := BuildSource(code + SOURCE_END + [NUL] + Opening(usings) + code, usings);
      && SourceKey(project, longer, language, identities)
         == SourceKey(project + [NUL] + source, source, language, identities)
      && longer != source
  {
    var source := BuildSource(code, usings);
    TwiceWrapped(code, usings);
    BuildSourceEnds(code, usings);
    hide BuildSource, Opening;
    var longer := source + [NUL] + source;
    SourceKeyShape(project, longer, language, identities);
    SourceKeyShape(project + [NUL] + source, source, language, identities);
    Swallow(project, [NUL], source, Tail(language, identities));
    assert |longer| != |source|;
  }
}
