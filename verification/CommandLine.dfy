/** Quoting arguments for a Windows command line, and how the Microsoft C runtime reads one back. */
module CommandLine {
  import opened Wrappers

  function Slashes(n: nat): string { if n == 0 then "" else "\\" + Slashes(n - 1) }

  // ---- Writing ----------------------------------------------------------------------

  /** The text between the outer quotes, when `slashes` backslashes have been read but not written. */
  function Escape(value: string, slashes: nat): string {
    if value == "" then Slashes(2 * slashes)
    else if value[0] == '\\' then Escape(value[1..], slashes + 1)
    else if value[0] == '"' then Slashes(2 * slashes + 1) + "\"" + Escape(value[1..], 0)
    else Slashes(slashes) + [value[0]] + Escape(value[1..], 0)
  }

  function Text(value: Option<string>): string { match value case Some(text) => text case None => "" }

  function Quoted(value: Option<string>): string { "\"" + Escape(Text(value), 0) + "\"" }

  function Joined(args: seq<Option<string>>): string {
    if args == [] then "" else if |args| == 1 then Quoted(args[0]) else Quoted(args[0]) + " " + Joined(args[1..])
  }

  method QuoteArgument(value: Option<string>) returns (quoted: string)
    ensures quoted == Quoted(value)
  {
    var text := match value case Some(text) => text case None => "";
    var result := "\"";
    var slashes := 0;
    for i := 0 to |text|
      invariant result + Escape(text[i..], slashes) == "\"" + Escape(text, 0)
    {
      var ch := text[i];
      assert text[i..][1..] == text[i + 1..];
      if ch == '\\' {
        slashes := slashes + 1;
        continue;
      }
      if ch == '"' {
        result := result + Slashes(slashes * 2 + 1);
      } else {
        result := result + Slashes(slashes);
      }
      result := result + [ch];
      slashes := 0;
    }
    result := result + Slashes(slashes * 2);
    quoted := result + "\"";
  }

  // ---- Reading ----------------------------------------------------------------------

  predicate Blank(c: char) { c == ' ' || c == '\t' }

  /** One argument and what follows it, when `slashes` backslashes have just been read. */
  function ReadOne(line: string, quoted: bool, slashes: nat): (r: (string, string))
    ensures |r.1| <= |line|
    ensures line != "" && (quoted || !Blank(line[0])) ==> |r.1| < |line|
  {
    if line == "" then (Slashes(slashes), "")
    else if line[0] == '\\' then ReadOne(line[1..], quoted, slashes + 1)
    else if line[0] == '"' then
      if slashes % 2 == 1 then
        var (arg, rest) := ReadOne(line[1..], quoted, 0);
        (Slashes(slashes / 2) + "\"" + arg, rest)
      else if quoted && |line| > 1 && line[1] == '"' then
        var (arg, rest) := ReadOne(line[2..], quoted, 0);
        (Slashes(slashes / 2) + "\"" + arg, rest)
      else
        var (arg, rest) := ReadOne(line[1..], !quoted, 0);
        (Slashes(slashes / 2) + arg, rest)
    else if !quoted && Blank(line[0]) then (Slashes(slashes), line)
    else
      var (arg, rest) := ReadOne(line[1..], quoted, 0);
      (Slashes(slashes) + [line[0]] + arg, rest)
  }

  function Split(line: string): seq<string>
    decreases |line|
  {
    if line == "" then []
    else if Blank(line[0]) then Split(line[1..])
    else
      var (arg, rest) := ReadOne(line, false, 0);
      [arg] + Split(rest)
  }

  /** What the runtime sees of a command line: everything before the first NUL. */
  function Visible(line: string): string {
    if line == "" || line[0] == '\0' then "" else [line[0]] + Visible(line[1..])
  }

  // ---- Round trip -------------------------------------------------------------------

  lemma {:induction false} ReadSlashes(n: nat, line: string, quoted: bool, slashes: nat)
    ensures ReadOne(Slashes(n) + line, quoted, slashes) == ReadOne(line, quoted, slashes + n)
  {
    if n == 0 {
      assert Slashes(n) + line == line;
    } else {
      assert (Slashes(n) + line)[1..] == Slashes(n - 1) + line;
      ReadSlashes(n - 1, line, quoted, slashes + 1);
    }
  }

  lemma {:induction false} SlashesAdd(a: nat, b: nat)
    ensures Slashes(a) + Slashes(b) == Slashes(a + b)
  {
    if a > 0 {
      SlashesAdd(a - 1, b);
      assert Slashes(a) + Slashes(b) == "\\" + (Slashes(a - 1) + Slashes(b));
    }
  }

  /** One character inside quotes, after the backslashes written before it. */
  lemma ReadCharacter(c: char, slashes: nat, after: string)
    requires c != '\\'
    ensures var n := if c == '"' then 2 * slashes + 1 else slashes;
      ReadOne(Slashes(n) + ([c] + after), true, 0)
        == (Slashes(slashes) + [c] + ReadOne(after, true, 0).0, ReadOne(after, true, 0).1)
  {
    var n := if c == '"' then 2 * slashes + 1 else slashes;
    ReadSlashes(n, [c] + after, true, 0);
    assert ([c] + after)[1..] == after;
    if c == '"' { assert n % 2 == 1 && n / 2 == slashes; }
  }

  /** The closing quote, after the doubled backslashes before it. */
  lemma ReadClosing(slashes: nat, rest: string)
    requires rest == "" || rest[0] == ' '
    ensures ReadOne(Slashes(2 * slashes) + ("\"" + rest), true, 0) == (Slashes(slashes), rest)
  {
    ReadSlashes(2 * slashes, "\"" + rest, true, 0);
    assert ("\"" + rest)[1..] == rest;
    assert Slashes(slashes) + Slashes(0) == Slashes(slashes);
  }

  lemma OneMore(slashes: nat, tail: string)
    ensures Slashes(slashes + 1) + tail == Slashes(slashes) + ("\\" + tail)
  {
    SlashesAdd(slashes, 1);
    assert Slashes(1) == "\\";
    assert Slashes(slashes) + "\\" + tail == Slashes(slashes) + ("\\" + tail);
  }

  lemma Regroup(a: string, b: string, c: string, d: string)
    ensures a + b + c + d == a + (b + (c + d))
  {
  }

  lemma ReadOrdinary(value: string, slashes: nat, rest: string)
    requires value != "" && value[0] != '\\'
    requires ReadOne(Escape(value[1..], 0) + "\"" + rest, true, 0) == (value[1..], rest)
    ensures ReadOne(Escape(value, slashes) + "\"" + rest, true, 0) == (Slashes(slashes) + value, rest)
  {
    hide ReadOne, Slashes;
    var c, tail := value[0], Escape(value[1..], 0);
    var n := if c == '"' then 2 * slashes + 1 else slashes;
    ReadCharacter(c, slashes, tail + "\"" + rest);
    assert Escape(value, slashes) == Slashes(n) + [c] + tail;
    hide Escape;
    Regroup(Slashes(n), [c], tail, "\"" + rest);
    Regroup(Slashes(n) + [c], tail, "\"", rest);
    Regroup(tail, "\"", rest, "");
    assert Slashes(n) + [c] + tail + "\"" + rest == Slashes(n) + ([c] + (tail + "\"" + rest));
    assert Slashes(slashes) + [c] + value[1..] == Slashes(slashes) + value;
  }

  /** Reading undoes escaping, up to the closing quote and no further. */
  lemma {:induction false} ReadEscaped(value: string, slashes: nat, rest: string)
    requires rest == "" || rest[0] == ' '
    ensures ReadOne(Escape(value, slashes) + "\"" + rest, true, 0) == (Slashes(slashes) + value, rest)
    decreases |value|
  {
    hide ReadOne;
    if value == "" {
      ReadClosing(slashes, rest);
      assert Slashes(2 * slashes) + "\"" + rest == Slashes(2 * slashes) + ("\"" + rest);
      assert Slashes(slashes) + value == Slashes(slashes);
    } else if value[0] == '\\' {
      ReadEscaped(value[1..], slashes + 1, rest);
      OneMore(slashes, value[1..]);
      assert "\\" + value[1..] == value;
    } else {
      ReadEscaped(value[1..], 0, rest);
      assert Slashes(0) + value[1..] == value[1..];
      ReadOrdinary(value, slashes, rest);
    }
  }

  lemma ReadQuoted(value: Option<string>, rest: string)
    requires rest == "" || rest[0] == ' '
    ensures ReadOne(Quoted(value) + rest, false, 0) == (Text(value), rest)
  {
    var inner := Escape(Text(value), 0) + "\"" + rest;
    assert Quoted(value) + rest == "\"" + inner && ("\"" + inner)[1..] == inner;
    ReadEscaped(Text(value), 0, rest);
    assert Slashes(0) + Text(value) == Text(value);
    assert Slashes(0 / 2) + Text(value) == Text(value);
  }

  ghost function Texts(args: seq<Option<string>>): seq<string> {
    if args == [] then [] else [Text(args[0])] + Texts(args[1..])
  }

  lemma {:induction false} SplitJoined(args: seq<Option<string>>)
    ensures Split(Joined(args)) == Texts(args)
  {
    if args != [] {
      var rest := if |args| == 1 then "" else " " + Joined(args[1..]);
      ReadQuoted(args[0], rest);
      assert Joined(args) == Quoted(args[0]) + rest;
      assert (Quoted(args[0]) + rest)[0] == '"';
      SplitJoined(args[1..]);
      if |args| > 1 { assert rest[1..] == Joined(args[1..]); }
    }
  }

  // ---- What the runtime cannot carry ------------------------------------------------

  predicate Carried(text: string) { '\0' !in text }

  lemma {:induction false} VisibleMeans(line: string)
    ensures '\0' !in Visible(line)
    ensures '\0' !in line ==> Visible(line) == line
  {
    if line != "" {
      VisibleMeans(line[1..]);
      assert line == [line[0]] + line[1..];
    }
  }

  lemma {:induction false} SlashesAreCarried(n: nat)
    ensures '\0' !in Slashes(n)
  {
    if n > 0 { SlashesAreCarried(n - 1); }
  }

  lemma {:induction false} ReadOneCarries(line: string, quoted: bool, slashes: nat)
    requires '\0' !in line
    ensures '\0' !in ReadOne(line, quoted, slashes).0 && '\0' !in ReadOne(line, quoted, slashes).1
    decreases |line|
  {
    SlashesAreCarried(slashes);
    SlashesAreCarried(slashes / 2);
    if line != "" {
      assert line == [line[0]] + line[1..];
      if line[0] == '\\' {
        ReadOneCarries(line[1..], quoted, slashes + 1);
      } else {
        ReadOneCarries(line[1..], quoted, 0);
        ReadOneCarries(line[1..], !quoted, 0);
        if |line| > 1 {
          assert line[1..] == [line[1]] + line[2..];
          ReadOneCarries(line[2..], quoted, 0);
        }
      }
    }
  }

  lemma {:induction false} SplitCarries(line: string)
    requires '\0' !in line
    ensures forall arg | arg in Split(line) :: '\0' !in arg
    decreases |line|
  {
    if line != "" {
      assert line == [line[0]] + line[1..];
      if Blank(line[0]) {
        SplitCarries(line[1..]);
      } else {
        ReadOneCarries(line, false, 0);
        SplitCarries(ReadOne(line, false, 0).1);
      }
    }
  }

  lemma {:induction false} EscapeCarries(value: string, slashes: nat)
    requires Carried(value)
    ensures '\0' !in Escape(value, slashes)
    decreases |value|
  {
    SlashesAreCarried(slashes);
    SlashesAreCarried(2 * slashes);
    SlashesAreCarried(2 * slashes + 1);
    if value != "" {
      assert value == [value[0]] + value[1..];
      EscapeCarries(value[1..], if value[0] == '\\' then slashes + 1 else 0);
    }
  }

  lemma {:induction false} JoinedCarries(args: seq<Option<string>>)
    requires forall a | a in args :: Carried(Text(a))
    ensures '\0' !in Joined(args)
  {
    if args != [] {
      assert args[0] in args && forall a | a in args[1..] :: a in args;
      EscapeCarries(Text(args[0]), 0);
      JoinedCarries(args[1..]);
    }
  }

  lemma {:induction false} TextsContain(args: seq<Option<string>>, a: Option<string>)
    requires a in args
    ensures Text(a) in Texts(args)
  {
    if a != args[0] { TextsContain(args[1..], a); }
  }

  /** The started process receives exactly the arguments, null ones as empty, if and only if none
      of them contains a NUL, which ends a command line. */
  lemma ArgumentsArrive(args: seq<Option<string>>)
    ensures Split(Visible(Joined(args))) == Texts(args) <==> forall a | a in args :: Carried(Text(a))
  {
    VisibleMeans(Joined(args));
    SplitJoined(args);
    if forall a | a in args :: Carried(Text(a)) {
      JoinedCarries(args);
    } else {
      var a :| a in args && !Carried(Text(a));
      TextsContain(args, a);
      SplitCarries(Visible(Joined(args)));
    }
  }
}
