/**
 * The input parser at the head of `handleCommand`:
 * `const [command, ...args] = cmd.trim().split(/\s+/)`.
 */
module Parser {
  import opened Text

  /** A parsed input line: the command token as typed and its arguments. */
  datatype Line = Line(command: string, args: seq<string>)

  /** Splits a raw input line into its command token and argument tokens.
      The command is empty exactly for blank input, and then there are no
      arguments; no token holds whitespace, every argument is non-empty, and
      together the tokens hold every non-whitespace character of the line. */
  function Parse(raw: string): (p: Line)
    ensures p.command == [] <==> IsBlank(raw)
    ensures IsBlank(raw) ==> p.args == []
    ensures NoWs(p.command)
    ensures forall i :: 0 <= i < |p.args| ==> p.args[i] != [] && NoWs(p.args[i])
  {
    var tokens := SplitWs(Trim(raw));
    TokensOfTrimmed(raw);
    Line(tokens[0], tokens[1..])
  }

  lemma TokensOfTrimmed(raw: string)
    ensures var tokens := SplitWs(Trim(raw));
      && (tokens[0] == [] <==> IsBlank(raw))
      && (IsBlank(raw) ==> tokens[1..] == [])
      && NoWs(tokens[0])
      && (forall i :: 0 <= i < |tokens[1..]| ==> tokens[1..][i] != [] && NoWs(tokens[1..][i]))
  {
    var t := Trim(raw);
    var tokens := SplitWs(t);
    if t != [] {
      SplitTrimmedNonEmpty(t);
      forall i | 0 <= i < |tokens[1..]|
        ensures tokens[1..][i] != [] && NoWs(tokens[1..][i])
      {
        assert tokens[1..][i] == tokens[i + 1];
      }
    } else {
      assert SplitWs(t) == [[]];
    }
  }

  /** Parsing drops only whitespace: the command followed by the arguments
      spells the non-whitespace characters of the raw line. */
  lemma ParseKeepsText(raw: string)
    ensures Parse(raw).command + Concat(Parse(raw).args) == RemoveWs(raw)
  {
    var tokens := SplitWs(Trim(raw));
    SplitKeepsText(Trim(raw));
    assert tokens == [tokens[0]] + tokens[1..];
  }

  /** A line typed as a command and arguments, with any whitespace runs
      between the tokens and around them, parses back into that command and
      those arguments: `seps[i]` is the run before `args[i]`. */
  lemma ParseTyped(pre: string, command: string, args: seq<string>, seps: seq<string>, post: string)
    requires IsBlank(pre) && IsBlank(post)
    requires command != [] && NoWs(command)
    requires Words(args)
    requires |seps| == |args| && Separators(seps)
    ensures Parse(pre + Interleave([command] + args, seps) + post) == Line(command, args)
  {
    var words := [command] + args;
    TypedWords(command, args);
    ParseSeparated(pre, words, seps, post);
    assert words[0] == command;
    assert words[1..] == args;
  }

  /** Whitespace-free words separated by whitespace runs, with any
      whitespace around them, parse into the first word and the others. */
  lemma ParseSeparated(pre: string, words: seq<string>, seps: seq<string>, post: string)
    requires IsBlank(pre) && IsBlank(post)
    requires |words| == |seps| + 1
    requires Words(words) && Separators(seps)
    ensures Parse(pre + Interleave(words, seps) + post) == Line(words[0], words[1..])
  {
    var j := Interleave(words, seps);
    InterleaveStartsWith(words, seps);
    assert !IsWs(j[0]);
    assert !IsWs(j[|j| - 1]) by {
      var last := words[|words| - 1];
      assert NoWs(last);
    }
    TrimPadded(pre, j, post);
    SplitSeparated(words, seps);
  }

  /** The command followed by the arguments are all non-empty and free of
      whitespace. */
  lemma TypedWords(command: string, args: seq<string>)
    requires command != [] && NoWs(command)
    requires Words(args)
    ensures Words([command] + args)
  {
    var words := [command] + args;
    forall i | 0 <= i < |words|
      ensures words[i] != [] && NoWs(words[i])
    {
      if i > 0 {
        assert words[i] == args[i - 1];
      }
    }
  }

  /** A single word, with nothing around it, is a command without
      arguments. */
  lemma ParseWord(raw: string)
    requires raw != [] && NoWs(raw)
    ensures Parse(raw) == Line(raw, [])
  {
    assert "" + Interleave([raw] + [], []) + "" == raw;
    ParseTyped("", raw, [], [], "");
  }

  /** A sample: tabs and a run of them separate tokens just as a space does. */
  lemma ParseTabs(raw: string)
    requires raw == "echo a\t\tb"
    ensures Parse(raw) == Line("echo", ["a", "b"])
  {
    var args := ["a", "b"];
    var seps := [" ", "\t\t"];
    assert Words(args) && Separators(seps);
    assert raw == "" + Interleave(["echo"] + args, seps) + "";
    ParseTyped("", "echo", args, seps, "");
  }
}
