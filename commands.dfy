/**
 * The command table `COMMANDS` of the terminal: fixed texts, `echo`, the
 * clock, and the table formatters over the profile data. The profile data
 * and the clock are parameters; the registry is a closed set of names.
 */
module Commands {
  import opened Wrappers
  import opened Text

  // ---------------------------------------------------------------------
  // Profile data (the JSON files under profile_info/, taken as given)

  /** A field value as the JSON holds it: a string, or a list of strings
      (skill names, a project's technologies). */
  datatype Value = Str(text: string) | List(items: seq<string>)

  /** One key of a JSON object with its value. */
  datatype Field = Field(key: string, value: Value)

  /** A JSON object, its fields in `Object.keys` order. */
  type Record = seq<Field>

  /** The three collections the commands read. None stands for a collection
      missing from its JSON file (`_experience.experiences` undefined, say). */
  datatype Profile = Profile(
    skills: Option<Record>,
    experiences: Option<seq<Record>>,
    projects: Option<seq<Record>>)

  /** Template-literal interpolation `${v}`: a list is shown as
      `Array.prototype.toString` shows it, comma-joined without spaces. */
  function Show(v: Value): string {
    match v
    case Str(s) => s
    case List(items) => Join(items, ",")
  }

  // ---------------------------------------------------------------------
  // Fixed texts

  /** The `help` output: the lines below, joined by line breaks (the
      template literal opens with a line break and ends with two spaces). */
  const HelpText: string := Join(HelpListing, "\n")

  const HelpListing: seq<string> := [
    "",
    "Available commands:",
    HelpEntry("help", "Show this help menu"),
    HelpEntry("clear", "Clear the terminal screen"),
    HelpEntry("whoami", "Display current user details"),
    HelpEntry("date", "Show current date and time"),
    HelpEntry("pwd", "Print working directory"),
    HelpEntry("ls", "List directory contents"),
    HelpEntry("echo", "Print arguments to the terminal"),
    HelpEntry("experience", "Print work experience"),
    HelpEntry("skills", "Print skills"),
    HelpEntry("projects", "Display project information"),
    "  "]

  /** One line of the help listing: the name indented by two spaces and
      padded to a twelve-column field, a dash and the description. */
  function HelpEntry(name: string, description: string): string {
    "  " + PadEnd(name, 12) + "- " + description
  }

  const WhoAmIText: string := "Name: Omkar\nRole: Software Developer\nLocation: React Terminal"

  const PwdText: string := "/home/guest/portfolio"

  const LsText: string := "projects     documents   experiences\nskills       resume      contact.txt"

  const EchoPrompt: string := "Please provide text to echo"

  /** The border of an `experience`/`projects` record: `"-".repeat(50)`. */
  const Rule: string := Repeat('-', 50)

  /** The TypeError messages (V8's wording) thrown when a collection is
      missing: `undefined.map(...)` and `Object.keys(undefined)`. */
  const MapOfUndefined: string := "Cannot read properties of undefined (reading 'map')"

  const KeysOfUndefined: string := "Cannot convert undefined or null to object"

  // ---------------------------------------------------------------------
  // echo

  /** `args.join(" ") || "Please provide text to echo"`: the arguments
      joined by single spaces, or the prompt when that join is the empty
      string, which happens exactly for no arguments or one empty one. */
  function EchoText(args: seq<string>): (r: string)
    ensures |args| == 0 || args == [[]] ==> r == EchoPrompt
    ensures !(|args| == 0 || args == [[]]) ==> r == Join(args, " ") && r != []
  {
    JoinEmpty(args, " ");
    var joined := Join(args, " ");
    if joined == "" then EchoPrompt else joined
  }

  /** For arguments as the parser produces them (none of them empty), echo
      gives the prompt exactly when there are no arguments. */
  lemma EchoOfTokens(args: seq<string>)
    requires forall i :: 0 <= i < |args| ==> args[i] != []
    ensures EchoText(args) == if args == [] then EchoPrompt else Join(args, " ")
  {
    if args != [] {
      assert args[0] != [];
      assert args != [[]];
    }
  }

  // ---------------------------------------------------------------------
  // Table formatting

  /** `key.charAt(0).toUpperCase() + key.slice(1).padEnd(12)`: the first
      character upper-cased, then the rest of the key padded with spaces to
      twelve characters. An empty key gives twelve spaces. */
  function Label(key: string): (r: string)
    ensures key == [] ==> r == Repeat(' ', 12)
    ensures key != [] ==> |r| == 1 + (if |key| - 1 >= 12 then |key| - 1 else 12)
    ensures key != [] ==> r[0] == UpperChar(key[0]) && r[1..|key|] == key[1..]
    ensures forall i :: |key| <= i < |r| ==> r[i] == ' '
  {
    if key == [] then PadEnd([], 12) else [UpperChar(key[0])] + PadEnd(key[1..], 12)
  }

  /** One row of a record table: `| Label | value ` (with a trailing space). */
  function Row(f: Field): string {
    "| " + Label(f.key) + " | " + Show(f.value) + " "
  }

  /** The rows of a record, one per field, in key order. */
  function Rows(rec: Record): (r: seq<string>)
    ensures |r| == |rec|
    ensures forall i :: 0 <= i < |rec| ==> r[i] == Row(rec[i])
  {
    seq(|rec|, i requires 0 <= i < |rec| => Row(rec[i]))
  }

  /** A record framed by rules: a line break, the rule, the rows, the rule. */
  function Block(rec: Record): string {
    "\n" + Rule + "\n" + Join(Rows(rec), "\n") + "\n" + Rule
  }

  /** The `experience` and `projects` output: the blocks of the records
      joined by line breaks. */
  function Table(recs: seq<Record>): string {
    Join(Blocks(recs), "\n")
  }

  function Blocks(recs: seq<Record>): (r: seq<string>)
    ensures |r| == |recs|
    ensures forall i :: 0 <= i < |recs| ==> r[i] == Block(recs[i])
  {
    seq(|recs|, i requires 0 <= i < |recs| => Block(recs[i]))
  }

  /** One line of the `skills` output: `| Label | skills` (no trailing space). */
  function SkillLine(f: Field): string {
    "| " + Label(f.key) + " | " + Show(f.value)
  }

  /** The `skills` output: one line per category, joined by line breaks. */
  function SkillsText(categories: Record): string {
    Join(SkillLines(categories), "\n")
  }

  function SkillLines(categories: Record): (r: seq<string>)
    ensures |r| == |categories|
    ensures forall i :: 0 <= i < |categories| ==> r[i] == SkillLine(categories[i])
  {
    seq(|categories|, i requires 0 <= i < |categories| => SkillLine(categories[i]))
  }

  // ---------------------------------------------------------------------
  // Layout of the formatted output, as the lines a renderer shows

  /** A field whose key and shown value hold no line break. */
  predicate OneLine(f: Field) {
    '\n' !in f.key && '\n' !in Show(f.value)
  }

  predicate AllOneLine(rec: Record) {
    forall i :: 0 <= i < |rec| ==> OneLine(rec[i])
  }

  /** The lines a record block shows: an empty line, the rule, one line per
      field (a single empty line for a record without fields), the rule. */
  function BlockLines(rec: Record): seq<string> {
    ["", Rule] + (if rec == [] then [""] else Rows(rec)) + [Rule]
  }

  function TableLines(recs: seq<Record>): seq<string> {
    if recs == [] then [] else BlockLines(recs[0]) + TableLines(recs[1..])
  }

  /** A label shows no line break when its key has none. */
  lemma LabelOneLine(key: string)
    requires '\n' !in key
    ensures '\n' !in Label(key)
  {
    var l := Label(key);
    forall i | 0 <= i < |l| ensures l[i] != '\n' {
      if key != [] && 0 < i < |key| {
        assert l[i] == l[1..|key|][i - 1] == key[i];
      }
    }
  }

  lemma RowOneLine(f: Field)
    requires OneLine(f)
    ensures '\n' !in Row(f) && '\n' !in SkillLine(f)
  {
    LabelOneLine(f.key);
  }

  /** The lines of a record block, when no field holds a line break: an
      empty line, the rule, the rows in key order, and the rule again. */
  lemma BlockLayout(rec: Record)
    requires AllOneLine(rec)
    ensures Lines(Block(rec)) == BlockLines(rec)
  {
    RuleOneLine();
    FrameLayout(Join(Rows(rec), "\n"), Rule);
    RowsLayout(rec);
  }

  /** The rules around a text add one empty line and a rule line above it
      and a rule line below it. */
  lemma FrameLayout(j: string, rule: string)
    requires '\n' !in rule
    ensures Lines("\n" + rule + "\n" + j + "\n" + rule) == ["", rule] + Lines(j) + [rule]
  {
    var tail := j + "\n" + rule;
    var mid := rule + "\n" + tail;
    assert "\n" + rule + "\n" + j + "\n" + rule == "" + "\n" + mid;
    LinesBreak("", mid);
    LinesBreak(rule, tail);
    LinesBreak(j, rule);
    LinesOfLine(rule);
  }

  /** The rule is a single line. */
  lemma RuleOneLine()
    ensures '\n' !in Rule
  {
    assert forall i :: 0 <= i < |Rule| ==> Rule[i] == '-';
  }

  lemma RowsLayout(rec: Record)
    requires AllOneLine(rec)
    ensures Lines(Join(Rows(rec), "\n")) == if rec == [] then [""] else Rows(rec)
  {
    var rows := Rows(rec);
    if rec != [] {
      forall i | 0 <= i < |rows| ensures '\n' !in rows[i] {
        RowOneLine(rec[i]);
      }
      LinesOfJoinedLines(rows);
    }
  }

  /** The lines of the `experience`/`projects` output, when no field holds
      a line break: every record's block lines in turn (one empty line when
      there are no records). */
  lemma {:induction false} TableLayout(recs: seq<Record>)
    requires forall i :: 0 <= i < |recs| ==> AllOneLine(recs[i])
    ensures Lines(Table(recs)) == if recs == [] then [""] else TableLines(recs)
  {
    if recs != [] {
      var blocks := Blocks(recs);
      LinesOfJoin(blocks);
      BlocksLayout(recs);
    }
  }

  lemma {:induction false} BlocksLayout(recs: seq<Record>)
    requires forall i :: 0 <= i < |recs| ==> AllOneLine(recs[i])
    ensures AllLines(Blocks(recs)) == TableLines(recs)
  {
    if recs != [] {
      BlockLayout(recs[0]);
      assert Blocks(recs)[1..] == Blocks(recs[1..]);
      BlocksLayout(recs[1..]);
    }
  }

  /** The `skills` output shows exactly one line per category, in key order,
      when no category holds a line break (a single empty line when there
      are none). */
  lemma SkillsLayout(categories: Record)
    requires AllOneLine(categories)
    ensures Lines(SkillsText(categories)) == if categories == [] then [""] else SkillLines(categories)
  {
    var lines := SkillLines(categories);
    if categories != [] {
      forall i | 0 <= i < |lines| ensures '\n' !in lines[i] {
        RowOneLine(categories[i]);
      }
      LinesOfJoinedLines(lines);
    }
  }

  /** A `skills` line starts with "| ", the category's first character
      upper-cased and the rest of its name, and then pads the name to
      thirteen characters before the " | " that precedes the skills. */
  lemma SkillLineShape(f: Field)
    requires f.key != []
    ensures var k := f.key; var n := if |k| >= 13 then |k| else 13;
      && StartsWith(SkillLine(f), "| " + [UpperChar(k[0])] + k[1..])
      && SkillLine(f)[2 + n..5 + n] == " | "
      && SkillLine(f)[5 + n..] == Show(f.value)
  {
    var k := f.key;
    var l := Label(k);
    var line := SkillLine(f);
    assert line == "| " + l + " | " + Show(f.value);
    assert l[..|k|] == [UpperChar(k[0])] + k[1..];
    assert line[..|k| + 2] == "| " + l[..|k|];
  }

  /** A table row has the shape of a `skills` line, with the trailing space
      after the shown value. */
  lemma RowShape(f: Field)
    requires f.key != []
    ensures var k := f.key; var n := if |k| >= 13 then |k| else 13;
      && StartsWith(Row(f), "| " + [UpperChar(k[0])] + k[1..])
      && Row(f)[2 + n..5 + n] == " | "
      && Row(f)[5 + n..] == Show(f.value) + " "
  {
    var k := f.key;
    var l := Label(k);
    var row := Row(f);
    assert row == "| " + l + " | " + Show(f.value) + " ";
    assert l[..|k|] == [UpperChar(k[0])] + k[1..];
    assert row[..|k| + 2] == "| " + l[..|k|];
  }

  // ---------------------------------------------------------------------
  // The registry

  /** The names `COMMANDS` holds. `clear` is not among them: the
      dispatcher handles it before looking a name up. */
  datatype CommandId = Help | WhoAmI | Date | Pwd | Ls | Echo | Experience | Skills | Projects

  function Name(id: CommandId): string {
    match id
    case Help => "help"
    case WhoAmI => "whoami"
    case Date => "date"
    case Pwd => "pwd"
    case Ls => "ls"
    case Echo => "echo"
    case Experience => "experience"
    case Skills => "skills"
    case Projects => "projects"
  }

  /** `COMMANDS[name]` as an exact, case-sensitive key lookup: it finds the
      command of that name, and finds nothing when no command has it. */
  function Lookup(name: string): (r: Option<CommandId>)
    ensures r.Some? ==> Name(r.value) == name
    ensures r.None? ==> forall id :: Name(id) != name
  {
    if name == "help" then Some(Help)
    else if name == "whoami" then Some(WhoAmI)
    else if name == "date" then Some(Date)
    else if name == "pwd" then Some(Pwd)
    else if name == "ls" then Some(Ls)
    else if name == "echo" then Some(Echo)
    else if name == "experience" then Some(Experience)
    else if name == "skills" then Some(Skills)
    else if name == "projects" then Some(Projects)
    else None
  }

  /** Every command is found under its own name. */
  lemma LookupName(id: CommandId)
    ensures Lookup(Name(id)) == Some(id)
  {
  }

  // ---------------------------------------------------------------------
  // Running a handler

  /** What calling a handler does: it returns a value (`string | void`, so
      possibly nothing) or throws, with or without an error message. */
  datatype Outcome = Returned(value: Option<string>) | Threw(message: Option<string>)

  /** The command reads a profile collection that is missing. */
  predicate Missing(id: CommandId, profile: Profile) {
    || (id == Experience && profile.experiences.None?)
    || (id == Skills && profile.skills.None?)
    || (id == Projects && profile.projects.None?)
  }

  /** Calls the handler of `id` on the arguments, with the profile data and
      the current time as `Date.toString` renders it. Every handler returns
      a string, except that one whose collection is missing throws a
      TypeError, which carries a message. */
  function Run(id: CommandId, args: seq<string>, profile: Profile, clock: string): (o: Outcome)
    ensures o.Returned? ==> o.value.Some?
    ensures o.Threw? <==> Missing(id, profile)
    ensures o.Threw? ==> o.message.Some?
  {
    match id
    case Help => Returned(Some(HelpText))
    case WhoAmI => Returned(Some(WhoAmIText))
    case Date => Returned(Some(clock))
    case Pwd => Returned(Some(PwdText))
    case Ls => Returned(Some(LsText))
    case Echo => Returned(Some(EchoText(args)))
    case Experience =>
      if profile.experiences.None? then Threw(Some(MapOfUndefined))
      else Returned(Some(Table(profile.experiences.value)))
    case Skills =>
      if profile.skills.None? then Threw(Some(KeysOfUndefined))
      else Returned(Some(SkillsText(profile.skills.value)))
    case Projects =>
      if profile.projects.None? then Threw(Some(MapOfUndefined))
      else Returned(Some(Table(profile.projects.value)))
  }

  /** The `echo` handler's outcome is the echo text of its arguments. */
  lemma RunEcho(args: seq<string>, profile: Profile, clock: string)
    ensures Run(Echo, args, profile, clock) == Returned(Some(EchoText(args)))
  {
  }

  /** Only `echo` reads its arguments; `help`, `whoami`, `pwd` and `ls`
      print fixed texts whatever the arguments, the profile and the time,
      and `date` prints the time. */
  lemma InputsRead(id: CommandId, args1: seq<string>, args2: seq<string>,
                   p1: Profile, p2: Profile, clock1: string, clock2: string)
    ensures id != Echo ==> Run(id, args1, p1, clock1) == Run(id, args2, p1, clock1)
    ensures id in {Help, WhoAmI, Pwd, Ls} ==> Run(id, args1, p1, clock1) == Run(id, args2, p2, clock2)
    ensures id == Date ==> Run(id, args1, p1, clock1) == Returned(Some(clock1))
  {
  }

  /** A handler whose collection is missing throws the TypeError the
      runtime raises: `Object.keys` for the skills, `.map` otherwise. */
  lemma RunMissing(id: CommandId, args: seq<string>, profile: Profile, clock: string)
    requires Missing(id, profile)
    ensures Run(id, args, profile, clock)
      == Threw(Some(if id == Skills then KeysOfUndefined else MapOfUndefined))
  {
  }

  /** Where the help text lists a command. */
  function HelpRow(id: CommandId): nat {
    match id
    case Help => 2
    case WhoAmI => 4
    case Date => 5
    case Pwd => 6
    case Ls => 7
    case Echo => 8
    case Experience => 9
    case Skills => 10
    case Projects => 11
  }

  /** The help text's second line is the heading "Available commands:";
      every command name heads a line of its own after it, and so does
      `clear`. */
  lemma HelpListsCommands(id: CommandId)
    ensures HelpListing[1] == "Available commands:"
    ensures 2 <= HelpRow(id) < |HelpListing|
    ensures StartsWith(HelpListing[HelpRow(id)], "  " + Name(id) + " ")
    ensures StartsWith(HelpListing[3], "  clear ")
  {
    HelpEntryStarts("clear", "Clear the terminal screen");
    match id
    case Help => HelpEntryStarts("help", "Show this help menu");
    case WhoAmI => HelpEntryStarts("whoami", "Display current user details");
    case Date => HelpEntryStarts("date", "Show current date and time");
    case Pwd => HelpEntryStarts("pwd", "Print working directory");
    case Ls => HelpEntryStarts("ls", "List directory contents");
    case Echo => HelpEntryStarts("echo", "Print arguments to the terminal");
    case Experience => HelpEntryStarts("experience", "Print work experience");
    case Skills => HelpEntryStarts("skills", "Print skills");
    case Projects => HelpEntryStarts("projects", "Display project information");
  }

  /** A help line starts with its indented name and a space, for a name
      shorter than the field. */
  lemma HelpEntryStarts(name: string, description: string)
    requires |name| < 12
    ensures StartsWith(HelpEntry(name, description), "  " + name + " ")
  {
    var padded := PadEnd(name, 12);
    var line := HelpEntry(name, description);
    var prefix := "  " + name + " ";
    assert padded[|name|] == ' ';
    forall i | 0 <= i < |prefix|
      ensures prefix[i] == line[i]
    {
      if 2 <= i < 2 + |name| {
        assert prefix[i] == name[i - 2] == padded[..|name|][i - 2];
      }
    }
  }

  /** `s` starts with `prefix`. */
  predicate StartsWith(s: string, prefix: string) {
    prefix <= s
  }
}
