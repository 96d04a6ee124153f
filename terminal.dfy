/**
 * The simulated terminal (src/components/Terminal.tsx): a history of
 * entries, the input line, the command dispatcher behind the input, the
 * deferred `clear` and the scripted reveal of three entries on mount.
 *
 * Dispatch is EXACT equality of the normalised input with one of six
 * command names; the containment match is the voice matcher's (voice.dfy).
 */
module Terminal {
  import opened Text

  /** What an entry shows under its command line; the JSX panels are named, not rendered. */
  datatype Output =
    | Plain(text: string)
    | HelpPanel
    | SkillsPanel
    | ProjectsPanel
    | ContactPanel
    | GitHubPanel
    | GitLogPanel

  /** One line of the history: the command as typed, its output, an opaque time stamp. */
  datatype Entry = Entry(command: string, output: Output, timestamp: string)

  /** The value `getCommandOutput` returns, and whether it scheduled the deferred clear. */
  datatype Reply = Reply(output: Output, schedulesClear: bool)

  /** The recognised commands, in the order the dispatcher tests them, with their outputs. */
  const Dispatch: seq<(string, Output)> := [
    ("help", HelpPanel),
    ("skills", SkillsPanel),
    ("projects", ProjectsPanel),
    ("contact", ContactPanel),
    ("github", GitHubPanel),
    ("clear", Plain(""))
  ]

  /** The "Available commands" listed by the help panel, with their blurbs. */
  const HelpLines: seq<(string, string)> := [
    ("skills", "View technical skills"),
    ("projects", "List current projects"),
    ("contact", "Get contact information"),
    ("github", "Show GitHub stats"),
    ("clear", "Clear terminal")
  ]

  /** The fallback line, naming the input exactly as it was typed. */
  function NotFound(cmd: string): (r: string)
    ensures |r| == |cmd| + 56
    ensures r[..19] == "command not found: " && r[19..19 + |cmd|] == cmd
    ensures r[19 + |cmd|..] == ". Type 'help' for available commands."
  {
    "command not found: " + cmd + ". Type 'help' for available commands."
  }

  /** The names the dispatcher recognises. */
  const Names: set<string> := {"help", "skills", "projects", "contact", "github", "clear"}

  /**
   * The body of `getCommandOutput` after its first line: an if-chain over
   * the normalised `command`; the fallback names the raw input `cmd`.
   */
  function Respond(command: string, cmd: string): (r: Reply)
    ensures r.schedulesClear <==> command == "clear"
    ensures command !in Names ==> r == Reply(Plain(NotFound(cmd)), false)
  {
    if command == "help" then Reply(HelpPanel, false)
    else if command == "skills" then Reply(SkillsPanel, false)
    else if command == "projects" then Reply(ProjectsPanel, false)
    else if command == "contact" then Reply(ContactPanel, false)
    else if command == "github" then Reply(GitHubPanel, false)
    else if command == "clear" then Reply(Plain(""), true)
    else Reply(Plain(NotFound(cmd)), false)
  }

  /** `getCommandOutput(cmd)`: dispatch on `cmd.toLowerCase().trim()`. */
  function GetCommandOutput(cmd: string): (r: Reply)
    ensures r.schedulesClear <==> Normalize(cmd) == "clear"
    ensures Normalize(cmd) !in Names ==> r == Reply(Plain(NotFound(cmd)), false)
  {
    Respond(Normalize(cmd), cmd)
  }

  /** The if-chain agrees with the table row by row. */
  lemma RespondMatchesTable(command: string, cmd: string, i: nat)
    requires i < |Dispatch| && Dispatch[i].0 == command
    ensures Respond(command, cmd).output == Dispatch[i].1
    ensures Respond(command, cmd).schedulesClear <==> i == |Dispatch| - 1
  {
    if i == 0 { assert command == "help"; }
    else if i == 1 { assert command == "skills"; }
    else if i == 2 { assert command == "projects"; }
    else if i == 3 { assert command == "contact"; }
    else if i == 4 { assert command == "github"; }
    else { assert command == "clear"; }
  }

  /** A recognised name yields its table row's output; only "clear" schedules the reset. */
  lemma DispatchMatchesTable(cmd: string, i: nat)
    requires i < |Dispatch| && Dispatch[i].0 == Normalize(cmd)
    ensures GetCommandOutput(cmd).output == Dispatch[i].1
    ensures GetCommandOutput(cmd).schedulesClear <==> i == |Dispatch| - 1
  {
    RespondMatchesTable(Normalize(cmd), cmd, i);
  }

  /** Each table name, typed exactly, is its own normal form. */
  lemma TableNamesNormal(i: nat)
    requires i < |Dispatch|
    ensures Normalize(Dispatch[i].0) == Dispatch[i].0
  {
    if i == 0 { assert Dispatch[i].0 == "help"; NormalOf("help"); }
    else if i == 1 { assert Dispatch[i].0 == "skills"; NormalOf("skills"); }
    else if i == 2 { assert Dispatch[i].0 == "projects"; NormalOf("projects"); }
    else if i == 3 { assert Dispatch[i].0 == "contact"; NormalOf("contact"); }
    else if i == 4 { assert Dispatch[i].0 == "github"; NormalOf("github"); }
    else { assert Dispatch[i].0 == "clear"; NormalOf("clear"); }
  }

  /** Input whose normal form is no table name gets the fallback naming the raw input. */
  lemma UnknownFallsBack(cmd: string)
    requires forall i :: 0 <= i < |Dispatch| ==> Dispatch[i].0 != Normalize(cmd)
    ensures GetCommandOutput(cmd) == Reply(Plain(NotFound(cmd)), false)
  {
    TableNamesRecognised(Normalize(cmd));
  }

  /** The table lists exactly the recognised names. */
  lemma TableNamesRecognised(name: string)
    ensures name in Names <==> exists i :: 0 <= i < |Dispatch| && Dispatch[i].0 == name
  {
    if name in Names {
      if name == "help" { assert Dispatch[0].0 == name; }
      else if name == "skills" { assert Dispatch[1].0 == name; }
      else if name == "projects" { assert Dispatch[2].0 == name; }
      else if name == "contact" { assert Dispatch[3].0 == name; }
      else if name == "github" { assert Dispatch[4].0 == name; }
      else { assert Dispatch[5].0 == name; }
    }
  }

  /** The output of `whoami` in the mount reveal. */
  const WhoamiOutput: string :=
    "rohit.dhakad@software-engineer ~ Passionate SDE building scalable systems"

  /** The output of `ls -la /current-role` in the mount reveal. */
  const ListingOutput: string :=
    "drwxr-xr-x 1 rohit staff  512 Dec  3 10:30 moving-tech-innovations/\n" +
    "drwxr-xr-x 1 rohit staff  256 Dec  3 10:30 namma-yatri/\n" +
    "-rw-r--r-- 1 rohit staff  1.2M Dec  3 10:30 subscription-system.js\n" +
    "-rw-r--r-- 1 rohit staff  856K Dec  3 10:30 multi-merchant-sdk.ts\n" +
    "-rw-r--r-- 1 rohit staff  423K Dec  3 10:30 performance-optimizations.tsx"

  /** How many entries the mount reveal appends. */
  const InitialCount: nat := 3

  /** The entries revealed on mount, in declaration order, stamped `mountTime`. */
  function InitialCommands(mountTime: string): (r: seq<Entry>)
    ensures |r| == InitialCount
    ensures forall i :: 0 <= i < |r| ==> r[i].timestamp == mountTime
  {
    [
      Entry("whoami", Plain(WhoamiOutput), mountTime),
      Entry("ls -la /current-role", Plain(ListingOutput), mountTime),
      Entry("git log --oneline | head -5", GitLogPanel, mountTime)
    ]
  }

  /** Lower-casing folds the capitals and keeps the blanks. */
  lemma LowerShouted()
    ensures Lower("  SKILLS ") == "  skills "
  {
  }

  /** Trimming drops the two leading blanks and the trailing one. */
  lemma TrimPadded()
    ensures Trim("  skills ") == "skills"
  {
    TrimBetween("  skills ", 2, 8);
  }

  /** Case and surrounding blanks do not matter: "  SKILLS " shows the skills panel. */
  lemma SkillsIgnoringCaseAndBlanks()
    ensures GetCommandOutput("  SKILLS ") == Reply(SkillsPanel, false)
  {
    LowerShouted();
    TrimPadded();
  }

  /** Containment is not enough: "show skills" is not a command. */
  lemma ShowSkillsNotFound()
    ensures GetCommandOutput("show skills") == Reply(Plain(NotFound("show skills")), false)
  {
    NormalOf("show skills");
  }

  /** Every command the help panel advertises is a recognised, non-fallback table row. */
  lemma HelpCommandsRecognised(i: nat)
    requires i < |HelpLines|
    ensures Dispatch[i + 1].0 == HelpLines[i].0
    ensures GetCommandOutput(HelpLines[i].0).output == Dispatch[i + 1].1
  {
    var name := HelpLines[i].0;
    assert name == Dispatch[i + 1].0;
    TableNamesNormal(i + 1);
    DispatchMatchesTable(name, i + 1);
  }

  /** The terminal component: its history, input line and pending timers. */
  class Shell {
    /** `commands`: the history, oldest first. */
    var commands: seq<Entry>
    /** `currentInput`: the text in the input line. */
    var currentInput: string
    /** Deferred `setCommands([])` calls scheduled by `clear` and not yet fired. */
    var pendingClears: nat
    /** How many of the initial entries the mount reveal has appended so far. */
    var revealed: nat
    /** The time stamp the initial entries were created with. */
    const mountTime: string

    ghost predicate Valid()
      reads this
    {
      revealed <= InitialCount
    }

    /** The first render: empty history, empty input, nothing scheduled. */
    constructor (mountTime: string)
      ensures Valid() && this.mountTime == mountTime
      ensures commands == [] && currentInput == "" && pendingClears == 0 && revealed == 0
    {
      this.mountTime := mountTime;
      commands := [];
      currentInput := "";
      pendingClears := 0;
      revealed := 0;
    }

    /** The input's `onChange`: the line becomes what the user typed. */
    method Type(value: string)
      modifies this
      ensures currentInput == value
      ensures commands == old(commands) && pendingClears == old(pendingClears)
      ensures revealed == old(revealed)
    {
      currentInput := value;
    }

    /**
     * `handleSubmit`: blank input changes nothing; otherwise exactly one
     * entry recording the raw input is appended and the line is cleared.
     */
    method Submit(timestamp: string)
      requires Valid()
      modifies this
      ensures Valid() && revealed == old(revealed)
      ensures Trim(old(currentInput)) == "" ==>
                commands == old(commands) && currentInput == old(currentInput) &&
                pendingClears == old(pendingClears)
      ensures Trim(old(currentInput)) != "" ==>
                var reply := GetCommandOutput(old(currentInput));
                && commands == old(commands) + [Entry(old(currentInput), reply.output, timestamp)]
                && currentInput == ""
                && pendingClears == old(pendingClears) + (if reply.schedulesClear then 1 else 0)
    {
      if Trim(currentInput) == "" {
        return;
      }
      var reply := GetCommandOutput(currentInput);
      if reply.schedulesClear {
        pendingClears := pendingClears + 1;
      }
      commands := commands + [Entry(currentInput, reply.output, timestamp)];
      currentInput := "";
    }

    /** One deferred `setCommands([])` fires: the history becomes empty. */
    method FireClear()
      requires Valid() && pendingClears > 0
      modifies this
      ensures Valid() && commands == [] && pendingClears == old(pendingClears) - 1
      ensures currentInput == old(currentInput) && revealed == old(revealed)
    {
      commands := [];
      pendingClears := pendingClears - 1;
    }

    /** One iteration of the mount loop: the next initial entry is appended. */
    method RevealNext()
      requires Valid() && revealed < InitialCount
      modifies this
      ensures Valid() && revealed == old(revealed) + 1
      ensures commands == old(commands) + [InitialCommands(mountTime)[old(revealed)]]
      ensures currentInput == old(currentInput) && pendingClears == old(pendingClears)
    {
      commands := commands + [InitialCommands(mountTime)[revealed]];
      revealed := revealed + 1;
    }

    /** `typeCommands` run to the end: the three initial entries, in order, one per step. */
    method TypeCommands()
      requires Valid() && revealed == 0
      modifies this
      ensures Valid() && revealed == InitialCount
      ensures commands == old(commands) + InitialCommands(mountTime)
      ensures currentInput == old(currentInput) && pendingClears == old(pendingClears)
    {
      var initial := InitialCommands(mountTime);
      for i := 0 to |initial|
        invariant Valid() && revealed == i
        invariant commands == old(commands) + initial[..i]
        invariant currentInput == old(currentInput) && pendingClears == old(pendingClears)
      {
        RevealNext();
        assert initial[..i + 1] == initial[..i] + [initial[i]];
      }
    }
  }

  /** Mounting the terminal: from an empty history the reveal shows exactly the initial entries. */
  method Mount(mountTime: string) returns (shell: Shell)
    ensures fresh(shell) && shell.Valid() && shell.revealed == InitialCount
    ensures shell.commands == InitialCommands(mountTime)
    ensures shell.currentInput == "" && shell.pendingClears == 0
  {
    shell := new Shell(mountTime);
    shell.TypeCommands();
  }

  /** "clear" first appends an entry with empty output; its deferred step then empties the history. */
  method SubmitClear(shell: Shell, timestamp: string)
    requires shell.Valid()
    modifies shell
    ensures shell.Valid() && shell.commands == [] && shell.currentInput == ""
    ensures shell.pendingClears == old(shell.pendingClears) && shell.revealed == old(shell.revealed)
  {
    NormalOf("clear");
    shell.Type("clear");
    shell.Submit(timestamp);
    assert shell.commands == old(shell.commands) + [Entry("clear", Plain(""), timestamp)];
    shell.FireClear();
  }
}
