/** The run trace: what `log` prints and what `run_command` executes, in order.
    A command is kept as its fixed part and its argument words; its shell text
    is `CommandLine`. */
module Commands {
  import opened Text

  /** `program` is the fixed text of the command, `args` the words the source
      joins onto it with spaces; `sudo` is the `use_sudo` flag. */
  datatype Command = Command(program: string, args: seq<string>, sudo: bool)

  /** The shell text `run_command` logs and executes. */
  function CommandLine(c: Command): (line: string)
    ensures c.sudo ==> IsPrefix("sudo ", line)
  {
    var body := if c.args == [] then c.program else c.program + " " + Join(c.args);
    if c.sudo then "sudo " + body else body
  }

  /** `use_sudo` puts `sudo ` in front of the command text and changes nothing else. */
  lemma SudoLine(c: Command)
    ensures CommandLine(c.(sudo := true)) == "sudo " + CommandLine(c.(sudo := false))
  {
  }

  /** The words the shell sees: `sudo` for a privileged command, the words of
      the fixed part, then each argument as `' '.join(...)` laid it out. */
  lemma CommandLineFields(c: Command)
    requires forall i :: 0 <= i < |c.args| ==> c.args[i] != "" && NoSpace(c.args[i])
    ensures Fields(CommandLine(c)) == (if c.sudo then ["sudo"] else []) + Fields(c.program) + c.args
  {
    var body := CommandLine(c.(sudo := false));
    BodyFields(c.program, c.args);
    if c.sudo {
      SudoLine(c);
      SudoFields(body);
    }
  }

  lemma BodyFields(program: string, args: seq<string>)
    requires forall i :: 0 <= i < |args| ==> args[i] != "" && NoSpace(args[i])
    ensures Fields(CommandLine(Command(program, args, false))) == Fields(program) + args
  {
    FieldsOfJoin(args);
    if args != [] {
      WordsSplit(program, "", Join(args));
    }
  }

  lemma SudoFields(body: string)
    ensures Fields("sudo " + body) == ["sudo"] + Fields(body)
  {
    assert NoSpace("sudo") by {
      forall i | 0 <= i < |"sudo"| ensures !IsSpace("sudo"[i]) {
      }
    }
    FieldsOfSpaced("sudo", body);
    assert "sudo " + body == "sudo" + " " + body;
  }

  datatype Event = Log(text: string) | Run(cmd: Command)

  /** The commands of a trace, in order. */
  function Runs(events: seq<Event>): (cs: seq<Command>)
    ensures |cs| <= |events|
  {
    if events == [] then []
    else (if events[0].Run? then [events[0].cmd] else []) + Runs(events[1..])
  }

  lemma {:induction false} RunsAppend(a: seq<Event>, b: seq<Event>)
    ensures Runs(a + b) == Runs(a) + Runs(b)
  {
    if a != [] {
      assert (a + b)[1..] == a[1..] + b;
      RunsAppend(a[1..], b);
    } else {
      assert a + b == b;
    }
  }

  lemma RunsOne(e: Event)
    ensures Runs([e]) == if e.Run? then [e.cmd] else []
  {
    assert [e][1..] == [];
  }

  lemma RunsTwo(a: Event, b: Event)
    ensures Runs([a, b]) == Runs([a]) + Runs([b])
  {
    assert [a, b] == [a] + [b];
    RunsAppend([a], [b]);
  }

  lemma RunsThree(a: Event, b: Event, c: Event)
    ensures Runs([a, b, c]) == Runs([a]) + Runs([b]) + Runs([c])
  {
    assert [a, b, c] == [a, b] + [c];
    RunsAppend([a, b], [c]);
    RunsTwo(a, b);
  }

  /** A logged heading followed by one command. */
  lemma RunsOfRun(text: string, c: Command)
    ensures Runs([Log(text), Run(c)]) == [c]
  {
    RunsTwo(Log(text), Run(c));
    RunsOne(Log(text));
    RunsOne(Run(c));
  }

  /** Log lines contribute no commands. */
  lemma {:induction false} RunsOfLogs(a: seq<Event>)
    requires forall e :: e in a ==> e.Log?
    ensures Runs(a) == []
  {
    if a != [] {
      assert a[0] in a;
      RunsOfLogs(a[1..]);
    }
  }

  /** What a successful command changes in the host state that the installer
      later reads; the source never looks at a command's result itself. */
  datatype HostEffect = NoEffect | InstallsFlatpak | AppendsToFstab(line: string)

  predicate Distinct(xs: seq<string>) {
    forall i, j :: 0 <= i < j < |xs| ==> xs[i] != xs[j]
  }

  /** `list(set(xs))`: every name once. Python's set order is its hash order;
      this keeps the last occurrence of each name. */
  function Dedup(xs: seq<string>): (r: seq<string>)
    ensures Distinct(r)
    ensures forall x :: x in r <==> x in xs
    ensures |r| <= |xs|
  {
    if xs == [] then []
    else if xs[0] in xs[1..] then Dedup(xs[1..])
    else [xs[0]] + Dedup(xs[1..])
  }

  /** In a list without repetitions a member occurs exactly once. */
  lemma {:induction false} DistinctOnce(xs: seq<string>, x: string)
    requires Distinct(xs) && x in xs
    ensures multiset(xs)[x] == 1
  {
    assert xs == [xs[0]] + xs[1..];
    if xs[0] == x {
      assert x !in xs[1..];
    } else {
      DistinctOnce(xs[1..], x);
    }
  }
}
