/**
 * The command registry and the dispatcher (src/builder.rs).
 *
 * The source prints with `println!`/`eprintln!` and ends the process with
 * `process::exit`; here `App.Run` returns an `Outcome` holding the exit
 * code and what was printed, one element per `println!`/`eprintln!` call
 * (each of which ends the text with a newline).
 */
module Builder {

  /** Rust's `u8`: what a handler returns and the process exits with. */
  type Byte = x: int | 0 <= x < 0x100

  /** A command's callback (`fn() -> u8`); its own effects are not modelled. */
  type Handler = () -> Byte

  /** `CommandInfo`: a registered command's callback and description. */
  datatype CommandInfo = CommandInfo(handler: Handler, desc: string)

  /** What the process does once `run` is called. */
  datatype Outcome = Outcome(code: Byte, stdout: seq<string>, stderr: seq<string>)

  /** The column width a command name is left-aligned and padded to (`{:<15}`). */
  const CommandColumn: nat := 15

  function Max(a: int, b: int): int { if a < b then b else a }

  /** `n` spaces. */
  function Spaces(n: nat): (r: string)
    ensures |r| == n
    ensures forall i :: 0 <= i < |r| ==> r[i] == ' '
  {
    if n == 0 then "" else Spaces(n - 1) + " "
  }

  /**
   * The `{:<width}` format of a string: left-aligned, filled with spaces up
   * to `width` characters, and never truncated.
   */
  function PadRight(s: string, width: nat): (r: string)
    ensures |r| == Max(|s|, width)
    ensures r[..|s|] == s
    ensures forall i :: |s| <= i < |r| ==> r[i] == ' '
  {
    s + Spaces(if |s| < width then width - |s| else 0)
  }

  /** The first `println!` of the usage listing. */
  function Header(name: string, version: string): string
  {
    "\n" + name + " " + version + "\n\nUsage:\n command [options] [arguments]\n\nCommands:"
  }

  /**
   * The usage line of one command: a space, the name left-aligned in a
   * column of at least 15 characters, then the description.
   */
  function EntryLine(cmd: string, desc: string): (r: string)
    ensures |r| == 1 + Max(|cmd|, CommandColumn) + |desc|
    ensures r[0] == ' '
    ensures r[1..1 + |cmd|] == cmd
    ensures forall i :: 1 + |cmd| <= i < 1 + CommandColumn ==> r[i] == ' '
    ensures r[|r| - |desc|..] == desc
  {
    " " + PadRight(cmd, CommandColumn) + desc
  }

  /**
   * The usage lines of a registry, one per entry, as a multiset: the
   * source walks a `HashMap`, whose order is unspecified.
   */
  ghost function Listing(values: map<string, CommandInfo>): multiset<string>
    decreases |values|
  {
    if values == map[] then multiset{}
    else
      var cmd :| cmd in values;
      RemoveOneKey(values, cmd);
      multiset{EntryLine(cmd, values[cmd].desc)} + Listing(values - {cmd})
  }

  lemma RemoveOneKey<V>(m: map<string, V>, k: string)
    requires k in m
    ensures |m - {k}| == |m| - 1
  {
    assert (m - {k}).Keys == m.Keys - {k};
  }

  /** `Listing` does not depend on the entry it takes first. */
  lemma {:induction false} ListingWithout(values: map<string, CommandInfo>, cmd: string)
    requires cmd in values
    ensures Listing(values) == multiset{EntryLine(cmd, values[cmd].desc)} + Listing(values - {cmd})
    decreases |values|
  {
    var first :| first in values && Listing(values) ==
      multiset{EntryLine(first, values[first].desc)} + Listing(values - {first});
    if first != cmd {
      RemoveOneKey(values, first);
      RemoveOneKey(values, cmd);
      var rest, other := values - {first}, values - {cmd};
      var both := rest - {cmd};
      assert both == other - {first};
      var lineFirst := EntryLine(first, values[first].desc);
      var lineCmd := EntryLine(cmd, values[cmd].desc);
      assert rest[cmd] == values[cmd];
      ListingWithout(rest, cmd);
      assert Listing(rest) == multiset{lineCmd} + Listing(both);
      assert other[first] == values[first];
      ListingWithout(other, first);
      assert Listing(other) == multiset{lineFirst} + Listing(both);
    }
  }

  /** There is exactly one usage line per registered command. */
  lemma {:induction false} ListingSize(values: map<string, CommandInfo>)
    ensures |Listing(values)| == |values|
    decreases |values|
  {
    if values != map[] {
      var cmd :| cmd in values;
      ListingWithout(values, cmd);
      RemoveOneKey(values, cmd);
      ListingSize(values - {cmd});
    }
  }

  /** Every registered command has its usage line in the listing. */
  lemma ListingHasEntry(values: map<string, CommandInfo>, cmd: string)
    requires cmd in values
    ensures EntryLine(cmd, values[cmd].desc) in Listing(values)
  {
    ListingWithout(values, cmd);
  }

  /** Every line of the listing is the usage line of some registered command. */
  lemma {:induction false} ListingOnlyEntries(values: map<string, CommandInfo>, line: string)
    requires line in Listing(values)
    ensures exists cmd :: cmd in values && line == EntryLine(cmd, values[cmd].desc)
    decreases |values|
  {
    var cmd :| cmd in values;
    ListingWithout(values, cmd);
    if line != EntryLine(cmd, values[cmd].desc) {
      RemoveOneKey(values, cmd);
      var rest := values - {cmd};
      ListingOnlyEntries(rest, line);
      var other :| other in rest && line == EntryLine(other, rest[other].desc);
      assert other in values && values[other] == rest[other];
    }
  }

  /** `Commands`: the registry, from command name to callback and description. */
  class Commands {
    var values: map<string, CommandInfo>

    /** `Commands::new`: an empty registry. */
    constructor ()
      ensures values == map[]
    {
      values := map[];
    }

    /**
     * `Commands::add`: registers `cmd`, replacing any entry it already
     * had (last write wins); no other entry changes.
     */
    method Add(cmd: string, handler: Handler, desc: string)
      modifies this
      ensures values == old(values)[cmd := CommandInfo(handler, desc)]
      ensures cmd in values && values[cmd] == CommandInfo(handler, desc)
      ensures forall k :: k != cmd ==> (k in values <==> k in old(values))
      ensures forall k :: k != cmd && k in values ==> values[k] == old(values)[k]
      ensures |values| == if cmd in old(values) then |old(values)| else |old(values)| + 1
    {
      values := values[cmd := CommandInfo(handler, desc)];
    }
  }

  /** `App`: the application's name, description and version. */
  class App {
    var name: string
    var desc: string
    var version: string

    /** `App::new`: every field empty. */
    constructor ()
      ensures name == "" && desc == "" && version == ""
    {
      name, desc, version := "", "", "";
    }

    /** `App::name`: sets the name, and nothing else. */
    method Name(name: string)
      modifies this
      ensures this.name == name
      ensures desc == old(desc) && version == old(version)
    {
      this.name := name;
    }

    /** `App::description`: sets the description, and nothing else. */
    method Description(desc: string)
      modifies this
      ensures this.desc == desc
      ensures name == old(name) && version == old(version)
    {
      this.desc := desc;
    }

    /** `App::version`: sets the version, and nothing else. */
    method Version(version: string)
      modifies this
      ensures this.version == version
      ensures name == old(name) && desc == old(desc)
    {
      this.version := version;
    }

    /**
     * `App::show_defaults`: the header, then one usage line per registered
     * command, in whatever order the registry yields them.
     */
    method ShowDefaults(commands: Commands) returns (out: seq<string>)
      ensures |out| == |commands.values| + 1
      ensures out[0] == Header(name, version)
      ensures multiset(out[1..]) == Listing(commands.values)
    {
      out := [Header(name, version)];
      var rest := commands.values;
      ListingSize(rest);
      while rest != map[]
        invariant |out| >= 1 && out[0] == Header(name, version)
        invariant multiset(out[1..]) + Listing(rest) == Listing(commands.values)
        invariant |out| - 1 + |rest| == |commands.values|
        decreases |rest|
      {
        var cmd :| cmd in rest;
        ListingWithout(rest, cmd);
        RemoveOneKey(rest, cmd);
        var line := EntryLine(cmd, rest[cmd].desc);
        assert (out + [line])[1..] == out[1..] + [line];
        out := out + [line];
        rest := rest - {cmd};
      }
    }

    /**
     * `App::run`: with no command, the usage listing and exit status 1
     * (whatever is registered, even under the empty name); with a
     * registered command, its handler's result as exit status; otherwise
     * an error line and exit status 1.
     */
    method Run(cmd: string, commands: Commands) returns (o: Outcome)
      ensures cmd == "" ==>
        && o.code == 1
        && |o.stdout| == |commands.values| + 1
        && o.stdout[0] == Header(name, version)
        && multiset(o.stdout[1..]) == Listing(commands.values)
        && o.stderr == []
      ensures cmd != "" && cmd in commands.values ==>
        o == Outcome(commands.values[cmd].handler(), [], [])
      ensures cmd != "" && cmd !in commands.values ==>
        o == Outcome(1, [], ["error: unknown command '" + cmd + "'"])
    {
      if cmd == "" {
        var listing := ShowDefaults(commands);
        return Outcome(1, listing, []);
      }
      if cmd in commands.values {
        var code := commands.values[cmd].handler();
        o := Outcome(code, [], []);
      } else {
        o := Outcome(1, [], ["error: unknown command '" + cmd + "'"]);
      }
    }
  }
}
