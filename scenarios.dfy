/**
 * The cases exercised by tests/builder_test.rs and tests/vars_test.rs, and
 * a few dispatch cases, replayed against the model.
 */
module Scenarios {
  import opened Builder
  import Vars

  /** tests/builder_test.rs, `test_empty_app`. */
  method EmptyApp()
  {
    var app := new App();
    assert app.name == "" && app.desc == "" && app.version == "";
  }

  /** tests/builder_test.rs, `test_demo_app`: the setters in another order. */
  method DemoApp()
  {
    var app := new App();
    app.Name("test");
    app.Version("1.0.0");
    app.Description("test app");
    assert app.name == "test" && app.version == "1.0.0" && app.desc == "test app";
  }

  /** tests/vars_test.rs, run with no command after the program path. */
  method NoCommandGiven(path: string)
  {
    assert Vars.GetCmd([path]) == "";
    var args := Vars.GetArgs([path]);
    assert args == [];
  }

  /** A command with its arguments. */
  method CommandWithArguments(path: string)
  {
    var argv := [path, "build", "x", "y"];
    assert Vars.GetCmd(argv) == "build";
    var args := Vars.GetArgs(argv);
    assert args == ["x", "y"];
  }

  /** A registered command exits with its handler's code and prints nothing. */
  method DispatchRegistered()
  {
    var app := new App();
    var commands := new Commands();
    commands.Add("greet", () => 0, "greets");
    var o := app.Run("greet", commands);
    assert o.code == 0 && o.stdout == [] && o.stderr == [];
  }

  /** An unregistered command exits with 1 and names the command on stderr. */
  method DispatchUnknown()
  {
    var app := new App();
    var commands := new Commands();
    commands.Add("build", () => 0, "builds project");
    assert "nope" !in commands.values by { assert "nope"[0] != "build"[0]; }
    var o := app.Run("nope", commands);
    assert "error: unknown command '" + "nope" + "'" == "error: unknown command 'nope'";
    assert o == Outcome(1, [], ["error: unknown command 'nope'"]);
  }

  /** No command: the header and the one padded usage line, exit status 1. */
  method DispatchEmpty()
  {
    var app := new App();
    app.Name("demo");
    app.Version("1.0.0");
    var commands := new Commands();
    commands.Add("build", () => 0, "builds project");
    var o := app.Run("", commands);
    assert o.code == 1 && o.stderr == [];
    assert o.stdout[0] == Header("demo", "1.0.0");
    ListingSize(commands.values);
    ListingHasEntry(commands.values, "build");
    assert |o.stdout| == 2;
    assert multiset(o.stdout[1..]) == multiset{EntryLine("build", "builds project")};
    assert o.stdout[1] == EntryLine("build", "builds project");
    var line := EntryLine("build", "builds project");
    assert |line| == 30 && line[0] == ' ' && line[1..6] == "build";
    assert forall i :: 6 <= i < 16 ==> line[i] == ' ';
    assert line[16..] == "builds project";
  }

  /** The emptiness test comes first: a command registered as "" never runs. */
  method EmptyNameRegistered()
  {
    var app := new App();
    var commands := new Commands();
    commands.Add("", () => 7, "hidden");
    var o := app.Run("", commands);
    assert o.code == 1;
  }

  /** Registering a name twice keeps the second handler only. */
  method LastWriteWins()
  {
    var app := new App();
    var commands := new Commands();
    commands.Add("build", () => 3, "first");
    commands.Add("build", () => 4, "second");
    assert |commands.values| == 1;
    var o := app.Run("build", commands);
    assert o.code == 4;
  }
}
