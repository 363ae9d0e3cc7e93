# grey: command registry, dispatcher and argument reader in Dafny

grey is a small Rust library for scaffolding command-line applications. A host
program sets its application's name, description and version on an `App`. It
registers named subcommands in a `Commands` registry, each with a `fn() -> u8`
handler and a description. It then reads the invoked command from the process
arguments and calls `App::run`. `run` does one of three things:

- with no command, it prints a usage listing and exits with status 1;
- with a registered command, it exits with the handler's result;
- otherwise, it prints `error: unknown command '<cmd>'` and exits with status 1.

This project models that core:

- `vars.dfy`, module `Vars`, models `src/vars.rs`. `get_cmd` and `get_args`
  take the invocation tokens as a `seq<string>` parameter instead of reading
  `std::env::args()`.
- `builder.dfy`, module `Builder`, models `src/builder.rs`. `Commands` and
  `App` are classes whose methods update their fields in place. `App.Run`
  returns an `Outcome`: the exit code plus the text of each `println!` and
  `eprintln!` call. The source ends the process instead.
- The usage listing walks a `HashMap`, so its order is unspecified.
  `App.ShowDefaults` consumes a copy of the registry and takes the entries in
  an arbitrary order, using `:|`. Its contract compares the printed lines with
  the multiset `Listing` of one usage line per entry.
- `scenarios.dfy`, module `Scenarios`, replays the cases of
  `tests/builder_test.rs` and `tests/vars_test.rs` as verified methods. It
  also replays a few dispatch cases: registered, unknown, empty, `""`
  registered, and a name registered twice.

Two points of the source that shape the model:

- `Commands::new` returns an empty registry (src/builder.rs:40-45).
- Handlers are `fn() -> u8` and take no argument (src/builder.rs:9).

## Model

| member | source | states |
|---|---|---|
| Vars.GetCmd | src/vars.rs:16-21 | the command is token 1 when there are at least two tokens, else `""` (so `""` for the program path alone) |
| Vars.Remove | src/vars.rs:34 | `Vec::remove` shortens by one, keeps the elements before the index and shifts the later ones down; an out-of-range index is excluded (it panics) |
| Vars.GetArgs | src/vars.rs:31-40 | needs at least one token (removing from an empty token list panics); the result has two tokens fewer than `argv` (none when `argv` has one), token `i` of it is `argv[i + 2]`, and for two or more tokens `argv == [argv[0], GetCmd(argv)] + args` |
| Builder.Spaces | src/builder.rs:199 | the padding is `n` characters, all spaces |
| Builder.PadRight | src/builder.rs:199 | `{:<width}` keeps the string whole as a prefix, never truncates, and fills with spaces to the larger of `width` and the length of `s` |
| Builder.EntryLine | src/builder.rs:199 | a usage line is a space, the command name, spaces up to column 16, then the description; its length is one plus the larger of 15 and the name's length, plus the description's length |
| Builder.ListingWithout | src/builder.rs:198-200 | the multiset of usage lines is the line of any chosen entry plus the lines of the others, whatever entry is chosen first: the listing does not depend on iteration order |
| Builder.ListingSize | src/builder.rs:198-200 | the listing has exactly one line per registered command |
| Builder.ListingHasEntry | src/builder.rs:198-200 | every registered command's usage line appears in the listing |
| Builder.ListingOnlyEntries | src/builder.rs:198-200 | conversely, every line of the listing is the usage line of some registered command |
| Builder.Commands.constructor | src/builder.rs:40-45 | a new registry has no entries |
| Builder.Commands.Add | src/builder.rs:66-72 | afterwards `cmd` maps to exactly the new handler and description, and every other name's entry is unchanged; re-adding a name replaces it (last write wins) without growing the registry |
| Builder.App.constructor | src/builder.rs:85-91 | name, description and version all start as `""` |
| Builder.App.Name | src/builder.rs:107-109 | sets the name to the argument unchanged; description and version stay as they were |
| Builder.App.Description | src/builder.rs:126-128 | sets the description to the argument unchanged; name and version stay as they were |
| Builder.App.Version | src/builder.rs:146-148 | sets the version to the argument unchanged; name and description stay as they were |
| Builder.App.ShowDefaults | src/builder.rs:192-201 | prints the header `"\n" + name + " " + version + "\n\nUsage:\n command [options] [arguments]\n\nCommands:"`, then exactly one usage line per registered command, in any order (a multiset equality with `Listing`) |
| Builder.App.Run | src/builder.rs:175-190 | an empty command gives exit status 1, the full usage listing and no error, whatever is registered (even under `""`); a registered non-empty command gives its handler's `u8` result as exit status and prints nothing; any other command gives exit status 1 and the single error line `error: unknown command '<cmd>'` |

## Left out

- Process termination (`process::exit`) and the output streams (`println!`, `eprintln!`). `App.Run` returns the code and the printed text instead.
- Reading `std::env::args()`. The token list is a parameter. A `seq<string>` cannot hold a token that is not valid Unicode, so the panic `std::env::args()` raises on such a token is not modelled: in `get_cmd` for tokens 0 and 1 (`nth(1)`, src/vars.rs:17), in `get_args` for any token (`collect()`, src/vars.rs:32).
- Vars.GetArgs: requires at least one token. `get_args` panics on an empty token list because its first `args.remove(0)` fails (src/vars.rs:33-34), so the model has no result for that case.
- The order of the usage lines. `HashMap` iteration order is unspecified, so the model picks entries in an arbitrary order and states the listing as a multiset.
- What handlers do besides returning their code, including anything they print. A handler is a Dafny function value `() -> Byte`.
- Rust lifetimes and borrowing. This includes `run` consuming the `Commands` registry by value. In the model, `Run` only reads the registry.
- `tests/builder_test.rs` and `tests/vars_test.rs` are not modelled as code. Their cases are replayed in `Scenarios`. The outcome of `vars_test` depends on how the test harness is invoked; `Scenarios.NoCommandGiven` takes the case where only the program path is passed.
