/**
 * Access to the process invocation tokens (src/vars.rs).
 *
 * The source reads `std::env::args()`; here the token list is passed in as
 * `argv`, with `argv[0]` the program path, `argv[1]` the command and the
 * rest the command's arguments.
 */
module Vars {

  datatype Option<T> = None | Some(value: T)

  /** The `n`-th token, if there is one (the iterator's `nth`). */
  function Nth(argv: seq<string>, n: nat): Option<string>
  {
    if n < |argv| then Some(argv[n]) else None
  }

  /** The invoked command: token 1, or the empty string when there is none. */
  function GetCmd(argv: seq<string>): (cmd: string)
    ensures |argv| >= 2 ==> cmd == argv[1]
    ensures |argv| < 2 ==> cmd == ""
  {
    match Nth(argv, 1)
    case Some(arg) => arg
    case None => ""
  }

  /**
   * `Vec::remove`: drops the element at `index` and shifts the later ones
   * down by one. The source's callers only ever remove index 0; an
   * out-of-range index panics, hence the precondition.
   */
  function Remove(v: seq<string>, index: nat): (r: seq<string>)
    requires index < |v|
    ensures |r| == |v| - 1
    ensures forall i :: 0 <= i < index ==> r[i] == v[i]
    ensures forall i :: index <= i < |r| ==> r[i] == v[i + 1]
  {
    v[..index] + v[index + 1..]
  }

  /**
   * The command's arguments: every token after the command, in their
   * original order. The source removes the program path, and then the
   * command when there is one; with no token at all the first removal
   * panics, which is why `argv` may not be empty.
   */
  method GetArgs(argv: seq<string>) returns (args: seq<string>)
    requires |argv| >= 1
    ensures |args| == if |argv| < 2 then 0 else |argv| - 2
    ensures forall i :: 0 <= i < |args| ==> args[i] == argv[i + 2]
    ensures |argv| >= 2 ==> argv == [argv[0], GetCmd(argv)] + args
  {
    args := argv;
    if |args| < 2 {
      args := Remove(args, 0);  // the program path
      return;
    }
    args := Remove(args, 0);  // the program path
    args := Remove(args, 0);  // the command
  }
}
