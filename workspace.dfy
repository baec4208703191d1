/**
  The filesystem and process effects of one sync attempt, as a ghost trace:
  the temporary workspace is created, commands run inside it, and the
  deferred removal deletes it. Replaying a trace gives the workspaces still
  on disk, which is how "cleaned up on every path" is stated.
 */
module Workspace {

  datatype Effect =
    | MakeTempDir(dir: string)
    | Exec(command: string)
    | RemoveAll(dir: string)

  /** The live workspaces after one effect. */
  function Step(live: set<string>, e: Effect): set<string>
  {
    match e
    case MakeTempDir(d) => live + {d}
    case Exec(_) => live
    case RemoveAll(d) => live - {d}
  }

  /** The live workspaces after replaying `effects`, in order, from `live`. */
  function Replay(live: set<string>, effects: seq<Effect>): set<string>
    decreases |effects|
  {
    if effects == [] then live else Replay(Step(live, effects[0]), effects[1..])
  }

  /** Every command in `effects` runs while the workspace `dir` is live. */
  predicate ExecsInWorkspace(dir: string, live: set<string>, effects: seq<Effect>)
    decreases |effects|
  {
    effects == [] ||
    ((effects[0].Exec? ==> dir in live) && ExecsInWorkspace(dir, Step(live, effects[0]), effects[1..]))
  }

  /** Running `commands`, one after the other. */
  function Execs(commands: seq<string>): (effects: seq<Effect>)
    ensures |effects| == |commands|
    ensures forall i :: 0 <= i < |commands| ==> effects[i] == Exec(commands[i])
  {
    if commands == [] then [] else [Exec(commands[0])] + Execs(commands[1..])
  }

  /** Create `dir`, run `commands` in it, then remove it. */
  function Scoped(dir: string, commands: seq<string>): seq<Effect>
  {
    [MakeTempDir(dir)] + Execs(commands) + [RemoveAll(dir)]
  }

  /**
    Commands neither create nor remove workspaces, so they all run while
    `dir` is live; the final removal drops `dir`.
   */
  lemma {:induction false} ExecsThenRemove(live: set<string>, commands: seq<string>, dir: string)
    requires dir in live
    ensures Replay(live, Execs(commands) + [RemoveAll(dir)]) == live - {dir}
    ensures ExecsInWorkspace(dir, live, Execs(commands) + [RemoveAll(dir)])
  {
    var t := Execs(commands) + [RemoveAll(dir)];
    if commands == [] {
      assert t == [RemoveAll(dir)];
      assert t[1..] == [];
    } else {
      ExecsThenRemove(live, commands[1..], dir);
      assert t[0] == Exec(commands[0]);
      assert t[1..] == Execs(commands[1..]) + [RemoveAll(dir)];
    }
  }

  /**
    A scoped attempt leaves exactly the workspaces that were live before it,
    and each of its commands runs while its own workspace `dir` exists.
   */
  lemma ScopedCleansUp(live: set<string>, dir: string, commands: seq<string>)
    requires dir !in live
    ensures Replay(live, Scoped(dir, commands)) == live
    ensures ExecsInWorkspace(dir, live, Scoped(dir, commands))
  {
    var t := Scoped(dir, commands);
    assert t[0] == MakeTempDir(dir);
    assert t[1..] == Execs(commands) + [RemoveAll(dir)];
    ExecsThenRemove(live + {dir}, commands, dir);
  }
}
