/** A spawned MCP server as the clients see it: a child process whose standard
    output is a script of lines read one at a time, whose standard input
    collects every message the client writes, and which the client can signal. */
module Stdio {
  import opened Json

  /** One `readline()` on the child's stdout, after `json.loads`. An empty read
      (end of stream), a 5/10/30-second timeout and a line `json.loads` rejects
      (a blank line included) are the three ways a read yields no message. */
  datatype Line = Eof | Timeout | Malformed | Msg(m: Object)

  /** The line a read at position `k` sees: the stream is closed past the script. */
  function LineAt(script: seq<Line>, k: nat): (l: Line)
    ensures k >= |script| ==> l == Eof
  {
    if k < |script| then script[k] else Eof
  }

  /** What the client did to the process: `terminate()` and `kill()`. */
  datatype Signal = Terminate | Kill

  /** Whether an attempt to spawn a server is possible and what the child does:
      `fileExists` is the outcome of the `exists()` check on the server script,
      `spawnFails` an exception from `create_subprocess_exec` (executable not
      found), `script` the lines the child will print and `alive` whether it is
      still running after the start-up pause. */
  datatype Launch = Launch(fileExists: bool, spawnFails: bool, script: seq<Line>, alive: bool)

  class Process {
    /** `returncode is None`. */
    var running: bool
    /** Everything the child prints on stdout, line by line. */
    const stdout: seq<Line>
    /** Number of `readline()` calls made so far. */
    var cursor: nat
    /** Every JSON message written to the child's stdin, in order. */
    var stdin: seq<Object>
    var signals: seq<Signal>

    constructor (script: seq<Line>, alive: bool)
      ensures running == alive && stdout == script
      ensures cursor == 0 && stdin == [] && signals == []
    {
      running := alive;
      stdout := script;
      cursor := 0;
      stdin := [];
      signals := [];
    }

    /** `stdin.write(json.dumps(m) + "\n")` followed by `drain()`. */
    method Write(m: Object)
      modifies this`stdin
      ensures stdin == old(stdin) + [m]
    {
      stdin := stdin + [m];
    }

    /** `stdout.readline()` under a timeout, then `json.loads`. */
    method ReadLine() returns (line: Line)
      modifies this`cursor
      ensures line == LineAt(stdout, old(cursor))
      ensures cursor == old(cursor) + 1
    {
      line := LineAt(stdout, cursor);
      cursor := cursor + 1;
    }

    /** The child exits on its own, so `returncode` is no longer None; what it
        printed stays readable. */
    method Exit()
      modifies this`running
      ensures !running
    {
      running := false;
    }

    /** `terminate()`, a bounded `wait()`, and `kill()` only when the wait times out. */
    method Stop(exitsInGrace: bool)
      modifies this`running, this`signals
      ensures !running
      ensures signals == old(signals) + [Terminate] + (if exitsInGrace then [] else [Kill])
    {
      signals := signals + [Terminate];
      if !exitsInGrace {
        signals := signals + [Kill];
      }
      running := false;
    }
  }

  /** What the clients' stop paths do to a process: a running child is
      terminated, and killed too when the bounded wait times out; a process
      that has already exited is left alone. */
  twostate predicate StoppedIfRunning(p: Process?, exitsInGrace: bool)
    reads p
  {
    p != null ==>
      if old(p.running) then
        && !p.running
        && p.signals == old(p.signals) + [Terminate] + (if exitsInGrace then [] else [Kill])
        && p.stdin == old(p.stdin) && p.cursor == old(p.cursor)
      else
        unchanged(p)
  }
}
