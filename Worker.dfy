/**
 * One worker's external process and its pipes (customAdapterWorkerContext in
 * transfer/custom.go). The operating system is not modelled: what the process
 * will print, whether writes to it fail and whether it exits cleanly are
 * fixed when it is launched, and every pipe and process call becomes a step
 * on this object's state.
 */
module Worker {
  import opened Wrappers
  import opened Protocol

  /** How launching the configured program turns out (custom.go:99-111). */
  datatype Launch =
    | StdoutPipeFails
    | StdinPipeFails
    | StartFails
    | Started(output: string, stdinBroken: bool, exitsCleanly: bool)

  class WorkerContext {
    /** Everything written to the process's standard input so far. */
    var sent: string
    /** What the process has printed that the buffered reader has not yet returned. */
    var unread: string
    /** Writes fail, e.g. because the process has already exited (broken pipe). */
    const stdinBroken: bool
    /** The process would exit with status zero once its input is closed. */
    const exitsCleanly: bool
    var stdinOpen: bool
    var stdoutOpen: bool
    var killed: bool
    var waited: bool

    /** Started and not yet shut down or aborted: the only state a worker may be used in. */
    predicate Running()
      reads this
    {
      stdinOpen && stdoutOpen && !killed && !waited
    }

    /** Ended gracefully: both pipes closed and the process reaped, never killed. */
    predicate ShutDown()
      reads this
    {
      !stdinOpen && !stdoutOpen && waited && !killed
    }

    /** Aborted: both pipes closed and the process killed. */
    predicate Aborted()
      reads this
    {
      !stdinOpen && !stdoutOpen && killed
    }

    /** A write would succeed. */
    predicate Writable()
      reads this
    {
      stdinOpen && !stdinBroken
    }

    /** cmd.Wait would report success. */
    predicate WouldExitCleanly()
      reads this
    {
      exitsCleanly && !waited && !killed
    }

    /** A started process with fresh pipes (custom.go:108-113). */
    constructor (output: string, stdinBroken: bool, exitsCleanly: bool)
      ensures Running() && sent == [] && unread == output
      ensures this.stdinBroken == stdinBroken && this.exitsCleanly == exitsCleanly
    {
      sent, unread := [], output;
      this.stdinBroken, this.exitsCleanly := stdinBroken, exitsCleanly;
      stdinOpen, stdoutOpen, killed, waited := true, true, false, false;
    }

    /** ctx.stdin.Write: all of b is written, or nothing and an error. */
    method Write(b: string) returns (err: Option<Error>)
      modifies this`sent
      ensures err.None? <==> Writable()
      ensures err.Some? ==> err == Some(WriteFailed)
      ensures sent == if err.None? then old(sent) + b else old(sent)
    {
      if Writable() {
        sent := sent + b;
        err := None;
      } else {
        err := Some(WriteFailed);
      }
    }

    /**
     * ctx.bufferedOut.ReadString('\n'): one line including its newline. When
     * the output ends without a newline the rest is consumed and the read
     * fails; a closed pipe fails without consuming anything.
     */
    method ReadString() returns (line: string, err: Option<Error>)
      modifies this`unread
      ensures !stdoutOpen ==> err == Some(ReadFailed) && unread == old(unread)
      ensures stdoutOpen ==> (line, unread) == SplitLine(old(unread))
      ensures stdoutOpen ==> (err.None? <==> '\n' in old(unread))
      ensures err.Some? ==> err == Some(ReadFailed)
    {
      if !stdoutOpen {
        return [], Some(ReadFailed);
      }
      var split := SplitLine(unread);
      line, unread := split.0, split.1;
      err := if '\n' in line then None else Some(ReadFailed);
    }

    /** ctx.stdin.Close; errors are ignored by every caller. */
    method CloseStdin()
      modifies this`stdinOpen
      ensures !stdinOpen
    {
      stdinOpen := false;
    }

    /** ctx.stdout.Close; errors are ignored by every caller. */
    method CloseStdout()
      modifies this`stdoutOpen
      ensures !stdoutOpen
    {
      stdoutOpen := false;
    }

    /** ctx.cmd.Process.Kill; its error is ignored by the only caller. */
    method Kill()
      modifies this`killed
      ensures killed
    {
      killed := true;
    }

    /** ctx.cmd.Wait: reaps the process and reports a nonzero exit, a kill or a second wait. */
    method Wait() returns (err: Option<Error>)
      modifies this`waited
      ensures waited
      ensures err.None? <==> old(WouldExitCleanly())
      ensures err.Some? ==> err == Some(WaitFailed)
    {
      err := if WouldExitCleanly() then None else Some(WaitFailed);
      waited := true;
    }
  }
}
