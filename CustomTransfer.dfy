/**
 * The custom transfer adapter (customAdapter in transfer/custom.go): it
 * starts one external process per worker, greets it with an init request,
 * hands it one object at a time, and ends it gracefully or aborts it.
 */
module CustomTransfer {
  import opened Wrappers
  import opened Protocol
  import opened Worker
  import opened TransferLoop

  /** The opaque context the worker pool passes back: nil, a value of another type, or a worker of ours. */
  datatype Context = NilContext | ForeignContext | CustomContext(worker: WorkerContext)
  {
    function Objects(): set<object>
    {
      if CustomContext? then {worker} else {}
    }
  }

  /**
   * The number of workers Begin hands to the pool (custom.go:77-80): one
   * when the adapter may not run processes concurrently, otherwise the
   * requested number, never more than requested.
   */
  function UseConcurrency(concurrent: bool, maxConcurrency: int): (n: int)
    ensures !concurrent ==> n == 1
    ensures concurrent ==> n == maxConcurrency
    ensures maxConcurrency >= 1 ==> 1 <= n <= maxConcurrency
  {
    if concurrent then maxConcurrency else 1
  }

  /**
   * The operation named in the init request (custom.go:116-119), which is
   * also the name of the resource action DoTransfer looks up (custom.go:228, 234).
   */
  function OperationName(dir: Direction): (op: string)
    ensures op == "download" <==> dir == Download
    ensures op == "upload" <==> dir == Upload
  {
    if dir == Download then "download" else assert dir.Upload?; "upload"
  }

  /**
   * How the init exchange of WorkerStarting fails, if it does (custom.go:122-126):
   * the request cannot be encoded or written, no full line comes back, or the
   * init decoder rejects the line. The reply's own error field is never
   * looked at, so a reply that reports an error still starts the worker.
   */
  function HandshakeError(payload: Option<string>, stdinBroken: bool, output: string, initDecoder: Decoder)
    : (r: Option<Error>)
    ensures r.None? <==> payload.Some? && !stdinBroken && '\n' in output && initDecoder(SplitLine(output).0)
    ensures payload.None? ==> r == Some(MarshalFailed)
    ensures payload.Some? && stdinBroken ==> r == Some(WriteFailed)
  {
    if payload.None? then Some(MarshalFailed)
    else if stdinBroken then Some(WriteFailed)
    else if '\n' !in output then Some(ReadFailed)
    else
      var line := SplitLine(output).0;
      if initDecoder(line) then None else Some(NoMatchingResponse(line))
  }

  /**
   * The request DoTransfer sends, or why it sends none (custom.go:216-239):
   * no context, a context of the wrong type, or a missing action for the
   * adapter's direction.
   */
  function TransferRequest(dir: Direction, ctx: Context, t: Transfer, objectPath: string -> string)
    : (r: Result<Request>)
    ensures ctx.NilContext? ==> r == Err(NotInitialized)
    ensures ctx.ForeignContext? ==> r == Err(WrongContextType)
    ensures ctx.CustomContext? ==> (r == Err(ObjectNotFound) <==> OperationName(dir) !in t.rels)
    ensures r.Ok? ==> ctx.CustomContext? && !r.value.InitRequest? && !r.value.TerminateRequest?
    ensures r.Ok? ==> r.value.oid == t.oid && r.value.size == t.size && r.value.action == t.rels[OperationName(dir)]
    ensures r.Ok? ==> (r.value.UploadRequest? <==> dir == Upload)
    ensures r.Ok? && dir == Upload ==> r.value.path == objectPath(t.oid)
  {
    match ctx
    case NilContext => Err(NotInitialized)
    case ForeignContext => Err(WrongContextType)
    case CustomContext(_) =>
      if dir == Download then
        if "download" in t.rels then Ok(DownloadRequest(t.oid, t.size, t.rels["download"]))
        else Err(ObjectNotFound)
      else
        if "upload" in t.rels then Ok(UploadRequest(t.oid, t.size, objectPath(t.oid), t.rels["upload"]))
        else Err(ObjectNotFound)
  }

  class CustomAdapter {
    const name: string
    const direction: Direction
    const path: string
    const args: string
    const concurrent: bool
    /** json.Marshal, which is not part of this model: the encoding of a request, or none when encoding fails. */
    const encode: Request -> Option<string>
    /** The worker count the pool asked for, reported to each process in its init request. */
    var originalConcurrency: int

    /** newCustomAdapter (custom.go:291-296): the remembered concurrency starts at 3 until Begin runs. */
    constructor (name: string, direction: Direction, path: string, args: string, concurrent: bool,
                 encode: Request -> Option<string>)
      ensures this.name == name && this.direction == direction && this.path == path && this.args == args
      ensures this.concurrent == concurrent && this.encode == encode
      ensures originalConcurrency == 3
    {
      this.name, this.direction, this.path, this.args := name, direction, path, args;
      this.concurrent, this.encode := concurrent, encode;
      originalConcurrency := 3;
    }

    /**
     * Begin (custom.go:75-87): remembers the requested count and returns the
     * count handed to the worker pool, downgraded to one when concurrency is
     * not allowed.
     */
    method Begin(maxConcurrency: int) returns (useConcurrency: int)
      modifies this`originalConcurrency
      ensures originalConcurrency == maxConcurrency
      ensures useConcurrency == UseConcurrency(concurrent, maxConcurrency)
    {
      useConcurrency := maxConcurrency;
      if !concurrent {
        useConcurrency := 1;
      }
      originalConcurrency := maxConcurrency;
    }

    /** sendMessage (custom.go:135-147): the encoded request and one newline, written in one piece. */
    method SendMessage(ctx: WorkerContext, req: Request) returns (err: Option<Error>)
      modifies ctx`sent
      ensures encode(req).None? ==> err == Some(MarshalFailed) && ctx.sent == old(ctx.sent)
      ensures encode(req).Some? ==> (err.None? <==> ctx.Writable())
      ensures encode(req).Some? && err.None? ==> ctx.sent == old(ctx.sent) + Frame(encode(req).value)
      ensures encode(req).Some? && err.Some? ==> err == Some(WriteFailed) && ctx.sent == old(ctx.sent)
    {
      var b := encode(req);
      if b.None? {
        return Some(MarshalFailed);
      }
      err := ctx.Write(Frame(b.value));
    }

    /**
     * readResponse (custom.go:152-164): reads one line and returns the index
     * of the first candidate that decodes it; fails when the line cannot be
     * read or no candidate decodes it.
     */
    method ReadResponse(ctx: WorkerContext, candidates: seq<Decoder>) returns (idx: nat, err: Option<Error>)
      modifies ctx`unread
      ensures err.Some? ==> idx == 0
      ensures !ctx.stdoutOpen ==> err == Some(ReadFailed) && ctx.unread == old(ctx.unread)
      ensures ctx.stdoutOpen ==> ctx.unread == SplitLine(old(ctx.unread)).1
      ensures ctx.stdoutOpen && '\n' !in old(ctx.unread) ==> err == Some(ReadFailed)
      ensures ctx.stdoutOpen && '\n' in old(ctx.unread) ==>
        var line := SplitLine(old(ctx.unread)).0;
        match FirstMatch(line, candidates)
        case None => err == Some(NoMatchingResponse(line))
        case Some(i) => err.None? && idx == i
    {
      var line, rerr := ctx.ReadString();
      if rerr.Some? {
        return 0, rerr;
      }
      var m := SelectCandidate(line, candidates);
      if m.None? {
        return 0, Some(NoMatchingResponse(line));
      }
      return m.value, None;
    }

    /**
     * exchangeMessage (custom.go:168-180): sends the request and, only when a
     * response is expected and the send succeeded, reads exactly one line
     * against that single decoder.
     */
    method ExchangeMessage(ctx: WorkerContext, req: Request, resp: Option<Decoder>) returns (err: Option<Error>)
      modifies ctx`sent, ctx`unread
      ensures var sendOk := encode(req).Some? && ctx.Writable();
        && ctx.sent == (if sendOk then old(ctx.sent) + Frame(encode(req).value) else old(ctx.sent))
        && (!sendOk || resp.None? || !ctx.stdoutOpen ==> ctx.unread == old(ctx.unread))
        && (sendOk && resp.Some? && ctx.stdoutOpen ==> ctx.unread == SplitLine(old(ctx.unread)).1)
        && (err.None? <==> sendOk && (resp.Some? ==>
              ctx.stdoutOpen && '\n' in old(ctx.unread) && resp.value(SplitLine(old(ctx.unread)).0)))
      ensures encode(req).None? ==> err == Some(MarshalFailed)
      ensures encode(req).Some? && !ctx.Writable() ==> err == Some(WriteFailed)
      ensures encode(req).Some? && ctx.Writable() && resp.Some? ==>
        var line := SplitLine(old(ctx.unread)).0;
        && (!ctx.stdoutOpen || '\n' !in old(ctx.unread) ==> err == Some(ReadFailed))
        && (ctx.stdoutOpen && '\n' in old(ctx.unread) && !resp.value(line) ==> err == Some(NoMatchingResponse(line)))
    {
      err := SendMessage(ctx, req);
      if err.Some? {
        return;
      }
      if resp.Some? {
        var _, rerr := ReadResponse(ctx, [resp.value]);
        return rerr;
      }
      return None;
    }

    /**
     * WorkerStarting (custom.go:94-132): launches the process and performs the
     * init exchange. A context comes back exactly when the exchange succeeds;
     * when it fails the launched process is aborted and no context is returned.
     */
    method WorkerStarting(workerNum: int, launch: Launch, initDecoder: Decoder)
      returns (ctx: Context, err: Option<Error>, ghost proc: WorkerContext?)
      ensures launch == StdoutPipeFails ==> ctx == NilContext && err == Some(StdoutPipeFailed) && proc == null
      ensures launch == StdinPipeFails ==> ctx == NilContext && err == Some(StdinPipeFailed) && proc == null
      ensures launch == StartFails ==> ctx == NilContext && err == Some(StartFailed) && proc == null
      ensures launch.Started? ==>
        var payload := encode(InitRequest(OperationName(direction), concurrent, originalConcurrency));
        && proc != null && fresh(proc)
        && proc.stdinBroken == launch.stdinBroken && proc.exitsCleanly == launch.exitsCleanly
        && err == HandshakeError(payload, launch.stdinBroken, launch.output, initDecoder)
        && (err.None? ==> ctx == CustomContext(proc) && proc.Running()
                          && proc.sent == Frame(payload.value) && proc.unread == SplitLine(launch.output).1)
        && (err.Some? ==> ctx == NilContext && proc.Aborted())
    {
      match launch {
        case StdoutPipeFails => return NilContext, Some(StdoutPipeFailed), null;
        case StdinPipeFails => return NilContext, Some(StdinPipeFailed), null;
        case StartFails => return NilContext, Some(StartFailed), null;
        case Started(output, stdinBroken, exitsCleanly) =>
          var w := new WorkerContext(output, stdinBroken, exitsCleanly);
          proc := w;
          var op := "upload";
          if direction == Download {
            op := "download";
          }
          var initReq := InitRequest(op, concurrent, originalConcurrency);
          // The init reply's error field is not inspected: only a failure to
          // send, to read or to decode aborts the worker.
          err := ExchangeMessage(w, initReq, Some(initDecoder));
          if err.Some? {
            AbortWorkerProcess(w);
            return NilContext, err, proc;
          }
          ctx := CustomContext(w);
      }
    }

    /**
     * shutdownWorkerProcess (custom.go:184-193): sends a terminate request;
     * if that fails nothing else happens, otherwise both pipes are closed and
     * the process is waited for, whose exit status is the result.
     */
    method ShutdownWorkerProcess(ctx: WorkerContext) returns (err: Option<Error>)
      modifies ctx
      ensures var sendOk := encode(TerminateRequest(true)).Some? && old(ctx.Writable());
        && ctx.unread == old(ctx.unread) && ctx.killed == old(ctx.killed)
        && ctx.sent == (if sendOk then old(ctx.sent) + Frame(encode(TerminateRequest(true)).value) else old(ctx.sent))
        && (!sendOk ==> err == Some(if encode(TerminateRequest(true)).None? then MarshalFailed else WriteFailed)
                        && ctx.stdinOpen == old(ctx.stdinOpen)
                        && ctx.stdoutOpen == old(ctx.stdoutOpen) && ctx.waited == old(ctx.waited))
        && (sendOk ==> !ctx.stdinOpen && !ctx.stdoutOpen && ctx.waited
                       && (err.None? <==> old(ctx.WouldExitCleanly()))
                       && (err.Some? ==> err == Some(WaitFailed)))
    {
      err := ExchangeMessage(ctx, TerminateRequest(true), None);
      if err.Some? {
        return;
      }
      ctx.CloseStdin();
      ctx.CloseStdout();
      err := ctx.Wait();
    }

    /** abortWorkerProcess (custom.go:196-200): closes both pipes and kills the process, ignoring errors. */
    method AbortWorkerProcess(ctx: WorkerContext)
      modifies ctx`stdinOpen, ctx`stdoutOpen, ctx`killed
      ensures ctx.Aborted()
    {
      ctx.CloseStdin();
      ctx.CloseStdout();
      ctx.Kill();
    }

    /**
     * WorkerEnding (custom.go:201-213): a context of the wrong type is left
     * alone; otherwise the worker is shut down gracefully, and aborted
     * exactly when that fails.
     */
    method WorkerEnding(workerNum: int, ctx: Context)
      modifies ctx.Objects()
      ensures ctx.CustomContext? ==>
        var w := ctx.worker;
        var sendOk := encode(TerminateRequest(true)).Some? && old(w.Writable());
        var graceful := sendOk && old(w.WouldExitCleanly());
        && w.unread == old(w.unread)
        && w.sent == (if sendOk then old(w.sent) + Frame(encode(TerminateRequest(true)).value) else old(w.sent))
        && w.waited == (sendOk || old(w.waited))
        && (graceful ==> w.ShutDown())
        && (!graceful ==> w.Aborted())
    {
      if !ctx.CustomContext? {
        return;
      }
      var err := ShutdownWorkerProcess(ctx.worker);
      if err.Some? {
        AbortWorkerProcess(ctx.worker);
      }
    }

    /**
     * DoTransfer (custom.go:215-289): checks the context and the action,
     * sends the request, then runs the reply loop and, for a successful
     * upload, the verification. A failure after the request was sent only
     * returns an error: the worker is not aborted.
     */
    method DoTransfer(ctx: Context, t: Transfer, cbs: Callbacks, objectPath: string -> string,
                      replies: seq<Reply>, verifyResult: Option<Error>)
      returns (err: Option<Error>, events: seq<Event>)
      modifies ctx.Objects()
      ensures ctx.CustomContext? ==>
        && ctx.worker.unread == old(ctx.worker.unread)
        && ctx.worker.stdinOpen == old(ctx.worker.stdinOpen) && ctx.worker.stdoutOpen == old(ctx.worker.stdoutOpen)
        && ctx.worker.killed == old(ctx.worker.killed) && ctx.worker.waited == old(ctx.worker.waited)
      ensures match TransferRequest(direction, ctx, t, objectPath)
        case Err(e) =>
          err == Some(e) && events == [] && (ctx.CustomContext? ==> ctx.worker.sent == old(ctx.worker.sent))
        case Ok(req) =>
          if encode(req).None? then
            err == Some(MarshalFailed) && events == [] && ctx.worker.sent == old(ctx.worker.sent)
          else if !old(ctx.worker.Writable()) then
            err == Some(WriteFailed) && events == [] && ctx.worker.sent == old(ctx.worker.sent)
          else
            ctx.worker.sent == old(ctx.worker.sent) + Frame(encode(req).value)
            && (err, events) == AfterSend(direction, t, cbs, replies, verifyResult)
    {
      if ctx.NilContext? {
        return Some(NotInitialized), [];
      }
      if !ctx.CustomContext? {
        return Some(WrongContextType), [];
      }
      var w := ctx.worker;
      var req: Request;
      if direction == Download {
        if "download" !in t.rels {
          return Some(ObjectNotFound), [];
        }
        req := DownloadRequest(t.oid, t.size, t.rels["download"]);
      } else {
        if "upload" !in t.rels {
          return Some(ObjectNotFound), [];
        }
        req := UploadRequest(t.oid, t.size, objectPath(t.oid), t.rels["upload"]);
      }
      err := SendMessage(w, req);
      if err.Some? {
        return err, [];
      }
      var loopErr, loopEvents, _ := AwaitCompletion(t, cbs, replies);
      if loopErr.Some? {
        return loopErr, loopEvents;
      }
      events := loopEvents;
      if direction == Upload {
        events := events + [Verify(t.oid)];
        return verifyResult, events;
      }
      return None, events;
    }
  }

  /**
   * Concurrency downgrade for every request: with concurrency disallowed,
   * any number of requested workers starts exactly one process; allowed,
   * exactly the number requested (e.g. 4 of 4).
   */
  lemma ConcurrencyDowngrade(maxConcurrency: int)
    ensures UseConcurrency(false, maxConcurrency) == 1
    ensures UseConcurrency(true, maxConcurrency) == maxConcurrency
  {
  }
}
