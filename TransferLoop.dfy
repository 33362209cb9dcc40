/**
 * The per-transfer reply loop of DoTransfer (transfer/custom.go:245-288),
 * over replies that have already been read and classified: what the loop
 * does with each reply, the callbacks it makes, and when it ends.
 */
module TransferLoop {
  import opened Wrappers
  import opened Protocol

  /** One transfer unit: its name for the progress callback, the object, and its resolved actions. */
  datatype Transfer = Transfer(name: string, oid: string, size: int, rels: map<string, Action>)

  /**
   * One reply as the loop sees it after readResponse: a progress report, a
   * completion, a failed read (custom.go:153-156), or a line that no
   * candidate decoded (custom.go:162); the last two end the loop at
   * custom.go:250-251.
   */
  datatype Reply =
    | Progress(oid: string, bytesSoFar: int, bytesSinceLast: int)
    | Complete(oid: string, error: Option<string>)
    | ReadFailure
    | Unmatched(line: string)

  /** What DoTransfer does that the caller can observe besides its result. */
  datatype Event =
    | ProgressCb(name: string, size: int, bytesSoFar: int, bytesSinceLast: int)
    | AuthOk
    | Verify(oid: string)

  /** Which of the two optional callbacks were passed (non-nil in Go). */
  datatype Callbacks = Callbacks(progress: bool, auth: bool)

  /** How the loop ends, the callbacks it made, and how many replies it read. */
  datatype LoopResult = LoopResult(err: Option<Error>, events: seq<Event>, consumed: nat)

  /** Replies [0, k) are progress reports about the transfer's own object. */
  predicate MatchingProgress(t: Transfer, replies: seq<Reply>, k: nat)
  {
    k <= |replies| && forall i :: 0 <= i < k ==> replies[i].Progress? && replies[i].oid == t.oid
  }

  /**
   * The loop at custom.go:248-282, started with authCalled as given. Running
   * out of replies is a failed read (ReadString reports end of stream).
   * An oid mismatch or a failed read only returns an error; nothing here
   * aborts the worker (custom.go:250-251, 258-259, 268-269).
   */
  function RunLoop(t: Transfer, cbs: Callbacks, replies: seq<Reply>, authCalled: bool): (r: LoopResult)
    ensures r.consumed <= |replies|
    ensures forall e :: e in r.events ==> !e.Verify?
    decreases |replies|
  {
    if replies == [] then LoopResult(Some(ReadFailed), [], 0)
    else
      match replies[0]
      case ReadFailure => LoopResult(Some(ReadFailed), [], 1)
      case Unmatched(line) => LoopResult(Some(NoMatchingResponse(line)), [], 1)
      case Progress(oid, soFar, sinceLast) =>
        if oid != t.oid then LoopResult(Some(OidMismatch(oid, t.oid)), [], 1)
        else
          var fire := soFar > 0 && cbs.auth && !authCalled;
          var rest := RunLoop(t, cbs, replies[1..], authCalled || fire);
          LoopResult(rest.err,
                     (if cbs.progress then [ProgressCb(t.name, t.size, soFar, sinceLast)] else [])
                     + (if fire then [AuthOk] else []) + rest.events,
                     rest.consumed + 1)
      case Complete(oid, error) =>
        if oid != t.oid then LoopResult(Some(OidMismatch(oid, t.oid)), [], 1)
        else if error.Some? then LoopResult(Some(TransferFailed(t.oid, error.value)), [], 1)
        else LoopResult(None, if cbs.auth && !authCalled then [AuthOk] else [], 1)
  }

  /** A loop that has made the callbacks in events after reading i replies, and ends as rest says. */
  function Resume(events: seq<Event>, i: nat, rest: LoopResult): LoopResult
  {
    LoopResult(rest.err, events + rest.events, i + rest.consumed)
  }

  /** One turn of the loop: how the loop from reply i on is made up of reply i and the loop after it. */
  lemma UnfoldAt(t: Transfer, cbs: Callbacks, replies: seq<Reply>, i: nat, authCalled: bool)
    requires i < |replies|
    ensures var r := RunLoop(t, cbs, replies[i..], authCalled);
      match replies[i]
      case ReadFailure => r == LoopResult(Some(ReadFailed), [], 1)
      case Unmatched(line) => r == LoopResult(Some(NoMatchingResponse(line)), [], 1)
      case Progress(oid, soFar, sinceLast) =>
        if oid != t.oid then r == LoopResult(Some(OidMismatch(oid, t.oid)), [], 1)
        else
          var fire := soFar > 0 && cbs.auth && !authCalled;
          var rest := RunLoop(t, cbs, replies[i + 1..], authCalled || fire);
          r == LoopResult(rest.err,
                          (if cbs.progress then [ProgressCb(t.name, t.size, soFar, sinceLast)] else [])
                          + (if fire then [AuthOk] else []) + rest.events,
                          rest.consumed + 1)
      case Complete(oid, error) =>
        if oid != t.oid then r == LoopResult(Some(OidMismatch(oid, t.oid)), [], 1)
        else if error.Some? then r == LoopResult(Some(TransferFailed(t.oid, error.value)), [], 1)
        else r == LoopResult(None, if cbs.auth && !authCalled then [AuthOk] else [], 1)
  {
  }

  /** Handing one turn's callbacks from the remaining loop to those already made. */
  lemma ResumeStep(before: seq<Event>, turn: seq<Event>, i: nat, rest: LoopResult)
    ensures Resume(before, i, LoopResult(rest.err, turn + rest.events, rest.consumed + 1))
         == Resume(before + turn, i + 1, rest)
  {
  }

  /**
   * The loop as the source runs it: read a reply, act on it, and stop at the
   * first completion; errors return at once.
   */
  method AwaitCompletion(t: Transfer, cbs: Callbacks, replies: seq<Reply>)
    returns (err: Option<Error>, events: seq<Event>, consumed: nat)
    ensures LoopResult(err, events, consumed) == RunLoop(t, cbs, replies, false)
  {
    var authCalled := false;
    var complete := false;
    var i := 0;
    events := [];
    assert replies[0..] == replies;
    while !complete
      invariant 0 <= i <= |replies|
      invariant !complete ==> RunLoop(t, cbs, replies, false) == Resume(events, i, RunLoop(t, cbs, replies[i..], authCalled))
      invariant complete ==> RunLoop(t, cbs, replies, false) == LoopResult(None, events, i)
      decreases |replies| - i, !complete
    {
      if i == |replies| {
        assert events + [] == events;
        return Some(ReadFailed), events, i;
      }
      var reply := replies[i];
      UnfoldAt(t, cbs, replies, i, authCalled);
      ghost var before := events;
      ghost var authBefore := authCalled;
      i := i + 1;
      var wasAuthOk := false;
      match reply {
        case ReadFailure =>
          assert before + [] == events;
          return Some(ReadFailed), events, i;
        case Unmatched(line) =>
          assert before + [] == events;
          return Some(NoMatchingResponse(line)), events, i;
        case Progress(oid, soFar, sinceLast) =>
          if oid != t.oid {
            assert before + [] == events;
            return Some(OidMismatch(oid, t.oid)), events, i;
          }
          if cbs.progress {
            events := events + [ProgressCb(t.name, t.size, soFar, sinceLast)];
          }
          wasAuthOk := soFar > 0;
        case Complete(oid, error) =>
          if oid != t.oid {
            assert before + [] == events;
            return Some(OidMismatch(oid, t.oid)), events, i;
          }
          if error.Some? {
            assert before + [] == events;
            return Some(TransferFailed(t.oid, error.value)), events, i;
          }
          wasAuthOk := true;
          complete := true;
      }
      if wasAuthOk && cbs.auth && !authCalled {
        events := events + [AuthOk];
        authCalled := true;
      }
      if !complete {
        ghost var fire := reply.bytesSoFar > 0 && cbs.auth && !authBefore;
        ghost var turn := (if cbs.progress then [ProgressCb(t.name, t.size, reply.bytesSoFar, reply.bytesSinceLast)] else [])
                          + (if fire then [AuthOk] else []);
        assert events == before + turn;
        assert authCalled == (authBefore || fire);
        ResumeStep(before, turn, i - 1, RunLoop(t, cbs, replies[i..], authCalled));
      }
    }
    err, consumed := None, i;
  }

  /**
   * What DoTransfer returns and does once its request is sent: the loop, then
   * (only after a successful completion of an upload) the verification call,
   * whose error becomes the transfer's result (custom.go:284-288).
   */
  function AfterSend(dir: Direction, t: Transfer, cbs: Callbacks, replies: seq<Reply>, verifyResult: Option<Error>)
    : (r: (Option<Error>, seq<Event>))
    ensures var loop := RunLoop(t, cbs, replies, false);
      && (Verify(t.oid) in r.1 <==> dir == Upload && loop.err.None?)
      && (forall e :: e in r.1 && e.Verify? ==> e == Verify(t.oid))
      && (forall i, j :: 0 <= i < j < |r.1| && r.1[i].Verify? ==> !r.1[j].Verify?)
      && (loop.err.Some? ==> r.0 == loop.err)
      && (loop.err.None? ==> r.0 == if dir == Upload then verifyResult else None)
  {
    var loop := RunLoop(t, cbs, replies, false);
    if loop.err.Some? then (loop.err, loop.events)
    else if dir == Upload then (verifyResult, loop.events + [Verify(t.oid)])
    else (None, loop.events)
  }

  // ----- Progress callbacks and the authentication signal -----

  /** The progress callbacks in a trace, in order. */
  function ProgressCalls(events: seq<Event>): (r: seq<Event>)
    ensures forall e :: e in r ==> e.ProgressCb?
    ensures |r| <= |events|
  {
    if events == [] then []
    else (if events[0].ProgressCb? then [events[0]] else []) + ProgressCalls(events[1..])
  }

  /** How many times the authentication callback fires in a trace. */
  function AuthCount(events: seq<Event>): (n: nat)
    ensures n <= |events|
    ensures n == 0 <==> AuthOk !in events
  {
    if events == [] then 0
    else (if events[0] == AuthOk then 1 else 0) + AuthCount(events[1..])
  }

  lemma {:induction false} ProgressCallsAppend(a: seq<Event>, b: seq<Event>)
    ensures ProgressCalls(a + b) == ProgressCalls(a) + ProgressCalls(b)
  {
    if a == [] {
      assert a + b == b;
    } else {
      assert (a + b)[0] == a[0] && (a + b)[1..] == a[1..] + b;
      ProgressCallsAppend(a[1..], b);
    }
  }

  lemma {:induction false} AuthCountAppend(a: seq<Event>, b: seq<Event>)
    ensures AuthCount(a + b) == AuthCount(a) + AuthCount(b)
  {
    if a == [] {
      assert a + b == b;
    } else {
      assert (a + b)[0] == a[0] && (a + b)[1..] == a[1..] + b;
      AuthCountAppend(a[1..], b);
    }
  }

  /** The progress callback a progress reply gives rise to. */
  function CallbackFor(t: Transfer, p: Reply): (e: Event)
    requires p.Progress?
    ensures e.ProgressCb? && e.bytesSoFar == p.bytesSoFar && e.bytesSinceLast == p.bytesSinceLast
  {
    ProgressCb(t.name, t.size, p.bytesSoFar, p.bytesSinceLast)
  }

  /** The calls answer, one for one and in order, the first |calls| replies, all progress for the object. */
  predicate CallsAnswerReplies(t: Transfer, replies: seq<Reply>, calls: seq<Event>)
  {
    MatchingProgress(t, replies, |calls|)
    && forall i :: 0 <= i < |calls| ==> calls[i] == CallbackFor(t, replies[i])
  }

  /**
   * The progress callback fires once per progress reply the loop accepts, in
   * order, with the transfer's name and size and the reply's byte counts; it
   * stops at the reply that ends the loop.
   */
  lemma {:induction false} ProgressCallbacksInOrder(t: Transfer, cbs: Callbacks, replies: seq<Reply>, authCalled: bool)
    requires cbs.progress
    ensures var r := RunLoop(t, cbs, replies, authCalled); var calls := ProgressCalls(r.events);
      CallsAnswerReplies(t, replies, calls) && |calls| <= r.consumed <= |calls| + 1
  {
    if replies != [] && replies[0].Progress? && replies[0].oid == t.oid {
      var p := replies[0];
      var fire := p.bytesSoFar > 0 && cbs.auth && !authCalled;
      var rest := RunLoop(t, cbs, replies[1..], authCalled || fire);
      ProgressCallbacksInOrder(t, cbs, replies[1..], authCalled || fire);
      var head := [CallbackFor(t, p)];
      var auth := if fire then [AuthOk] else [];
      ProgressCallsAppend(head + auth, rest.events);
      ProgressCallsAppend(head, auth);
      assert ProgressCalls(auth) == [];
      assert ProgressCalls(head) == head;
      var tail := ProgressCalls(rest.events);
      var calls := head + tail;
      assert RunLoop(t, cbs, replies, authCalled).events == head + auth + rest.events;
      forall i | 0 <= i < |calls|
        ensures replies[i].Progress? && replies[i].oid == t.oid && calls[i] == CallbackFor(t, replies[i])
      {
        if i > 0 { assert replies[i] == replies[1..][i - 1] && calls[i] == tail[i - 1]; }
      }
    } else if replies != [] {
      var events := RunLoop(t, cbs, replies, authCalled).events;
      assert events == [] || events == [AuthOk];
      assert ProgressCalls([AuthOk]) == [] + ProgressCalls([]);
    }
  }

  /** Without a progress callback, none is ever made. */
  lemma {:induction false} NoProgressCallbackWhenAbsent(t: Transfer, cbs: Callbacks, replies: seq<Reply>, authCalled: bool)
    requires !cbs.progress
    ensures ProgressCalls(RunLoop(t, cbs, replies, authCalled).events) == []
  {
    if replies != [] && replies[0].Progress? && replies[0].oid == t.oid {
      var p := replies[0];
      var fire := p.bytesSoFar > 0 && cbs.auth && !authCalled;
      var rest := RunLoop(t, cbs, replies[1..], authCalled || fire);
      NoProgressCallbackWhenAbsent(t, cbs, replies[1..], authCalled || fire);
      var auth := if fire then [AuthOk] else [];
      ProgressCallsAppend(auth, rest.events);
      assert ProgressCalls(auth) == [];
      assert RunLoop(t, cbs, replies, authCalled).events == auth + rest.events;
    }
  }

  /** On success every reply but the final completion was answered by a progress callback. */
  lemma SuccessfulLoopReportsEveryProgress(t: Transfer, cbs: Callbacks, replies: seq<Reply>, authCalled: bool)
    requires cbs.progress && RunLoop(t, cbs, replies, authCalled).err.None?
    ensures |ProgressCalls(RunLoop(t, cbs, replies, authCalled).events)| == RunLoop(t, cbs, replies, authCalled).consumed - 1
  {
  }

  /**
   * The authentication callback fires at most once per transfer, never when
   * it is absent or already fired, and always on a successful completion
   * when it had not fired before.
   */
  lemma {:induction false} AuthAtMostOnce(t: Transfer, cbs: Callbacks, replies: seq<Reply>, authCalled: bool)
    ensures var r := RunLoop(t, cbs, replies, authCalled);
      && AuthCount(r.events) <= (if authCalled || !cbs.auth then 0 else 1)
      && (r.err.None? && cbs.auth && !authCalled ==> AuthCount(r.events) == 1)
  {
    if replies != [] && replies[0].Progress? && replies[0].oid == t.oid {
      var p := replies[0];
      var fire := p.bytesSoFar > 0 && cbs.auth && !authCalled;
      var rest := RunLoop(t, cbs, replies[1..], authCalled || fire);
      AuthAtMostOnce(t, cbs, replies[1..], authCalled || fire);
      var head := if cbs.progress then [ProgressCb(t.name, t.size, p.bytesSoFar, p.bytesSinceLast)] else [];
      var auth := if fire then [AuthOk] else [];
      AuthCountAppend(head + auth, rest.events);
      AuthCountAppend(head, auth);
    }
  }

  /**
   * Reading only the first n accepted progress replies emits a prefix of the
   * whole trace: what the loop reports after reading a reply is never
   * revised by later replies.
   */
  lemma {:induction false} PrefixEvents(t: Transfer, cbs: Callbacks, replies: seq<Reply>, n: nat, authCalled: bool)
    requires MatchingProgress(t, replies, n)
    ensures RunLoop(t, cbs, replies[..n], authCalled).events <= RunLoop(t, cbs, replies, authCalled).events
  {
    if n > 0 {
      var p := replies[0];
      var fire := p.bytesSoFar > 0 && cbs.auth && !authCalled;
      assert replies[..n][0] == p && replies[..n][1..] == replies[1..][..n - 1];
      PrefixEvents(t, cbs, replies[1..], n - 1, authCalled || fire);
    }
  }

  /**
   * The authentication callback has fired by the time the first progress
   * reply with a positive byte count has been handled, before any later
   * reply is read.
   */
  lemma {:induction false} AuthByFirstPositiveProgress(t: Transfer, cbs: Callbacks, replies: seq<Reply>, k: nat)
    requires MatchingProgress(t, replies, k + 1) && replies[k].bytesSoFar > 0 && cbs.auth
    ensures AuthOk in RunLoop(t, cbs, replies[..k + 1], false).events
    ensures RunLoop(t, cbs, replies[..k + 1], false).events <= RunLoop(t, cbs, replies, false).events
  {
    AuthFiresWithin(t, cbs, replies[..k + 1], k);
    PrefixEvents(t, cbs, replies, k + 1, false);
  }

  lemma {:induction false} AuthFiresWithin(t: Transfer, cbs: Callbacks, replies: seq<Reply>, k: nat)
    requires MatchingProgress(t, replies, k + 1) && replies[k].bytesSoFar > 0 && cbs.auth
    ensures AuthOk in RunLoop(t, cbs, replies, false).events
  {
    var p := replies[0];
    var rest := RunLoop(t, cbs, replies[1..], p.bytesSoFar > 0);
    var head := if cbs.progress then [ProgressCb(t.name, t.size, p.bytesSoFar, p.bytesSinceLast)] else [];
    if p.bytesSoFar > 0 {
      assert RunLoop(t, cbs, replies, false).events == head + [AuthOk] + rest.events;
    } else {
      AuthFiresWithin(t, cbs, replies[1..], k - 1);
      assert RunLoop(t, cbs, replies, false).events == head + rest.events;
    }
  }

  /** Before any progress reply with a positive byte count, the authentication callback has not fired. */
  lemma {:induction false} NoAuthBeforePositiveProgress(t: Transfer, cbs: Callbacks, replies: seq<Reply>, k: nat)
    requires MatchingProgress(t, replies, k)
    requires forall i :: 0 <= i < k ==> replies[i].bytesSoFar <= 0
    ensures AuthOk !in RunLoop(t, cbs, replies[..k], false).events
  {
    if k > 0 {
      assert replies[..k][0] == replies[0] && replies[..k][1..] == replies[1..][..k - 1];
      NoAuthBeforePositiveProgress(t, cbs, replies[1..], k - 1);
    }
  }

  // ----- How the loop ends -----

  /** The outcome and the number of replies read do not depend on whether authentication was signalled. */
  lemma {:induction false} OutcomeIgnoresAuth(t: Transfer, cbs: Callbacks, replies: seq<Reply>, a: bool, b: bool)
    ensures RunLoop(t, cbs, replies, a).err == RunLoop(t, cbs, replies, b).err
    ensures RunLoop(t, cbs, replies, a).consumed == RunLoop(t, cbs, replies, b).consumed
  {
    if replies != [] && replies[0].Progress? && replies[0].oid == t.oid {
      var p := replies[0];
      OutcomeIgnoresAuth(t, cbs, replies[1..], a || (p.bytesSoFar > 0 && cbs.auth && !a),
                         b || (p.bytesSoFar > 0 && cbs.auth && !b));
    }
  }

  /** Accepted progress replies only move the loop on: it ends as it would from the first other reply. */
  lemma {:induction false} SkipProgress(t: Transfer, cbs: Callbacks, replies: seq<Reply>, k: nat, authCalled: bool)
    requires MatchingProgress(t, replies, k)
    ensures RunLoop(t, cbs, replies, authCalled).err == RunLoop(t, cbs, replies[k..], authCalled).err
    ensures RunLoop(t, cbs, replies, authCalled).consumed == k + RunLoop(t, cbs, replies[k..], authCalled).consumed
  {
    if k > 0 {
      var p := replies[0];
      var next := authCalled || (p.bytesSoFar > 0 && cbs.auth && !authCalled);
      SkipProgress(t, cbs, replies[1..], k - 1, next);
      assert replies[1..][k - 1..] == replies[k..];
      OutcomeIgnoresAuth(t, cbs, replies[k..], next, authCalled);
    }
  }

  /**
   * A loop that succeeds has read zero or more progress replies for the
   * object followed by exactly one completion for it with no error, and
   * nothing after that.
   */
  lemma {:induction false} SuccessShape(t: Transfer, cbs: Callbacks, replies: seq<Reply>, authCalled: bool)
    ensures var r := RunLoop(t, cbs, replies, authCalled);
      r.err.None? ==> 1 <= r.consumed && MatchingProgress(t, replies, r.consumed - 1)
                      && replies[r.consumed - 1] == Complete(t.oid, None)
  {
    if replies != [] && replies[0].Progress? && replies[0].oid == t.oid {
      var p := replies[0];
      var next := authCalled || (p.bytesSoFar > 0 && cbs.auth && !authCalled);
      SuccessShape(t, cbs, replies[1..], next);
      var rest := RunLoop(t, cbs, replies[1..], next);
      if rest.err.None? {
        forall i | 0 <= i < rest.consumed
          ensures replies[i].Progress? && replies[i].oid == t.oid
        {
          if i > 0 { assert replies[i] == replies[1..][i - 1]; }
        }
      }
    }
  }

  /** Conversely, progress replies for the object followed by an error-free completion for it end the loop successfully there. */
  lemma CompletionAfterProgressSucceeds(t: Transfer, cbs: Callbacks, replies: seq<Reply>, k: nat, authCalled: bool)
    requires k < |replies| && MatchingProgress(t, replies, k) && replies[k] == Complete(t.oid, None)
    ensures RunLoop(t, cbs, replies, authCalled).err.None?
    ensures RunLoop(t, cbs, replies, authCalled).consumed == k + 1
  {
    SkipProgress(t, cbs, replies, k, authCalled);
  }

  /**
   * The first reply after the accepted progress replies that names another
   * object ends the transfer with an oid mismatch, and no verification follows.
   */
  lemma OidMismatchFails(dir: Direction, t: Transfer, cbs: Callbacks, replies: seq<Reply>, verifyResult: Option<Error>, k: nat)
    requires k < |replies| && MatchingProgress(t, replies, k)
    requires (replies[k].Progress? || replies[k].Complete?) && replies[k].oid != t.oid
    ensures AfterSend(dir, t, cbs, replies, verifyResult).0 == Some(OidMismatch(replies[k].oid, t.oid))
    ensures Verify(t.oid) !in AfterSend(dir, t, cbs, replies, verifyResult).1
  {
    SkipProgress(t, cbs, replies, k, false);
  }

  /**
   * A reply after the accepted progress replies that cannot be read, or that
   * no candidate decodes, ends the transfer with that error, and no
   * verification follows.
   */
  lemma UndecodedReplyFails(dir: Direction, t: Transfer, cbs: Callbacks, replies: seq<Reply>, verifyResult: Option<Error>, k: nat)
    requires k < |replies| && MatchingProgress(t, replies, k)
    requires replies[k].ReadFailure? || replies[k].Unmatched?
    ensures AfterSend(dir, t, cbs, replies, verifyResult).0
         == Some(if replies[k].ReadFailure? then ReadFailed else NoMatchingResponse(replies[k].line))
    ensures Verify(t.oid) !in AfterSend(dir, t, cbs, replies, verifyResult).1
  {
    SkipProgress(t, cbs, replies, k, false);
  }

  /** A completion for the object that carries an error fails the transfer with it, and no verification follows. */
  lemma EmbeddedErrorFails(dir: Direction, t: Transfer, cbs: Callbacks, replies: seq<Reply>, verifyResult: Option<Error>,
                           k: nat, message: string)
    requires k < |replies| && MatchingProgress(t, replies, k)
    requires replies[k] == Complete(t.oid, Some(message))
    ensures AfterSend(dir, t, cbs, replies, verifyResult).0 == Some(TransferFailed(t.oid, message))
    ensures Verify(t.oid) !in AfterSend(dir, t, cbs, replies, verifyResult).1
  {
    SkipProgress(t, cbs, replies, k, false);
  }

  /**
   * A 10 MB upload that reports 3 MB, then 10 MB, then completes: two
   * progress callbacks, authentication signalled at the first, and one
   * verification.
   */
  lemma UploadScenario(rels: map<string, Action>)
    ensures var t := Transfer("obj", "abc", 10000000, rels);
      var replies := [Progress("abc", 3000000, 3000000), Progress("abc", 10000000, 7000000), Complete("abc", None)];
      AfterSend(Upload, t, Callbacks(true, true), replies, None)
        == (None, [ProgressCb("obj", 10000000, 3000000, 3000000), AuthOk,
                   ProgressCb("obj", 10000000, 10000000, 7000000), Verify("abc")])
  {
    var t := Transfer("obj", "abc", 10000000, rels);
    var replies := [Progress("abc", 3000000, 3000000), Progress("abc", 10000000, 7000000), Complete("abc", None)];
    var r2 := RunLoop(t, Callbacks(true, true), [Complete("abc", None)], true);
    assert r2 == LoopResult(None, [], 1);
    assert replies[1..][1..] == [Complete("abc", None)];
    var r1 := RunLoop(t, Callbacks(true, true), replies[1..], true);
    assert r1 == LoopResult(None, [ProgressCb("obj", 10000000, 10000000, 7000000)], 2);
    var r0 := RunLoop(t, Callbacks(true, true), replies, false);
    assert r0 == LoopResult(None, [ProgressCb("obj", 10000000, 3000000, 3000000), AuthOk,
                                   ProgressCb("obj", 10000000, 10000000, 7000000)], 3);
    assert AfterSend(Upload, t, Callbacks(true, true), replies, None) == (None, r0.events + [Verify("abc")]);
    assert r0.events + [Verify("abc")] == [ProgressCb("obj", 10000000, 3000000, 3000000), AuthOk,
                                           ProgressCb("obj", 10000000, 10000000, 7000000), Verify("abc")];
  }

  // ----- The type assertions as written at custom.go:257 and 267 -----

  /** The Go types that matter to the reply slots of DoTransfer. */
  datatype GoType = ProgressPointer | TransferPointer | ProgressValue | TransferValue

  /** The dynamic types the candidate slots hold, as built at custom.go:246. */
  const ReplySlots: seq<GoType> := [ProgressPointer, TransferPointer]

  /**
   * A type assertion without the comma-ok form succeeds only when the slot
   * holds exactly the asserted type; otherwise Go panics.
   */
  predicate AssertionSucceeds(slot: nat, asserted: GoType)
  {
    slot < |ReplySlots| && ReplySlots[slot] == asserted
  }

  /** The slot and type each branch asserts, as written: slot 0 and a value type in both branches. */
  function AssertionAsWritten(respIdx: nat): (a: (nat, GoType))
    ensures a.0 == 0
  {
    if respIdx == 0 then (0, ProgressValue) else (0, TransferValue)
  }

  /** As written, the branch for either candidate panics instead of reading the decoded reply. */
  lemma EveryBranchPanicsAsWritten(respIdx: nat)
    requires respIdx < |ReplySlots|
    ensures !AssertionSucceeds(AssertionAsWritten(respIdx).0, AssertionAsWritten(respIdx).1)
  {
  }

  /** The evidently intended assertion: the slot that was decoded, at the pointer type stored there. */
  function AssertionCorrected(respIdx: nat): (a: (nat, GoType))
    requires respIdx < |ReplySlots|
    ensures a.0 == respIdx
  {
    (respIdx, ReplySlots[respIdx])
  }

  /** How the loop as written ends: a panic, or a result as RunLoop gives it. */
  datatype AsWrittenResult = Panicked | Finished(result: LoopResult)

  /**
   * DoTransfer's loop as written: a reply that cannot be read or decoded
   * returns its error, while a decoded reply goes through the branch's type
   * assertion, which must succeed for the loop to go on.
   */
  function RunLoopAsWritten(t: Transfer, cbs: Callbacks, replies: seq<Reply>): (r: AsWrittenResult)
    ensures r.Finished? ==> r.result == RunLoop(t, cbs, replies, false)
  {
    if replies == [] || replies[0].ReadFailure? || replies[0].Unmatched? then Finished(RunLoop(t, cbs, replies, false))
    else
      var a := AssertionAsWritten(if replies[0].Progress? then 0 else 1);
      if AssertionSucceeds(a.0, a.1) then Finished(RunLoop(t, cbs, replies, false)) else Panicked
  }

  /**
   * As written, the loop panics exactly when the first reply was decoded,
   * so it never completes a transfer, which the corrected loop does
   * (CompletionAfterProgressSucceeds).
   */
  lemma AsWrittenNeverSucceeds(t: Transfer, cbs: Callbacks, replies: seq<Reply>)
    ensures RunLoopAsWritten(t, cbs, replies).Panicked?
        <==> replies != [] && (replies[0].Progress? || replies[0].Complete?)
    ensures RunLoopAsWritten(t, cbs, replies).Finished? ==> RunLoopAsWritten(t, cbs, replies).result.err.Some?
  {
  }

  /** Corrected, each branch reads the reply that readResponse decoded; RunLoop models this behaviour. */
  lemma CorrectedBranchReadsDecodedReply(respIdx: nat)
    requires respIdx < |ReplySlots|
    ensures AssertionSucceeds(AssertionCorrected(respIdx).0, AssertionCorrected(respIdx).1)
    ensures AssertionCorrected(respIdx).1 == (if respIdx == 0 then ProgressPointer else TransferPointer)
  {
  }
}
