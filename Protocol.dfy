/**
 * The line-oriented message protocol spoken with a custom transfer process
 * (transfer/custom.go): the request records, the errors the adapter reports,
 * the framing of one message per line, the buffered line reader, and the
 * first-match choice among candidate response decoders.
 */
module Protocol {
  import opened Wrappers

  /** The two directions an adapter serves. */
  datatype Direction = Upload | Download

  /** A resolved resource action (link relation); its contents are passed through opaquely. */
  datatype Action = Action(href: string)

  /** The requests the adapter writes to the process, one per line. */
  datatype Request =
    | InitRequest(operation: string, concurrent: bool, concurrentTransfers: int)
    | UploadRequest(oid: string, size: int, path: string, action: Action)
    | DownloadRequest(oid: string, size: int, action: Action)
    | TerminateRequest(complete: bool)

  /** The errors the adapter returns, one constructor per error site. */
  datatype Error =
    | StdoutPipeFailed                          // custom.go:101-103
    | StdinPipeFailed                           // custom.go:105-107
    | StartFailed                               // custom.go:109-111
    | MarshalFailed                             // custom.go:137-139
    | WriteFailed                               // custom.go:143-145
    | ReadFailed                                // custom.go:154-156
    | NoMatchingResponse(line: string)          // custom.go:162
    | NotInitialized                            // custom.go:216-218
    | WrongContextType                          // custom.go:220-223
    | ObjectNotFound                            // custom.go:228-237
    | OidMismatch(got: string, expected: string)   // custom.go:258-260, 268-270
    | TransferFailed(oid: string, message: string) // custom.go:271-273
    | VerifyFailed(message: string)             // api.VerifyUpload, custom.go:286
    | WaitFailed                                // cmd.Wait, custom.go:192

  datatype Result<T> = Ok(value: T) | Err(error: Error)

  /** A response decoder, reduced to whether it accepts a line (json.Unmarshal returns nil). */
  type Decoder = string -> bool

  /** sendMessage's framing: the encoded record followed by a single newline (custom.go:141). */
  function Frame(payload: string): (line: string)
    ensures |line| == |payload| + 1 && line[..|payload|] == payload && line[|payload|] == '\n'
  {
    payload + ['\n']
  }

  /**
   * What bufio.Reader.ReadString('\n') returns and what it leaves unread:
   * everything up to and including the first newline; when there is no
   * newline, everything that is left (and the read reports an error).
   */
  function SplitLine(s: string): (r: (string, string))
    ensures r.0 + r.1 == s
    ensures '\n' in s ==> |r.0| > 0 && r.0[|r.0| - 1] == '\n' && '\n' !in r.0[..|r.0| - 1]
    ensures '\n' !in s ==> r.0 == s && r.1 == []
  {
    if s == [] then ([], [])
    else if s[0] == '\n' then ([s[0]], s[1..])
    else
      var t := SplitLine(s[1..]);
      assert '\n' in s ==> '\n' in s[1..];
      assert '\n' in s ==> ([s[0]] + t.0)[..|t.0|] == [s[0]] + t.0[..|t.0| - 1];
      ([s[0]] + t.0, t.1)
  }

  /**
   * Send-then-receive on a loopback: a framed message whose encoding holds no
   * newline of its own comes back as exactly one line, with whatever follows
   * it left unread.
   */
  lemma {:induction false} FramedLineReadsBack(payload: string, rest: string)
    requires '\n' !in payload
    ensures SplitLine(Frame(payload) + rest) == (Frame(payload), rest)
  {
    if payload == [] {
      assert Frame(payload) + rest == ['\n'] + rest;
    } else {
      var s := Frame(payload) + rest;
      assert s[0] == payload[0] && s[0] != '\n';
      assert s[1..] == Frame(payload[1..]) + rest;
      FramedLineReadsBack(payload[1..], rest);
      assert [s[0]] + Frame(payload[1..]) == Frame(payload);
    }
  }

  /**
   * readResponse's choice among candidate decoders (custom.go:157-161): the
   * smallest index whose decoder accepts the line, or none.
   */
  function FirstMatch(line: string, candidates: seq<Decoder>): (r: Option<nat>)
    ensures r.Some? ==> r.value < |candidates| && candidates[r.value](line)
    ensures r.Some? ==> forall j :: 0 <= j < r.value ==> !candidates[j](line)
    ensures r.None? <==> forall j :: 0 <= j < |candidates| ==> !candidates[j](line)
  {
    if candidates == [] then None
    else if candidates[0](line) then Some(0)
    else
      match FirstMatch(line, candidates[1..])
      case None => None
      case Some(i) => Some(i + 1)
  }

  /** The loop of readResponse over the candidates, trying each in order. */
  method SelectCandidate(line: string, candidates: seq<Decoder>) returns (r: Option<nat>)
    ensures r == FirstMatch(line, candidates)
  {
    var i := 0;
    while i < |candidates|
      invariant 0 <= i <= |candidates|
      invariant forall j :: 0 <= j < i ==> !candidates[j](line)
    {
      if candidates[i](line) {
        return Some(i);
      }
      i := i + 1;
    }
    return None;
  }

  /**
   * First-match is order-dependent: a candidate listed after one that accepts
   * every line it accepts is never chosen. In custom.go:246 the progress
   * decoder comes first; unknown fields are ignored, so it accepts every
   * object whose oid, when present, is a string and whose byte counts, when
   * present, are in-range integers. A well-formed completion line is such an
   * object, so it is read as progress.
   */
  lemma ShadowedCandidateNeverChosen(line: string, candidates: seq<Decoder>, i: nat, j: nat)
    requires i < j < |candidates|
    requires forall l: string :: candidates[j](l) ==> candidates[i](l)
    ensures FirstMatch(line, candidates) != Some(j)
  {
  }
}
