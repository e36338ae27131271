/** Requests, responses and bodies as far as the handler looks at them. */
module Http {
  import opened Wrappers
  import opened Configs

  newtype u8 = x: int | 0 <= x < 256

  type Bytes = string  // one char per octet

  type Headers = map<string, seq<string>>

  /** What the next poll of a body can bring; Stalled is the deadline passing first. */
  datatype Frame = Data(bytes: Bytes) | Trailers(fields: Headers) | Broken(error: string) | Stalled

  /** A one-shot stream of frames with the exact size it announces, if any */
  datatype Body = Body(exact: Option<nat>, frames: seq<Frame>)

  datatype Version = Http10 | Http11 | Http2

  datatype Request = Request(uri: Uri, version: Version, headers: Headers, body: Body)

  datatype ErrorCause =
    | BackendRequestError(detail: string)
    | BackendBodyError(detail: string)
    | BackendTimeout
    | NoAuthority
    | ServiceNotReady
    | NoHealthyBackends
    | RequestBodyBufferTimeout

  /** `retries` and `cause` are the two extensions the handler attaches. */
  datatype Response = Response(
    status: nat,
    headers: Headers,
    body: Body,
    retries: Option<u8>,
    cause: Option<ErrorCause>)

  const X_FORWARDED_HOST := "x-forwarded-host"

  const CONNECTION := "connection"

  /** The fields section 7.6.1 of RFC 9110 wants removed whether the connection field names them or not */
  const HOP_BY_HOP := {CONNECTION, "proxy-connection", "keep-alive", "te", "transfer-encoding", "upgrade"}

  function Lower(c: char): char {
    if 'A' <= c <= 'Z' then c - 'A' + 'a' else c
  }

  /** The comma-separated options of a field value, without white space and in lower case */
  function OptionsOf(value: string, option: string := ""): set<string> {
    if value == "" then {option}
    else if value[0] == ',' then {option} + OptionsOf(value[1..], "")
    else if value[0] == ' ' || value[0] == '\t' then OptionsOf(value[1..], option)
    else OptionsOf(value[1..], option + [Lower(value[0])])
  }

  /** A list is split at its commas. */
  lemma {:induction false} OptionsOfList(a: string, b: string, option: string)
    ensures OptionsOf(a + "," + b, option) == OptionsOf(a, option) + OptionsOf(b)
  {
    if a == "" {
      assert ("" + "," + b)[1..] == b;
    } else {
      assert (a + "," + b)[1..] == a[1..] + "," + b;
      OptionsOfList(a[1..], b, if a[0] == ',' then "" else if a[0] == ' ' || a[0] == '\t' then option
                               else option + [Lower(a[0])]);
    }
  }

  function LowerAll(s: string): string {
    seq(|s|, i requires 0 <= i < |s| => Lower(s[i]))
  }

  /** What has no comma and no white space is one option, whatever its case. */
  lemma {:induction false} OptionsOfToken(token: string, option: string)
    requires ',' !in token && ' ' !in token && '\t' !in token
    ensures OptionsOf(token, option) == {option + LowerAll(token)}
  {
    if token == "" {
      assert option + LowerAll("") == option;
    } else {
      OptionsOfToken(token[1..], option + [Lower(token[0])]);
      assert option + [Lower(token[0])] + LowerAll(token[1..]) == option + LowerAll(token);
    }
  }

  /** The connection field of these headers names that field. */
  predicate NamedByConnection(h: Headers, name: string) {
    CONNECTION in h && exists i :: 0 <= i < |h[CONNECTION]| && name in OptionsOf(h[CONNECTION][i])
  }

  /** A body that is already in memory */
  function Full(bytes: Bytes): Body {
    Body(Some(|bytes|), if bytes == [] then [] else [Data(bytes)])
  }

  /** The data of a stream of frames, in order */
  function DataOf(frames: seq<Frame>): Bytes {
    if frames == [] then []
    else (if frames[0].Data? then frames[0].bytes else []) + DataOf(frames[1..])
  }

  lemma {:induction false} DataOfConcat(front: seq<Frame>, back: seq<Frame>)
    ensures DataOf(front + back) == DataOf(front) + DataOf(back)
  {
    if front == [] {
      assert front + back == back;
    } else {
      assert (front + back)[1..] == front[1..] + back;
      DataOfConcat(front[1..], back);
    }
  }

  /** The reader sees the whole stream: no error, no stall. */
  predicate Intact(frames: seq<Frame>) {
    forall i :: 0 <= i < |frames| ==> !frames[i].Broken? && !frames[i].Stalled?
  }

  // ----- errors

  function StatusOf(cause: ErrorCause): nat {
    match cause
    case BackendRequestError(_) => 502
    case BackendBodyError(_) => 502
    case BackendTimeout => 504
    case NoAuthority => 400
    case ServiceNotReady => 503
    case NoHealthyBackends => 503
    case RequestBodyBufferTimeout => 408
  }

  function TextOf(cause: ErrorCause): string {
    match cause
    case BackendRequestError(e) => "Backend request error: " + e
    case BackendBodyError(e) => "Backend body error: " + e
    case BackendTimeout => "Backend timeout"
    case NoAuthority => "No authority"
    case ServiceNotReady => "Service not ready"
    case NoHealthyBackends => "No healthy backends available"
    case RequestBodyBufferTimeout => "Timed out buffering the request body"
  }

  /** An error cause as a response; the cause travels with it for the metrics. */
  function ErrorResponse(cause: ErrorCause): Response {
    Response(StatusOf(cause), map["content-type" := ["text/plain; charset=utf-8"]],
             Full(TextOf(cause)), None, Some(cause))
  }
}
