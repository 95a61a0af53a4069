/** The relay of one gRPC stream: two pumps that copy messages, and the select loop
    over their error channels. */
module Proxy {
  import opened Basics
  import opened Runs

  /** The message variable of a pump is empty before its first receive. */
  datatype Message = Empty | Frame(bytes: string)

  datatype Err = Eof | Other(text: string)

  /** Which stream call of a pump ended it. */
  datatype Source = FromRecv | FromHeader | FromSend

  datatype Report = Report(err: Err, source: Source)

  /** A channel with room for one report. */
  datatype Chan = Chan(buffer: seq<Report>, closed: bool)

  datatype Request =
    | Receiving | Sending
    | Reporting(r: Report)
    | Reported(r: Report)      // about to close the channel
    | Ended(r: Report)

  datatype Response =
    | AwaitFirst | AwaitHeader | SendHeader | SendFirst
    | Receiving | Sending
    | Reporting(r: Report)
    | Reported(r: Report)
    | Ended(r: Report)

  datatype Result = Ok | Failed(err: Err) | RequestFailed(err: Err) | CloseSendFailed

  datatype Loop = Selecting | ClosingSend | Finished(result: Result)

  /** The calls made on the stream to the worker, and on the stream to the client. */
  datatype DownCall = SendMsg(m: Message) | CloseSend
  datatype UpCall = Header | Msg(m: Message)

  /** Each pump reuses one message variable, `reqBuf` and `respBuf`; `upOpen` and
      `downOpen` say that the loop's channel variables are not nil. */
  datatype State = State(
    upIn: seq<Message>, downLog: seq<DownCall>, req: Request, reqBuf: Message,
    downIn: seq<Message>, upLog: seq<UpCall>, resp: Response, respBuf: Message,
    upErr: Chan, downErr: Chan,
    loop: Loop, upOpen: bool, downOpen: bool, receives: nat, trailers: nat)

  datatype Event =
    | ReqRecv(m: Message) | ReqRecvFails(e: Err) | ReqSend | ReqSendFails(e: Err)
    | ReqReport | ReqClose
    | RespRecv(m: Message) | RespRecvFails(e: Err) | RespHeader | RespHeaderFails(e: Err)
    | RespSend | RespSendFails(e: Err) | RespReport | RespClose
    | SelectUp | SelectDown | HalfClose(ok: bool)

  function Init(): State {
    State([], [], Request.Receiving, Empty, [], [], AwaitFirst, Empty,
          Chan([], false), Chan([], false), Selecting, true, true, 0, 0)
  }

  predicate Ready(c: Chan) { c.buffer != [] || c.closed }

  predicate Enabled(s: State, e: Event) {
    match e
    case ReqRecv(_) => s.req == Request.Receiving
    case ReqRecvFails(_) => s.req == Request.Receiving
    case ReqSend => s.req == Request.Sending
    case ReqSendFails(_) => s.req == Request.Sending
    case ReqReport => s.req.Reporting? && s.upErr == Chan([], false)
    case ReqClose => s.req.Reported?
    case RespRecv(_) => s.resp == AwaitFirst || s.resp == Response.Receiving
    case RespRecvFails(_) => s.resp == AwaitFirst || s.resp == Response.Receiving
    case RespHeader => s.resp == AwaitHeader || s.resp == SendHeader
    case RespHeaderFails(_) => s.resp == AwaitHeader || s.resp == SendHeader
    case RespSend => s.resp == SendFirst || s.resp == Response.Sending
    case RespSendFails(_) => s.resp == SendFirst || s.resp == Response.Sending
    case RespReport => s.resp.Reporting? && s.downErr == Chan([], false)
    case RespClose => s.resp.Reported?
    case SelectUp => s.loop == Selecting && s.upOpen && Ready(s.upErr)
    case SelectDown => s.loop == Selecting && s.downOpen && Ready(s.downErr)
    case HalfClose(_) => s.loop == ClosingSend
  }

  function Apply(s: State, e: Event): State
    requires Enabled(s, e)
  {
    match e
    case ReqRecv(m) => s.(upIn := s.upIn + [m], reqBuf := m, req := Request.Sending)
    case ReqRecvFails(err) => s.(req := Request.Reporting(Report(err, FromRecv)))
    case ReqSend => s.(downLog := s.downLog + [SendMsg(s.reqBuf)], req := Request.Receiving)
    case ReqSendFails(err) => s.(req := Request.Reporting(Report(err, FromSend)))
    case ReqReport => s.(upErr := Chan([s.req.r], false), req := Request.Reported(s.req.r))
    case ReqClose => s.(upErr := s.upErr.(closed := true), req := Request.Ended(s.req.r))
    case RespRecv(m) =>
      s.(downIn := s.downIn + [m], respBuf := m,
         resp := if s.resp == AwaitFirst then AwaitHeader else Response.Sending)
    case RespRecvFails(err) => s.(resp := Response.Reporting(Report(err, FromRecv)))
    case RespHeader =>
      if s.resp == AwaitHeader then s.(resp := SendHeader)
      else s.(upLog := s.upLog + [Header], resp := SendFirst)
    case RespHeaderFails(err) => s.(resp := Response.Reporting(Report(err, FromHeader)))
    case RespSend => s.(upLog := s.upLog + [Msg(s.respBuf)], resp := Response.Receiving)
    case RespSendFails(err) => s.(resp := Response.Reporting(Report(err, FromSend)))
    case RespReport => s.(downErr := Chan([s.resp.r], false), resp := Response.Reported(s.resp.r))
    case RespClose => s.(downErr := s.downErr.(closed := true), resp := Response.Ended(s.resp.r))
    case SelectUp =>
      var t := s.(receives := s.receives + 1);
      if s.upErr.buffer == [] then t.(upOpen := false)
      else
        var err := s.upErr.buffer[0].err;
        t.(upErr := s.upErr.(buffer := []),
           loop := if err == Eof then ClosingSend else Finished(RequestFailed(err)))
    case SelectDown =>
      var t := s.(receives := s.receives + 1);
      if s.downErr.buffer == [] then t.(downOpen := false)
      else
        var err := s.downErr.buffer[0].err;
        t.(downErr := s.downErr.(buffer := []), trailers := s.trailers + 1,
           loop := Finished(if err == Eof then Ok else Failed(err)))
    case HalfClose(ok) =>
      s.(downLog := s.downLog + [CloseSend], loop := if ok then Selecting else Finished(CloseSendFailed))
  }

  function Next(s: State, e: Event): Option<State> {
    if Enabled(s, e) then Some(Apply(s, e)) else None
  }

  // ------------------------------------------------------------------- invariant

  /** The worker was sent the first `n` client messages, in order, then at most one
      half-close and nothing after it. */
  ghost predicate SentDown(log: seq<DownCall>, ms: seq<Message>, n: int, half: bool) {
    && 0 <= n <= |ms| && |log| == n + One(half)
    && (half ==> log[n] == CloseSend)
    && (forall i :: 0 <= i < n ==> log[i] == SendMsg(ms[i]))
  }

  /** The client was sent the header at most once, then the first `n` responses in
      order; no response comes without the header. */
  ghost predicate SentUp(log: seq<UpCall>, ms: seq<Message>, n: int, header: bool) {
    && 0 <= n <= |ms| && |log| == n + One(header) && (n > 0 ==> header)
    && (header ==> log[0] == Header)
    && (forall i :: 0 <= i < n ==> log[i + 1] == Msg(ms[i]))
  }

  predicate ReqOver(p: Request) { p.Reported? || p.Ended? }

  predicate RespOver(p: Response) { p.Reported? || p.Ended? }

  /** A message was received and not forwarded. */
  predicate ReqPending(p: Request) {
    p.Sending? || ((p.Reporting? || ReqOver(p)) && p.r.source == FromSend)
  }

  predicate RespPending(p: Response) {
    p.AwaitHeader? || p.SendHeader? || p.SendFirst? || p.Sending? ||
    ((p.Reporting? || RespOver(p)) && p.r.source != FromRecv)
  }

  predicate HeaderPending(p: Response) {
    p.AwaitFirst? || p.AwaitHeader? || p.SendHeader? ||
    ((p.Reporting? || RespOver(p)) && p.r.source == FromHeader)
  }

  ghost predicate ReqInv(s: State) {
    && (ReqPending(s.req) ==> s.upIn != [])
    && SentDown(s.downLog, s.upIn, |s.upIn| - One(ReqPending(s.req)), HalfClosed(s))
    && (s.req.Sending? ==> s.reqBuf == s.upIn[|s.upIn| - 1])
    && (!ReqOver(s.req) ==> s.upErr == Chan([], false))
    && (ReqOver(s.req) ==>
          (s.upErr.buffer == [] || s.upErr.buffer == [s.req.r]) && s.upErr.closed == s.req.Ended?)
  }

  ghost predicate RespInv(s: State) {
    && (RespPending(s.resp) ==> s.downIn != [])
    && (s.resp.AwaitFirst? ==> s.downIn == [])
    && (s.resp.Receiving? ==> s.downIn != [])
    && SentUp(s.upLog, s.downIn, |s.downIn| - One(RespPending(s.resp)), s.downIn != [] && !HeaderPending(s.resp))
    && (HeaderPending(s.resp) ==> |s.downIn| <= 1)
    && (s.resp.SendFirst? || s.resp.Sending? || s.resp.AwaitHeader? || s.resp.SendHeader? ==>
          s.respBuf == s.downIn[|s.downIn| - 1])
    && (!RespOver(s.resp) ==> s.downErr == Chan([], false))
    && (RespOver(s.resp) ==>
          (s.downErr.buffer == [] || s.downErr.buffer == [s.resp.r]) && s.downErr.closed == s.resp.Ended?)
  }

  /** The loop has received the report of the request pump. */
  predicate UpTaken(s: State) { ReqOver(s.req) && s.upErr.buffer == [] }

  predicate DownTaken(s: State) { RespOver(s.resp) && s.downErr.buffer == [] }

  predicate HalfClosed(s: State) {
    UpTaken(s) && s.req.r.err == Eof && s.loop != ClosingSend
  }

  ghost predicate LoopInv(s: State) {
    && s.downOpen
    && (!s.upOpen ==> UpTaken(s) && s.req.Ended?)
    && s.receives == One(UpTaken(s)) + One(!s.upOpen) + One(DownTaken(s))
    && s.trailers == One(DownTaken(s))
    && (UpTaken(s) && s.req.r.err != Eof ==> s.loop == Finished(RequestFailed(s.req.r.err)))
    && (DownTaken(s) ==> s.loop == Finished(if s.resp.r.err == Eof then Ok else Failed(s.resp.r.err)))
    && (s.loop == ClosingSend ==> UpTaken(s) && s.req.r.err == Eof)
    && (s.loop.Finished? ==>
          match s.loop.result
          case Ok => DownTaken(s)
          case Failed(_) => DownTaken(s)
          case RequestFailed(_) => UpTaken(s) && s.req.r.err != Eof
          case CloseSendFailed => UpTaken(s) && s.req.r.err == Eof)
  }

  ghost predicate Inv(s: State) { ReqInv(s) && RespInv(s) && LoopInv(s) }

  lemma RequestCopyKeepsInv(s: State, e: Event)
    requires Inv(s) && Enabled(s, e) && (e.ReqRecv? || e.ReqSend?)
    ensures Inv(Apply(s, e))
  {
  }

  lemma RequestEndKeepsInv(s: State, e: Event)
    requires Inv(s) && Enabled(s, e) && (e.ReqRecvFails? || e.ReqSendFails?)
    ensures Inv(Apply(s, e))
  {
  }

  lemma RequestReportKeepsInv(s: State, e: Event)
    requires Inv(s) && Enabled(s, e) && (e.ReqReport? || e.ReqClose?)
    ensures Inv(Apply(s, e))
  {
  }

  lemma RespRecvKeepsInv(s: State, e: Event)
    requires Inv(s) && Enabled(s, e) && (e.RespRecv? || e.RespRecvFails?)
    ensures Inv(Apply(s, e))
  {
  }

  lemma RespHeaderKeepsInv(s: State, e: Event)
    requires Inv(s) && Enabled(s, e) && e.RespHeader?
    ensures Inv(Apply(s, e))
  {
  }

  lemma RespHeaderFailsKeepsInv(s: State, e: Event)
    requires Inv(s) && Enabled(s, e) && e.RespHeaderFails?
    ensures Inv(Apply(s, e))
  {
  }

  lemma RespSendKeepsInv(s: State, e: Event)
    requires Inv(s) && Enabled(s, e) && (e.RespSend? || e.RespSendFails?)
    ensures Inv(Apply(s, e))
  {
  }

  lemma RespReportKeepsInv(s: State, e: Event)
    requires Inv(s) && Enabled(s, e) && (e.RespReport? || e.RespClose?)
    ensures Inv(Apply(s, e))
  {
  }

  lemma SelectUpKeepsInv(s: State, e: Event)
    requires Inv(s) && Enabled(s, e) && e.SelectUp?
    ensures Inv(Apply(s, e))
  {
  }

  lemma SelectDownKeepsInv(s: State, e: Event)
    requires Inv(s) && Enabled(s, e) && e.SelectDown?
    ensures Inv(Apply(s, e))
  {
  }

  lemma HalfCloseKeepsInv(s: State, e: Event)
    requires Inv(s) && Enabled(s, e) && e.HalfClose?
    ensures Inv(Apply(s, e))
  {
  }

  lemma StepKeepsInv(s: State, e: Event)
    requires Inv(s) && Enabled(s, e)
    ensures Inv(Apply(s, e))
  {
    if e.ReqRecv? || e.ReqSend? {
      RequestCopyKeepsInv(s, e);
    } else if e.ReqRecvFails? || e.ReqSendFails? {
      RequestEndKeepsInv(s, e);
    } else if e.ReqReport? || e.ReqClose? {
      RequestReportKeepsInv(s, e);
    } else if e.HalfClose? {
      HalfCloseKeepsInv(s, e);
    } else if e.SelectUp? {
      SelectUpKeepsInv(s, e);
    } else if e.SelectDown? {
      SelectDownKeepsInv(s, e);
    } else if e.RespRecv? || e.RespRecvFails? {
      RespRecvKeepsInv(s, e);
    } else if e.RespHeader? {
      RespHeaderKeepsInv(s, e);
    } else if e.RespHeaderFails? {
      RespHeaderFailsKeepsInv(s, e);
    } else if e.RespSend? || e.RespSendFails? {
      RespSendKeepsInv(s, e);
    } else {
      RespReportKeepsInv(s, e);
    }
  }

  lemma RunKeepsInv(s: State, es: seq<Event>, t: State)
    requires Inv(s) && Reaches(Next, s, es, t)
    ensures Inv(t)
  {
    forall u, e | Inv(u) && Next(u, e).Some? ensures Inv(Next(u, e).value) {
      StepKeepsInv(u, e);
    }
    Invariant(Next, Inv, s, es, t);
  }

  // -------------------------------------------------------------------- theorems

  /** In every interleaving the messages sent each way are an in-order prefix of the
      messages received and lag by at most one; the header comes once and first, and
      nothing follows the half-close. */
  lemma EveryRunKeepsOrder(es: seq<Event>, s: State)
    requires Reaches(Next, Init(), es, s)
    ensures exists n, half :: SentDown(s.downLog, s.upIn, n, half) && |s.upIn| <= n + 1
    ensures exists n, header :: SentUp(s.upLog, s.downIn, n, header) && |s.downIn| <= n + 1
    ensures CloseSend in s.downLog ==> !Enabled(s, ReqSend)
  {
    RunKeepsInv(Init(), es, s);
    var n := |s.upIn| - One(ReqPending(s.req));
    assert SentDown(s.downLog, s.upIn, n, HalfClosed(s));
    var m := |s.downIn| - One(RespPending(s.resp));
    assert SentUp(s.upLog, s.downIn, m, s.downIn != [] && !HeaderPending(s.resp));
  }

  /** The handler returns OK exactly when the response pump reported EOF; then every
      response received has reached the client if and only if the EOF came from
      receiving, and otherwise exactly the last one is lost. */
  lemma OkMeansDelivered(es: seq<Event>, s: State)
    requires Reaches(Next, Init(), es, s) && s.loop == Finished(Ok)
    ensures RespOver(s.resp) && s.resp.r.err == Eof
    ensures SentUp(s.upLog, s.downIn, |s.downIn|, s.downIn != []) <==> s.resp.r.source == FromRecv
    ensures s.resp.r.source != FromRecv ==>
              s.downIn != [] && SentUp(s.upLog, s.downIn, |s.downIn| - 1, s.resp.r.source == FromSend)
  {
    RunKeepsInv(Init(), es, s);
  }

  /** The loop half-closes the stream to the worker only after an EOF of the request pump;
      then every client message was forwarded if and only if the EOF came from receiving,
      and otherwise exactly the last one is lost. */
  lemma HalfCloseMeansForwardedIff(es: seq<Event>, s: State)
    requires Reaches(Next, Init(), es, s) && CloseSend in s.downLog
    ensures ReqOver(s.req) && s.req.r.err == Eof
    ensures SentDown(s.downLog, s.upIn, |s.upIn|, true) <==> s.req.r.source != FromSend
    ensures s.req.r.source == FromSend ==> s.upIn != [] && SentDown(s.downLog, s.upIn, |s.upIn| - 1, true)
  {
    RunKeepsInv(Init(), es, s);
    var i :| 0 <= i < |s.downLog| && s.downLog[i] == CloseSend;
    assert HalfClosed(s);
  }

  lemma SendToWorkerEnds(m: Message) returns (es: seq<Event>, t: State)
    ensures Reaches(Next, Init(), es, t) && t.loop == Selecting && t.upOpen
    ensures t.upIn == [m] && t.downLog == [] && t.upErr == Chan([Report(Eof, FromSend)], false)
  {
    var s0 := Init();
    var s1 := Apply(s0, ReqRecv(m));
    var s2 := Apply(s1, ReqSendFails(Eof));
    t := Apply(s2, ReqReport);
    es := [] + [ReqRecv(m)] + [ReqSendFails(Eof)] + [ReqReport];
    Extend(Next, s0, [], s0, ReqRecv(m));
    Extend(Next, s0, [] + [ReqRecv(m)], s1, ReqSendFails(Eof));
    Extend(Next, s0, [] + [ReqRecv(m)] + [ReqSendFails(Eof)], s2, ReqReport);
  }

  /** A send to the worker that ends with EOF: the stream is half-closed and the client's
      message is lost. */
  lemma HalfCloseLosesRequest(m: Message)
    ensures exists es, s :: Reaches(Next, Init(), es, s) && s.loop == Selecting &&
                            s.upIn == [m] && s.downLog == [CloseSend]
  {
    var es, s := SendToWorkerEnds(m);
    var t := Apply(s, SelectUp);
    Extend(Next, Init(), es, s, SelectUp);
    Extend(Next, Init(), es + [SelectUp], t, HalfClose(true));
    assert Apply(t, HalfClose(true)).downLog == [CloseSend];
  }

  /** In the response direction EOF comes from `RecvMsg` only. */
  function AssumedNext(s: State, e: Event): Option<State> {
    if Enabled(s, e) && e != RespHeaderFails(Eof) && e != RespSendFails(Eof) then Some(Apply(s, e)) else None
  }

  predicate EofIsReceived(s: State) {
    (s.resp.Reporting? || RespOver(s.resp)) && s.resp.r.err == Eof ==> s.resp.r.source == FromRecv
  }

  lemma EofStaysReceived(s: State, e: Event)
    requires EofIsReceived(s) && AssumedNext(s, e).Some?
    ensures EofIsReceived(Apply(s, e))
  {
  }

  /** Under that assumption an OK result means that the client has the header, if there
      was a response, and every response that was received. */
  lemma OkMeansAllDelivered(es: seq<Event>, s: State)
    requires Reaches(AssumedNext, Init(), es, s) && s.loop == Finished(Ok)
    ensures SentUp(s.upLog, s.downIn, |s.downIn|, s.downIn != [])
  {
    forall u, e | EofIsReceived(u) && AssumedNext(u, e).Some? ensures EofIsReceived(AssumedNext(u, e).value) {
      EofStaysReceived(u, e);
    }
    Invariant(AssumedNext, EofIsReceived, Init(), es, s);
    forall u, e | AssumedNext(u, e).Some? ensures Next(u, e) == AssumedNext(u, e) {
    }
    Weaken(AssumedNext, Next, Init(), es, s);
    OkMeansDelivered(es, s);
  }

  /** The five steps of the response pump of which the fourth, a send, fails with EOF. */
  lemma SendEndsWithEof(m: Message) returns (es: seq<Event>, t: State)
    ensures Reaches(Next, Init(), es, t)
    ensures t.loop == Selecting && t.downOpen && t.upLog == [Header] && t.downIn == [m]
    ensures t.downErr == Chan([Report(Eof, FromSend)], false)
  {
    var s0 := Init();
    var s1 := Apply(s0, RespRecv(m));
    var s2 := Apply(s1, RespHeader);
    var s3 := Apply(s2, RespHeader);
    var s4 := Apply(s3, RespSendFails(Eof));
    t := Apply(s4, RespReport);
    es := [] + [RespRecv(m)] + [RespHeader] + [RespHeader] + [RespSendFails(Eof)] + [RespReport];
    Extend(Next, s0, [], s0, RespRecv(m));
    Extend(Next, s0, [] + [RespRecv(m)], s1, RespHeader);
    Extend(Next, s0, [] + [RespRecv(m)] + [RespHeader], s2, RespHeader);
    Extend(Next, s0, [] + [RespRecv(m)] + [RespHeader] + [RespHeader], s3, RespSendFails(Eof));
    Extend(Next, s0, [] + [RespRecv(m)] + [RespHeader] + [RespHeader] + [RespSendFails(Eof)], s4, RespReport);
  }

  /** Without it an OK result can lose a response. */
  lemma OkLosesResponse(m: Message)
    ensures exists es, s :: Reaches(Next, Init(), es, s) && s.loop == Finished(Ok) &&
                            s.downIn == [m] && s.upLog == [Header]
  {
    var es, t := SendEndsWithEof(m);
    Extend(Next, Init(), es, t, SelectDown);
    assert Apply(t, SelectDown).loop == Finished(Ok);
  }

  /** The loop makes at most three receives, its downstream channel variable is never
      nil, the trailer is set once exactly when it ends on the downstream channel,
      and neither pump ever blocks on its error channel. */
  lemma LoopIsBounded(es: seq<Event>, s: State)
    requires Reaches(Next, Init(), es, s)
    ensures s.receives <= 3 && s.downOpen
    ensures s.trailers == One(s.loop.Finished? && (s.loop.result.Ok? || s.loop.result.Failed?))
    ensures s.req.Reporting? ==> Enabled(s, ReqReport)
    ensures s.resp.Reporting? ==> Enabled(s, RespReport)
    ensures s.loop == Selecting && RespOver(s.resp) ==> Enabled(s, SelectDown)
    ensures s.receives == 3 ==> s.loop.Finished? && !s.upOpen
  {
    RunKeepsInv(Init(), es, s);
  }

  // ------------------------------------------------------------ after the handler

  /** The response pump makes no more calls on the client stream. */
  predicate PumpIsDone(s: State) { RespOver(s.resp) || s.resp.Reporting? }

  lemma DoneStep(s: State, e: Event)
    requires Inv(s) && s.loop.Finished? && PumpIsDone(s) && Enabled(s, e)
    ensures var t := Apply(s, e);
            PumpIsDone(t) && t.loop == s.loop && t.trailers == s.trailers && t.upLog == s.upLog && t.downIn == s.downIn
  {
  }

  lemma DoneIsFinal(s: State, es: seq<Event>, t: State)
    requires Inv(s) && s.loop.Finished? && PumpIsDone(s) && Reaches(Next, s, es, t)
    ensures t.loop == s.loop && t.trailers == s.trailers && t.upLog == s.upLog && t.downIn == s.downIn
  {
    var inv := (u: State) => Inv(u) && PumpIsDone(u) && u.loop == s.loop && u.trailers == s.trailers &&
                             u.upLog == s.upLog && u.downIn == s.downIn;
    forall u, e | inv(u) && Next(u, e).Some? ensures inv(Next(u, e).value) {
      StepKeepsInv(u, e);
      DoneStep(u, e);
    }
    Invariant(Next, inv, s, es, t);
  }

  function PumpRank(p: Response): nat {
    match p
    case AwaitFirst => 3
    case AwaitHeader => 2
    case Receiving => 2
    case _ => 1
  }

  function PumpStep(p: Response): Event {
    match p
    case AwaitFirst => RespRecv(Empty)
    case Receiving => RespRecv(Empty)
    case AwaitHeader => RespHeader
    case SendHeader => RespHeader
    case _ => RespSend
  }

  /** A pump that is not done can still make a call on the client stream. */
  lemma {:induction false} PumpCanCall(s: State) returns (es: seq<Event>, t: State)
    requires !PumpIsDone(s)
    ensures Reaches(Next, s, es, t) && |t.upLog| == |s.upLog| + 1
    decreases PumpRank(s.resp)
  {
    var e := PumpStep(s.resp);
    t := Apply(s, e);
    es := [e];
    if t.upLog == s.upLog {
      var rest;
      rest, t := PumpCanCall(t);
      es := [e] + rest;
      assert es[1..] == rest;
    } else {
      assert es[1..] == [];
    }
    assert Begins(Next, s, es, t);
  }

  /** In no continuation does the client stream get another call. */
  ghost predicate ClientIsLeft(s: State) {
    forall es, t :: Reaches(Next, s, es, t) ==> t.upLog == s.upLog
  }

  /** After the handler has returned, nothing more is sent to the client exactly when the
      response pump had left its loop; with a result of the downstream channel it had. */
  lemma ClientIsLeftIff(es: seq<Event>, s: State)
    requires Reaches(Next, Init(), es, s) && s.loop.Finished?
    ensures ClientIsLeft(s) <==> PumpIsDone(s)
    ensures s.loop.result.Ok? || s.loop.result.Failed? ==> PumpIsDone(s)
  {
    RunKeepsInv(Init(), es, s);
    if PumpIsDone(s) {
      forall more, t | Reaches(Next, s, more, t) ensures t.upLog == s.upLog {
        DoneIsFinal(s, more, t);
      }
    } else {
      var more, t := PumpCanCall(s);
    }
  }

  /** So after `Ok` and after an error of the response direction the result, the trailer,
      and what was received and delivered are final. */
  lemma DownstreamResultIsFinal(es: seq<Event>, s: State, more: seq<Event>, t: State)
    requires Reaches(Next, Init(), es, s) && s.loop.Finished? && (s.loop.result.Ok? || s.loop.result.Failed?)
    requires Reaches(Next, s, more, t)
    ensures t.loop == s.loop && t.trailers == s.trailers == 1 && t.upLog == s.upLog && t.downIn == s.downIn
  {
    RunKeepsInv(Init(), es, s);
    DoneIsFinal(s, more, t);
  }

  /** Both pumps after one response whose header was forwarded and a failed receive of a
      client message. */
  lemma RequestFailsEarly(m: Message, err: Err) returns (es: seq<Event>, t: State)
    ensures Reaches(Next, Init(), es, t) && t.loop == Selecting && t.upOpen
    ensures t.resp == SendFirst && t.respBuf == m && t.upLog == [Header]
    ensures t.req == Request.Reporting(Report(err, FromRecv)) && t.upErr == Chan([], false)
  {
    var s0 := Init();
    var s1 := Apply(s0, RespRecv(m));
    var s2 := Apply(s1, RespHeader);
    var s3 := Apply(s2, RespHeader);
    t := Apply(s3, ReqRecvFails(err));
    es := [] + [RespRecv(m)] + [RespHeader] + [RespHeader] + [ReqRecvFails(err)];
    Extend(Next, s0, [], s0, RespRecv(m));
    Extend(Next, s0, [] + [RespRecv(m)], s1, RespHeader);
    Extend(Next, s0, [] + [RespRecv(m)] + [RespHeader], s2, RespHeader);
    Extend(Next, s0, [] + [RespRecv(m)] + [RespHeader] + [RespHeader], s3, ReqRecvFails(err));
  }

  /** A failed request returns while the response pump is about to send, and the send
      comes after the return. */
  lemma SendAfterReturnOccurs(m: Message, err: Err)
    requires err != Eof
    ensures exists es, s, t :: Reaches(Next, Init(), es, s) && s.loop == Finished(RequestFailed(err)) &&
                               s.upLog == [Header] && Reaches(Next, s, [RespSend], t) && t.upLog == [Header, Msg(m)]
  {
    var es, s0 := RequestFailsEarly(m, err);
    var s1 := Apply(s0, ReqReport);
    var s2 := Apply(s1, SelectUp);
    Extend(Next, Init(), es, s0, ReqReport);
    Extend(Next, Init(), es + [ReqReport], s1, SelectUp);
    var t := Apply(s2, RespSend);
    Extend(Next, s2, [], s2, RespSend);
    assert [] + [RespSend] == [RespSend];
    assert s2.loop == Finished(RequestFailed(err)) && t.upLog == [Header, Msg(m)];
  }

  // ------------------------------------------------------------- the relay object

  lemma PrefixStep(ms: seq<Message>, k: nat)
    requires k < |ms|
    ensures ms[..k + 1] == ms[..k] + [ms[k]]
  {
  }

  /** The steps of the pumps. */
  function OthersNext(s: State, e: Event): Option<State> {
    if Enabled(s, e) && !e.SelectUp? && !e.SelectDown? && !e.HalfClose? then Some(Apply(s, e)) else None
  }

  predicate SameLoop(s: State, t: State) {
    t.loop == s.loop && t.upOpen == s.upOpen && t.downOpen == s.downOpen &&
    t.receives == s.receives && t.trailers == s.trailers
  }

  lemma {:induction false} ScriptKeepsLoop(s: State, es: seq<Event>)
    ensures SameLoop(s, Script(OthersNext, s, es))
  {
    if es != [] {
      ScriptKeepsLoop(s, es[..|es| - 1]);
    }
  }

  /** A select is bounded, and has a receive to make once the response pump is over. */
  lemma SelectBounded(s: State)
    requires Inv(s)
    ensures s.receives <= 3 && (s.loop == Selecting && (s.upOpen || RespOver(s.resp)) ==> s.receives <= 2)
    ensures s.loop == Selecting && (Enabled(s, SelectUp) || Enabled(s, SelectDown)) ==> s.receives <= 2
    ensures s.loop == Selecting && RespOver(s.resp) ==> Enabled(s, SelectDown)
  {
  }

  /** The loop is at its select and no channel is ready. */
  predicate Waits(s: State) { s.loop == Selecting && !Enabled(s, SelectUp) && !Enabled(s, SelectDown) }

  /** A receive of the upstream channel; an EOF is answered with a half-close. */
  function AfterUp(s: State, closeOk: bool): State
    requires Enabled(s, SelectUp)
  {
    var t := Apply(s, SelectUp);
    if t.loop == ClosingSend then Apply(t, HalfClose(closeOk)) else t
  }

  /** One receive of the select: of the upstream channel if it alone is ready, or if both
      are and `pickUp` says so. */
  function Selected(s: State, pickUp: bool, closeOk: bool): State {
    if Enabled(s, SelectUp) && (pickUp || !Enabled(s, SelectDown)) then AfterUp(s, closeOk)
    else if Enabled(s, SelectDown) then Apply(s, SelectDown)
    else s
  }

  /** A state of the loop, and whether it goes round again. */
  datatype Turn = Turn(s: State, again: bool)

  /** The pumps take their steps; then one receive is made, or the loop waits. */
  function Round(s: State, others: seq<seq<Event>>, pickUp: seq<bool>, closeOk: bool): Turn {
    var n := s.receives;
    var u := Script(OthersNext, s, if n < |others| then others[n] else []);
    if Waits(u) then Turn(u, false)
    else
      var v := Selected(u, n < |pickUp| && pickUp[n], closeOk);
      Turn(v, v.loop == Selecting)
  }

  predicate SamePumps(s: State, t: State) {
    t.req == s.req && t.upIn == s.upIn && t.resp == s.resp && t.downIn == s.downIn && t.upLog == s.upLog
  }

  lemma AfterUpKeepsPumps(s: State, closeOk: bool)
    requires Enabled(s, SelectUp)
    ensures SamePumps(s, AfterUp(s, closeOk))
  {
    var t := Apply(s, SelectUp);
    assert SamePumps(s, t);
  }

  lemma SelectedKeepsPumps(s: State, pickUp: bool, closeOk: bool)
    ensures SamePumps(s, Selected(s, pickUp, closeOk))
  {
    if Enabled(s, SelectUp) {
      AfterUpKeepsPumps(s, closeOk);
    }
  }

  /** In a round the pumps take their steps, whatever the loop does then. */
  lemma RoundMovesPumps(s: State, others: seq<seq<Event>>, pickUp: seq<bool>, closeOk: bool)
    ensures SamePumps(Script(OthersNext, s, if s.receives < |others| then others[s.receives] else []),
                      Round(s, others, pickUp, closeOk).s)
  {
    var n := s.receives;
    SelectedKeepsPumps(Script(OthersNext, s, if n < |others| then others[n] else []),
                       n < |pickUp| && pickUp[n], closeOk);
  }

  function Looped(s: State, others: seq<seq<Event>>, pickUp: seq<bool>, closeOk: bool, rounds: nat): Turn {
    if rounds == 0 then Turn(s, s.loop == Selecting)
    else
      var t := Looped(s, others, pickUp, closeOk, rounds - 1);
      if t.again then Round(t.s, others, pickUp, closeOk) else t
  }

  /** The half-closes of a run have the given outcome, and the handler fails on a failed one. */
  predicate CloseFits(es: seq<Event>, loop: Loop, closeOk: bool) {
    (loop == Finished(CloseSendFailed) <==> HalfClose(false) in es) && HalfClose(!closeOk) !in es
  }

  /** What a result says about the pump that it comes from. */
  predicate Justified(s: State, result: Result) {
    match result
    case Ok => RespOver(s.resp) && s.resp.r.err == Eof
    case Failed(err) => RespOver(s.resp) && s.resp.r.err == err && err != Eof
    case RequestFailed(err) => ReqOver(s.req) && s.req.r.err == err && err != Eof
    case CloseSendFailed => ReqOver(s.req) && s.req.r.err == Eof
  }

  lemma ResultIsJustified(s: State)
    requires Inv(s) && s.loop.Finished?
    ensures Justified(s, s.loop.result)
  {
  }

  function FirstSome<T>(a: Option<T>, b: Option<T>): Option<T> { if a.Some? then a else b }

  /** One relayed stream.  A method executes one goroutine of the source, against scripted
      stream calls, and is a run of the step system.  The select loop is interleaved
      with the pumps; each pump alone runs to its end. */
  class Relay {
    var upIn: seq<Message>
    var downLog: seq<DownCall>
    var req: Request
    var reqBuf: Message
    var downIn: seq<Message>
    var upLog: seq<UpCall>
    var resp: Response
    var respBuf: Message
    var upErr: Chan
    var downErr: Chan
    var loop: Loop
    var upOpen: bool
    var downOpen: bool
    var receives: nat
    var trailers: nat

    function View(): State
      reads this
    {
      State(upIn, downLog, req, reqBuf, downIn, upLog, resp, respBuf,
            upErr, downErr, loop, upOpen, downOpen, receives, trailers)
    }

    constructor ()
      ensures View() == Init()
    {
      upIn, downLog, req, reqBuf := [], [], Request.Receiving, Empty;
      downIn, upLog, resp, respBuf := [], [], AwaitFirst, Empty;
      upErr, downErr := Chan([], false), Chan([], false);
      loop, upOpen, downOpen, receives, trailers := Selecting, true, true, 0, 0;
    }

    /** The client sends `incoming` and then ends with `last`; the call number
        `failAt` of SendMsg fails with `sendErr`. */
    method ProxyRequest(incoming: seq<Message>, last: Err, failAt: nat, sendErr: Err)
      returns (ghost trace: seq<Event>)
      requires req == Request.Receiving && upErr == Chan([], false) && upIn == [] && downLog == []
      modifies this`upIn, this`downLog, this`req, this`reqBuf, this`upErr
      ensures Reaches(Next, old(View()), trace, View())
      ensures if failAt < |incoming| then
                upIn == incoming[..failAt + 1] && SentDown(downLog, incoming, failAt, false)
              else
                upIn == incoming && SentDown(downLog, incoming, |incoming|, false)
      ensures upErr == Chan([if failAt < |incoming| then Report(sendErr, FromSend) else Report(last, FromRecv)], true)
    {
      ghost var s := View();
      trace := CopyRequests(incoming, last, failAt, sendErr, s);
      trace := ReportRequest(s, trace);
    }

    method CopyRequests(incoming: seq<Message>, last: Err, failAt: nat, sendErr: Err, ghost s: State)
      returns (ghost trace: seq<Event>)
      requires s == View() && req == Request.Receiving && upErr == Chan([], false) && upIn == [] && downLog == []
      modifies this`upIn, this`downLog, this`req, this`reqBuf
      ensures Reaches(Next, s, trace, View())
      ensures if failAt < |incoming| then
                upIn == incoming[..failAt + 1] && SentDown(downLog, incoming, failAt, false) &&
                req == Request.Reporting(Report(sendErr, FromSend))
              else
                upIn == incoming && SentDown(downLog, incoming, |incoming|, false) &&
                req == Request.Reporting(Report(last, FromRecv))
    {
      trace := [];
      var k := 0;
      while true
        invariant k <= |incoming| && k <= failAt && req == Request.Receiving
        invariant Reaches(Next, s, trace, View())
        invariant upIn == incoming[..k] && SentDown(downLog, incoming, k, false)
        decreases |incoming| - k
      {
        if k == |incoming| {
          trace := EndRequest(ReqRecvFails(last), s, trace);
          break;
        }
        PrefixStep(incoming, k);
        trace := ReceiveRequest(incoming[k], s, trace);
        if k == failAt {
          trace := EndRequest(ReqSendFails(sendErr), s, trace);
          break;
        }
        trace := ForwardRequest(s, trace);
        k := k + 1;
      }
    }

    method EndRequest(e: Event, ghost s: State, ghost before: seq<Event>) returns (ghost trace: seq<Event>)
      requires Reaches(Next, s, before, View()) && Enabled(View(), e) && (e.ReqRecvFails? || e.ReqSendFails?)
      modifies this`req
      ensures Reaches(Next, s, trace, View())
      ensures req == Request.Reporting(Report(e.e, if e.ReqRecvFails? then FromRecv else FromSend))
    {
      Extend(Next, s, before, View(), e);
      trace := before + [e];
      req := Request.Reporting(Report(e.e, if e.ReqRecvFails? then FromRecv else FromSend));
    }

    method ReceiveRequest(m: Message, ghost s: State, ghost before: seq<Event>) returns (ghost trace: seq<Event>)
      requires Reaches(Next, s, before, View()) && req == Request.Receiving
      modifies this`upIn, this`req, this`reqBuf
      ensures Reaches(Next, s, trace, View())
      ensures req == Request.Sending && reqBuf == m && upIn == old(upIn) + [m]
    {
      Extend(Next, s, before, View(), ReqRecv(m));
      trace := before + [ReqRecv(m)];
      upIn, reqBuf, req := upIn + [m], m, Request.Sending;
    }

    method ForwardRequest(ghost s: State, ghost before: seq<Event>) returns (ghost trace: seq<Event>)
      requires Reaches(Next, s, before, View()) && req == Request.Sending
      modifies this`downLog, this`req
      ensures Reaches(Next, s, trace, View())
      ensures req == Request.Receiving && downLog == old(downLog) + [SendMsg(reqBuf)]
    {
      Extend(Next, s, before, View(), ReqSend);
      trace := before + [ReqSend];
      downLog, req := downLog + [SendMsg(reqBuf)], Request.Receiving;
    }

    /** Puts the error into the channel, then the deferred close. */
    method ReportRequest(ghost s: State, ghost before: seq<Event>) returns (ghost trace: seq<Event>)
      requires Reaches(Next, s, before, View()) && req.Reporting? && upErr == Chan([], false)
      modifies this`req, this`upErr
      ensures Reaches(Next, s, trace, View())
      ensures req == Request.Ended(old(req).r) && upErr == Chan([old(req).r], true)
    {
      Extend(Next, s, before, View(), ReqReport);
      upErr, req := Chan([req.r], false), Request.Reported(req.r);
      Extend(Next, s, before + [ReqReport], View(), ReqClose);
      upErr, req := upErr.(closed := true), Request.Ended(req.r);
      trace := before + [ReqReport] + [ReqClose];
    }

    /** The worker sends `responses` and then ends with `last`; `noHeader` and `unsent` are
        the errors, if any, of fetching and of forwarding the header after the first
        response, and call number `failAt` of SendMsg fails with `sendErr`. */
    method ProxyResponse(responses: seq<Message>, last: Err, noHeader: Option<Err>, unsent: Option<Err>,
                         failAt: nat, sendErr: Err)
      returns (ghost trace: seq<Event>)
      requires resp == AwaitFirst && downErr == Chan([], false) && downIn == [] && upLog == []
      modifies this`downIn, this`upLog, this`resp, this`respBuf, this`downErr
      ensures Reaches(Next, old(View()), trace, View())
      ensures responses == [] ==> downIn == [] && upLog == [] && downErr == Chan([Report(last, FromRecv)], true)
      ensures responses != [] && FirstSome(noHeader, unsent).Some? ==>
                downIn == responses[..1] && upLog == [] &&
                downErr == Chan([Report(FirstSome(noHeader, unsent).value, FromHeader)], true)
      ensures responses != [] && FirstSome(noHeader, unsent).None? && failAt < |responses| ==>
                downIn == responses[..failAt + 1] && SentUp(upLog, responses, failAt, true) &&
                downErr == Chan([Report(sendErr, FromSend)], true)
      ensures responses != [] && FirstSome(noHeader, unsent).None? && failAt >= |responses| ==>
                downIn == responses && SentUp(upLog, responses, |responses|, true) &&
                downErr == Chan([Report(last, FromRecv)], true)
    {
      ghost var s := View();
      if responses == [] {
        trace := EndResponse(last, s, []);
      } else {
        var established;
        established, trace := Establish(responses[0], noHeader, unsent, s, []);
        if established {
          trace := CopyFromFirst(responses, last, failAt, sendErr, s, trace);
        }
      }
      trace := ReportResponse(s, trace);
    }

    /** The part of the pump after the header. */
    method CopyFromFirst(responses: seq<Message>, last: Err, failAt: nat, sendErr: Err,
                         ghost s: State, ghost before: seq<Event>)
      returns (ghost trace: seq<Event>)
      requires resp == SendFirst && Reaches(Next, s, before, View()) && responses != []
      requires respBuf == responses[0] && downIn == [responses[0]] && upLog == [Header]
      modifies this`downIn, this`upLog, this`resp, this`respBuf
      ensures Reaches(Next, s, trace, View())
      ensures if failAt < |responses| then
                downIn == responses[..failAt + 1] && SentUp(upLog, responses, failAt, true) &&
                resp == Response.Reporting(Report(sendErr, FromSend))
              else
                downIn == responses && SentUp(upLog, responses, |responses|, true) &&
                resp == Response.Reporting(Report(last, FromRecv))
    {
      if failAt == 0 {
        trace := LoseResponse(sendErr, s, before);
      } else {
        trace := ForwardResponse(s, before);
        trace := CopyResponses(responses, last, failAt, sendErr, s, trace);
      }
    }

    /** The loop over the responses after the first one. */
    method CopyResponses(responses: seq<Message>, last: Err, failAt: nat, sendErr: Err,
                         ghost s: State, ghost before: seq<Event>)
      returns (ghost trace: seq<Event>)
      requires resp == Response.Receiving && Reaches(Next, s, before, View()) && 1 <= failAt && responses != []
      requires downIn == responses[..1] && SentUp(upLog, responses, 1, true)
      modifies this`downIn, this`upLog, this`resp, this`respBuf
      ensures Reaches(Next, s, trace, View())
      ensures if failAt < |responses| then
                downIn == responses[..failAt + 1] && SentUp(upLog, responses, failAt, true) &&
                resp == Response.Reporting(Report(sendErr, FromSend))
              else
                downIn == responses && SentUp(upLog, responses, |responses|, true) &&
                resp == Response.Reporting(Report(last, FromRecv))
    {
      trace := before;
      var k := 1;
      while true
        invariant 1 <= k <= |responses| && k <= failAt && resp == Response.Receiving
        invariant Reaches(Next, s, trace, View())
        invariant downIn == responses[..k] && SentUp(upLog, responses, k, true)
        decreases |responses| - k
      {
        if k == |responses| {
          trace := EndResponse(last, s, trace);
          break;
        }
        PrefixStep(responses, k);
        trace := ReceiveResponse(responses[k], s, trace);
        if k == failAt {
          trace := LoseResponse(sendErr, s, trace);
          break;
        }
        trace := ForwardResponse(s, trace);
        k := k + 1;
      }
    }

    method EndResponse(err: Err, ghost s: State, ghost before: seq<Event>) returns (ghost trace: seq<Event>)
      requires Reaches(Next, s, before, View()) && (resp == AwaitFirst || resp == Response.Receiving)
      modifies this`resp
      ensures Reaches(Next, s, trace, View()) && resp == Response.Reporting(Report(err, FromRecv))
    {
      Extend(Next, s, before, View(), RespRecvFails(err));
      trace := before + [RespRecvFails(err)];
      resp := Response.Reporting(Report(err, FromRecv));
    }

    method ReceiveResponse(m: Message, ghost s: State, ghost before: seq<Event>) returns (ghost trace: seq<Event>)
      requires Reaches(Next, s, before, View()) && (resp == AwaitFirst || resp == Response.Receiving)
      modifies this`downIn, this`resp, this`respBuf
      ensures Reaches(Next, s, trace, View())
      ensures resp == if old(resp) == AwaitFirst then AwaitHeader else Response.Sending
      ensures respBuf == m && downIn == old(downIn) + [m]
    {
      Extend(Next, s, before, View(), RespRecv(m));
      trace := before + [RespRecv(m)];
      downIn, respBuf := downIn + [m], m;
      resp := if resp == AwaitFirst then AwaitHeader else Response.Sending;
    }

    method ForwardResponse(ghost s: State, ghost before: seq<Event>) returns (ghost trace: seq<Event>)
      requires Reaches(Next, s, before, View()) && (resp == Response.Sending || resp == SendFirst)
      modifies this`upLog, this`resp
      ensures Reaches(Next, s, trace, View())
      ensures resp == Response.Receiving && upLog == old(upLog) + [Msg(respBuf)]
    {
      Extend(Next, s, before, View(), RespSend);
      trace := before + [RespSend];
      upLog, resp := upLog + [Msg(respBuf)], Response.Receiving;
    }

    method LoseResponse(err: Err, ghost s: State, ghost before: seq<Event>) returns (ghost trace: seq<Event>)
      requires Reaches(Next, s, before, View()) && (resp == Response.Sending || resp == SendFirst)
      modifies this`resp
      ensures Reaches(Next, s, trace, View()) && resp == Response.Reporting(Report(err, FromSend))
    {
      Extend(Next, s, before, View(), RespSendFails(err));
      trace := before + [RespSendFails(err)];
      resp := Response.Reporting(Report(err, FromSend));
    }

    /** The first response, then the header. */
    method Establish(m: Message, noHeader: Option<Err>, unsent: Option<Err>,
                     ghost s: State, ghost before: seq<Event>)
      returns (ok: bool, ghost trace: seq<Event>)
      requires resp == AwaitFirst && Reaches(Next, s, before, View())
      modifies this`downIn, this`upLog, this`resp, this`respBuf
      ensures Reaches(Next, s, trace, View())
      ensures ok <==> FirstSome(noHeader, unsent).None?
      ensures respBuf == m && downIn == old(downIn) + [m]
      ensures if ok then resp == SendFirst && upLog == old(upLog) + [Header]
              else upLog == old(upLog) &&
                   resp == Response.Reporting(Report(FirstSome(noHeader, unsent).value, FromHeader))
    {
      trace := ReceiveResponse(m, s, before);
      if noHeader.Some? {
        trace := LoseHeader(noHeader.value, s, trace);
        return false, trace;
      }
      Extend(Next, s, trace, View(), RespHeader);
      trace := trace + [RespHeader];
      resp := SendHeader;
      if unsent.Some? {
        trace := LoseHeader(unsent.value, s, trace);
        return false, trace;
      }
      Extend(Next, s, trace, View(), RespHeader);
      trace := trace + [RespHeader];
      upLog, resp := upLog + [Header], SendFirst;
      ok := true;
    }

    method LoseHeader(err: Err, ghost s: State, ghost before: seq<Event>) returns (ghost trace: seq<Event>)
      requires Reaches(Next, s, before, View()) && (resp == AwaitHeader || resp == SendHeader)
      modifies this`resp
      ensures Reaches(Next, s, trace, View()) && resp == Response.Reporting(Report(err, FromHeader))
    {
      Extend(Next, s, before, View(), RespHeaderFails(err));
      trace := before + [RespHeaderFails(err)];
      resp := Response.Reporting(Report(err, FromHeader));
    }

    method ReportResponse(ghost s: State, ghost before: seq<Event>) returns (ghost trace: seq<Event>)
      requires Reaches(Next, s, before, View()) && resp.Reporting? && downErr == Chan([], false)
      modifies this`resp, this`downErr
      ensures Reaches(Next, s, trace, View())
      ensures resp == Response.Ended(old(resp).r) && downErr == Chan([old(resp).r], true)
    {
      Extend(Next, s, before, View(), RespReport);
      downErr, resp := Chan([resp.r], false), Response.Reported(resp.r);
      Extend(Next, s, before + [RespReport], View(), RespClose);
      downErr, resp := downErr.(closed := true), Response.Ended(resp.r);
      trace := before + [RespReport] + [RespClose];
    }

    method BecomeRequest(t: State)
      modifies this`upIn, this`downLog, this`req, this`reqBuf
      ensures View() == old(View()).(upIn := t.upIn, downLog := t.downLog, req := t.req, reqBuf := t.reqBuf)
    {
      upIn, downLog, req, reqBuf := t.upIn, t.downLog, t.req, t.reqBuf;
    }

    method BecomeResponse(t: State)
      modifies this`downIn, this`upLog, this`resp, this`respBuf
      ensures View() == old(View()).(downIn := t.downIn, upLog := t.upLog, resp := t.resp, respBuf := t.respBuf)
    {
      downIn, upLog, resp, respBuf := t.downIn, t.upLog, t.resp, t.respBuf;
    }

    /** The steps of the pumps leave the variables of the loop alone. */
    method Become(t: State)
      requires SameLoop(View(), t)
      modifies this
      ensures View() == t
    {
      BecomeRequest(t);
      BecomeResponse(t);
      upErr, downErr := t.upErr, t.downErr;
    }

    /** The select loop.  Before its receive number `n` the pumps take the steps of
        `others[n]`; `pickUp[n]` resolves the select if both channels are ready, and
        `closeOk` is the outcome of CloseSend.  The method ends early if the loop has to
        wait for a pump that takes no more steps. */
    method HandleRequest(others: seq<seq<Event>>, pickUp: seq<bool>, closeOk: bool)
      returns (ghost rounds: nat, ghost trace: seq<Event>)
      requires Inv(View()) && loop == Selecting
      modifies this
      ensures Reaches(Next, old(View()), trace, View()) && Inv(View())
      ensures receives <= 3
      ensures loop.Finished? <==> !Waits(View())
      ensures RespOver(resp) ==> loop.Finished?
      ensures loop.Finished? ==> Justified(View(), loop.result)
      ensures CloseFits(trace, loop, closeOk)
      ensures Looped(old(View()), others, pickUp, closeOk, rounds) == Turn(View(), false)
    {
      ghost var s := View();
      rounds, trace := 0, [];
      var again := true;
      while again
        invariant Reaches(Next, s, trace, View()) && Inv(View())
        invariant CloseFits(trace, loop, closeOk) && (again ==> loop == Selecting)
        invariant Looped(s, others, pickUp, closeOk, rounds) == Turn(View(), again)
        invariant again || loop.Finished? || Waits(View())
        decreases if again then 4 - receives else 0
      {
        again, trace := GoRound(others, pickUp, closeOk, s, trace);
        rounds := rounds + 1;
        RunKeepsInv(s, trace, View());
      }
      SelectBounded(View());
      if loop.Finished? {
        ResultIsJustified(View());
      }
    }

    /** One round of the loop. */
    method GoRound(others: seq<seq<Event>>, pickUp: seq<bool>, closeOk: bool, ghost s: State, ghost before: seq<Event>)
      returns (again: bool, ghost trace: seq<Event>)
      requires Inv(s) && Reaches(Next, s, before, View()) && Inv(View()) && loop == Selecting
      requires CloseFits(before, loop, closeOk)
      modifies this
      ensures Reaches(Next, s, trace, View())
      ensures Turn(View(), again) == Round(old(View()), others, pickUp, closeOk)
      ensures CloseFits(trace, loop, closeOk)
      ensures if again then loop == Selecting && receives == old(receives) + 1 <= 3 else loop.Finished? || Waits(View())
    {
      var n := receives;
      trace := Disturb(if n < |others| then others[n] else [], s, before);
      if Waits(View()) {
        return false, trace;
      }
      trace := SelectOnce(n < |pickUp| && pickUp[n], closeOk, s, trace);
      again := loop == Selecting;
    }

    /** The pumps take the steps of `es` that are possible in their turn. */
    method Disturb(es: seq<Event>, ghost s: State, ghost before: seq<Event>) returns (ghost trace: seq<Event>)
      requires Inv(s) && Reaches(Next, s, before, View())
      modifies this
      ensures Reaches(Next, s, trace, View()) && Inv(View())
      ensures View() == Script(OthersNext, old(View()), es) && loop == old(loop) && receives == old(receives)
      ensures forall ok :: HalfClose(ok) in trace <==> HalfClose(ok) in before
    {
      TakenFrom(OthersNext, (e: Event) => !e.HalfClose?, View(), es);
      ScriptKeepsLoop(View(), es);
      Interferes(OthersNext, Next, s, before, View(), es);
      trace := before + Taken(OthersNext, View(), es);
      RunKeepsInv(s, trace, Script(OthersNext, View(), es));
      Become(Script(OthersNext, View(), es));
    }

    /** One receive of the select, from a channel that is ready. */
    method SelectOnce(pickUp: bool, closeOk: bool, ghost s: State, ghost before: seq<Event>)
      returns (ghost trace: seq<Event>)
      requires Reaches(Next, s, before, View()) && Inv(View()) && loop == Selecting && !Waits(View())
      requires CloseFits(before, loop, closeOk)
      modifies this`loop, this`upErr, this`downErr, this`upOpen, this`downOpen, this`downLog
      modifies this`receives, this`trailers
      ensures Reaches(Next, s, trace, View())
      ensures (loop == Selecting || loop.Finished?) && receives == old(receives) + 1 <= 3
      ensures CloseFits(trace, loop, closeOk)
      ensures View() == Selected(old(View()), pickUp, closeOk)
    {
      ghost var t := View();
      SelectBounded(t);
      var up := Enabled(View(), SelectUp) && (pickUp || !Enabled(View(), SelectDown));
      ghost var taken;
      if up {
        taken := SelectUpstream(closeOk);
      } else {
        taken := SelectDownstream();
      }
      Append(Next, s, before, t, taken, View());
      trace := before + taken;
    }

    method SelectUpstream(closeOk: bool) returns (ghost trace: seq<Event>)
      requires Enabled(View(), SelectUp)
      modifies this`loop, this`upErr, this`upOpen, this`downLog, this`receives
      ensures Reaches(Next, old(View()), trace, View())
      ensures (loop == Selecting || loop.Finished?) && receives == old(receives) + 1
      ensures CloseFits(trace, loop, closeOk) && View() == AfterUp(old(View()), closeOk)
    {
      ghost var s := View();
      Extend(Next, s, [], s, SelectUp);
      trace := [] + [SelectUp];
      ReceiveUp();
      if loop == ClosingSend {
        trace := CloseSending(closeOk, s, trace);
      }
    }

    method CloseSending(closeOk: bool, ghost s: State, ghost before: seq<Event>) returns (ghost trace: seq<Event>)
      requires Reaches(Next, s, before, View()) && loop == ClosingSend
      modifies this`loop, this`downLog
      ensures Reaches(Next, s, trace, View()) && trace == before + [HalfClose(closeOk)]
      ensures View() == Apply(old(View()), HalfClose(closeOk))
      ensures loop == (if closeOk then Selecting else Finished(CloseSendFailed))
      ensures downLog == old(downLog) + [CloseSend]
    {
      Extend(Next, s, before, View(), HalfClose(closeOk));
      trace := before + [HalfClose(closeOk)];
      downLog := downLog + [CloseSend];
      loop := if closeOk then Selecting else Finished(CloseSendFailed);
    }

    method SelectDownstream() returns (ghost trace: seq<Event>)
      requires Enabled(View(), SelectDown)
      modifies this`loop, this`downErr, this`downOpen, this`receives, this`trailers
      ensures Reaches(Next, old(View()), trace, View())
      ensures (loop == Selecting || loop.Finished?) && receives == old(receives) + 1
      ensures loop != Finished(CloseSendFailed) && trace == [] + [SelectDown]
      ensures View() == Apply(old(View()), SelectDown)
    {
      Extend(Next, View(), [], View(), SelectDown);
      trace := [] + [SelectDown];
      ReceiveDown();
    }

    method ReceiveUp()
      requires Enabled(View(), SelectUp)
      modifies this`loop, this`upErr, this`upOpen, this`receives
      ensures View() == Apply(old(View()), SelectUp)
      ensures (loop == Selecting || loop == ClosingSend || loop.Finished?) && loop != Finished(CloseSendFailed)
      ensures receives == old(receives) + 1
    {
      receives := receives + 1;
      if upErr.buffer == [] {
        upOpen := false;
      } else {
        var err := upErr.buffer[0].err;
        upErr := upErr.(buffer := []);
        loop := if err == Eof then ClosingSend else Finished(RequestFailed(err));
      }
    }

    method ReceiveDown()
      requires Enabled(View(), SelectDown)
      modifies this`loop, this`downErr, this`downOpen, this`receives, this`trailers
      ensures View() == Apply(old(View()), SelectDown)
      ensures (loop == Selecting || loop.Finished?) && loop != Finished(CloseSendFailed)
      ensures receives == old(receives) + 1
    {
      receives := receives + 1;
      if downErr.buffer == [] {
        downOpen := false;
      } else {
        FinishRequest(downErr.buffer[0].err);
      }
    }

    /** The trailer, and the result. */
    method FinishRequest(err: Err)
      modifies this`loop, this`downErr, this`trailers
      ensures View() == old(View()).(downErr := old(downErr).(buffer := []), trailers := old(trailers) + 1,
                                     loop := Finished(if err == Eof then Ok else Failed(err)))
    {
      downErr, trailers := downErr.(buffer := []), trailers + 1;
      loop := Finished(if err == Eof then Ok else Failed(err));
    }
  }
}
