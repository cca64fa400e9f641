/** When every response on a connection arrives. */
module ConnectionTheorems {
  import opened Wrappers
  import opened Framing
  import opened HttpClient
  import opened HttpConnection
  import opened FramingProofs
  import opened FramingTheorems

  /** The methods of the requests that are answered. */
  function Methods(exchanges: seq<Exchange>): seq<string> {
    if exchanges == [] then []
    else [exchanges[0].request] + if IsLast(exchanges[0]) then [] else Methods(exchanges[1..])
  }

  /** What comes behind the first response when `next` comes behind all of them. */
  function Behind(exchanges: seq<Exchange>, next: string): string
    requires exchanges != []
  {
    if IsLast(exchanges[0]) then "" else Wire(exchanges[1..]) + next
  }

  /** What the client should read: each response, and behind it exactly the others. */
  ghost function Answers(exchanges: seq<Exchange>, next: string): seq<Received> {
    if exchanges == [] then []
    else [Answer(exchanges[0], Behind(exchanges, next))]
         + if IsLast(exchanges[0]) then [] else Answers(exchanges[1..], next)
  }

  ghost function Answer(e: Exchange, behind: string): Received {
    var r, body := e.response, Chunks(e.content);
    Received(r.status, Reason(r), FieldsSeen(e.request, r), Expected(e.request, r, body), behind)
  }

  /** The server closes behind the response that says so, and not before. */
  predicate Goes(exchanges: seq<Exchange>, next: string, ended: bool) {
    Ends(exchanges) ==> next == "" && ended
  }

  ghost predicate AllArrive(exchanges: seq<Exchange>) {
    forall next, ended | Goes(exchanges, next, ended) ::
      ReadAll(Methods(exchanges), Wire(exchanges) + next, ended) == Some(Answers(exchanges, next))
  }

  ghost predicate Good(e: Exchange) {
    PlainHead(e.response) && Deliverable(e.request, e.response, Chunks(e.content), e.keepAlive)
  }

  ghost predicate AllGood(exchanges: seq<Exchange>) {
    exchanges == [] || (Good(exchanges[0]) && (IsLast(exchanges[0]) || AllGood(exchanges[1..])))
  }

  lemma LastIs(e: Exchange)
    ensures IsLast(e) <==> EndsThere(e.response, e.keepAlive)
  {
    WriterAgrees(e.request, e.response, e.keepAlive);
  }

  lemma FirstMessage(exchanges: seq<Exchange>, next: string, ended: bool)
    requires exchanges != [] && Goes(exchanges, next, ended)
    ensures Wire(exchanges) + next == Output(exchanges[0]) + Behind(exchanges, next)
    ensures var e := exchanges[0]; Follows(e.response, e.keepAlive, Behind(exchanges, next), ended)
  {
    LastIs(exchanges[0]);
    hide Output, IsLast, EndsThere;
    var first := Output(exchanges[0]);
    if IsLast(exchanges[0]) {
      assert first + "" + next == first + "";
    } else {
      assert first + Wire(exchanges[1..]) + next == first + (Wire(exchanges[1..]) + next);
    }
  }

  lemma OutputIsSomething(e: Exchange)
    ensures Output(e) != ""
  {
    MessageSplits(e.request, e.response, Chunks(e.content), "");
    hide Message, StatusLine, Block;
    assert Message(e.request, e.response, Chunks(e.content)) + "" == Output(e);
  }

  /** A good response is read, and the client goes on with what is behind it. */
  lemma GoodIsRead(e: Exchange, behind: string, ended: bool)
    requires Good(e) && Follows(e.response, e.keepAlive, behind, ended)
    ensures Read(e.request, Output(e) + behind, ended) == Some(Answer(e, behind))
  {
    WriterAgrees(e.request, e.response, e.keepAlive);
    hide Read, Message, PlainHead, Deliverable, BodyRead, Expected, Reason, Fields, Framed, Follows, FieldsSeen;
    BodyBack(e.request, e.response, Chunks(e.content), e.keepAlive, behind, ended);
    HeadBack(e.request, e.response, Chunks(e.content), behind, ended);
  }

  lemma BadIsMisread(e: Exchange, behind: string, ended: bool)
    requires !Good(e) && Follows(e.response, e.keepAlive, behind, ended)
    requires IsLast(e) || behind != "" || !ended
    ensures Read(e.request, Output(e) + behind, ended) != Some(Answer(e, behind))
  {
    WriterAgrees(e.request, e.response, e.keepAlive);
    hide Read, Message, PlainHead, Deliverable, BodyRead, Expected, Reason, Fields, Framed, Follows, Closes, FieldsSeen;
    hide EndsThere;
    var r, body := e.response, Chunks(e.content);
    if !PlainHead(r) {
      BadHead(e.request, r, body, behind, ended);
    } else {
      BodyMissed(e.request, r, body, e.keepAlive, behind, ended);
      HeadBack(e.request, r, body, behind, ended);
    }
  }

  lemma {:induction false} AllRead(exchanges: seq<Exchange>, next: string, ended: bool)
    requires AllGood(exchanges) && Goes(exchanges, next, ended)
    ensures ReadAll(Methods(exchanges), Wire(exchanges) + next, ended) == Some(Answers(exchanges, next))
  {
    hide Read, Good, Output, IsLast, Answer, Follows;
    if exchanges != [] {
      FirstMessage(exchanges, next, ended);
      GoodIsRead(exchanges[0], Behind(exchanges, next), ended);
      AnswerLeaves(exchanges[0], Behind(exchanges, next));
      if !IsLast(exchanges[0]) {
        AllRead(exchanges[1..], next, ended);
        assert Methods(exchanges)[1..] == Methods(exchanges[1..]);
      }
    }
  }

  lemma AnswerLeaves(e: Exchange, behind: string)
    ensures Answer(e, behind).rest == behind
  {
  }

  /** One response that is not good, and something is misread. */
  lemma {:induction false} SomeMisread(exchanges: seq<Exchange>, next: string, ended: bool)
    requires !AllGood(exchanges) && Goes(exchanges, next, ended) && (Ends(exchanges) || next != "" || !ended)
    ensures ReadAll(Methods(exchanges), Wire(exchanges) + next, ended) != Some(Answers(exchanges, next))
  {
    hide Read, Good, Output, IsLast, Answer, Follows;
    var e, others := exchanges[0], exchanges[1..];
    FirstMessage(exchanges, next, ended);
    if !Good(e) {
      if others != [] {
        OutputIsSomething(others[0]);
      }
      BadIsMisread(e, Behind(exchanges, next), ended);
      var read := ReadAll(Methods(exchanges), Output(e) + Behind(exchanges, next), ended);
      assert read.Some? ==> Some(read.value[0]) == Read(e.request, Output(e) + Behind(exchanges, next), ended);
      assert Answers(exchanges, next)[0] == Answer(e, Behind(exchanges, next));
    } else {
      GoodIsRead(e, Behind(exchanges, next), ended);
      AnswerLeaves(e, Behind(exchanges, next));
      SomeMisread(others, next, ended);
      assert Methods(exchanges)[1..] == Methods(others);
      var read := ReadAll(Methods(others), Behind(exchanges, next), ended);
      assert read.Some? ==> ([Answer(e, Behind(exchanges, next))] + read.value)[1..] == read.value;
      assert Answers(exchanges, next)[1..] == Answers(others, next);
    }
  }

  /**
   Every response on a connection arrives, whatever comes behind the last of them, exactly when each
   one that is sent has a plain header block and a body that can be delivered.
   */
  lemma AllArriveExactlyWhen(exchanges: seq<Exchange>)
    ensures AllArrive(exchanges) <==> AllGood(exchanges)
  {
    hide ReadAll, Methods, Wire, Answers, AllGood;
    if AllGood(exchanges) {
      forall next, ended | Goes(exchanges, next, ended)
        ensures ReadAll(Methods(exchanges), Wire(exchanges) + next, ended) == Some(Answers(exchanges, next))
      {
        AllRead(exchanges, next, ended);
      }
    } else {
      assert Goes(exchanges, "", Ends(exchanges));
      SomeMisread(exchanges, "", Ends(exchanges));
    }
  }
}
