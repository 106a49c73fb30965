/**
 The h3 adapter over a stream: a send loop that can be suspended in the middle of a write, and a
 reader that hands chunks on. While a native operation is under way the stream lives in its future.
 */
module H3 {
  import opened Common
  import opened RecvBuffer
  import Runs
  import SendPath
  import StreamTypes

  // ---- The data being written ----

  /** The contiguous front of what is left of the data; a `Buf` is a list of segments. */
  function Front(segs: seq<seq<byte>>): (chunk: seq<byte>)
    ensures chunk <= Flat(segs)
    ensures chunk == [] <==> Flat(segs) == []
  {
    if segs == [] then []
    else if segs[0] != [] then segs[0]
    else Front(segs[1..])
  }

  /** `advance`. */
  function Advanced(segs: seq<seq<byte>>, n: nat): (rest: seq<seq<byte>>)
    requires n <= |Flat(segs)|
    ensures Flat(rest) == Flat(segs)[n..]
  {
    if segs == [] then []
    else if n < |segs[0]| then [segs[0][n..]] + segs[1..]
    else Advanced(segs[1..], n - |segs[0]|)
  }

  // ---- SendStream ----

  /** A write under way: it owns the stream and a copy of the chunk. */
  datatype Write = Write(stream: nat, chunk: seq<byte>)

  datatype Sender = Sender(stream: Option<nat>, future: Option<Write>, writing: Option<seq<seq<byte>>>) {
    /** The bytes given to the sender that the stream has not accepted. */
    function Unsent(): seq<byte> {
      if writing.Some? then Flat(writing.value) else []
    }

    /** The stream, wherever it is. */
    function Home(): Option<nat> {
      if stream.Some? || future.None? then stream else Some(future.value.stream)
    }
  }

  /** What polling the write under way answers; it accepts at most the chunk it was given. */
  datatype Answer = Blocked | Took(count: nat) | Refused(error: nat)

  datatype SendPoll = SendPoll(sender: Sender, result: Poll<Result<(), nat>>, accepted: seq<byte>, used: nat)

  /** Exactly one place holds the stream, and a write under way has the front of the data. */
  ghost predicate OnePlace(s: Sender) {
    var holds :=
      && (s.stream.Some? <==> s.future.None?)
      && (s.future.Some? ==> s.writing.Some? && s.Unsent() != [] && s.future.value.chunk == Front(s.writing.value));
    holds
  }

  /** Start a write of the front chunk, unless one is under way. */
  function Launched(s: Sender): (t: Sender)
    requires OnePlace(s) && s.Unsent() != []
    ensures OnePlace(t) && t.future.Some? && t.writing == s.writing && t.Home() == s.Home()
  {
    if s.stream.Some? then s.(stream := None, future := Some(Write(s.stream.value, Front(s.writing.value)))) else s
  }

  /** The write has resolved: the stream is back, and `count` bytes of the front are gone. */
  function Returned(s: Sender, count: nat): (t: Sender)
    requires OnePlace(s) && s.Unsent() != [] && count <= |Front(s.writing.value)|
    ensures OnePlace(t) && t.stream.Some? && t.writing.Some? && t.Home() == s.Home()
    ensures s.Unsent() == Front(s.writing.value)[..count] + t.Unsent()
  {
    Sender(Some(Launched(s).future.value.stream), None, Some(Advanced(s.writing.value, count)))
  }

  /** `poll_ready`, with what the successive polls of the write futures answer. */
  function Flush(s: Sender, answers: seq<Answer>): SendPoll
    requires OnePlace(s)
    decreases |answers|
  {
    if s.Unsent() == [] then SendPoll(s.(writing := None), Ready(Ok(())), [], 0)
    else if answers == [] then SendPoll(Launched(s), Pending, [], 0)
    else
      match answers[0]
      case Blocked => SendPoll(Launched(s), Pending, [], 1)
      case Refused(e) => SendPoll(Returned(s, 0), Ready(Err(e)), [], 1)
      case Took(count) =>
        var n := Min(count, |Front(s.writing.value)|);
        var rest := Flush(Returned(s, n), answers[1..]);
        SendPoll(rest.sender, rest.result, Front(s.writing.value)[..n] + rest.accepted, 1 + rest.used)
  }

  /** `send_data`: refused while earlier data is still being written. */
  function Give(s: Sender, data: seq<seq<byte>>): (Sender, bool) {
    if s.writing.Some? then (s, false) else (s.(writing := Some(data)), true)
  }

  /** `poll_send`; None is its panic, over data that is held or over a stream that is gone. The stream takes at
      most the front chunk. */
  function PollSend(s: Sender, data: seq<seq<byte>>, answer: Answer): Option<SendPoll> {
    if s.writing.Some? || s.stream.None? then None
    else
      match answer
      case Blocked => Some(SendPoll(s, Pending, [], 1))
      case Refused(e) => Some(SendPoll(s, Ready(Err(e)), [], 1))
      case Took(count) => Some(SendPoll(s, Ready(Ok(())), Front(data)[..Min(count, |Front(data)|)], 1))
  }

  /** `poll_finish`, `reset` and `send_id` unwrap the stream. */
  predicate Unwraps(s: Sender) { s.stream.Some? }

  /** The rounds that end the loop early: a pending write, and a failed one. */
  lemma {:induction false} FlushStops(s: Sender, answers: seq<Answer>)
    requires OnePlace(s) && s.Unsent() != [] && (answers == [] || !answers[0].Took?)
    ensures var r := Flush(s, answers);
            && OnePlace(r.sender) && r.accepted == [] && r.sender.Unsent() == s.Unsent() && r.sender.writing.Some?
            && r.sender.Home() == s.Home()
            && r.result != Ready(Ok(())) && (r.result.Pending? <==> r.sender.stream.None?)
  {
    hide Launched, Returned, Front;
    assert Front(s.writing.value)[..0] == [];
  }

  /** Suspended or not, what the stream accepted and what is left make up what was there, once. */
  lemma {:induction false} FlushIsExact(s: Sender, answers: seq<Answer>)
    requires OnePlace(s)
    ensures var r := Flush(s, answers);
            && OnePlace(r.sender) && r.sender.Home() == s.Home()
            && r.accepted + r.sender.Unsent() == s.Unsent()
            && (r.result == Ready(Ok(())) <==> r.sender.writing == None)
            && (r.result.Pending? <==> r.sender.stream.None?)
    decreases |answers|
  {
    hide Launched, Returned, Front;
    if s.Unsent() != [] && answers != [] && answers[0].Took? {
      var n := Min(answers[0].count, |Front(s.writing.value)|);
      var rest := Flush(Returned(s, n), answers[1..]);
      FlushIsExact(Returned(s, n), answers[1..]);
      assert Front(s.writing.value)[..n] + rest.accepted + rest.sender.Unsent()
          == Front(s.writing.value)[..n] + (rest.accepted + rest.sender.Unsent());
    } else if s.Unsent() == [] {
      assert Flush(s, answers).accepted == [] && Flush(s, answers).sender.Unsent() == [];
    } else {
      FlushStops(s, answers);
    }
  }

  /** The first `used` answers decide a result: every one before the last took something, and the last one refused,
      was not done yet, or took something; after that the answers have run out or the data has. */
  ghost predicate Decide(answers: seq<Answer>, used: nat, result: Poll<Result<(), nat>>) {
    && used <= |answers| && (forall i :: 0 <= i < used - 1 ==> answers[i].Took?)
    && (result.Ready? && result.value.Err? <==> used > 0 && answers[used - 1].Refused?)
    && (result.Ready? && result.value.Err? ==> answers[used - 1] == Refused(result.value.error))
    && (used > 0 && answers[used - 1].Blocked? ==> result.Pending?)
    && (result.Pending? ==> (used > 0 && answers[used - 1].Blocked?) || used == |answers|)
  }

  lemma {:induction false} DecideLater(answers: seq<Answer>, used: nat, result: Poll<Result<(), nat>>)
    requires answers != [] && answers[0].Took? && Decide(answers[1..], used, result)
    ensures Decide(answers, used + 1, result)
  {
    if used > 0 {
      assert answers[used] == answers[1..][used - 1];
    }
    forall i | 0 <= i < used ensures answers[i].Took? {
      assert i > 0 ==> answers[i] == answers[1..][i - 1];
    }
  }

  lemma {:induction false} DecideNow(s: Sender, answers: seq<Answer>)
    requires OnePlace(s) && (s.Unsent() == [] || answers == [] || !answers[0].Took?)
    ensures Decide(answers, Flush(s, answers).used, Flush(s, answers).result)
  {
    hide Launched, Returned, Front;
  }

  /** Who decides the outcome of a flush. */
  lemma {:induction false} FlushAnswers(s: Sender, answers: seq<Answer>)
    requires OnePlace(s)
    ensures Decide(answers, Flush(s, answers).used, Flush(s, answers).result)
    decreases |answers|
  {
    hide Launched, Returned, Front, Flush, OnePlace, Decide;
    if s.Unsent() != [] && answers != [] && answers[0].Took? {
      var n := Min(answers[0].count, |Front(s.writing.value)|);
      FlushRound(s, answers);
      FlushAnswers(Returned(s, n), answers[1..]);
      var rest := Flush(Returned(s, n), answers[1..]);
      DecideLater(answers, rest.used, rest.result);
    } else {
      DecideNow(s, answers);
    }
  }

  /** The loop runs at most once per remaining byte, and once more, if every write that completes takes something. */
  lemma {:induction false} FlushTerminates(s: Sender, answers: seq<Answer>)
    requires OnePlace(s)
    requires forall i :: 0 <= i < |answers| && answers[i].Took? ==> answers[i].count > 0
    ensures Flush(s, answers).used <= |s.Unsent()| + 1
    ensures Flush(s, answers).used <= |answers|
    decreases |answers|
  {
    hide Launched, Returned, Front;
    if s.Unsent() != [] && answers != [] && answers[0].Took? {
      var n := Min(answers[0].count, |Front(s.writing.value)|);
      FlushTerminates(Returned(s, n), answers[1..]);
    }
  }

  /** The stream of this model takes the whole chunk whenever a write succeeds, so the counts are positive. */
  lemma {:induction false} WritesTakeSomething(sh: StreamTypes.Shared, send: SendPath.Send, cx: Task, s: Sender,
                                               failure: Option<nat>, next: nat)
    requires OnePlace(s) && s.future.Some?
    ensures var r := SendPath.PollWrite(sh, send, cx, SendPath.Slice(s.future.value.chunk), false, failure, next).result;
            r.Ready? && r.value.Ok? ==> 0 < r.value.value == |s.future.value.chunk|
  {
  }

  // ---- Runs of the sender ----

  datatype World = World(s: Sender, given: seq<byte>, accepted: seq<byte>)

  datatype Step =
    | StepSendData(data: seq<seq<byte>>)
    | StepPollReady(answers: seq<Answer>)
    | StepPollSend(data: seq<seq<byte>>, answer: Answer)

  ghost function Next(w: World, step: Step): World
    requires OnePlace(w.s)
  {
    match step
    case StepSendData(data) =>
      var (s, taken) := Give(w.s, data);
      World(s, if taken then w.given + Flat(data) else w.given, w.accepted)
    case StepPollReady(answers) =>
      var r := Flush(w.s, answers);
      World(r.sender, w.given, w.accepted + r.accepted)
    case StepPollSend(data, answer) =>
      var r := PollSend(w.s, data, answer);
      if r.None? then w else World(r.value.sender, w.given + r.value.accepted, w.accepted + r.value.accepted)
  }

  ghost predicate Inv(w: World) {
    var holds :=
      OnePlace(w.s) && w.given == w.accepted + w.s.Unsent();
    holds
  }

  lemma {:induction false} StepKeeps(w: World, step: Step)
    requires Inv(w)
    ensures Inv(Next(w, step))
  {
    match step {
      case StepSendData(data) =>
        if w.s.writing.None? {
          assert w.accepted + [] == w.accepted;
        }
      case StepPollReady(answers) =>
        FlushIsExact(w.s, answers);
        assert w.accepted + Flush(w.s, answers).accepted + Flush(w.s, answers).sender.Unsent() == w.given;
      case StepPollSend(data, answer) =>
    }
  }

  ghost predicate Moves(w: World, step: Step, v: World) {
    OnePlace(w.s) && v == Next(w, step)
  }

  function Initial(stream: nat): World { World(Sender(Some(stream), None, None), [], []) }

  ghost predicate Reachable(w: World) {
    exists stream: nat, steps: seq<Step> :: Runs.Leads(Moves, Initial(stream), steps, w)
  }

  lemma {:induction false} ReachableInv(w: World)
    requires Reachable(w)
    ensures Inv(w)
  {
    hide Next, OnePlace;
    var stream: nat, steps: seq<Step> :| Runs.Leads(Moves, Initial(stream), steps, w);
    forall a: World, step: Step, b: World | Inv(a) && Moves(a, step, b) ensures Inv(b) {
      StepKeeps(a, step);
    }
    InitialHolds(stream);
    Runs.Keeps(Moves, Inv, Initial(stream), steps, w);
  }

  lemma {:induction false} InitialHolds(stream: nat)
    ensures Inv(Initial(stream))
  {
  }

  /** Over every run: exactly once, in order, with the stream in one place. */
  lemma {:induction false} ExactlyOnce(w: World)
    requires Reachable(w)
    ensures w.accepted + w.s.Unsent() == w.given
    ensures OnePlace(w.s) && (Unwraps(w.s) <==> w.s.future.None?)
  {
    ReachableInv(w);
  }

  // ---- Where the adapter panics ----

  /** The stream that finishing, resetting and asking for the id unwrap is missing exactly after a poll_ready
      that answered Pending; giving data and polling a send change nothing about that. */
  lemma {:induction false} PanicsOnlyMidWrite(s: Sender, answers: seq<Answer>, data: seq<seq<byte>>, answer: Answer)
    requires OnePlace(s)
    ensures Unwraps(Flush(s, answers).sender) <==> !Flush(s, answers).result.Pending?
    ensures Unwraps(Give(s, data).0) <==> Unwraps(s)
    ensures PollSend(s, data, answer).Some? ==> PollSend(s, data, answer).value.sender == s
  {
    FlushIsExact(s, answers);
  }

  /** A poll_send panics exactly while data is held: given with `send_data`, and not flushed by a poll_ready
      that succeeded since. */
  lemma {:induction false} PollSendPanicsExactlyWhen(w: World, data: seq<seq<byte>>, answer: Answer, answers: seq<Answer>)
    requires Reachable(w)
    ensures PollSend(w.s, data, answer).None? <==> w.s.writing.Some?
    ensures Give(w.s, data).0.writing.Some?
    ensures OnePlace(w.s) && (Flush(w.s, answers).sender.writing.Some? <==> Flush(w.s, answers).result != Ready(Ok(())))
  {
    ReachableInv(w);
    FlushIsExact(w.s, answers);
  }

  /** What an unframed send answers, and how much of the data it takes. */
  lemma {:induction false} PollSendAnswers(s: Sender, data: seq<seq<byte>>, answer: Answer)
    requires s.writing.None? && s.stream.Some?
    ensures var r := PollSend(s, data, answer);
            && r.Some? && (r.value.result.Pending? <==> answer.Blocked?)
            && (r.value.result.Ready? && r.value.result.value.Err? <==> answer.Refused?)
            && (answer.Refused? ==> r.value.result.value.error == answer.error)
            && r.value.accepted <= Front(data) && |r.value.accepted| == if answer.Took? then Min(answer.count, |Front(data)|) else 0
  {
  }

  /** A failed write leaves its data in place: new data is refused until a later poll_ready succeeds. */
  lemma {:induction false} FailureKeepsTheData(s: Sender, answers: seq<Answer>, data: seq<seq<byte>>)
    requires OnePlace(s)
    ensures Give(Flush(s, answers).sender, data).1 <==> Flush(s, answers).result == Ready(Ok(()))
  {
    FlushIsExact(s, answers);
  }

  /** One byte is given, and its write is answered so. */
  lemma {:induction false} ReachOneWrite(answer: Answer) returns (w: World)
    requires !answer.Took?
    ensures Reachable(w) && w.s.writing == Some([[7]]) && (w.s.stream.None? <==> answer.Blocked?)
    ensures w.given == [7] && w.accepted == []
  {
    var first, second := StepSendData([[7]]), StepPollReady([answer]);
    var v := Next(Initial(0), first);
    assert v.s == Sender(Some(0), None, Some([[7]])) && v.given == [7] && v.accepted == [] by { FlatSingle<byte>([7]); }
    OneWrite(v.s, answer);
    w := Next(v, second);
    hide Next;
    Runs.One(Moves, Initial(0), first, v);
    Runs.Then(Moves, Initial(0), [first], v, second, w);
  }

  lemma {:induction false} OneWrite(s: Sender, answer: Answer)
    requires s == Sender(Some(0), None, Some([[7]])) && !answer.Took?
    ensures OnePlace(s) && Flush(s, [answer]).accepted == []
    ensures Flush(s, [answer]).sender.writing == Some([[7]])
    ensures Flush(s, [answer]).sender.stream.None? <==> answer.Blocked?
  {
    FlatSingle<byte>([7]);
    assert Front(s.writing.value) == [7];
    assert Advanced([[7]], 0) == [[7]];
  }

  /** It happens: in the middle of a write, finishing, resetting and asking for the id panic. */
  lemma {:induction false} MidWritePanics() returns (w: World)
    ensures Reachable(w) && !Unwraps(w.s)
  {
    hide Reachable;
    w := ReachOneWrite(Blocked);
  }

  /** It happens: after a failed write, new data is refused and `poll_send` panics. */
  lemma {:induction false} FailedWriteBlocks(error: nat, data: seq<seq<byte>>, answer: Answer) returns (w: World)
    ensures Reachable(w) && Unwraps(w.s) && !Give(w.s, data).1 && PollSend(w.s, data, answer).None?
  {
    hide Reachable;
    w := ReachOneWrite(Refused(error));
  }

  /** The rest of a flush, `accepted` bytes in, gives the whole. */
  ghost predicate Continues(whole: SendPoll, s: Sender, accepted: seq<byte>, answers: seq<Answer>) {
    && OnePlace(s)
    && var r := Flush(s, answers);
       whole.sender == r.sender && whole.result == r.result && whole.accepted == accepted + r.accepted
  }

  lemma {:induction false} StartContinues(s: Sender, answers: seq<Answer>)
    requires OnePlace(s)
    ensures Continues(Flush(s, answers), s, [], answers)
  {
  }

  lemma {:induction false} RoundContinues(whole: SendPoll, s: Sender, accepted: seq<byte>, answers: seq<Answer>)
    requires Continues(whole, s, accepted, answers) && s.Unsent() != [] && answers != [] && answers[0].Took?
    ensures var n := Min(answers[0].count, |Front(s.writing.value)|);
            Continues(whole, Returned(s, n), accepted + Front(s.writing.value)[..n], answers[1..])
  {
    var n := Min(answers[0].count, |Front(s.writing.value)|);
    FlushRound(s, answers);
    hide Launched, Returned, Front, Flush;
    Associates(accepted, Front(s.writing.value)[..n], Flush(Returned(s, n), answers[1..]).accepted);
  }

  lemma {:induction false} FlushRound(s: Sender, answers: seq<Answer>)
    requires OnePlace(s) && s.Unsent() != [] && answers != [] && answers[0].Took?
    ensures var n := Min(answers[0].count, |Front(s.writing.value)|);
            var rest := Flush(Returned(s, n), answers[1..]);
            Flush(s, answers) == SendPoll(rest.sender, rest.result, Front(s.writing.value)[..n] + rest.accepted, 1 + rest.used)
  {
    hide Launched, Returned, Front;
  }

  lemma {:induction false} Associates(a: seq<byte>, b: seq<byte>, c: seq<byte>)
    ensures a + (b + c) == (a + b) + c
  {
  }

  lemma {:induction false} LastRound(whole: SendPoll, s: Sender, accepted: seq<byte>, answers: seq<Answer>)
    requires Continues(whole, s, accepted, answers) && s.Unsent() != [] && (answers == [] || !answers[0].Took?)
    ensures whole.accepted == accepted
    ensures if answers != [] && answers[0].Refused? then whole.sender == Returned(s, 0) && whole.result == Ready(Err(answers[0].error))
            else whole.sender == Launched(s) && whole.result == Pending
  {
    hide Launched, Returned, Front;
  }

  lemma {:induction false} AllWritten(whole: SendPoll, s: Sender, accepted: seq<byte>, answers: seq<Answer>)
    requires Continues(whole, s, accepted, answers) && s.Unsent() == []
    ensures whole == SendPoll(s.(writing := None), Ready(Ok(())), accepted, whole.used)
  {
  }

  /** `SendStream`. */
  class SendStream {
    var stream: Option<nat>
    var writing: Option<seq<seq<byte>>>
    var writeFut: Option<Write>

    ghost function View(): Sender
      reads this
    {
      Sender(stream, writeFut, writing)
    }

    constructor (stream: nat)
      ensures View() == Sender(Some(stream), None, None) && OnePlace(View())
    {
      this.stream, writing, writeFut := Some(stream), None, None;
    }

    /** Move the stream into a new write of the front chunk, unless one is under way. */
    method Launch()
      requires OnePlace(View()) && View().Unsent() != []
      modifies this`stream, this`writeFut
      ensures View() == Launched(old(View()))
    {
      if stream.Some? {
        writeFut := Some(Write(stream.value, Front(writing.value)));
        stream := None;
      }
    }

    /** Move the stream back, and the data forward. */
    method TakeBack(ghost s: Sender, count: nat)
      requires OnePlace(s) && s.Unsent() != [] && View() == Launched(s) && count <= |Front(s.writing.value)|
      modifies this
      ensures View() == Returned(s, count)
    {
      stream := Some(writeFut.value.stream);
      writeFut := None;
      writing := Some(Advanced(writing.value, count));
    }

    /** `answers` is what the successive polls of the write futures answer; Pending once they run out. */
    method PollReady(answers: seq<Answer>) returns (r: Poll<Result<(), nat>>, accepted: seq<byte>)
      requires OnePlace(View())
      modifies this
      ensures var p := Flush(old(View()), answers); (View(), r, accepted) == (p.sender, p.result, p.accepted)
    {
      hide Launched, Returned, Front, Advanced, Continues;
      ghost var whole := Flush(View(), answers);
      StartContinues(View(), answers);
      accepted := [];
      var i := 0;
      assert answers[0..] == answers;
      if writing.Some? {
        while Front(writing.value) != []
          invariant 0 <= i <= |answers| && writing.Some? && OnePlace(View())
          invariant Continues(whole, View(), accepted, answers[i..])
          decreases |answers| - i
        {
          ghost var s := View();
          Launch();
          if i == |answers| || answers[i].Blocked? {
            LastRound(whole, s, accepted, answers[i..]);
            return Pending, accepted;
          }
          var n := if answers[i].Took? then Min(answers[i].count, |Front(writing.value)|) else 0;
          var taken := Front(writing.value)[..n];
          TakeBack(s, n);
          if answers[i].Refused? {
            LastRound(whole, s, accepted, answers[i..]);
            return Ready(Err(answers[i].error)), accepted;
          }
          RoundContinues(whole, s, accepted, answers[i..]);
          assert answers[i..][1..] == answers[i + 1..];
          accepted := accepted + taken;
          i := i + 1;
        }
      }
      AllWritten(whole, View(), accepted, answers[i..]);
      writing := None;
      r := Ready(Ok(()));
    }

    method SendData(data: seq<seq<byte>>) returns (ok: bool)
      modifies this`writing
      ensures (View(), ok) == Give(old(View()), data)
    {
      if writing.Some? {
        return false;
      }
      writing := Some(data);
      ok := true;
    }
  }

  // ---- RecvStream ----

  datatype ChunkAnswer = Waiting | Got(chunk: Option<Chunk>) | Failed(error: nat)

  /** `stream` is None exactly while a read is under way in the future. */
  datatype Receiver = Receiver(stream: Option<nat>, future: Option<nat>)

  /** `poll_data`: take the stream, read a chunk, put the stream back, and drop a bare end of stream. */
  function TakeChunk(r: Receiver, answer: ChunkAnswer): (Receiver, Poll<Result<Option<Chunk>, nat>>)
    requires r.stream.Some? <==> r.future.None?
    requires answer.Got? && answer.chunk.Some? ==> answer.chunk.value.Valid()
  {
    var id := if r.stream.Some? then r.stream.value else r.future.value;
    match answer
    case Waiting => (Receiver(None, Some(id)), Pending)
    case Failed(e) => (Receiver(Some(id), None), Ready(Err(e)))
    case Got(None) => (Receiver(Some(id), None), Ready(Ok(None)))
    case Got(Some(c)) =>
      (Receiver(Some(id), None), Ready(Ok(if c.Unread() != [] || !c.fin then Some(c) else None)))
  }

  function BytesOf(c: Option<Chunk>): seq<byte>
    requires c.Some? ==> c.value.Valid()
  {
    if c.Some? then c.value.Unread() else []
  }

  ghost predicate Genuine(answers: seq<ChunkAnswer>) {
    forall i :: 0 <= i < |answers| ==> answers[i].Got? && answers[i].chunk.Some? ==> answers[i].chunk.value.Valid()
  }

  /** The receiver after a series of polls. */
  function AfterReads(r: Receiver, answers: seq<ChunkAnswer>): (t: Receiver)
    requires r.stream.Some? <==> r.future.None?
    requires Genuine(answers)
    ensures t.stream.Some? <==> t.future.None?
  {
    if answers == [] then r else TakeChunk(AfterReads(r, answers[..|answers| - 1]), answers[|answers| - 1]).0
  }

  /** The stream that `stop_sending` and `recv_id` unwrap is missing exactly while a read is under way, that is
      after a poll_data that answered Pending, and otherwise it is the one it was. */
  lemma {:induction false} RecvPanicsExactlyWhen(stream: nat, answers: seq<ChunkAnswer>)
    requires Genuine(answers)
    ensures var r := AfterReads(Receiver(Some(stream), None), answers);
            && (r.stream.None? <==> answers != [] && answers[|answers| - 1].Waiting?)
            && (if r.stream.Some? then r == Receiver(Some(stream), None) else r == Receiver(None, Some(stream)))
  {
    if answers != [] {
      var n := |answers| - 1;
      RecvPanicsExactlyWhen(stream, answers[..n]);
      var r := AfterReads(Receiver(Some(stream), None), answers[..n]);
      hide AfterReads;
      match answers[n]
      case Waiting =>
      case Failed(_) =>
      case Got(None) =>
      case Got(Some(_)) =>
    }
  }

  /** The stream has ended for the reader: there is no chunk, or an empty final one. */
  predicate CleanEnd(answer: ChunkAnswer)
    requires answer.Got? && answer.chunk.Some? ==> answer.chunk.value.Valid()
  {
    answer.Got? && (answer.chunk == None || (answer.chunk.value.fin && answer.chunk.value.Unread() == []))
  }

  /** The filter hides no byte, and ends the body exactly at an empty final chunk or at no chunk at all; a failed
      read is reported, and only a read under way is waited for. */
  lemma {:induction false} FilterDropsNoByte(r: Receiver, answer: ChunkAnswer)
    requires r.stream.Some? <==> r.future.None?
    requires answer.Got? && answer.chunk.Some? ==> answer.chunk.value.Valid()
    ensures var (t, p) := TakeChunk(r, answer);
            && (t.stream.Some? <==> t.future.None?) && (p.Pending? <==> t.stream.None?)
            && (p.Pending? <==> answer.Waiting?)
            && (p.Ready? && p.value.Err? <==> answer.Failed?) && (answer.Failed? ==> p.value.error == answer.error)
            && (answer.Got? ==>
                  && (p.value.value.Some? ==> p.value.value.value.Valid())
                  && BytesOf(p.value.value) == BytesOf(answer.chunk)
                  && (p.value.value == None <==> CleanEnd(answer)))
  {
  }

  /** What a series of polls of a new receiver answers. */
  function Answered(stream: nat, answers: seq<ChunkAnswer>): (ps: seq<Poll<Result<Option<Chunk>, nat>>>)
    requires Genuine(answers)
    ensures |ps| == |answers|
  {
    if answers == [] then []
    else
      var n := |answers| - 1;
      Answered(stream, answers[..n]) + [TakeChunk(AfterReads(Receiver(Some(stream), None), answers[..n]), answers[n]).1]
  }

  /** Over any series of polls the k-th one hands over exactly the bytes of the k-th read, fails exactly if that
      read failed, with its error, and ends the body exactly at a clean end of the stream. */
  lemma {:induction false} BodyIsExact(stream: nat, answers: seq<ChunkAnswer>, k: nat)
    requires Genuine(answers) && k < |answers|
    ensures var p := Answered(stream, answers)[k];
            && (p.Ready? && p.value.Err? <==> answers[k].Failed?) && (answers[k].Failed? ==> p.value.error == answers[k].error)
            && (p == Ready(Ok(None)) <==> CleanEnd(answers[k]))
            && (p.Ready? && p.value.Ok? <==> answers[k].Got?)
            && (answers[k].Got? ==> (p.value.value.Some? ==> p.value.value.value.Valid()) && BytesOf(p.value.value) == BytesOf(answers[k].chunk))
  {
    var n := |answers| - 1;
    if k < n {
      BodyIsExact(stream, answers[..n], k);
      assert answers[..n][k] == answers[k];
    } else {
      FilterDropsNoByte(AfterReads(Receiver(Some(stream), None), answers[..n]), answers[n]);
    }
  }

  /** `RecvStream`. */
  class RecvStream {
    var stream: Option<nat>
    var readChunkFut: Option<nat>

    ghost function View(): Receiver
      reads this
    {
      Receiver(stream, readChunkFut)
    }

    constructor (stream: nat)
      ensures View() == Receiver(Some(stream), None)
    {
      this.stream, readChunkFut := Some(stream), None;
    }

    method PollData(answer: ChunkAnswer) returns (r: Poll<Result<Option<Chunk>, nat>>)
      requires stream.Some? <==> readChunkFut.None?
      requires answer.Got? && answer.chunk.Some? ==> answer.chunk.value.Valid()
      modifies this
      ensures (View(), r) == TakeChunk(old(View()), answer)
    {
      if stream.Some? {
        readChunkFut := stream;
        stream := None;
      }
      if answer.Waiting? {
        return Pending;
      }
      stream := readChunkFut;
      readChunkFut := None;
      match answer {
        case Failed(e) => r := Ready(Err(e));
        case Got(None) => r := Ready(Ok(None));
        case Got(Some(c)) => r := Ready(Ok(if c.Unread() == [] && c.fin then None else Some(c)));
      }
    }
  }
}
