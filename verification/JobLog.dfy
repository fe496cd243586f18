/**
 The log of a job: bytes read from the job pass through a receive buffer and an
 unflushed buffer into a file that may refuse to open, write short or fail
 (init/log.c:203-265, init/log.c:312-353, init/log.c:400-460, init/log.c:516-711).
 */
module JobLog {

  type Byte = x: int | 0 <= x < 256

  /** The two kinds of failure the program tells apart. */
  datatype Errno = NoSpace | OtherError

  datatype OpenResult = Opened | OpenFailed(why: Errno)

  /** A write takes some of the bytes it is offered, or fails. */
  datatype WriteResult = Wrote(n: nat) | WriteFailed(why: Errno)

  /** What the system answers during one call of the reader. */
  datatype Answers = Answers(linked: bool, opening: OpenResult, first: WriteResult, second: WriteResult)

  datatype ReadResult = Data(bytes: seq<Byte>) | EndOfFile | Interrupted | WouldBlock | ReadError

  datatype Turn = Turn(read: ReadResult, answers: Answers)

  /** A stretch of the job's output, from one position up to another. */
  datatype Span = Span(from: int, to: int)

  /**
   written: every byte appended to the log file so far, oldest first. The last three are
   kept for the statement of properties only: every byte read from the job so far, the
   stretch each read brought, and the stretches that were discarded.
   */
  datatype State = State(written: seq<Byte>, unflushed: seq<Byte>, recv: seq<Byte>, isOpen: bool, remoteClosed: bool,
                         taken: seq<Byte>, spans: seq<Span>, drops: seq<Span>)

  /** The job's output, wherever it is now. */
  function Stream(s: State): seq<Byte> { s.written + s.unflushed + s.recv }

  function Amount(n: nat, len: nat): (k: nat)
    ensures k <= len
  {
    if n <= len then n else len
  }

  /** log_file_open */
  function AfterOpen(s: State, a: Answers): State {
    if s.isOpen && a.linked then s else s.(isOpen := a.opening.Opened?)
  }

  /** The unflushed data has been written out in full. */
  predicate Flushed(s: State, a: Answers) {
    s.unflushed == [] || (a.first.Wrote? && a.first.n >= |s.unflushed|)
  }

  /** The state after the unflushed data has been offered to the file. */
  function AfterFlush(s: State, a: Answers): State {
    if s.unflushed == [] || a.first.WriteFailed? then s
    else
      var k := Amount(a.first.n, |s.unflushed|);
      s.(written := s.written + s.unflushed[..k], unflushed := s.unflushed[k..])
  }

  /** log_file_write; useBuf says whether the receive buffer is to be written as well. */
  function AfterWrite(s: State, useBuf: bool, a: Answers): State {
    var len := if useBuf then |s.recv| else 0;
    var s1 := AfterFlush(s, a);
    if s.unflushed != [] && a.first.WriteFailed? then
      var kept := if len > 0 && a.first.why.OtherError? then s1.unflushed + s1.recv else s1.unflushed;
      s1.(unflushed := kept, recv := if len > 0 then [] else s1.recv, isOpen := false)
    else if s1.unflushed != [] then
      if len == 0 then s1.(isOpen := false)
      else s1.(unflushed := s1.unflushed + s1.recv, recv := [], isOpen := false)
    else if len == 0 then s1
    else AfterNewData(s1, a)
  }

  /** The new data offered to the file, when nothing is left unflushed. */
  function AfterNewData(s: State, a: Answers): State {
    if a.second.WriteFailed? then
      s.(unflushed := if a.second.why.OtherError? then s.recv else [], recv := [], isOpen := false)
    else
      var k := Amount(a.second.n, |s.recv|);
      s.(written := s.written + s.recv[..k], recv := s.recv[k..])
  }

  predicate WriteSucceeds(s: State, useBuf: bool, a: Answers) {
    Flushed(s, a) && (!useBuf || s.recv == [] || a.second.Wrote?)
  }

  /** log_io_reader on the whole receive buffer */
  function AfterReader(s: State, a: Answers): State {
    var s1 := AfterOpen(s, a);
    if !s1.isOpen then
      s1.(unflushed := if a.opening == OpenFailed(NoSpace) then s1.unflushed else s1.unflushed + s1.recv, recv := [])
    else AfterWrite(s1, true, a)
  }

  /** The reader was told that the file system is full while new data was at stake. */
  predicate Discards(s: State, a: Answers) {
    if !AfterOpen(s, a).isOpen then s.recv != [] && a.opening == OpenFailed(NoSpace)
    else WriteDiscards(s, true, a)
  }

  // ---- One call ----

  /** The reader keeps the stream as it is; a full file system removes exactly the receive buffer. */
  lemma ReaderKeepsStream(s: State, a: Answers)
    ensures Stream(AfterReader(s, a)) == if Discards(s, a) then s.written + s.unflushed else Stream(s)
    ensures s.written <= AfterReader(s, a).written
  {
    var s1 := AfterOpen(s, a);
    if s1.isOpen {
      WriteKeepsStream(s1, true, a);
    } else {
      assert s.written + (s.unflushed + s.recv) + [] == Stream(s);
    }
  }

  /** log_file_write was told that the file system is full while new data was at stake. */
  predicate WriteDiscards(s: State, useBuf: bool, a: Answers) {
    && useBuf && s.recv != []
    && if s.unflushed != [] && a.first.WriteFailed? then a.first.why.NoSpace?
       else Flushed(s, a) && a.second == WriteFailed(NoSpace)
  }

  lemma FlushKeepsStream(s: State, a: Answers)
    ensures var s1 := AfterFlush(s, a);
            && s1.written + s1.unflushed == s.written + s.unflushed && s.written <= s1.written
            && s1.recv == s.recv && s1.isOpen == s.isOpen && s1.remoteClosed == s.remoteClosed
            && (s1.unflushed == [] <==> Flushed(s, a))
  {
    if s.unflushed != [] && a.first.Wrote? {
      var k := Amount(a.first.n, |s.unflushed|);
      assert s.unflushed == s.unflushed[..k] + s.unflushed[k..];
    }
  }

  lemma NewDataKeepsStream(s: State, a: Answers)
    requires s.unflushed == []
    ensures Stream(AfterNewData(s, a)) == if a.second == WriteFailed(NoSpace) then s.written else Stream(s)
    ensures s.written <= AfterNewData(s, a).written
  {
    if a.second.Wrote? {
      var k := Amount(a.second.n, |s.recv|);
      assert s.recv == s.recv[..k] + s.recv[k..];
    }
  }

  lemma WriteKeepsStream(s: State, useBuf: bool, a: Answers)
    ensures Stream(AfterWrite(s, useBuf, a)) == if WriteDiscards(s, useBuf, a) then s.written + s.unflushed
            else Stream(s)
    ensures s.written <= AfterWrite(s, useBuf, a).written
  {
    hide AfterFlush, AfterNewData;
    FlushKeepsStream(s, a);
    var s1 := AfterFlush(s, a);
    if s.unflushed != [] && a.first.WriteFailed? {
      FlushFailed(s, a);
      Regrouped(s1.written, s1.unflushed, s1.recv);
    } else if s1.unflushed != [] {
      Regrouped(s1.written, s1.unflushed, s1.recv);
    } else if useBuf && s1.recv != [] {
      NewDataKeepsStream(s1, a);
      assert s1.written + [] == s1.written;
    }
  }

  lemma FlushFailed(s: State, a: Answers)
    requires s.unflushed != [] && a.first.WriteFailed?
    ensures AfterFlush(s, a) == s
  {
  }

  lemma Regrouped(x: seq<Byte>, y: seq<Byte>, z: seq<Byte>)
    ensures x + (y + z) + [] == x + y + z && x + y + [] == x + y
  {
  }

  // ---- What the file takes ----

  /** A call of write: what it is offered and what the system answers. */
  datatype Call = Call(offered: seq<Byte>, answer: WriteResult)

  function Accepted(c: Call): seq<Byte> {
    if c.answer.WriteFailed? then [] else if c.answer.n < |c.offered| then c.offered[..c.answer.n] else c.offered
  }

  /** The call took all it was offered. */
  predicate Whole(c: Call) { c.answer.Wrote? && c.answer.n >= |c.offered| }

  function AllAccepted(calls: seq<Call>): seq<Byte>
    decreases |calls|
  {
    if calls == [] then [] else AllAccepted(calls[..|calls| - 1]) + Accepted(calls[|calls| - 1])
  }

  /** The calls log_file_write makes: old data first, and new data only if no old data is left. */
  function WriteCalls(s: State, useBuf: bool, a: Answers): seq<Call> {
    var old_ := if s.unflushed == [] then [] else [Call(s.unflushed, a.first)];
    if useBuf && s.recv != [] && (old_ == [] || Whole(old_[0])) then old_ + [Call(s.recv, a.second)] else old_
  }

  lemma {:induction false} AcceptedJoined(a: seq<Call>, b: seq<Call>)
    ensures AllAccepted(a + b) == AllAccepted(a) + AllAccepted(b)
    decreases |b|
  {
    hide Accepted;
    if b == [] {
      assert a + b == a;
      assert AllAccepted(a) + [] == AllAccepted(a);
    } else {
      var init, last := b[..|b| - 1], Accepted(b[|b| - 1]);
      assert (a + b)[..|a + b| - 1] == a + init;
      AcceptedJoined(a, init);
      Associates(AllAccepted(a), AllAccepted(init), last);
    }
  }

  lemma OneAccepted(c: Call)
    ensures AllAccepted([c]) == Accepted(c)
  {
    assert [c][..0] == [];
  }

  /** No call failed, and no old data is left behind. */
  predicate Went(s: State, useBuf: bool, a: Answers) {
    var calls := WriteCalls(s, useBuf, a);
    (forall i :: 0 <= i < |calls| ==> calls[i].answer.Wrote?) && (s.unflushed != [] ==> Whole(calls[0]))
  }

  /**
   The file has grown by exactly what the calls took, from the front of what was there. What they
   left stays in order: with the new data in the receive buffer if all went well; else it is the
   unflushed data, the receive buffer is empty and the file is closed.
   */
  ghost predicate Takes(s: State, r: State, useBuf: bool, a: Answers, took: seq<Byte>) {
    var went := Went(s, useBuf, a);
    && r.written == s.written + took && r.isOpen == (s.isOpen && went)
    && (went ==> r.unflushed == [] && took + r.recv == s.unflushed + s.recv)
    && (!went && !useBuf ==> r.recv == s.recv && took + r.unflushed == s.unflushed)
    && (!went && useBuf ==>
          && r.recv == []
          && took + r.unflushed == if WriteDiscards(s, useBuf, a) then s.unflushed else s.unflushed + s.recv)
  }

  /** log_file_write */
  lemma WriteAccepts(s: State, useBuf: bool, a: Answers)
    ensures Takes(s, AfterWrite(s, useBuf, a), useBuf, a, AllAccepted(WriteCalls(s, useBuf, a)))
    ensures Went(s, useBuf, a) <==> WriteSucceeds(s, useBuf, a)
  {
    hide AfterWrite, AllAccepted, Takes;
    WentWhen(s, useBuf, a);
    if s.unflushed != [] && !Whole(Call(s.unflushed, a.first)) {
      OldDataStays(s, useBuf, a);
    } else {
      NewDataFollows(s, useBuf, a);
    }
  }

  lemma OldDataStays(s: State, useBuf: bool, a: Answers)
    requires s.unflushed != [] && !Whole(Call(s.unflushed, a.first))
    ensures Takes(s, AfterWrite(s, useBuf, a), useBuf, a, AllAccepted(WriteCalls(s, useBuf, a)))
  {
    hide AfterNewData, AfterFlush, AllAccepted;
    FlushAccepts(s, a);
    OneAccepted(Call(s.unflushed, a.first));
    Associates(Accepted(Call(s.unflushed, a.first)), AfterFlush(s, a).unflushed, s.recv);
  }

  lemma Associates(x: seq<Byte>, y: seq<Byte>, z: seq<Byte>)
    ensures x + (y + z) == x + y + z
  {
  }

  /** All went well exactly if the old data, if any, was taken as a whole and the new data did not fail. */
  lemma WentWhen(s: State, useBuf: bool, a: Answers)
    ensures Went(s, useBuf, a) <==>
              && (s.unflushed == [] || Whole(Call(s.unflushed, a.first)))
              && (useBuf && s.recv != [] ==> a.second.Wrote?)
    ensures Went(s, useBuf, a) <==> WriteSucceeds(s, useBuf, a)
  {
    var calls := WriteCalls(s, useBuf, a);
    if s.unflushed != [] {
      assert calls[0] == Call(s.unflushed, a.first);
      if Whole(calls[0]) && useBuf && s.recv != [] { assert calls[1] == Call(s.recv, a.second); }
    } else if useBuf && s.recv != [] {
      assert calls[0] == Call(s.recv, a.second);
    }
  }

  lemma NewDataFollows(s: State, useBuf: bool, a: Answers)
    requires s.unflushed == [] || Whole(Call(s.unflushed, a.first))
    ensures Takes(s, AfterWrite(s, useBuf, a), useBuf, a, AllAccepted(WriteCalls(s, useBuf, a)))
  {
    hide AfterNewData, AfterFlush, AllAccepted, Accepted, Went;
    var s1, old_, new_ := AfterFlush(s, a), Call(s.unflushed, a.first), Call(s.recv, a.second);
    FlushAccepts(s, a);
    WentWhen(s, useBuf, a);
    OneAccepted(old_);
    OneAccepted(new_);
    NothingAccepted();
    if useBuf && s.recv != [] {
      NewDataTaken(s, a);
    } else {
      assert s.written + [] == s.written && [] + s.recv == s.recv;
    }
  }

  lemma NewDataTaken(s: State, a: Answers)
    requires s.unflushed == [] || Whole(Call(s.unflushed, a.first))
    requires s.recv != []
    ensures Takes(s, AfterWrite(s, true, a), true, a, AllAccepted(WriteCalls(s, true, a)))
  {
    hide AfterNewData, AfterFlush, AllAccepted, Accepted, Went, WriteCalls;
    var s1, old_, new_ := AfterFlush(s, a), Call(s.unflushed, a.first), Call(s.recv, a.second);
    FlushAccepts(s, a);
    NewDataAccepts(s1, a);
    WentWhen(s, true, a);
    var r, first := AfterNewData(s1, a), if s.unflushed == [] then [] else Accepted(old_);
    assert AfterWrite(s, true, a) == r;
    assert AllAccepted(WriteCalls(s, true, a)) == first + Accepted(new_) by { BothCalls(s, a); }
    Associates(first, Accepted(new_), r.recv);
    Associates(s.written, first, Accepted(new_));
    Associates(first, Accepted(new_), r.unflushed);
    assert s.unflushed == first && s1.written == s.written + first by { WholeTaken(old_); }
    if a.second.WriteFailed? {
      NoneTaken(new_);
      assert first + [] == first;
    }
  }

  lemma WholeTaken(c: Call)
    ensures Whole(c) ==> Accepted(c) == c.offered
  {
  }

  lemma NoneTaken(c: Call)
    requires c.answer.WriteFailed?
    ensures Accepted(c) == []
  {
  }

  lemma BothCalls(s: State, a: Answers)
    requires s.recv != [] && (s.unflushed == [] || Whole(Call(s.unflushed, a.first)))
    ensures AllAccepted(WriteCalls(s, true, a)) ==
            (if s.unflushed == [] then [] else Accepted(Call(s.unflushed, a.first))) + Accepted(Call(s.recv, a.second))
  {
    hide AllAccepted, Accepted;
    var old_, new_ := Call(s.unflushed, a.first), Call(s.recv, a.second);
    OneAccepted(old_);
    OneAccepted(new_);
    AcceptedJoined([old_], [new_]);
    assert [] + [new_] == [new_] && [] + Accepted(new_) == Accepted(new_);
  }

  lemma NothingAccepted()
    ensures AllAccepted([]) == []
  {
  }

  lemma FlushAccepts(s: State, a: Answers)
    ensures var r, c := AfterFlush(s, a), Call(s.unflushed, a.first);
            && r == s.(written := r.written, unflushed := r.unflushed)
            && (s.unflushed == [] ==> r == s)
            && (s.unflushed != [] ==> r.written == s.written + Accepted(c) && Accepted(c) + r.unflushed == s.unflushed)
            && (r.unflushed == [] <==> s.unflushed == [] || Whole(c))
  {
    if s.unflushed != [] && a.first.Wrote? {
      var k := if a.first.n <= |s.unflushed| then a.first.n else |s.unflushed|;
      assert s.unflushed == s.unflushed[..k] + s.unflushed[k..];
    }
  }

  lemma NewDataAccepts(s: State, a: Answers)
    ensures var r, c := AfterNewData(s, a), Call(s.recv, a.second);
            && r.written == s.written + Accepted(c)
            && (a.second.Wrote? ==>
                 r.unflushed == s.unflushed && r.isOpen == s.isOpen && Accepted(c) + r.recv == s.recv)
            && (a.second.WriteFailed? ==>
                  r.recv == [] && !r.isOpen && r.unflushed == (if a.second.why.NoSpace? then [] else s.recv))
  {
    if a.second.Wrote? {
      var k := if a.second.n <= |s.recv| then a.second.n else |s.recv|;
      assert s.recv == s.recv[..k] + s.recv[k..];
    }
  }

  // ---- Whole runs ----

  function Received(s: State, bytes: seq<Byte>): State {
    var spans := if bytes == [] then s.spans else s.spans + [Span(|s.taken|, |s.taken| + |bytes|)];
    s.(recv := s.recv + bytes, taken := s.taken + bytes, spans := spans)
  }

  /** The stretch of the output that is in the receive buffer. */
  function Buffered(s: State): Span { Span(|s.taken| - |s.recv|, |s.taken|) }

  /** Data arrives and is handed to the reader. */
  function AfterArrival(s: State, bytes: seq<Byte>, a: Answers): State {
    var s1 := Received(s, bytes);
    if s1.recv == [] then s1
    else AfterReader(s1, a).(drops := if Discards(s1, a) then s1.drops + [Buffered(s1)] else s1.drops)
  }

  function BytesOf(r: ReadResult): seq<Byte> { if r.Data? then r.bytes else [] }

  /** The loop of log_read_watch goes on after this read. */
  predicate GoesOn(r: ReadResult) { (r.Data? && r.bytes != []) || r.Interrupted? }

  /** log_read_watch, for the reads the system makes of it */
  function AfterReads(s: State, turns: seq<Turn>): State
    decreases |turns|
  {
    if turns == [] then s
    else
      var s1 := AfterArrival(s, BytesOf(turns[0].read), turns[0].answers);
      if GoesOn(turns[0].read) then AfterReads(s1, turns[1..])
      else s1.(remoteClosed := s1.remoteClosed || turns[0].read.ReadError?, isOpen := false)
  }

  /** log_flush */
  function AfterFlushAll(s: State, a: Answers, turns: seq<Turn>): State {
    var s1 := if s.unflushed == [] then s else AfterOpen(s, a);
    if s.unflushed != [] && !s1.isOpen then s1
    else
      var s2 := if s.unflushed == [] then s1 else AfterWrite(s1, false, a);
      if s.unflushed != [] && !WriteSucceeds(s1, false, a) then s2.(isOpen := false)
      else
        var s3 := if s2.remoteClosed then s2 else AfterReads(s2, turns);
        s3.(isOpen := false)
  }

  datatype Step = Arrives(bytes: seq<Byte>, answers: Answers) | Flushes(answers: Answers, turns: seq<Turn>)

  function After(s: State, step: Step): State {
    match step
    case Arrives(bytes, a) => AfterArrival(s, bytes, a)
    case Flushes(a, turns) => AfterFlushAll(s, a, turns)
  }

  function Run(s: State, steps: seq<Step>): State
    decreases |steps|
  {
    if steps == [] then s else After(Run(s, steps[..|steps| - 1]), steps[|steps| - 1])
  }

  const NEW_LOG := State([], [], [], false, false, [], [], [])

  // ---- What the file has taken over a run ----

  function ReaderCalls(s: State, a: Answers): seq<Call> {
    if AfterOpen(s, a).isOpen then WriteCalls(AfterOpen(s, a), true, a) else []
  }

  function ArrivalCalls(s: State, bytes: seq<Byte>, a: Answers): seq<Call> {
    var s1 := Received(s, bytes);
    if s1.recv == [] then [] else ReaderCalls(s1, a)
  }

  function ReadsCalls(s: State, turns: seq<Turn>): seq<Call>
    decreases |turns|
  {
    if turns == [] then []
    else
      var bytes, a := BytesOf(turns[0].read), turns[0].answers;
      ArrivalCalls(s, bytes, a)
        + if GoesOn(turns[0].read) then ReadsCalls(AfterArrival(s, bytes, a), turns[1..]) else []
  }

  /** The calls of a flush: old data first, and what is still to be read only if that went well. */
  function FlushCalls(s: State, a: Answers, turns: seq<Turn>): seq<Call> {
    if s.unflushed == [] then if s.remoteClosed then [] else ReadsCalls(s, turns)
    else
      var s1 := AfterOpen(s, a);
      if !s1.isOpen then []
      else
        WriteCalls(s1, false, a)
          + if !Went(s1, false, a) || s.remoteClosed then [] else ReadsCalls(AfterWrite(s1, false, a), turns)
  }

  function CallsOf(s: State, step: Step): seq<Call> {
    match step
    case Arrives(bytes, a) => ArrivalCalls(s, bytes, a)
    case Flushes(a, turns) => FlushCalls(s, a, turns)
  }

  /** All calls of write made during a run. */
  function RunCalls(s: State, steps: seq<Step>): seq<Call>
    decreases |steps|
  {
    if steps == [] then []
    else RunCalls(s, steps[..|steps| - 1]) + CallsOf(Run(s, steps[..|steps| - 1]), steps[|steps| - 1])
  }

  lemma ArrivalWrites(s: State, bytes: seq<Byte>, a: Answers)
    ensures AfterArrival(s, bytes, a).written == s.written + AllAccepted(ArrivalCalls(s, bytes, a))
  {
    hide AfterWrite, WriteCalls, Went, WriteDiscards;
    NothingAccepted();
    WriteAccepts(AfterOpen(Received(s, bytes), a), true, a);
  }

  lemma {:induction false} ReadsWrite(s: State, turns: seq<Turn>)
    ensures AfterReads(s, turns).written == s.written + AllAccepted(ReadsCalls(s, turns))
    decreases |turns|
  {
    hide AfterArrival, ArrivalCalls, AllAccepted;
    NothingAccepted();
    if turns != [] {
      var bytes, a := BytesOf(turns[0].read), turns[0].answers;
      var s1, calls := AfterArrival(s, bytes, a), ArrivalCalls(s, bytes, a);
      ArrivalWrites(s, bytes, a);
      assert calls + [] == calls;
      if GoesOn(turns[0].read) {
        ReadsWrite(s1, turns[1..]);
        AcceptedJoined(calls, ReadsCalls(s1, turns[1..]));
      }
    }
  }

  lemma FlushWrites(s: State, a: Answers, turns: seq<Turn>)
    ensures AfterFlushAll(s, a, turns).written == s.written + AllAccepted(FlushCalls(s, a, turns))
  {
    hide AfterWrite, AfterReads, ReadsCalls, WriteCalls, AllAccepted, Went, WriteDiscards, WriteSucceeds;
    NothingAccepted();
    if s.unflushed == [] {
      ReadsWrite(s, turns);
    } else {
      var s1 := AfterOpen(s, a);
      var s2, calls := AfterWrite(s1, false, a), WriteCalls(s1, false, a);
      WriteAccepts(s1, false, a);
      WriteKeepsPast(s1, a);
      ReadsWrite(s2, turns);
      AcceptedJoined(calls, ReadsCalls(s2, turns));
      assert calls + [] == calls;
    }
  }

  /** Over every run the file holds exactly what the calls of write took, in the order of the calls. */
  lemma {:induction false} RunWritten(steps: seq<Step>)
    ensures Run(NEW_LOG, steps).written == AllAccepted(RunCalls(NEW_LOG, steps))
    decreases |steps|
  {
    hide After, CallsOf, AllAccepted;
    NothingAccepted();
    if steps != [] {
      var init, last := steps[..|steps| - 1], steps[|steps| - 1];
      RunWritten(init);
      StepWrites(Run(NEW_LOG, init), last);
      AcceptedJoined(RunCalls(NEW_LOG, init), CallsOf(Run(NEW_LOG, init), last));
    }
  }

  lemma StepWrites(s: State, step: Step)
    ensures After(s, step).written == s.written + AllAccepted(CallsOf(s, step))
  {
    hide AfterArrival, AfterFlushAll, ArrivalCalls, FlushCalls, AllAccepted;
    match step
    case Arrives(bytes, a) => ArrivalWrites(s, bytes, a);
    case Flushes(a, turns) => FlushWrites(s, a, turns);
  }

  /** Every call took all it was offered. */
  predicate AllWhole(calls: seq<Call>) { forall i :: 0 <= i < |calls| ==> Whole(calls[i]) }

  /** The file can be opened whenever it has to be. */
  predicate Opens(step: Step) {
    step.answers.opening.Opened?
    && (step.Flushes? ==> forall i :: 0 <= i < |step.turns| ==> step.turns[i].answers.opening.Opened?)
  }

  /** Everything the job has written so far is in the file. */
  predicate UpToDate(s: State) { s.unflushed == [] && s.recv == [] && s.written == s.taken }

  lemma ArrivalUpToDate(s: State, bytes: seq<Byte>, a: Answers)
    requires UpToDate(s) && a.opening.Opened? && AllWhole(ArrivalCalls(s, bytes, a))
    ensures UpToDate(AfterArrival(s, bytes, a))
  {
    hide AfterWrite, AllAccepted, Accepted;
    var s1 := AfterOpen(Received(s, bytes), a);
    if s1.recv != [] {
      var c := Call(s1.recv, a.second);
      assert WriteCalls(s1, true, a) == [c];
      assert Whole([c][0]);
      WriteAccepts(s1, true, a);
      WriteTakes(s1, a);
      OneAccepted(c);
      WholeTaken(c);
    }
  }

  lemma {:induction false} ReadsUpToDate(s: State, turns: seq<Turn>)
    requires UpToDate(s) && AllWhole(ReadsCalls(s, turns))
    requires forall i :: 0 <= i < |turns| ==> turns[i].answers.opening.Opened?
    ensures UpToDate(AfterReads(s, turns))
    decreases |turns|
  {
    hide AfterArrival, ArrivalCalls, Whole;
    if turns != [] {
      var bytes, a := BytesOf(turns[0].read), turns[0].answers;
      var s1, calls := AfterArrival(s, bytes, a), ArrivalCalls(s, bytes, a);
      var later := if GoesOn(turns[0].read) then ReadsCalls(s1, turns[1..]) else [];
      WholeParts(calls, later);
      ArrivalUpToDate(s, bytes, a);
      if GoesOn(turns[0].read) { ReadsUpToDate(s1, turns[1..]); }
    }
  }

  lemma WholeParts(a: seq<Call>, b: seq<Call>)
    requires AllWhole(a + b)
    ensures AllWhole(a) && AllWhole(b)
  {
    forall i | 0 <= i < |a| ensures Whole(a[i]) { assert Whole((a + b)[i]); }
    forall i | 0 <= i < |b| ensures Whole(b[i]) { assert Whole((a + b)[|a| + i]); }
  }

  /**
   If the file can always be opened and every call takes all it is offered, then nothing is
   left behind between two deliveries: the file holds everything read from the job.
   */
  lemma {:induction false} PromptlyWritten(steps: seq<Step>)
    requires AllWhole(RunCalls(NEW_LOG, steps)) && forall i :: 0 <= i < |steps| ==> Opens(steps[i])
    ensures UpToDate(Run(NEW_LOG, steps))
    decreases |steps|
  {
    hide After, CallsOf, Opens, AllWhole;
    if steps != [] {
      var init, last := steps[..|steps| - 1], steps[|steps| - 1];
      WholeParts(RunCalls(NEW_LOG, init), CallsOf(Run(NEW_LOG, init), last));
      PromptlyWritten(init);
      StepUpToDate(Run(NEW_LOG, init), last);
    }
  }

  lemma StepUpToDate(s: State, step: Step)
    requires UpToDate(s) && Opens(step) && AllWhole(CallsOf(s, step))
    ensures UpToDate(After(s, step))
  {
    hide AfterArrival, AfterReads, ArrivalCalls, ReadsCalls, AllWhole;
    match step
    case Arrives(bytes, a) => ArrivalUpToDate(s, bytes, a);
    case Flushes(a, turns) => if !s.remoteClosed { ReadsUpToDate(s, turns); }
  }

  // ---- What is missing ----

  /** The stretches follow one another and end by this position. */
  predicate Gaps(drops: seq<Span>, n: int) {
    && (forall i :: 0 <= i < |drops| ==> 0 <= drops[i].from < drops[i].to <= n)
    && (forall i, j :: 0 <= i < j < |drops| ==> drops[i].to <= drops[j].from)
  }

  /** The output without the stretches. */
  function Kept(taken: seq<Byte>, drops: seq<Span>): seq<Byte>
    requires Gaps(drops, |taken|)
    decreases |drops|
  {
    if drops == [] then taken
    else
      var d := drops[|drops| - 1];
      Kept(taken[..d.from], drops[..|drops| - 1]) + taken[d.to..]
  }

  lemma KeptGrows(taken: seq<Byte>, more: seq<Byte>, drops: seq<Span>)
    requires Gaps(drops, |taken|)
    ensures Gaps(drops, |taken + more|) && Kept(taken + more, drops) == Kept(taken, drops) + more
  {
    if drops != [] {
      var d := drops[|drops| - 1];
      assert (taken + more)[..d.from] == taken[..d.from] && (taken + more)[d.to..] == taken[d.to..] + more;
    }
  }

  /** The reads follow one another without a gap from the beginning to this position. */
  ghost predicate Tiles(spans: seq<Span>, n: int) {
    && (forall i :: 0 <= i < |spans| ==> spans[i].from < spans[i].to <= n)
    && (forall i, j :: 0 <= i < j < |spans| && j == i + 1 ==> spans[i].to == spans[j].from)
    && (if spans == [] then n == 0 else spans[0].from == 0 && spans[|spans| - 1].to == n)
  }

  ghost predicate StartsRead(spans: seq<Span>, at: int) { exists i :: 0 <= i < |spans| && spans[i].from == at }
  ghost predicate EndsRead(spans: seq<Span>, at: int) { exists i :: 0 <= i < |spans| && spans[i].to == at }

  predicate Spacious(a: Answers) {
    a.opening != OpenFailed(NoSpace) && a.first != WriteFailed(NoSpace) && a.second != WriteFailed(NoSpace)
  }

  predicate SpaciousTurns(turns: seq<Turn>) { forall i :: 0 <= i < |turns| ==> Spacious(turns[i].answers) }

  predicate SpaciousStep(step: Step) {
    Spacious(step.answers) && (step.Flushes? ==> SpaciousTurns(step.turns))
  }

  /** The receive buffer is the end of the output. */
  predicate AtTheEnd(s: State) { EndOf(s.recv, s.taken) }

  /** What is written, unflushed and received is the output without the discarded stretches. */
  predicate Accounted(s: State) { Gaps(s.drops, |s.taken| - |s.recv|) && Stream(s) == Kept(s.taken, s.drops) }

  /** Each stretch ended with a read. */
  ghost predicate AllEnd(spans: seq<Span>, drops: seq<Span>) {
    forall i :: 0 <= i < |drops| ==> EndsRead(spans, drops[i].to)
  }

  /**
   Nothing has been reordered, duplicated or invented: what is written, unflushed and
   received is the job's output without the discarded stretches, each of which ended with a
   read; and nothing was discarded unless the file system was full.
   */
  ghost predicate Faithful(s: State, spacious: bool) {
    && AtTheEnd(s) && Accounted(s) && Tiles(s.spans, |s.taken|) && AllEnd(s.spans, s.drops)
    && (spacious ==> s.drops == [])
  }

  lemma TilesGrow(spans: seq<Span>, n: int, m: int)
    requires Tiles(spans, n) && 0 <= n < m
    ensures Tiles(spans + [Span(n, m)], m)
  {
  }

  lemma AllEndGrow(spans: seq<Span>, more: seq<Span>, drops: seq<Span>)
    requires AllEnd(spans, drops)
    ensures AllEnd(spans + more, drops)
  {
    forall i | 0 <= i < |drops| ensures EndsRead(spans + more, drops[i].to) {
      assert EndsRead(spans, drops[i].to);
      var k :| 0 <= k < |spans| && spans[k].to == drops[i].to;
      assert (spans + more)[k].to == drops[i].to;
    }
  }

  lemma ReceivedFaithful(s: State, bytes: seq<Byte>, spacious: bool)
    requires Faithful(s, spacious)
    ensures Faithful(Received(s, bytes), spacious)
  {
    hide Tiles, AllEnd, EndsRead, Kept, Gaps;
    var s1 := Received(s, bytes);
    GapsWithin(s.drops, |s.taken| - |s.recv|, |s.taken|);
    KeptGrows(s.taken, bytes, s.drops);
    assert Stream(s1) == Stream(s) + bytes;
    if bytes != [] {
      TilesGrow(s.spans, |s.taken|, |s.taken| + |bytes|);
      AllEndGrow(s.spans, [Span(|s.taken|, |s.taken| + |bytes|)], s.drops);
    } else {
      assert s.taken + bytes == s.taken && s.recv + bytes == s.recv;
    }
  }

  lemma GapsWithin(drops: seq<Span>, n: int, m: int)
    requires Gaps(drops, n) && n <= m
    ensures Gaps(drops, m)
  {
  }

  /** The record of the past is the same. */
  predicate SamePast(a: State, b: State) {
    b.taken == a.taken && b.spans == a.spans && b.drops == a.drops && b.remoteClosed == a.remoteClosed
  }

  /** The first is the end of the second. */
  predicate EndOf(a: seq<Byte>, b: seq<Byte>) { |a| <= |b| && a == b[|b| - |a|..] }

  lemma EndOfSelf(b: seq<Byte>)
    ensures EndOf(b, b) && EndOf([], b)
  {
  }

  lemma FlushTakes(s: State, a: Answers)
    ensures SamePast(s, AfterFlush(s, a)) && AfterFlush(s, a).recv == s.recv
    ensures AfterFlush(s, a).unflushed == [] <==> Flushed(s, a)
  {
    FlushKeepsStream(s, a);
  }

  lemma NewDataTakes(s: State, a: Answers)
    ensures var r := AfterNewData(s, a);
            && SamePast(s, r) && EndOf(r.recv, s.recv)
            && (a.second.WriteFailed? ==> r.recv == [])
  {
  }

  lemma WriteTakes(s: State, a: Answers)
    ensures var r := AfterWrite(s, true, a);
            && SamePast(s, r) && EndOf(r.recv, s.recv)
            && (WriteDiscards(s, true, a) ==> r.recv == [])
  {
    hide AfterFlush, AfterNewData, EndOf;
    FlushTakes(s, a);
    NewDataTakes(AfterFlush(s, a), a);
    EndOfSelf(s.recv);
  }

  /** The reader takes from the front of the receive buffer, and leaves the record of the past alone. */
  lemma ReaderTakes(s: State, a: Answers)
    ensures var r := AfterReader(s, a);
            && SamePast(s, r) && EndOf(r.recv, s.recv)
            && (Discards(s, a) ==> r.recv == [])
  {
    hide AfterWrite;
    WriteTakes(AfterOpen(s, a), a);
    EndOfSelf(s.recv);
  }

  /** Discarding the end of the output takes just that off what is kept. */
  lemma KeptDiscards(taken: seq<Byte>, end: seq<Byte>, drops: seq<Span>)
    requires EndOf(end, taken) && end != [] && Gaps(drops, |taken| - |end|)
    ensures Gaps(drops, |taken|) && Gaps(drops + [Span(|taken| - |end|, |taken|)], |taken|)
    ensures Kept(taken, drops) == Kept(taken, drops + [Span(|taken| - |end|, |taken|)]) + end
  {
    hide Gaps;
    var m := |taken| - |end|;
    var init, more := taken[..m], drops + [Span(m, |taken|)];
    GapsWithin(drops, m, |taken|);
    GapsAppend(drops, m, |taken|);
    assert init + end == taken;
    KeptGrows(init, end, drops);
    assert more[..|more| - 1] == drops;
    assert Kept(taken, more) == Kept(init, drops) + taken[|taken|..];
    assert taken[|taken|..] == [] && Kept(init, drops) + [] == Kept(init, drops);
  }

  lemma GapsAppend(drops: seq<Span>, m: int, n: int)
    requires Gaps(drops, m) && 0 <= m < n
    ensures Gaps(drops + [Span(m, n)], n)
  {
  }

  /** A full file system removes exactly the receive buffer. */
  lemma DiscardAccounted(s: State, r: State)
    requires AtTheEnd(s) && Accounted(s) && s.recv != []
    requires Stream(r) == s.written + s.unflushed && r.taken == s.taken && r.recv == []
    requires r.drops == s.drops + [Buffered(s)]
    ensures Accounted(r)
  {
    hide Gaps, Kept, EndOf;
    KeptDiscards(s.taken, s.recv, s.drops);
    SameEnd(s.written + s.unflushed, Kept(r.taken, r.drops), s.recv);
  }

  lemma SameEnd(a: seq<Byte>, b: seq<Byte>, c: seq<Byte>)
    requires a + c == b + c
    ensures a == b
  {
    assert |a| == |b| && a == (a + c)[..|a|] && b == (b + c)[..|b|];
  }

  lemma DiscardFaithful(s: State, r: State)
    requires Faithful(s, false) && s.recv != []
    requires Stream(r) == s.written + s.unflushed && r.taken == s.taken && r.spans == s.spans && r.recv == []
    requires r.drops == s.drops + [Buffered(s)]
    ensures Faithful(r, false)
  {
    hide Accounted, EndsRead;
    DiscardAccounted(s, r);
    LastReadEnds(s.spans, |s.taken|);
  }

  lemma LastReadEnds(spans: seq<Span>, n: int)
    requires Tiles(spans, n) && n > 0
    ensures EndsRead(spans, n)
  {
    assert spans[|spans| - 1].to == n;
  }

  lemma ArrivalFaithful(s: State, bytes: seq<Byte>, a: Answers, spacious: bool)
    requires Faithful(s, spacious) && (spacious ==> Spacious(a))
    ensures Faithful(AfterArrival(s, bytes, a), spacious)
  {
    hide AfterReader, Faithful, Discards;
    ReceivedFaithful(s, bytes, spacious);
    var s1, r := Received(s, bytes), AfterArrival(s, bytes, a);
    if s1.recv != [] {
      ReaderKeepsStream(s1, a);
      ReaderTakes(s1, a);
      SpaciousKeeps(s1, a);
      if Discards(s1, a) {
        Unspacious(s1, spacious);
        DiscardFaithful(s1, r);
      } else {
        TakenFaithful(s1, r, spacious);
      }
    }
  }

  lemma SpaciousKeeps(s: State, a: Answers)
    ensures Spacious(a) ==> !Discards(s, a)
  {
  }

  lemma Unspacious(s: State, spacious: bool)
    requires Faithful(s, spacious)
    ensures Faithful(s, false)
  {
  }

  lemma TakenFaithful(s: State, r: State, spacious: bool)
    requires Faithful(s, spacious) && SamePast(s, r) && Stream(r) == Stream(s)
    requires EndOf(r.recv, s.recv)
    ensures Faithful(r, spacious)
  {
    hide Kept, Tiles, AllEnd;
    GapsWithin(s.drops, |s.taken| - |s.recv|, |s.taken| - |r.recv|);
    var k := |s.recv| - |r.recv|;
    assert s.taken[|s.taken| - |s.recv|..][k..] == s.taken[|s.taken| - |r.recv|..];
  }

  lemma {:induction false} ReadsFaithful(s: State, turns: seq<Turn>, spacious: bool)
    requires Faithful(s, spacious) && (spacious ==> SpaciousTurns(turns))
    ensures Faithful(AfterReads(s, turns), spacious)
    decreases |turns|
  {
    hide AfterArrival, Kept, Gaps, Tiles, AllEnd;
    if turns != [] {
      ArrivalFaithful(s, BytesOf(turns[0].read), turns[0].answers, spacious);
      if GoesOn(turns[0].read) {
        ReadsFaithful(AfterArrival(s, BytesOf(turns[0].read), turns[0].answers), turns[1..], spacious);
      }
    }
  }

  lemma FlushAllFaithful(s: State, a: Answers, turns: seq<Turn>, spacious: bool)
    requires Faithful(s, spacious) && (spacious ==> SpaciousTurns(turns))
    ensures Faithful(AfterFlushAll(s, a, turns), spacious)
  {
    hide AfterWrite, AfterReads, Kept, Tiles, AllEnd, Gaps, EndOf;
    var s1 := if s.unflushed == [] then s else AfterOpen(s, a);
    WriteKeepsStream(s1, false, a);
    WriteKeepsPast(s1, a);
    var s2 := if s.unflushed == [] then s1 else AfterWrite(s1, false, a);
    ReadsFaithful(s2, turns, spacious);
  }

  lemma StepFaithful(s: State, step: Step, spacious: bool)
    requires Faithful(s, spacious) && (spacious ==> SpaciousStep(step))
    ensures Faithful(After(s, step), spacious)
  {
    hide Faithful;
    match step
    case Arrives(bytes, a) => ArrivalFaithful(s, bytes, a, spacious);
    case Flushes(a, turns) => FlushAllFaithful(s, a, turns, spacious);
  }

  lemma WriteKeepsPast(s: State, a: Answers)
    ensures var r := AfterWrite(s, false, a);
            && r.taken == s.taken && r.spans == s.spans && r.drops == s.drops && r.recv == s.recv
            && r.remoteClosed == s.remoteClosed
  {
  }

  /**
   Over every run, whatever fails, what is in the file followed by what is buffered is the
   job's output without the discarded stretches, in its own order; each stretch ended with a
   read; and nothing is discarded unless the file system was full.
   */
  lemma OutputPreserved(steps: seq<Step>)
    ensures var s := Run(NEW_LOG, steps);
            && Gaps(s.drops, |s.taken|) && Tiles(s.spans, |s.taken|)
            && s.written + s.unflushed + s.recv == Kept(s.taken, s.drops)
            && AllEnd(s.spans, s.drops)
            && ((forall i :: 0 <= i < |steps| ==> SpaciousStep(steps[i])) ==>
                  s.drops == [] && s.written + s.unflushed + s.recv == s.taken)
  {
    hide Run, SpaciousStep, AllEnd, Tiles;
    RunFaithful(steps, forall i :: 0 <= i < |steps| ==> SpaciousStep(steps[i]));
  }

  lemma {:induction false} RunFaithful(steps: seq<Step>, spacious: bool)
    requires spacious ==> forall i :: 0 <= i < |steps| ==> SpaciousStep(steps[i])
    ensures Faithful(Run(NEW_LOG, steps), spacious)
    decreases |steps|
  {
    hide After, SpaciousStep;
    if steps != [] {
      RunFaithful(steps[..|steps| - 1], spacious);
      StepFaithful(Run(NEW_LOG, steps[..|steps| - 1]), steps[|steps| - 1], spacious);
    }
  }

  // ---- Which stretches are discarded ----

  /** A delivery discards the whole receive buffer, as it is then, or nothing. */
  lemma ArrivalDiscards(s: State, bytes: seq<Byte>, a: Answers)
    requires Faithful(s, false)
    ensures var s1, r := Received(s, bytes), AfterArrival(s, bytes, a);
            if s1.recv != [] && Discards(s1, a) then
              && r.drops == s.drops + [Buffered(s1)] && r.recv == [] && Stream(r) == s.written + s.unflushed
              && 0 <= Buffered(s1).from <= |s1.taken| && s1.taken[Buffered(s1).from..] == s.recv + bytes
            else r.drops == s.drops && Stream(r) == Stream(s) + bytes
  {
    hide AfterReader, Discards, Accounted, Tiles, AllEnd;
    ReceivedFaithful(s, bytes, false);
    var s1 := Received(s, bytes);
    assert Stream(s1) == Stream(s) + bytes;
    assert s1.written + s1.unflushed == s.written + s.unflushed;
    ReaderKeepsStream(s1, a);
    ReaderTakes(s1, a);
  }

  /** The stretch consists of whole reads. */
  ghost predicate WholeReads(spans: seq<Span>, d: Span) { StartsRead(spans, d.from) && EndsRead(spans, d.to) }

  /**
   What is discarded with a read is exactly that read if and only if the receive buffer was
   empty before; it is whole reads if and only if the buffer was empty or began with the
   first byte of a read.
   */
  lemma DiscardsWholeReads(s: State, bytes: seq<Byte>, a: Answers)
    requires Faithful(s, false) && bytes != [] && Discards(Received(s, bytes), a)
    ensures var r := AfterArrival(s, bytes, a);
            && |r.drops| == |s.drops| + 1 && |r.spans| == |s.spans| + 1
            && (r.drops[|s.drops|] == r.spans[|s.spans|] <==> s.recv == [])
            && (WholeReads(r.spans, r.drops[|s.drops|]) <==> s.recv == [] || StartsRead(s.spans, |s.taken| - |s.recv|))
  {
    hide AfterReader, Accounted, AllEnd, Discards;
    ReceivedFaithful(s, bytes, false);
    var s1, r := Received(s, bytes), AfterArrival(s, bytes, a);
    ReaderTakes(s1, a);
    var d := r.drops[|s.drops|];
    assert r.spans == s.spans + [Span(|s.taken|, |s.taken| + |bytes|)];
    assert r.spans[|s.spans|].from == |s.taken| && r.spans[|s.spans|].to == d.to;
    assert EndsRead(r.spans, d.to);
    if StartsRead(s.spans, d.from) {
      var i :| 0 <= i < |s.spans| && s.spans[i].from == d.from;
      assert r.spans[i].from == d.from;
    }
    if StartsRead(r.spans, d.from) && s.recv != [] {
      var i :| 0 <= i < |r.spans| && r.spans[i].from == d.from;
      assert i < |s.spans|;
    }
  }

  function Healthy(second: WriteResult): Answers { Answers(true, Opened, Wrote(0), second) }

  /** A short write, then a full file system: one read is half kept and half lost. */
  lemma HalfReadLost()
    ensures var s := Run(NEW_LOG, [Arrives([1, 2], Healthy(Wrote(1))), Arrives([3], Healthy(WriteFailed(NoSpace)))]);
            && s.written == [1] && s.unflushed == [] && s.recv == [] && s.taken == [1, 2, 3]
            && s.drops == [Span(1, 3)] && s.spans == [Span(0, 2), Span(2, 3)] && !WholeReads(s.spans, s.drops[0])
  {
    hide AfterReader;
    var a, b := Arrives([1, 2], Healthy(Wrote(1))), Arrives([3], Healthy(WriteFailed(NoSpace)));
    var s := State([1], [], [2], true, false, [1, 2], [Span(0, 2)], []);
    ShortWrite([1, 2], 1);
    TwoSteps(a, b, s);
    FullDisk(s, [3]);
  }

  /** Two reads can also be lost as a whole although the first was still in the receive buffer. */
  lemma TwoReadsLost()
    ensures var s := Run(NEW_LOG, [Arrives([1], Healthy(Wrote(0))), Arrives([2], Healthy(WriteFailed(NoSpace)))]);
            && s.written == [] && s.taken == [1, 2] && s.drops == [Span(0, 2)] && WholeReads(s.spans, s.drops[0])
  {
    hide AfterReader;
    var a, b := Arrives([1], Healthy(Wrote(0))), Arrives([2], Healthy(WriteFailed(NoSpace)));
    var s := State([], [], [1], true, false, [1], [Span(0, 1)], []);
    ShortWrite([1], 0);
    TwoSteps(a, b, s);
    FullDisk(s, [2]);
    var r := Run(NEW_LOG, [a, b]);
    assert r.spans == [Span(0, 1), Span(1, 2)];
    assert r.spans[0].from == 0 && r.spans[1].to == 2;
  }

  lemma TwoSteps(a: Step, b: Step, s: State)
    requires After(NEW_LOG, a) == s
    ensures Run(NEW_LOG, [a, b]) == After(s, b)
  {
    hide After;
    assert [a, b][..1] == [a] && [a][..0] == [];
    assert Run(NEW_LOG, [a]) == s;
  }

  lemma ShortWrite(bytes: seq<Byte>, n: nat)
    requires n < |bytes|
    ensures After(NEW_LOG, Arrives(bytes, Healthy(Wrote(n)))) ==
            State(bytes[..n], [], bytes[n..], true, false, bytes, [Span(0, |bytes|)], [])
  {
    assert [] + bytes == bytes && [] + bytes[..n] == bytes[..n];
  }

  lemma FullDisk(s: State, bytes: seq<Byte>)
    requires s.isOpen && s.unflushed == [] && s.drops == [] && bytes != []
    ensures var r := After(s, Arrives(bytes, Healthy(WriteFailed(NoSpace))));
            && r.written == s.written && r.unflushed == [] && r.recv == [] && r.taken == s.taken + bytes
            && r.drops == [Span(|s.taken| - |s.recv|, |s.taken| + |bytes|)]
            && r.spans == s.spans + [Span(|s.taken|, |s.taken| + |bytes|)]
  {
  }

  // ---- The log object ----

  class Log {
    var written: seq<Byte>
    var unflushed: seq<Byte>
    var recv: seq<Byte>
    var isOpen: bool
    var remoteClosed: bool
    ghost var taken: seq<Byte>
    ghost var spans: seq<Span>
    ghost var drops: seq<Span>

    constructor ()
      ensures Now() == NEW_LOG
    {
      written, unflushed, recv, isOpen, remoteClosed := [], [], [], false, false;
      taken, spans, drops := [], [], [];
    }

    ghost function Now(): State
      reads this
    {
      State(written, unflushed, recv, isOpen, remoteClosed, taken, spans, drops)
    }

    /** log_file_open */
    method FileOpen(a: Answers) returns (ok: bool)
      modifies `isOpen
      ensures Now() == AfterOpen(old(Now()), a) && ok == isOpen
    {
      if isOpen && a.linked {
        return true;
      }
      isOpen := a.opening.Opened?;
      return isOpen;
    }

    /** log_file_write */
    method FileWrite(useBuf: bool, a: Answers) returns (ok: bool)
      requires isOpen
      modifies this
      ensures Now() == AfterWrite(old(Now()), useBuf, a)
      ensures ok == WriteSucceeds(old(Now()), useBuf, a)
      ensures Stream(Now()) == if WriteDiscards(old(Now()), useBuf, a) then old(written + unflushed)
              else old(Stream(Now()))
      ensures Takes(old(Now()), Now(), useBuf, a, AllAccepted(WriteCalls(old(Now()), useBuf, a)))
    {
      hide Takes, AllAccepted, WriteDiscards;
      WriteKeepsStream(Now(), useBuf, a);
      WriteAccepts(Now(), useBuf, a);
      var len := if useBuf then |recv| else 0;
      if unflushed != [] {
        if a.first.WriteFailed? {
          if a.first.why != NoSpace && len > 0 {
            unflushed := unflushed + recv;
          }
          if len > 0 {
            recv := [];
          }
          isOpen := false;
          return false;
        }
        var k := Amount(a.first.n, |unflushed|);
        written, unflushed := written + unflushed[..k], unflushed[k..];
      }
      if unflushed != [] {
        if len > 0 {
          unflushed, recv := unflushed + recv, [];
        }
        isOpen := false;
        return false;
      }
      if len == 0 {
        return true;
      }
      if a.second.WriteFailed? {
        if a.second.why != NoSpace {
          unflushed := unflushed + recv;
        }
        recv, isOpen := [], false;
        return false;
      }
      var k := Amount(a.second.n, |recv|);
      written, recv := written + recv[..k], recv[k..];
      return true;
    }

    /** log_io_reader */
    method IoReader(a: Answers)
      requires recv != []
      modifies this
      ensures Now() == AfterReader(old(Now()), a)
      ensures Stream(Now()) == if Discards(old(Now()), a) then old(written + unflushed) else old(Stream(Now()))
      ensures written == old(written) + AllAccepted(ReaderCalls(old(Now()), a))
    {
      hide AllAccepted, WriteDiscards, WriteCalls;
      ReaderKeepsStream(Now(), a);
      NothingAccepted();
      var ok := FileOpen(a);
      if !ok {
        if a.opening.why != NoSpace {
          unflushed := unflushed + recv;
        }
        recv := [];
        return;
      }
      var _ := FileWrite(true, a);
    }

    /** Data arrives and is handed to the reader. */
    method Deliver(bytes: seq<Byte>, a: Answers)
      modifies this
      ensures Now() == AfterArrival(old(Now()), bytes, a)
    {
      hide AfterReader, Discards, Stream;
      if bytes != [] { spans := spans + [Span(|taken|, |taken| + |bytes|)]; }
      recv, taken := recv + bytes, taken + bytes;
      ghost var before := Now();
      assert before == Received(old(Now()), bytes);
      if recv != [] {
        ReaderTakes(before, a);
        IoReader(a);
        if Discards(before, a) { drops := drops + [Buffered(before)]; }
      }
    }

    /** log_read_watch, the loop running once for each answer of the system */
    method ReadWatch(turns: seq<Turn>)
      modifies this
      ensures Now() == AfterReads(old(Now()), turns)
      ensures old(Faithful(Now(), false)) ==> Faithful(Now(), false)
    {
      hide AfterArrival, Faithful;
      if Faithful(Now(), false) { ReadsFaithful(Now(), turns, false); }
      var i := 0;
      assert turns[0..] == turns;
      while i < |turns|
        invariant 0 <= i <= |turns|
        invariant AfterReads(Now(), turns[i..]) == AfterReads(old(Now()), turns)
      {
        assert turns[i..][1..] == turns[i + 1..];
        var bytes := BytesOf(turns[i].read);
        Deliver(bytes, turns[i].answers);
        if !GoesOn(turns[i].read) {
          if turns[i].read.ReadError? {
            remoteClosed := true;
          }
          isOpen := false;
          return;
        }
        i := i + 1;
      }
    }

    /** log_flush */
    method Flush(a: Answers, turns: seq<Turn>)
      modifies this
      ensures Now() == AfterFlushAll(old(Now()), a, turns)
      ensures old(Faithful(Now(), false)) ==> Faithful(Now(), false)
    {
      hide AfterReads, AfterWrite, Faithful;
      if Faithful(Now(), false) { FlushAllFaithful(Now(), a, turns, false); }
      if unflushed != [] {
        var ok := FileOpen(a);
        if !ok {
          return;
        }
        ok := FileWrite(false, a);
        if !ok {
          isOpen := false;
          return;
        }
      }
      WriteKeepsPast(old(Now()), a);
      if !remoteClosed {
        ReadWatch(turns);
      }
      isOpen := false;
    }
  }
}
