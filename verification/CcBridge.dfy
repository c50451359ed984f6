/**
 The bridge's reader: it forwards a stream-json stream line by line to a sink, here the
 translating writer it is paired with in production, and extracts the final usage.
 */
module CcBridge {
  import opened Bytes
  import opened StreamJson
  import opened SseTranslate
  import opened SseWriter
  import SseClient
  import SseOutput

  datatype ParseError = WriteFailed | ReadFailed | NoResult

  /** What ReadBytes('\n') returns at the start of s: a line, or all of a rest without newline. */
  function FirstPiece(s: seq<byte>): (p: seq<byte>)
    ensures p <= s && (s != [] ==> p != [])
  {
    var i := IndexOf(s, LF);
    if i < |s| then s[..i + 1] else s
  }

  /** The reads of a line reader: every line, then the unterminated rest. */
  function Pieces(s: seq<byte>): seq<seq<byte>>
    decreases |s|
  {
    if s == [] then [] else [FirstPiece(s)] + Pieces(s[|FirstPiece(s)|..])
  }

  /** The last result among the pieces, or acc when there is none. */
  function LastResult(decode: Decoder, pieces: seq<seq<byte>>, acc: Option<Usage>): Option<Usage>
    decreases |pieces|
  {
    if pieces == [] then acc else LastResult(decode, pieces[1..], OrElse(Probe(decode, pieces[0]), acc))
  }

  /** The usage reported for a whole input, None when no result was seen. */
  function Reported(decode: Decoder, input: seq<byte>): Option<Usage> {
    LastResult(decode, Pieces(input), None)
  }

  lemma FlattenCons(first: seq<byte>, later: seq<seq<byte>>)
    ensures Flatten([first] + later) == first + Flatten(later)
  {
    assert ([first] + later)[1..] == later;
  }

  lemma {:induction false} PiecesPartition(s: seq<byte>)
    ensures Flatten(Pieces(s)) == s
    decreases |s|
  {
    if s != [] {
      var first := FirstPiece(s);
      var rest := s[|first|..];
      PiecesPartition(rest);
      FlattenCons(first, Pieces(rest));
      assert s == first + rest;
    }
  }

  /** A newline-free text is read in one piece, unless it is empty. */
  function OnePiece(t: seq<byte>): seq<seq<byte>> {
    if t == [] then [] else [t]
  }

  lemma LastPiece(t: seq<byte>)
    requires Without(t, LF)
    ensures Pieces(t) == OnePiece(t)
  {
    assert FirstPiece(t) == t && t[|t|..] == [];
    assert t != [] ==> Pieces(t) == [t] + Pieces([]);
  }

  lemma PiecesStep(l: seq<byte>, rest: seq<byte>)
    requires IsLine(l)
    ensures Pieces(l + rest) == [l] + Pieces(rest)
  {
    var s := l + rest;
    assert IndexOf(s, LF) == |l| - 1 by {
      assert s[|l| - 1] == LF;
      assert forall k :: 0 <= k < |l| - 1 ==> s[k] == l[k];
    }
    assert FirstPiece(s) == l && s[|l|..] == rest;
  }

  lemma Cons<T>(x: T, xs: seq<T>, ys: seq<T>)
    ensures [x] + (xs + ys) == [x] + xs + ys
  {
  }

  lemma PiecesCons(l: seq<byte>, later: seq<seq<byte>>, t: seq<byte>)
    requires IsLine(l) && Pieces(Flatten(later) + t) == later + OnePiece(t)
    ensures Pieces(l + (Flatten(later) + t)) == [l] + later + OnePiece(t)
  {
    PiecesStep(l, Flatten(later) + t);
    Cons(l, later, OnePiece(t));
  }

  lemma {:induction false} PiecesOfLines(ls: seq<seq<byte>>, t: seq<byte>)
    requires forall l :: l in ls ==> IsLine(l)
    requires Without(t, LF)
    ensures Pieces(Flatten(ls) + t) == ls + OnePiece(t)
  {
    if ls == [] {
      assert Flatten(ls) + t == t;
      LastPiece(t);
    } else {
      var l, later := ls[0], ls[1..];
      assert ls == [l] + later;
      PiecesOfLines(later, t);
      PiecesCons(l, later, t);
      Rejoin(l, later, t);
    }
  }

  /** The bridge reads the translator's lines, and the unterminated rest besides. */
  lemma PiecesAreLines(s: seq<byte>)
    ensures Pieces(s) == Lines(s) + OnePiece(Tail(s))
  {
    LinesPartition(s);
    PiecesOfLines(Lines(s), Tail(s));
  }

  /** Hands one piece to the sink unless an earlier write failed. */
  method Forward(piece: seq<byte>, writeErr: bool, w: Writer) returns (failed: bool)
    requires writeErr ==> w.firstWriteErr || w.closed
    modifies w, w.inner
    ensures Same(w.View(), WriteRun(w.Cfg(), old(w.View()), piece))
    ensures w.closed == old(w.closed) && failed == (w.firstWriteErr || w.closed)
  {
    failed := writeErr;
    if !writeErr {
      ghost var before := w.View();
      var _, ok := w.Write(piece);
      failed := !ok;
      WriteKeepsClosed(w.Cfg(), before, piece);
    }
  }

  lemma WriteKeepsClosed(c: Config, r: Run, p: seq<byte>)
    ensures WriteRun(c, r, p).closed == r.closed
  {
    if !r.failed && !r.closed {
      WriteIsFold(c, r, p);
    }
  }

  /** Where a reader stands: its writer and the last result, given what is still to be read. */
  ghost predicate Reading(c: Config, decode: Decoder, r0: Run, input: seq<byte>,
                          now: Run, last: Option<Usage>, rest: seq<byte>)
  {
    && Same(WriteAll(c, now, Pieces(rest)), WriteAll(c, r0, Pieces(input)))
    && LastResult(decode, Pieces(rest), last) == LastResult(decode, Pieces(input), None)
  }

  lemma ReadPiece(c: Config, decode: Decoder, r0: Run, input: seq<byte>,
                  before: Run, after: Run, last: Option<Usage>, rest: seq<byte>)
    requires Reading(c, decode, r0, input, before, last, rest)
    requires rest != [] && Same(after, WriteRun(c, before, FirstPiece(rest)))
    ensures Reading(c, decode, r0, input, after, OrElse(Probe(decode, FirstPiece(rest)), last), rest[|FirstPiece(rest)|..])
  {
    var piece := FirstPiece(rest);
    var later := Pieces(rest[|piece|..]);
    assert Pieces(rest)[0] == piece && Pieces(rest)[1..] == later;
    WriteAllSame(c, after, WriteRun(c, before, piece), later);
  }

  /**
   Reads input to its end, or to a read error, forwarding every byte to w until a write
   fails. The usage is the last result's; malformed lines are forwarded and ignored.
   */
  method ParseStreamJSON(input: seq<byte>, readError: bool, decode: Decoder, w: Writer)
      returns (usage: Usage, err: Option<ParseError>)
    requires Drained(w.View())
    modifies w, w.inner
    ensures Same(w.View(), WriteRun(w.Cfg(), old(w.View()), input))
    ensures var last := Reported(decode, input);
            && usage == (if last.Some? then last.value else Usage(0, 0))
            && err == if input != [] && (w.firstWriteErr || old(w.closed)) then Some(WriteFailed)
                      else if readError then Some(ReadFailed)
                      else if last.None? then Some(NoResult) else None
  {
    ghost var c, r0 := w.Cfg(), w.View();
    usage := Usage(0, 0);
    var seenRes, writeErr := false, false;
    var rest := input;
    var more := true;
    while more
      invariant more || rest == []
      invariant Reading(c, decode, r0, input, w.View(), if seenRes then Some(usage) else None, rest)
      invariant w.closed == old(w.closed) && |rest| <= |input|
      invariant writeErr == (|rest| < |input| && (w.firstWriteErr || w.closed))
      invariant |rest| == |input| ==> rest == input
      invariant !seenRes ==> usage == Usage(0, 0)
      decreases more, |rest|
    {
      more := IndexOf(rest, LF) < |rest|;
      var line := FirstPiece(rest);
      if line != [] {
        ghost var before := w.View();
        writeErr := Forward(line, writeErr, w);
        ReadPiece(c, decode, r0, input, before, w.View(), if seenRes then Some(usage) else None, rest);
        var found := Probe(decode, line);
        if found.Some? {
          usage, seenRes := found.value, true;
        }
        rest := rest[|line|..];
      }
    }
    PiecesPartition(input);
    ChunkInvariance(c, r0, Pieces(input));
    if writeErr {
      err := Some(WriteFailed);
    } else if readError {
      err := Some(ReadFailed);
    } else if !seenRes {
      err := Some(NoResult);
    } else {
      err := None;
    }
  }

  // ---------- the two readers agree on usage ----------

  /** Dropping carriage returns from the end leaves the document. */
  lemma {:induction false} TrimKeepsDoc(decode: Decoder, body: seq<byte>)
    requires IgnoresTrailingCR(decode)
    requires Without(body, LF)
    ensures decode(TrimEnd(body)) == decode(body)
    decreases |body|
  {
    if body != [] && body[|body| - 1] == CR {
      var shorter := body[..|body| - 1];
      assert shorter + [CR] == body;
      TrimKeepsDoc(decode, shorter);
    }
  }

  /** What the translator takes for a result, the bridge takes for the same result. */
  lemma ResultIsProbed(decode: Decoder, line: seq<byte>)
    requires IgnoresTrailingCR(decode) && IsLine(line)
    requires Classify(decode, line).Result?
    ensures var used := Classify(decode, line).usage;
            Probe(decode, line) == Some(if used.Some? then used.value else Usage(0, 0))
  {
    var body := line[..|line| - 1];
    assert TrimEnd(line) == TrimEnd(body);
    TrimKeepsDoc(decode, body);
  }

  /** What the bridge takes for a result, the translator drops exactly when a field only it reads is mistyped. */
  lemma ProbedButDropped(decode: Decoder, line: seq<byte>)
    requires IgnoresTrailingCR(decode) && IsLine(line) && Probe(decode, line).Some?
    ensures var d := decode(line[..|line| - 1]);
            !Classify(decode, line).Result? <==> d.subtype.Mistyped? || d.isError.Mistyped?
  {
    var body := line[..|line| - 1];
    assert TrimEnd(line) == TrimEnd(body);
    TrimKeepsDoc(decode, body);
    TrimKeepsFirst(body);
  }

  lemma {:induction false} TrimKeepsFirst(body: seq<byte>)
    requires body != [] && body[0] != LF && body[0] != CR
    ensures TrimEnd(body) != [] && TrimEnd(body)[0] == body[0]
    decreases |body|
  {
    if body[|body| - 1] == LF || body[|body| - 1] == CR {
      TrimKeepsFirst(body[..|body| - 1]);
    }
  }

  lemma {:induction false} LastResultSkips(decode: Decoder, pieces: seq<seq<byte>>, acc: Option<Usage>)
    requires forall i :: 0 <= i < |pieces| ==> Probe(decode, pieces[i]).None?
    ensures LastResult(decode, pieces, acc) == acc
    decreases |pieces|
  {
    if pieces != [] {
      LastResultSkips(decode, pieces[1..], acc);
    }
  }

  /** The piece at k is the last the bridge takes for a result. */
  ghost predicate LastProbed(decode: Decoder, pieces: seq<seq<byte>>, k: nat) {
    && k < |pieces| && Probe(decode, pieces[k]).Some?
    && forall i :: k < i < |pieces| ==> Probe(decode, pieces[i]).None?
  }

  lemma {:induction false} LastResultAt(decode: Decoder, pieces: seq<seq<byte>>, acc: Option<Usage>, k: nat)
    requires LastProbed(decode, pieces, k)
    ensures LastResult(decode, pieces, acc) == Probe(decode, pieces[k])
    decreases |pieces|
  {
    if k == 0 {
      LastResultSkips(decode, pieces[1..], Probe(decode, pieces[0]));
    } else {
      LastResultAt(decode, pieces[1..], OrElse(Probe(decode, pieces[0]), acc), k - 1);
    }
  }

  /** What message_delta told the client, for every stream. */
  lemma ClientEnding(decode: Decoder, input: seq<byte>)
    ensures var lines, client := ClassifyAll(decode, Lines(input)), SseOutput.ClientOf(decode, input);
            var turn, terminator := SseClient.TurnOf(lines), SseClient.TerminatorOf(lines);
            && client.Some?
            && (client.value.ending.Some? <==> turn != [] && terminator.Some?)
            && (client.value.ending.Some? ==>
                  && client.value.phase == SseClient.Complete
                  && client.value.ending.value.usage ==
                     if terminator.value.usage.Some? then terminator.value.usage else SseClient.LastUsage(turn))
  {
    SseOutput.ClientOfInput(decode, input);
  }

  /** The client has been told an end of the message, with the usage the bridge reports. */
  ghost predicate Agree(decode: Decoder, input: seq<byte>) {
    var client := SseOutput.ClientOf(decode, input);
    && client.Some? && client.value.ending.Some? && Reported(decode, input).Some?
    && client.value.ending.value.usage == Reported(decode, input)
  }

  /**
   Usage agreement, exactly. Whatever the stream, when the bridge reports a result, at piece k,
   the client has been told the same usage if and only if the turn was ended by a result and that
   result's usage, or failing that the last an assistant line carried, is the one at piece k.
   */
  lemma UsageAgreesExactly(decode: Decoder, input: seq<byte>, k: nat)
    requires LastProbed(decode, Pieces(input), k)
    ensures var lines := ClassifyAll(decode, Lines(input));
            var turn, terminator := SseClient.TurnOf(lines), SseClient.TerminatorOf(lines);
            Agree(decode, input) <==>
            && turn != [] && terminator.Some?
            && OrElse(terminator.value.usage, SseClient.LastUsage(turn)) == Probe(decode, Pieces(input)[k])
  {
    ClientEnding(decode, input);
    LastResultAt(decode, Pieces(input), None, k);
  }

  /** When the bridge reports no result, neither has the client been told an end. */
  lemma NoResultNoEnding(decode: Decoder, input: seq<byte>)
    requires IgnoresTrailingCR(decode) && Reported(decode, input).None?
    ensures SseOutput.ClientOf(decode, input).Some? && SseOutput.ClientOf(decode, input).value.ending.None?
  {
    var lines := Lines(input);
    LinesPartition(input);
    PiecesAreLines(input);
    forall i | 0 <= i < |lines| ensures !Classify(decode, lines[i]).Result? {
      assert IsLine(lines[i]) && Pieces(input)[i] == lines[i];
      if Classify(decode, lines[i]).Result? {
        ResultIsProbed(decode, lines[i]);
        ProbedIsReported(decode, Pieces(input), None, i);
      }
    }
    NoTerminator(ClassifyAll(decode, lines));
    ClientEnding(decode, input);
  }

  lemma {:induction false} ProbedIsReported(decode: Decoder, pieces: seq<seq<byte>>, acc: Option<Usage>, i: nat)
    requires acc.Some? || (i < |pieces| && Probe(decode, pieces[i]).Some?)
    ensures LastResult(decode, pieces, acc).Some?
    decreases |pieces|
  {
    if pieces != [] {
      ProbedIsReported(decode, pieces[1..], OrElse(Probe(decode, pieces[0]), acc), if i == 0 then 0 else i - 1);
    }
  }

  lemma {:induction false} NoTerminator(lines: seq<Line>)
    requires forall i :: 0 <= i < |lines| ==> !lines[i].Result?
    ensures SseClient.TerminatorOf(lines).None? && SseClient.FirstResult(lines).None?
    decreases |lines|
  {
    if lines != [] {
      NoTerminator(lines[1..]);
    }
  }

  // ---------- the streams on which they agree or part ----------

  /** The first assistant line is at j and the first result after it at t. */
  ghost predicate EndsTurn(lines: seq<Line>, j: nat, t: nat) {
    && j < t < |lines| && lines[j].Assistant? && lines[t].Result?
    && (forall i :: 0 <= i < j ==> !lines[i].Assistant?)
    && (forall i :: j < i < t ==> !lines[i].Result?)
  }

  lemma {:induction false} TerminatorAt(lines: seq<Line>, j: nat, t: nat)
    requires EndsTurn(lines, j, t)
    ensures SseClient.TerminatorOf(lines) == Some(lines[t]) && SseClient.TurnOf(lines) != []
    decreases |lines|
  {
    if j == 0 {
      FirstResultAt(lines, t);
    } else {
      TerminatorAt(lines[1..], j - 1, t - 1);
    }
  }

  lemma {:induction false} FirstResultAt(lines: seq<Line>, k: nat)
    requires k < |lines| && lines[k].Result?
    requires forall i :: 0 <= i < k ==> !lines[i].Result?
    ensures SseClient.FirstResult(lines) == Some(lines[k])
    decreases |lines|
  {
    if k > 0 {
      FirstResultAt(lines[1..], k - 1);
    }
  }

  /**
   The result that ends the turn is the last one: the readers agree if it carries usage, and
   otherwise only if no assistant line carried any but zero, which is what the bridge reports.
   */
  lemma LastResultEndsTurn(decode: Decoder, input: seq<byte>, j: nat, t: nat)
    requires IgnoresTrailingCR(decode)
    requires EndsTurn(ClassifyAll(decode, Lines(input)), j, t) && LastProbed(decode, Pieces(input), t)
    ensures var lines := ClassifyAll(decode, Lines(input));
            Agree(decode, input) <==>
            lines[t].usage.Some? || SseClient.LastUsage(SseClient.TurnOf(lines)) == Some(Usage(0, 0))
  {
    LinesPartition(input);
    PiecesAreLines(input);
    assert IsLine(Lines(input)[t]);
    ResultIsProbed(decode, Lines(input)[t]);
    TerminatorAt(ClassifyAll(decode, Lines(input)), j, t);
    UsageAgreesExactly(decode, input, t);
  }

  /** A later result comes at k: the client keeps the first usage, the bridge reports the last. */
  lemma LaterResult(decode: Decoder, input: seq<byte>, j: nat, t: nat, k: nat)
    requires EndsTurn(ClassifyAll(decode, Lines(input)), j, t)
    requires t < k && LastProbed(decode, Pieces(input), k)
    ensures var lines := ClassifyAll(decode, Lines(input));
            var first := OrElse(lines[t].usage, SseClient.LastUsage(SseClient.TurnOf(lines)));
            && SseOutput.ClientOf(decode, input).Some? && SseOutput.ClientOf(decode, input).value.ending.Some?
            && SseOutput.ClientOf(decode, input).value.ending.value.usage == first
            && Reported(decode, input) == Probe(decode, Pieces(input)[k])
            && (Agree(decode, input) <==> first == Probe(decode, Pieces(input)[k]))
  {
    TerminatorAt(ClassifyAll(decode, Lines(input)), j, t);
    ClientEnding(decode, input);
    LastResultAt(decode, Pieces(input), None, k);
    UsageAgreesExactly(decode, input, k);
  }

  /** A result only the bridge takes for one, because it is mistyped for the translator or has no newline. */
  lemma OnlyTheBridgeSees(decode: Decoder, input: seq<byte>, k: nat)
    requires LastProbed(decode, Pieces(input), k)
    requires forall i :: 0 <= i < |Lines(input)| ==> !Classify(decode, Lines(input)[i]).Result?
    ensures Reported(decode, input) == Probe(decode, Pieces(input)[k])
    ensures SseOutput.ClientOf(decode, input).Some? && SseOutput.ClientOf(decode, input).value.ending.None?
  {
    NoTerminator(ClassifyAll(decode, Lines(input)));
    ClientEnding(decode, input);
    LastResultAt(decode, Pieces(input), None, k);
  }

  /** The ordinary stream: one result, after an assistant line, carrying usage. */
  lemma UsageAgrees(decode: Decoder, input: seq<byte>, j: nat, t: nat)
    requires IgnoresTrailingCR(decode)
    requires EndsTurn(ClassifyAll(decode, Lines(input)), j, t) && LastProbed(decode, Pieces(input), t)
    requires Classify(decode, Lines(input)[t]).usage.Some?
    ensures Agree(decode, input)
  {
    LastResultEndsTurn(decode, input, j, t);
  }

  /** A decoder that knows an assistant line and two results. */
  function SampleDecoder(body: seq<byte>): Doc {
    if |body| < 2 then Invalid
    else if body[1] == 97 then Object(Value("assistant"), Absent, Absent, Absent, Absent)
    else if body[1] == 1 || body[1] == 2 then
      Object(Value("result"), Absent, Absent, Value(Usage(body[1], body[1])), Absent)
    else Invalid
  }

  function SampleLine(tag: byte): seq<byte> {
    [BRACE, tag, LF]
  }

  lemma SampleIsRead(tag: byte)
    requires tag == 97 || tag == 1 || tag == 2
    ensures IsLine(SampleLine(tag))
    ensures Classify(SampleDecoder, SampleLine(tag))
            == if tag == 97 then Assistant(ZERO_MESSAGE) else Result(false, Some(Usage(tag, tag)))
    ensures Probe(SampleDecoder, SampleLine(tag)) == if tag == 97 then None else Some(Usage(tag, tag))
  {
    var line := SampleLine(tag);
    assert line[..2] == [BRACE, tag];
    assert TrimEnd(line) == TrimEnd(line[..2]) == line[..2];
  }

  lemma SampleLinesAreRead(input: seq<byte>, ls: seq<seq<byte>>)
    requires ls == [SampleLine(97), SampleLine(1), SampleLine(2)] && input == Flatten(ls)
    ensures Lines(input) == ls && Pieces(input) == ls && Tail(input) == []
  {
    assert forall l :: l in ls ==> IsLine(l);
    assert input == Flatten(ls) + [];
    LinesUnique(ls, []);
    PiecesAreLines(input);
  }

  lemma SampleIgnoresCR()
    ensures IgnoresTrailingCR(SampleDecoder)
  {
  }

  lemma SampleTurn(ls: seq<seq<byte>>)
    requires ls == [SampleLine(97), SampleLine(1), SampleLine(2)]
    ensures EndsTurn(ClassifyAll(SampleDecoder, ls), 0, 1) && LastProbed(SampleDecoder, ls, 2)
    ensures ClassifyAll(SampleDecoder, ls)[1] == Result(false, Some(Usage(1, 1)))
  {
    SampleIsRead(97);
    SampleIsRead(1);
    SampleIsRead(2);
  }

  /** Three lines on which the readers part: an assistant line and two results. */
  lemma TwoResultsDisagree(input: seq<byte>)
    requires input == Flatten([SampleLine(97), SampleLine(1), SampleLine(2)])
    ensures IgnoresTrailingCR(SampleDecoder) && Tail(input) == []
    ensures Reported(SampleDecoder, input) == Some(Usage(2, 2))
    ensures var client := SseOutput.ClientOf(SampleDecoder, input);
            client.Some? && client.value.ending.Some? && client.value.ending.value.usage == Some(Usage(1, 1))
  {
    var ls := [SampleLine(97), SampleLine(1), SampleLine(2)];
    SampleLinesAreRead(input, ls);
    SampleTurn(ls);
    SampleIgnoresCR();
    SampleIsRead(2);
    LaterResult(SampleDecoder, input, 0, 1, 2);
  }
}
