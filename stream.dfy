/**
 * The streamed answer of the generation endpoint, as the WebSocket turn
 * reads it (backend/server.py:1118-1137): one JSON record per line, the
 * "response" fields appended in order, blank and undecodable lines
 * skipped, reading stopped by the first record whose "done" is truthy.
 */
module ResponseStream {
  import opened Base

  /** The "response" field of a record. */
  datatype Field =
    | Absent
    | Text(text: string)
      /** A value that is not a string: `ai_response += chunk` raises. */
    | NotText(reason: string)

  /** One line of the body, as `line.strip()` and `json.loads` see it. */
  datatype Line =
    | Blank
    | Undecodable
      /** Valid JSON that is not an object: the membership test or `.get` raises. */
    | Foreign(reason: string)
      /** An object; `done` is the truthiness of `chunk_data.get("done", False)`. */
    | Record(response: Field, done: bool)

  /** How reading ends: a done record, the end of the body, or an exception. */
  datatype End = Finished | Exhausted | Failed(reason: string)

  /** The chunks appended (and streamed) before reading ended, and how it ended. */
  datatype Folded = Folded(chunks: seq<string>, end: End)

  /** `"".join(chunks)`, built the way `ai_response += chunk` builds it. */
  function Concat(chunks: seq<string>): string
    decreases |chunks|
  {
    if chunks == [] then "" else Concat(chunks[..|chunks| - 1]) + chunks[|chunks| - 1]
  }

  lemma {:induction false} ConcatSnoc(chunks: seq<string>, t: string)
    ensures Concat(chunks + [t]) == Concat(chunks) + t
  {
    assert (chunks + [t])[..|chunks|] == chunks;
  }

  /** The reading loop, line by line. */
  function Fold(lines: seq<Line>): Folded
    decreases |lines|
  {
    if lines == [] then Folded([], Exhausted) else Next(lines[0], Fold(lines[1..]))
  }

  /** One line of the loop, given what reading the rest of the body would give. */
  function Next(line: Line, rest: Folded): Folded {
    match line
    case Blank => rest
    case Undecodable => rest
    case Foreign(reason) => Folded([], Failed(reason))
    case Record(NotText(reason), _) => Folded([], Failed(reason))
    case Record(Absent, done) => if done then Folded([], Finished) else rest
    case Record(Text(t), done) => if done then Folded([t], Finished) else Folded([t] + rest.chunks, rest.end)
  }

  lemma FoldFrom(lines: seq<Line>, i: nat)
    requires i < |lines|
    ensures Fold(lines[i..]) == Next(lines[i], Fold(lines[i + 1..]))
  {
    assert lines[i..][0] == lines[i] && lines[i..][1..] == lines[i + 1..];
  }

  /** `chunks` read so far, then whatever the rest of the body gives. */
  function Resume(chunks: seq<string>, rest: Folded): Folded {
    Folded(chunks + rest.chunks, rest.end)
  }

  /**
   * The loop of backend/server.py:1118-1137 over the body: it returns the
   * accumulated answer, the chunks streamed to the client and how reading
   * ended.
   */
  method AccumulateStream(lines: seq<Line>) returns (response: string, chunks: seq<string>, end: End)
    ensures Folded(chunks, end) == Fold(lines)
    ensures response == Concat(chunks)
  {
    response, chunks := "", [];
    var i := 0;
    while i < |lines|
      invariant i <= |lines|
      invariant Fold(lines) == Resume(chunks, Fold(lines[i..]))
      invariant response == Concat(chunks)
      decreases |lines| - i
    {
      FoldFrom(lines, i);
      var line := lines[i];
      if line.Foreign? {
        return response, chunks, Failed(line.reason);
      }
      if line.Record? {
        if line.response.NotText? {
          return response, chunks, Failed(line.response.reason);
        }
        if line.response.Text? {
          var t := line.response.text;
          ConcatSnoc(chunks, t);
          AppendAssoc(chunks, [t], Fold(lines[i + 1..]).chunks);
          response := response + t;
          chunks := chunks + [t];
        }
        if line.done {
          assert chunks + [] == chunks;
          return response, chunks, Finished;
        }
      }
      i := i + 1;
    }
    assert lines[i..] == [];
    assert chunks + [] == chunks;
    end := Exhausted;
  }

  // ---------------------------------------------------------------------
  // A reference reading: cut at the first done record, then collect
  // ---------------------------------------------------------------------

  /** The lines up to and including the first done record (all of them if there is none). */
  function ThroughDone(lines: seq<Line>): seq<Line>
    decreases |lines|
  {
    if lines == [] then []
    else if lines[0].Record? && lines[0].done then [lines[0]]
    else [lines[0]] + ThroughDone(lines[1..])
  }

  predicate HasDone(lines: seq<Line>) {
    exists i :: 0 <= i < |lines| && lines[i].Record? && lines[i].done
  }

  /** A line the loop raises on. */
  predicate Raises(l: Line) {
    l.Foreign? || (l.Record? && l.response.NotText?)
  }

  /** The strings of the "response" fields, in order. */
  function Texts(lines: seq<Line>): seq<string>
    decreases |lines|
  {
    if lines == [] then []
    else if lines[0].Record? && lines[0].response.Text? then [lines[0].response.text] + Texts(lines[1..])
    else Texts(lines[1..])
  }

  /**
   * Reading succeeds iff no line up to the first done record raises; it
   * then yields exactly the response strings of those lines, and it
   * finishes on a done record iff the body has one.
   */
  lemma {:induction false} FoldIsTextsThroughDone(lines: seq<Line>)
    ensures Fold(lines).end.Failed? <==> exists i :: 0 <= i < |ThroughDone(lines)| && Raises(ThroughDone(lines)[i])
    ensures !Fold(lines).end.Failed? ==>
      Fold(lines).chunks == Texts(ThroughDone(lines))
      && (Fold(lines).end == Finished <==> HasDone(lines))
    decreases |lines|
  {
    if lines != [] {
      var rest := lines[1..];
      FoldIsTextsThroughDone(rest);
      HasDoneCons(lines);
      if !(lines[0].Record? && lines[0].done) {
        assert ThroughDone(lines) == [lines[0]] + ThroughDone(rest);
        RaisesInCons(lines[0], ThroughDone(rest));
      } else {
        assert ThroughDone(lines) == [lines[0]] + [];
        RaisesInCons(lines[0], []);
        assert [lines[0]][1..] == [];
      }
    } else {
      assert !HasDone(lines);
    }
  }

  /** A line the loop raises on occurs in `[l] + rest` iff `l` raises or one occurs in `rest`. */
  lemma RaisesInCons(l: Line, rest: seq<Line>)
    ensures (exists i :: 0 <= i < |[l] + rest| && Raises(([l] + rest)[i]))
            <==> Raises(l) || exists i :: 0 <= i < |rest| && Raises(rest[i])
  {
    var all := [l] + rest;
    if Raises(l) {
      assert Raises(all[0]);
    }
    if exists i :: 0 <= i < |all| && Raises(all[i]) {
      var i :| 0 <= i < |all| && Raises(all[i]);
      if i > 0 { assert Raises(rest[i - 1]); }
    }
    if exists i :: 0 <= i < |rest| && Raises(rest[i]) {
      var i :| 0 <= i < |rest| && Raises(rest[i]);
      assert Raises(all[i + 1]);
    }
  }

  lemma HasDoneCons(lines: seq<Line>)
    requires lines != []
    ensures HasDone(lines) <==> (lines[0].Record? && lines[0].done) || HasDone(lines[1..])
  {
    var rest := lines[1..];
    if HasDone(lines) && !(lines[0].Record? && lines[0].done) {
      var i :| 0 <= i < |lines| && lines[i].Record? && lines[i].done;
      assert i > 0 && rest[i - 1] == lines[i];
    }
    if HasDone(rest) {
      var i :| 0 <= i < |rest| && rest[i].Record? && rest[i].done;
      assert lines[i + 1] == rest[i];
    }
    if lines[0].Record? && lines[0].done {
      assert 0 < |lines|;
    }
  }

  /** Once reading has stopped, what follows in the body does not matter. */
  lemma {:induction false} FoldIgnoresRest(lines: seq<Line>, more: seq<Line>)
    requires Fold(lines).end != Exhausted
    ensures Fold(lines + more) == Fold(lines)
    decreases |lines|
  {
    assert lines != [];
    assert (lines + more)[0] == lines[0];
    assert (lines + more)[1..] == lines[1..] + more;
    match lines[0]
    case Blank => FoldIgnoresRest(lines[1..], more);
    case Undecodable => FoldIgnoresRest(lines[1..], more);
    case Foreign(_) =>
    case Record(field, done) =>
      if !done && !field.NotText? {
        FoldIgnoresRest(lines[1..], more);
      }
  }

  /** The lines that are not blank and decode. */
  function Decoded(lines: seq<Line>): seq<Line>
    decreases |lines|
  {
    if lines == [] then []
    else if lines[0].Blank? || lines[0].Undecodable? then Decoded(lines[1..])
    else [lines[0]] + Decoded(lines[1..])
  }

  /** Blank and undecodable lines may be dropped without changing anything. */
  lemma {:induction false} FoldSkipsNoise(lines: seq<Line>)
    ensures Fold(Decoded(lines)) == Fold(lines)
    decreases |lines|
  {
    if lines != [] {
      FoldSkipsNoise(lines[1..]);
      if !(lines[0].Blank? || lines[0].Undecodable?) {
        var d := Decoded(lines);
        assert d[0] == lines[0] && d[1..] == Decoded(lines[1..]);
      }
    }
  }
}
