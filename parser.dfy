/**
 * The entry recognizer (Parse in the Go package): reads one entry from a line source,
 * skipping blank separator lines before its header, and returns the entry or an error.
 */
module Parser {
  import opened Wrappers
  import opened Tokenizer
  import opened Entries
  import opened Seqs

  /** The ways a parse call fails; EndOfInput is the clean end of the stream (io.EOF). */
  datatype ParseError =
    | EndOfInput
    | MalformedHeader(line: string)
    | MalformedBody(line: string)
    | Truncated

  /** What a line inside an entry is. */
  datatype BodyLine = Terminator | Field(kv: KeyValue) | Malformed

  /** The tag of the line that ends an entry. */
  const EndTag: string := "End"

  /**
   * A body line starts with the marker '-' (nothing before it); the rest is tokenized.
   * A bare End tag ends the entry; an empty tag is an error; anything else is a field.
   */
  function ClassifyBody(line: string): (r: BodyLine)
    ensures r.Field? ==> WellFormed(r.kv) && r.kv != KeyValue(EndTag, [])
    ensures r == Malformed <==> line == [] || line[0] != '-' || AllSpace(line[1..])
  {
    if line == [] || line[0] != '-' then Malformed
    else
      var kv := SplitLine(line[1..]);
      SplitLineBlank(line[1..]);
      if kv == KeyValue(EndTag, []) then Terminator
      else if kv.key == [] then Malformed
      else Field(kv)
  }

  /** A body line as varnishlog writes it: the marker, a space, the tag, a space, the value. */
  function FormatField(kv: KeyValue): string {
    "- " + JoinLine(kv)
  }

  /** A written field line reads back as that field. */
  lemma ClassifyFormatField(kv: KeyValue)
    requires WellFormed(kv) && kv != KeyValue(EndTag, [])
    ensures ClassifyBody(FormatField(kv)) == Field(kv)
  {
    var line := FormatField(kv);
    assert line[1..] == " " + kv.key + " " + kv.value;
    assert Layout(line[1..], " ", kv.key, " ", kv.value);
    SplitLineOfLayout(line[1..], " ", kv.key, " ", kv.value);
  }

  /**
   * A line made of the marker and rest is the field (tag, value) exactly when rest splits into
   * that tag and value, the tag is not empty and the pair is not the bare End.
   */
  lemma MarkedField(rest: string, kv: KeyValue)
    ensures ClassifyBody("-" + rest) == Field(kv) <==>
      SplitLine(rest) == kv && kv.key != [] && kv != KeyValue(EndTag, [])
  {
    assert ("-" + rest)[1..] == rest;
  }

  /** The marker followed by End, with any separators after the marker and at the end, ends an entry. */
  lemma ClassifyTerminator(p: string, q: string)
    requires AllSpace(p) && AllSpace(q)
    ensures ClassifyBody("-" + p + EndTag + q) == Terminator
  {
    var line := "-" + p + EndTag + q;
    assert line[1..] == p + EndTag + q + [];
    assert Layout(line[1..], p, EndTag, q, []);
    SplitLineOfLayout(line[1..], p, EndTag, q, []);
  }

  /** A line with anything before its marker is not a body line. */
  lemma ClassifyIndented(line: string)
    requires line != [] && IsSpace(line[0])
    ensures ClassifyBody(line) == Malformed
  {
  }

  /**
   * A blank line, as between two entries; the empty line is one. It is a line of separators
   * only (AllSpace), named for the role it has in the seek state.
   */
  predicate IsBlank(line: string) {
    AllSpace(line)
  }

  /** Every line is blank. */
  predicate AllBlank(lines: seq<string>) {
    forall i :: 0 <= i < |lines| ==> IsBlank(lines[i])
  }

  /** The result of one parse call and the number of lines it consumed from the source. */
  datatype Outcome = Outcome(result: Result<Entry, ParseError>, consumed: nat) {
    function Shift(n: nat): Outcome {
      Outcome(result, consumed + n)
    }
  }

  /**
   * The body state: read lines into fields until the terminator. The source running out
   * truncates the entry; a malformed line aborts it.
   */
  function ReadBody(lines: seq<string>, h: Header, fields: Fields): (o: Outcome)
    ensures o.consumed <= |lines|
    ensures o.result.Err? ==> o.result.error != EndOfInput && !o.result.error.MalformedHeader?
    decreases |lines|
  {
    if lines == [] then Outcome(Err(Truncated), 0)
    else
      match ClassifyBody(lines[0])
      case Terminator => Outcome(Ok(Entry(h.kind, h.vxid, fields)), 1)
      case Malformed => Outcome(Err(MalformedBody(lines[0])), 1)
      case Field(kv) => ReadBody(lines[1..], h, AddField(fields, kv.key, kv.value)).Shift(1)
  }

  /** The body state reads only field lines before the line it stops at. */
  lemma {:induction false} ReadBodyStops(lines: seq<string>, h: Header, fields: Fields)
    ensures forall i :: 0 <= i < ReadBody(lines, h, fields).consumed - 1 ==> ClassifyBody(lines[i]).Field?
    decreases |lines|
  {
    if lines != [] {
      var c := ClassifyBody(lines[0]);
      if c.Field? {
        var tail := lines[1..];
        var next := AddField(fields, c.kv.key, c.kv.value);
        assert ReadBody(lines, h, fields).consumed == ReadBody(tail, h, next).consumed + 1 by {
          ReadBodyStep(lines, h, fields);
        }
        ReadBodyStops(tail, h, next);
        forall i | 0 < i < |lines|
          ensures lines[i] == tail[i - 1]
        {
        }
      } else {
        ReadBodyStep(lines, h, fields);
      }
    }
  }

  /**
   * The line the body state stops at: the terminator gives the entry of the header, a
   * malformed line the error naming it.
   */
  lemma {:induction false} ReadBodyEnds(lines: seq<string>, h: Header, fields: Fields)
    ensures var o := ReadBody(lines, h, fields);
      && (o.result.Ok? ==>
            0 < o.consumed && ClassifyBody(lines[o.consumed - 1]) == Terminator &&
            o.result.value.kind == h.kind && o.result.value.vxid == h.vxid)
      && (o.result.Err? && o.result.error.MalformedBody? ==>
            0 < o.consumed && lines[o.consumed - 1] == o.result.error.line &&
            ClassifyBody(o.result.error.line) == Malformed)
    decreases |lines|
  {
    if lines != [] {
      var c := ClassifyBody(lines[0]);
      ReadBodyStep(lines, h, fields);
      if c.Field? {
        var tail := lines[1..];
        ReadBodyEnds(tail, h, AddField(fields, c.kv.key, c.kv.value));
        var o := ReadBody(tail, h, AddField(fields, c.kv.key, c.kv.value));
        if 0 < o.consumed {
          assert lines[o.consumed] == tail[o.consumed - 1];
        }
      }
    }
  }

  /** Every line is a field line. */
  predicate AllFields(lines: seq<string>) {
    forall i :: 0 <= i < |lines| ==> ClassifyBody(lines[i]).Field?
  }

  lemma AllFieldsStep(lines: seq<string>)
    requires lines != []
    ensures AllFields(lines) <==> ClassifyBody(lines[0]).Field? && AllFields(lines[1..])
  {
    if ClassifyBody(lines[0]).Field? && AllFields(lines[1..]) {
      forall i | 0 < i < |lines|
        ensures ClassifyBody(lines[i]).Field?
      {
        assert lines[i] == lines[1..][i - 1];
      }
    }
  }

  /** The tags and values of the field lines, in order; other lines contribute nothing. */
  function FieldPairs(lines: seq<string>): (r: seq<KeyValue>)
    ensures |r| <= |lines|
    ensures AllFields(lines) ==> |r| == |lines|
    decreases |lines|
  {
    if lines == [] then []
    else
      (match ClassifyBody(lines[0])
       case Field(kv) => [kv]
       case _ => [])
      + FieldPairs(lines[1..])
  }

  /**
   * Field lines, however they are written, are read into the fields in order before the body
   * state goes on with what follows them.
   */
  lemma {:induction false} ReadFieldLines(body: seq<string>, tail: seq<string>, h: Header, acc: Fields)
    requires AllFields(body)
    ensures ReadBody(body + tail, h, acc)
         == ReadBody(tail, h, CollectInto(acc, FieldPairs(body))).Shift(|body|)
    decreases |body|
  {
    if body == [] {
      AppendEmpty(tail);
    } else {
      var kv := ClassifyBody(body[0]).kv;
      var next := AddField(acc, kv.key, kv.value);
      var more := body[1..];
      assert ClassifyBody(body[0]).Field? && AllFields(more) by {
        AllFieldsStep(body);
      }
      assert ReadBody(body + tail, h, acc) == ReadBody(more + tail, h, next).Shift(1) by {
        DropFirstAppend(body, tail);
        ReadBodyStep(body + tail, h, acc);
      }
      assert ReadBody(more + tail, h, next)
          == ReadBody(tail, h, CollectInto(next, FieldPairs(more))).Shift(|more|) by {
        ReadFieldLines(more, tail, h, next);
      }
      assert CollectInto(acc, FieldPairs(body)) == CollectInto(next, FieldPairs(more)) by {
        var pairs := FieldPairs(body);
        assert pairs == [kv] + FieldPairs(more);
        assert pairs[0] == kv && pairs[1..] == FieldPairs(more);
      }
    }
  }

  /**
   * Field lines followed by any terminator line give the entry of the header with the fields
   * of those lines, and nothing after the terminator is consumed.
   */
  lemma ReadTerminatedBody(body: seq<string>, t: string, rest: seq<string>, h: Header, acc: Fields)
    requires AllFields(body) && ClassifyBody(t) == Terminator
    ensures ReadBody(body + [t] + rest, h, acc)
         == Outcome(Ok(Entry(h.kind, h.vxid, CollectInto(acc, FieldPairs(body)))), |body| + 1)
  {
    AppendAssoc(body, [t], rest);
    ReadFieldLines(body, [t] + rest, h, acc);
    ReadBodyStep([t] + rest, h, CollectInto(acc, FieldPairs(body)));
  }

  /** The entry is truncated exactly when every line is a field; then all of them are consumed. */
  lemma {:induction false} ReadBodyTruncated(lines: seq<string>, h: Header, fields: Fields)
    ensures ReadBody(lines, h, fields).result == Err(Truncated) <==> AllFields(lines)
    ensures ReadBody(lines, h, fields).result == Err(Truncated) ==> ReadBody(lines, h, fields).consumed == |lines|
    decreases |lines|
  {
    if lines != [] {
      AllFieldsStep(lines);
      var c := ClassifyBody(lines[0]);
      if c.Field? {
        var next := AddField(fields, c.kv.key, c.kv.value);
        assert ReadBody(lines, h, fields) == ReadBody(lines[1..], h, next).Shift(1) by {
          ReadBodyStep(lines, h, fields);
        }
        ReadBodyTruncated(lines[1..], h, next);
      } else {
        assert ReadBody(lines, h, fields).result != Err(Truncated) by {
          ReadBodyStep(lines, h, fields);
        }
      }
    }
  }

  /**
   * The seek state: skip blank lines; the source running out here is the clean end of
   * input; the first other line must be a header, after which the body is read.
   */
  function Seek(lines: seq<string>): (o: Outcome)
    ensures o.consumed <= |lines|
    decreases |lines|
  {
    if lines == [] then Outcome(Err(EndOfInput), 0)
    else if IsBlank(lines[0]) then Seek(lines[1..]).Shift(1)
    else
      match ParseHeader(lines[0])
      case None => Outcome(Err(MalformedHeader(lines[0])), 1)
      case Some(h) => ReadBody(lines[1..], h, map[]).Shift(1)
  }

  /** One step of the seek state, by what the first line is. */
  lemma SeekStep(lines: seq<string>)
    requires lines != []
    ensures IsBlank(lines[0]) ==> Seek(lines) == Seek(lines[1..]).Shift(1)
    ensures !IsBlank(lines[0]) && ParseHeader(lines[0]).None? ==>
      Seek(lines) == Outcome(Err(MalformedHeader(lines[0])), 1)
    ensures !IsBlank(lines[0]) && ParseHeader(lines[0]).Some? ==>
      Seek(lines) == ReadBody(lines[1..], ParseHeader(lines[0]).value, map[]).Shift(1)
  {
  }

  /** SeekStep on the lines from position i of a source. */
  lemma SeekAt(lines: seq<string>, i: nat)
    requires i < |lines|
    ensures IsBlank(lines[i]) ==> Seek(lines[i..]) == Seek(lines[i + 1..]).Shift(1)
    ensures !IsBlank(lines[i]) && ParseHeader(lines[i]).None? ==>
      Seek(lines[i..]) == Outcome(Err(MalformedHeader(lines[i])), 1)
    ensures !IsBlank(lines[i]) && ParseHeader(lines[i]).Some? ==>
      Seek(lines[i..]) == ReadBody(lines[i + 1..], ParseHeader(lines[i]).value, map[]).Shift(1)
  {
    SuffixStep(lines, i);
    SeekStep(lines[i..]);
  }

  /** ReadBodyStep on the lines from position i of a source. */
  lemma ReadBodyAt(lines: seq<string>, i: nat, h: Header, acc: Fields)
    requires i < |lines|
    ensures ClassifyBody(lines[i]) == Terminator ==>
      ReadBody(lines[i..], h, acc) == Outcome(Ok(Entry(h.kind, h.vxid, acc)), 1)
    ensures ClassifyBody(lines[i]).Field? ==>
      var kv := ClassifyBody(lines[i]).kv;
      ReadBody(lines[i..], h, acc) == ReadBody(lines[i + 1..], h, AddField(acc, kv.key, kv.value)).Shift(1)
    ensures ClassifyBody(lines[i]) == Malformed ==>
      ReadBody(lines[i..], h, acc) == Outcome(Err(MalformedBody(lines[i])), 1)
  {
    SuffixStep(lines, i);
    ReadBodyStep(lines[i..], h, acc);
  }

  /** The clean end of input is reported exactly when nothing but blank lines is left, and then all of them are consumed. */
  lemma {:induction false} SeekEndOfInput(lines: seq<string>)
    ensures Seek(lines).result == Err(EndOfInput) <==> AllBlank(lines)
    ensures AllBlank(lines) ==> Seek(lines).consumed == |lines|
    decreases |lines|
  {
    if lines != [] && IsBlank(lines[0]) {
      SeekEndOfInput(lines[1..]);
      assert AllBlank(lines) <==> AllBlank(lines[1..]);
    }
  }

  /** Blank lines in front of an entry are skipped and counted as consumed. */
  lemma {:induction false} SeekSkipsBlanks(blanks: seq<string>, lines: seq<string>)
    requires AllBlank(blanks)
    ensures Seek(blanks + lines) == Seek(lines).Shift(|blanks|)
    decreases |blanks|
  {
    if blanks != [] {
      DropFirstAppend(blanks, lines);
      SeekSkipsBlanks(blanks[1..], lines);
    } else {
      AppendEmpty(lines);
    }
  }

  /** A non-blank line that is not a header, after blank lines, is reported as a malformed header. */
  lemma SeekMalformedHeader(blanks: seq<string>, line: string, rest: seq<string>)
    requires AllBlank(blanks) && !IsBlank(line) && ParseHeader(line) == None
    ensures Seek(blanks + [line] + rest) == Outcome(Err(MalformedHeader(line)), |blanks| + 1)
  {
    AppendAssoc(blanks, [line], rest);
    SeekSkipsBlanks(blanks, [line] + rest);
    DropFirstAppend([line], rest);
  }

  /** Field lines only (WellFormed, and not a bare End). */
  predicate BodyFields(body: seq<KeyValue>) {
    forall i :: 0 <= i < |body| ==> WellFormed(body[i]) && body[i] != KeyValue(EndTag, [])
  }

  /** The field lines of a body as varnishlog writes them. */
  function FormatBody(body: seq<KeyValue>): (r: seq<string>)
    ensures |r| == |body|
    decreases |body|
  {
    if body == [] then [] else [FormatField(body[0])] + FormatBody(body[1..])
  }

  /** The line varnishlog ends an entry with. */
  const TerminatorLine: string := "- End"

  /** The lines of one entry: header, field lines, terminator. */
  function FormatEntry(h: Header, body: seq<KeyValue>): seq<string> {
    [FormatHeader(h)] + FormatBody(body) + [TerminatorLine]
  }

  /** One step of the body state, by what the first line is. */
  lemma ReadBodyStep(lines: seq<string>, h: Header, acc: Fields)
    requires lines != []
    ensures ClassifyBody(lines[0]) == Terminator ==>
      ReadBody(lines, h, acc) == Outcome(Ok(Entry(h.kind, h.vxid, acc)), 1)
    ensures ClassifyBody(lines[0]).Field? ==>
      var kv := ClassifyBody(lines[0]).kv;
      ReadBody(lines, h, acc) == ReadBody(lines[1..], h, AddField(acc, kv.key, kv.value)).Shift(1)
    ensures ClassifyBody(lines[0]) == Malformed ==>
      ReadBody(lines, h, acc) == Outcome(Err(MalformedBody(lines[0])), 1)
  {
  }

  /** The written terminator ends an entry with the fields read so far, and nothing after it is read. */
  lemma ReadTerminatorLine(rest: seq<string>, h: Header, acc: Fields)
    ensures ReadBody([TerminatorLine] + rest, h, acc) == Outcome(Ok(Entry(h.kind, h.vxid, acc)), 1)
  {
    assert TerminatorLine == "-" + " " + EndTag + [];
    ClassifyTerminator(" ", []);
    ReadBodyStep([TerminatorLine] + rest, h, acc);
  }

  /** Written field lines followed by the terminator read back as the fields, in order, and nothing after the terminator is consumed. */
  lemma {:induction false} ReadFormattedBody(body: seq<KeyValue>, rest: seq<string>, h: Header, acc: Fields)
    requires BodyFields(body)
    ensures ReadBody(FormatBody(body) + [TerminatorLine] + rest, h, acc)
         == Outcome(Ok(Entry(h.kind, h.vxid, CollectInto(acc, body))), |body| + 1)
    decreases |body|
  {
    if body == [] {
      AppendEmpty([TerminatorLine]);
      ReadTerminatorLine(rest, h, acc);
    } else {
      ReadFormattedBody(body[1..], rest, h, AddField(acc, body[0].key, body[0].value));
      ReadFormattedField(body, rest, h, acc);
    }
  }

  /** The inductive step of ReadFormattedBody: the first field line is read into the fields. */
  lemma ReadFormattedField(body: seq<KeyValue>, rest: seq<string>, h: Header, acc: Fields)
    requires body != [] && BodyFields(body)
    requires var acc' := AddField(acc, body[0].key, body[0].value);
      ReadBody(FormatBody(body[1..]) + [TerminatorLine] + rest, h, acc')
        == Outcome(Ok(Entry(h.kind, h.vxid, CollectInto(acc', body[1..]))), |body|)
    ensures ReadBody(FormatBody(body) + [TerminatorLine] + rest, h, acc)
         == Outcome(Ok(Entry(h.kind, h.vxid, CollectInto(acc, body))), |body| + 1)
  {
    var tail := FormatBody(body[1..]) + [TerminatorLine] + rest;
    var lines := [FormatField(body[0])] + tail;
    AppendAssoc([FormatField(body[0])], FormatBody(body[1..]), [TerminatorLine]);
    AppendAssoc([FormatField(body[0])], FormatBody(body[1..]) + [TerminatorLine], rest);
    ClassifyFormatField(body[0]);
    ReadBodyStep(lines, h, acc);
    DropFirstAppend([FormatField(body[0])], tail);
  }

  /** A written header starts the body state with the header's kind and id and no fields. */
  lemma SeekFormattedHeader(h: Header, tail: seq<string>)
    requires h.vxid <= UintMax
    ensures Seek([FormatHeader(h)] + tail) == ReadBody(tail, h, map[]).Shift(1)
  {
    ParseFormatHeader(h);
    HeaderIsNotBlank(FormatHeader(h));
    DropFirstAppend([FormatHeader(h)], tail);
  }

  /**
   * Round trip: after any blank lines, a written entry parses to its kind, id and the fields
   * of its body, and exactly its lines (and the blanks) are consumed.
   */
  lemma SeekFormattedEntry(blanks: seq<string>, h: Header, body: seq<KeyValue>, rest: seq<string>)
    requires AllBlank(blanks) && h.vxid <= UintMax && BodyFields(body)
    ensures Seek(blanks + FormatEntry(h, body) + rest)
         == Outcome(Ok(Entry(h.kind, h.vxid, Collect(body))), |blanks| + |FormatEntry(h, body)|)
  {
    var tail := FormatBody(body) + [TerminatorLine] + rest;
    var lines := [FormatHeader(h)] + tail;
    AppendAssoc(blanks, FormatEntry(h, body), rest);
    AppendAssoc([FormatHeader(h)], FormatBody(body) + [TerminatorLine], rest);
    AppendAssoc([FormatHeader(h)], FormatBody(body), [TerminatorLine]);
    SeekSkipsBlanks(blanks, lines);
    SeekFormattedHeader(h, tail);
    ReadFormattedBody(body, rest, h, map[]);
  }

  /**
   * Successive parse calls: two written entries with blank lines between them parse one
   * after the other, each call consuming exactly one entry.
   */
  lemma SeekConsecutive(h1: Header, b1: seq<KeyValue>, gap: seq<string>, h2: Header, b2: seq<KeyValue>, rest: seq<string>)
    requires h1.vxid <= UintMax && BodyFields(b1)
    requires h2.vxid <= UintMax && BodyFields(b2) && AllBlank(gap)
    ensures var lines := FormatEntry(h1, b1) + gap + FormatEntry(h2, b2) + rest;
      var o1 := Seek(lines);
      && o1 == Outcome(Ok(Entry(h1.kind, h1.vxid, Collect(b1))), |FormatEntry(h1, b1)|)
      && Seek(lines[o1.consumed..]) == Outcome(Ok(Entry(h2.kind, h2.vxid, Collect(b2))), |gap| + |FormatEntry(h2, b2)|)
  {
    var e1, e2 := FormatEntry(h1, b1), FormatEntry(h2, b2);
    AppendAssoc(e1 + gap, e2, rest);
    AppendAssoc(e1, gap, e2 + rest);
    AppendAssoc(e1, gap + e2, rest);
    AppendAssoc(gap, e2, rest);
    AppendEmpty(e1);
    SeekFormattedEntry([], h1, b1, gap + e2 + rest);
    SliceAppend(e1, gap + e2 + rest);
    SeekFormattedEntry(gap, h2, b2, rest);
  }

  /**
   * One parse reads exactly one entry, however its lines are spaced: after blank lines, a
   * header line, field lines and a terminator line give the header's entry with the fields
   * of those lines, and nothing after the terminator is consumed.
   */
  lemma SeekEntry(blanks: seq<string>, hl: string, h: Header, body: seq<string>, t: string, rest: seq<string>)
    requires AllBlank(blanks) && ParseHeader(hl) == Some(h)
    requires AllFields(body) && ClassifyBody(t) == Terminator
    ensures Seek(blanks + [hl] + body + [t] + rest)
         == Outcome(Ok(Entry(h.kind, h.vxid, Collect(FieldPairs(body)))), |blanks| + |body| + 2)
  {
    var tail := body + [t] + rest;
    var lines := [hl] + tail;
    assert blanks + [hl] + body + [t] + rest == blanks + lines by {
      AppendAssoc(blanks, [hl], body);
      AppendAssoc(blanks + [hl], body, [t]);
      AppendAssoc(blanks + [hl] + body, [t], rest);
      AppendAssoc(blanks, [hl], body + [t] + rest);
      AppendAssoc([hl], body, [t]);
      AppendAssoc([hl], body + [t], rest);
      AppendAssoc(body, [t], rest);
    }
    assert Seek(blanks + lines) == Seek(lines).Shift(|blanks|) by {
      SeekSkipsBlanks(blanks, lines);
    }
    assert Seek(lines) == ReadBody(tail, h, map[]).Shift(1) by {
      HeaderIsNotBlank(hl);
      DropFirstAppend([hl], tail);
      SeekStep(lines);
    }
    assert ReadBody(tail, h, map[])
        == Outcome(Ok(Entry(h.kind, h.vxid, CollectInto(map[], FieldPairs(body)))), |body| + 1) by {
      ReadTerminatedBody(body, t, rest, h, map[]);
    }
  }

  /**
   * A header line followed by field lines and then the end of the source is a truncated
   * entry, however the lines are spaced; all of them are consumed.
   */
  lemma SeekTruncated(blanks: seq<string>, hl: string, h: Header, body: seq<string>)
    requires AllBlank(blanks) && ParseHeader(hl) == Some(h) && AllFields(body)
    ensures Seek(blanks + [hl] + body) == Outcome(Err(Truncated), |blanks| + 1 + |body|)
  {
    var lines := [hl] + body;
    assert Seek(blanks + [hl] + body) == Seek(lines).Shift(|blanks|) by {
      AppendAssoc(blanks, [hl], body);
      SeekSkipsBlanks(blanks, lines);
    }
    assert Seek(lines) == ReadBody(body, h, map[]).Shift(1) by {
      HeaderIsNotBlank(hl);
      DropFirstAppend([hl], body);
      SeekStep(lines);
    }
    assert ReadBody(body, h, map[]) == Outcome(Err(Truncated), |body|) by {
      ReadBodyTruncated(body, h, map[]);
    }
  }

  /**
   * Converse of ReadTerminatedBody: an entry from the body state was read from field lines
   * and a terminator, and its fields are those of the field lines.
   */
  lemma ReadBodyOkLayout(lines: seq<string>, h: Header, acc: Fields) returns (body: seq<string>, t: string, rest: seq<string>)
    requires ReadBody(lines, h, acc).result.Ok?
    ensures lines == body + [t] + rest
    ensures AllFields(body) && ClassifyBody(t) == Terminator
    ensures ReadBody(lines, h, acc) == Outcome(Ok(Entry(h.kind, h.vxid, CollectInto(acc, FieldPairs(body)))), |body| + 1)
  {
    var c := ReadBody(lines, h, acc).consumed;
    assert 0 < c && ClassifyBody(lines[c - 1]) == Terminator by {
      ReadBodyEnds(lines, h, acc);
    }
    body, t, rest := lines[..c - 1], lines[c - 1], lines[c..];
    assert AllFields(body) by {
      ReadBodyStops(lines, h, acc);
    }
    SplitAt(lines, c - 1);
    ReadTerminatedBody(body, t, rest, h, acc);
  }

  /**
   * Converse of SeekEntry: an entry from one parse was read from blank lines, a header line
   * with its kind and id, field lines and a terminator, and nothing else; its fields are those
   * of the field lines.
   */
  lemma {:induction false} SeekOkLayout(lines: seq<string>)
    returns (blanks: seq<string>, hl: string, body: seq<string>, t: string, rest: seq<string>)
    requires Seek(lines).result.Ok?
    ensures lines == blanks + [hl] + body + [t] + rest
    ensures AllBlank(blanks) && AllFields(body) && ClassifyBody(t) == Terminator
    ensures ParseHeader(hl) == Some(Header(Seek(lines).result.value.kind, Seek(lines).result.value.vxid))
    ensures Seek(lines) == Outcome(Ok(Entry(Seek(lines).result.value.kind, Seek(lines).result.value.vxid, Collect(FieldPairs(body)))), |blanks| + |body| + 2)
    decreases |lines|
  {
    var first, tail := lines[0], lines[1..];
    assert lines == [first] + tail;
    var o := Seek(lines);
    if IsBlank(first) {
      assert o == Seek(tail).Shift(1) by {
        SeekStep(lines);
      }
      var more;
      more, hl, body, t, rest := SeekOkLayout(tail);
      blanks := [first] + more;
      assert lines == blanks + [hl] + body + [t] + rest by {
        AppendAssoc([first], more, [hl]);
        AppendAssoc([first], more + [hl], body);
        AppendAssoc([first], more + [hl] + body, [t]);
        AppendAssoc([first], more + [hl] + body + [t], rest);
      }
      assert AllBlank(blanks);
    } else {
      var h := ParseHeader(first).value;
      assert ParseHeader(first).Some? && o == ReadBody(tail, h, map[]).Shift(1) by {
        SeekStep(lines);
      }
      blanks, hl := [], first;
      body, t, rest := ReadBodyOkLayout(tail, h, map[]);
      assert lines == blanks + [hl] + body + [t] + rest by {
        AppendEmpty([hl]);
        AppendAssoc([hl], body, [t]);
        AppendAssoc([hl], body + [t], rest);
      }
    }
    SeekEntry(blanks, hl, Header(o.result.value.kind, o.result.value.vxid), body, t, rest);
  }

  /** Field lines with no terminator after them run the source out. */
  lemma {:induction false} ReadUnterminatedBody(body: seq<KeyValue>, h: Header, acc: Fields)
    requires BodyFields(body)
    ensures ReadBody(FormatBody(body), h, acc) == Outcome(Err(Truncated), |body|)
    decreases |body|
  {
    if body != [] {
      var lines := FormatBody(body);
      var kv := body[0];
      var next := AddField(acc, kv.key, kv.value);
      assert lines[0] == FormatField(kv) && lines[1..] == FormatBody(body[1..]) by {
        DropFirstAppend([FormatField(kv)], FormatBody(body[1..]));
      }
      assert ClassifyBody(lines[0]) == Field(kv) by {
        ClassifyFormatField(kv);
      }
      assert ReadBody(lines, h, acc) == ReadBody(lines[1..], h, next).Shift(1) by {
        ReadBodyStep(lines, h, acc);
      }
      ReadUnterminatedBody(body[1..], h, next);
    }
  }

  /** The line source: the lines of the input and the read position (bufio.Scanner). */
  class Scanner {
    const lines: seq<string>
    var pos: nat
    var text: string

    ghost predicate Valid()
      reads this
    {
      pos <= |lines|
    }

    /** The current text is empty or the line last read. */
    ghost predicate Current()
      reads this
    {
      text == [] || (0 < pos <= |lines| && text == lines[pos - 1])
    }

    /** The lines not read yet. */
    function Remaining(): seq<string>
      reads this
      requires Valid()
    {
      lines[pos..]
    }

    constructor (lines: seq<string>)
      ensures Valid() && Current() && this.lines == lines && pos == 0 && text == []
    {
      this.lines := lines;
      pos := 0;
      text := [];
    }

    /** Advances to the next line; false when the source is exhausted. */
    method Scan() returns (more: bool)
      requires Valid()
      modifies this
      ensures Valid() && Current()
      ensures more == (old(pos) < |lines|)
      ensures more ==> pos == old(pos) + 1 && text == lines[old(pos)]
      ensures !more ==> pos == old(pos) && text == []
    {
      more := pos < |lines|;
      if more {
        text := lines[pos];
        pos := pos + 1;
      } else {
        text := [];
      }
    }

    /** The line the last successful Scan read, or the empty string. */
    function Text(): (t: string)
      reads this
      requires Current()
      ensures t == [] || (0 < pos <= |lines| && t == lines[pos - 1])
    {
      text
    }
  }

  /**
   * Reads the next entry from the scanner. The result and the lines consumed are those of
   * Seek on the lines not yet read.
   */
  method Parse(scanner: Scanner) returns (r: Result<Entry, ParseError>)
    requires scanner.Valid()
    modifies scanner
    ensures scanner.Valid()
    ensures r == Seek(old(scanner.Remaining())).result
    ensures scanner.pos == old(scanner.pos) + Seek(old(scanner.Remaining())).consumed
  {
    var header := SeekHeader(scanner);
    if header.Err? {
      return Err(header.error);
    }
    r := ReadEntry(scanner, header.value);
  }

  /**
   * The seek state of Parse: skips blank lines and reads the header. On success the
   * remaining work of Seek is the body state on the lines after the header.
   */
  method SeekHeader(scanner: Scanner) returns (r: Result<Header, ParseError>)
    requires scanner.Valid()
    modifies scanner
    ensures scanner.Valid() && old(scanner.pos) <= scanner.pos
    ensures r.Ok? ==>
      Seek(old(scanner.Remaining()))
        == ReadBody(scanner.Remaining(), r.value, map[]).Shift(scanner.pos - old(scanner.pos))
    ensures r.Err? ==>
      Seek(old(scanner.Remaining())) == Outcome(Err(r.error), scanner.pos - old(scanner.pos))
  {
    ghost var start := scanner.pos;
    ghost var at := start;
    var line: string;
    while true
      invariant scanner.Valid() && start <= scanner.pos
      invariant Seek(scanner.lines[start..]) == Seek(scanner.lines[scanner.pos..]).Shift(scanner.pos - start)
      decreases |scanner.lines| - scanner.pos
    {
      at := scanner.pos;
      var more := scanner.Scan();
      if !more {
        return Err(EndOfInput);
      }
      line := scanner.Text();
      if !IsBlank(line) {
        break;
      }
      assert Seek(scanner.lines[at..]) == Seek(scanner.lines[scanner.pos..]).Shift(1) by {
        SeekAt(scanner.lines, at);
      }
    }
    var header := ParseHeader(line);
    if header.None? {
      assert Seek(scanner.lines[at..]) == Outcome(Err(MalformedHeader(line)), 1) by {
        SeekAt(scanner.lines, at);
      }
      return Err(MalformedHeader(line));
    }
    assert Seek(scanner.lines[at..]) == ReadBody(scanner.lines[scanner.pos..], header.value, map[]).Shift(1) by {
      SeekAt(scanner.lines, at);
    }
    r := Ok(header.value);
  }

  /**
   * The body state of Parse: reads field lines into the fields of the entry until the
   * terminator.
   */
  method ReadEntry(scanner: Scanner, h: Header) returns (r: Result<Entry, ParseError>)
    requires scanner.Valid()
    modifies scanner
    ensures scanner.Valid() && old(scanner.pos) <= scanner.pos
    ensures ReadBody(old(scanner.Remaining()), h, map[]) == Outcome(r, scanner.pos - old(scanner.pos))
  {
    ghost var start := scanner.pos;
    ghost var at := start;
    var fields: Fields := map[];
    while true
      invariant scanner.Valid() && start <= scanner.pos
      invariant ReadBody(scanner.lines[start..], h, map[])
             == ReadBody(scanner.lines[scanner.pos..], h, fields).Shift(scanner.pos - start)
      decreases |scanner.lines| - scanner.pos
    {
      at := scanner.pos;
      var more := scanner.Scan();
      if !more {
        return Err(Truncated);
      }
      var line := scanner.Text();
      match ClassifyBody(line)
      case Terminator =>
        assert ReadBody(scanner.lines[at..], h, fields) == Outcome(Ok(Entry(h.kind, h.vxid, fields)), 1) by {
          ReadBodyAt(scanner.lines, at, h, fields);
        }
        return Ok(Entry(h.kind, h.vxid, fields));
      case Malformed =>
        assert ReadBody(scanner.lines[at..], h, fields) == Outcome(Err(MalformedBody(line)), 1) by {
          ReadBodyAt(scanner.lines, at, h, fields);
        }
        return Err(MalformedBody(line));
      case Field(kv) =>
        assert ReadBody(scanner.lines[at..], h, fields)
            == ReadBody(scanner.lines[scanner.pos..], h, AddField(fields, kv.key, kv.value)).Shift(1) by {
          ReadBodyAt(scanner.lines, at, h, fields);
        }
        fields := AddField(fields, kv.key, kv.value);
    }
  }
}
