/**
 * The sample inputs of the package's own tests, worked through the model: tokenizing
 * single body lines, reading headers, and parsing whole entries, one after another and
 * up to the end of the stream.
 *
 * The lemmas HeaderLine*, BodyLineTexts and DigitsAppend only state facts about literal
 * strings and decimal digits. They are kept apart from the entry lemmas that use them, so
 * that each of those proofs only sees the few literal facts it needs.
 */
module ParserExamples {
  import opened Wrappers
  import opened Tokenizer
  import opened Entries
  import opened Parser

  /** An empty line has neither key nor value. */
  lemma SplitEmpty()
    ensures SplitLine("") == KeyValue("", "")
  {
    SplitLineOfLayout("", "", "", "", "");
  }

  /** A key alone, padded on both sides, has an empty value. */
  lemma SplitBlankPadded()
    ensures SplitLine("    foo    ") == KeyValue("foo", "")
  {
    SplitLineOfLayout("    foo    ", "    ", "foo", "    ", "");
  }

  /** A key and a value separated by one space. */
  lemma SplitPair()
    ensures SplitLine("foo bar") == KeyValue("foo", "bar")
  {
    SplitLineOfLayout("foo bar", "", "foo", " ", "bar");
  }

  /** Separators before the key and between key and value are dropped. */
  lemma SplitPaddedPair()
    ensures SplitLine("  foo  bar") == KeyValue("foo", "bar")
  {
    SplitLineOfLayout("  foo  bar", "  ", "foo", "  ", "bar");
  }

  /** Trailing spaces stay in the value. */
  lemma SplitTrailingSpaces()
    ensures SplitLine(" foo    bar   ") == KeyValue("foo", "bar   ")
  {
    SplitLineOfLayout(" foo    bar   ", " ", "foo", "    ", "bar   ");
  }

  /** Tabs separate like spaces, and a trailing tab stays in the value. */
  lemma SplitTabs()
    ensures SplitLine("\t\t\t\t foo\tbar\t ") == KeyValue("foo", "bar\t ")
  {
    SplitLineOfLayout("\t\t\t\t foo\tbar\t ", "\t\t\t\t ", "foo", "\t", "bar\t ");
  }

  /** One more trailing digit: the value of the longer digit string. */
  lemma DigitsAppend(s: string, t: string, v: nat)
    requires AllDigits(t) && t != [] && s == t[..|t| - 1] && DigitsValue(s) == v
    ensures DigitsValue(t) == 10 * v + (t[|t| - 1] - '0') as nat
  {
  }

  /** The transaction ids of the samples read as their numbers. */
  lemma SampleIds()
    ensures ParseVxid("1") == Some(1)
    ensures ParseVxid("123") == Some(123)
    ensures ParseVxid("124") == Some(124)
  {
    assert DigitsValue("1") == 1;
    assert DigitsValue("123") == 123 by {
      DigitsAppend("1", "12", 1);
      DigitsAppend("12", "123", 12);
    }
    assert DigitsValue("124") == 124 by {
      DigitsAppend("1", "12", 1);
      DigitsAppend("12", "124", 12);
    }
  }

  lemma LongSampleId()
    ensures ParseVxid("40000000") == Some(40000000)
  {
    DigitsAppend("4", "40", 4);
    DigitsAppend("40", "400", 40);
    DigitsAppend("400", "4000", 400);
    DigitsAppend("4000", "40000", 4000);
    DigitsAppend("40000", "400000", 40000);
    DigitsAppend("400000", "4000000", 400000);
    DigitsAppend("4000000", "40000000", 4000000);
  }

  /** A header without leading or trailing separators is read by its kind and id. */
  lemma GappedHeader(g1: string, g2: string, g3: string, g4: string, kind: Kind, id: string)
    requires AllSpace(g1) && AllSpace(g2) && AllSpace(g3) && AllSpace(g4)
    requires g1 != [] && g2 != [] && g3 != [] && g4 != []
    requires id != [] && NoSpace(id)
    ensures ParseHeader("*" + (g1 + ("<<" + (g2 + (KindName(kind) + (g3 + (">>" + (g4 + id))))))))
         == if ParseVxid(id).Some? then Some(Header(kind, ParseVxid(id).value)) else None
  {
    var gaps := ["", g1, g2, g3, g4, ""];
    var ws := ["*", "<<", KindName(kind), ">>", id];
    var s4 := Spaced([g4, ""], [id]);
    assert s4 == g4 + id by {
      assert [g4, ""][1..] == [""] && [id][1..] == [];
      assert Spaced([""], []) == "";
    }
    var s3 := Spaced([g3, g4, ""], [">>", id]);
    assert s3 == g3 + (">>" + s4) by {
      assert [g3, g4, ""][1..] == [g4, ""];
    }
    var s2 := Spaced([g2, g3, g4, ""], [KindName(kind), ">>", id]);
    assert s2 == g2 + (KindName(kind) + s3) by {
      assert [g2, g3, g4, ""][1..] == [g3, g4, ""];
    }
    var s1 := Spaced([g1, g2, g3, g4, ""], ["<<", KindName(kind), ">>", id]);
    assert s1 == g1 + ("<<" + s2) by {
      assert [g1, g2, g3, g4, ""][1..] == [g2, g3, g4, ""];
    }
    assert Spaced(gaps, ws) == "*" + s1 by {
      assert gaps[1..] == [g1, g2, g3, g4, ""];
      assert ws[1..] == ["<<", KindName(kind), ">>", id];
    }
    assert Spaced(gaps, ws) == "*" + (g1 + ("<<" + (g2 + (KindName(kind) + (g3 + (">>" + (g4 + id)))))));
    ParseSpacedHeader(gaps, kind, id);
  }

  /** The header lines of the samples, laid out as GappedHeader reads them. */
  lemma HeaderLineWide()
    ensures "*" + ("   " + ("<<" + ("  " + (KindName(Request) + (" " + (">>" + (" " + "40000000")))))))
         == "*   <<  Request >> 40000000"
  {
    assert KindName(Request) == "Request";
  }

  lemma HeaderLineBeReq123()
    ensures "*" + (" " + ("<<" + (" " + (KindName(BeReq) + (" " + (">>" + (" " + "123")))))))
         == "* << BeReq >> 123"
  {
    assert KindName(BeReq) == "BeReq";
  }

  lemma HeaderLineBeReq124()
    ensures "*" + (" " + ("<<" + (" " + (KindName(BeReq) + (" " + (">>" + (" " + "124")))))))
         == "* << BeReq >> 124"
  {
    assert KindName(BeReq) == "BeReq";
  }

  lemma HeaderLineRequest1()
    ensures "*" + (" " + ("<<" + (" " + (KindName(Request) + (" " + (">>" + (" " + "1")))))))
         == "* << Request >> 1"
  {
    assert KindName(Request) == "Request";
  }

  lemma HeaderLineWordId()
    ensures "*" + (" " + ("<<" + (" " + (KindName(Request) + (" " + (">>" + (" " + "Foo")))))))
         == "* << Request >> Foo"
  {
    assert KindName(Request) == "Request";
  }

  /** Runs of separators between the header words are accepted. */
  lemma HeaderWideSpacing()
    ensures ParseHeader("*   <<  Request >> 40000000") == Some(Header(Request, 40000000))
  {
    LongSampleId();
    HeaderLineWide();
    GappedHeader("   ", "  ", " ", " ", Request, "40000000");
  }

  /** The header of the first sample entry. */
  lemma HeaderBeReq123()
    ensures ParseHeader("* << BeReq >> 123") == Some(Header(BeReq, 123))
  {
    SampleIds();
    HeaderLineBeReq123();
    GappedHeader(" ", " ", " ", " ", BeReq, "123");
  }

  /** The header of the second of two consecutive sample entries. */
  lemma HeaderBeReq124()
    ensures ParseHeader("* << BeReq >> 124") == Some(Header(BeReq, 124))
  {
    SampleIds();
    HeaderLineBeReq124();
    GappedHeader(" ", " ", " ", " ", BeReq, "124");
  }

  /** The header of the sample entries that fail in their body. */
  lemma HeaderRequest1()
    ensures ParseHeader("* << Request >> 1") == Some(Header(Request, 1))
  {
    SampleIds();
    HeaderLineRequest1();
    GappedHeader(" ", " ", " ", " ", Request, "1");
  }

  /** A transaction id that is not a number makes the header malformed. */
  lemma HeaderWordId()
    ensures ParseHeader("* << Request >> Foo") == None
  {
    HeaderLineWordId();
    GappedHeader(" ", " ", " ", " ", Request, "Foo");
    ParseVxidRejectsNonDigit("Foo", 0);
  }

  /** The sample body lines, as marker and rest. */
  lemma BodyLineTexts()
    ensures "-" + " " + EndTag + "" == "- End"
    ensures "-" + " Foo Bar" == "- Foo Bar"
    ensures "-" + "Foo Baz" == "-Foo Baz"
    ensures "-" + " Bar     Foo  Bar    Baz\t" == "- Bar     Foo  Bar    Baz\t"
  {
  }

  /** The bare End tag ends an entry. */
  lemma LineEnd()
    ensures ClassifyBody("- End") == Terminator
  {
    ClassifyTerminator(" ", "");
    BodyLineTexts();
  }

  /** A field line with a space after the marker. */
  lemma LineFooBar()
    ensures ClassifyBody("- Foo Bar") == Field(KeyValue("Foo", "Bar"))
  {
    SplitLineOfLayout(" Foo Bar", " ", "Foo", " ", "Bar");
    MarkedField(" Foo Bar", KeyValue("Foo", "Bar"));
    BodyLineTexts();
  }

  /** The marker needs no space after it. */
  lemma LineFooBaz()
    ensures ClassifyBody("-Foo Baz") == Field(KeyValue("Foo", "Baz"))
  {
    SplitLineOfLayout("Foo Baz", "", "Foo", " ", "Baz");
    MarkedField("Foo Baz", KeyValue("Foo", "Baz"));
    BodyLineTexts();
  }

  /** A value keeps its inner runs of spaces and its trailing tab. */
  lemma LineBarValue()
    ensures ClassifyBody("- Bar     Foo  Bar    Baz\t") == Field(KeyValue("Bar", "Foo  Bar    Baz\t"))
  {
    SplitLineOfLayout(" Bar     Foo  Bar    Baz\t", " ", "Bar", "     ", "Foo  Bar    Baz\t");
    MarkedField(" Bar     Foo  Bar    Baz\t", KeyValue("Bar", "Foo  Bar    Baz\t"));
    BodyLineTexts();
  }

  /** Malformed body lines: a marker with nothing after it, and a line indented before its marker. */
  lemma LinesMalformed()
    ensures ClassifyBody("- ") == Malformed
    ensures ClassifyBody(" - Foo Bar") == Malformed
  {
    assert AllSpace("- "[1..]);
    ClassifyIndented(" - Foo Bar");
  }

  /** The entry with a bare header and no fields. */
  lemma EntryBeReq123()
    ensures Seek(["* << BeReq >> 123", "- End"]) == Outcome(Ok(Entry(BeReq, 123, map[])), 2)
  {
    var lines := ["* << BeReq >> 123", "- End"];
    HeaderBeReq123();
    HeaderIsNotBlank(lines[0]);
    SeekStep(lines);
    LineEnd();
    ReadBodyStep(lines[1..], Header(BeReq, 123), map[]);
  }

  /** The fields of the sample entry, added line by line. */
  lemma SampleFields()
    ensures var f1 := AddField(map[], "Foo", "Bar");
      var f2 := AddField(f1, "Foo", "Baz");
      AddField(f2, "Bar", "Foo  Bar    Baz\t") == map["Foo" := ["Bar", "Baz"], "Bar" := ["Foo  Bar    Baz\t"]]
  {
    var f1 := AddField(map[], "Foo", "Bar");
    assert f1 == map["Foo" := ["Bar"]] by {
      assert Lookup(map[], "Foo") == [];
      assert Lookup(map[], "Foo") + ["Bar"] == ["Bar"];
    }
    var f2 := AddField(f1, "Foo", "Baz");
    assert f2 == map["Foo" := ["Bar", "Baz"]] by {
      assert Lookup(f1, "Foo") + ["Baz"] == ["Bar", "Baz"];
    }
    assert Lookup(f2, "Bar") == [] by {
      assert "Bar" != "Foo" by {
        assert "Bar"[0] != "Foo"[0];
      }
    }
    assert Lookup(f2, "Bar") + ["Foo  Bar    Baz\t"] == ["Foo  Bar    Baz\t"];
  }

  /** The body of the sample entry: a repeated tag collects its values in order. */
  lemma SampleBody()
    ensures ReadBody(["- Foo Bar", "-Foo Baz", "- Bar     Foo  Bar    Baz\t", "- End"], Header(Request, 40000000), map[])
         == Outcome(Ok(Entry(Request, 40000000, map["Foo" := ["Bar", "Baz"], "Bar" := ["Foo  Bar    Baz\t"]])), 4)
  {
    var lines := ["- Foo Bar", "-Foo Baz", "- Bar     Foo  Bar    Baz\t", "- End"];
    var h := Header(Request, 40000000);
    var f1 := AddField(map[], "Foo", "Bar");
    var f2 := AddField(f1, "Foo", "Baz");
    var f3 := AddField(f2, "Bar", "Foo  Bar    Baz\t");
    SampleFields();
    assert ReadBody(lines, h, map[]) == ReadBody(lines[1..], h, f1).Shift(1) by {
      LineFooBar();
      ReadBodyStep(lines, h, map[]);
    }
    assert ReadBody(lines[1..], h, f1) == ReadBody(lines[2..], h, f2).Shift(1) by {
      LineFooBaz();
      ReadBodyAt(lines, 1, h, f1);
    }
    assert ReadBody(lines[2..], h, f2) == ReadBody(lines[3..], h, f3).Shift(1) by {
      LineBarValue();
      ReadBodyAt(lines, 2, h, f2);
    }
    assert ReadBody(lines[3..], h, f3) == Outcome(Ok(Entry(Request, 40000000, f3)), 1) by {
      LineEnd();
      ReadBodyAt(lines, 3, h, f3);
    }
  }

  /** Extra separators in the header, a marker without a space, a repeated tag and a value with inner runs of spaces. */
  lemma EntryRequest40000000()
    ensures Seek(["*   <<  Request >> 40000000", "- Foo Bar", "-Foo Baz", "- Bar     Foo  Bar    Baz\t", "- End"])
         == Outcome(Ok(Entry(Request, 40000000, map["Foo" := ["Bar", "Baz"], "Bar" := ["Foo  Bar    Baz\t"]])), 5)
  {
    var lines := ["*   <<  Request >> 40000000", "- Foo Bar", "-Foo Baz", "- Bar     Foo  Bar    Baz\t", "- End"];
    HeaderWideSpacing();
    HeaderIsNotBlank(lines[0]);
    SeekStep(lines);
    assert lines[1..] == ["- Foo Bar", "-Foo Baz", "- Bar     Foo  Bar    Baz\t", "- End"];
    SampleBody();
  }

  /** The first of two entries separated by a blank line. */
  lemma FirstOfTwo()
    ensures Seek(["* << BeReq >> 123", "- End", "", "* << BeReq >> 124", "- End"])
         == Outcome(Ok(Entry(BeReq, 123, map[])), 2)
  {
    var lines := ["* << BeReq >> 123", "- End", "", "* << BeReq >> 124", "- End"];
    LineEnd();
    HeaderBeReq123();
    HeaderIsNotBlank(lines[0]);
    SeekStep(lines);
    ReadBodyAt(lines, 1, Header(BeReq, 123), map[]);
  }

  /** The second entry: the blank line before its header is skipped. */
  lemma SecondOfTwo()
    ensures Seek(["", "* << BeReq >> 124", "- End"]) == Outcome(Ok(Entry(BeReq, 124, map[])), 3)
  {
    var lines := ["", "* << BeReq >> 124", "- End"];
    var h := Header(BeReq, 124);
    LineEnd();
    assert Seek(lines) == Seek(lines[1..]).Shift(1) by {
      assert IsBlank(lines[0]);
      SeekStep(lines);
    }
    assert Seek(lines[1..]) == ReadBody(lines[2..], h, map[]).Shift(1) by {
      HeaderBeReq124();
      HeaderIsNotBlank(lines[1]);
      SeekAt(lines, 1);
    }
    ReadBodyAt(lines, 2, h, map[]);
  }

  /** A line that is not a header where one is due. */
  lemma MarkerWithoutHeader()
    ensures Seek(["- "]) == Outcome(Err(MalformedHeader("- ")), 1)
  {
    assert ParseHeader("- ") == None by {
      assert "- " == "" + "-" + " ";
      WordsCons("", "-", " ");
      WordsOfBlank(" ");
    }
    assert !IsBlank("- ");
    SeekStep(["- "]);
  }

  /** A header whose transaction id is a word. */
  lemma WordIdEntry()
    ensures Seek(["* << Request >> Foo"]) == Outcome(Err(MalformedHeader("* << Request >> Foo")), 1)
  {
    HeaderWordId();
    assert !IsBlank("* << Request >> Foo") by {
      assert !IsSpace("* << Request >> Foo"[0]);
    }
    SeekStep(["* << Request >> Foo"]);
  }

  /** A body line indented before its marker fails the entry, naming that line. */
  lemma IndentedBodyLine()
    ensures Seek(["* << Request >> 1", " - Foo Bar", "- End"]) == Outcome(Err(MalformedBody(" - Foo Bar")), 2)
  {
    var lines := ["* << Request >> 1", " - Foo Bar", "- End"];
    HeaderRequest1();
    HeaderIsNotBlank(lines[0]);
    SeekStep(lines);
    LinesMalformed();
    ReadBodyAt(lines, 1, Header(Request, 1), map[]);
  }

  /** A header with no body after it: the entry is truncated. */
  lemma HeaderOnly()
    ensures Seek(["* << Request >> 1"]) == Outcome(Err(Truncated), 1)
  {
    HeaderRequest1();
    HeaderIsNotBlank("* << Request >> 1");
    SeekStep(["* << Request >> 1"]);
  }

  /** Parse called three times on one scanner: two entries, then the end of input. */
  method ParseConsecutive() returns (r1: Result<Entry, ParseError>, r2: Result<Entry, ParseError>, r3: Result<Entry, ParseError>)
    ensures r1 == Ok(Entry(BeReq, 123, map[]))
    ensures r2 == Ok(Entry(BeReq, 124, map[]))
    ensures r3 == Err(EndOfInput)
  {
    var lines := ["* << BeReq >> 123", "- End", "", "* << BeReq >> 124", "- End"];
    var scanner := new Scanner(lines);
    assert scanner.Remaining() == lines;
    r1 := Parse(scanner);
    assert r1 == Ok(Entry(BeReq, 123, map[])) && scanner.pos == 2 by {
      FirstOfTwo();
    }
    assert scanner.Remaining() == ["", "* << BeReq >> 124", "- End"];
    r2 := Parse(scanner);
    assert r2 == Ok(Entry(BeReq, 124, map[])) && scanner.pos == 5 by {
      SecondOfTwo();
    }
    assert scanner.Remaining() == [];
    r3 := Parse(scanner);
  }

  /** Parse on an empty source reports the end of input. */
  method ParseEmptySource() returns (r: Result<Entry, ParseError>)
    ensures r == Err(EndOfInput)
  {
    var scanner := new Scanner([]);
    r := Parse(scanner);
  }
}
