/**
 * The record a parse produces (Entry, Kind, Fields in the Go package) and the pieces of
 * the header line it is read from: the entry kind, the transaction id (VXID) and the words
 * of the header.
 */
module Entries {
  import opened Wrappers
  import opened Tokenizer
  import opened Seqs

  /** The kinds of entry the parser recognises. */
  datatype Kind = BeReq | Request

  /** The token that names a kind in a header line. */
  function KindName(k: Kind): string {
    match k
    case BeReq => "BeReq"
    case Request => "Request"
  }

  /** The kind a header token names; tokens are matched exactly, case included. */
  function ParseKind(s: string): (r: Option<Kind>)
    ensures r.Some? ==> KindName(r.value) == s
  {
    if s == "BeReq" then Some(BeReq)
    else if s == "Request" then Some(Request)
    else None
  }

  /** Every kind is recognised by its own name, and by nothing else. */
  lemma ParseKindName(s: string, k: Kind)
    ensures ParseKind(s) == Some(k) <==> s == KindName(k)
  {
  }

  /** The largest transaction id: the range of Go's uint on a 64-bit platform. */
  const UintMax: nat := 0xFFFF_FFFF_FFFF_FFFF

  predicate IsDigit(c: char) {
    '0' <= c <= '9'
  }

  predicate AllDigits(s: string) {
    forall i :: 0 <= i < |s| ==> IsDigit(s[i])
  }

  /** The number a string of decimal digits denotes, most significant digit first. */
  function DigitsValue(s: string): nat
    requires AllDigits(s)
  {
    if s == [] then 0 else 10 * DigitsValue(s[..|s| - 1]) + (s[|s| - 1] - '0') as nat
  }

  /** The decimal rendering of n, without leading zeros. */
  function Decimal(n: nat): (r: string)
    ensures r != [] && AllDigits(r) && DigitsValue(r) == n
    ensures |r| > 1 ==> r[0] != '0'
  {
    var d := ['0' + (n % 10) as char];
    if n < 10 then d else
      var r := Decimal(n / 10) + d;
      assert r[..|r| - 1] == Decimal(n / 10);
      r
  }

  /**
   * The transaction id of a header: a non-empty string of decimal digits (no sign, no
   * separators; leading zeros allowed) whose value fits in an unsigned 64-bit integer.
   */
  function ParseVxid(s: string): (r: Option<nat>)
    ensures r.Some? <==> s != [] && AllDigits(s) && DigitsValue(s) <= UintMax
    ensures r.Some? ==> r.value == DigitsValue(s) && r.value <= UintMax
    ensures r.Some? && (|s| == 1 || s[0] != '0') ==> Decimal(r.value) == s
  {
    if s != [] && AllDigits(s) && DigitsValue(s) <= UintMax then
      if |s| == 1 || s[0] != '0' then DecimalOfDigits(s); Some(DigitsValue(s))
      else Some(DigitsValue(s))
    else None
  }

  /** Digits without a leading zero denote a positive number. */
  lemma {:induction false} LeadingDigitPositive(s: string)
    requires s != [] && AllDigits(s) && s[0] != '0'
    ensures DigitsValue(s) >= 1
    decreases |s|
  {
    if |s| > 1 {
      var init := s[..|s| - 1];
      assert init[0] == s[0];
      LeadingDigitPositive(init);
    }
  }

  /** Digits without a leading zero are the decimal rendering of their value. */
  lemma {:induction false} DecimalOfDigits(s: string)
    requires s != [] && AllDigits(s) && (|s| == 1 || s[0] != '0')
    ensures Decimal(DigitsValue(s)) == s
    decreases |s|
  {
    var d := s[|s| - 1];
    if |s| > 1 {
      var init := s[..|s| - 1];
      assert init[0] == s[0];
      LeadingDigitPositive(init);
      DecimalOfDigits(init);
      var n := DigitsValue(s);
      assert n / 10 == DigitsValue(init) && n % 10 == (d - '0') as nat;
      assert s == init + [d];
    }
  }

  /** Rendering an id in decimal and reading it back gives the id. */
  lemma ParseVxidDecimal(n: nat)
    requires n <= UintMax
    ensures ParseVxid(Decimal(n)) == Some(n)
  {
  }

  /** A string with any character other than a decimal digit is not an id. */
  lemma ParseVxidRejectsNonDigit(s: string, i: nat)
    requires i < |s| && !IsDigit(s[i])
    ensures ParseVxid(s) == None
  {
  }

  /** The whitespace-separated words of a line, in order (strings.Fields for spaces and tabs). */
  function Words(s: string): (ws: seq<string>)
    ensures forall i :: 0 <= i < |ws| ==> ws[i] != [] && NoSpace(ws[i])
    decreases |s|
  {
    var t := TrimLeft(s);
    if t == [] then [] else
      var n := WordRun(t);
      assert n > 0;
      [t[..n]] + Words(t[n..])
  }

  /** Words joined with one space between each two. */
  function Unwords(ws: seq<string>): string
    decreases |ws|
  {
    if ws == [] then []
    else if |ws| == 1 then ws[0]
    else ws[0] + " " + Unwords(ws[1..])
  }

  /** A string of separators has no words. */
  lemma WordsOfBlank(p: string)
    requires AllSpace(p)
    ensures Words(p) == []
  {
    assert p == p + [];
    SpaceRunOf(p, []);
  }

  /** A leading separator does not change the words. */
  lemma WordsSkipSpace(s: string)
    ensures Words(" " + s) == Words(s)
  {
    assert (" " + s)[1..] == s;
    assert TrimLeft(" " + s) == TrimLeft(s);
  }

  /** Separators, then a word, then a separator or nothing: the word comes first. */
  lemma WordsCons(p: string, w: string, rest: string)
    requires AllSpace(p) && w != [] && NoSpace(w)
    requires rest == [] || IsSpace(rest[0])
    ensures Words(p + w + rest) == [w] + Words(rest)
  {
    var s := p + w + rest;
    assert s == p + (w + rest);
    SpaceRunOf(p, w + rest);
    assert TrimLeft(s) == w + rest;
    WordRunOf(w, rest);
    assert (w + rest)[..|w|] == w && (w + rest)[|w|..] == rest;
  }

  /** Splitting a line made of words joined by single spaces gives the words back. */
  lemma {:induction false} WordsUnwords(ws: seq<string>)
    requires forall i :: 0 <= i < |ws| ==> ws[i] != [] && NoSpace(ws[i])
    ensures Words(Unwords(ws)) == ws
    decreases |ws|
  {
    if ws == [] {
    } else if |ws| == 1 {
      assert ws[0] == [] + ws[0] + [];
      WordsCons([], ws[0], []);
    } else {
      var tail := " " + Unwords(ws[1..]);
      assert Unwords(ws) == [] + ws[0] + tail;
      WordsCons([], ws[0], tail);
      WordsSkipSpace(Unwords(ws[1..]));
      WordsUnwords(ws[1..]);
    }
  }

  /**
   * Words laid out with runs of separators: gaps[0] before the first word, gaps[i]
   * between word i - 1 and word i, and the last gap after the last word.
   */
  function Spaced(gaps: seq<string>, ws: seq<string>): string
    requires |gaps| == |ws| + 1
    decreases |ws|
  {
    if ws == [] then gaps[0] else gaps[0] + ws[0] + Spaced(gaps[1..], ws[1..])
  }

  /** A spaced line starts with its first gap, and is that gap when there are no words. */
  lemma SpacedStart(gaps: seq<string>, ws: seq<string>)
    requires |gaps| == |ws| + 1
    ensures ws == [] ==> Spaced(gaps, ws) == gaps[0]
    ensures gaps[0] != [] ==> Spaced(gaps, ws) != [] && Spaced(gaps, ws)[0] == gaps[0][0]
  {
  }

  /** However wide the runs of separators, the words of a spaced line are its words. */
  lemma {:induction false} WordsSpaced(gaps: seq<string>, ws: seq<string>)
    requires |gaps| == |ws| + 1
    requires forall i :: 0 <= i < |gaps| ==> AllSpace(gaps[i])
    requires forall i :: 0 < i < |ws| ==> gaps[i] != []
    requires forall i :: 0 <= i < |ws| ==> ws[i] != [] && NoSpace(ws[i])
    ensures Words(Spaced(gaps, ws)) == ws
    decreases |ws|
  {
    if ws == [] {
      WordsOfBlank(gaps[0]);
    } else {
      var rest := Spaced(gaps[1..], ws[1..]);
      SpacedRestStart(gaps, ws);
      WordsCons(gaps[0], ws[0], rest);
      WordsSpaced(gaps[1..], ws[1..]);
      assert ws == [ws[0]] + ws[1..];
    }
  }

  /** After the first word of a spaced line comes a separator, or nothing. */
  lemma SpacedRestStart(gaps: seq<string>, ws: seq<string>)
    requires |gaps| == |ws| + 1 && ws != [] && AllSpace(gaps[1])
    requires |ws| > 1 ==> gaps[1] != []
    ensures var rest := Spaced(gaps[1..], ws[1..]); rest == [] || IsSpace(rest[0])
  {
    SpacedStart(gaps[1..], ws[1..]);
  }

  /** What a header line carries. */
  datatype Header = Header(kind: Kind, vxid: nat)

  /**
   * A header line: the words "*", "<<", the kind, ">>" and the transaction id, with any
   * run of spaces and tabs between them and around them.
   */
  function ParseHeader(line: string): (r: Option<Header>)
    ensures r.Some? ==> r.value.vxid <= UintMax
  {
    var ws := Words(line);
    if |ws| == 5 && ws[0] == "*" && ws[1] == "<<" && ws[3] == ">>" then
      match (ParseKind(ws[2]), ParseVxid(ws[4]))
      case (Some(k), Some(x)) => Some(Header(k, x))
      case _ => None
    else
      None
  }

  /** A line of separators is never a header. */
  lemma HeaderIsNotBlank(line: string)
    ensures ParseHeader(line).Some? ==> !AllSpace(line)
  {
    if AllSpace(line) {
      WordsOfBlank(line);
    }
  }

  /**
   * A header is read whatever runs of separators surround its words; it then stands or
   * falls with its transaction id.
   */
  lemma ParseSpacedHeader(gaps: seq<string>, kind: Kind, id: string)
    requires |gaps| == 6 && forall i :: 0 <= i < 6 ==> AllSpace(gaps[i])
    requires gaps[1] != [] && gaps[2] != [] && gaps[3] != [] && gaps[4] != []
    requires id != [] && NoSpace(id)
    ensures var line := Spaced(gaps, ["*", "<<", KindName(kind), ">>", id]);
      ParseHeader(line) == if ParseVxid(id).Some? then Some(Header(kind, ParseVxid(id).value)) else None
  {
    var ws := ["*", "<<", KindName(kind), ">>", id];
    WordsSpaced(gaps, ws);
    ParseKindName(KindName(kind), kind);
  }

  /**
   * Splitting into words loses only separators: every line is its words laid out with runs
   * of separators, and the runs between two words are not empty.
   */
  lemma {:induction false} WordsLayout(s: string) returns (gaps: seq<string>)
    ensures |gaps| == |Words(s)| + 1
    ensures forall i :: 0 <= i < |gaps| ==> AllSpace(gaps[i])
    ensures forall i :: 0 < i < |Words(s)| ==> gaps[i] != []
    ensures s != [] && IsSpace(s[0]) ==> gaps[0] != []
    ensures s == Spaced(gaps, Words(s))
    decreases |s|
  {
    var p := TrimLeftSplit(s);
    var t := TrimLeft(s);
    if t == [] {
      gaps := [p];
    } else {
      var n := WordRun(t);
      var w, rest := t[..n], t[n..];
      TakeDrop(t, n);
      var inner := WordsLayout(rest);
      gaps := [p] + inner;
      assert Words(s) == [w] + Words(rest);
      assert Words(rest) != [] ==> inner[0] != [] by {
        if Words(rest) != [] {
          assert rest != [];
        }
      }
      assert Spaced(gaps, Words(s)) == p + w + Spaced(inner, Words(rest)) by {
        assert gaps[1..] == inner && Words(s)[1..] == Words(rest);
      }
      assert s == p + w + rest by {
        AppendAssoc(p, w, rest);
      }
    }
  }

  /** A header line laid out with runs of separators around its five words. */
  ghost predicate HeaderLayout(line: string, gaps: seq<string>, kind: Kind, id: string) {
    && |gaps| == 6 && (forall i :: 0 <= i < 6 ==> AllSpace(gaps[i]))
    && gaps[1] != [] && gaps[2] != [] && gaps[3] != [] && gaps[4] != []
    && id != [] && NoSpace(id)
    && line == Spaced(gaps, ["*", "<<", KindName(kind), ">>", id])
  }

  /** An accepted header line is laid out as the five header words, and its id parses. */
  lemma HeaderLayoutOf(line: string, h: Header) returns (gaps: seq<string>, id: string)
    requires ParseHeader(line) == Some(h)
    ensures HeaderLayout(line, gaps, h.kind, id) && ParseVxid(id) == Some(h.vxid)
  {
    var ws := Words(line);
    gaps := WordsLayout(line);
    id := ws[4];
    assert ws == ["*", "<<", KindName(h.kind), ">>", id] by {
      assert KindName(h.kind) == ws[2];
    }
  }

  /**
   * A line is read as a header exactly when it is `*`, `<<`, the kind, `>>` and an id, with
   * runs of separators between and around them, and the id parses; anything else is rejected.
   */
  lemma ParseHeaderCharacterized(line: string, h: Header)
    ensures ParseHeader(line) == Some(h) <==>
      exists gaps, id :: HeaderLayout(line, gaps, h.kind, id) && ParseVxid(id) == Some(h.vxid)
  {
    if ParseHeader(line) == Some(h) {
      var gaps, id := HeaderLayoutOf(line, h);
    }
    if exists gaps, id :: HeaderLayout(line, gaps, h.kind, id) && ParseVxid(id) == Some(h.vxid) {
      var gaps, id :| HeaderLayout(line, gaps, h.kind, id) && ParseVxid(id) == Some(h.vxid);
      ParseSpacedHeader(gaps, h.kind, id);
    }
  }

  /** The header line varnishlog writes for an entry, with single spaces. */
  function FormatHeader(h: Header): string {
    Unwords(["*", "<<", KindName(h.kind), ">>", Decimal(h.vxid)])
  }

  /** A written header reads back as the header. */
  lemma ParseFormatHeader(h: Header)
    requires h.vxid <= UintMax
    ensures ParseHeader(FormatHeader(h)) == Some(h)
  {
    var ws := ["*", "<<", KindName(h.kind), ">>", Decimal(h.vxid)];
    WordsUnwords(ws);
    assert Words(FormatHeader(h)) == ws;
    ParseKindName(KindName(h.kind), h.kind);
    ParseVxidDecimal(h.vxid);
  }

  /** The tags of an entry, each with the values of its lines in the order they were read. */
  type Fields = map<string, seq<string>>

  /** The values stored under tag, or none. */
  function Lookup(f: Fields, tag: string): seq<string> {
    if tag in f then f[tag] else []
  }

  /** Appends one value to the values of tag, creating the tag if it is new. */
  function AddField(f: Fields, tag: string, value: string): (r: Fields)
    ensures r.Keys == f.Keys + {tag}
    ensures Lookup(r, tag) == Lookup(f, tag) + [value]
    ensures forall t :: t != tag ==> Lookup(r, t) == Lookup(f, t)
  {
    f[tag := Lookup(f, tag) + [value]]
  }

  /** The values of the lines with the given tag, in order: the reference view of a field. */
  function ValuesOf(body: seq<KeyValue>, tag: string): seq<string>
    decreases |body|
  {
    if body == [] then []
    else (if body[0].key == tag then [body[0].value] else []) + ValuesOf(body[1..], tag)
  }

  /** The fields built from acc by adding the lines of body one after another. */
  function CollectInto(acc: Fields, body: seq<KeyValue>): (r: Fields)
    ensures acc.Keys <= r.Keys
    decreases |body|
  {
    if body == [] then acc else CollectInto(AddField(acc, body[0].key, body[0].value), body[1..])
  }

  /** The tags of the accumulated fields are those present before and those of the lines. */
  lemma {:induction false} CollectIntoKeys(acc: Fields, body: seq<KeyValue>)
    ensures CollectInto(acc, body).Keys == acc.Keys + (set i | 0 <= i < |body| :: body[i].key)
    decreases |body|
  {
    if body != [] {
      var next := AddField(acc, body[0].key, body[0].value);
      assert CollectInto(acc, body) == CollectInto(next, body[1..]);
      CollectIntoKeys(next, body[1..]);
      TagsStep(body);
    }
  }

  /** The tags of lines are the first line's tag and the tags of the others. */
  lemma TagsStep(body: seq<KeyValue>)
    requires body != []
    ensures (set i | 0 <= i < |body| :: body[i].key)
         == {body[0].key} + (set i | 0 <= i < |body[1..]| :: body[1..][i].key)
  {
    forall i | 0 < i < |body|
      ensures body[i].key == body[1..][i - 1].key
    {
    }
  }

  /**
   * Accumulating lines keeps every value, in order: a tag holds what it held before followed
   * by the values of its lines, and is present exactly when it was or a line carries it.
   */
  lemma {:induction false} CollectIntoValues(acc: Fields, body: seq<KeyValue>, tag: string)
    ensures tag in CollectInto(acc, body) <==> tag in acc || ValuesOf(body, tag) != []
    ensures Lookup(CollectInto(acc, body), tag) == Lookup(acc, tag) + ValuesOf(body, tag)
    decreases |body|
  {
    if body != [] {
      var kv := body[0];
      var acc' := AddField(acc, kv.key, kv.value);
      CollectIntoValues(acc', body[1..], tag);
      if kv.key == tag {
        AppendAssoc(Lookup(acc, tag), [kv.value], ValuesOf(body[1..], tag));
      } else {
        AppendEmpty(ValuesOf(body[1..], tag));
      }
    }
  }

  /** The fields of an entry whose body lines are body: starts empty (never absent). */
  function Collect(body: seq<KeyValue>): Fields {
    CollectInto(map[], body)
  }

  /** A tag is a field exactly when some line carries it, and it holds all of that tag's values in order. */
  lemma CollectValues(body: seq<KeyValue>, tag: string)
    ensures tag in Collect(body) <==> ValuesOf(body, tag) != []
    ensures tag in Collect(body) ==> Collect(body)[tag] == ValuesOf(body, tag)
  {
    CollectIntoValues(map[], body, tag);
  }

  /** One parsed entry: its kind, its transaction id and its fields. */
  datatype Entry = Entry(kind: Kind, vxid: nat, fields: Fields)
}
