/**
 * The body-line tokenizer of the varnishlog parser (splitLine in the Go package):
 * one line becomes a tag ("key") and its value.
 */
module Tokenizer {
  import opened Seqs

  /** The separators of the log format: a space or a horizontal tab. */
  predicate IsSpace(c: char) {
    c == ' ' || c == '\t'
  }

  predicate AllSpace(s: string) {
    forall i :: 0 <= i < |s| ==> IsSpace(s[i])
  }

  predicate NoSpace(s: string) {
    forall i :: 0 <= i < |s| ==> !IsSpace(s[i])
  }

  /** s is empty or its first character is not a separator. */
  predicate StartsWithoutSpace(s: string) {
    s == [] || !IsSpace(s[0])
  }

  datatype KeyValue = KeyValue(key: string, value: string)

  /** The length of the run of separators that starts s. */
  function SpaceRun(s: string): (n: nat)
    ensures n <= |s| && AllSpace(s[..n])
    ensures n == |s| || !IsSpace(s[n])
  {
    if s != [] && IsSpace(s[0]) then
      var n := 1 + SpaceRun(s[1..]);
      assert s[..n] == [s[0]] + s[1..][..n - 1];
      n
    else
      0
  }

  /** The length of the run of non-separators that starts s. */
  function WordRun(s: string): (n: nat)
    ensures n <= |s| && NoSpace(s[..n])
    ensures n == |s| || IsSpace(s[n])
  {
    if s != [] && !IsSpace(s[0]) then
      var n := 1 + WordRun(s[1..]);
      assert s[..n] == [s[0]] + s[1..][..n - 1];
      n
    else
      0
  }

  /** s without its leading spaces and tabs. */
  function TrimLeft(s: string): string {
    s[SpaceRun(s)..]
  }

  /**
   * The layout of a body line: leading separators p, the key, separators q, then the value.
   * The key is a maximal run of non-separators, the value does not start with a separator
   * (its tail is free), and a value needs a key and a gap before it.
   */
  ghost predicate Layout(line: string, p: string, key: string, q: string, value: string) {
    && AllSpace(p) && NoSpace(key) && AllSpace(q) && StartsWithoutSpace(value)
    && (value != [] ==> key != [] && q != [])
    && line == p + key + q + value
  }

  /**
   * splitLine: strip leading separators, take the first word as the key and the rest,
   * without its leading separators but with its trailing ones, as the value.
   */
  function SplitLine(line: string): (r: KeyValue)
    ensures NoSpace(r.key) && StartsWithoutSpace(r.value)
  {
    var t := TrimLeft(line);
    var n := WordRun(t);
    KeyValue(t[..n], TrimLeft(t[n..]))
  }

  /** What SplitLine returns is a layout of the line: nothing is lost but separators. */
  lemma SplitLineHasLayout(line: string)
    ensures exists p, q :: Layout(line, p, SplitLine(line).key, q, SplitLine(line).value)
  {
    var p := TrimLeftSplit(line);
    var t := TrimLeft(line);
    var n := WordRun(t);
    var k, rest := t[..n], t[n..];
    TakeDrop(t, n);
    var q := TrimLeftSplit(rest);
    var v := TrimLeft(rest);
    Concat4(p, k, q, v);
    if v != [] {
      assert rest[0] == t[n];
      assert t[0] != ' ' && t[0] != '\t';
    }
    assert Layout(line, p, k, q, v);
    assert SplitLine(line) == KeyValue(k, v);
  }

  /** A string is its leading separators followed by TrimLeft of it. */
  lemma TrimLeftSplit(s: string) returns (p: string)
    ensures AllSpace(p) && s == p + TrimLeft(s) && StartsWithoutSpace(TrimLeft(s))
  {
    var n := SpaceRun(s);
    p := s[..n];
    TakeDrop(s, n);
    if n < |s| {
      assert TrimLeft(s)[0] == s[n];
    }
  }

  /** The separator run in front of a string that starts with a non-separator is exactly the given one. */
  lemma {:induction false} SpaceRunOf(p: string, s: string)
    requires AllSpace(p) && StartsWithoutSpace(s)
    ensures SpaceRun(p + s) == |p|
  {
    if p == [] {
      assert p + s == s;
    } else {
      assert (p + s)[1..] == p[1..] + s;
      SpaceRunOf(p[1..], s);
    }
  }

  /** The key run of k + rest is exactly k when k has no separator and rest starts with one (or is empty). */
  lemma {:induction false} WordRunOf(k: string, rest: string)
    requires NoSpace(k) && (rest == [] || IsSpace(rest[0]))
    ensures WordRun(k + rest) == |k|
  {
    if k == [] {
      assert k + rest == rest;
    } else {
      assert (k + rest)[1..] == k[1..] + rest;
      WordRunOf(k[1..], rest);
    }
  }

  /** Every layout of a line is the one SplitLine finds: the tokenization is unique. */
  lemma SplitLineOfLayout(line: string, p: string, k: string, q: string, v: string)
    requires Layout(line, p, k, q, v)
    ensures SplitLine(line) == KeyValue(k, v)
  {
    if k == [] {
      assert line == (p + q) + [];
      SpaceRunOf(p + q, []);
    } else {
      assert line == p + (k + (q + v));
      SpaceRunOf(p, k + (q + v));
      assert TrimLeft(line) == k + (q + v);
      WordRunOf(k, q + v);
      SpaceRunOf(q, v);
      assert TrimLeft(q + v) == v;
    }
  }

  /** SplitLine(line) is (k, v) exactly when line is laid out as separators, k, separators, v. */
  lemma SplitLineCharacterized(line: string, k: string, v: string)
    ensures SplitLine(line) == KeyValue(k, v) <==> exists p, q :: Layout(line, p, k, q, v)
  {
    if exists p, q :: Layout(line, p, k, q, v) {
      var p, q :| Layout(line, p, k, q, v);
      SplitLineOfLayout(line, p, k, q, v);
    } else {
      SplitLineHasLayout(line);
    }
  }

  /** A line that holds only separators (or nothing) has an empty key and an empty value, and only such a line. */
  lemma SplitLineBlank(line: string)
    ensures SplitLine(line).key == [] <==> AllSpace(line)
    ensures SplitLine(line).key == [] ==> SplitLine(line).value == []
  {
    if AllSpace(line) {
      assert line == line + [] + [] + [];
      assert Layout(line, line, [], [], []);
      SplitLineOfLayout(line, line, [], [], []);
    } else {
      SplitLineHasLayout(line);
    }
  }

  /** The canonical rendering of a key and value: one space between them. */
  function JoinLine(kv: KeyValue): string {
    kv.key + " " + kv.value
  }

  /** A pair that a body line can carry: a non-empty key without separators and a value that does not start with one. */
  predicate WellFormed(kv: KeyValue) {
    kv.key != [] && NoSpace(kv.key) && StartsWithoutSpace(kv.value)
  }

  /** Tokenizing a rendered pair gives the pair back. */
  lemma SplitJoin(kv: KeyValue)
    requires WellFormed(kv)
    ensures SplitLine(JoinLine(kv)) == kv
  {
    assert Layout(JoinLine(kv), [], kv.key, " ", kv.value);
    SplitLineOfLayout(JoinLine(kv), [], kv.key, " ", kv.value);
  }
}
