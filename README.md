# vslparser in Dafny

A model of the entry parser of `vslparser`, a Go package that reads the text output of
`varnishlog` (the Varnish Shared memory Log). The output is a stream of entries. Each entry is:

- a header line `* << KIND >> VXID`, where KIND is a kind name (only `BeReq` and `Request` are
  modelled) and VXID is the decimal transaction id;
- body lines `- TAG VALUE`, each appending VALUE to the values of TAG;
- a terminator line `- End`.

Blank lines may separate entries. One call of `Parse` reads one entry from a line source. It
returns either the entry or an error: the clean end of input, a malformed header, a malformed
body line, or an entry cut off by the end of the source.

The model has these modules:

- `Tokenizer` (tokenizer.dfy): `splitLine`, the body-line tokenizer. It strips leading spaces and
  tabs, takes the first word as the tag, and keeps the rest as the value with its leading
  separators removed and its trailing ones kept.
- `Entries` (entries.dfy): the entry record (`Entry`, `Kind`, `Fields`), header parsing, the
  transaction id, and the accumulation of repeated tags.
- `Parser` (parser.dfy):
  - the two states of the recognizer as pure functions over the lines not yet read: `Seek`
    (skip blank lines, read the header) and `ReadBody` (read field lines until the
    terminator). Each returns the result and the number of lines consumed.
  - `Parse`, an imperative method over a `Scanner` object (the `bufio.Scanner` the Go function
    takes). It is proved to return exactly what `Seek` returns and to advance the scanner by
    exactly the lines `Seek` consumes.
- `ParserExamples` (examples.dfy): the cases of the package's test file, proved on the model.
- `Wrappers` and `Seqs`: `Option`/`Result` and small sequence lemmas.

The Go implementation file `parser.go` is not part of this model. The behaviour modelled is the
one the test file `parser_test.go` fixes; where the tests leave a choice open, the model makes
its own, and "## Left out" names it. One such choice: the test at `parser_test.go:121` requires
`" - Foo Bar"` inside an entry to be an error, so in the model a body line must start with its
`-` marker, with nothing before it.

## Model

| member | source | states |
|---|---|---|
| Tokenizer.SplitLineCharacterized | parser_test.go:20-38 | splitLine gives (k, v) exactly when the line is separators, then k (no separators), then separators, then v (not starting with a separator, trailing separators kept); the tokenization is unique |
| Tokenizer.SplitLineOfLayout | parser_test.go:20-38 | any such layout of a line is the one splitLine returns |
| Tokenizer.SplitLineHasLayout | parser_test.go:20-38 | what splitLine returns loses nothing but leading separators and the gap between key and value |
| Tokenizer.SplitLineBlank | parser_test.go:22-23 | the key is empty exactly when the line is empty or only separators, and then the value is empty too |
| Tokenizer.SplitJoin | parser_test.go:24 | a key and value written with one space between them tokenize back to that key and value |
| Tokenizer.SpaceRun | parser_test.go:25-27 | the leading separator run is all spaces and tabs and is followed by a non-separator or the end |
| Tokenizer.WordRun | parser_test.go:24-27 | the key run has no separator and is followed by a separator or the end |
| Tokenizer.SplitLine | parser_test.go:29-30 | the key never holds a separator and the value never starts with one |
| ParserExamples.SplitEmpty | parser_test.go:22 | "" splits into an empty key and an empty value |
| ParserExamples.SplitBlankPadded | parser_test.go:23 | "    foo    " gives key foo and an empty value |
| ParserExamples.SplitPair | parser_test.go:24 | "foo bar" gives foo, bar |
| ParserExamples.SplitPaddedPair | parser_test.go:25 | "  foo  bar" gives foo, bar |
| ParserExamples.SplitTrailingSpaces | parser_test.go:26 | " foo    bar   " keeps the trailing spaces of the value |
| ParserExamples.SplitTabs | parser_test.go:27 | tabs separate like spaces, and a trailing tab and space stay in the value |
| Entries.ParseKind | parser_test.go:88 | a recognized kind token is that kind's name |
| Entries.ParseKindName | parser_test.go:94 | a token names a kind exactly when it is that kind's name, case included |
| Entries.ParseVxid | parser_test.go:89 | an id is accepted exactly when it is non-empty, all decimal digits and at most 2^64-1; its value is the digits' value, and an accepted id without a leading zero is the decimal rendering of its value |
| Entries.DecimalOfDigits | parser_test.go:95 | digits without a leading zero are the decimal rendering of the number they denote |
| Entries.Decimal | parser_test.go:95 | the decimal rendering of a number is non-empty digits without a leading zero that denote the number |
| Entries.ParseVxidDecimal | parser_test.go:95 | rendering an id in decimal and parsing it gives the id back |
| Entries.ParseVxidRejectsNonDigit | parser_test.go:122 | an id with any non-digit character is rejected |
| Entries.Words | parser_test.go:105 | the words of a header line are non-empty and free of separators |
| Entries.WordsUnwords | parser_test.go:91 | words joined by single spaces split back into the same words |
| Entries.WordsSpaced | parser_test.go:105 | words separated by runs of spaces and tabs of any width split back into the same words |
| Entries.ParseSpacedHeader | parser_test.go:105 | a header with any runs of separators around `*`, `<<`, the kind and `>>` is read as that kind and id, and is rejected exactly when the id is |
| Entries.WordsLayout | parser_test.go:105 | splitting a line into words loses only separators: the line is its words with runs of separators between and around them, none empty between two words |
| Entries.HeaderLayoutOf | parser_test.go:122 | an accepted header line is the five header words laid out with runs of separators, and its last word parses to the id |
| Entries.ParseHeaderCharacterized | parser_test.go:122 | a line is read as a header of a kind and id exactly when it is `*`, `<<`, the kind's name, `>>` and a string parsing to the id, separated by runs of separators; every other line is rejected |
| Entries.ParseHeader | parser_test.go:87-123 | a line is a header of a kind and id exactly when it is `*`, `<<`, the kind's name, `>>` and a parsing id, separated by runs of separators (ParseHeaderCharacterized); the id is at most 2^64-1 |
| Entries.HeaderIsNotBlank | parser_test.go:117 | a blank line is never a header |
| Entries.ParseFormatHeader | parser_test.go:91 | a header written with single spaces reads back as that kind and id |
| Entries.AddField | parser_test.go:96-104 | adding a value appends it to that tag's values, creates the tag if it is new, and leaves every other tag unchanged |
| Entries.CollectInto | parser_test.go:96-104 | accumulating body lines never drops a tag already present; its exact tags are CollectIntoKeys and its values per tag CollectIntoValues |
| Entries.CollectIntoKeys | parser_test.go:96-104 | the tags of the accumulated fields are exactly the tags present before and the tags of the lines |
| Entries.CollectIntoValues | parser_test.go:96-104 | accumulating body lines keeps every value of a tag in encounter order, after the values it already had |
| Entries.CollectValues | parser_test.go:96-104 | a tag is a field exactly when some body line carries it, and it holds all of its values in order |
| Parser.ClassifyBody | parser_test.go:121 | a line is malformed exactly when it is empty, does not start with `-`, or has only separators after the marker; a field never has an empty tag and is never the bare End |
| Parser.MarkedField | parser_test.go:105 | the marker followed by rest is the field (tag, value) exactly when rest splits into that tag and value, the tag is not empty and the pair is not the bare End |
| Parser.ClassifyFormatField | parser_test.go:105 | a written field line reads back as its tag and value |
| Parser.ClassifyTerminator | parser_test.go:91 | `-`, optional separators, End and optional separators end the entry |
| Parser.ClassifyIndented | parser_test.go:121 | a line with a separator before its marker is malformed |
| Parser.ReadBody | parser_test.go:121 | the body state never consumes more lines than it has and never reports the clean end of input or a header error |
| Parser.ReadBodyStep | parser_test.go:87-105 | one step of the body state: the terminator returns the entry, a field line is added to the fields, a malformed line aborts |
| Parser.ReadBodyStops | parser_test.go:105 | every line the body state reads before the one it stops at is a field line |
| Parser.ReadBodyEnds | parser_test.go:121 | a returned entry carries the header's kind and id and ends at a terminator; a malformed-body error names the line it stopped at |
| Parser.ReadBodyTruncated | parser_test.go:123 | the entry is cut off exactly when every remaining line is a field line, and then all of them are consumed |
| Parser.Seek | parser_test.go:119 | one parse consumes no more lines than the source has |
| Parser.SeekStep | parser_test.go:117-122 | one step of the seek state: a blank line is skipped, a non-header line is a malformed header, a header starts the body |
| Parser.SeekEndOfInput | parser_test.go:126-136 | the clean end of input is reported exactly when only blank lines remain, and then all of them are consumed |
| Parser.SeekSkipsBlanks | parser_test.go:117 | blank lines before an entry are skipped and counted as consumed |
| Parser.SeekMalformedHeader | parser_test.go:120 | a non-blank line that is not a header, after blank lines, is reported as a malformed header naming that line |
| Parser.ReadFieldLines | parser_test.go:105 | field lines, however they are written (`-Foo Baz`, wide gaps), are read into the fields in order, and the body state then goes on with the next line |
| Parser.ReadTerminatedBody | parser_test.go:93-105 | any field lines followed by any terminator line give the header's entry with those lines' fields, consuming exactly those lines and the terminator |
| Parser.ReadTerminatorLine | parser_test.go:91 | the written terminator returns the fields read so far, and nothing after it is consumed |
| Parser.ReadFormattedBody | parser_test.go:96-105 | written field lines and a terminator read back as the collected fields, consuming exactly those lines |
| Parser.SeekFormattedHeader | parser_test.go:87-91 | a written header starts the body state with its kind and id and no fields |
| Parser.SeekFormattedEntry | parser_test.go:87-105 | round trip: after blank lines, a written entry parses to its kind, id and collected fields, consuming exactly its lines and the blanks |
| Parser.SeekConsecutive | parser_test.go:106-117 | of two written entries with blank lines between them, the first parse returns the first and the parse of what is left returns the second |
| Parser.SeekEntry | parser_test.go:93-105 | one parse reads exactly one entry however its lines are spaced: blank lines, any header line, any field lines and any terminator give the header's entry with those lines' fields, consuming exactly those lines |
| Parser.ReadBodyOkLayout | parser_test.go:93-105 | converse of ReadTerminatedBody: an entry from the body state splits its lines into field lines, a terminator and what follows, and its fields are those of the field lines |
| Parser.SeekOkLayout | parser_test.go:93-117 | converse of SeekEntry: an entry from one parse splits the source into blank lines, a header line with the entry's kind and id, field lines, a terminator and what follows, and its fields are those of the field lines |
| Parser.SeekTruncated | parser_test.go:123 | blank lines, any header line and any field lines with no terminator before the end of the source are a truncated-entry error, consuming all of those lines |
| Parser.ReadUnterminatedBody | parser_test.go:123 | written field lines without a terminator run the source out, consuming all of them |
| Parser.Scanner.constructor | parser_test.go:42-44 | a scanner over a source starts before its first line with no current text |
| Parser.Scanner.Scan | parser_test.go:61-63 | advances to the next line and makes it the current text, or reports that the source is exhausted and leaves the position unchanged |
| Parser.Scanner.Text | parser_test.go:40-41 | the current text is empty or the line the last scan read |
| Parser.Parse | parser_test.go:46-72 | the result is Seek's on the lines not yet read, and the scanner moves past exactly the lines Seek consumes, so repeated calls continue from there |
| Parser.SeekHeader | parser_test.go:117-122 | the seek state of Parse: it matches Seek up to the header, or Seek's error, with the lines consumed |
| Parser.ReadEntry | parser_test.go:87-105 | the body state of Parse: the result and the lines consumed are ReadBody's |
| ParserExamples.SampleIds | parser_test.go:89 | "1", "123" and "124" parse as those ids |
| ParserExamples.LongSampleId | parser_test.go:95 | "40000000" parses as 40000000 |
| ParserExamples.GappedHeader | parser_test.go:105 | a header with given separator runs reads as its kind and id |
| ParserExamples.HeaderWideSpacing | parser_test.go:105 | "*   <<  Request >> 40000000" is a Request header with id 40000000 |
| ParserExamples.HeaderBeReq123 | parser_test.go:91 | "* << BeReq >> 123" is a BeReq header with id 123 |
| ParserExamples.HeaderBeReq124 | parser_test.go:117 | "* << BeReq >> 124" is a BeReq header with id 124 |
| ParserExamples.HeaderRequest1 | parser_test.go:123 | "* << Request >> 1" is a Request header with id 1 |
| ParserExamples.HeaderWordId | parser_test.go:122 | "* << Request >> Foo" is not a header |
| ParserExamples.LineEnd | parser_test.go:91 | "- End" is the terminator |
| ParserExamples.LineFooBar | parser_test.go:105 | "- Foo Bar" is the field Foo = Bar |
| ParserExamples.LineFooBaz | parser_test.go:105 | "-Foo Baz", with no space after the marker, is the field Foo = Baz |
| ParserExamples.LineBarValue | parser_test.go:102 | the value of "- Bar     Foo  Bar    Baz\t" keeps its internal spaces and trailing tab |
| ParserExamples.LinesMalformed | parser_test.go:121 | " - Foo Bar" is a malformed body line, as the test requires; "- " is one too, by the model's choice that an empty tag is malformed |
| ParserExamples.EntryBeReq123 | parser_test.go:87-91 | the first sample parses to BeReq 123 with no fields, consuming both lines |
| ParserExamples.SampleFields | parser_test.go:96-104 | Foo, Foo, Bar accumulate to Foo = [Bar, Baz] and Bar = [Foo  Bar    Baz\t] |
| ParserExamples.SampleBody | parser_test.go:105 | the four body lines of the second sample read as those fields, consuming four lines |
| ParserExamples.EntryRequest40000000 | parser_test.go:93-105 | the second sample parses to Request 40000000 with those fields, consuming all five lines |
| ParserExamples.FirstOfTwo | parser_test.go:106-111 | the first parse of the two-entry stream returns BeReq 123 and consumes two lines |
| ParserExamples.SecondOfTwo | parser_test.go:112-117 | the rest of the stream skips the blank line and returns BeReq 124 |
| ParserExamples.ParseConsecutive | parser_test.go:106-117 | three calls of Parse on one scanner return BeReq 123, BeReq 124, then the clean end of input |
| ParserExamples.ParseEmptySource | parser_test.go:126-136 | parsing an empty source returns exactly the end-of-input error |
| ParserExamples.MarkerWithoutHeader | parser_test.go:120 | "- " as the first line is a malformed-header error |
| ParserExamples.WordIdEntry | parser_test.go:122 | a header with a non-numeric id is a malformed-header error |
| ParserExamples.IndentedBodyLine | parser_test.go:121 | a body line with a space before its marker is a malformed-body error |
| ParserExamples.HeaderOnly | parser_test.go:123 | a header with no body and no terminator is a truncated-entry error |

## Left out

- The line source is a sequence of lines. Splitting the input into lines (`bufio.ScanLines`,
  including its removal of `\r`) and the scanner's I/O errors (`scanner.Err`) are not modelled.
- Error messages are not modelled. Each error is a constructor of `ParseError`. `EndOfInput`
  stands for `io.EOF`, which the Go function returns unwrapped.
- Entry comparison by `reflect.DeepEqual` is Dafny's value equality. An entry without fields has
  the empty map, not a nil one.
- Only the kinds `BeReq` and `Request` are modelled. Any other kind token is a malformed header.
- Entries.ParseVxid: the id bound assumes Go's `uint` is 64 bits wide. A 32-bit platform would
  bound it at 2^32-1.
- Separators are the space and the horizontal tab only. Other Unicode white space is not
  modelled.
- Entries.ParseHeader: the tests fix single spaces and the wider gaps of `parser_test.go:105`
  only. The model accepts any non-empty runs of spaces and tabs between the five words and any
  runs before and after them, and rejects every other line (`ParseHeaderCharacterized`).
- Parser.ClassifyBody: a line ends an entry when its tag is `End` and its value is empty. So
  `- End` followed by spaces or tabs also ends it, and so does `-End`; `- End foo` is a field
  named End. The tests only fix `- End` itself. A marker with only separators after it (`- `)
  inside an entry is malformed because its tag is empty; the tests have `- ` only where a header
  is due (`parser_test.go:120`). A blank line inside an entry is a malformed body line.
- Parser.Parse: the model reads an entry in two steps, `SeekHeader` (skip blank lines, read the
  header) and `ReadEntry` (read the body up to the terminator), each a loop of its own, called
  in turn by `Parse`.
