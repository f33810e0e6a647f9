/**
 * The records `csv.DictWriter` writes with Python's default "excel" dialect, which
 * follows section 2 of RFC 4180: fields are separated by commas, each record ends with
 * CRLF, and a field holding a comma, a double quote, a CR or an LF is enclosed in double
 * quotes with every double quote inside it doubled (minimal quoting).
 *
 * A reader for such records is the partner of the writer: reading a written record
 * gives back the fields it was written from.
 */
module Csv {

  const Quote: char := '"'

  /** Minimal quoting: only fields holding a separator, a quote or a line break are quoted. */
  predicate NeedsQuotes(f: string) {
    ',' in f || Quote in f || '\r' in f || '\n' in f
  }

  /** The field with every double quote doubled. */
  function DoubleQuotes(f: string): (r: string)
    ensures |r| >= |f|
  {
    if f == "" then ""
    else (if f[0] == Quote then [Quote, Quote] else [f[0]]) + DoubleQuotes(f[1..])
  }

  /** One field as it appears in a record. */
  function Field(f: string): (r: string)
    ensures !NeedsQuotes(f) ==> r == f
    ensures NeedsQuotes(f) ==> |r| >= 2 && r[0] == Quote && r[|r| - 1] == Quote
  {
    if NeedsQuotes(f) then [Quote] + DoubleQuotes(f) + [Quote] else f
  }

  /** The written fields separated by commas. */
  function Join(fields: seq<string>): string {
    if fields == [] then ""
    else if |fields| == 1 then Field(fields[0])
    else Field(fields[0]) + "," + Join(fields[1..])
  }

  /** `writer.writerow(fields)`: the joined fields followed by CRLF. */
  function Record(fields: seq<string>): (r: string)
    ensures |r| >= 2 && r[|r| - 2..] == "\r\n"
  {
    Join(fields) + "\r\n"
  }

  /* ---------- reading a record back ---------- */

  /** An unquoted field runs up to the next comma or the end of the text. */
  function ReadPlain(s: string): (r: (string, string))
    ensures |r.1| <= |s|
  {
    if s == "" || s[0] == ',' then ("", s)
    else
      var (f, rest) := ReadPlain(s[1..]);
      ([s[0]] + f, rest)
  }

  /** After an opening quote: a doubled quote stands for one quote, a single quote closes the field. */
  function ReadQuoted(s: string): (r: (string, string))
    ensures |r.1| <= |s|
  {
    if s == "" then ("", "")
    else if s[0] == Quote then
      if |s| > 1 && s[1] == Quote then
        var (f, rest) := ReadQuoted(s[2..]);
        ([Quote] + f, rest)
      else ("", s[1..])
    else
      var (f, rest) := ReadQuoted(s[1..]);
      ([s[0]] + f, rest)
  }

  /** Reads one field from the front of `s`, returning it and what follows it. */
  function ReadField(s: string): (r: (string, string))
    ensures |r.1| <= |s|
  {
    if s != "" && s[0] == Quote then ReadQuoted(s[1..]) else ReadPlain(s)
  }

  /** Reads the comma-separated fields of a record without its line terminator. */
  function ReadFields(s: string): (r: seq<string>)
    ensures |r| >= 1
    decreases |s|
  {
    var (f, rest) := ReadField(s);
    if rest != "" && rest[0] == ',' then [f] + ReadFields(rest[1..]) else [f]
  }

  /** Reads a record: its fields, once the terminating CRLF is removed. */
  function ReadRecord(s: string): seq<string>
    requires |s| >= 2
  {
    ReadFields(s[..|s| - 2])
  }

  lemma {:induction false} ReadPlainField(f: string, rest: string)
    requires ',' !in f
    requires rest == "" || rest[0] == ','
    ensures ReadPlain(f + rest) == (f, rest)
    decreases |f|
  {
    if f != "" {
      assert (f + rest)[1..] == f[1..] + rest;
      assert f[0] in f;
      ReadPlainField(f[1..], rest);
      assert [f[0]] + f[1..] == f;
    } else {
      assert f + rest == rest;
    }
  }

  lemma {:induction false} ReadQuotedField(f: string, rest: string)
    requires rest == "" || rest[0] == ','
    ensures ReadQuoted(DoubleQuotes(f) + [Quote] + rest) == (f, rest)
    decreases |f|
  {
    var s := DoubleQuotes(f) + [Quote] + rest;
    if f == "" {
      assert s == [Quote] + rest;
      assert s[1..] == rest;
    } else {
      var tail := DoubleQuotes(f[1..]) + [Quote] + rest;
      ReadQuotedField(f[1..], rest);
      if f[0] == Quote {
        assert s == [Quote, Quote] + tail;
        assert s[2..] == tail;
      } else {
        assert s == [f[0]] + tail;
        assert s[1..] == tail;
      }
      assert [f[0]] + f[1..] == f;
    }
  }

  /** Reading a written field stops exactly where the field ends. */
  lemma ReadWrittenField(f: string, rest: string)
    requires rest == "" || rest[0] == ','
    ensures ReadField(Field(f) + rest) == (f, rest)
  {
    if NeedsQuotes(f) {
      var s := Field(f) + rest;
      assert s == [Quote] + (DoubleQuotes(f) + [Quote] + rest);
      assert s[1..] == DoubleQuotes(f) + [Quote] + rest;
      ReadQuotedField(f, rest);
    } else {
      assert f == "" || f[0] != Quote by {
        if f != "" {
          assert f[0] in f;
        }
      }
      ReadPlainField(f, rest);
    }
  }

  /** The reader recovers the fields the writer joined. */
  lemma {:induction false} ReadJoin(fields: seq<string>)
    requires fields != []
    ensures ReadFields(Join(fields)) == fields
    decreases |fields|
  {
    if |fields| == 1 {
      ReadWrittenField(fields[0], "");
      assert Join(fields) == Field(fields[0]) + "";
    } else {
      var rest := "," + Join(fields[1..]);
      ReadWrittenField(fields[0], rest);
      assert Join(fields) == Field(fields[0]) + rest;
      assert rest[1..] == Join(fields[1..]);
      ReadJoin(fields[1..]);
      assert [fields[0]] + fields[1..] == fields;
    }
  }

  /** Reading a written record gives back its fields. */
  lemma ReadWrittenRecord(fields: seq<string>)
    requires fields != []
    ensures ReadRecord(Record(fields)) == fields
  {
    var r := Record(fields);
    assert r[..|r| - 2] == Join(fields);
    ReadJoin(fields);
  }
}
