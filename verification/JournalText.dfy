/** A journal record as text: a line per entry, then a line with the counters. */
module JournalText {
  import opened Types
  import opened Text
  import opened Codec
  import opened Tokens

  /** The counters of one write. */
  datatype Header = Header(view: Number, lastNormal: Number, commit: Number, logStart: Number, entriesFrom: Number, op: Number,
                           recovering: bool)

  /** A write: its entries, each with its op number, and its counters. */
  datatype Write = Write(entries: seq<(Number, Entry)>, header: Header)

  datatype Line = EntryLine(op: Number, entry: Entry) | HeaderLine(header: Header)

  // ---------------------------------------------------------------------------
  // Lines

  function LineEnd(s: string): (k: nat)
    ensures k <= |s| && (forall i :: 0 <= i < k ==> s[i] != '\n') && (k < |s| ==> s[k] == '\n')
  {
    if s == "" || s[0] == '\n' then 0 else 1 + LineEnd(s[1..])
  }

  /** A line less a carriage return at its end. */
  function Chomp(s: string): string { if s != "" && s[|s| - 1] == '\r' then s[..|s| - 1] else s }

  function Lines(s: string): seq<string> {
    if s == "" then []
    else if LineEnd(s) == |s| then [Chomp(s)]
    else [Chomp(s[..LineEnd(s)])] + Lines(s[LineEnd(s) + 1..])
  }

  /** Text without line ends, and something other than a carriage return last. */
  predicate Plain(s: string) { s != "" && (forall i :: 0 <= i < |s| ==> s[i] != '\n') && s[|s| - 1] != '\r' }

  lemma {:induction false} LineEndOf(s: string, rest: string)
    requires (forall i :: 0 <= i < |s| ==> s[i] != '\n') && (rest == "" || rest[0] == '\n')
    ensures LineEnd(s + rest) == |s|
  {
    if s == "" {
      assert s + rest == rest;
    } else {
      assert (s + rest)[1..] == s[1..] + rest;
      LineEndOf(s[1..], rest);
    }
  }

  lemma FirstLine(s: string, rest: string)
    requires Plain(s)
    ensures Lines(s + "\n" + rest) == [s] + Lines(rest)
  {
    var text := s + ("\n" + rest);
    LineEndOf(s, "\n" + rest);
    assert text == s + "\n" + rest;
    assert text[..|s|] == s && text[|s| + 1..] == rest;
  }

  lemma LastLine(s: string)
    requires Plain(s)
    ensures Lines(s) == [s]
  {
    LineEndOf(s, "");
    assert s + "" == s;
  }

  /** What comes before the first space of `s`, and what after. */
  function SplitOnce(s: string): Option<(string, string)> {
    if s == "" then None
    else if s[0] == ' ' then Some(("", s[1..]))
    else match SplitOnce(s[1..]) case None => None case Some(p) => Some(([s[0]] + p.0, p.1))
  }

  lemma {:induction false} SplitAt(w: string, rest: string)
    requires NoSpace(w)
    ensures SplitOnce(w + " " + rest) == Some((w, rest))
  {
    if w == "" {
      assert w + " " + rest == " " + rest;
    } else {
      assert (w + " " + rest)[1..] == w[1..] + " " + rest;
      assert (w + " " + rest)[0] == w[0] && !IsSpace(w[0]);
      SplitAt(w[1..], rest);
      assert [w[0]] + w[1..] == w;
    }
  }

  // ---------------------------------------------------------------------------
  // Encoding

  function HeaderNumbers(h: Header): seq<Number> {
    [h.view, h.lastNormal, h.commit, h.logStart, h.entriesFrom, h.op, if h.recovering then 1 else 0]
  }

  function EntryText(op: Number, e: Entry): string { "E" + " " + (Decimal(op) + " " + EncodeEntry(e)) }

  function HeaderText(h: Header): string { "H" + Spaced(Nums(HeaderNumbers(h))) }

  function EncodeWrite(w: Write): string
    decreases |w.entries|
  {
    if w.entries == [] then HeaderText(w.header)
    else EntryText(w.entries[0].0, w.entries[0].1) + "\n" + EncodeWrite(w.(entries := w.entries[1..]))
  }

  // ---------------------------------------------------------------------------
  // Decoding

  function DecodeHeader(rest: string): Option<Line> {
    match ParseNumbers(Words(rest), 7)
    case Bad => None
    case Good(n, _) => Some(HeaderLine(Header(n[0], n[1], n[2], n[3], n[4], n[5], n[6] != 0)))
  }

  function DecodeEntryLine(rest: string): Option<Line> {
    match ParseNumber(Words(rest))
    case Bad => None
    case Good(op, _) =>
      match SplitOnce(rest)
      case None => None
      case Some(p) => (match DecodeEntry(p.1) case None => None case Some(e) => Some(EntryLine(op, e)))
  }

  function DecodeLine(line: string): Option<Line> {
    var p := match SplitOnce(line) case None => (line, "") case Some(p) => p;
    if p.0 == "E" then DecodeEntryLine(p.1) else if p.0 == "H" then DecodeHeader(p.1) else None
  }

  /** The entries of the lines, up to the counters, with which they end. */
  function DecodeLines(lines: seq<string>): Option<Write> {
    if lines == [] then None
    else
      match DecodeLine(lines[0])
      case None => None
      case Some(HeaderLine(h)) => if |lines| == 1 then Some(Write([], h)) else None
      case Some(EntryLine(op, e)) =>
        match DecodeLines(lines[1..])
        case None => None
        case Some(w) => Some(w.(entries := [(op, e)] + w.entries))
  }

  function DecodeWrite(text: string): Option<Write> { DecodeLines(Lines(text)) }

  // ---------------------------------------------------------------------------
  // Round trip

  ghost predicate WriteOk(w: Write) { forall i {:trigger w.entries[i]} :: 0 <= i < |w.entries| ==> EntryOk(w.entries[i].1) }

  /** Words with single spaces make a plain line. */
  lemma {:induction false} JoinIsPlain(words: seq<string>)
    requires AllWords(words) && words != []
    ensures Plain(Join(words))
  {
    var s := Join(words);
    assert IsWord(words[0]);
    if |words| > 1 {
      JoinIsPlain(words[1..]);
    }
  }

  lemma PlainAfter(a: string, b: string)
    requires (forall i :: 0 <= i < |a| ==> a[i] != '\n') && Plain(b)
    ensures Plain(a + b)
  {
  }

  lemma WordHasNoLine(w: string)
    requires IsWord(w)
    ensures forall i :: 0 <= i < |w| ==> w[i] != '\n'
  {
  }

  lemma EntryTextParts(a: string, b: string)
    ensures "E" + " " + (a + " ") + b == "E" + " " + (a + " " + b)
  {
  }

  lemma EntryTextIsPlain(op: Number, e: Entry)
    requires EntryOk(e)
    ensures Plain(EntryText(op, e))
  {
    hide EntryWords, Decimal, Plain, IsWord, Join;
    EntryIsWords(e);
    assert EntryWords(e) != [] by { EntryHasWords(e); }
    JoinIsPlain(EntryWords(e));
    DecimalIsWord(op);
    WordHasNoLine(Decimal(op));
    PlainAfter("E" + " " + (Decimal(op) + " "), EncodeEntry(e));
    EntryTextParts(Decimal(op), EncodeEntry(e));
  }

  lemma EntryLineBack(op: Number, e: Entry)
    requires EntryOk(e)
    ensures DecodeLine(EntryText(op, e)) == Some(EntryLine(op, e))
  {
    hide Words, Decimal, EncodeEntry, DecodeEntry;
    var rest := Decimal(op) + " " + EncodeEntry(e);
    SplitAt("E", rest);
    DecimalIsWord(op);
    SplitAt(Decimal(op), EncodeEntry(e));
    DecodeEncodeEntry(e);
    assert Words(rest) == [Decimal(op)] + Words(" " + EncodeEntry(e)) by {
      FirstWord(Decimal(op), " " + EncodeEntry(e));
      assert Decimal(op) + (" " + EncodeEntry(e)) == rest;
    }
    NumberBack(op, Words(" " + EncodeEntry(e)));
  }

  lemma HeaderTextIs(h: Header)
    ensures HeaderText(h) == "H" + " " + Join(Nums(HeaderNumbers(h))) && Plain(HeaderText(h))
  {
    NumsAreWords(HeaderNumbers(h));
    JoinIsPlain(Nums(HeaderNumbers(h)));
    SpacedJoin(Nums(HeaderNumbers(h)));
    PlainAfter("H" + " ", Join(Nums(HeaderNumbers(h))));
  }

  lemma HeaderBack(h: Header)
    ensures DecodeLine(HeaderText(h)) == Some(HeaderLine(h))
  {
    hide Words, Join, HeaderText;
    var ns := HeaderNumbers(h);
    HeaderTextIs(h);
    SplitAt("H", Join(Nums(ns)));
    NumsAreWords(ns);
    WordsOfJoin(Nums(ns));
    NumbersBack(ns, []);
    assert Nums(ns) + [] == Nums(ns);
  }

  /** A record reads back as the write it holds. */
  lemma {:induction false} DecodeEncodeWrite(w: Write)
    requires WriteOk(w)
    ensures DecodeWrite(EncodeWrite(w)) == Some(w)
    decreases |w.entries|
  {
    hide EntryText, HeaderText, DecodeLine, Plain, Lines;
    if w.entries == [] {
      HeaderTextIs(w.header);
      LastLine(HeaderText(w.header));
      HeaderBack(w.header);
    } else {
      var e, rest := w.entries[0], w.(entries := w.entries[1..]);
      EntryTextIsPlain(e.0, e.1);
      FirstLine(EntryText(e.0, e.1), EncodeWrite(rest));
      EntryLineBack(e.0, e.1);
      DecodeEncodeWrite(rest);
      assert [e] + rest.entries == w.entries;
    }
  }

  /** One more entry, and what follows it. */
  lemma RecordNext(out: string, op: Number, e: Entry, rest: string)
    ensures out + "E " + Decimal(op) + " " + EncodeEntry(e) + "\n" + rest == out + (EntryText(op, e) + "\n" + rest)
  {
    hide Decimal, EncodeEntry;
    var a, b := Decimal(op), EncodeEntry(e);
    assert out + "E " + a + " " + b + "\n" + rest == out + (("E" + " " + (a + " " + b)) + "\n" + rest);
  }

  lemma EncodeNext(w: Write, i: nat)
    requires i < |w.entries|
    ensures EncodeWrite(w.(entries := w.entries[i..])) ==
            EntryText(w.entries[i].0, w.entries[i].1) + "\n" + EncodeWrite(w.(entries := w.entries[i + 1..]))
  {
    assert w.entries[i..][1..] == w.entries[i + 1..];
  }

  lemma EncodeLast(w: Write)
    ensures EncodeWrite(w.(entries := w.entries[|w.entries|..])) == "H" + Spaced(Nums(HeaderNumbers(w.header)))
  {
  }

  /** Writes a record, entry by entry and then the counters. */
  method Submit(w: Write) returns (record: string)
    ensures record == EncodeWrite(w)
  {
    hide EntryText, Decimal, HeaderNumbers, EntryWords, Join, EncodeWrite, Spaced, Nums;
    record := "";
    var i := 0;
    assert w.(entries := w.entries[0..]) == w;
    while i < |w.entries|
      invariant i <= |w.entries| && record + EncodeWrite(w.(entries := w.entries[i..])) == EncodeWrite(w)
    {
      var e := w.entries[i];
      ghost var rest := EncodeWrite(w.(entries := w.entries[i + 1..]));
      EncodeNext(w, i);
      RecordNext(record, e.0, e.1, rest);
      record := PushNumber(record + "E ", e.0);
      record := WriteEntry(record + " ", e.1);
      record := record + "\n";
      i := i + 1;
    }
    EncodeLast(w);
    record := WriteNumbers(record + "H", HeaderNumbers(w.header));
  }
}
