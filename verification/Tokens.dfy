/** The writers that append to a line, and the cursor that reads one, against the encoding. */
module Tokens {
  import opened Types
  import opened Text
  import opened Codec

  // ---------------------------------------------------------------------------
  // Writing

  method WriteOp(out: string, op: Put) returns (text: string)
    ensures text == out + Join(PutWords(op))
  {
    text := out + "PUT ";
    text := text + op.key;
    text := text + " ";
    text := text + op.value;
    JoinSpaced("PUT", [op.key, op.value]);
    assert PutWords(op) == ["PUT"] + [op.key, op.value];
    assert [op.key, op.value][1..] == [op.value] && [op.value][1..] == [];
    assert Spaced([op.value]) == " " + op.value + Spaced([]);
    assert Spaced([op.key, op.value]) == " " + op.key + Spaced([op.value]);
  }

  /** Appends each number after a space. */
  method WriteNumbers(out: string, numbers: seq<Number>) returns (text: string)
    ensures text == out + Spaced(Nums(numbers))
  {
    text := out;
    var i := 0;
    assert Spaced(Nums(numbers[..0])) == "";
    while i < |numbers|
      invariant i <= |numbers| && text == out + Spaced(Nums(numbers[..i]))
    {
      SpacedNext(numbers[..i], numbers[i]);
      assert numbers[..i] + [numbers[i]] == numbers[..i + 1];
      text := text + " ";
      text := PushNumber(text, numbers[i]);
      i := i + 1;
    }
    assert numbers[..i] == numbers;
  }

  /** The words, each after a space. */
  function Spaced(words: seq<string>): string {
    if words == [] then "" else " " + words[0] + Spaced(words[1..])
  }

  lemma {:induction false} JoinSpaced(w: string, words: seq<string>)
    ensures Join([w] + words) == w + Spaced(words)
    decreases |words|
  {
    if words == [] {
      assert [w] + words == [w];
    } else {
      assert ([w] + words)[1..] == [words[0]] + words[1..];
      JoinSpaced(words[0], words[1..]);
      assert w + " " + (words[0] + Spaced(words[1..])) == w + (" " + words[0] + Spaced(words[1..]));
    }
  }

  lemma {:induction false} SpacedMore(a: seq<string>, b: seq<string>)
    ensures Spaced(a + b) == Spaced(a) + Spaced(b)
  {
    if a == [] {
      assert a + b == b;
    } else {
      assert (a + b)[1..] == a[1..] + b;
      SpacedMore(a[1..], b);
    }
  }

  lemma {:induction false} NumsMore(a: seq<Number>, b: seq<Number>)
    ensures Nums(a + b) == Nums(a) + Nums(b)
  {
    if a == [] {
      assert a + b == b;
    } else {
      assert (a + b)[1..] == a[1..] + b;
      NumsMore(a[1..], b);
    }
  }

  lemma SpacedNext(ns: seq<Number>, n: Number)
    ensures Spaced(Nums(ns + [n])) == Spaced(Nums(ns)) + " " + Decimal(n)
  {
    NumsMore(ns, [n]);
    SpacedMore(Nums(ns), Nums([n]));
    assert Nums([n]) == [Decimal(n)];
    assert Spaced([Decimal(n)]) == " " + Decimal(n) + "";
  }

  /** Words after a space, joined or each on its own. */
  lemma SpacedJoin(words: seq<string>)
    requires words != []
    ensures Spaced(words) == " " + Join(words)
  {
    JoinSpaced(words[0], words[1..]);
    assert [words[0]] + words[1..] == words;
  }

  method WriteEntry(out: string, e: Entry) returns (text: string)
    ensures text == out + Join(EntryWords(e))
  {
    match e
    case Register(c) =>
      text := PushNumber(out + "REG ", c);
      assert Join(["REG", Decimal(c)]) == "REG" + " " + Decimal(c) by {
        assert ["REG", Decimal(c)][1..] == [Decimal(c)];
      }
      assert out + "REG " + Decimal(c) == out + ("REG" + " " + Decimal(c));
    case Request(c, s, n, a, op) =>
      text := WriteNumbers(out + "REQ", [c, s, n, a]);
      text := WriteOp(text + " ", op);
      var ws := Nums([c, s, n, a]);
      assert EntryWords(e) == ["REQ"] + (ws + PutWords(op));
      JoinSpaced("REQ", ws + PutWords(op));
      SpacedMore(ws, PutWords(op));
      SpacedJoin(PutWords(op));
      assert out + "REQ" + Spaced(ws) + " " + Join(PutWords(op)) == out + ("REQ" + (Spaced(ws) + (" " + Join(PutWords(op)))));
  }

  lemma FlatMore<T>(xs: seq<T>, x: T, words: T -> seq<string>)
    ensures Flat(xs + [x], words) == Flat(xs, words) + words(x)
  {
    if xs == [] {
      assert xs + [x] == [x];
    } else {
      assert (xs + [x])[1..] == xs[1..] + [x];
      FlatMore(xs[1..], x, words);
    }
  }

  /** One more of a list, after a space. */
  lemma SpacedFlat<T>(xs: seq<T>, x: T, words: T -> seq<string>)
    requires words(x) != []
    ensures Spaced(Flat(xs + [x], words)) == Spaced(Flat(xs, words)) + " " + Join(words(x))
  {
    FlatMore(xs, x, words);
    SpacedMore(Flat(xs, words), words(x));
    SpacedJoin(words(x));
  }

  lemma Regroup(a: string, b: string, c: string, d: string)
    ensures a + b + c + d == a + (b + c + d)
  {
  }

  lemma EntryHasWords(e: Entry)
    ensures EntryWords(e) != []
  {
  }

  method EncodeEntries(log: seq<Entry>) returns (text: string)
    requires |log| < Limit
    ensures text == Join(EntriesWords(log))
  {
    text := PushNumber("", |log|);
    var i := 0;
    assert Spaced(Flat(log[..0], EntryWords)) == "";
    hide Flat, Spaced, Decimal, Join;
    while i < |log|
      invariant i <= |log| && text == Decimal(|log|) + Spaced(Flat(log[..i], EntryWords))
    {
      EntryHasWords(log[i]);
      hide EntryWords;
      SpacedFlat(log[..i], log[i], EntryWords);
      assert log[..i] + [log[i]] == log[..i + 1];
      Regroup(Decimal(|log|), Spaced(Flat(log[..i], EntryWords)), " ", Join(EntryWords(log[i])));
      text := WriteEntry(text + " ", log[i]);
      i := i + 1;
    }
    assert log[..i] == log;
    JoinSpaced(Decimal(|log|), Flat(log, EntryWords));
  }

  method EncodeClient(r: ClientRecord) returns (text: string)
    requires |r.replies| < Limit
    ensures text == Join(RecordWords(r))
  {
    text := PushNumber("", r.session);
    text := WriteNumbers(text, [r.number, r.op, |r.replies|]);
    ghost var head := [r.number, r.op, |r.replies|];
    var i := 0;
    ghost var head' := Decimal(r.session) + Spaced(Nums(head));
    assert text == head';
    assert Spaced(Flat(r.replies[..0], ResultWords)) == "";
    hide Flat, Spaced, Decimal;
    while i < |r.replies|
      invariant i <= |r.replies| && text == head' + Spaced(Flat(r.replies[..i], ResultWords))
    {
      SpacedFlat(r.replies[..i], r.replies[i], ResultWords);
      assert r.replies[..i] + [r.replies[i]] == r.replies[..i + 1];
      Regroup(head', Spaced(Flat(r.replies[..i], ResultWords)), " ", ResultWord(r.replies[i]));
      text := text + " ";
      text := text + ResultWord(r.replies[i]);
      i := i + 1;
    }
    assert r.replies[..i] == r.replies;
    ClientText(r);
  }

  lemma ClientText(r: ClientRecord)
    requires |r.replies| < Limit
    ensures Join(RecordWords(r)) == Decimal(r.session) + Spaced(Nums([r.number, r.op, |r.replies|])) + Spaced(Flat(r.replies, ResultWords))
  {
    var replies := Flat(r.replies, ResultWords);
    NumsMore([r.session], [r.number, r.op]);
    NumsMore([r.number, r.op], [|r.replies|]);
    assert [r.session] + [r.number, r.op] == [r.session, r.number, r.op];
    assert [r.number, r.op] + [|r.replies|] == [r.number, r.op, |r.replies|];
    assert Nums([r.session]) == [Decimal(r.session)];
    assert Nums([|r.replies|]) == [Decimal(|r.replies|)];
    assert RecordWords(r) == [Decimal(r.session)] + (Nums([r.number, r.op, |r.replies|]) + replies);
    JoinSpaced(Decimal(r.session), Nums([r.number, r.op, |r.replies|]) + replies);
    SpacedMore(Nums([r.number, r.op, |r.replies|]), replies);
  }

  method EncodeChunk(c: Chunk) returns (text: string)
    requires ChunkOk(c)
    ensures text == Join(ChunkWords(c))
  {
    ChunkText(c);
    hide ChunkWords, Join, Flat, Spaced, Decimal;
    hide ClientWords, PairWords, ClientOk, PairOk;
    text := PushNumber("", |c.clients|);
    assert text == Decimal(|c.clients|);
    text := WriteClients(text, c.clients);
    text := text + " ";
    text := PushNumber(text, |c.pairs|);
    text := WritePairs(text, c.pairs);
  }

  lemma ChunkText(c: Chunk)
    requires ChunkOk(c)
    ensures Join(ChunkWords(c)) ==
            Decimal(|c.clients|) + Spaced(Flat(c.clients, ClientWords)) + " " + Decimal(|c.pairs|) + Spaced(Flat(c.pairs, PairWords))
  {
    hide Flat, Decimal, Spaced;
    var a, b := Flat(c.clients, ClientWords), Flat(c.pairs, PairWords);
    var n := Decimal(|c.pairs|);
    assert ChunkWords(c) == [Decimal(|c.clients|)] + (a + ([n] + b));
    JoinSpaced(Decimal(|c.clients|), a + ([n] + b));
    SpacedMore(a, [n] + b);
    SpacedJoin([n] + b);
    JoinSpaced(n, b);
    Concat5(Decimal(|c.clients|), Spaced(a), " ", n, Spaced(b));
  }

  lemma Concat5(a: string, b: string, c: string, d: string, e: string)
    ensures a + (b + (c + (d + e))) == a + b + c + d + e
  {
  }

  method WriteClients(out: string, clients: seq<ClientRecord>) returns (text: string)
    requires forall i {:trigger clients[i]} :: 0 <= i < |clients| ==> ClientOk(clients[i])
    ensures text == out + Spaced(Flat(clients, ClientWords))
  {
    text := out;
    var i := 0;
    assert Spaced(Flat(clients[..0], ClientWords)) == "";
    hide Flat, Spaced, Decimal, ClientWords, Join, ClientOk;
    while i < |clients|
      invariant i <= |clients| && text == out + Spaced(Flat(clients[..i], ClientWords))
    {
      var r := clients[i];
      ClientHasWords(r);
      SpacedFlat(clients[..i], r, ClientWords);
      assert clients[..i] + [r] == clients[..i + 1];
      IdFirst(r);
      Regroup(out, Spaced(Flat(clients[..i], ClientWords)), " ", Join(ClientWords(r)));
      text := WriteClient(text + " ", r);
      i := i + 1;
    }
    assert clients[..i] == clients;
  }

  lemma ClientHasWords(r: ClientRecord)
    ensures ClientWords(r) != []
  {
  }

  method WriteClient(out: string, r: ClientRecord) returns (text: string)
    requires ClientOk(r)
    ensures text == out + Join(ClientWords(r))
  {
    hide ClientWords, Join, Decimal, RecordWords;
    IdFirst(r);
    var record := EncodeClient(r);
    text := PushNumber(out, r.client);
    text := text + " " + record;
  }

  lemma IdFirst(r: ClientRecord)
    ensures Join(ClientWords(r)) == Decimal(r.client) + " " + Join(RecordWords(r))
  {
    JoinMore([Decimal(r.client)], RecordWords(r));
  }

  method WritePairs(out: string, pairs: seq<(string, string)>) returns (text: string)
    ensures text == out + Spaced(Flat(pairs, PairWords))
  {
    text := out;
    var i := 0;
    assert Spaced(Flat(pairs[..0], PairWords)) == "";
    hide Flat, Spaced;
    while i < |pairs|
      invariant i <= |pairs| && text == out + Spaced(Flat(pairs[..i], PairWords))
    {
      var p := pairs[i];
      SpacedFlat(pairs[..i], p, PairWords);
      assert pairs[..i] + [p] == pairs[..i + 1];
      JoinMore([p.0], [p.1]);
      assert [p.0] + [p.1] == PairWords(p);
      Regroup(out, Spaced(Flat(pairs[..i], PairWords)), " ", Join(PairWords(p)));
      text := text + " " + p.0 + " " + p.1;
      i := i + 1;
    }
    assert pairs[..i] == pairs;
  }

  // ---------------------------------------------------------------------------
  // Reading

  /** What a read gives and leaves is what the words say. */
  ghost predicate Reads<T>(p: Parsed<T>, x: Option<T>, rest: seq<string>) {
    match p
    case Bad => x.None?
    case Good(value, more) => x == Some(value) && rest == more
  }

  /** What is read after `done`. */
  function After<T>(done: seq<T>, p: Parsed<seq<T>>): Parsed<seq<T>> {
    match p case Bad => Bad case Good(xs, rest) => Good(done + xs, rest)
  }

  lemma AfterNext<T>(done: seq<T>, ws: seq<string>, k: nat, parse: seq<string> -> Parsed<T>)
    requires k > 0
    ensures After(done, ParseMany(ws, k, parse)) ==
            match parse(ws) case Bad => Bad case Good(x, rest) => After(done + [x], ParseMany(rest, k - 1, parse))
  {
    match parse(ws)
    case Bad =>
    case Good(x, rest) =>
      match ParseMany(rest, k - 1, parse)
      case Bad =>
      case Good(xs, more) => assert done + ([x] + xs) == done + [x] + xs;
  }

  lemma AfterNone<T>(ws: seq<string>, k: nat, parse: seq<string> -> Parsed<T>)
    ensures After([], ParseMany(ws, k, parse)) == ParseMany(ws, k, parse)
  {
    match ParseMany(ws, k, parse)
    case Bad =>
    case Good(xs, _) => assert [] + xs == xs;
  }

  lemma AfterAll<T>(done: seq<T>, ws: seq<string>, parse: seq<string> -> Parsed<T>)
    ensures After(done, ParseMany(ws, 0, parse)) == Good(done, ws)
  {
    assert done + [] == done;
  }

  /** A cursor over the words of one line. */
  class Cursor {
    var words: seq<string>

    constructor (line: string)
      ensures words == Words(line)
    {
      words := Words(line);
    }

    method Word() returns (x: Option<string>)
      modifies this
      ensures Reads(ParseWord(old(words)), x, words)
    {
      if words == [] {
        return None;
      }
      x := Some(words[0]);
      words := words[1..];
    }

    method Num() returns (x: Option<Number>)
      modifies this
      ensures Reads(ParseNumber(old(words)), x, words)
    {
      var w := Word();
      x := if w.None? then None else Parse(w.value);
    }

    method Op() returns (x: Option<Put>)
      modifies this
      ensures Reads(ParsePut(old(words)), x, words)
    {
      ghost var ws := words;
      var kind := Word();
      if kind.None? || kind.value != "PUT" {
        return None;
      }
      var key := Word();
      if key.None? {
        return None;
      }
      var value := Word();
      if value.None? {
        return None;
      }
      assert ws[1..][1..][1..] == ws[3..];
      x := Some(Put(key.value, value.value));
    }

    /** Reads `k` numbers. */
    method Nums(k: nat) returns (x: Option<seq<Number>>)
      modifies this
      ensures Reads(ParseNumbers(old(words), k), x, words)
      decreases k
    {
      if k == 0 {
        return Some([]);
      }
      var n := Num();
      if n.None? {
        return None;
      }
      var rest := Nums(k - 1);
      x := if rest.None? then None else Some([n.value] + rest.value);
    }

    method Entry() returns (x: Option<Entry>)
      modifies this
      ensures Reads(ParseEntry(old(words)), x, words)
    {
      hide ParseNumbers, ParsePut, ParseNumber;
      var kind := Word();
      if kind == Some("REG") {
        var c := Num();
        x := if c.None? then None else Some(Codec.Entry.Register(c.value));
      } else if kind == Some("REQ") {
        var n := Nums(4);
        if n.None? {
          return None;
        }
        var op := Op();
        x := if op.None? then None else Some(Codec.Entry.Request(n.value[0], n.value[1], n.value[2], n.value[3], op.value));
      } else {
        x := None;
      }
    }

    method Entries() returns (x: Option<seq<Entry>>)
      modifies this
      ensures Reads(ParseEntries(old(words)), x, words)
    {
      hide ParseEntry;
      var count := Num();
      if count.None? {
        return None;
      }
      var log: seq<Entry> := [];
      ghost var all := ParseMany(words, count.value, ParseEntry);
      AfterNone(words, count.value, ParseEntry);
      var i := 0;
      while i < count.value
        invariant i <= count.value && all == After(log, ParseMany(words, count.value - i, ParseEntry))
      {
        AfterNext(log, words, count.value - i, ParseEntry);
        var e := Entry();
        if e.None? {
          return None;
        }
        log := log + [e.value];
        i := i + 1;
      }
      AfterAll(log, words, ParseEntry);
      x := Some(log);
    }

    method Result() returns (x: Option<Option<string>>)
      modifies this
      ensures Reads(ParseResult(old(words)), x, words)
    {
      var w := Word();
      x := if w.None? then None else if w.value == "-" then Some(None) else Some(Some(Drop(w.value, 1)));
    }

    /** A client record as written, less its client id. */
    method Client(client: Number) returns (x: Option<ClientRecord>)
      modifies this
      ensures Reads(ParseRecord(old(words), client), x, words)
    {
      hide ParseResult, ParseNumbers;
      var n := Nums(3);
      if n.None? {
        return None;
      }
      var count := Num();
      if count.None? {
        return None;
      }
      var replies: seq<Option<string>> := [];
      ghost var all := ParseMany(words, count.value, ParseResult);
      AfterNone(words, count.value, ParseResult);
      var i := 0;
      while i < count.value
        invariant i <= count.value && all == After(replies, ParseMany(words, count.value - i, ParseResult))
      {
        AfterNext(replies, words, count.value - i, ParseResult);
        var reply := Result();
        if reply.None? {
          return None;
        }
        replies := replies + [reply.value];
        i := i + 1;
      }
      AfterAll(replies, words, ParseResult);
      x := Some(ClientRecord(client, n.value[0], n.value[1], n.value[2], replies));
    }

    method Clients() returns (x: Option<seq<ClientRecord>>)
      modifies this
      ensures Reads(ParseList(old(words), ParseClient), x, words)
    {
      hide ParseRecord;
      var count := Num();
      if count.None? {
        return None;
      }
      var clients: seq<ClientRecord> := [];
      ghost var all := ParseMany(words, count.value, ParseClient);
      AfterNone(words, count.value, ParseClient);
      var i := 0;
      while i < count.value
        invariant i <= count.value && all == After(clients, ParseMany(words, count.value - i, ParseClient))
      {
        AfterNext(clients, words, count.value - i, ParseClient);
        var id := Num();
        if id.None? {
          return None;
        }
        var r := Client(id.value);
        if r.None? {
          return None;
        }
        clients := clients + [r.value];
        i := i + 1;
      }
      AfterAll(clients, words, ParseClient);
      x := Some(clients);
    }

    method Pairs() returns (x: Option<seq<(string, string)>>)
      modifies this
      ensures Reads(ParseList(old(words), ParsePair), x, words)
    {
      var count := Num();
      if count.None? {
        return None;
      }
      var pairs: seq<(string, string)> := [];
      ghost var all := ParseMany(words, count.value, ParsePair);
      AfterNone(words, count.value, ParsePair);
      var i := 0;
      while i < count.value
        invariant i <= count.value && all == After(pairs, ParseMany(words, count.value - i, ParsePair))
      {
        AfterNext(pairs, words, count.value - i, ParsePair);
        ghost var ws := words;
        var key := Word();
        if key.None? {
          return None;
        }
        var value := Word();
        if value.None? {
          return None;
        }
        assert ws[1..][1..] == ws[2..];
        pairs := pairs + [(key.value, value.value)];
        i := i + 1;
      }
      AfterAll(pairs, words, ParsePair);
      x := Some(pairs);
    }

    method Chunk() returns (x: Option<Chunk>)
      modifies this
      ensures Reads(ParseChunk(old(words)), x, words)
    {
      hide ParseList, ParseClient, ParsePair;
      var clients := Clients();
      if clients.None? {
        return None;
      }
      var pairs := Pairs();
      x := if pairs.None? then None else Some(Codec.Chunk.Chunk(pairs.value, clients.value));
    }

    method Flag() returns (x: Option<bool>)
      modifies this
      ensures Reads(ParseFlag(old(words)), x, words)
    {
      var w := Word();
      x := if w == Some("0") then Some(false) else if w == Some("1") then Some(true) else None;
    }

    method Segment() returns (x: Option<Segment>)
      modifies this
      ensures Reads(ParseSegment(old(words)), x, words)
    {
      hide ParseEntries, ParseNumber;
      var base := Word();
      if base != Some("-") && base != Some("+") {
        return None;
      }
      var op := Num();
      if op.None? {
        return None;
      }
      var entries := Entries();
      x := if entries.None? then None
           else Some(Codec.Segment.Segment(if base == Some("-") then AtOp(op.value) else AtCheckpoint(op.value), entries.value));
    }
  }

  /** Reads an entry, which is all there is on the line. */
  method ReadEntry(text: string) returns (x: Option<Entry>)
    ensures x == DecodeEntry(text)
  {
    var t := new Cursor(text);
    x := t.Entry();
    if x.Some? {
      var more := t.Word();
      x := if more.None? then x else None;
    }
  }
}
