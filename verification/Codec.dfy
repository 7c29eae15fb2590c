/** The kvstore's text encoding of log entries, client records, checkpoint chunks and the frames between
    nodes: a line of words each, and the cursor that reads them back. */
module Codec {
  import opened Types
  import opened Text

  datatype Put = Put(key: string, value: string)

  datatype Entry =
    | Register(client: Number)
    | Request(client: Number, session: Number, number: Number, answered: Number, op: Put)

  datatype Base = AtOp(op: Number) | AtCheckpoint(op: Number)

  datatype Segment = Segment(base: Base, entries: seq<Entry>)

  datatype ClientRecord = ClientRecord(client: Number, session: Number, number: Number, op: Number, replies: seq<Option<string>>)

  datatype Chunk = Chunk(pairs: seq<(string, string)>, clients: seq<ClientRecord>)

  datatype State = State(commit: Number, segment: Segment)

  datatype Frame =
    | RegisterFrame(client: Number)
    | RequestFrame(client: Number, session: Number, number: Number, answered: Number, op: Put)
    | QueryFrame(client: Number, number: Number, query: string)
    | ConfirmView(view: Number, round: Number)
    | ConfirmViewOk(view: Number, round: Number, replica: Number)
    | Prepare(view: Number, opNumber: Number, commit: Number, entry: Entry)
    | PrepareOk(view: Number, opNumber: Number, replica: Number)
    | Commit(view: Number, commit: Number)
    | GetState(replica: Number, view: Number, opNumber: Number)
    | NewState(replica: Number, view: Number, commit: Number, segment: Segment)
    | GetChunk(replica: Number, opNumber: Number, index: Number)
    | NewChunk(replica: Number, opNumber: Number, index: Number, last: bool, chunk: Chunk)
    | StartViewChange(view: Number, replica: Number)
    | DoViewChange(view: Number, replica: Number, lastNormal: Number, commit: Number, segment: Segment)
    | StartView(view: Number, commit: Number, segment: Segment)
    | Recovery(replica: Number, nonce: Number, view: Number)
    | RecoveryResponse(view: Number, nonce: Number, replica: Number, state: Option<State>)
    | Registered(view: Number, client: Number, session: Number)
    | Executed(view: Number, client: Number, session: Number, number: Number, result: Option<string>)
    | Evicted(view: Number, client: Number, session: Number)
    | Queried(view: Number, client: Number, number: Number, result: Option<string>)

  // ---------------------------------------------------------------------------
  // What can be encoded: keys, values and queries are single words, results have no white space, and
  // lists are shorter than the limit on numbers

  predicate PutOk(op: Put) { IsWord(op.key) && IsWord(op.value) }

  predicate EntryOk(e: Entry) { e.Request? ==> PutOk(e.op) }

  predicate EntriesOk(entries: seq<Entry>) {
    |entries| < Limit && forall i {:trigger entries[i]} :: 0 <= i < |entries| ==> EntryOk(entries[i])
  }

  predicate ResultOk(x: Option<string>) { x.Some? ==> NoSpace(x.value) }

  predicate ClientOk(r: ClientRecord) {
    |r.replies| < Limit && forall i {:trigger r.replies[i]} :: 0 <= i < |r.replies| ==> ResultOk(r.replies[i])
  }

  predicate PairOk(p: (string, string)) { IsWord(p.0) && IsWord(p.1) }

  predicate ChunkOk(c: Chunk) {
    && |c.clients| < Limit && |c.pairs| < Limit
    && (forall i {:trigger c.clients[i]} :: 0 <= i < |c.clients| ==> ClientOk(c.clients[i]))
    && (forall i {:trigger c.pairs[i]} :: 0 <= i < |c.pairs| ==> PairOk(c.pairs[i]))
  }

  predicate FrameOk(f: Frame) {
    match f
    case RequestFrame(_, _, _, _, op) => PutOk(op)
    case QueryFrame(_, _, query) => IsWord(query)
    case Prepare(_, _, _, e) => EntryOk(e)
    case NewState(_, _, _, s) => EntriesOk(s.entries)
    case NewChunk(_, _, _, _, c) => ChunkOk(c)
    case DoViewChange(_, _, _, _, s) => EntriesOk(s.entries)
    case StartView(_, _, s) => EntriesOk(s.entries)
    case RecoveryResponse(_, _, _, s) => s.Some? ==> EntriesOk(s.value.segment.entries)
    case Executed(_, _, _, _, x) => ResultOk(x)
    case Queried(_, _, _, x) => ResultOk(x)
    case _ => true
  }

  // ---------------------------------------------------------------------------
  // Words

  function Nums(ns: seq<Number>): (ws: seq<string>)
    ensures |ws| == |ns|
  {
    if ns == [] then [] else [Decimal(ns[0])] + Nums(ns[1..])
  }

  function PutWords(op: Put): seq<string> { ["PUT", op.key, op.value] }

  function EntryWords(e: Entry): seq<string> {
    match e
    case Register(c) => ["REG", Decimal(c)]
    case Request(c, s, n, a, op) => ["REQ"] + Nums([c, s, n, a]) + PutWords(op)
  }

  /** The words of one after the other. */
  function Flat<T>(xs: seq<T>, words: T -> seq<string>): seq<string> {
    if xs == [] then [] else words(xs[0]) + Flat(xs[1..], words)
  }

  function EntriesWords(entries: seq<Entry>): seq<string> { [Decimal(|entries|)] + Flat(entries, EntryWords) }

  function ResultWord(x: Option<string>): string { if x.Some? then "+" + x.value else "-" }

  function ResultWords(x: Option<string>): seq<string> { [ResultWord(x)] }

  /** A client record less its client id. */
  function RecordWords(r: ClientRecord): seq<string> {
    Nums([r.session, r.number, r.op]) + [Decimal(|r.replies|)] + Flat(r.replies, ResultWords)
  }

  function ClientWords(r: ClientRecord): seq<string> { [Decimal(r.client)] + RecordWords(r) }

  function PairWords(p: (string, string)): seq<string> { [p.0, p.1] }

  function ChunkWords(c: Chunk): seq<string> {
    [Decimal(|c.clients|)] + Flat(c.clients, ClientWords) + ([Decimal(|c.pairs|)] + Flat(c.pairs, PairWords))
  }

  function SegmentWords(s: Segment): seq<string> {
    [if s.base.AtOp? then "-" else "+", Decimal(s.base.op)] + EntriesWords(s.entries)
  }

  /** What a line may hold, by its first word. */
  datatype Kind =
    | KRegister | KRequest | KQuery | KConfirmView | KConfirmViewOk | KPrepare
    | KPrepareOk | KCommit | KGetState | KNewState | KGetChunk | KNewChunk
    | KStartViewChange | KDoViewChange | KStartView | KRecovery | KRecoveryResponse | KRegistered
    | KExecuted | KEvicted | KQueried

  function Tag(k: Kind): string {
    match k
    case KRegister => "REGISTER"
    case KRequest => "REQUEST"
    case KQuery => "QUERY"
    case KConfirmView => "CONFIRMVIEW"
    case KConfirmViewOk => "CONFIRMVIEWOK"
    case KPrepare => "PREPARE"
    case KPrepareOk => "PREPAREOK"
    case KCommit => "COMMIT"
    case KGetState => "GETSTATE"
    case KNewState => "NEWSTATE"
    case KGetChunk => "GETCHUNK"
    case KNewChunk => "NEWCHUNK"
    case KStartViewChange => "STARTVIEWCHANGE"
    case KDoViewChange => "DOVIEWCHANGE"
    case KStartView => "STARTVIEW"
    case KRecovery => "RECOVERY"
    case KRecoveryResponse => "RECOVERYRESPONSE"
    case KRegistered => "REGISTERED"
    case KExecuted => "EXECUTED"
    case KEvicted => "EVICTED"
    case KQueried => "QUERIED"
  }

  function KindOf(word: string): Option<Kind> {
    if word == "REGISTER" then Some(KRegister)
    else if word == "REQUEST" then Some(KRequest)
    else if word == "QUERY" then Some(KQuery)
    else if word == "CONFIRMVIEW" then Some(KConfirmView)
    else if word == "CONFIRMVIEWOK" then Some(KConfirmViewOk)
    else if word == "PREPARE" then Some(KPrepare)
    else if word == "PREPAREOK" then Some(KPrepareOk)
    else if word == "COMMIT" then Some(KCommit)
    else if word == "GETSTATE" then Some(KGetState)
    else if word == "NEWSTATE" then Some(KNewState)
    else if word == "GETCHUNK" then Some(KGetChunk)
    else if word == "NEWCHUNK" then Some(KNewChunk)
    else if word == "STARTVIEWCHANGE" then Some(KStartViewChange)
    else if word == "DOVIEWCHANGE" then Some(KDoViewChange)
    else if word == "STARTVIEW" then Some(KStartView)
    else if word == "RECOVERY" then Some(KRecovery)
    else if word == "RECOVERYRESPONSE" then Some(KRecoveryResponse)
    else if word == "REGISTERED" then Some(KRegistered)
    else if word == "EXECUTED" then Some(KExecuted)
    else if word == "EVICTED" then Some(KEvicted)
    else if word == "QUERIED" then Some(KQueried)
    else None
  }

  /** The kind and the numbers of a frame, and the words after them. */
  function Head(f: Frame): (Kind, seq<Number>, seq<string>) {
    match f
    case RegisterFrame(c) => (KRegister, [c], [])
    case RequestFrame(c, s, n, a, op) => (KRequest, [c, s, n, a], PutWords(op))
    case QueryFrame(c, n, q) => (KQuery, [c, n], [q])
    case ConfirmView(v, r) => (KConfirmView, [v, r], [])
    case ConfirmViewOk(v, r, i) => (KConfirmViewOk, [v, r, i], [])
    case Prepare(v, op, c, e) => (KPrepare, [v, op, c], EntryWords(e))
    case PrepareOk(v, op, i) => (KPrepareOk, [v, op, i], [])
    case Commit(v, c) => (KCommit, [v, c], [])
    case GetState(i, v, op) => (KGetState, [i, v, op], [])
    case NewState(i, v, c, s) => (KNewState, [i, v, c], SegmentWords(s))
    case GetChunk(i, op, k) => (KGetChunk, [i, op, k], [])
    case NewChunk(i, op, k, last, c) => (KNewChunk, [i, op, k], [if last then "1" else "0"] + ChunkWords(c))
    case StartViewChange(v, i) => (KStartViewChange, [v, i], [])
    case DoViewChange(v, i, n, c, s) => (KDoViewChange, [v, i, n, c], SegmentWords(s))
    case StartView(v, c, s) => (KStartView, [v, c], SegmentWords(s))
    case Recovery(i, n, v) => (KRecovery, [i, n, v], [])
    case RecoveryResponse(v, n, i, Some(s)) => (KRecoveryResponse, [v, n, i], ["+", Decimal(s.commit)] + SegmentWords(s.segment))
    case RecoveryResponse(v, n, i, None) => (KRecoveryResponse, [v, n, i], ["-"])
    case Registered(v, c, s) => (KRegistered, [v, c, s], [])
    case Executed(v, c, s, n, x) => (KExecuted, [v, c, s, n], ResultWords(x))
    case Evicted(v, c, s) => (KEvicted, [v, c, s], [])
    case Queried(v, c, n, x) => (KQueried, [v, c, n], ResultWords(x))
  }

  function FrameWords(f: Frame): seq<string> { [Tag(Head(f).0)] + Nums(Head(f).1) + Head(f).2 }

  function Encode(f: Frame): string { Join(FrameWords(f)) }

  function EncodeEntry(e: Entry): string { Join(EntryWords(e)) }

  // ---------------------------------------------------------------------------
  // Reading words

  datatype Parsed<+T> = Bad | Good(value: T, rest: seq<string>)

  function ParseWord(ws: seq<string>): Parsed<string> { if ws == [] then Bad else Good(ws[0], ws[1..]) }

  function ParseNumber(ws: seq<string>): Parsed<Number> {
    if ws == [] || Parse(ws[0]).None? then Bad else Good(Parse(ws[0]).value, ws[1..])
  }

  function ParseNumbers(ws: seq<string>, k: nat): (p: Parsed<seq<Number>>)
    ensures p.Good? ==> |p.value| == k
  {
    if k == 0 then Good([], ws)
    else
      match ParseNumber(ws)
      case Bad => Bad
      case Good(n, rest) =>
        match ParseNumbers(rest, k - 1)
        case Bad => Bad
        case Good(ns, rest') => Good([n] + ns, rest')
  }

  function ParsePut(ws: seq<string>): Parsed<Put> {
    if |ws| < 3 || ws[0] != "PUT" then Bad else Good(Put(ws[1], ws[2]), ws[3..])
  }

  function ParseEntry(ws: seq<string>): Parsed<Entry> {
    if ws == [] then Bad
    else if ws[0] == "REG" then
      match ParseNumber(ws[1..])
      case Bad => Bad
      case Good(c, rest) => Good(Entry.Register(c), rest)
    else if ws[0] == "REQ" then
      match ParseNumbers(ws[1..], 4)
      case Bad => Bad
      case Good(n, rest) =>
        match ParsePut(rest)
        case Bad => Bad
        case Good(op, rest') => Good(Entry.Request(n[0], n[1], n[2], n[3], op), rest')
    else Bad
  }

  /** `k` of a kind, one after the other. */
  function ParseMany<T>(ws: seq<string>, k: nat, parse: seq<string> -> Parsed<T>): (p: Parsed<seq<T>>)
    ensures p.Good? ==> |p.value| == k
    decreases k
  {
    if k == 0 then Good([], ws)
    else
      match parse(ws)
      case Bad => Bad
      case Good(x, rest) =>
        match ParseMany(rest, k - 1, parse)
        case Bad => Bad
        case Good(xs, rest') => Good([x] + xs, rest')
  }

  /** A count, and as many of a kind. */
  function ParseList<T>(ws: seq<string>, parse: seq<string> -> Parsed<T>): Parsed<seq<T>> {
    match ParseNumber(ws)
    case Bad => Bad
    case Good(k, rest) => ParseMany(rest, k, parse)
  }

  function ParseEntries(ws: seq<string>): Parsed<seq<Entry>> { ParseList(ws, ParseEntry) }

  function ParseResult(ws: seq<string>): Parsed<Option<string>> {
    if ws == [] then Bad
    else if ws[0] == "-" then Good(None, ws[1..])
    else Good(Some(Drop(ws[0], 1)), ws[1..])
  }

  function ParseRecord(ws: seq<string>, client: Number): Parsed<ClientRecord> {
    match ParseNumbers(ws, 3)
    case Bad => Bad
    case Good(n, rest) =>
      match ParseList(rest, ParseResult)
      case Bad => Bad
      case Good(replies, rest') => Good(ClientRecord(client, n[0], n[1], n[2], replies), rest')
  }

  function ParseClient(ws: seq<string>): Parsed<ClientRecord> {
    match ParseNumber(ws)
    case Bad => Bad
    case Good(c, rest) => ParseRecord(rest, c)
  }

  function ParsePair(ws: seq<string>): Parsed<(string, string)> {
    if |ws| < 2 then Bad else Good((ws[0], ws[1]), ws[2..])
  }

  function ParseChunk(ws: seq<string>): Parsed<Chunk> {
    match ParseList(ws, ParseClient)
    case Bad => Bad
    case Good(clients, rest) =>
      match ParseList(rest, ParsePair)
      case Bad => Bad
      case Good(pairs, rest') => Good(Chunk(pairs, clients), rest')
  }

  function ParseFlag(ws: seq<string>): Parsed<bool> {
    if ws == [] then Bad else if ws[0] == "0" then Good(false, ws[1..]) else if ws[0] == "1" then Good(true, ws[1..]) else Bad
  }

  function ParseSegment(ws: seq<string>): Parsed<Segment> {
    if ws == [] || (ws[0] != "-" && ws[0] != "+") then Bad
    else
      match ParseNumber(ws[1..])
      case Bad => Bad
      case Good(op, rest) =>
        match ParseEntries(rest)
        case Bad => Bad
        case Good(entries, rest') => Good(Segment(if ws[0] == "-" then AtOp(op) else AtCheckpoint(op), entries), rest')
  }

  // ---------------------------------------------------------------------------
  // Round trips

  lemma NumberBack(n: Number, rest: seq<string>)
    ensures ParseNumber([Decimal(n)] + rest) == Good(n, rest)
  {
    ParseDecimal(n);
    assert ([Decimal(n)] + rest)[1..] == rest;
  }

  lemma {:induction false} NumbersBack(ns: seq<Number>, rest: seq<string>)
    ensures ParseNumbers(Nums(ns) + rest, |ns|) == Good(ns, rest)
  {
    if ns == [] {
      assert Nums(ns) + rest == rest;
    } else {
      assert Nums(ns) + rest == [Decimal(ns[0])] + (Nums(ns[1..]) + rest);
      NumberBack(ns[0], Nums(ns[1..]) + rest);
      NumbersBack(ns[1..], rest);
      assert [ns[0]] + ns[1..] == ns;
    }
  }

  lemma PutBack(op: Put, rest: seq<string>)
    ensures ParsePut(PutWords(op) + rest) == Good(op, rest)
  {
    assert (PutWords(op) + rest)[3..] == rest;
  }

  lemma EntryBack(e: Entry, rest: seq<string>)
    ensures ParseEntry(EntryWords(e) + rest) == Good(e, rest)
  {
    match e
    case Register(c) =>
      assert (EntryWords(e) + rest)[1..] == [Decimal(c)] + rest;
      NumberBack(c, rest);
    case Request(c, s, n, a, op) =>
      assert (EntryWords(e) + rest)[1..] == Nums([c, s, n, a]) + (PutWords(op) + rest);
      NumbersBack([c, s, n, a], PutWords(op) + rest);
      PutBack(op, rest);
  }

  lemma ResultBack(x: Option<string>, rest: seq<string>)
    ensures ParseResult(ResultWords(x) + rest) == Good(x, rest)
  {
    assert (ResultWords(x) + rest)[1..] == rest;
    if x.Some? {
      assert ("+" + x.value)[1..] == x.value;
      assert ("+" + x.value)[0] == '+';
    }
  }

  /** Reading back a list whose kind reads back. */
  lemma {:induction false} ManyBack<T(!new)>(xs: seq<T>, rest: seq<string>, words: T -> seq<string>, parse: seq<string> -> Parsed<T>)
    requires forall x, more {:trigger words(x) + more} :: x in xs ==> parse(words(x) + more) == Good(x, more)
    ensures ParseMany(Flat(xs, words) + rest, |xs|, parse) == Good(xs, rest)
  {
    if xs == [] {
      assert Flat(xs, words) + rest == rest;
    } else {
      assert Flat(xs, words) + rest == words(xs[0]) + (Flat(xs[1..], words) + rest);
      ManyBack(xs[1..], rest, words, parse);
      assert [xs[0]] + xs[1..] == xs;
    }
  }

  lemma ListBack<T(!new)>(xs: seq<T>, rest: seq<string>, words: T -> seq<string>, parse: seq<string> -> Parsed<T>)
    requires |xs| < Limit
    requires forall x, more {:trigger words(x) + more} :: x in xs ==> parse(words(x) + more) == Good(x, more)
    ensures ParseList([Decimal(|xs|)] + Flat(xs, words) + rest, parse) == Good(xs, rest)
  {
    assert [Decimal(|xs|)] + Flat(xs, words) + rest == [Decimal(|xs|)] + (Flat(xs, words) + rest);
    NumberBack(|xs|, Flat(xs, words) + rest);
    ManyBack(xs, rest, words, parse);
  }

  lemma EntriesBack(entries: seq<Entry>, rest: seq<string>)
    requires |entries| < Limit
    ensures ParseEntries(EntriesWords(entries) + rest) == Good(entries, rest)
  {
    forall e: Entry, more
      ensures ParseEntry(EntryWords(e) + more) == Good(e, more)
    {
      EntryBack(e, more);
    }
    ListBack(entries, rest, EntryWords, ParseEntry);
  }

  /** A client record reads back, and its replies with it. */
  lemma RecordBack(r: ClientRecord, rest: seq<string>)
    requires |r.replies| < Limit
    ensures ParseRecord(RecordWords(r) + rest, r.client) == Good(r, rest)
  {
    forall x: Option<string>, more
      ensures ParseResult(ResultWords(x) + more) == Good(x, more)
    {
      ResultBack(x, more);
    }
    var tail := [Decimal(|r.replies|)] + Flat(r.replies, ResultWords) + rest;
    assert RecordWords(r) + rest == Nums([r.session, r.number, r.op]) + tail;
    NumbersBack([r.session, r.number, r.op], tail);
    ListBack(r.replies, rest, ResultWords, ParseResult);
  }

  lemma ClientBack(r: ClientRecord, rest: seq<string>)
    requires |r.replies| < Limit
    ensures ParseClient(ClientWords(r) + rest) == Good(r, rest)
  {
    hide RecordWords, ParseRecord, Flat, Decimal;
    assert ClientWords(r) + rest == [Decimal(r.client)] + (RecordWords(r) + rest);
    NumberBack(r.client, RecordWords(r) + rest);
    RecordBack(r, rest);
  }

  lemma ChunkBack(c: Chunk, rest: seq<string>)
    requires ChunkOk(c)
    ensures ParseChunk(ChunkWords(c) + rest) == Good(c, rest)
  {
    forall x, more | x in c.clients
      ensures ParseClient(ClientWords(x) + more) == Good(x, more)
    {
      ClientBack(x, more);
    }
    forall p: (string, string), more
      ensures ParsePair(PairWords(p) + more) == Good(p, more)
    {
      assert (PairWords(p) + more)[2..] == more;
    }
    var tail := [Decimal(|c.pairs|)] + Flat(c.pairs, PairWords) + rest;
    assert ChunkWords(c) + rest == [Decimal(|c.clients|)] + Flat(c.clients, ClientWords) + tail;
    ListBack(c.clients, tail, ClientWords, ParseClient);
    ListBack(c.pairs, rest, PairWords, ParsePair);
  }

  lemma SegmentBack(s: Segment, rest: seq<string>)
    requires |s.entries| < Limit
    ensures ParseSegment(SegmentWords(s) + rest) == Good(s, rest)
  {
    var tail := EntriesWords(s.entries) + rest;
    assert (SegmentWords(s) + rest)[1..] == [Decimal(s.base.op)] + tail;
    NumberBack(s.base.op, tail);
    EntriesBack(s.entries, rest);
  }

  // ---------------------------------------------------------------------------
  // Frames

  /** A frame from its kind and the words after that. */
  function FrameOf(kind: Kind, ws: seq<string>): Parsed<Frame> {
    match kind
    case KRegister => (match ParseNumbers(ws, 1) case Bad => Bad case Good(n, rest) => Good(RegisterFrame(n[0]), rest))
    case KRequest =>
      (match ParseNumbers(ws, 4)
       case Bad => Bad
       case Good(n, rest) => (match ParsePut(rest) case Bad => Bad case Good(op, rest') => Good(RequestFrame(n[0], n[1], n[2], n[3], op), rest')))
    case KQuery =>
      (match ParseNumbers(ws, 2)
       case Bad => Bad
       case Good(n, rest) => (match ParseWord(rest) case Bad => Bad case Good(q, rest') => Good(QueryFrame(n[0], n[1], q), rest')))
    case KConfirmView => (match ParseNumbers(ws, 2) case Bad => Bad case Good(n, rest) => Good(ConfirmView(n[0], n[1]), rest))
    case KConfirmViewOk => (match ParseNumbers(ws, 3) case Bad => Bad case Good(n, rest) => Good(ConfirmViewOk(n[0], n[1], n[2]), rest))
    case KPrepare =>
      (match ParseNumbers(ws, 3)
       case Bad => Bad
       case Good(n, rest) => (match ParseEntry(rest) case Bad => Bad case Good(e, rest') => Good(Prepare(n[0], n[1], n[2], e), rest')))
    case KPrepareOk => (match ParseNumbers(ws, 3) case Bad => Bad case Good(n, rest) => Good(PrepareOk(n[0], n[1], n[2]), rest))
    case KCommit => (match ParseNumbers(ws, 2) case Bad => Bad case Good(n, rest) => Good(Commit(n[0], n[1]), rest))
    case KGetState => (match ParseNumbers(ws, 3) case Bad => Bad case Good(n, rest) => Good(GetState(n[0], n[1], n[2]), rest))
    case KNewState =>
      (match ParseNumbers(ws, 3)
       case Bad => Bad
       case Good(n, rest) => (match ParseSegment(rest) case Bad => Bad case Good(s, rest') => Good(NewState(n[0], n[1], n[2], s), rest')))
    case KGetChunk => (match ParseNumbers(ws, 3) case Bad => Bad case Good(n, rest) => Good(GetChunk(n[0], n[1], n[2]), rest))
    case KNewChunk => ChunkFrame(ws)
    case KStartViewChange => (match ParseNumbers(ws, 2) case Bad => Bad case Good(n, rest) => Good(StartViewChange(n[0], n[1]), rest))
    case KDoViewChange =>
      (match ParseNumbers(ws, 4)
       case Bad => Bad
       case Good(n, rest) => (match ParseSegment(rest) case Bad => Bad case Good(s, rest') => Good(DoViewChange(n[0], n[1], n[2], n[3], s), rest')))
    case KStartView =>
      (match ParseNumbers(ws, 2)
       case Bad => Bad
       case Good(n, rest) => (match ParseSegment(rest) case Bad => Bad case Good(s, rest') => Good(StartView(n[0], n[1], s), rest')))
    case KRecovery => (match ParseNumbers(ws, 3) case Bad => Bad case Good(n, rest) => Good(Recovery(n[0], n[1], n[2]), rest))
    case KRecoveryResponse => RecoveryFrame(ws)
    case KRegistered => (match ParseNumbers(ws, 3) case Bad => Bad case Good(n, rest) => Good(Registered(n[0], n[1], n[2]), rest))
    case KExecuted =>
      (match ParseNumbers(ws, 4)
       case Bad => Bad
       case Good(n, rest) => (match ParseResult(rest) case Bad => Bad case Good(x, rest') => Good(Executed(n[0], n[1], n[2], n[3], x), rest')))
    case KEvicted => (match ParseNumbers(ws, 3) case Bad => Bad case Good(n, rest) => Good(Evicted(n[0], n[1], n[2]), rest))
    case KQueried =>
      (match ParseNumbers(ws, 3)
       case Bad => Bad
       case Good(n, rest) => (match ParseResult(rest) case Bad => Bad case Good(x, rest') => Good(Queried(n[0], n[1], n[2], x), rest')))
  }

  function ChunkFrame(ws: seq<string>): Parsed<Frame> {
    match ParseNumbers(ws, 3)
    case Bad => Bad
    case Good(n, rest) =>
      match ParseFlag(rest)
      case Bad => Bad
      case Good(last, rest') =>
        match ParseChunk(rest')
        case Bad => Bad
        case Good(c, rest'') => Good(NewChunk(n[0], n[1], n[2], last, c), rest'')
  }

  function RecoveryFrame(ws: seq<string>): Parsed<Frame> {
    match ParseNumbers(ws, 3)
    case Bad => Bad
    case Good(n, rest) =>
      if rest == [] then Bad
      else if rest[0] != "+" then Good(RecoveryResponse(n[0], n[1], n[2], None), rest[1..])
      else
        match ParseNumber(rest[1..])
        case Bad => Bad
        case Good(commit, rest') =>
          match ParseSegment(rest')
          case Bad => Bad
          case Good(s, rest'') => Good(RecoveryResponse(n[0], n[1], n[2], Some(State(commit, s))), rest'')
  }

  /** Decodes a line.  Words after the frame are ignored. */
  function Decode(line: string): Option<Frame> {
    var ws := Words(line);
    if ws == [] || KindOf(ws[0]).None? then None
    else match FrameOf(KindOf(ws[0]).value, ws[1..]) case Bad => None case Good(f, _) => Some(f)
  }

  /** Decodes an entry, which is all there is. */
  function DecodeEntry(text: string): Option<Entry> {
    match ParseEntry(Words(text)) case Bad => None case Good(e, rest) => if rest == [] then Some(e) else None
  }

  /** A frame of numbers only. */
  predicate Plain(f: Frame) {
    f.RegisterFrame? || f.ConfirmView? || f.ConfirmViewOk? || f.PrepareOk? || f.Commit? || f.GetState? || f.GetChunk?
    || f.StartViewChange? || f.Recovery? || f.Registered? || f.Evicted?
  }

  lemma PlainBack(f: Frame)
    requires Plain(f)
    ensures FrameOf(Head(f).0, Nums(Head(f).1) + Head(f).2) == Good(f, [])
  {
    hide ParseNumbers, Nums, ParsePut, ParseEntry, ParseSegment, ParseChunk, ParseResult, SegmentWords, EntryWords, ChunkWords, PutWords,
      ResultWords, ChunkFrame, RecoveryFrame;
    NumbersBack(Head(f).1, []);
  }

  lemma SegmentFrameBack(f: Frame, s: Segment)
    requires FrameOk(f) && (f.NewState? || f.DoViewChange? || f.StartView?) && s == f.segment
    ensures FrameOf(Head(f).0, Nums(Head(f).1) + Head(f).2) == Good(f, [])
  {
    hide ParseNumbers, Nums, ParseSegment, SegmentWords;
    NumbersBack(Head(f).1, SegmentWords(s));
    assert SegmentWords(s) + [] == SegmentWords(s);
    SegmentBack(s, []);
  }

  lemma ResultFrameBack(f: Frame)
    requires f.Executed? || f.Queried?
    ensures FrameOf(Head(f).0, Nums(Head(f).1) + Head(f).2) == Good(f, [])
  {
    hide ParseNumbers, Nums, ParseResult, ResultWords;
    NumbersBack(Head(f).1, ResultWords(f.result));
    assert ResultWords(f.result) + [] == ResultWords(f.result);
    ResultBack(f.result, []);
  }

  lemma OpFrameBack(f: Frame)
    requires f.RequestFrame? || f.QueryFrame? || f.Prepare?
    ensures FrameOf(Head(f).0, Nums(Head(f).1) + Head(f).2) == Good(f, [])
  {
    hide ParseNumbers, Nums, ParsePut, ParseEntry, PutWords, EntryWords;
    var payload := Head(f).2;
    NumbersBack(Head(f).1, payload);
    assert payload + [] == payload;
    match f
    case RequestFrame(_, _, _, _, op) => PutBack(op, []);
    case QueryFrame(_, _, q) =>
    case Prepare(_, _, _, e) => EntryBack(e, []);
  }

  lemma FrameBack(f: Frame)
    requires FrameOk(f)
    ensures FrameOf(Head(f).0, Nums(Head(f).1) + Head(f).2) == Good(f, [])
  {
    hide FrameOk, Nums, ChunkFrame, RecoveryFrame;
    if f.NewState? || f.DoViewChange? || f.StartView? {
      SegmentFrameBack(f, f.segment);
    } else if f.Executed? || f.Queried? {
      ResultFrameBack(f);
    } else if f.RequestFrame? || f.QueryFrame? || f.Prepare? {
      OpFrameBack(f);
    } else if f.NewChunk? {
      NewChunkBack(f);
    } else if f.RecoveryResponse? {
      RecoveryBack(f);
    } else {
      PlainBack(f);
    }
  }

  lemma NewChunkBack(f: Frame)
    requires FrameOk(f) && f.NewChunk?
    ensures ChunkFrame(Nums(Head(f).1) + Head(f).2) == Good(f, [])
  {
    hide ParseNumbers, Nums, ParseChunk, ChunkWords;
    var flag := if f.last then "1" else "0";
    NumbersBack(Head(f).1, Head(f).2);
    assert ([flag] + ChunkWords(f.chunk))[1..] == ChunkWords(f.chunk) + [];
    ChunkBack(f.chunk, []);
  }

  lemma RecoveryBack(f: Frame)
    requires FrameOk(f) && f.RecoveryResponse?
    ensures RecoveryFrame(Nums(Head(f).1) + Head(f).2) == Good(f, [])
  {
    hide ParseNumbers, Nums, ParseSegment, SegmentWords, ParseNumber;
    NumbersBack(Head(f).1, Head(f).2);
    if f.state.Some? {
      var s := f.state.value;
      assert (["+", Decimal(s.commit)] + SegmentWords(s.segment))[1..] == [Decimal(s.commit)] + (SegmentWords(s.segment) + []);
      NumberBack(s.commit, SegmentWords(s.segment) + []);
      SegmentBack(s.segment, []);
    }
  }

  // ---------------------------------------------------------------------------
  // Every word is one

  lemma {:induction false} NumsAreWords(ns: seq<Number>)
    ensures AllWords(Nums(ns))
  {
    if ns != [] {
      DecimalIsWord(ns[0]);
      NumsAreWords(ns[1..]);
    }
  }

  lemma EntryIsWords(e: Entry)
    requires EntryOk(e)
    ensures AllWords(EntryWords(e))
  {
    match e
    case Register(c) => DecimalIsWord(c);
    case Request(c, s, n, a, op) => NumsAreWords([c, s, n, a]);
  }

  lemma {:induction false} FlatIsWords<T(!new)>(xs: seq<T>, words: T -> seq<string>)
    requires forall x {:trigger words(x)} :: x in xs ==> AllWords(words(x))
    ensures AllWords(Flat(xs, words))
  {
    if xs != [] {
      FlatIsWords(xs[1..], words);
    }
  }

  lemma ResultIsWords(x: Option<string>)
    requires ResultOk(x)
    ensures AllWords(ResultWords(x))
  {
  }

  lemma EntriesAreWords(entries: seq<Entry>)
    requires EntriesOk(entries)
    ensures AllWords(EntriesWords(entries))
  {
    DecimalIsWord(|entries|);
    forall e | e in entries
      ensures AllWords(EntryWords(e))
    {
      EntryIsWords(e);
    }
    FlatIsWords(entries, EntryWords);
  }

  lemma ClientIsWords(r: ClientRecord)
    requires ClientOk(r)
    ensures AllWords(ClientWords(r))
  {
    DecimalIsWord(r.client);
    DecimalIsWord(|r.replies|);
    NumsAreWords([r.session, r.number, r.op]);
    forall x | x in r.replies
      ensures AllWords(ResultWords(x))
    {
      ResultIsWords(x);
    }
    FlatIsWords(r.replies, ResultWords);
  }

  lemma ChunkIsWords(c: Chunk)
    requires ChunkOk(c)
    ensures AllWords(ChunkWords(c))
  {
    DecimalIsWord(|c.clients|);
    DecimalIsWord(|c.pairs|);
    forall r | r in c.clients
      ensures AllWords(ClientWords(r))
    {
      ClientIsWords(r);
    }
    FlatIsWords(c.clients, ClientWords);
    FlatIsWords(c.pairs, PairWords);
  }

  lemma SegmentIsWords(s: Segment)
    requires EntriesOk(s.entries)
    ensures AllWords(SegmentWords(s))
  {
    DecimalIsWord(s.base.op);
    EntriesAreWords(s.entries);
  }

  lemma PayloadIsWords(f: Frame)
    requires FrameOk(f)
    ensures AllWords(Head(f).2)
  {
    hide SegmentWords, EntryWords, ChunkWords, ResultWords;
    match f
    case Prepare(_, _, _, e) => EntryIsWords(e);
    case NewState(_, _, _, s) => SegmentIsWords(s);
    case NewChunk(_, _, _, last, c) => ChunkIsWords(c);
    case DoViewChange(_, _, _, _, s) => SegmentIsWords(s);
    case StartView(_, _, s) => SegmentIsWords(s);
    case RecoveryResponse(_, _, _, Some(s)) => DecimalIsWord(s.commit); SegmentIsWords(s.segment);
    case Executed(_, _, _, _, x) => ResultIsWords(x);
    case Queried(_, _, _, x) => ResultIsWords(x);
    case _ =>
  }

  predicate Upper(s: string) { s != "" && forall i :: 0 <= i < |s| ==> 'A' <= s[i] <= 'Z' }

  lemma UpperIsWord(s: string)
    requires Upper(s)
    ensures IsWord(s)
  {
  }

  /** The kinds of frames of normal operation and state transfer; the others are those of view changes
      and recoveries, and replies. */
  predicate Normal(k: Kind) {
    k.KRegister? || k.KRequest? || k.KQuery? || k.KConfirmView? || k.KConfirmViewOk? || k.KPrepare? || k.KPrepareOk? || k.KCommit?
    || k.KGetState? || k.KNewState? || k.KGetChunk?
  }

  lemma UpperTag(k: Kind)
    requires Normal(k)
    ensures Upper(Tag(k))
  {
  }

  lemma UpperOtherTag(k: Kind)
    requires !Normal(k)
    ensures Upper(Tag(k))
  {
  }

  lemma TagIsWord(k: Kind)
    ensures IsWord(Tag(k))
  {
    hide IsWord, Upper, Tag;
    if Normal(k) {
      UpperTag(k);
    } else {
      UpperOtherTag(k);
    }
    UpperIsWord(Tag(k));
  }

  lemma NormalBack(k: Kind)
    requires Normal(k)
    ensures KindOf(Tag(k)) == Some(k)
  {
  }

  predicate Reply(k: Kind) { k.KRegistered? || k.KExecuted? || k.KEvicted? || k.KQueried? }

  lemma ReplyBack(k: Kind)
    requires Reply(k)
    ensures KindOf(Tag(k)) == Some(k)
  {
  }

  lemma OtherBack(k: Kind)
    requires !Normal(k) && !Reply(k)
    ensures KindOf(Tag(k)) == Some(k)
  {
  }

  lemma KindBack(k: Kind)
    ensures KindOf(Tag(k)) == Some(k)
  {
    hide Tag, KindOf;
    if Normal(k) {
      NormalBack(k);
    } else if Reply(k) {
      ReplyBack(k);
    } else {
      OtherBack(k);
    }
  }

  lemma FrameIsWords(f: Frame)
    requires FrameOk(f)
    ensures AllWords(FrameWords(f))
  {
    hide Head, IsWord, Tag;
    TagIsWord(Head(f).0);
    NumsAreWords(Head(f).1);
    PayloadIsWords(f);
  }

  lemma DecodeEncode(f: Frame)
    requires FrameOk(f)
    ensures Decode(Encode(f)) == Some(f)
  {
    hide Head, FrameOf, AllWords, Tag, KindOf;
    FrameIsWords(f);
    WordsOfJoin(FrameWords(f));
    FrameBack(f);
    KindBack(Head(f).0);
    assert FrameWords(f)[1..] == Nums(Head(f).1) + Head(f).2;
  }

  lemma DecodeEncodeEntry(e: Entry)
    requires EntryOk(e)
    ensures DecodeEntry(EncodeEntry(e)) == Some(e)
  {
    EntryIsWords(e);
    WordsOfJoin(EntryWords(e));
    EntryBack(e, []);
    assert EntryWords(e) + [] == EntryWords(e);
  }

  // ---------------------------------------------------------------------------
  // What reads back could be written

  lemma {:induction false} NumbersLeave(ws: seq<string>, k: nat)
    requires AllWords(ws)
    ensures ParseNumbers(ws, k).Good? ==> AllWords(ParseNumbers(ws, k).rest)
  {
    if k > 0 && ParseNumber(ws).Good? {
      NumbersLeave(ParseNumber(ws).rest, k - 1);
    }
  }

  lemma EntryLeaves(ws: seq<string>)
    requires AllWords(ws)
    ensures ParseEntry(ws).Good? ==> EntryOk(ParseEntry(ws).value) && AllWords(ParseEntry(ws).rest)
  {
    if ws != [] {
      NumbersLeave(ws[1..], 4);
    }
  }

  /** A kind whose parser leaves words and gives values that satisfy `ok`. */
  ghost predicate Leaves<T(!new)>(parse: seq<string> -> Parsed<T>, ok: T -> bool) {
    forall ws {:trigger parse(ws)} :: AllWords(ws) && parse(ws).Good? ==> ok(parse(ws).value) && AllWords(parse(ws).rest)
  }

  lemma {:induction false} ManyLeave<T(!new)>(ws: seq<string>, k: nat, parse: seq<string> -> Parsed<T>, ok: T -> bool)
    requires AllWords(ws) && Leaves(parse, ok)
    ensures var p := ParseMany(ws, k, parse);
            p.Good? ==> AllWords(p.rest) && forall i {:trigger p.value[i]} :: 0 <= i < |p.value| ==> ok(p.value[i])
    decreases k
  {
    if k > 0 && parse(ws).Good? {
      ManyLeave(parse(ws).rest, k - 1, parse, ok);
    }
  }

  lemma ListLeaves<T(!new)>(ws: seq<string>, parse: seq<string> -> Parsed<T>, ok: T -> bool)
    requires AllWords(ws) && Leaves(parse, ok)
    ensures var p := ParseList(ws, parse);
            p.Good? ==> |p.value| < Limit && AllWords(p.rest) && forall i {:trigger p.value[i]} :: 0 <= i < |p.value| ==> ok(p.value[i])
  {
    if ParseNumber(ws).Good? {
      ManyLeave(ParseNumber(ws).rest, ParseNumber(ws).value, parse, ok);
    }
  }

  lemma EntriesLeave(ws: seq<string>)
    requires AllWords(ws)
    ensures ParseEntries(ws).Good? ==> EntriesOk(ParseEntries(ws).value) && AllWords(ParseEntries(ws).rest)
  {
    assert Leaves(ParseEntry, EntryOk) by {
      forall ws | AllWords(ws) && ParseEntry(ws).Good?
        ensures EntryOk(ParseEntry(ws).value) && AllWords(ParseEntry(ws).rest)
      {
        EntryLeaves(ws);
      }
    }
    ListLeaves(ws, ParseEntry, EntryOk);
  }

  lemma SegmentLeaves(ws: seq<string>)
    requires AllWords(ws)
    ensures ParseSegment(ws).Good? ==> EntriesOk(ParseSegment(ws).value.entries) && AllWords(ParseSegment(ws).rest)
  {
    hide ParseEntries;
    if ws != [] && ParseNumber(ws[1..]).Good? {
      EntriesLeave(ParseNumber(ws[1..]).rest);
    }
  }

  lemma ResultLeaves(ws: seq<string>)
    requires AllWords(ws)
    ensures ParseResult(ws).Good? ==> ResultOk(ParseResult(ws).value) && AllWords(ParseResult(ws).rest)
  {
    assert ws != [] ==> IsWord(ws[0]);
  }

  lemma RecordLeaves(ws: seq<string>, c: Number)
    requires AllWords(ws)
    ensures ParseRecord(ws, c).Good? ==> ClientOk(ParseRecord(ws, c).value) && AllWords(ParseRecord(ws, c).rest)
  {
    NumbersLeave(ws, 3);
    assert Leaves(ParseResult, ResultOk) by {
      forall ws | AllWords(ws) && ParseResult(ws).Good?
        ensures ResultOk(ParseResult(ws).value) && AllWords(ParseResult(ws).rest)
      {
        ResultLeaves(ws);
      }
    }
    if ParseNumbers(ws, 3).Good? {
      ListLeaves(ParseNumbers(ws, 3).rest, ParseResult, ResultOk);
    }
  }

  lemma ChunkLeaves(ws: seq<string>)
    requires AllWords(ws)
    ensures ParseChunk(ws).Good? ==> ChunkOk(ParseChunk(ws).value)
  {
    assert Leaves(ParseClient, ClientOk) by {
      forall ws | AllWords(ws) && ParseClient(ws).Good?
        ensures ClientOk(ParseClient(ws).value) && AllWords(ParseClient(ws).rest)
      {
        RecordLeaves(ParseNumber(ws).rest, ParseNumber(ws).value);
      }
    }
    assert Leaves(ParsePair, PairOk);
    hide ParseClient, ParsePair, Leaves;
    ListLeaves(ws, ParseClient, ClientOk);
    if ParseList(ws, ParseClient).Good? {
      ListLeaves(ParseList(ws, ParseClient).rest, ParsePair, PairOk);
    }
  }

  /** What may follow two, three or four numbers. */
  lemma PayloadLeaves(ws: seq<string>, k: nat)
    requires AllWords(ws)
    ensures var p := ParseNumbers(ws, k);
            p.Good? ==>
              && (ParsePut(p.rest).Good? ==> PutOk(ParsePut(p.rest).value))
              && (ParseWord(p.rest).Good? ==> IsWord(ParseWord(p.rest).value))
              && (ParseEntry(p.rest).Good? ==> EntryOk(ParseEntry(p.rest).value))
              && (ParseSegment(p.rest).Good? ==> EntriesOk(ParseSegment(p.rest).value.entries))
              && (ParseResult(p.rest).Good? ==> ResultOk(ParseResult(p.rest).value))
  {
    hide ParseNumbers, ParsePut, ParseEntry, ParseSegment, ParseResult, EntriesOk, ResultOk, EntryOk, PutOk, IsWord, AllWords;
    NumbersLeave(ws, k);
    if ParseNumbers(ws, k).Good? {
      var rest := ParseNumbers(ws, k).rest;
      PutLeaves(rest);
      FirstIsWord(rest);
      EntryLeaves(rest);
      SegmentLeaves(rest);
      ResultLeaves(rest);
    }
  }

  lemma TwoNumbersLeave(kind: Kind, ws: seq<string>)
    requires AllWords(ws) && (kind.KQuery? || kind.KStartView?)
    ensures FrameOf(kind, ws).Good? ==> FrameOk(FrameOf(kind, ws).value)
  {
    hide ParseNumbers, ParsePut, ParseWord, ParseEntry, ParseSegment, ParseResult, EntriesOk, EntryOk, PutOk, ResultOk, IsWord, AllWords,
      ChunkFrame, RecoveryFrame;
    PayloadLeaves(ws, 2);
  }

  lemma ThreeNumbersLeave(kind: Kind, ws: seq<string>)
    requires AllWords(ws) && (kind.KPrepare? || kind.KNewState? || kind.KQueried?)
    ensures FrameOf(kind, ws).Good? ==> FrameOk(FrameOf(kind, ws).value)
  {
    hide ParseNumbers, ParsePut, ParseWord, ParseEntry, ParseSegment, ParseResult, EntriesOk, EntryOk, PutOk, ResultOk, IsWord, AllWords,
      ChunkFrame, RecoveryFrame;
    PayloadLeaves(ws, 3);
  }

  lemma FourNumbersLeave(kind: Kind, ws: seq<string>)
    requires AllWords(ws) && (kind.KRequest? || kind.KDoViewChange? || kind.KExecuted?)
    ensures FrameOf(kind, ws).Good? ==> FrameOk(FrameOf(kind, ws).value)
  {
    hide ParseNumbers, ParsePut, ParseWord, ParseEntry, ParseSegment, ParseResult, EntriesOk, EntryOk, PutOk, ResultOk, IsWord, AllWords,
      ChunkFrame, RecoveryFrame;
    PayloadLeaves(ws, 4);
  }

  lemma FrameLeaves(kind: Kind, ws: seq<string>)
    requires AllWords(ws)
    ensures FrameOf(kind, ws).Good? ==> FrameOk(FrameOf(kind, ws).value)
  {
    hide AllWords, ChunkFrame, RecoveryFrame, ParseNumbers;
    if kind.KQuery? || kind.KStartView? {
      hide FrameOf, FrameOk;
      TwoNumbersLeave(kind, ws);
    } else if kind.KPrepare? || kind.KNewState? || kind.KQueried? {
      hide FrameOf, FrameOk;
      ThreeNumbersLeave(kind, ws);
    } else if kind.KRequest? || kind.KDoViewChange? || kind.KExecuted? {
      hide FrameOf, FrameOk;
      FourNumbersLeave(kind, ws);
    } else if kind.KNewChunk? {
      hide FrameOk;
      ChunkFrameLeaves(ws);
    } else if kind.KRecoveryResponse? {
      hide FrameOk;
      RecoveryFrameLeaves(ws);
    } else {
      hide ParsePut, ParseWord, ParseEntry, ParseSegment, ParseResult, EntriesOk, EntryOk, PutOk, ResultOk, IsWord;
    }
  }

  lemma ChunkFrameLeaves(ws: seq<string>)
    requires AllWords(ws)
    ensures ChunkFrame(ws).Good? ==> FrameOk(ChunkFrame(ws).value)
  {
    hide ParseNumbers, ParseChunk, ChunkOk, AllWords;
    NumbersLeave(ws, 3);
    if ParseNumbers(ws, 3).Good? && ParseFlag(ParseNumbers(ws, 3).rest).Good? {
      var rest := ParseNumbers(ws, 3).rest;
      FirstIsWord(rest);
      ChunkLeaves(rest[1..]);
    }
  }

  lemma RecoveryFrameLeaves(ws: seq<string>)
    requires AllWords(ws)
    ensures RecoveryFrame(ws).Good? ==> FrameOk(RecoveryFrame(ws).value)
  {
    hide ParseNumbers, ParseSegment, EntriesOk;
    NumbersLeave(ws, 3);
    if ParseNumbers(ws, 3).Good? && ParseNumbers(ws, 3).rest != [] {
      var rest := ParseNumbers(ws, 3).rest[1..];
      if ParseNumber(rest).Good? {
        SegmentLeaves(ParseNumber(rest).rest);
      }
    }
  }

  lemma FirstIsWord(ws: seq<string>)
    requires AllWords(ws)
    ensures ws != [] ==> IsWord(ws[0]) && AllWords(ws[1..])
  {
  }

  lemma PutLeaves(ws: seq<string>)
    requires AllWords(ws)
    ensures ParsePut(ws).Good? ==> PutOk(ParsePut(ws).value)
  {
    assert |ws| >= 3 ==> IsWord(ws[1]) && IsWord(ws[2]);
  }

  /** Exactly the frames whose strings are single words, and whose lists are within the limit, decode to
      themselves. */
  lemma DecodeEncodeIff(f: Frame)
    ensures FrameOk(f) <==> Decode(Encode(f)) == Some(f)
  {
    hide FrameOf, FrameOk, Head, KindOf;
    if FrameOk(f) {
      DecodeEncode(f);
    }
    var ws := Words(Encode(f));
    WordsAreWords(Encode(f));
    if ws != [] && KindOf(ws[0]).Some? {
      FrameLeaves(KindOf(ws[0]).value, ws[1..]);
    }
  }

  lemma DecodeEncodeEntryIff(e: Entry)
    ensures EntryOk(e) <==> DecodeEntry(EncodeEntry(e)) == Some(e)
  {
    if EntryOk(e) {
      DecodeEncodeEntry(e);
    }
    WordsAreWords(EncodeEntry(e));
    EntryLeaves(Words(EncodeEntry(e)));
  }
}
