/**
 The tables of the deduplicating session log and the single statements run on them
 (proxy/internal/logger/compact.go:85-129, 274-464).
 */
module CompactStore {
  import opened Text
  import opened Sorting

  // ---- Hashes in hexadecimal ----

  const HEX_DIGITS := "0123456789abcdef"

  /** Every element is one byte. */
  ghost predicate IsBytes(b: Bytes) {
    forall i | 0 <= i < |b| :: b[i] < 256 as char
  }

  /** `hashHex`. */
  function HashHex(hash: Bytes): string
    requires IsBytes(hash)
  {
    if hash == "" then ""
    else [HEX_DIGITS[hash[0] as int / 16], HEX_DIGITS[hash[0] as int % 16]] + HashHex(hash[1..])
  }

  function HexValue(c: char): Option<nat> {
    if '0' <= c <= '9' then Some(c as int - '0' as int)
    else if 'a' <= c <= 'f' then Some(c as int - 'a' as int + 10)
    else if 'A' <= c <= 'F' then Some(c as int - 'A' as int + 10)
    else None
  }

  /** `hexHash`: the bytes decoded before the first malformed pair. */
  function HexHash(hex: string): Bytes {
    if |hex| < 2 || HexValue(hex[0]).None? || HexValue(hex[1]).None? then ""
    else [(16 * HexValue(hex[0]).value + HexValue(hex[1]).value) as char] + HexHash(hex[2..])
  }

  /** A hash survives its hexadecimal form. */
  lemma {:induction false} HexRoundTrip(hash: Bytes)
    requires IsBytes(hash)
    ensures HexHash(HashHex(hash)) == hash
  {
    HexDecodesBeginning(hash, "");
    assert HashHex(hash) + "" == HashHex(hash);
  }

  /** `c` is a hexadecimal digit, of either case, for `n`. */
  ghost predicate IsDigit(c: char, n: int) {
    0 <= n < 16 && (c == "0123456789abcdef"[n] || c == "0123456789ABCDEF"[n])
  }

  ghost predicate IsPair(hex: string) {
    |hex| >= 2 && (exists m :: IsDigit(hex[0], m)) && exists n :: IsDigit(hex[1], n)
  }

  lemma {:induction false} DigitsOfBothCases(c: char)
    ensures HexValue(c).Some? ==> IsDigit(c, HexValue(c).value)
    ensures forall n :: IsDigit(c, n) ==> HexValue(c) == Some(n)
  {
  }

  lemma {:induction false} LowerCaseDigit(n: nat)
    requires n < 16
    ensures IsDigit(HEX_DIGITS[n], n)
  {
  }

  /** One pair of digits is one byte, in lower and upper case. */
  lemma {:induction false} HexPair(a: char, m: int, b: char, n: int, rest: string)
    requires IsDigit(a, m) && IsDigit(b, n)
    ensures HexHash([a, b] + rest) == [(16 * m + n) as char] + HexHash(rest)
  {
    DigitsOfBothCases(a);
    DigitsOfBothCases(b);
    assert ([a, b] + rest)[2..] == rest;
  }

  lemma {:induction false} HexStops(rest: string)
    requires !IsPair(rest)
    ensures HexHash(rest) == ""
  {
    if |rest| >= 2 {
      DigitsOfBothCases(rest[0]);
      DigitsOfBothCases(rest[1]);
    }
  }

  /** Decoding stops at the first malformed pair; what was decoded before it is kept. */
  lemma {:induction false} HexDecodesBeginning(hash: Bytes, rest: string)
    requires IsBytes(hash) && !IsPair(rest)
    ensures HexHash(HashHex(hash) + rest) == hash
  {
    if hash == "" {
      assert "" + rest == rest;
      HexStops(rest);
    } else {
      var n, tail := hash[0] as int, HashHex(hash[1..]);
      HexDecodesBeginning(hash[1..], rest);
      LowerCaseDigit(n / 16);
      LowerCaseDigit(n % 16);
      HexPair(HEX_DIGITS[n / 16], n / 16, HEX_DIGITS[n % 16], n % 16, tail + rest);
      Assoc([HEX_DIGITS[n / 16], HEX_DIGITS[n % 16]], tail, rest);
      assert 16 * (n / 16) + n % 16 == n;
    }
  }

  // ---- Hashing and compression ----

  /** SHA-256 and zstd. `None` is a decoding error. */
  datatype Library = Library(hash: Bytes -> Bytes, encode: Bytes -> Bytes, decode: Bytes -> Option<Bytes>)

  function Compress(lib: Library, data: Bytes): Bytes {
    var out := lib.encode(data);
    if |out| >= |data| then data else out
  }

  /** What is stored is never longer than the data, and is the compressed form where that is shorter. */
  lemma {:induction false} StoresTheShorter(lib: Library, data: Bytes)
    ensures |Compress(lib, data)| <= |data| && |Compress(lib, data)| <= |lib.encode(data)|
    ensures Compress(lib, data) == data || Compress(lib, data) == lib.encode(data)
  {
  }

  function Decompress(lib: Library, data: Bytes): Bytes {
    match lib.decode(data)
    case Some(out) => out
    case None => data
  }

  /**
   Stored data is read back unchanged if and only if compression shortened it, or it is not itself
   the compressed form of something else.
   */
  lemma {:induction false} ReadsBack(lib: Library, data: Bytes)
    requires lib.decode(lib.encode(data)) == Some(data)
    ensures Decompress(lib, Compress(lib, data)) == data <==>
              |lib.encode(data)| < |data| || lib.decode(data).None? || lib.decode(data) == Some(data)
  {
  }

  /** The data starts like a frame or a skippable frame (sections 3.1.1 and 3.1.2 of RFC 8878). */
  predicate StartsFrame(data: Bytes) {
    && |data| >= 4
    && var m := [data[0] as int, data[1] as int, data[2] as int, data[3] as int];
       m == [0x28, 0xB5, 0x2F, 0xFD] || (0x50 <= m[0] <= 0x5F && m[1..] == [0x2A, 0x4D, 0x18])
  }

  /** The data starts like a JSON value (sections 2 and 3 of RFC 8259); a list is not opened by `[*`. */
  predicate StartsJson(data: Bytes) {
    data != "" && (data[0] in "{\"-0123456789tfn \t\r\n" || (data[0] == '[' && |data| > 1 && data[1] != '*'))
  }

  /** Only frames decompress, and what was compressed does. */
  ghost predicate IsZstd(lib: Library) {
    && (forall d :: lib.decode(d).Some? && d != "" ==> StartsFrame(d))
    && forall d :: lib.decode(lib.encode(d)) == Some(d)
  }

  /** All that is stored is JSON, and JSON always reads back, whether or not compression shortened it. */
  lemma {:induction false} JsonReadsBack(lib: Library, data: Bytes)
    requires IsZstd(lib) && StartsJson(data)
    ensures Decompress(lib, Compress(lib, data)) == data
  {
    ReadsBack(lib, data);
    if StartsFrame(data) {
      assert data[0] == '[' && data[1] == 0x2A as char;
    }
  }

  // ---- Tables ----

  datatype Row = Row(body: Bytes, createdAt: int)

  datatype Session = Session(format: string, model: string, tokenCount: int, toolsHash: Option<Bytes>)

  /** A row of `session_messages`; its key is (session, sequence). */
  datatype Link = Link(hash: Bytes, durationMs: int)

  datatype Db = Db(messages: map<Bytes, Row>, tools: map<Bytes, Row>,
                   sessions: map<string, Session>, links: map<(string, int), Link>)

  /** `INSERT OR IGNORE` into a table keyed by hash. */
  function InsertOrIgnore(table: map<Bytes, Row>, hash: Bytes, row: Row): map<Bytes, Row> {
    if hash in table then table else table[hash := row]
  }

  /** Inserting a session; `None` when a constraint is violated. */
  function InsertSession(db: Db, id: string, s: Session): Option<Db> {
    if id in db.sessions || (s.toolsHash.Some? && s.toolsHash.value !in db.tools) then None
    else Some(db.(sessions := db.sessions[id := s]))
  }

  /** Inserting a session's next message; `None` when a constraint is violated. */
  function InsertLink(db: Db, session: string, sequence: int, link: Link): Option<Db> {
    if (session, sequence) in db.links || session !in db.sessions || link.hash !in db.messages then None
    else Some(db.(links := db.links[(session, sequence) := link]))
  }

  /** The tools stored under a hash. */
  function ToolsAt(lib: Library, tools: map<Bytes, Row>, hex: string): Option<Bytes> {
    if HexHash(hex) in tools then Some(Decompress(lib, tools[HexHash(hex)].body)) else None
  }

  /** Tools are found again under the hash that storing them returns, new or stored before, compressed or not. */
  lemma {:induction false} ToolsComeBack(lib: Library, tools: map<Bytes, Row>, body: Bytes, now: int)
    requires IsBytes(lib.hash(body)) && Decompress(lib, Compress(lib, body)) == body
    requires lib.hash(body) in tools ==> Decompress(lib, tools[lib.hash(body)].body) == body
    ensures var after := InsertOrIgnore(tools, lib.hash(body), Row(Compress(lib, body), now));
            ToolsAt(lib, after, HashHex(lib.hash(body))) == Some(body)
  {
    HexRoundTrip(lib.hash(body));
  }

  /** A new session has no messages, its tools exist, and other sessions keep theirs. */
  lemma {:induction false} NewSessionIsEmpty(db: Db, id: string, s: Session)
    requires (forall k :: k in db.links ==> k.0 in db.sessions) && InsertSession(db, id, s).Some?
    ensures var next := InsertSession(db, id, s).value;
            && id !in db.sessions && Sequences(next, id) == {} && (s.toolsHash.Some? ==> s.toolsHash.value in next.tools)
            && forall other :: Sequences(next, other) == Sequences(db, other)
  {
    var next := InsertSession(db, id, s).value;
    forall n: int ensures (id, n) !in next.links {
      assert (id, n) in db.links ==> (id, n).0 in db.sessions;
    }
    assert forall n :: n !in Sequences(next, id);
    forall other ensures Sequences(next, other) == Sequences(db, other) {
      assert forall n :: n in Sequences(next, other) <==> n in Sequences(db, other);
    }
  }

  function Sequences(db: Db, session: string): (s: set<int>)
    ensures forall n: int :: n in s <==> (session, n) in db.links
  {
    set k | k in db.links.Keys && k.0 == session :: k.1
  }

  /** `COALESCE(MAX(sequence), 0)`. */
  ghost predicate IsMaxSequence(db: Db, session: string, max: int) {
    if Sequences(db, session) == {} then max == 0
    else max in Sequences(db, session) && forall n | n in Sequences(db, session) :: n <= max
  }

  datatype Entry = Entry(sequence: int, messageHash: string, body: Bytes, createdAt: int, durationMs: int)

  /** The session's rows joined with their messages, for the given sequence numbers. */
  ghost function Entries(lib: Library, db: Db, session: string, sequences: seq<int>): seq<Entry>
    requires forall k | 0 <= k < |sequences| :: (session, sequences[k]) in db.links
    requires forall h | h in db.messages :: IsBytes(h)
  {
    if sequences == [] then []
    else
      var n := sequences[|sequences| - 1];
      var link := db.links[(session, n)];
      Entries(lib, db, session, sequences[..|sequences| - 1])
      + if link.hash in db.messages then [EntryOf(lib, db, n, link)] else []
  }

  function EntryOf(lib: Library, db: Db, n: int, link: Link): Entry
    requires link.hash in db.messages && IsBytes(link.hash)
  {
    var row := db.messages[link.hash];
    Entry(n, HashHex(link.hash), Decompress(lib, row.body), row.createdAt, link.durationMs)
  }

  lemma {:induction false} RowsExist(db: Db, session: string)
    ensures var q := Ascending(Sequences(db, session)); forall k | 0 <= k < |q| :: (session, q[k]) in db.links
  {
    var q := Ascending(Sequences(db, session));
    forall k | 0 <= k < |q| ensures (session, q[k]) in db.links {
      assert q[k] in q;
    }
  }

  /** Two writers of one session that read the same maximum cannot both insert. */
  lemma {:induction false} SecondWriterFails(db: Db, session: string, max: int, first: Link, second: Link)
    requires IsMaxSequence(db, session, max)
    requires InsertLink(db, session, max + 1, first).Some?
    ensures InsertLink(InsertLink(db, session, max + 1, first).value, session, max + 1, second).None?
  {
  }

  // ---- The logger ----

  class CompactLogger {
    const lib: Library
    var db: Db

    /** The database file may hold what earlier runs have stored. */
    constructor (lib: Library, db: Db)
      ensures this.db == db && this.lib == lib
    {
      this.lib, this.db := lib, db;
    }

    /** Stores a message body once and returns its hash. */
    method StoreMessage(body: Bytes, now: int) returns (hex: string)
      requires IsBytes(lib.hash(body))
      modifies this
      ensures hex == HashHex(lib.hash(body))
      ensures db == old(db).(messages := InsertOrIgnore(old(db).messages, lib.hash(body), Row(Compress(lib, body), now)))
    {
      var bh := lib.hash(body);
      var compressed := Compress(lib, body);
      if bh !in db.messages {
        db := db.(messages := db.messages[bh := Row(compressed, now)]);
      }
      return HashHex(bh);
    }

    method StoreTools(body: Bytes, now: int) returns (hex: string)
      requires IsBytes(lib.hash(body))
      modifies this
      ensures hex == HashHex(lib.hash(body))
      ensures db == old(db).(tools := InsertOrIgnore(old(db).tools, lib.hash(body), Row(Compress(lib, body), now)))
    {
      var th := lib.hash(body);
      var compressed := Compress(lib, body);
      if th !in db.tools {
        db := db.(tools := db.tools[th := Row(compressed, now)]);
      }
      return HashHex(th);
    }

    /** `id` is the random session id. */
    method StartSession(id: string, toolsHash: string, format: string, model: string, tokenCount: int) returns (ok: bool)
      modifies this
      ensures var s := Session(format, model, tokenCount, if toolsHash != "" then Some(HexHash(toolsHash)) else None);
              var r := InsertSession(old(db), id, s);
              ok == r.Some? && db == if r.Some? then r.value else old(db)
    {
      var toolsBlob: Option<Bytes> := None;
      if toolsHash != "" {
        toolsBlob := Some(HexHash(toolsHash));
      }
      var r := InsertSession(db, id, Session(format, model, tokenCount, toolsBlob));
      if r.Some? {
        db := r.value;
      }
      return r.Some?;
    }

    /** The first of the two statements of `AddMessageToSession`. */
    method QueryMaxSequence(session: string) returns (max: int)
      ensures IsMaxSequence(db, session, max)
    {
      var left := Sequences(db, session);
      if left == {} {
        return 0;
      }
      max := AnyOf(left);
      left := left - {max};
      while left != {}
        invariant left <= Sequences(db, session) && max in Sequences(db, session)
        invariant forall n | n in Sequences(db, session) && n !in left :: n <= max
        decreases left
      {
        var n := AnyOf(left);
        left := left - {n};
        if max < n {
          max := n;
        }
      }
    }

    method AddMessageToSession(session: string, messageHash: string, durationMs: int) returns (ok: bool)
      modifies this
      ensures exists max :: IsMaxSequence(old(db), session, max) &&
                var r := InsertLink(old(db), session, max + 1, Link(HexHash(messageHash), durationMs));
                ok == r.Some? && db == if r.Some? then r.value else old(db)
    {
      var bh := HexHash(messageHash);
      var seqNo := QueryMaxSequence(session);
      var r := InsertLink(db, session, seqNo + 1, Link(bh, durationMs));
      if r.Some? {
        db := r.value;
      }
      return r.Some?;
    }

    /** The session and its messages in sequence order; `None` for an unknown session. */
    method GetSession(id: string) returns (r: Option<(Session, seq<Entry>)>)
      requires forall h | h in db.messages :: IsBytes(h)
      ensures r == if id !in db.sessions then None
                   else Some((db.sessions[id], SessionEntries(lib, db, id)))
    {
      if id !in db.sessions {
        return None;
      }
      var rows := SortedSequences(id);
      RowsExist(db, id);
      var msgs := ReadRows(id, rows);
      return Some((db.sessions[id], msgs));
    }

    /** The loop over the joined rows. */
    method ReadRows(id: string, rows: seq<int>) returns (msgs: seq<Entry>)
      requires forall k | 0 <= k < |rows| :: (id, rows[k]) in db.links
      requires forall h | h in db.messages :: IsBytes(h)
      ensures msgs == Entries(lib, db, id, rows)
    {
      msgs := [];
      for k := 0 to |rows|
        invariant msgs == Entries(lib, db, id, rows[..k])
      {
        assert rows[..k + 1][..k] == rows[..k];
        var link := db.links[(id, rows[k])];
        if link.hash in db.messages {
          msgs := msgs + [EntryOf(lib, db, rows[k], link)];
        }
      }
      assert rows[..|rows|] == rows;
    }

    /** `ORDER BY sequence`. */
    method SortedSequences(session: string) returns (rows: seq<int>)
      ensures rows == Ascending(Sequences(db, session))
    {
      rows := [];
      var left := Sequences(db, session);
      while left != {}
        invariant left <= Sequences(db, session)
        invariant forall n :: n in rows <==> n in Sequences(db, session) && n !in left
        invariant |rows| + |left| == |Sequences(db, session)|
        decreases left
      {
        var n := AnyOf(left);
        rows := rows + [n];
        left := left - {n};
      }
      SortedEnumeration(rows, Sequences(db, session));
      rows := SortInts(rows);
    }

    method GetTools(hex: string) returns (r: Option<Bytes>)
      ensures r == ToolsAt(lib, db.tools, hex)
    {
      var bh := HexHash(hex);
      if bh !in db.tools {
        return None;
      }
      return Some(Decompress(lib, db.tools[bh].body));
    }
  }

  /** What `GetSession` lists for a session. */
  ghost function SessionEntries(lib: Library, db: Db, session: string): seq<Entry>
    requires forall h | h in db.messages :: IsBytes(h)
  {
    RowsExist(db, session);
    Entries(lib, db, session, Ascending(Sequences(db, session)))
  }
}
