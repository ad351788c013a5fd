/**
 Concurrent requests on the session log (proxy/internal/proxy/handlers.go:186-235 calling
 proxy/internal/logger/compact.go:274-405). Each request issues its database calls one at a time, in
 any interleaving with the calls of other requests; reading the maximal sequence number and inserting
 the next row are two separate calls.
 */
module CompactLog {
  import opened Text
  import opened Sorting
  import opened CompactStore

  // ---- Requests ----

  datatype Message = Message(body: Bytes, durationMs: int)

  /** What a request does next. `next` counts the messages already in its session. */
  datatype Phase =
    | Idle                                          // store the tools, if any
    | Tooled(toolsHash: string)                     // start the session
    | Storing(next: nat)                            // store the next message, if any
    | Reading(next: nat, hex: string)               // read the maximal sequence number
    | Inserting(next: nat, hex: string, max: int)   // insert the session row

  datatype Request = Request(tools: Option<Bytes>, plan: seq<Message>, session: string, phase: Phase)

  datatype World = World(db: Db, requests: seq<Request>)

  /** Request `i` makes its next database call; `id` is the random id should it start its session. */
  datatype Action = Action(i: nat, id: string, now: int)

  predicate Started(r: Request) {
    !r.phase.Idle? && !r.phase.Tooled?
  }

  /** How many of the request's messages have been stored. */
  function Stored(r: Request): nat {
    match r.phase
    case Storing(n) => n
    case Reading(n, _) => n + 1
    case Inserting(n, _, _) => n + 1
    case _ => 0
  }

  /** How many of them have their row in the session. */
  function Linked(r: Request): nat {
    if Started(r) then r.phase.next else 0
  }

  ghost function MaxSequence(db: Db, session: string): (max: int)
    ensures IsMaxSequence(db, session, max)
  {
    var q := Ascending(Sequences(db, session));
    if q == [] then 0
    else
      assert forall n | n in Sequences(db, session) :: n in q;
      assert q[|q| - 1] in q;
      q[|q| - 1]
  }

  /** One database call of a request. */
  ghost function Call(lib: Library, db: Db, r: Request, id: string, now: int): (Db, Request)
    requires forall b: Bytes :: IsBytes(lib.hash(b))
  {
    match r.phase
    case Idle =>
      if r.tools.None? then (db, r.(phase := Tooled("")))
      else
        var h := lib.hash(r.tools.value);
        (db.(tools := InsertOrIgnore(db.tools, h, Row(Compress(lib, r.tools.value), now))), r.(phase := Tooled(HashHex(h))))
    case Tooled(hex) =>
      var s := Session("", "", 0, if hex != "" then Some(HexHash(hex)) else None);
      (match InsertSession(db, id, s)
       case Some(db') => (db', r.(session := id, phase := Storing(0)))
       case None => (db, r))
    case Storing(n) =>
      if n >= |r.plan| then (db, r)
      else
        var body := r.plan[n].body;
        var h := lib.hash(body);
        (db.(messages := InsertOrIgnore(db.messages, h, Row(Compress(lib, body), now))), r.(phase := Reading(n, HashHex(h))))
    case Reading(n, hex) =>
      (db, r.(phase := Inserting(n, hex, MaxSequence(db, r.session))))
    case Inserting(n, hex, max) =>
      if n >= |r.plan| then (db, r)
      else
        (match InsertLink(db, r.session, max + 1, Link(HexHash(hex), r.plan[n].durationMs))
         case Some(db') => (db', r.(phase := Storing(n + 1)))
         case None => (db, r.(phase := Storing(n + 1))))
  }

  ghost function Step(lib: Library, w: World, a: Action): World
    requires forall b: Bytes :: IsBytes(lib.hash(b))
  {
    if a.i >= |w.requests| then w
    else
      var (db, r) := Call(lib, w.db, w.requests[a.i], a.id, a.now);
      World(db, w.requests[a.i := r])
  }

  ghost function Run(lib: Library, w: World, actions: seq<Action>): World
    requires forall b: Bytes :: IsBytes(lib.hash(b))
  {
    if actions == [] then w
    else Step(lib, Run(lib, w, actions[..|actions| - 1]), actions[|actions| - 1])
  }

  // ---- The invariant ----

  /** Hashing and compression work on all bodies that are stored. */
  ghost predicate Faithful(lib: Library, bodies: set<Bytes>) {
    && (forall b: Bytes :: IsBytes(lib.hash(b)) && lib.hash(b) != "")
    && (forall a, b :: a in bodies && b in bodies && lib.hash(a) == lib.hash(b) ==> a == b)
    && (forall b :: b in bodies ==> Decompress(lib, Compress(lib, b)) == b)
  }

  /** The row of a body is in the table and holds that body, compressed or not. */
  ghost predicate HasBody(lib: Library, db: Db, body: Bytes) {
    lib.hash(body) in db.messages && Decompress(lib, db.messages[lib.hash(body)].body) == body
  }

  /** The tools, if there are any, are in the table, compressed or not. */
  ghost predicate HasTools(lib: Library, db: Db, tools: Option<Bytes>) {
    tools.Some? ==>
      var h := lib.hash(tools.value); h in db.tools && Decompress(lib, db.tools[h].body) == tools.value
  }

  function HashOf(lib: Library, tools: Option<Bytes>): Option<Bytes> {
    if tools.Some? then Some(lib.hash(tools.value)) else None
  }

  /** The session of `r` names its tools and holds exactly its first messages, numbered from 1. */
  ghost predicate SessionOk(lib: Library, db: Db, r: Request) {
    && r.session in db.sessions && db.sessions[r.session].toolsHash == HashOf(lib, r.tools) && Linked(r) <= |r.plan|
    && (forall n: int :: (r.session, n) in db.links <==> 1 <= n <= Linked(r))
    && (forall n: int | 1 <= n <= Linked(r) ::
          db.links[(r.session, n)] == Link(lib.hash(r.plan[n - 1].body), r.plan[n - 1].durationMs))
  }

  ghost predicate PhaseOk(lib: Library, db: Db, r: Request) {
    match r.phase
    case Idle => true
    case Tooled(hex) => (if hex != "" then Some(HexHash(hex)) else None) == HashOf(lib, r.tools)
    case Storing(_) => true
    case Reading(n, hex) => n < |r.plan| && HexHash(hex) == lib.hash(r.plan[n].body)
    case Inserting(n, hex, max) => n < |r.plan| && HexHash(hex) == lib.hash(r.plan[n].body) && max == n
  }

  ghost predicate RequestOk(lib: Library, bodies: set<Bytes>, db: Db, r: Request) {
    && Stored(r) <= |r.plan| && Linked(r) <= Stored(r)
    && (forall n | 0 <= n < |r.plan| :: r.plan[n].body in bodies) && (r.tools.Some? ==> r.tools.value in bodies)
    && (!r.phase.Idle? ==> HasTools(lib, db, r.tools))
    && (forall n | 0 <= n < Stored(r) :: HasBody(lib, db, r.plan[n].body))
    && (Started(r) ==> SessionOk(lib, db, r))
    && PhaseOk(lib, db, r)
  }

  /** `h` is the hash of a body that some request has stored. */
  ghost predicate StoredHash(lib: Library, requests: seq<Request>, h: Bytes) {
    exists i, n :: 0 <= i < |requests| && 0 <= n < Stored(requests[i]) <= |requests[i].plan| && h == lib.hash(requests[i].plan[n].body)
  }

  /** The row under `h` holds one of the bodies, compressed or not. */
  ghost predicate RowOk(lib: Library, bodies: set<Bytes>, db: Db, h: Bytes)
    requires h in db.messages
  {
    exists b :: b in bodies && h == lib.hash(b) && Decompress(lib, db.messages[h].body) == b
  }

  /** So does the row of the tools. */
  ghost predicate ToolsOk(lib: Library, bodies: set<Bytes>, db: Db, h: Bytes)
    requires h in db.tools
  {
    exists b :: b in bodies && h == lib.hash(b) && Decompress(lib, db.tools[h].body) == b
  }

  /** A database as the logger finds it: references are kept and message rows hold their bodies. */
  ghost predicate Sound(lib: Library, bodies: set<Bytes>, db: Db) {
    && (forall k :: k in db.links ==> k.0 in db.sessions && db.links[k].hash in db.messages)
    && (forall h :: h in db.messages ==> RowOk(lib, bodies, db, h))
    && (forall h :: h in db.tools ==> ToolsOk(lib, bodies, db, h))
  }

  ghost predicate Inv(lib: Library, bodies: set<Bytes>, start: Db, w: World) {
    && (forall i | 0 <= i < |w.requests| :: RequestOk(lib, bodies, w.db, w.requests[i]))
    && (forall i, j | 0 <= i < j < |w.requests| && Started(w.requests[i]) && Started(w.requests[j]) ::
          w.requests[i].session != w.requests[j].session)
    && (forall k :: k in w.db.links ==> k.0 in w.db.sessions)
    && (forall h :: h in w.db.messages ==> h in start.messages || StoredHash(lib, w.requests, h))
    && (forall h :: h in w.db.messages ==> RowOk(lib, bodies, w.db, h))
    && (forall h :: h in w.db.tools ==> ToolsOk(lib, bodies, w.db, h))
  }

  /** Nothing that was in the database at the start has changed, and all sessions of the requests are new. */
  ghost predicate Preserves(start: Db, db: Db) {
    && (forall h :: h in start.messages ==> h in db.messages && db.messages[h] == start.messages[h])
    && start.sessions.Keys <= db.sessions.Keys
    && (forall k: (string, int) :: k.0 in start.sessions ==> (k in start.links <==> k in db.links))
    && (forall k: (string, int) :: k.0 in start.sessions && k in start.links ==> db.links[k] == start.links[k])
  }

  ghost predicate Apart(start: Db, w: World) {
    Preserves(start, w.db) && forall i | 0 <= i < |w.requests| && Started(w.requests[i]) :: w.requests[i].session !in start.sessions
  }

  /** From `db` to `next` nothing was lost, and session `s` was not touched. */
  ghost predicate Extends(db: Db, next: Db, s: string) {
    && (forall h :: h in db.messages ==> h in next.messages && next.messages[h] == db.messages[h])
    && (forall h :: h in db.tools ==> h in next.tools && next.tools[h] == db.tools[h])
    && (forall id :: id in db.sessions ==> id in next.sessions && next.sessions[id] == db.sessions[id])
    && (forall n: int :: (s, n) in db.links <==> (s, n) in next.links)
    && (forall n: int :: (s, n) in db.links ==> next.links[(s, n)] == db.links[(s, n)])
  }

  lemma {:induction false} OthersStayOk(lib: Library, bodies: set<Bytes>, db: Db, next: Db, r: Request)
    requires RequestOk(lib, bodies, db, r) && Extends(db, next, r.session)
    ensures RequestOk(lib, bodies, next, r)
  {
  }

  // ---- Each call keeps the request's own part ----

  lemma {:induction false} IdleOk(lib: Library, bodies: set<Bytes>, db: Db, r: Request, id: string, now: int)
    requires Faithful(lib, bodies) && RequestOk(lib, bodies, db, r) && r.phase.Idle?
    requires forall h :: h in db.tools ==> ToolsOk(lib, bodies, db, h)
    ensures var (next, r') := Call(lib, db, r, id, now); RequestOk(lib, bodies, next, r')
  {
    if r.tools.Some? {
      var h := lib.hash(r.tools.value);
      HexRoundTrip(h);
      if h in db.tools {
        assert ToolsOk(lib, bodies, db, h);
      }
    }
  }

  lemma {:induction false} TooledOk(lib: Library, bodies: set<Bytes>, db: Db, r: Request, id: string, now: int)
    requires Faithful(lib, bodies) && RequestOk(lib, bodies, db, r) && r.phase.Tooled?
    requires forall k :: k in db.links ==> k.0 in db.sessions
    ensures var (next, r') := Call(lib, db, r, id, now); RequestOk(lib, bodies, next, r')
  {
    if id !in db.sessions {
      forall n: int ensures (id, n) !in db.links {
        assert (id, n) in db.links ==> (id, n).0 in db.sessions;
      }
    }
  }

  /** A hash that is already in the table belongs to the same body. */
  lemma {:induction false} SameBody(lib: Library, bodies: set<Bytes>, db: Db, body: Bytes)
    requires Faithful(lib, bodies) && body in bodies && lib.hash(body) in db.messages
    requires RowOk(lib, bodies, db, lib.hash(body))
    ensures HasBody(lib, db, body)
  {
  }

  /** Storing a body that no row contradicts. */
  lemma {:induction false} StoringOk(lib: Library, bodies: set<Bytes>, db: Db, r: Request, id: string, now: int)
    requires Faithful(lib, bodies) && RequestOk(lib, bodies, db, r) && r.phase.Storing? && r.phase.next < |r.plan|
    requires var body := r.plan[r.phase.next].body; lib.hash(body) in db.messages ==> HasBody(lib, db, body)
    ensures var (next, r') := Call(lib, db, r, id, now); RequestOk(lib, bodies, next, r')
  {
    var n := r.phase.next;
    var body := r.plan[n].body;
    HexRoundTrip(lib.hash(body));
    var (next, r') := Call(lib, db, r, id, now);
    StoringKeepsBodies(lib, bodies, db, next, r);
    StoringKeepsSession(lib, db, next, r, r');
    StoringAddsOne(lib, next, r, r');
  }

  lemma {:induction false} StoringKeepsBodies(lib: Library, bodies: set<Bytes>, db: Db, next: Db, r: Request)
    requires RequestOk(lib, bodies, db, r)
    requires forall h :: h in db.messages ==> h in next.messages && next.messages[h] == db.messages[h]
    ensures forall m | 0 <= m < Stored(r) :: HasBody(lib, next, r.plan[m].body)
  {
    forall m | 0 <= m < Stored(r) ensures HasBody(lib, next, r.plan[m].body) {
      assert HasBody(lib, db, r.plan[m].body);
    }
  }

  lemma {:induction false} StoringAddsOne(lib: Library, next: Db, r: Request, r': Request)
    requires r.phase.Storing? && r.phase.next < |r.plan| && r'.plan == r.plan && Stored(r') == Stored(r) + 1
    requires HasBody(lib, next, r.plan[r.phase.next].body)
    requires forall m | 0 <= m < Stored(r) :: HasBody(lib, next, r.plan[m].body)
    ensures forall m | 0 <= m < Stored(r') :: HasBody(lib, next, r'.plan[m].body)
  {
  }

  lemma {:induction false} StoringKeepsSession(lib: Library, db: Db, next: Db, r: Request, r': Request)
    requires SessionOk(lib, db, r) && next.sessions == db.sessions && next.links == db.links
    requires r'.plan == r.plan && r'.tools == r.tools && r'.session == r.session && Linked(r') == Linked(r)
    ensures SessionOk(lib, next, r')
  {
  }

  /** In a session numbered 1..n the maximum is n. */
  lemma {:induction false} MaxIsCount(lib: Library, db: Db, r: Request)
    requires SessionOk(lib, db, r)
    ensures MaxSequence(db, r.session) == Linked(r)
  {
    var s := Sequences(db, r.session);
    forall n: int ensures n in s <==> 1 <= n <= Linked(r) {
      assert n in s <==> (r.session, n) in db.links;
    }
    if Linked(r) > 0 {
      assert Linked(r) in s;
    }
  }

  lemma {:induction false} ReadingOk(lib: Library, bodies: set<Bytes>, db: Db, r: Request, id: string, now: int)
    requires Faithful(lib, bodies) && RequestOk(lib, bodies, db, r) && r.phase.Reading?
    ensures var (next, r') := Call(lib, db, r, id, now); RequestOk(lib, bodies, next, r')
  {
    MaxIsCount(lib, db, r);
  }

  lemma {:induction false} InsertingOk(lib: Library, bodies: set<Bytes>, db: Db, r: Request, id: string, now: int)
    requires Faithful(lib, bodies) && RequestOk(lib, bodies, db, r) && r.phase.Inserting?
    ensures var (next, r') := Call(lib, db, r, id, now); RequestOk(lib, bodies, next, r')
  {
    var n := r.phase.next;
    assert HasBody(lib, db, r.plan[n].body);
    assert (r.session, n + 1) !in db.links;
  }

  // ---- Every call keeps the invariant ----

  lemma {:induction false} CallOk(lib: Library, bodies: set<Bytes>, start: Db, w: World, r: Request, id: string, now: int)
    requires Faithful(lib, bodies) && Inv(lib, bodies, start, w) && RequestOk(lib, bodies, w.db, r)
    ensures var (next, r') := Call(lib, w.db, r, id, now); RequestOk(lib, bodies, next, r')
  {
    match r.phase
    case Idle => IdleOk(lib, bodies, w.db, r, id, now);
    case Tooled(_) => TooledOk(lib, bodies, w.db, r, id, now);
    case Storing(n) =>
      if n < |r.plan| {
        if lib.hash(r.plan[n].body) in w.db.messages {
          SameBody(lib, bodies, w.db, r.plan[n].body);
        }
        StoringOk(lib, bodies, w.db, r, id, now);
      }
    case Reading(_, _) => ReadingOk(lib, bodies, w.db, r, id, now);
    case Inserting(_, _, _) => InsertingOk(lib, bodies, w.db, r, id, now);
  }

  /** A call of one request touches no other session and loses nothing. */
  lemma {:induction false} CallExtends(lib: Library, db: Db, r: Request, id: string, now: int, s: string)
    requires forall b: Bytes :: IsBytes(lib.hash(b))
    requires r.phase.Inserting? ==> s != r.session
    ensures Extends(db, Call(lib, db, r, id, now).0, s)
  {
  }

  lemma {:induction false} StepKeepsRequests(lib: Library, bodies: set<Bytes>, start: Db, w: World, a: Action, j: nat)
    requires Faithful(lib, bodies) && Inv(lib, bodies, start, w) && a.i < |w.requests| && j < |w.requests|
    ensures RequestOk(lib, bodies, Step(lib, w, a).db, Step(lib, w, a).requests[j])
  {
    var r, other := w.requests[a.i], w.requests[j];
    assert RequestOk(lib, bodies, w.db, r) && RequestOk(lib, bodies, w.db, other);
    if j == a.i {
      CallOk(lib, bodies, start, w, r, a.id, a.now);
    } else {
      OtherStaysOk(lib, bodies, w.db, r, a.id, a.now, other);
    }
  }

  lemma {:induction false} OtherStaysOk(lib: Library, bodies: set<Bytes>, db: Db, r: Request, id: string, now: int, other: Request)
    requires (forall b: Bytes :: IsBytes(lib.hash(b))) && RequestOk(lib, bodies, db, other)
    requires Started(r) && Started(other) ==> r.session != other.session
    ensures RequestOk(lib, bodies, Call(lib, db, r, id, now).0, other)
  {
    var next := Call(lib, db, r, id, now).0;
    if Started(other) || !r.phase.Inserting? {
      CallExtends(lib, db, r, id, now, other.session);
      OthersStayOk(lib, bodies, db, next, other);
    } else {
      UnstartedStaysOk(lib, bodies, db, next, other);
    }
  }

  /** A request without a session depends only on the tools table. */
  lemma {:induction false} UnstartedStaysOk(lib: Library, bodies: set<Bytes>, db: Db, next: Db, r: Request)
    requires RequestOk(lib, bodies, db, r) && !Started(r)
    requires forall h :: h in db.tools ==> h in next.tools && next.tools[h] == db.tools[h]
    ensures RequestOk(lib, bodies, next, r)
  {
  }

  /** A session is named when it is started, and its name is new. */
  lemma {:induction false} CallNamesSession(lib: Library, db: Db, r: Request, id: string, now: int)
    requires forall b: Bytes :: IsBytes(lib.hash(b))
    ensures var r' := Call(lib, db, r, id, now).1;
            Started(r') ==> if Started(r) then r'.session == r.session else r'.session !in db.sessions
  {
  }

  lemma {:induction false} StepKeepsSessionsApart(lib: Library, bodies: set<Bytes>, start: Db, w: World, a: Action)
    requires Faithful(lib, bodies) && Inv(lib, bodies, start, w) && a.i < |w.requests|
    ensures var w' := Step(lib, w, a);
            forall i, j | 0 <= i < j < |w'.requests| && Started(w'.requests[i]) && Started(w'.requests[j]) ::
              w'.requests[i].session != w'.requests[j].session
  {
    forall j | 0 <= j < |w.requests| && Started(w.requests[j]) ensures w.requests[j].session in w.db.sessions {
      assert RequestOk(lib, bodies, w.db, w.requests[j]);
    }
    CallNamesSession(lib, w.db, w.requests[a.i], a.id, a.now);
    OneNameMore(w.requests, w.db.sessions.Keys, a.i, Step(lib, w, a).requests[a.i]);
  }

  lemma {:induction false} OneNameMore(requests: seq<Request>, names: set<string>, i: nat, r: Request)
    requires i < |requests|
    requires forall j, k | 0 <= j < k < |requests| && Started(requests[j]) && Started(requests[k]) ::
               requests[j].session != requests[k].session
    requires forall j | 0 <= j < |requests| && Started(requests[j]) :: requests[j].session in names
    requires Started(r) ==> if Started(requests[i]) then r.session == requests[i].session else r.session !in names
    ensures var all := requests[i := r];
            forall j, k | 0 <= j < k < |all| && Started(all[j]) && Started(all[k]) :: all[j].session != all[k].session
  {
  }

  lemma {:induction false} CallStores(lib: Library, db: Db, r: Request, id: string, now: int)
    requires forall b: Bytes :: IsBytes(lib.hash(b))
    requires Stored(r) <= |r.plan|
    ensures var (next, r') := Call(lib, db, r, id, now);
            && r'.plan == r.plan && Stored(r) <= Stored(r') <= |r.plan|
            && forall h :: h in next.messages ==>
                 h in db.messages || (0 < Stored(r') && h == lib.hash(r.plan[Stored(r') - 1].body))
  {
  }

  lemma {:induction false} StepKeepsHashes(lib: Library, bodies: set<Bytes>, start: Db, w: World, a: Action)
    requires Faithful(lib, bodies) && Inv(lib, bodies, start, w) && a.i < |w.requests|
    ensures forall h :: h in Step(lib, w, a).db.messages ==>
              h in start.messages || StoredHash(lib, Step(lib, w, a).requests, h)
  {
    var w' := Step(lib, w, a);
    var r := w.requests[a.i];
    assert RequestOk(lib, bodies, w.db, r);
    CallStores(lib, w.db, r, a.id, a.now);
    var r' := w'.requests[a.i];
    forall h | h in w'.db.messages && h !in start.messages ensures StoredHash(lib, w'.requests, h) {
      if h in w.db.messages {
        StoredHashStays(lib, w.requests, a.i, r', h);
      } else {
        assert h == lib.hash(r'.plan[Stored(r') - 1].body);
      }
    }
  }

  lemma {:induction false} StoredHashStays(lib: Library, requests: seq<Request>, i: nat, r: Request, h: Bytes)
    requires i < |requests| && StoredHash(lib, requests, h)
    requires r.plan == requests[i].plan && Stored(requests[i]) <= Stored(r) <= |r.plan|
    ensures StoredHash(lib, requests[i := r], h)
  {
    var j, n :| 0 <= j < |requests| && 0 <= n < Stored(requests[j]) <= |requests[j].plan|
      && h == lib.hash(requests[j].plan[n].body);
    assert requests[i := r][j].plan == requests[j].plan && n < Stored(requests[i := r][j]);
  }

  lemma {:induction false} StepKeepsInv(lib: Library, bodies: set<Bytes>, start: Db, w: World, a: Action)
    requires Faithful(lib, bodies) && Inv(lib, bodies, start, w)
    ensures Inv(lib, bodies, start, Step(lib, w, a))
  {
    if a.i < |w.requests| {
      var w' := Step(lib, w, a);
      forall j | 0 <= j < |w'.requests| ensures RequestOk(lib, bodies, w'.db, w'.requests[j]) {
        StepKeepsRequests(lib, bodies, start, w, a, j);
      }
      StepKeepsSessionsApart(lib, bodies, start, w, a);
      StepKeepsHashes(lib, bodies, start, w, a);
      LinksHaveSessions(lib, w.db, w.requests[a.i], a.id, a.now);
      assert RequestOk(lib, bodies, w.db, w.requests[a.i]);
      RowsStayOk(lib, bodies, w.db, w.requests[a.i], a.id, a.now);
      ToolsStayOk(lib, bodies, w.db, w.requests[a.i], a.id, a.now);
    }
  }

  /** A call adds at most a row that holds a body. */
  lemma {:induction false} ToolsStayOk(lib: Library, bodies: set<Bytes>, db: Db, r: Request, id: string, now: int)
    requires Faithful(lib, bodies) && RequestOk(lib, bodies, db, r)
    requires forall h :: h in db.tools ==> ToolsOk(lib, bodies, db, h)
    ensures var next := Call(lib, db, r, id, now).0; forall h :: h in next.tools ==> ToolsOk(lib, bodies, next, h)
  {
    var next := Call(lib, db, r, id, now).0;
    forall h | h in next.tools ensures ToolsOk(lib, bodies, next, h) {
      if h in db.tools {
        assert ToolsOk(lib, bodies, db, h);
      } else {
        assert r.tools.value in bodies;
      }
    }
  }

  lemma {:induction false} RowsStayOk(lib: Library, bodies: set<Bytes>, db: Db, r: Request, id: string, now: int)
    requires Faithful(lib, bodies) && RequestOk(lib, bodies, db, r)
    requires forall h :: h in db.messages ==> RowOk(lib, bodies, db, h)
    ensures var next := Call(lib, db, r, id, now).0; forall h :: h in next.messages ==> RowOk(lib, bodies, next, h)
  {
    var next := Call(lib, db, r, id, now).0;
    forall h | h in next.messages ensures RowOk(lib, bodies, next, h) {
      if h in db.messages {
        assert RowOk(lib, bodies, db, h);
      } else {
        assert r.plan[r.phase.next].body in bodies;
      }
    }
  }

  lemma {:induction false} LinksHaveSessions(lib: Library, db: Db, r: Request, id: string, now: int)
    requires forall b: Bytes :: IsBytes(lib.hash(b))
    requires forall k :: k in db.links ==> k.0 in db.sessions
    ensures var next := Call(lib, db, r, id, now).0; forall k :: k in next.links ==> k.0 in next.sessions
  {
  }

  // ---- Foreign keys and times ----

  ghost predicate ReferencesHold(db: Db) {
    && (forall k :: k in db.links ==> k.0 in db.sessions && db.links[k].hash in db.messages)
    && (forall id :: id in db.sessions ==>
          db.sessions[id].toolsHash.Some? ==> db.sessions[id].toolsHash.value in db.tools)
  }

  lemma {:induction false} CallKeepsReferences(lib: Library, db: Db, r: Request, id: string, now: int)
    requires (forall b: Bytes :: IsBytes(lib.hash(b))) && ReferencesHold(db)
    ensures ReferencesHold(Call(lib, db, r, id, now).0)
  {
  }

  /** No call leaves a row without the session, message or tools that it names, whatever state its request is in. */
  lemma {:induction false} RunKeepsReferences(lib: Library, w: World, actions: seq<Action>)
    requires (forall b: Bytes :: IsBytes(lib.hash(b))) && ReferencesHold(w.db)
    ensures ReferencesHold(Run(lib, w, actions).db)
  {
    if actions != [] {
      var front, last := actions[..|actions| - 1], actions[|actions| - 1];
      RunKeepsReferences(lib, w, front);
      var middle := Run(lib, w, front);
      if last.i < |middle.requests| {
        CallKeepsReferences(lib, middle.db, middle.requests[last.i], last.id, last.now);
      }
    }
  }

  /** The call that stores the message with hash `h` is action `k`. */
  ghost predicate StoredBy(lib: Library, w: World, actions: seq<Action>, h: Bytes, k: nat)
    requires forall b: Bytes :: IsBytes(lib.hash(b))
  {
    && k < |actions|
    && h !in Run(lib, w, actions[..k]).db.messages && h in Run(lib, w, actions[..k + 1]).db.messages
  }

  /** A message that was not there at the start has the time of the call that stored it first. */
  lemma {:induction false} CreatedWhenStored(lib: Library, w: World, actions: seq<Action>, h: Bytes) returns (k: nat)
    requires forall b: Bytes :: IsBytes(lib.hash(b))
    requires h !in w.db.messages && h in Run(lib, w, actions).db.messages
    ensures StoredBy(lib, w, actions, h, k)
    ensures Run(lib, w, actions).db.messages[h].createdAt == actions[k].now
  {
    var n := |actions| - 1;
    var front, last := actions[..n], actions[n];
    var middle := Run(lib, w, front);
    assert actions[..n + 1] == actions;
    RowsAreNeverOverwritten(lib, middle, [last]);
    assert [last][..0] == [] && Run(lib, middle, []) == middle;
    if h in middle.db.messages {
      k := CreatedWhenStored(lib, w, front, h);
      assert front[..k] == actions[..k] && front[..k + 1] == actions[..k + 1];
    } else {
      k := n;
    }
  }

  // ---- What every interleaving gives ----

  /** Requests before their first call, with the bodies they will store. */
  ghost predicate Fresh(bodies: set<Bytes>, requests: seq<Request>) {
    forall i | 0 <= i < |requests| ::
      && requests[i].phase.Idle? && (requests[i].tools.Some? ==> requests[i].tools.value in bodies)
      && forall n | 0 <= n < |requests[i].plan| :: requests[i].plan[n].body in bodies
  }

  lemma {:induction false} RunKeepsInv(lib: Library, bodies: set<Bytes>, start: Db, requests: seq<Request>, actions: seq<Action>)
    requires Faithful(lib, bodies) && Sound(lib, bodies, start) && Fresh(bodies, requests)
    ensures Inv(lib, bodies, start, Run(lib, World(start, requests), actions))
  {
    if actions != [] {
      var front := actions[..|actions| - 1];
      RunKeepsInv(lib, bodies, start, requests, front);
      StepKeepsInv(lib, bodies, start, Run(lib, World(start, requests), front), actions[|actions| - 1]);
    }
  }

  lemma {:induction false} CallPreserves(lib: Library, start: Db, db: Db, r: Request, id: string, now: int)
    requires (forall b: Bytes :: IsBytes(lib.hash(b))) && Preserves(start, db)
    requires Started(r) ==> r.session !in start.sessions
    ensures var (next, r') := Call(lib, db, r, id, now);
            Preserves(start, next) && (Started(r') ==> r'.session !in start.sessions)
  {
  }

  lemma {:induction false} RunStaysApart(lib: Library, bodies: set<Bytes>, start: Db, requests: seq<Request>, actions: seq<Action>)
    requires Faithful(lib, bodies) && Fresh(bodies, requests)
    ensures Apart(start, Run(lib, World(start, requests), actions))
  {
    if actions != [] {
      var front, last := actions[..|actions| - 1], actions[|actions| - 1];
      RunStaysApart(lib, bodies, start, requests, front);
      var w := Run(lib, World(start, requests), front);
      if last.i < |w.requests| {
        CallPreserves(lib, start, w.db, w.requests[last.i], last.id, last.now);
      }
    }
  }

  /** The list of messages a request has put into its session so far. */
  ghost function Expected(lib: Library, db: Db, r: Request, n: nat): seq<Entry>
    requires n <= |r.plan| && forall m | 0 <= m < n :: lib.hash(r.plan[m].body) in db.messages
    requires forall b: Bytes :: IsBytes(lib.hash(b))
  {
    seq(n, m requires 0 <= m < n => ExpectedEntry(lib, db, r, m))
  }

  /** Message `m` of the plan, as its session lists it. */
  ghost function ExpectedEntry(lib: Library, db: Db, r: Request, m: nat): Entry
    requires m < |r.plan| && lib.hash(r.plan[m].body) in db.messages && IsBytes(lib.hash(r.plan[m].body))
  {
    var h := lib.hash(r.plan[m].body);
    Entry(m + 1, HashHex(h), r.plan[m].body, db.messages[h].createdAt, r.plan[m].durationMs)
  }

  /** Row `m + 1` of the session of `r` lists message `m`. */
  ghost predicate Lists(lib: Library, db: Db, r: Request, m: nat)
    requires m < |r.plan| && IsBytes(lib.hash(r.plan[m].body))
  {
    && (r.session, m + 1) in db.links && lib.hash(r.plan[m].body) in db.messages
    && db.links[(r.session, m + 1)].hash == lib.hash(r.plan[m].body)
    && EntryOf(lib, db, m + 1, db.links[(r.session, m + 1)]) == ExpectedEntry(lib, db, r, m)
  }

  lemma {:induction false} RowLists(lib: Library, bodies: set<Bytes>, db: Db, r: Request, m: nat)
    requires Faithful(lib, bodies) && RequestOk(lib, bodies, db, r) && Started(r) && m < Linked(r)
    ensures Lists(lib, db, r, m)
  {
    assert HasBody(lib, db, r.plan[m].body);
    assert r.plan[m].body in bodies;
    assert 1 <= m + 1 <= Linked(r);
  }

  lemma {:induction false} EntriesAreExpected(lib: Library, db: Db, r: Request, n: nat)
    requires (forall b: Bytes :: IsBytes(lib.hash(b))) && (forall h | h in db.messages :: IsBytes(h))
    requires n <= |r.plan| && forall m | 0 <= m < n :: Lists(lib, db, r, m)
    ensures forall m | 0 <= m < n :: lib.hash(r.plan[m].body) in db.messages
    ensures forall m: int | 1 <= m <= n :: (r.session, m) in db.links
    ensures Entries(lib, db, r.session, seq(n, m => m + 1)) == Expected(lib, db, r, n)
  {
    forall m: int | 1 <= m <= n ensures (r.session, m) in db.links {
      assert Lists(lib, db, r, m - 1);
    }
    if n > 0 {
      EntriesAreExpected(lib, db, r, n - 1);
      var q: seq<int> := seq(n, m => m + 1);
      assert q[..n - 1] == seq(n - 1, m => m + 1);
      assert Lists(lib, db, r, n - 1);
      assert Expected(lib, db, r, n) == Expected(lib, db, r, n - 1) + [ExpectedEntry(lib, db, r, n - 1)];
    }
  }

  lemma {:induction false} SequencesAreNumbered(lib: Library, db: Db, r: Request)
    requires SessionOk(lib, db, r)
    ensures Ascending(Sequences(db, r.session)) == seq(Linked(r), m => m + 1)
  {
    var q: seq<int> := seq(Linked(r), m => m + 1);
    forall n ensures n in q <==> n in Sequences(db, r.session) {
      assert n in Sequences(db, r.session) <==> (r.session, n) in db.links;
      assert 1 <= n <= Linked(r) ==> q[n - 1] == n;
    }
    AscendingIsUnique(q, Sequences(db, r.session));
  }

  lemma {:induction false} SessionIsExpected(lib: Library, bodies: set<Bytes>, db: Db, r: Request)
    requires Faithful(lib, bodies) && RequestOk(lib, bodies, db, r) && Started(r)
    requires forall h | h in db.messages :: IsBytes(h)
    ensures forall m | 0 <= m < Linked(r) :: lib.hash(r.plan[m].body) in db.messages
    ensures SessionEntries(lib, db, r.session) == Expected(lib, db, r, Linked(r))
  {
    var n := Linked(r);
    forall m | 0 <= m < n ensures Lists(lib, db, r, m) {
      RowLists(lib, bodies, db, r, m);
    }
    EntriesAreExpected(lib, db, r, n);
    SequencesAreNumbered(lib, db, r);
  }

  /**
   However the calls of the requests interleave, at every moment each session lists exactly the
   messages its request has added, in order and numbered from 1, with their bodies and durations; and
   the messages table has a row exactly for each distinct body stored.
   */
  lemma {:induction false} SessionsAreLists(lib: Library, bodies: set<Bytes>, start: Db, requests: seq<Request>,
                                            actions: seq<Action>, i: nat)
    requires Faithful(lib, bodies) && Sound(lib, bodies, start) && Fresh(bodies, requests) && i < |requests|
    ensures var w := Run(lib, World(start, requests), actions);
            && |w.requests| == |requests| && w.requests[i].plan == requests[i].plan
            && (forall h :: h in w.db.messages <==> h in start.messages || StoredHash(lib, w.requests, h))
            && (forall h :: h in w.db.messages ==> IsBytes(h))
            && (Started(w.requests[i]) ==>
                  var r := w.requests[i];
                  && Linked(r) <= |r.plan|
                  && (forall m | 0 <= m < Linked(r) :: lib.hash(r.plan[m].body) in w.db.messages)
                  && SessionEntries(lib, w.db, r.session) == Expected(lib, w.db, r, Linked(r)))
  {
    var w := Run(lib, World(start, requests), actions);
    RunKeepsInv(lib, bodies, start, requests, actions);
    RunStaysApart(lib, bodies, start, requests, actions);
    PlansStay(lib, bodies, start, requests, actions, i);
    HashesAreStored(lib, bodies, start, w);
    var r := w.requests[i];
    assert RequestOk(lib, bodies, w.db, r);
    if Started(r) {
      SessionIsExpected(lib, bodies, w.db, r);
    }
  }

  lemma {:induction false} HashesAreStored(lib: Library, bodies: set<Bytes>, start: Db, w: World)
    requires Faithful(lib, bodies) && Inv(lib, bodies, start, w) && Preserves(start, w.db)
    ensures forall h :: h in w.db.messages <==> h in start.messages || StoredHash(lib, w.requests, h)
    ensures forall h :: h in w.db.messages ==> IsBytes(h)
  {
    forall h | StoredHash(lib, w.requests, h) ensures h in w.db.messages && IsBytes(h) {
      var i, n :| 0 <= i < |w.requests| && 0 <= n < Stored(w.requests[i]) <= |w.requests[i].plan|
        && h == lib.hash(w.requests[i].plan[n].body);
      assert RequestOk(lib, bodies, w.db, w.requests[i]);
      assert HasBody(lib, w.db, w.requests[i].plan[n].body);
    }
    forall h | h in w.db.messages ensures IsBytes(h) {
      assert RowOk(lib, bodies, w.db, h);
    }
  }

  /** A started session names the tools of its request, and they are found under that hash. */
  lemma {:induction false} SessionsHaveTools(lib: Library, bodies: set<Bytes>, start: Db, requests: seq<Request>,
                                             actions: seq<Action>, i: nat)
    requires Faithful(lib, bodies) && Sound(lib, bodies, start) && Fresh(bodies, requests) && i < |requests|
    ensures var w := Run(lib, World(start, requests), actions);
            && |w.requests| == |requests|
            && (Started(w.requests[i]) ==>
                  && w.requests[i].session in w.db.sessions
                  && var hash := w.db.sessions[w.requests[i].session].toolsHash;
                     match requests[i].tools
                     case None => hash.None?
                     case Some(tools) =>
                       hash.Some? && IsBytes(hash.value) && ToolsAt(lib, w.db.tools, HashHex(hash.value)) == Some(tools))
  {
    var w := Run(lib, World(start, requests), actions);
    RunKeepsInv(lib, bodies, start, requests, actions);
    PlansStay(lib, bodies, start, requests, actions, i);
    var r := w.requests[i];
    assert RequestOk(lib, bodies, w.db, r);
    if requests[i].tools.Some? {
      HexRoundTrip(lib.hash(requests[i].tools.value));
    }
  }

  /** The sessions that were in the database before list what they did, whatever the requests do. */
  lemma {:induction false} EarlierSessionsStay(lib: Library, bodies: set<Bytes>, start: Db, requests: seq<Request>,
                                               actions: seq<Action>, session: string)
    requires Faithful(lib, bodies) && Sound(lib, bodies, start) && Fresh(bodies, requests) && session in start.sessions
    requires forall h | h in start.messages :: IsBytes(h)
    ensures var db := Run(lib, World(start, requests), actions).db;
            && (forall h :: h in db.messages ==> IsBytes(h))
            && session in db.sessions && SessionEntries(lib, db, session) == SessionEntries(lib, start, session)
  {
    var w := Run(lib, World(start, requests), actions);
    RunKeepsInv(lib, bodies, start, requests, actions);
    RunStaysApart(lib, bodies, start, requests, actions);
    HashesAreStored(lib, bodies, start, w);
    var a, b := Sequences(start, session), Sequences(w.db, session);
    forall n ensures n in a <==> n in b {
      assert (session, n).0 in start.sessions;
    }
    assert a == b;
    RowsExist(start, session);
    RowsExist(w.db, session);
    SameEntries(lib, start, w.db, session, Ascending(a));
  }

  lemma {:induction false} SameEntries(lib: Library, start: Db, db: Db, session: string, sequences: seq<int>)
    requires Preserves(start, db) && session in start.sessions
    requires (forall h | h in start.messages :: IsBytes(h)) && (forall h | h in db.messages :: IsBytes(h))
    requires forall k :: k in start.links ==> start.links[k].hash in start.messages
    requires forall k | 0 <= k < |sequences| :: (session, sequences[k]) in start.links && (session, sequences[k]) in db.links
    ensures Entries(lib, db, session, sequences) == Entries(lib, start, session, sequences)
  {
    if sequences != [] {
      var n := sequences[|sequences| - 1];
      SameEntries(lib, start, db, session, sequences[..|sequences| - 1]);
      assert (session, n).0 in start.sessions;
    }
  }

  lemma {:induction false} PlansStay(lib: Library, bodies: set<Bytes>, start: Db, requests: seq<Request>, actions: seq<Action>, i: nat)
    requires Faithful(lib, bodies) && i < |requests|
    ensures var w := Run(lib, World(start, requests), actions);
            |w.requests| == |requests| && w.requests[i].plan == requests[i].plan && w.requests[i].tools == requests[i].tools
  {
    if actions != [] {
      PlansStay(lib, bodies, start, requests, actions[..|actions| - 1], i);
    }
  }

  ghost predicate Keeps(db: Db, later: Db) {
    && (forall h :: h in db.messages ==> h in later.messages && later.messages[h] == db.messages[h])
    && (forall h :: h in db.tools ==> h in later.tools && later.tools[h] == db.tools[h])
    && (forall id :: id in db.sessions ==> id in later.sessions && later.sessions[id] == db.sessions[id])
  }

  /** A stored row is never overwritten, whatever calls follow. */
  lemma {:induction false} RowsAreNeverOverwritten(lib: Library, w: World, actions: seq<Action>)
    requires forall b: Bytes :: IsBytes(lib.hash(b))
    ensures Keeps(w.db, Run(lib, w, actions).db)
  {
    if actions != [] {
      var front, last := actions[..|actions| - 1], actions[|actions| - 1];
      RowsAreNeverOverwritten(lib, w, front);
      var middle := Run(lib, w, front);
      if last.i < |middle.requests| {
        var r := middle.requests[last.i];
        CallExtends(lib, middle.db, r, last.id, last.now, r.session + "'");
        assert Run(lib, w, actions).db == Call(lib, middle.db, r, last.id, last.now).0;
      }
    }
  }
}
