/**
 The requests and the queue entries: how they are put together, taken apart again, and what
 the content server makes of them.  From end to end, a worker's FETCH asks for the path that
 the manager queued, and waits for the delay that the ID registered last.
 */
module Messages {
  import opened Folds
  import opened ContentInvariants
  import opened ContentModel
  import opened Threads
  import opened Text
  import opened Decimal
  import opened MyStrings
  import opened HashTables

  // ---- Formats ------------------------------------------------------------------------------

  /** mirror_manager.cpp:78-85. */
  function ListText(id: int, delay: int): string {
    "LIST:" + Print(id) + ":" + Print(delay)
  }

  /** worker.cpp:185-188. */
  function FetchText(path: string, id: int): string {
    "FETCH:" + path + ":" + Print(id)
  }

  /** mirror_manager.cpp:120-128. */
  function EntryText(path: string, addr: string, port: int, id: int): string {
    path + ":" + addr + ":" + Print(port) + ":" + Print(id)
  }

  method BuildList(id: int, delay: int) returns (m: MyString)
    ensures fresh(m) && m.Exact() && m.text == ListText(id, delay) == "LIST:" + Print(id) + ":" + Print(delay)
  {
    var head := Literal("LIST:");
    var colon := Literal(":");
    m := new MyString(head, "LIST:");
    m.AppendInt(id);
    var _ := m.AppendText(colon, ":");
    m.AppendInt(delay);
  }

  method BuildFetch(path: MyString, id: int) returns (m: MyString)
    requires path.Valid()
    ensures fresh(m) && m.Exact() && m.text == FetchText(path.text, id) == "FETCH:" + path.text + ":" + Print(id)
  {
    var head := Literal("FETCH:");
    var colon := Literal(":");
    m := new MyString(head, "FETCH:");
    var _ := m.Append(path);
    var _ := m.AppendText(colon, ":");
    m.AppendInt(id);
  }

  method BuildEntry(path: MyString, addr: MyString, port: int, id: int) returns (m: MyString)
    requires path.Valid() && addr.Valid()
    ensures fresh(m) && m.Exact() && m.text == EntryText(path.text, addr.text, port, id)
    ensures m.text == path.text + ":" + addr.text + ":" + Print(port) + ":" + Print(id)
  {
    var colon := Literal(":");
    m := new MyString(path.str, path.text);
    var _ := m.AppendText(colon, ":");
    var _ := m.Append(addr);
    var _ := m.AppendText(colon, ":");
    m.AppendInt(port);
    var _ := m.AppendText(colon, ":");
    m.AppendInt(id);
  }

  // ---- Taking them apart ----------------------------------------------------------------------

  datatype Info = Info(path: string, addr: string, port: int, id: int)

  /** worker.cpp:287-295: a missing piece throws. */
  function InfoOf(pieces: seq<string>): Option<Info> {
    if |pieces| < 4 then None else Some(Info(pieces[0], pieces[1], Read(pieces[2]), Read(pieces[3])))
  }

  method GetInfo(entry: MyString) returns (r: Option<Info>)
    requires entry.Valid()
    ensures r == InfoOf(Split(entry.text, ':')) && (r.None? <==> |Split(entry.text, ':')| < 4)
  {
    var pieces := entry.SplitAt(':');
    return InfoOf(pieces);
  }

  lemma PrintedIsFree(x: int)
    ensures Free(Print(x), ':') && Read(Print(x)) == x
  {
    PrintFree(x, ':');
    ReadPrint(x, "");
    assert Print(x) + "" == Print(x);
  }

  /** Two printed numbers are equal only when the numbers are. */
  lemma PrintInjective(x: int, y: int)
    requires Print(x) == Print(y)
    ensures x == y
  {
    PrintedIsFree(x);
    PrintedIsFree(y);
  }

  lemma SplitsInto(text: string, pieces: seq<string>)
    requires pieces != [] && AllFree(pieces, ':') && pieces[|pieces| - 1] != "" && text == Join(pieces, ':')
    ensures Split(text, ':') == pieces
  {
    SplitAfterJoin(pieces, ':');
  }

  lemma JoinMore(ps: seq<string>, p: string)
    requires ps != []
    ensures Join(ps + [p], ':') == Join(ps, ':') + ":" + p
  {
    assert (ps + [p])[..|ps|] == ps;
  }

  lemma Join3(a: string, b: string, c: string)
    ensures Join([a, b, c], ':') == a + ":" + b + ":" + c
  {
    JoinMore([a], b);
    JoinMore([a, b], c);
    assert [a] + [b] == [a, b] && [a, b] + [c] == [a, b, c];
  }

  lemma Join4(a: string, b: string, c: string, d: string)
    ensures Join([a, b, c, d], ':') == a + ":" + b + ":" + c + ":" + d
  {
    Join3(a, b, c);
    JoinMore([a, b, c], d);
    assert [a, b, c] + [d] == [a, b, c, d];
  }

  lemma ListSplits(id: int, delay: int)
    ensures Split(ListText(id, delay), ':') == ["LIST", Print(id), Print(delay)]
  {
    Join3("LIST", Print(id), Print(delay));
    PrintedIsFree(id);
    PrintedIsFree(delay);
    hide Split, Join, Print;
    assert "LIST:" == "LIST" + ":";
    SplitsInto(ListText(id, delay), ["LIST", Print(id), Print(delay)]);
  }

  lemma FetchSplits(path: string, id: int)
    requires Free(path, ':')
    ensures Split(FetchText(path, id), ':') == ["FETCH", path, Print(id)]
  {
    Join3("FETCH", path, Print(id));
    PrintedIsFree(id);
    hide Split, Join, Print;
    assert "FETCH:" == "FETCH" + ":";
    SplitsInto(FetchText(path, id), ["FETCH", path, Print(id)]);
  }

  lemma EntrySplits(path: string, addr: string, port: int, id: int)
    requires Free(path, ':') && Free(addr, ':')
    ensures Split(EntryText(path, addr, port, id), ':') == [path, addr, Print(port), Print(id)]
  {
    Join4(path, addr, Print(port), Print(id));
    PrintedIsFree(port);
    PrintedIsFree(id);
    hide Split, Join, Print;
    SplitsInto(EntryText(path, addr, port, id), [path, addr, Print(port), Print(id)]);
  }

  /** A worker reads back what the manager queued exactly when path and address hold no colon. */
  lemma EntryRoundTrip(path: string, addr: string, port: int, id: int)
    ensures InfoOf(Split(EntryText(path, addr, port, id), ':')) == Some(Info(path, addr, port, id))
            <==> Free(path, ':') && Free(addr, ':')
  {
    var text := EntryText(path, addr, port, id);
    var pieces := Split(text, ':');
    PiecesFree(text, ':');
    PrintedIsFree(port);
    PrintedIsFree(id);
    if Free(path, ':') && Free(addr, ':') {
      EntrySplits(path, addr, port, id);
    }
    hide Print, Read, Pieces, EntryText;
  }

  // ---- From the list to the queue ---------------------------------------------------------------

  /** The filter of `mirror_manager::run`: the name contains the wanted path, or starts with it. */
  predicate Wanted(name: string, path: string, search: bool) {
    if search then Contains(name, path) else StartsWith(name, path)
  }

  function WantedNames(names: seq<string>, path: string, search: bool): seq<string> {
    Select(names, (p: string) => Wanted(p, path, search))
  }

  function EntriesFor(wanted: seq<string>, addr: string, port: int, id: int): (es: seq<string>)
    ensures |es| == |wanted|
    ensures forall k :: 0 <= k < |es| ==> es[k] == EntryText(wanted[k], addr, port, id)
  {
    seq(|wanted|, k requires 0 <= k < |wanted| => EntryText(wanted[k], addr, port, id))
  }

  /** The entries that a manager pushes for the names it has read (mirror_manager.cpp:98-149). */
  method EntriesToPush(names: seq<string>, path: string, search: bool, addr: MyString, port: int, id: int)
    returns (entries: seq<string>)
    requires addr.Valid() && forall k :: 0 <= k < |names| ==> Plain(names[k])
    ensures entries == EntriesFor(WantedNames(names, path, search), addr.text, port, id)
  {
    hide Wanted, EntryText;
    entries := [];
    for i := 0 to |names|
      invariant entries == EntriesFor(WantedNames(names[..i], path, search), addr.text, port, id)
    {
      assert names[..i + 1][..i] == names[..i];
      if Wanted(names[i], path, search) {
        var buffer := Literal(names[i]);
        var name := new MyString(buffer, names[i]);
        var full := BuildEntry(name, addr, port, id);
        var entry := Copy(full);
        entries := entries + [entry];
      }
    }
    assert names[..|names|] == names;
  }

  /** `p` is wanted: it contains the path asked for, or starts with it. */
  ghost predicate AskedFor(p: string, path: string, search: bool) {
    if search then exists a, b :: p == a + path + b else path <= p
  }

  lemma WantedIsAskedFor(p: string, path: string, search: bool)
    ensures Wanted(p, path, search) <==> AskedFor(p, path, search)
  {
    SearchMeaning(p, path);
  }

  /**
   What the workers fetch is what was asked for.  Taken apart again, the entries pushed for a list of
   names without colons are for this server and this ID, and their paths are, in order and as often as
   they are listed, the listed names that contain the path asked for, or start with it.
   */
  lemma WorkersSeeTheWanted(names: seq<string>, path: string, search: bool, addr: string, port: int, id: int)
      returns (at: seq<nat>, paths: seq<string>)
    requires Free(addr, ':') && forall j :: 0 <= j < |names| ==> Free(names[j], ':')
    ensures var entries := EntriesFor(WantedNames(names, path, search), addr, port, id);
            && |entries| == |paths|
            && forall k :: 0 <= k < |entries| ==> InfoOf(Split(entries[k], ':')) == Some(Info(paths[k], addr, port, id))
    ensures Picks(at, names, paths, (p: string) => AskedFor(p, path, search))
    ensures forall p :: p in paths <==> p in names && AskedFor(p, path, search)
  {
    at := SelectPicks(names, (p: string) => Wanted(p, path, search));
    paths := WantedNames(names, path, search);
    forall p ensures Wanted(p, path, search) <==> AskedFor(p, path, search) { WantedIsAskedFor(p, path, search); }
    assert Picks(at, names, paths, (p: string) => AskedFor(p, path, search));
    hide Wanted, AskedFor, InfoOf, Split, EntryText, WantedNames;
    forall k | 0 <= k < |paths|
      ensures InfoOf(Split(EntryText(paths[k], addr, port, id), ':')) == Some(Info(paths[k], addr, port, id))
    {
      assert Free(names[at[k]], ':');
      EntryRoundTrip(paths[k], addr, port, id);
    }
    hide Picks;
    forall p ensures p in paths <==> p in names && AskedFor(p, path, search) {
      PickedIsWanted(at, names, paths, (p: string) => AskedFor(p, path, search), p);
    }
  }

  // ---- The content server ------------------------------------------------------------------------

  /**
   What a request leads to (content_manager.cpp:86-150).  `Thrown`: the ID of a FETCH has no bucket,
   and the exception skips the unlock of the hash table's mutex.  `Blocked`: the request waits for
   that mutex for ever.
   */
  datatype Response = Listing | Sending(delay: int, path: string) | Malformed | UnknownId | Thrown | Ignored | Blocked

  /** The registered delays, and whether the hash table's mutex was left locked. */
  datatype Server = Server(delays: map<string, int>, lost: bool)

  /** A LIST or a FETCH with all its pieces: only these go to the hash table. */
  predicate NeedsTable(cmd: seq<string>) {
    |cmd| >= 3 && (cmd[0] == "LIST" || cmd[0] == "FETCH")
  }

  predicate Throws(cmd: seq<string>, size: int)
    requires size > 0
  {
    |cmd| >= 3 && cmd[0] == "FETCH" && !Good(cmd[2], size)
  }

  /** The meaning of a request's pieces. */
  function Answer(cmd: seq<string>, server: Server, size: int): Response
    requires size > 0
  {
    if NeedsTable(cmd) && server.lost then Blocked
    else if Throws(cmd, size) then Thrown
    else if cmd == [] || (cmd[0] != "LIST" && cmd[0] != "FETCH") then Ignored
    else if |cmd| < 3 then Malformed
    else if cmd[0] == "LIST" then Listing
    else if cmd[2] !in server.delays then UnknownId
    else Sending(server.delays[cmd[2]], cmd[1])
  }

  function AfterRequest(cmd: seq<string>, server: Server, size: int): Server
    requires size > 0
  {
    if server.lost then server
    else if Throws(cmd, size) then server.(lost := true)
    else if |cmd| >= 3 && cmd[0] == "LIST" && Good(cmd[1], size)
      then server.(delays := server.delays[cmd[1] := Read(cmd[2])])
    else server
  }

  /**
   One turn of `content_manager::run` with a request (content_manager.cpp:84-150), with the mutex
   lost or not.
   */
  method Serve(table: HashTable<int>, lost: bool, msg: MyString) returns (r: Response, lostNow: bool)
    requires table.Valid() && msg.Valid()
    modifies table, table.keys, table.entries
    ensures table.Valid() && msg.text == old(msg.text)
    ensures r == Answer(Split(msg.text, ':'), Server(old(table.contents), lost), table.size)
    ensures Server(table.contents, lostNow)
      == AfterRequest(Split(msg.text, ':'), Server(old(table.contents), lost), table.size)
  {
    var cmd := msg.SplitAt(':');
    lostNow := lost;
    if |cmd| == 0 { return Ignored, lostNow; }
    if cmd[0] == "LIST" {
      if |cmd| < 3 { return Malformed, lostNow; }
      if lost { return Blocked, lostNow; }
      table.InsertKey(cmd[1], Read(cmd[2]));
      return Listing, lostNow;
    }
    if cmd[0] == "FETCH" {
      if |cmd| < 3 { return Malformed, lostNow; }
      if lost { return Blocked, lostNow; }
      var delay := table.GetKey(cmd[2]);
      match delay
      case Found(d) => return Sending(d, cmd[1]), lostNow;
      case Missing => return UnknownId, lostNow;
      case BadIndex => return Thrown, true;
    }
    return Ignored, lostNow;
  }

  // ---- Any request ---------------------------------------------------------------------------------

  /** Text that follows a piece: nothing, or a delimiter and more. */
  predicate Follows(more: string) {
    more == "" || more[0] == ':'
  }

  /** Two pieces, and the third up to what follows it; whatever comes then does not matter. */
  lemma ThreePieces(word: string, a: string, b: string, more: string)
    requires Free(word, ':') && Free(a, ':') && Free(b, ':') && Follows(more) && b + more != ""
    ensures var cmd := Split(word + ":" + a + ":" + b + more, ':');
            |cmd| >= 3 && cmd[0] == word && cmd[1] == a && cmd[2] == b
  {
    var text := word + ":" + a + ":" + b + more;
    assert text == word + [':'] + (a + [':'] + (b + more));
    PiecesCons(word, ':', a + [':'] + (b + more));
    PiecesCons(a, ':', b + more);
    FirstPiece(b, more);
    LastOfText(word + ":" + a + ":", b, more);
    hide Pieces;
  }

  lemma FirstPiece(p: string, more: string)
    requires Free(p, ':') && Follows(more)
    ensures Pieces(p + more, ':')[0] == p && (more == "" <==> |Pieces(p + more, ':')| == 1)
  {
    if more == "" {
      assert p + more == p;
      PiecesOne(p, ':');
    } else {
      assert p + more == p + [':'] + more[1..];
      PiecesCons(p, ':', more[1..]);
    }
  }

  lemma LastOfText(before: string, b: string, more: string)
    requires Free(b, ':') && b + more != ""
    ensures more == "" ==> !EndsIn(before + b + more, ':')
  {
    if more == "" { assert (before + b + more)[|before + b + more| - 1] == b[|b| - 1]; }
  }

  /**
   The answer to any request with three pieces or more, by its text, and what it leaves.  Only a LIST
   registers, and only the second and the third piece count.
   */
  lemma TextAnswer(word: string, a: string, b: string, more: string, server: Server, size: int)
    requires size > 0 && Free(word, ':') && Free(a, ':') && Free(b, ':') && Follows(more) && b + more != ""
    ensures var cmd := Split(word + ":" + a + ":" + b + more, ':');
            && Answer(cmd, server, size)
               == (if word == "LIST" then if server.lost then Blocked else Listing
                   else if word != "FETCH" then Ignored
                   else if server.lost then Blocked
                   else if !Good(b, size) then Thrown
                   else if b !in server.delays then UnknownId
                   else Sending(server.delays[b], a))
            && AfterRequest(cmd, server, size)
               == if server.lost then server
                  else if word == "LIST" && Good(a, size) then server.(delays := server.delays[a := Read(b)])
                  else if word == "FETCH" && !Good(b, size) then server.(lost := true)
                  else server
  {
    ThreePieces(word, a, b, more);
    FetchIsNotList();
    hide Split, Good, Read;
  }

  /** A request with fewer pieces is malformed or none, whatever the server's state, and changes nothing. */
  lemma ShortAnswer(word: string, more: string, server: Server, size: int)
    requires size > 0 && Free(word, ':') && Follows(more) && |Split(word + more, ':')| < 3
    ensures Answer(Split(word + more, ':'), server, size)
            == if word == "LIST" || word == "FETCH" then Malformed else Ignored
    ensures AfterRequest(Split(word + more, ':'), server, size) == server
  {
    FirstOfSplit(word, more);
    FetchIsNotList();
    hide Good, Split;
  }

  lemma FirstOfSplit(word: string, more: string)
    requires Free(word, ':') && Follows(more)
    ensures Split(word + more, ':') != [] && Split(word + more, ':')[0] == word
  {
    FirstPiece(word, more);
    if more == "" { assert word + more == word; }
    hide Pieces;
  }

  /** A worker takes any entry apart by its first four pieces, and fails exactly when there are fewer. */
  lemma InfoOfText(path: string, addr: string, port: string, id: string, more: string)
    requires Free(path, ':') && Free(addr, ':') && Free(port, ':') && Free(id, ':')
    requires Follows(more) && id + more != ""
    ensures InfoOf(Split(path + ":" + addr + ":" + port + ":" + id + more, ':'))
            == Some(Info(path, addr, Read(port), Read(id)))
  {
    var text := path + ":" + addr + ":" + port + ":" + id + more;
    assert text == path + [':'] + (addr + [':'] + (port + [':'] + (id + more)));
    PiecesCons(path, ':', addr + [':'] + (port + [':'] + (id + more)));
    PiecesCons(addr, ':', port + [':'] + (id + more));
    PiecesCons(port, ':', id + more);
    FirstPiece(id, more);
    LastOfText(path + ":" + addr + ":" + port + ":", id, more);
    hide Pieces, Read;
  }

  // ---- The two models of a request --------------------------------------------------------------------

  /** What the hand-off's model sees of a request. */
  function EventOf(cmd: seq<string>, size: int): Event
    requires size > 0
  {
    if NeedsTable(cmd) then Hashed(Throws(cmd, size)) else Other
  }

  /**
   It is the same: the hand-off loses the mutex exactly where a request throws, and a worker waits
   for it exactly where one is blocked.
   */
  lemma EventIsAnswer(cmd: seq<string>, server: Server, size: int, w: Worker, sh: Shared)
    requires size > 0 && w.pc == Receive
    ensures var w' := WorkerNext(w, sh, EventOf(cmd, size));
            && (Doomed(w') <==> Throws(cmd, size))
            && (w'.pc == LockH <==> Answer(cmd, server.(lost := true), size) == Blocked)
            && (!server.lost ==> (Doomed(w') <==> Answer(cmd, server, size) == Thrown))
            && (AfterRequest(cmd, server, size).lost <==> server.lost || Doomed(w'))
  {
    assert "FETCH" != "LIST" by { assert "FETCH"[0] != "LIST"[0]; }
    hide Good;
  }

  // ---- From end to end ---------------------------------------------------------------------------

  /** The requests of the mirror servers: a manager's LIST, and a worker's FETCH. */
  datatype Request = ListRequest(id: int, delay: int) | FetchRequest(path: string, id: int)

  function RequestText(r: Request): string {
    match r
    case ListRequest(id, delay) => ListText(id, delay)
    case FetchRequest(path, id) => FetchText(path, id)
  }

  /** The delay that `id` registered last. */
  function LastDelay(rs: seq<Request>, id: int): Option<int> {
    if rs == [] then None
    else
      var r := rs[|rs| - 1];
      if r.ListRequest? && r.id == id then Some(r.delay) else LastDelay(rs[..|rs| - 1], id)
  }

  predicate ColonFree(r: Request) {
    r.FetchRequest? ==> Free(r.path, ':')
  }

  predicate AllColonFree(rs: seq<Request>) {
    forall k :: 0 <= k < |rs| ==> ColonFree(rs[k])
  }

  /** A FETCH whose ID has no bucket. */
  predicate BadFetch(r: Request, size: int)
    requires size > 0
  {
    r.FetchRequest? && !Good(Print(r.id), size)
  }

  predicate AnyBad(rs: seq<Request>, size: int)
    requires size > 0
  {
    exists k :: 0 <= k < |rs| && BadFetch(rs[k], size)
  }

  lemma LastDelayAt(rs: seq<Request>, id: int, delay: int, k: nat)
    requires k < |rs| && rs[k] == ListRequest(id, delay)
    requires forall j, d :: k < j < |rs| ==> rs[j] != ListRequest(id, d)
    ensures LastDelay(rs, id) == Some(delay)
    decreases |rs|
  {
    var most := rs[..|rs| - 1];
    if k < |most| {
      var r := rs[|rs| - 1];
      assert r.ListRequest? ==> r == ListRequest(r.id, r.delay);
      LastDelayAt(most, id, delay, k);
    }
  }

  lemma NoDelay(rs: seq<Request>, id: int)
    requires forall j, d :: 0 <= j < |rs| ==> rs[j] != ListRequest(id, d)
    ensures LastDelay(rs, id) == None
  {
    if rs != [] {
      var r := rs[|rs| - 1];
      assert r.ListRequest? ==> r == ListRequest(r.id, r.delay);
      NoDelay(rs[..|rs| - 1], id);
    }
  }

  /** The server once it has handled `rs`, starting from an empty table. */
  function After(rs: seq<Request>, size: int): Server
    requires size > 0
  {
    if rs == [] then Server(map[], false)
    else AfterRequest(Split(RequestText(rs[|rs| - 1]), ':'), After(rs[..|rs| - 1], size), size)
  }

  lemma FetchIsNotList()
    ensures "FETCH" != "LIST"
  {
    assert "FETCH"[0] != "LIST"[0];
  }

  /** What one request of a mirror server does to the content server. */
  lemma RequestDoes(r: Request, server: Server, size: int)
    requires size > 0 && ColonFree(r)
    ensures AfterRequest(Split(RequestText(r), ':'), server, size)
            == if server.lost then server
               else if BadFetch(r, size) then server.(lost := true)
               else if r.ListRequest? && Good(Print(r.id), size)
                 then server.(delays := server.delays[Print(r.id) := r.delay])
               else server
  {
    hide Split, Print, Good, Read;
    FetchIsNotList();
    match r
    case ListRequest(id, delay) =>
      ListSplits(id, delay);
      PrintedIsFree(delay);
    case FetchRequest(path, id) => FetchSplits(path, id);
  }

  lemma AnyBadSnoc(rs: seq<Request>, size: int)
    requires size > 0 && rs != []
    ensures AnyBad(rs, size) <==> AnyBad(rs[..|rs| - 1], size) || BadFetch(rs[|rs| - 1], size)
  {
    hide BadFetch;
    var most := rs[..|rs| - 1];
    if k :| 0 <= k < |most| && BadFetch(most[k], size) { assert BadFetch(rs[k], size); }
    if k :| 0 <= k < |rs| && BadFetch(rs[k], size) { assert k < |most| ==> BadFetch(most[k], size); }
  }

  /** The mutex is lost if and only if a FETCH with a bad ID came. */
  lemma {:induction false} LostExactly(rs: seq<Request>, size: int)
    requires size > 0 && AllColonFree(rs)
    ensures After(rs, size).lost <==> AnyBad(rs, size)
  {
    hide Split, AfterRequest, BadFetch, AnyBad, RequestText;
    if rs == [] {
      NoneBad(size);
    } else {
      LostExactly(rs[..|rs| - 1], size);
      RequestDoes(rs[|rs| - 1], After(rs[..|rs| - 1], size), size);
      AnyBadSnoc(rs, size);
    }
  }

  lemma NoneBad(size: int)
    requires size > 0
    ensures !AnyBad([], size)
  {
  }

  /** Until then, the table holds for each good ID the delay that it registered last. */
  lemma {:induction false} DelaysAreLast(rs: seq<Request>, size: int, id: int)
    requires size > 0 && Good(Print(id), size) && AllColonFree(rs) && !AnyBad(rs, size)
    ensures var m := After(rs, size).delays;
            if LastDelay(rs, id).Some? then Print(id) in m && m[Print(id)] == LastDelay(rs, id).value
              else Print(id) !in m
  {
    hide Split, Print, Good, AfterRequest, BadFetch, AnyBad, RequestText;
    if rs != [] {
      var most := rs[..|rs| - 1];
      var r := rs[|rs| - 1];
      AnyBadSnoc(rs, size);
      DelaysAreLast(most, size, id);
      LostExactly(most, size);
      RequestDoes(r, After(most, size), size);
      if r.ListRequest? && r.id != id && Print(r.id) == Print(id) { PrintInjective(r.id, id); }
    }
  }

  /** A LIST of a mirror server gets the list, unless the mutex is lost. */
  lemma ListAnswer(id: int, delay: int, server: Server, size: int)
    requires size > 0
    ensures Answer(Split(ListText(id, delay), ':'), server, size) == if server.lost then Blocked else Listing
  {
    hide Split, Print, Good;
    FetchIsNotList();
    ListSplits(id, delay);
  }

  /** A FETCH of a mirror server, by the server's state. */
  lemma FetchAnswer(path: string, id: int, server: Server, size: int)
    requires size > 0 && Free(path, ':')
    ensures Answer(Split(FetchText(path, id), ':'), server, size)
            == if server.lost then Blocked
               else if !Good(Print(id), size) then Thrown
               else if Print(id) !in server.delays then UnknownId
               else Sending(server.delays[Print(id)], path)
  {
    hide Split, Print, Good;
    FetchIsNotList();
    FetchSplits(path, id);
  }

  /**
   The answer to a FETCH after any requests, exactly: none if an earlier FETCH carried an ID
   without a bucket, the exception if its own ID has none, unknown if that ID never registered, and
   else its own path with the delay that the ID registered last.
   */
  lemma FetchAfterRequests(rs: seq<Request>, size: int, path: string, id: int)
    requires size > 0 && Free(path, ':') && AllColonFree(rs)
    ensures Answer(Split(FetchText(path, id), ':'), After(rs, size), size)
            == if AnyBad(rs, size) then Blocked
               else if !Good(Print(id), size) then Thrown
               else if LastDelay(rs, id).None? then UnknownId
               else Sending(LastDelay(rs, id).value, path)
  {
    hide Split, Print, Good, After, LastDelay, AnyBad, Answer, FetchText;
    LostExactly(rs, size);
    FetchAnswer(path, id, After(rs, size), size);
    if !AnyBad(rs, size) && Good(Print(id), size) {
      DelaysAreLast(rs, size, id);
    }
  }

  /**
   A FETCH gets its path and its last registered delay if and only if its ID has a bucket and is
   registered, and no earlier FETCH carried an ID without one.
   */
  lemma FetchGetsLastDelay(rs: seq<Request>, size: int, path: string, id: int)
    requires size > 0 && Free(path, ':') && AllColonFree(rs)
    ensures var answer := Answer(Split(FetchText(path, id), ':'), After(rs, size), size);
            && (answer.Sending? <==> Good(Print(id), size) && LastDelay(rs, id).Some? && !AnyBad(rs, size))
            && (answer.Sending? ==> answer == Sending(LastDelay(rs, id).value, path))
  {
    hide Split, Print, Good, After, LastDelay, AnyBad, Answer, FetchText;
    FetchAfterRequests(rs, size, path, id);
  }

  /** What the mirror servers' requests are answered, after `rs`. */
  function Expected(rs: seq<Request>, r: Request, size: int): Response
    requires size > 0
  {
    if AnyBad(rs, size) then Blocked
    else if r.ListRequest? then Listing
    else if !Good(Print(r.id), size) then Thrown
    else if LastDelay(rs, r.id).None? then UnknownId
    else Sending(LastDelay(rs, r.id).value, r.path)
  }

  lemma AnswerIsExpected(rs: seq<Request>, r: Request, size: int)
    requires size > 0 && AllColonFree(rs) && ColonFree(r)
    ensures Answer(Split(RequestText(r), ':'), After(rs, size), size) == Expected(rs, r, size)
  {
    hide Split, Print, Good, After, LastDelay, AnyBad, Answer, FetchText, ListText;
    match r
    case ListRequest(id, delay) =>
      LostExactly(rs, size);
      ListAnswer(id, delay, After(rs, size), size);
    case FetchRequest(path, id) => FetchAfterRequests(rs, size, path, id);
  }

  /**
   The server's answers to any sequence of requests that it receives whole (content_manager.cpp:81
   reads at most 1023 bytes), starting from an empty table.
   */
  method ServeAll(rs: seq<Request>, size: int) returns (table: HashTable<int>, lost: bool, answers: seq<Response>)
    requires size > 0 && AllColonFree(rs)
    requires forall k :: 0 <= k < |rs| ==> Plain(RequestText(rs[k])) && |RequestText(rs[k])| <= 1023
    ensures fresh(table) && table.Valid() && table.size == size && Server(table.contents, lost) == After(rs, size)
    ensures |answers| == |rs|
    ensures forall k :: 0 <= k < |rs| ==> answers[k] == Expected(rs[..k], rs[k], size)
  {
    hide Split, Answer, AfterRequest, RequestText, Expected;
    table := new HashTable<int>(size);
    answers := [];
    lost := false;
    for i := 0 to |rs|
      invariant fresh(table) && fresh(table.keys) && fresh(table.entries) && table.Valid() && table.size == size
      invariant Server(table.contents, lost) == After(rs[..i], size) && |answers| == i
      invariant forall k :: 0 <= k < i ==> answers[k] == Expected(rs[..k], rs[k], size)
    {
      AnswerIsExpected(rs[..i], rs[i], size);
      assert rs[..i + 1][..i] == rs[..i];
      var text := RequestText(rs[i]);
      var buffer := Literal(text);
      var msg := new MyString(buffer, text);
      var r;
      r, lost := Serve(table, lost, msg);
      answers := answers + [r];
    }
    assert rs[..|rs|] == rs;
  }

  /** A worker's way from a queue entry to its FETCH (worker.cpp:99-114 and 182-189). */
  method RequestFor(entry: MyString) returns (m: Option<MyString>)
    requires entry.Valid()
    ensures var info := InfoOf(Split(entry.text, ':'));
            && (m.None? <==> |Split(entry.text, ':')| < 4)
            && (m.Some? ==> m.value.Valid() && m.value.text == FetchText(info.value.path, info.value.id))
  {
    var info := GetInfo(entry);
    if info.None? { return None; }
    PiecesPlain(entry.text);
    var buffer := Literal(info.value.path);
    var path := new MyString(buffer, info.value.path);
    var fetch := BuildFetch(path, info.value.id);
    return Some(fetch);
  }

  lemma {:induction false} PiecesKeepPlain(s: string)
    requires Plain(s)
    ensures forall i :: 0 <= i < |Pieces(s, ':')| ==> Plain(Pieces(s, ':')[i])
  {
    if s != "" { PiecesKeepPlain(s[..|s| - 1]); }
  }

  lemma PiecesPlain(s: string)
    requires Plain(s)
    ensures forall i :: 0 <= i < |Split(s, ':')| ==> Plain(Split(s, ':')[i])
  {
    PiecesKeepPlain(s);
    hide Plain;
  }

  /**
   From the manager to the content server: the entry that a manager queues, taken apart by a
   worker and sent on as a FETCH, is answered with the manager's path and the delay that its ID
   registered last, if and only if that ID has a bucket and is registered and no earlier FETCH
   carried an ID without one.
   */
  lemma EndToEnd(rs: seq<Request>, size: int, path: string, addr: string, port: int, id: int)
    requires size > 0 && Free(path, ':') && Free(addr, ':') && AllColonFree(rs)
    ensures var info := InfoOf(Split(EntryText(path, addr, port, id), ':'));
            && info.Some?
            && var answer := Answer(Split(FetchText(info.value.path, info.value.id), ':'), After(rs, size), size);
               && (answer.Sending? <==> Good(Print(id), size) && LastDelay(rs, id).Some? && !AnyBad(rs, size))
               && (answer.Sending? ==> answer == Sending(LastDelay(rs, id).value, path))
  {
    EntryRoundTrip(path, addr, port, id);
    FetchGetsLastDelay(rs, size, path, id);
    hide *;
  }

  /** With one bad FETCH first, a later FETCH of a registered ID is never answered. */
  lemma BadFetchSilences(id: int, path: string)
    requires Free(path, ':')
    ensures Answer(Split(FetchText(path, id), ':'), After([FetchRequest("x", 1039201056), ListRequest(id, 7)], 30), 30)
      == Blocked
  {
    var rs := [FetchRequest("x", 1039201056), ListRequest(id, 7)];
    BadId();
    assert BadFetch(rs[0], 30) && AllColonFree(rs);
    hide *;
    FetchAfterRequests(rs, 30, path, id);
    AnyBadAt(rs, 30, 0);
  }

  lemma AnyBadAt(rs: seq<Request>, size: int, k: nat)
    requires size > 0 && k < |rs| && BadFetch(rs[k], size)
    ensures AnyBad(rs, size)
  {
  }

  // ---- The IDs that go wrong ---------------------------------------------------------------------

  /** The values that the hash takes along a key. */
  predicate Trace(key: string, hs: seq<int>) {
    |hs| == |key| + 1 && hs[0] == 5381
    && forall i :: 0 <= i < |key| ==> hs[i + 1] == Wrap(33 * hs[i] + CharValue(key[i]))
  }

  lemma {:induction false} TraceEnds(key: string, hs: seq<int>)
    requires Trace(key, hs)
    ensures Accumulated(key) == hs[|key|]
  {
    if key != "" {
      TraceEnds(key[..|key| - 1], hs[..|key|]);
    }
  }

  lemma BadIdPrints()
    ensures Print(1039201056) == "1039201056"
  {
    assert PrintNat(1) == "1";
    assert PrintNat(10) == "10";
    assert PrintNat(103) == "103";
    assert PrintNat(1039) == "1039";
    assert PrintNat(10392) == "10392";
    assert PrintNat(103920) == "103920";
    assert PrintNat(1039201) == "1039201";
    assert PrintNat(10392010) == "10392010";
    assert PrintNat(103920105) == "103920105";
    assert PrintNat(1039201056) == "1039201056";
  }

  const BAD_HASHES := [5381, 177622, 5861574, 193431993, 2088288530, 194044804, 2108511284, 861395685, -1638713419,
    1757032074, -TWO31]

  lemma BadTrace()
    ensures Trace("1039201056", BAD_HASHES)
  {
    var key, hs := "1039201056", BAD_HASHES;
    hide CharValue;
    BadKeyValues();
    assert hs[1] == Wrap(33 * hs[0] + CharValue(key[0]));
    assert hs[2] == Wrap(33 * hs[1] + CharValue(key[1]));
    assert hs[3] == Wrap(33 * hs[2] + CharValue(key[2]));
    assert hs[4] == Wrap(33 * hs[3] + CharValue(key[3]));
    assert hs[5] == Wrap(33 * hs[4] + CharValue(key[4]));
    assert hs[6] == Wrap(33 * hs[5] + CharValue(key[5]));
    assert hs[7] == Wrap(33 * hs[6] + CharValue(key[6]));
    assert hs[8] == Wrap(33 * hs[7] + CharValue(key[7]));
    assert hs[9] == Wrap(33 * hs[8] + CharValue(key[8]));
    assert hs[10] == Wrap(33 * hs[9] + CharValue(key[9]));
    hide Wrap;
  }

  lemma BadKeyValues()
    ensures CharValue('0') == 48 && CharValue('1') == 49 && CharValue('2') == 50 && CharValue('3') == 51
    ensures CharValue('5') == 53 && CharValue('6') == 54 && CharValue('9') == 57
  {
  }

  /**
   There is such an ID, and a positive one: its hash is -2^31, so it is not registered, and its
   FETCH throws.
   */
  lemma BadId()
    ensures !Good(Print(1039201056), 30)
  {
    assert BAD_HASHES[10] == -TWO31;
    hide Trace, Print, Accumulated, ClosedForm, Good;
    BadIdPrints();
    BadTrace();
    TraceEnds("1039201056", BAD_HASHES);
    DefaultSize("1039201056");
  }
}
