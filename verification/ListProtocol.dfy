/**
 The LIST exchange (content_manager.cpp:160-191 against mirror_manager.cpp:88-106, with the
 handshakes of help_func.cpp) as a transition system over two byte channels.  A receive takes
 what is there, up to its size, and waits only while nothing is.
 */
module ListProtocol {
  import opened Threads
  import opened Decimal

  /** BLOCK_STR_SIZE (constants.h:18). */
  const BLOCK: nat := 1023

  // ---- The two sides ------------------------------------------------------------------------

  datatype ServerPc =
    | SendCount
    | AwaitCount
    | SendLength(i: nat)
    | AwaitLength(i: nat)
    | SendPart(i: nat, part: nat, offs: nat)
    | AwaitPart(i: nat, part: nat, offs: nat)
    | Served

  /**
   In `RecvName` and `OkName`, the variables of `read_fname`: `left` is its `max_bytes`.
   `Overflow`: a receive has written past the 1024 bytes of its buffer, and what follows is
   undefined.
   */
  datatype ClientPc =
    | RecvCount
    | OkCount(n: int)
    | RecvLength(file: nat, n: int)
    | OkLength(file: nat, n: int, max: int)
    | RecvName(file: nat, n: int, max: int, left: int, overall: int, buf: string)
    | OkName(file: nat, n: int, max: int, left: int, overall: int, buf: string)
    | Listed
    | Overflow

  /** `got`: the names the client has read. */
  datatype State = State(server: ServerPc, client: ClientPc, toClient: string, toServer: string, got: seq<string>)

  const START := State(SendCount, RecvCount, "", "", [])

  function Min(a: int, b: int): int {
    if a < b then a else b
  }

  /** The bytes of the next part of a name (content_manager.cpp:182-183). */
  function PartLength(name: string, offs: nat): nat
    requires offs <= |name|
  {
    Min(|name| - offs, BLOCK)
  }

  function NextFile(list: seq<string>, i: nat): ServerPc {
    if i < |list| then SendLength(i) else Served
  }

  /** `recv_ok` reads two bytes (help_func.cpp:36-43). */
  function AfterOk(s: State, next: ServerPc): Option<State> {
    if s.toServer == "" then None else Some(s.(server := next, toServer := s.toServer[Min(2, |s.toServer|)..]))
  }

  /** `content_manager::_do_list`. */
  function ServerStep(list: seq<string>, s: State): Option<State> {
    match s.server
    case SendCount => Some(s.(server := AwaitCount, toClient := s.toClient + Print(|list|)))
    case AwaitCount => AfterOk(s, NextFile(list, 0))
    case SendLength(i) =>
      if i >= |list| then None
      else Some(s.(server := AwaitLength(i), toClient := s.toClient + Print(|list[i]|)))
    case AwaitLength(i) => AfterOk(s, SendPart(i, 0, 0))
    case SendPart(i, part, offs) =>
      if i >= |list| || offs > |list[i]| then None
      else Some(s.(server := AwaitPart(i, part, offs),
                   toClient := s.toClient + list[i][offs..offs + PartLength(list[i], offs)]))
    case AwaitPart(i, part, offs) =>
      if i >= |list| || offs > |list[i]| then None
      else if part + 1 < |list[i]| / BLOCK + 1
      then AfterOk(s, SendPart(i, part + 1, offs + PartLength(list[i], offs)))
      else AfterOk(s, NextFile(list, i + 1))
    case Served => None
  }

  function NextName(file: nat, n: int): ClientPc {
    if file < n then RecvLength(file, n) else Listed
  }

  /** `mirror_manager::run` reading the list, with `hf::read_fname`. */
  function ClientStep(s: State): Option<State> {
    match s.client
    case RecvCount =>
      if s.toClient == "" then None
      else
        var k := Min(BLOCK, |s.toClient|);
        Some(s.(client := OkCount(Read(s.toClient[..k])), toClient := s.toClient[k..]))
    case OkCount(n) => Some(s.(client := NextName(0, n), toServer := s.toServer + "OK"))
    case RecvLength(file, n) =>
      if s.toClient == "" then None
      else
        var k := Min(BLOCK, |s.toClient|);
        Some(s.(client := OkLength(file, n, Read(s.toClient[..k])), toClient := s.toClient[k..]))
    case OkLength(file, n, max) =>
      Some(s.(client := RecvName(file, n, max, Min(max, BLOCK), 0, ""), toServer := s.toServer + "OK"))
    case RecvName(file, n, max, left, overall, buf) =>
      // the room is cast to 16 bits; a receive of nothing does not wait here
      var room := (left - overall) % 0x1_0000;
      if room > 0 && s.toClient == "" then None
      else
        var k := Min(room, |s.toClient|);
        var next := OkName(file, n, max, left - overall, overall + k, buf + s.toClient[..k]);
        Some(s.(client := if k <= BLOCK then next else Overflow, toClient := s.toClient[k..]))
    case OkName(file, n, max, left, overall, buf) =>
      if overall < max
      then Some(s.(client := RecvName(file, n, max, left, overall, buf), toServer := s.toServer + "OK"))
      else Some(s.(client := NextName(file + 1, n), toServer := s.toServer + "OK", got := s.got + [buf]))
    case Listed => None
    case Overflow => None
  }

  datatype Side = Server | Client

  function Step(list: seq<string>, s: State, side: Side): Option<State> {
    if side == Server then ServerStep(list, s) else ClientStep(s)
  }

  function Exec(list: seq<string>, s: State, sides: seq<Side>): Option<State> {
    if sides == [] then Some(s)
    else
      match Exec(list, s, sides[..|sides| - 1])
      case None => None
      case Some(t) => Step(list, t, sides[|sides| - 1])
  }

  ghost predicate Leads(list: seq<string>, s: State, t: State) {
    exists sides :: Exec(list, s, sides) == Some(t)
  }

  predicate CanMove(list: seq<string>, s: State) {
    ServerStep(list, s).Some? || ClientStep(s).Some?
  }

  /** The client holds the server's list, and nothing is unread. */
  function Complete(list: seq<string>): State {
    State(Served, Listed, "", "", list)
  }

  // ---- The lengths that matter -----------------------------------------------------------------

  /** What the file system and `int` promise: names are not empty, counts fit. */
  predicate Names(list: seq<string>) {
    |list| < 0x8000_0000 && forall i :: 0 <= i < |list| ==> 1 <= |list[i]| < 0x8000_0000
  }

  /** The lengths on which the two sides agree how many parts and OKs there are. */
  predicate Whole(length: nat) {
    length < BLOCK || length == 2 * BLOCK
  }

  predicate AllWhole(list: seq<string>, m: nat) {
    forall i :: 0 <= i < m && i < |list| ==> Whole(|list[i]|)
  }

  /** On the first `m` names the two sides stay together, up to the first that fills one block. */
  predicate Fit(list: seq<string>, m: nat) {
    Names(list) && m <= |list| && forall i :: 0 <= i < m ==> Whole(|list[i]|) || |list[i]| == BLOCK
  }

  // ---- The lockstep ------------------------------------------------------------------------------

  /** No name before the `i`-th fills its block. */
  predicate NoneFull(list: seq<string>, i: nat) {
    forall j :: 0 <= j < i && j < |list| ==> |list[j]| != BLOCK
  }

  predicate Silent(s: State) {
    s.toClient == "" && s.toServer == ""
  }

  /** What the client is at, and what is unread, while the server waits for an OK. */
  predicate Handshake(s: State, before: ClientPc, message: string, between: ClientPc, after: ClientPc) {
    || (s.client == before && s.toClient == message && s.toServer == "")
    || (s.client == between && Silent(s))
    || (s.client == after && s.toClient == "" && s.toServer == "OK")
  }

  /** Where `read_fname` begins. */
  function FirstRecv(list: seq<string>, i: nat): ClientPc
    requires i < |list|
  {
    RecvName(i, |list|, |list[i]|, Min(|list[i]|, BLOCK), 0, "")
  }

  /** A name that fills its block: the server sends an empty part and waits for an OK that never comes. */
  predicate Stalled(list: seq<string>, s: State, i: nat, part: nat, offs: nat) {
    && i < |list| && part == 1 && offs == BLOCK == |list[i]|
    && s.client == NextName(i + 1, |list|) && Silent(s) && s.got == list[..i + 1]
  }

  // A name of two full blocks.  The client reads the first block, then nothing, then the
  // second; the server sends the first block, the second, then nothing.  Three OKs either way.

  function LongClient(list: seq<string>, i: nat, c: nat): ClientPc
    requires i < |list| && |list[i]| == 2 * BLOCK
  {
    var n, max, half := |list|, 2 * BLOCK, list[i][..BLOCK];
    if c == 0 then RecvName(i, n, max, BLOCK, 0, "")
    else if c == 1 then OkName(i, n, max, BLOCK, BLOCK, half)
    else if c == 2 then RecvName(i, n, max, BLOCK, BLOCK, half)
    else if c == 3 then OkName(i, n, max, 0, BLOCK, half)
    else if c == 4 then RecvName(i, n, max, 0, BLOCK, half)
    else if c == 5 then OkName(i, n, max, 0 - BLOCK, max, list[i])
    else NextName(i + 1, n)
  }

  /** The bytes read and sent when the client is at `c` and the server at `q` (`SendPart` even). */
  function BytesRead(c: nat): nat {
    if c == 0 then 0 else if c <= 4 then BLOCK else 2 * BLOCK
  }

  function BytesSent(q: nat): nat {
    if q == 0 then 0 else if q <= 2 then BLOCK else 2 * BLOCK
  }

  function Oks(k: nat): string {
    if k == 0 then "" else "OK" + Oks(k - 1)
  }

  predicate Long(list: seq<string>, s: State, i: nat, q: nat, c: nat) {
    && i < |list| && |list[i]| == 2 * BLOCK && q <= 5 && c <= 6
    && s.client == LongClient(list, i, c)
    && BytesRead(c) <= BytesSent(q) && s.toClient == list[i][BytesRead(c)..BytesSent(q)]
    && q / 2 <= c / 2 && s.toServer == Oks(c / 2 - q / 2)
    && s.got == list[..if c == 6 then i + 1 else i]
  }

  /** The server is in a name of two blocks. */
  ghost predicate InLong(list: seq<string>, s: State, i: nat, part: nat, offs: nat, q: nat) {
    part <= 2 && offs == part * BLOCK && exists c :: Long(list, s, i, q, c)
  }

  /** Where the two sides can be together, as long as the server is in the first `m` names. */
  ghost predicate Joint(list: seq<string>, m: nat, s: State) {
    var n := |list|;
    match s.server
    case SendCount => s == START
    case AwaitCount => s.got == [] && Handshake(s, RecvCount, Print(n), OkCount(n), NextName(0, n))
    case SendLength(i) =>
      i <= m && i < n && NoneFull(list, i) && s.got == list[..i] && s.client == RecvLength(i, n) && Silent(s)
    case AwaitLength(i) =>
      && i < m && i < n && NoneFull(list, i) && s.got == list[..i]
      && Handshake(s, RecvLength(i, n), Print(|list[i]|), OkLength(i, n, |list[i]|), FirstRecv(list, i))
    case SendPart(i, part, offs) =>
      && i < m && i < n && NoneFull(list, i)
      && (|| NameBegins(list, s, i, part, offs)
          || Stalled(list, s, i, part, offs)
          || InLong(list, s, i, part, offs, 2 * part))
    case AwaitPart(i, part, offs) =>
      && i < m && i < n && NoneFull(list, i)
      && (|| (part == offs == 0 && |list[i]| <= BLOCK && NameHandshake(list, s, i))
          || Stalled(list, s, i, part, offs)
          || InLong(list, s, i, part, offs, 2 * part + 1))
    case Served => m >= n && NoneFull(list, n) && s == Complete(list)
  }

  predicate NameBegins(list: seq<string>, s: State, i: nat, part: nat, offs: nat)
    requires i < |list|
  {
    && part == offs == 0 && |list[i]| <= BLOCK
    && s.got == list[..i] && s.client == FirstRecv(list, i) && Silent(s)
  }

  predicate NameHandshake(list: seq<string>, s: State, i: nat)
    requires i < |list|
  {
    var name := list[i];
    var n := |list|;
    && Handshake(s, FirstRecv(list, i), name, OkName(i, n, |name|, |name|, |name|, name), NextName(i + 1, n))
    && s.got == (if s.client == NextName(i + 1, n) then list[..i + 1] else list[..i])
  }

  lemma PrintIsShort(x: nat)
    requires x < 0x8000_0000
    ensures 0 < |Print(x)| <= 10 && Read(Print(x)) == x
  {
    PrintDigits(x);
    assert Pow10(10) == 10_000_000_000 by { assert Pow10(5) == 100_000; }
    if |Print(x)| > 10 { PowGrows(10, |Print(x)| - 1); }
    ReadPrint(x, "");
    assert Print(x) + "" == Print(x);
  }

  lemma WholeMessage(message: string)
    ensures message[..|message|] == message && message[|message|..] == ""
    ensures "" + message == message
  {
  }

  // ---- The server's steps ----------------------------------------------------------------------

  lemma ServerSendsNumber(list: seq<string>, m: nat, s: State, s': State)
    requires Fit(list, m) && Joint(list, m, s) && ServerStep(list, s) == Some(s')
    requires s.server == SendCount || (s.server.SendLength? && s.server.i < m)
    ensures Joint(list, m, s')
  {
    hide Print, NoneFull, Stalled, InLong;
  }

  lemma ServerSendsPart(list: seq<string>, m: nat, s: State, s': State)
    requires Fit(list, m) && Joint(list, m, s) && ServerStep(list, s) == Some(s')
    requires s.server.SendPart? && !InLong(list, s, s.server.i, s.server.part, s.server.offs, 2 * s.server.part)
    ensures Joint(list, m, s')
  {
    if s.server.offs == 0 {
      WholeMessage(list[s.server.i]);
    }
    hide Print, NoneFull, InLong;
  }

  lemma ServerSendsLong(list: seq<string>, s: State, s': State, i: nat, part: nat, c: nat)
    requires s.server == SendPart(i, part, part * BLOCK) && part <= 2 && Long(list, s, i, 2 * part, c)
    requires ServerStep(list, s) == Some(s')
    ensures s'.server == AwaitPart(i, part, part * BLOCK) && Long(list, s', i, 2 * part + 1, c)
  {
    var name := list[i];
    var from, to, end := BytesRead(c), BytesSent(2 * part), BytesSent(2 * part + 1);
    assert to == part * BLOCK && end == part * BLOCK + PartLength(name, part * BLOCK);
    hide Oks, LongClient, BytesRead, BytesSent;
    assert name[from..to] + name[to..end] == name[from..end];
  }

  lemma ServerReceivesOk(list: seq<string>, m: nat, s: State, s': State)
    requires Fit(list, m) && Joint(list, m, s) && ServerStep(list, s) == Some(s')
    requires s.server == AwaitCount || s.server.AwaitLength?
    ensures Joint(list, m, s')
  {
    NotSilent(list);
    WholeMessage("OK");
    if s.server.AwaitLength? {
      if |list[s.server.i]| == 2 * BLOCK {
        LongBegins(list, s', s.server.i);
      }
    }
    hide Print, NoneFull, NameHandshake, Stalled, Long;
  }

  lemma LongBegins(list: seq<string>, s: State, i: nat)
    requires i < |list| && |list[i]| == 2 * BLOCK
    ensures s.client == FirstRecv(list, i) && Silent(s) && s.got == list[..i] ==> InLong(list, s, i, 0, 0, 0)
  {
    if s.client == FirstRecv(list, i) && Silent(s) && s.got == list[..i] {
      assert list[i][0..0] == "";
      assert Long(list, s, i, 0, 0);
    }
  }

  /** A message that is waited for is not empty. */
  lemma NotSilent(list: seq<string>)
    requires Names(list)
    ensures Print(|list|) != ""
    ensures forall i :: 0 <= i < |list| ==> Print(|list[i]|) != "" && list[i] != ""
  {
  }

  lemma ServerEndsName(list: seq<string>, m: nat, s: State, s': State)
    requires Fit(list, m) && Joint(list, m, s) && ServerStep(list, s) == Some(s')
    requires s.server.AwaitPart? && !InLong(list, s, s.server.i, s.server.part, s.server.offs, 2 * s.server.part + 1)
    ensures Joint(list, m, s')
  {
    WholeMessage("OK");
    hide Print, InLong;
  }

  lemma ServerReceivesLong(list: seq<string>, s: State, s': State, i: nat, part: nat, c: nat)
    requires s.server == AwaitPart(i, part, part * BLOCK) && part <= 2 && Long(list, s, i, 2 * part + 1, c)
    requires ServerStep(list, s) == Some(s')
    ensures s' == s.(server := s'.server, toServer := Oks(c / 2 - part - 1)) && c / 2 > part
    ensures part < 2 ==> s'.server == SendPart(i, part + 1, (part + 1) * BLOCK) && Long(list, s', i, 2 * part + 2, c)
    ensures part == 2 ==> s'.server == NextFile(list, i + 1) && Silent(s') && c == 6
  {
    var k := c / 2 - part;
    assert Oks(0) == "";
    assert ("OK" + Oks(k - 1))[2..] == Oks(k - 1);
    assert |Oks(k)| >= 2;
    if part == 2 {
      assert list[i][2 * BLOCK..2 * BLOCK] == "";
    }
    hide LongClient;
  }

  lemma ServerKeepsLong(list: seq<string>, m: nat, s: State, s': State, i: nat, c: nat)
    requires Fit(list, m) && Joint(list, m, s) && ServerStep(list, s) == Some(s')
    requires || (s.server.SendPart? && Long(list, s, i, 2 * s.server.part, c))
             || (s.server.AwaitPart? && Long(list, s, i, 2 * s.server.part + 1, c))
    requires i == s.server.i && s.server.part <= 2 && s.server.offs == s.server.part * BLOCK
    ensures Joint(list, m, s')
  {
    var part := s.server.part;
    assert i < m && i < |list| && NoneFull(list, i);
    hide ServerStep, Joint, Long, NoneFull, Fit;
    if s.server.SendPart? {
      ServerSendsLong(list, s, s', i, part, c);
      JointInLong(list, m, s', i, part, c);
    } else {
      ServerReceivesLong(list, s, s', i, part, c);
      if part < 2 {
        JointInLong(list, m, s', i, part + 1, c);
      } else {
        LongEnds(list, s, i, 5);
        JointAtNext(list, m, s', i);
      }
    }
  }

  lemma JointInLong(list: seq<string>, m: nat, s: State, i: nat, part: nat, c: nat)
    requires i < m && i < |list| && NoneFull(list, i) && part <= 2
    requires || (s.server == SendPart(i, part, part * BLOCK) && Long(list, s, i, 2 * part, c))
             || (s.server == AwaitPart(i, part, part * BLOCK) && Long(list, s, i, 2 * part + 1, c))
    ensures Joint(list, m, s)
  {
    hide Long, NoneFull;
  }

  lemma JointAtNext(list: seq<string>, m: nat, s: State, i: nat)
    requires i < m <= |list| && NoneFull(list, i) && |list[i]| != BLOCK
    requires s == State(NextFile(list, i + 1), NextName(i + 1, |list|), "", "", list[..i + 1])
    ensures Joint(list, m, s)
  {
    assert i + 1 == |list| ==> list[..i + 1] == list;
  }

  lemma LongEnds(list: seq<string>, s: State, i: nat, q: nat)
    ensures Long(list, s, i, q, 6) ==>
      s.client == NextName(i + 1, |list|) && s.got == list[..i + 1] && |list[i]| != BLOCK
  {
  }

  lemma ServerKeepsJoint(list: seq<string>, m: nat, s: State, s': State)
    requires Fit(list, m) && Joint(list, m, s) && ServerStep(list, s) == Some(s') && !s.server.Served?
    requires s.server.SendLength? ==> s.server.i < m
    ensures Joint(list, m, s')
  {
    match s.server {
      case SendCount => ServerSendsNumber(list, m, s, s');
      case SendLength(_) => ServerSendsNumber(list, m, s, s');
      case AwaitCount => ServerReceivesOk(list, m, s, s');
      case AwaitLength(_) => ServerReceivesOk(list, m, s, s');
      case SendPart(i, part, offs) =>
        if InLong(list, s, i, part, offs, 2 * part) {
          var c :| Long(list, s, i, 2 * part, c);
          ServerKeepsLong(list, m, s, s', i, c);
        } else {
          ServerSendsPart(list, m, s, s');
        }
      case AwaitPart(i, part, offs) =>
        if InLong(list, s, i, part, offs, 2 * part + 1) {
          var c :| Long(list, s, i, 2 * part + 1, c);
          ServerKeepsLong(list, m, s, s', i, c);
        } else {
          ServerEndsName(list, m, s, s');
        }
      case Served =>
    }
    hide Joint, ServerStep, Long;
  }

  // ---- The client's steps ------------------------------------------------------------------------

  /** What the client does around a number, which one receive reads whole. */
  lemma CountSteps(s: State, n: nat)
    requires n < 0x8000_0000
    ensures s.client == RecvCount && s.toClient == Print(n) ==>
      ClientStep(s) == Some(s.(client := OkCount(n), toClient := ""))
    ensures s.client == OkCount(n) && s.toServer == "" ==>
      ClientStep(s) == Some(s.(client := NextName(0, n), toServer := "OK"))
    ensures s.client == NextName(0, n) && s.toClient == "" ==> ClientStep(s) == None
  {
    PrintIsShort(n);
    WholeMessage(s.toClient);
    WholeMessage("OK");
    hide Print, Read;
  }

  lemma LengthSteps(s: State, file: nat, n: int, length: nat)
    requires 0 < length < 0x8000_0000
    ensures s.client == RecvLength(file, n) && s.toClient == Print(length) ==>
      ClientStep(s) == Some(s.(client := OkLength(file, n, length), toClient := ""))
    ensures s.client == OkLength(file, n, length) && s.toServer == "" ==>
      ClientStep(s) == Some(s.(client := RecvName(file, n, length, Min(length, BLOCK), 0, ""), toServer := "OK"))
    ensures s.client == RecvName(file, n, length, Min(length, BLOCK), 0, "") && s.toClient == "" ==>
      ClientStep(s) == None
  {
    PrintIsShort(length);
    WholeMessage(s.toClient);
    WholeMessage("OK");
    hide Print, Read;
  }

  lemma ClientReadsCount(list: seq<string>, m: nat, s: State, s': State)
    requires Fit(list, m) && Joint(list, m, s) && s.server == AwaitCount && ClientStep(s) == Some(s')
    ensures Joint(list, m, s')
  {
    CountSteps(s, |list|);
    hide ClientStep, Print, NameHandshake, Stalled, NoneFull, InLong;
  }

  lemma ClientReadsLength(list: seq<string>, m: nat, s: State, s': State)
    requires Fit(list, m) && Joint(list, m, s) && s.server.AwaitLength? && ClientStep(s) == Some(s')
    ensures Joint(list, m, s')
  {
    LengthSteps(s, s.server.i, |list|, |list[s.server.i]|);
    hide ClientStep, Print, NameHandshake, Stalled, NoneFull, InLong;
  }

  lemma ClientReadsName(list: seq<string>, m: nat, s: State, s': State)
    requires Fit(list, m) && Joint(list, m, s) && ClientStep(s) == Some(s')
    requires s.server.AwaitPart? && s.server.part == 0 && |list[s.server.i]| <= BLOCK
    ensures Joint(list, m, s')
  {
    WholeMessage(s.toClient);
    WholeMessage("OK");
    hide Print, Read, NoneFull, LongClient;
  }

  /** The client's next place inside a name of two blocks. */
  lemma ClientReadsLong(list: seq<string>, s: State, s': State, i: nat, q: nat, c: nat)
    requires Long(list, s, i, q, c) && c % 2 == 0 && c < 6 && ClientStep(s) == Some(s')
    ensures s'.server == s.server && Long(list, s', i, q, c + 1)
  {
    if c == 0 { ClientReadsFirst(list, s, s', i, q); }
    else if c == 2 { ClientReadsNothing(list, s, s', i, q); }
    else { ClientReadsSecond(list, s, s', i, q); }
    hide Long, ClientStep;
  }

  lemma ClientReadsFirst(list: seq<string>, s: State, s': State, i: nat, q: nat)
    requires Long(list, s, i, q, 0) && ClientStep(s) == Some(s')
    ensures s'.server == s.server && Long(list, s', i, q, 1)
  {
    var name := list[i];
    assert BytesSent(q) == BLOCK && s.toClient == name[..BLOCK];
    ReadsAll(s, BLOCK, 0);
    assert "" + name[..BLOCK] == name[..BLOCK] && name[BLOCK..BLOCK] == "";
    hide Oks, ClientStep;
  }

  /** A receive with room for all there is takes it, as long as it fits the buffer. */
  lemma ReadsAll(s: State, left: int, overall: int)
    requires s.client.RecvName? && s.client.left == left && s.client.overall == overall
    requires 0 < |s.toClient| <= (left - overall) % 0x1_0000 && |s.toClient| <= BLOCK
    ensures var RecvName(file, n, max, left, overall, buf) := s.client;
            var next := OkName(file, n, max, left - overall, overall + |s.toClient|, buf + s.toClient);
            ClientStep(s) == Some(s.(client := next, toClient := ""))
  {
    WholeMessage(s.toClient);
    hide Read;
  }

  lemma ClientReadsNothing(list: seq<string>, s: State, s': State, i: nat, q: nat)
    requires Long(list, s, i, q, 2) && ClientStep(s) == Some(s')
    ensures s'.server == s.server && Long(list, s', i, q, 3)
  {
    assert s.toClient[..0] == "" && s.toClient[0..] == s.toClient;
    hide Oks, Read, BytesSent;
  }

  lemma ClientReadsSecond(list: seq<string>, s: State, s': State, i: nat, q: nat)
    requires Long(list, s, i, q, 4) && ClientStep(s) == Some(s')
    ensures s'.server == s.server && Long(list, s', i, q, 5)
  {
    var name := list[i];
    assert BytesSent(q) == 2 * BLOCK && s.toClient == name[BLOCK..2 * BLOCK];
    ReadsAll(s, 0, BLOCK);
    assert name[..BLOCK] + name[BLOCK..2 * BLOCK] == name;
    assert name[2 * BLOCK..2 * BLOCK] == "";
    hide Oks, ClientStep, BytesSent;
  }

  lemma OneMoreOk(k: nat)
    ensures Oks(k) + "OK" == Oks(k + 1)
  {
    if k > 0 {
      OneMoreOk(k - 1);
      assert ("OK" + Oks(k - 1)) + "OK" == "OK" + (Oks(k - 1) + "OK");
    }
  }

  lemma ClientAnswersLong(list: seq<string>, s: State, s': State, i: nat, q: nat, c: nat)
    requires Long(list, s, i, q, c) && c % 2 == 1 && ClientStep(s) == Some(s')
    ensures s'.server == s.server && Long(list, s', i, q, c + 1)
  {
    OneMoreOk(c / 2 - q / 2);
    assert (c + 1) / 2 - q / 2 == c / 2 - q / 2 + 1;
    assert BytesRead(c + 1) == BytesRead(c);
    if c == 5 { assert list[..i] + [list[i]] == list[..i + 1]; }
    hide Oks;
  }

  /** Behind the last OK the client waits for the next number. */
  lemma ClientDoneWithLong(list: seq<string>, s: State, i: nat, q: nat, c: nat)
    requires Long(list, s, i, q, c) && ClientStep(s).Some?
    ensures c < 6
  {
    hide Oks;
    assert list[i][2 * BLOCK..2 * BLOCK] == "";
  }

  lemma ClientKeepsLong(list: seq<string>, s: State, s': State, i: nat, q: nat, c: nat)
    requires Long(list, s, i, q, c) && ClientStep(s) == Some(s')
    ensures s'.server == s.server && Long(list, s', i, q, c + 1)
  {
    hide Long, ClientStep;
    ClientDoneWithLong(list, s, i, q, c);
    if c % 2 == 0 { ClientReadsLong(list, s, s', i, q, c); } else { ClientAnswersLong(list, s, s', i, q, c); }
  }

  /** The other places find the client waiting, or done. */
  lemma ClientWaits(list: seq<string>, m: nat, s: State)
    requires Fit(list, m) && Joint(list, m, s) && ClientStep(s).Some?
    ensures || s.server == AwaitCount || s.server.AwaitLength?
            || (s.server.AwaitPart? && s.server.part == 0 && |list[s.server.i]| <= BLOCK)
            || (s.server.SendPart? && InLong(list, s, s.server.i, s.server.part, s.server.offs, 2 * s.server.part))
            || (s.server.AwaitPart? && InLong(list, s, s.server.i, s.server.part, s.server.offs, 2 * s.server.part + 1))
  {
    hide Print, Read, NoneFull, NameHandshake, InLong;
  }

  lemma ClientKeepsJoint(list: seq<string>, m: nat, s: State, s': State)
    requires Fit(list, m) && Joint(list, m, s) && ClientStep(s) == Some(s')
    ensures Joint(list, m, s')
  {
    ClientWaits(list, m, s);
    hide ClientStep, Joint;
    match s.server {
      case AwaitCount => ClientReadsCount(list, m, s, s');
      case AwaitLength(_) => ClientReadsLength(list, m, s, s');
      case SendPart(i, part, _) => ClientKeepsSending(list, m, s, s', i, part);
      case AwaitPart(i, part, offs) =>
        if InLong(list, s, i, part, offs, 2 * part + 1) {
          ClientKeepsAwaiting(list, m, s, s', i, part);
        } else {
          ClientReadsName(list, m, s, s');
        }
      case _ =>
    }
  }

  lemma ClientKeepsSending(list: seq<string>, m: nat, s: State, s': State, i: nat, part: nat)
    requires s.server == SendPart(i, part, part * BLOCK) && InLong(list, s, i, part, part * BLOCK, 2 * part)
    requires Joint(list, m, s) && ClientStep(s) == Some(s')
    ensures Joint(list, m, s')
  {
    var c: nat :| Long(list, s, i, 2 * part, c);
    ClientKeepsLong(list, s, s', i, 2 * part, c);
    hide ClientStep, Long, NameBegins, Stalled;
  }

  lemma ClientKeepsAwaiting(list: seq<string>, m: nat, s: State, s': State, i: nat, part: nat)
    requires s.server == AwaitPart(i, part, part * BLOCK) && InLong(list, s, i, part, part * BLOCK, 2 * part + 1)
    requires Joint(list, m, s) && ClientStep(s) == Some(s')
    ensures Joint(list, m, s')
  {
    var c: nat :| Long(list, s, i, 2 * part + 1, c);
    ClientKeepsLong(list, s, s', i, 2 * part + 1, c);
    hide ClientStep, Long, NameHandshake, Stalled;
  }

  lemma StepKeepsJoint(list: seq<string>, m: nat, s: State, side: Side, s': State)
    requires Fit(list, m) && Joint(list, m, s) && Step(list, s, side) == Some(s')
    requires s != Limit(list, m)
    ensures Joint(list, m, s')
  {
    if side == Server {
      ServerBeforeLimit(list, m, s);
      ServerKeepsJoint(list, m, s, s');
    } else {
      ClientKeepsJoint(list, m, s, s');
    }
    hide Joint, ServerStep, ClientStep;
  }

  lemma ServerBeforeLimit(list: seq<string>, m: nat, s: State)
    requires Fit(list, m) && Joint(list, m, s) && s != Limit(list, m)
    ensures !s.server.Served? && (s.server.SendLength? ==> s.server.i < m)
  {
    assert m == |list| ==> list[..m] == list;
    hide Fit, NoneFull;
  }

  // ---- The end --------------------------------------------------------------------------------------

  /** Behind the first `m` names, all read. */
  function Limit(list: seq<string>, m: nat): State
    requires m <= |list|
  {
    State(NextFile(list, m), NextName(m, |list|), "", "", list[..m])
  }

  /** The first name that fills its block, or the number of names. */
  function FirstFull(list: seq<string>): (i: nat)
    ensures i <= |list| && NoneFull(list, i)
    ensures i < |list| ==> |list[i]| == BLOCK
  {
    if list == [] then 0
    else
      var i := FirstFull(list[..|list| - 1]);
      if i < |list| - 1 || |list[i]| == BLOCK then i else |list|
  }

  /** The server waits for an OK after the first name that fills its block; or the names are read. */
  function End(list: seq<string>, m: nat): State
    requires m <= |list|
  {
    var i := FirstFull(list);
    if i < m then State(AwaitPart(i, 1, BLOCK), NextName(i + 1, |list|), "", "", list[..i + 1]) else Limit(list, m)
  }

  lemma FirstFullIs(list: seq<string>, i: nat)
    requires i < |list| && NoneFull(list, i) && |list[i]| == BLOCK
    ensures FirstFull(list) == i
  {
  }

  lemma FirstFullFrom(list: seq<string>, i: nat)
    requires i <= |list| && NoneFull(list, i)
    ensures FirstFull(list) >= i
  {
  }

  /** Unless the server has reached name `m`, nobody can move exactly at the end. */
  lemma StuckIsEnd(list: seq<string>, m: nat, s: State)
    requires Fit(list, m) && Joint(list, m, s)
    ensures s == End(list, m) ==> !CanMove(list, s) || s == Limit(list, m)
    ensures s != End(list, m) ==> CanMove(list, s) && s != Limit(list, m)
  {
  }

  // ---- How many steps are left ---------------------------------------------------------------------

  /** The steps for the names from the `i`-th; `full` of them for a name that fills its block. */
  function Left(list: seq<string>, i: nat, full: nat): nat
    decreases |list| - i
  {
    if i >= |list| then 0 else NameSteps(|list[i]|, full) + Left(list, i + 1, full)
  }

  function NameSteps(length: nat, full: nat): nat {
    if length == 2 * BLOCK then 8 else if length == BLOCK then full else 4
  }

  function ServerRank(list: seq<string>, pc: ServerPc): int {
    match pc
    case SendCount => Left(list, 0, 6) + 2
    case AwaitCount => Left(list, 0, 6) + 1
    case SendLength(i) => Left(list, i, 6)
    case AwaitLength(i) => Left(list, i, 6) - 1
    case SendPart(i, part, _) => Left(list, i, 6) - 2 - 2 * part
    case AwaitPart(i, part, _) => Left(list, i, 6) - 3 - 2 * part
    case Served => 0
  }

  function ClientRank(list: seq<string>, pc: ClientPc): int {
    match pc
    case RecvCount => Left(list, 0, 4) + 2
    case OkCount(_) => Left(list, 0, 4) + 1
    case RecvLength(k, _) => Left(list, k, 4)
    case OkLength(k, _, _) => Left(list, k, 4) - 1
    case RecvName(k, _, _, left, overall, _) =>
      Left(list, k, 4) - 2 - (if overall == 0 then 0 else if left > 0 then 2 else 4)
    case OkName(k, _, _, left, _, _) => Left(list, k, 4) - 3 - (if left > 0 then 0 else if left == 0 then 2 else 4)
    case Listed => 0
    case Overflow => 0
  }

  function Measure(list: seq<string>, s: State): int {
    ServerRank(list, s.server) + ClientRank(list, s.client)
  }

  /** The steps of an exchange without a name that fills its block. */
  function Steps(list: seq<string>): nat {
    Left(list, 0, 6) + Left(list, 0, 4) + 4
  }

  lemma ServerDescends(list: seq<string>, m: nat, s: State, s': State)
    requires Fit(list, m) && Joint(list, m, s) && ServerStep(list, s) == Some(s')
    requires !s.server.Served? && (s.server.SendLength? ==> s.server.i < m)
    ensures ServerRank(list, s'.server) == ServerRank(list, s.server) - 1 && s'.client == s.client
  {
    if s.server.AwaitPart? {
      AwaitDescends(list, m, s, s');
    } else {
      SendDescends(list, m, s, s');
    }
    hide Joint, ServerStep, ServerRank;
  }

  lemma SendDescends(list: seq<string>, m: nat, s: State, s': State)
    requires Fit(list, m) && Joint(list, m, s) && ServerStep(list, s) == Some(s')
    requires !s.server.AwaitPart? && !s.server.Served?
    ensures ServerRank(list, s'.server) == ServerRank(list, s.server) - 1 && s'.client == s.client
  {
    assert Left(list, |list|, 6) == 0;
    hide Print, Left, InLong, Stalled, NameBegins, PartLength, Handshake, NoneFull;
  }

  lemma AwaitDescends(list: seq<string>, m: nat, s: State, s': State)
    requires Fit(list, m) && Joint(list, m, s) && ServerStep(list, s) == Some(s') && s.server.AwaitPart?
    ensures ServerRank(list, s'.server) == ServerRank(list, s.server) - 1 && s'.client == s.client
  {
    assert Left(list, |list|, 6) == 0;
    assert Left(list, s.server.i, 6) == NameSteps(|list[s.server.i]|, 6) + Left(list, s.server.i + 1, 6);
    hide Print, Read, NoneFull, NameHandshake, Left, NextName, LongClient, Oks;
  }

  lemma CountRead(list: seq<string>, m: nat, s: State, s': State)
    requires Fit(list, m) && Joint(list, m, s) && s.server == AwaitCount && ClientStep(s) == Some(s')
    ensures ClientRank(list, s'.client) == ClientRank(list, s.client) - 1
  {
    CountSteps(s, |list|);
    hide ClientStep, Print;
  }

  lemma LengthRead(list: seq<string>, m: nat, s: State, s': State)
    requires Fit(list, m) && Joint(list, m, s) && s.server.AwaitLength? && ClientStep(s) == Some(s')
    ensures ClientRank(list, s'.client) == ClientRank(list, s.client) - 1
  {
    LengthSteps(s, s.server.i, |list|, |list[s.server.i]|);
    hide ClientStep, Print, Left, NoneFull;
  }

  lemma NameRead(list: seq<string>, m: nat, s: State, s': State)
    requires Fit(list, m) && Joint(list, m, s) && ClientStep(s) == Some(s')
    requires s.server.AwaitPart? && s.server.part == 0 && |list[s.server.i]| <= BLOCK
    ensures ClientRank(list, s'.client) == ClientRank(list, s.client) - 1
  {
    var i := s.server.i;
    assert Left(list, i, 4) == 4 + Left(list, i + 1, 4);
    assert Left(list, |list|, 4) == 0;
    WholeMessage(s.toClient);
    hide Print, Read, NoneFull, Left, LongClient;
  }

  lemma LongRank(list: seq<string>, i: nat, c: nat)
    requires i < |list| && |list[i]| == 2 * BLOCK && c <= 6
    ensures ClientRank(list, LongClient(list, i, c)) == Left(list, i, 4) - 2 - c >= 0
  {
    assert Left(list, i, 4) == 8 + Left(list, i + 1, 4);
    assert Left(list, |list|, 4) == 0;
    hide Left;
  }

  lemma LongRead(list: seq<string>, s: State, s': State, i: nat, q: nat)
    requires (exists c: nat :: Long(list, s, i, q, c)) && ClientStep(s) == Some(s')
    ensures ClientRank(list, s'.client) == ClientRank(list, s.client) - 1
  {
    var c: nat :| Long(list, s, i, q, c);
    ClientKeepsLong(list, s, s', i, q, c);
    LongRank(list, i, c);
    LongRank(list, i, c + 1);
    hide ClientStep, ClientRank, LongClient, Oks;
  }

  lemma ClientDescends(list: seq<string>, m: nat, s: State, s': State)
    requires Fit(list, m) && Joint(list, m, s) && ClientStep(s) == Some(s')
    ensures ClientRank(list, s'.client) == ClientRank(list, s.client) - 1 && s'.server == s.server
  {
    ClientWaits(list, m, s);
    match s.server {
      case AwaitCount => CountRead(list, m, s, s');
      case AwaitLength(_) => LengthRead(list, m, s, s');
      case SendPart(i, part, _) => LongRead(list, s, s', i, 2 * part);
      case AwaitPart(i, part, offs) =>
        if InLong(list, s, i, part, offs, 2 * part + 1) {
          LongRead(list, s, s', i, 2 * part + 1);
        } else {
          NameRead(list, m, s, s');
        }
      case _ =>
    }
    ClientLeavesServer(s, s');
    hide Joint, ClientStep, ClientRank, Long;
  }

  lemma ClientLeavesServer(s: State, s': State)
    requires ClientStep(s) == Some(s')
    ensures s'.server == s.server
  {
    hide Read;
  }

  lemma RanksNotNegative(list: seq<string>, m: nat, s: State)
    requires Fit(list, m) && Joint(list, m, s)
    ensures ServerRank(list, s.server) >= 0 && ClientRank(list, s.client) >= 0
  {
    ServerRankNotNegative(list, m, s);
    ClientRankNotNegative(list, m, s);
    hide Joint, ServerRank, ClientRank;
  }

  lemma ServerRankNotNegative(list: seq<string>, m: nat, s: State)
    requires Fit(list, m) && Joint(list, m, s)
    ensures ServerRank(list, s.server) >= 0
  {
    if s.server.SendPart? || s.server.AwaitPart? {
      var i := s.server.i;
      assert Left(list, i, 6) >= NameSteps(|list[i]|, 6);
      assert s.server.part <= (if |list[i]| == 2 * BLOCK then 2 else if |list[i]| == BLOCK then 1 else 0);
    }
    hide Print, NoneFull, NameHandshake, Handshake, LongClient, Oks;
  }

  lemma ClientRankNotNegative(list: seq<string>, m: nat, s: State)
    requires Fit(list, m) && Joint(list, m, s)
    ensures ClientRank(list, s.client) >= 0
  {
    hide Print, NoneFull, LongClient, Oks, Left, ClientRank, NextName, FirstRecv;
    match s.server {
      case SendLength(i) => RankInName(list, i);
      case AwaitLength(i) => RankInName(list, i);
      case SendPart(i, part, offs) =>
        RankInName(list, i);
        if InLong(list, s, i, part, offs, 2 * part) {
          var c: nat :| Long(list, s, i, 2 * part, c);
          LongRank(list, i, c);
        }
      case AwaitPart(i, part, offs) =>
        RankInName(list, i);
        if InLong(list, s, i, part, offs, 2 * part + 1) {
          var c: nat :| Long(list, s, i, 2 * part + 1, c);
          LongRank(list, i, c);
        }
      case _ => RankOfRest(list);
    }
  }

  lemma RankOfRest(list: seq<string>)
    ensures ClientRank(list, RecvCount) >= 0 && ClientRank(list, OkCount(|list|)) >= 0
    ensures ClientRank(list, NextName(0, |list|)) >= 0 && ClientRank(list, Listed) >= 0
  {
  }

  lemma RankInName(list: seq<string>, i: nat)
    requires i < |list| && list[i] != ""
    ensures var n, name := |list|, list[i];
            && ClientRank(list, RecvLength(i, n)) >= 0 && ClientRank(list, OkLength(i, n, |name|)) >= 0
            && ClientRank(list, FirstRecv(list, i)) >= 0 && ClientRank(list, NextName(i + 1, n)) >= 0
            && ClientRank(list, OkName(i, n, |name|, |name|, |name|, name)) >= 0
  {
  }

  lemma StepDescends(list: seq<string>, m: nat, s: State, side: Side, s': State)
    requires Fit(list, m) && Joint(list, m, s) && s != Limit(list, m) && Step(list, s, side) == Some(s')
    ensures 0 <= Measure(list, s') == Measure(list, s) - 1 && Joint(list, m, s')
  {
    StepKeepsJoint(list, m, s, side, s');
    if side == Server {
      ServerBeforeLimit(list, m, s);
      ServerDescends(list, m, s, s');
    } else {
      ClientDescends(list, m, s, s');
    }
    RanksNotNegative(list, m, s');
    hide Joint, ServerStep, ClientStep, ServerRank, ClientRank;
  }

  lemma StartIsJoint(list: seq<string>, m: nat)
    ensures Joint(list, m, START) && Measure(list, START) == Steps(list)
  {
  }

  lemma LimitStops(list: seq<string>)
    ensures !CanMove(list, Limit(list, |list|)) && Limit(list, |list|) == Complete(list)
    ensures forall side :: Step(list, Complete(list), side) == None
  {
  }

  lemma {:induction false} RunsAreLockstep(list: seq<string>, sides: seq<Side>, t: State)
    requires Fit(list, |list|) && Exec(list, START, sides) == Some(t)
    ensures Joint(list, |list|, t) && |sides| + Measure(list, t) == Steps(list) && Measure(list, t) >= 0
  {
    hide Joint, Step, Measure, Steps, Complete, Limit;
    StartIsJoint(list, |list|);
    if sides != [] {
      var most := sides[..|sides| - 1];
      var u := Exec(list, START, most).value;
      RunsAreLockstep(list, most, u);
      LimitStops(list);
      StepDescends(list, |list|, u, sides[|sides| - 1], t);
    }
  }

  /** At most 16 steps for a name, and 8 when it has less than a block. */
  lemma {:induction false} LeftAtMost(list: seq<string>, i: nat, full: nat)
    requires i <= |list| && full <= 6
    ensures Left(list, i, full) <= 8 * (|list| - i)
    ensures (forall j :: i <= j < |list| ==> |list[j]| < 2 * BLOCK) && full >= 4 ==>
      Left(list, i, full) <= full * (|list| - i)
    decreases |list| - i
  {
    if i < |list| { LeftAtMost(list, i + 1, full); }
  }

  // ---- The exchange ----------------------------------------------------------------------------------

  /**
   On names of at most a block, or exactly two, the exchange is finite.  It ends with the client
   holding exactly the server's list, in order, and both channels empty, if and only if no name
   has exactly 1023 bytes, and then every exchange has the same number of steps.  Else the
   server waits for ever after the first such name, which the client has still read, and the
   client waits too unless that name is the last.
   */
  lemma ListCompletes(list: seq<string>, sides: seq<Side>, t: State)
    requires Fit(list, |list|) && Exec(list, START, sides) == Some(t)
    ensures |sides| <= Steps(list) <= 16 * |list| + 4
    ensures (forall i :: 0 <= i < |list| ==> |list[i]| <= BLOCK) ==> Steps(list) <= 10 * |list| + 4
    ensures CanMove(list, t) <==> t != End(list, |list|)
    ensures AllWhole(list, |list|) ==> (t == Complete(list) <==> |sides| == Steps(list))
    ensures !CanMove(list, t) ==> (t == Complete(list) <==> AllWhole(list, |list|))
    ensures !CanMove(list, t) ==> (t.client == Listed <==> FirstFull(list) + 1 >= |list|)
  {
    RunsAreLockstep(list, sides, t);
    LeftAtMost(list, 0, 6);
    LeftAtMost(list, 0, 4);
    StuckIsEnd(list, |list|, t);
    LimitStops(list);
    EndIs(list);
    if CanMove(list, t) {
      var side := if ServerStep(list, t).Some? then Server else Client;
      StepDescends(list, |list|, t, side, Step(list, t, side).value);
    }
    hide Joint, ServerStep, ClientStep, Exec, ServerRank, ClientRank, Left, FirstFull, End, NextName, AllWhole;
  }

  lemma EndIs(list: seq<string>)
    requires Fit(list, |list|)
    ensures End(list, |list|) == Complete(list) <==> AllWhole(list, |list|)
    ensures End(list, |list|).client == Listed <==> FirstFull(list) + 1 >= |list|
    ensures Measure(list, Complete(list)) == 0
  {
    assert list[..|list|] == list;
    if FirstFull(list) < |list| { FullIsNotWhole(list, FirstFull(list)); } else { NoFullIsWhole(list); }
    hide Fit, FirstFull, AllWhole, Left, NoneFull, Limit;
  }

  lemma FullIsNotWhole(list: seq<string>, i: nat)
    requires i < |list| && |list[i]| == BLOCK
    ensures !AllWhole(list, |list|)
  {
  }

  lemma NoFullIsWhole(list: seq<string>)
    requires Fit(list, |list|) && NoneFull(list, |list|)
    ensures AllWhole(list, |list|)
  {
  }

  // ---- Lists of any names ------------------------------------------------------------------------------

  lemma {:induction false} ExecAppend(list: seq<string>, s: State, first: seq<Side>, rest: seq<Side>)
    requires Exec(list, s, first).Some?
    ensures Exec(list, s, first + rest) == Exec(list, Exec(list, s, first).value, rest)
  {
    if rest == [] {
      assert first + rest == first;
    } else {
      var most := rest[..|rest| - 1];
      ExecAppend(list, s, first, most);
      assert (first + rest)[..|first + rest| - 1] == first + most;
    }
    hide Step;
  }

  lemma LeadsHere(list: seq<string>, s: State)
    ensures Leads(list, s, s)
  {
    assert Exec(list, s, []) == Some(s);
  }

  /** One more step at the end, or at the beginning. */
  lemma Then(list: seq<string>, s: State, t: State, side: Side, t': State)
    requires Leads(list, s, t) && Step(list, t, side) == Some(t')
    ensures Leads(list, s, t')
  {
    var sides :| Exec(list, s, sides) == Some(t);
    ExecAppend(list, s, sides, [side]);
    OneStep(list, t, side);
    hide Step, Exec;
  }

  lemma OneStep(list: seq<string>, s: State, side: Side)
    ensures Exec(list, s, [side]) == Step(list, s, side)
  {
    assert [side][..0] == [];
    assert Exec(list, s, []) == Some(s);
    hide Step;
  }

  lemma LeadsOn(list: seq<string>, s: State, t: State, u: State)
    requires Leads(list, s, t) && Leads(list, t, u)
    ensures Leads(list, s, u)
  {
    var first :| Exec(list, s, first) == Some(t);
    var rest :| Exec(list, t, rest) == Some(u);
    ExecAppend(list, s, first, rest);
    hide Exec;
  }

  /** From wherever the two sides are together, some run leads to the end. */
  lemma {:induction false} LeadsToEnd(list: seq<string>, m: nat, s: State)
    requires Fit(list, m) && Joint(list, m, s)
    ensures Leads(list, s, End(list, m))
    decreases Measure(list, s)
  {
    hide Joint, ServerStep, ClientStep, Measure, End, Limit, Exec, Leads;
    StuckIsEnd(list, m, s);
    LeadsHere(list, s);
    if s != End(list, m) {
      var side := if ServerStep(list, s).Some? then Server else Client;
      var s' := Step(list, s, side).value;
      StepDescends(list, m, s, side, s');
      MeasureBounded(list, m, s);
      LeadsToEnd(list, m, s');
      Then(list, s, s, side, s');
      LeadsOn(list, s, s', End(list, m));
    }
  }

  lemma MeasureBounded(list: seq<string>, m: nat, s: State)
    requires Fit(list, m) && Joint(list, m, s)
    ensures Measure(list, s) >= 0
  {
    RanksNotNegative(list, m, s);
    hide Joint, ServerRank, ClientRank;
  }

  /** No run from here leads to the complete list. */
  predicate Spoilt(list: seq<string>, s: State) {
    s.client == Overflow || !(s.got <= list) || (!CanMove(list, s) && s != Complete(list))
  }

  lemma StepKeepsSpoilt(list: seq<string>, s: State, side: Side, s': State)
    requires Spoilt(list, s) && Step(list, s, side) == Some(s')
    ensures Spoilt(list, s')
  {
    assert s.got <= s'.got;
    hide Print, Read;
  }

  lemma {:induction false} SpoiltIsForEver(list: seq<string>, s: State, more: seq<Side>)
    requires Spoilt(list, s) && Exec(list, s, more).Some?
    ensures Spoilt(list, Exec(list, s, more).value)
  {
    if more != [] {
      var most := more[..|more| - 1];
      SpoiltIsForEver(list, s, most);
      StepKeepsSpoilt(list, Exec(list, s, most).value, more[|more| - 1], Exec(list, s, more).value);
    }
    hide Spoilt, Step;
  }

  lemma SpoiltIsLost(list: seq<string>, s: State)
    requires Spoilt(list, s)
    ensures !Leads(list, s, Complete(list))
  {
    if Leads(list, s, Complete(list)) {
      var more :| Exec(list, s, more) == Some(Complete(list));
      SpoiltIsForEver(list, s, more);
    }
    hide Exec, CanMove;
  }

  // A name of more than one block.  The client reads the first block, then receives nothing and
  // answers that; the server takes the second OK for the one of the second part and goes on,
  // while the client has yet to receive that part, with room for more than its buffer.  On this
  // run there is something to read at the receive of nothing, so it happens whether or not the
  // system lets such a receive wait.

  function FirstBlockRead(list: seq<string>, i: nat): State
    requires i < |list| && |list[i]| > BLOCK
  {
    var next := RecvName(i, |list|, |list[i]|, BLOCK, BLOCK, list[i][..BLOCK]);
    State(AwaitPart(i, 0, 0), next, "", "OK", list[..i])
  }

  function NothingRead(list: seq<string>, i: nat): State
    requires i < |list| && |list[i]| > BLOCK
  {
    var next := RecvName(i, |list|, |list[i]|, 0, BLOCK, list[i][..BLOCK]);
    State(AwaitPart(i, 1, BLOCK), next, SecondPart(list[i]), "OK", list[..i])
  }

  function SecondPart(name: string): string
    requires |name| > BLOCK
  {
    if |name| < 2 * BLOCK then name[BLOCK..] else name[BLOCK..2 * BLOCK]
  }

  function SecondSent(list: seq<string>, i: nat): State
    requires i < |list| && |list[i]| > BLOCK
  {
    var next := if |list[i]| < 2 * BLOCK then NextFile(list, i + 1) else SendPart(i, 2, 2 * BLOCK);
    NothingRead(list, i).(server := next, toServer := "")
  }

  lemma ToFirstBlock(list: seq<string>, i: nat)
    requires Names(list) && i < |list| && |list[i]| > BLOCK
    ensures Leads(list, Limit(list, i), FirstBlockRead(list, i))
  {
    var name, n := list[i], |list|;
    var s0 := Limit(list, i);
    var s1 := s0.(server := AwaitLength(i), toClient := Print(|name|));
    var s2 := s1.(client := OkLength(i, n, |name|), toClient := "");
    var s3 := s2.(client := FirstRecv(list, i), toServer := "OK");
    var s4 := s3.(server := SendPart(i, 0, 0), toServer := "");
    hide Print, Read, Exec, Leads;
    WholeMessage(Print(|name|));
    WholeMessage("OK");
    LeadsHere(list, s0);
    Then(list, s0, s0, Server, s1);
    LengthSteps(s1, i, n, |name|);
    Then(list, s0, s1, Client, s2);
    LengthSteps(s2, i, n, |name|);
    Then(list, s0, s2, Client, s3);
    Then(list, s0, s3, Server, s4);
    ReadsFirstBlock(list, i, s0, s4);
  }

  lemma ReadsFirstBlock(list: seq<string>, i: nat, s: State, s4: State)
    requires i < |list| && |list[i]| > BLOCK
    requires s4 == State(SendPart(i, 0, 0), FirstRecv(list, i), "", "", list[..i]) && Leads(list, s, s4)
    ensures Leads(list, s, FirstBlockRead(list, i))
  {
    var name := list[i];
    var s5 := s4.(server := AwaitPart(i, 0, 0), toClient := name[..BLOCK]);
    var s6 := s5.(client := OkName(i, |list|, |name|, BLOCK, BLOCK, name[..BLOCK]), toClient := "");
    WholeMessage("OK");
    WholeMessage(name[..BLOCK]);
    Then(list, s, s4, Server, s5);
    Then(list, s, s5, Client, s6);
    Then(list, s, s6, Client, FirstBlockRead(list, i));
    hide Exec, Leads;
  }

  lemma ToNothing(list: seq<string>, i: nat)
    requires i < |list| && |list[i]| > BLOCK
    ensures Leads(list, FirstBlockRead(list, i), NothingRead(list, i))
  {
    var s := FirstBlockRead(list, i);
    var s2 := s.(server := AwaitPart(i, 1, BLOCK), toServer := "", toClient := SecondPart(list[i]));
    ToSecondPart(list, i);
    ReceivesNothing(list, s2);
    assert "" + "OK" == "OK";
    LeadsOn(list, s, s2, NothingRead(list, i));
    hide Leads, SecondPart;
  }

  lemma ToSecondPart(list: seq<string>, i: nat)
    requires i < |list| && |list[i]| > BLOCK
    ensures var s := FirstBlockRead(list, i);
            Leads(list, s, s.(server := AwaitPart(i, 1, BLOCK), toServer := "", toClient := SecondPart(list[i])))
  {
    var s := FirstBlockRead(list, i);
    var name := list[i];
    var s1 := s.(server := SendPart(i, 1, BLOCK), toServer := "");
    hide Exec, Leads;
    LeadsHere(list, s);
    WholeMessage("OK");
    Then(list, s, s, Server, s1);
    assert name[BLOCK..|name|] == name[BLOCK..];
    WholeMessage(SecondPart(name));
    Then(list, s, s1, Server, s1.(server := AwaitPart(i, 1, BLOCK), toClient := SecondPart(name)));
  }

  /** A receive without room, and its OK. */
  lemma ReceivesNothing(list: seq<string>, s: State)
    requires s.client.RecvName? && s.client.left == s.client.overall < s.client.max
    ensures var RecvName(file, n, max, left, overall, buf) := s.client;
            Leads(list, s, s.(client := RecvName(file, n, max, 0, overall, buf), toServer := s.toServer + "OK"))
  {
    var RecvName(file, n, max, left, overall, buf) := s.client;
    var s1 := s.(client := OkName(file, n, max, 0, overall, buf));
    hide Exec, Leads;
    LeadsHere(list, s);
    assert buf + s.toClient[..0] == buf && s.toClient[0..] == s.toClient;
    Then(list, s, s, Client, s1);
    Then(list, s, s1, Client, s.(client := RecvName(file, n, max, 0, overall, buf), toServer := s.toServer + "OK"));
  }

  lemma ToSecond(list: seq<string>, i: nat)
    requires i < |list| && |list[i]| > BLOCK
    ensures Leads(list, NothingRead(list, i), SecondSent(list, i))
  {
    var s := NothingRead(list, i);
    hide Exec, Leads, SecondPart;
    LeadsHere(list, s);
    WholeMessage("OK");
    Then(list, s, s, Server, SecondSent(list, i));
  }

  /** What the client makes of what has come meanwhile, when that fits its buffer. */
  lemma ReadsTheRest(list: seq<string>, i: nat, t: State) returns (u: State)
    requires i < |list| && |list[i]| > BLOCK && t.client == NothingRead(list, i).client
    requires |t.toClient| + BLOCK >= |list[i]|
    ensures Leads(list, t, u) && u.server == t.server
    ensures |t.toClient| > BLOCK ==> u.client == Overflow
    ensures |t.toClient| <= BLOCK ==> u == t.(client := NextName(i + 1, |list|), toClient := "",
      toServer := t.toServer + "OK", got := t.got + [list[i][..BLOCK] + t.toClient])
  {
    hide Exec, Leads;
    LeadsHere(list, t);
    u := ClientStep(t).value;
    Then(list, t, t, Client, u);
    if |t.toClient| <= BLOCK {
      WholeMessage(t.toClient);
      var u' := ClientStep(u).value;
      Then(list, t, u, Client, u');
      u := u';
    }
  }

  /** The last name: an OK is left over. */
  lemma LastIsSpoilt(list: seq<string>, i: nat)
    requires |list| == i + 1 && BLOCK < |list[i]| < 2 * BLOCK
    ensures exists u :: Leads(list, SecondSent(list, i), u) && Spoilt(list, u)
  {
    var u := ReadsTheRest(list, i, SecondSent(list, i));
    assert Spoilt(list, u);
    hide Leads;
  }

  /** Not the last: the number of bytes of the next name is read as part of this one. */
  lemma MiddleIsSpoilt(list: seq<string>, i: nat)
    requires Names(list) && i + 1 < |list| && BLOCK < |list[i]| < 2 * BLOCK
    ensures exists u :: Leads(list, SecondSent(list, i), u) && Spoilt(list, u)
  {
    var s := SecondSent(list, i);
    var digits := Print(|list[i + 1]|);
    PrintIsShort(|list[i + 1]|);
    var t := s.(server := AwaitLength(i + 1), toClient := s.toClient + digits);
    hide Leads, Print, Read;
    LeadsHere(list, s);
    Then(list, s, s, Server, t);
    var u := ReadsTheRest(list, i, t);
    LeadsOn(list, s, t, u);
    if |t.toClient| <= BLOCK {
      assert u.got[i] == list[i][..BLOCK] + (s.toClient + digits);
      assert |u.got[i]| > |list[i]|;
    }
    assert Spoilt(list, u);
  }

  /** More than two blocks: the client may find more than its buffer holds. */
  lemma LongerIsSpoilt(list: seq<string>, i: nat)
    requires Names(list) && i < |list| && |list[i]| > 2 * BLOCK
    ensures exists u :: Leads(list, SecondSent(list, i), u) && Spoilt(list, u)
  {
    var s := SecondSent(list, i);
    var part := list[i][2 * BLOCK..2 * BLOCK + PartLength(list[i], 2 * BLOCK)];
    var t := s.(server := AwaitPart(i, 2, 2 * BLOCK), toClient := s.toClient + part);
    LeadsHere(list, s);
    Then(list, s, s, Server, t);
    var u := ReadsOver(list, t);
    LeadsOn(list, s, t, u);
    assert Spoilt(list, u);
    hide Leads;
  }

  lemma ReadsOver(list: seq<string>, t: State) returns (u: State)
    requires t.client.RecvName? && t.client.left == 0 && t.client.overall == BLOCK && |t.toClient| > BLOCK
    ensures Leads(list, t, u) && u.client == Overflow
  {
    LeadsHere(list, t);
    u := ClientStep(t).value;
    Then(list, t, t, Client, u);
    hide Exec, Leads;
  }

  lemma FirstBad(list: seq<string>) returns (i: nat)
    requires !AllWhole(list, |list|)
    ensures i < |list| && !Whole(|list[i]|) && AllWhole(list, i)
  {
    i := 0;
    while Whole(|list[i]|)
      invariant i < |list| && AllWhole(list, i)
      decreases |list| - i
    {
      i := i + 1;
    }
  }

  /** The first name of another length can spoil the exchange. */
  lemma BadSpoils(list: seq<string>, i: nat)
    requires Names(list) && i < |list| && !Whole(|list[i]|) && AllWhole(list, i)
    ensures exists u :: Leads(list, START, u) && Spoilt(list, u)
  {
    hide Leads, Spoilt, Joint, Limit, FirstBlockRead, NothingRead, SecondSent, NoneFull;
    if |list[i]| == BLOCK {
      StartIsJoint(list, i + 1);
      LeadsToEnd(list, i + 1, START);
      WholesNotFull(list, i);
      FullSpoils(list, i);
    } else {
      StartIsJoint(list, i);
      LeadsToEnd(list, i, START);
      WholesNotFull(list, i);
      FirstFullFrom(list, i);
      ToFirstBlock(list, i);
      ToNothing(list, i);
      ToSecond(list, i);
      LeadsOn(list, START, Limit(list, i), FirstBlockRead(list, i));
      LeadsOn(list, START, FirstBlockRead(list, i), NothingRead(list, i));
      LeadsOn(list, START, NothingRead(list, i), SecondSent(list, i));
      if |list[i]| > 2 * BLOCK { LongerIsSpoilt(list, i); }
      else if i + 1 == |list| { LastIsSpoilt(list, i); }
      else { MiddleIsSpoilt(list, i); }
      var u :| Leads(list, SecondSent(list, i), u) && Spoilt(list, u);
      LeadsOn(list, START, SecondSent(list, i), u);
    }
  }

  lemma WholesNotFull(list: seq<string>, i: nat)
    requires AllWhole(list, i)
    ensures NoneFull(list, i)
  {
  }

  lemma FullSpoils(list: seq<string>, i: nat)
    requires Names(list) && i < |list| && NoneFull(list, i) && |list[i]| == BLOCK
    ensures Spoilt(list, End(list, i + 1))
  {
    FirstFullIs(list, i);
    hide NoneFull, FirstFull;
  }

  /**
   For any names: the two sides can still get to the complete list from every state they can
   reach, if and only if every name has less than 1023 bytes, or exactly 2046.  Else they stop
   before it, or the client takes a number for a part of a name, or writes past its buffer.
   */
  lemma CompletesExactly(list: seq<string>)
    requires Names(list)
    ensures (forall t :: Leads(list, START, t) ==> Leads(list, t, Complete(list))) <==> AllWhole(list, |list|)
  {
    hide Leads, Spoilt, Joint, End, Exec, Complete;
    if AllWhole(list, |list|) {
      forall t | Leads(list, START, t) ensures Leads(list, t, Complete(list)) {
        var sides := SidesTo(list, START, t);
        RunsAreLockstep(list, sides, t);
        LeadsToEnd(list, |list|, t);
        EndIs(list);
      }
    } else {
      var i := FirstBad(list);
      BadSpoils(list, i);
      var u :| Leads(list, START, u) && Spoilt(list, u);
      SpoiltIsLost(list, u);
    }
  }

  lemma SidesTo(list: seq<string>, s: State, t: State) returns (sides: seq<Side>)
    requires Leads(list, s, t)
    ensures Exec(list, s, sides) == Some(t)
  {
    sides :| Exec(list, s, sides) == Some(t);
  }

  /**
   What is unread on such runs: at most two OKs, and for the client one number, one name, or
   half of a name of two blocks.  Without such names there is one unread message in all.
   */
  lemma OneUnread(list: seq<string>, sides: seq<Side>, t: State)
    requires Fit(list, |list|) && Exec(list, START, sides) == Some(t)
    ensures t.toServer in {"", "OK", "OKOK"}
    ensures t.toClient == "" || t.toClient == Print(|list|) || exists i :: 0 <= i < |list| && IsOf(t.toClient, list[i])
    ensures (forall i :: 0 <= i < |list| ==> |list[i]| <= BLOCK) ==>
      (t.toClient == "" || t.toServer == "") && t.toServer in {"", "OK"}
  {
    RunsAreLockstep(list, sides, t);
    JointUnread(list, |list|, t);
    hide Exec, Joint;
  }

  lemma JointUnread(list: seq<string>, m: nat, t: State)
    requires Fit(list, m) && Joint(list, m, t)
    ensures t.toServer in {"", "OK", "OKOK"}
    ensures t.toClient == "" || t.toClient == Print(|list|) || exists i :: 0 <= i < |list| && IsOf(t.toClient, list[i])
    ensures (forall i :: 0 <= i < |list| ==> |list[i]| <= BLOCK) ==>
      (t.toClient == "" || t.toServer == "") && t.toServer in {"", "OK"}
  {
    match t.server {
      case SendPart(i, part, offs) =>
        if InLong(list, t, i, part, offs, 2 * part) {
          var c: nat :| Long(list, t, i, 2 * part, c);
          LongUnread(list, t, i, 2 * part, c);
        }
      case AwaitPart(i, part, offs) =>
        if InLong(list, t, i, part, offs, 2 * part + 1) {
          var c: nat :| Long(list, t, i, 2 * part + 1, c);
          LongUnread(list, t, i, 2 * part + 1, c);
        } else if NameHandshake(list, t, i) && t.toClient != "" {
          assert IsOf(t.toClient, list[i]);
        }
      case AwaitLength(i) => assert t.toClient == "" || IsOf(t.toClient, list[i]);
      case _ =>
    }
    hide Print, NoneFull, Long;
  }

  /** The number of bytes of a name, the name, or one of its two blocks. */
  predicate IsOf(message: string, name: string) {
    || message == Print(|name|) || message == name
    || (|name| == 2 * BLOCK && (message == name[..BLOCK] || message == name[BLOCK..]))
  }

  lemma LongUnread(list: seq<string>, t: State, i: nat, q: nat, c: nat)
    requires Long(list, t, i, q, c)
    ensures t.toServer in {"", "OK", "OKOK"}
    ensures t.toClient == "" || IsOf(t.toClient, list[i])
    ensures |list[i]| == 2 * BLOCK
  {
    var k := c / 2 - q / 2;
    assert k <= 2;
    assert Oks(0) == "" && Oks(1) == "OK" && Oks(2) == "OKOK";
    assert t.toServer == Oks(k);
    assert list[i][0..BLOCK] == list[i][..BLOCK];
    assert list[i][BLOCK..2 * BLOCK] == list[i][BLOCK..];
  }
}
