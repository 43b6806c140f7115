/**
  The actuator board (dome servo and two etalon servos) behind a line-based
  TCP daemon: a shared state record, a client that connects with a failure
  counter, sends one command line and reads one reply line, and the module
  operations that validate UI requests, send the commands and fold the
  `status` reply into the state. Network outcomes, the clock (integer
  milliseconds) and the timestamp text are parameters.
*/
module Arduino {
  import opened Wrappers
  import opened Text

  const DefaultPort := 5555
  const IdleTimeoutMs := 20000
  const MaxLogIntervalMs := 15000
  /** Failed attempts after which the client warns once and stops trying. */
  const MaxWarns := 3
  const UnreachableWarning := "\U{26A0}\U{FE0F} Arduino unreachable after 5 retries."

  /** The shared state dictionary; `domeRaw` is absent until a status reply reports the dome. */
  datatype Board = Board(
    dome: string, domeRaw: Option<int>, etalon1: int, etalon2: int, lastUpdated: Option<string>, connected: bool)

  const InitialBoard: Board := Board("UNKNOWN", None, 90, 90, None, false)

  /** `get_dome()`: the key is always present, so the stored label. */
  function GetDome(b: Board): string {
    b.dome
  }

  /** `get_etalon(index)`: the stored angle of etalon 1 or 2, and the default 90 for any other index. */
  function GetEtalon(b: Board, index: int): (v: int)
    ensures index == 1 ==> v == b.etalon1
    ensures index == 2 ==> v == b.etalon2
    ensures index != 1 && index != 2 ==> v == 90
  {
    if index == 1 then b.etalon1 else if index == 2 then b.etalon2 else 90
  }

  // ---------------------------------------------------------------- status replies

  /** The dome label of a reported angle: open from 170, closed up to 10, moving in between. */
  function DomeLabel(n: int): (l: string)
    ensures l == "OPEN" <==> n >= 170
    ensures l == "CLOSED" <==> n <= 10
    ensures 10 < n < 170 ==> l == "Moving (" + IntToString(n) + "\U{B0})"
  {
    if n >= 170 then "OPEN"
    else if n <= 10 then "CLOSED"
    else "Moving (" + IntToString(n) + "\U{B0})"
  }

  /** `line.split(":")[1]` for a line that starts with a colon-terminated tag: the text up to the next colon. */
  function FieldAfterTag(line: string, tag: string): string
    requires |tag| > 0 && tag[|tag| - 1] == ':' && StartsWith(line, tag)
  {
    assert line[|tag| - 1] == line[..|tag|][|tag| - 1];
    assert ':' in line;
    Split(line, ':')[1]
  }

  /** A line of a status reply whose tagged field, if it has one, is an integer. */
  predicate Parses(line: string) {
    && (StartsWith(line, "dome:") ==> ParseInt(FieldAfterTag(line, "dome:")).Some?)
    && (StartsWith(line, "et1:") ==> ParseInt(FieldAfterTag(line, "et1:")).Some?)
    && (StartsWith(line, "et2:") ==> ParseInt(FieldAfterTag(line, "et2:")).Some?)
  }

  /** No line carries two of the three tags. */
  lemma TagsExclusive(line: string)
    ensures !(StartsWith(line, "dome:") && StartsWith(line, "et1:"))
    ensures !(StartsWith(line, "dome:") && StartsWith(line, "et2:"))
    ensures !(StartsWith(line, "et1:") && StartsWith(line, "et2:"))
  {
    if StartsWith(line, "dome:") {
      assert line[0] == line[..5][0] == 'd';
    }
    if StartsWith(line, "et1:") {
      assert line[2] == line[..4][2] == '1';
    }
  }

  /** One line of a status reply; `None` where `int()` raises. */
  function ApplyLine(b: Board, line: string): (r: Option<Board>)
    ensures r.Some? <==> Parses(line)
    ensures r.Some? && StartsWith(line, "dome:") ==> r.value.domeRaw == ParseInt(FieldAfterTag(line, "dome:"))
    ensures r.Some? && StartsWith(line, "et1:") ==> Some(r.value.etalon1) == ParseInt(FieldAfterTag(line, "et1:"))
    ensures r.Some? && StartsWith(line, "et2:") ==> Some(r.value.etalon2) == ParseInt(FieldAfterTag(line, "et2:"))
    ensures r.Some? ==> r.value.connected == b.connected && r.value.lastUpdated == b.lastUpdated
    ensures r.Some? && !StartsWith(line, "dome:") ==> r.value.dome == b.dome && r.value.domeRaw == b.domeRaw
    ensures r.Some? && (StartsWith(line, "dome:") || !StartsWith(line, "et1:")) ==> r.value.etalon1 == b.etalon1
    ensures r.Some? && (StartsWith(line, "dome:") || StartsWith(line, "et1:") || !StartsWith(line, "et2:")) ==>
      r.value.etalon2 == b.etalon2
    ensures r.Some? && StartsWith(line, "dome:") ==> r.value.domeRaw.Some? && r.value.dome == DomeLabel(r.value.domeRaw.value)
  {
    TagsExclusive(line);
    if StartsWith(line, "dome:") then
      match ParseInt(FieldAfterTag(line, "dome:"))
      case None => None
      case Some(n) => Some(b.(domeRaw := Some(n), dome := DomeLabel(n)))
    else if StartsWith(line, "et1:") then
      match ParseInt(FieldAfterTag(line, "et1:"))
      case None => None
      case Some(n) => Some(b.(etalon1 := n))
    else if StartsWith(line, "et2:") then
      match ParseInt(FieldAfterTag(line, "et2:"))
      case None => None
      case Some(n) => Some(b.(etalon2 := n))
    else Some(b)
  }

  /** The state after the lines of a status reply, in order, and whether they all parsed; a failing line keeps the updates before it. */
  function ApplyLines(b: Board, lines: seq<string>): (r: (Board, bool))
    ensures r.0.connected == b.connected && r.0.lastUpdated == b.lastUpdated
    decreases |lines|
  {
    if lines == [] then (b, true)
    else
      var prev := ApplyLines(b, lines[..|lines| - 1]);
      if !prev.1 then prev
      else match ApplyLine(prev.0, lines[|lines| - 1])
        case None => (prev.0, false)
        case Some(next) => (next, true)
  }

  /** The etalon angles change only through lines tagged with their own index, and the dome only through `dome:` lines. */
  lemma {:induction false} ApplyLinesTouchesTaggedFields(b: Board, lines: seq<string>)
    ensures (forall i :: 0 <= i < |lines| ==> !StartsWith(lines[i], "dome:")) ==>
      ApplyLines(b, lines).0.dome == b.dome && ApplyLines(b, lines).0.domeRaw == b.domeRaw
    ensures (forall i :: 0 <= i < |lines| ==> !StartsWith(lines[i], "et1:")) ==> ApplyLines(b, lines).0.etalon1 == b.etalon1
    ensures (forall i :: 0 <= i < |lines| ==> !StartsWith(lines[i], "et2:")) ==> ApplyLines(b, lines).0.etalon2 == b.etalon2
    decreases |lines|
  {
    if lines != [] {
      var init := lines[..|lines| - 1];
      ApplyLinesTouchesTaggedFields(b, init);
      assert forall i :: 0 <= i < |init| ==> init[i] == lines[i];
    }
  }

  /** The value reported by the last line tagged `tag`; `None` when no line carries the tag. */
  function LastReported(lines: seq<string>, tag: string): Option<int>
    requires |tag| > 0 && tag[|tag| - 1] == ':'
    decreases |lines|
  {
    if lines == [] then None
    else if StartsWith(lines[|lines| - 1], tag) then ParseInt(FieldAfterTag(lines[|lines| - 1], tag))
    else LastReported(lines[..|lines| - 1], tag)
  }

  function OrElse(o: Option<int>, default: int): int {
    match o
    case Some(v) => v
    case None => default
  }

  /** The fold of a whole reply succeeds exactly when every line parses. */
  lemma {:induction false} ApplyLinesParses(b: Board, lines: seq<string>)
    ensures ApplyLines(b, lines).1 <==> forall i :: 0 <= i < |lines| ==> Parses(lines[i])
    decreases |lines|
  {
    if lines != [] {
      var init := lines[..|lines| - 1];
      var last := lines[|lines| - 1];
      ApplyLinesParses(b, init);
      var prev := ApplyLines(b, init);
      assert ApplyLines(b, lines) == if !prev.1 then prev else match ApplyLine(prev.0, last)
        case None => (prev.0, false)
        case Some(next) => (next, true);
      if forall i :: 0 <= i < |lines| ==> Parses(lines[i]) {
        forall i | 0 <= i < |init|
          ensures Parses(init[i])
        {
          assert init[i] == lines[i];
        }
        assert ApplyLine(prev.0, last).Some?;
      } else {
        var k :| 0 <= k < |lines| && !Parses(lines[k]);
        if k < |init| {
          assert !Parses(init[k]);
        } else {
          assert !Parses(last) by {
            assert k == |lines| - 1;
          }
          assert ApplyLine(prev.0, last).None?;
        }
      }
    }
  }

  /**
    After a reply whose lines all parse, each field holds the value of the
    last line tagged for it (the dome label classified from it), or its old
    value when no line is.
  */
  lemma {:induction false} ApplyLinesLastWins(b: Board, lines: seq<string>)
    requires ApplyLines(b, lines).1
    ensures var r := ApplyLines(b, lines).0;
      var dome := LastReported(lines, "dome:");
      && r.domeRaw == (if dome.Some? then dome else b.domeRaw)
      && r.dome == (if dome.Some? then DomeLabel(dome.value) else b.dome)
      && r.etalon1 == OrElse(LastReported(lines, "et1:"), b.etalon1)
      && r.etalon2 == OrElse(LastReported(lines, "et2:"), b.etalon2)
    decreases |lines|
  {
    if lines != [] {
      var init := lines[..|lines| - 1];
      var prev := ApplyLines(b, init);
      assert prev.1 && ApplyLines(b, lines).0 == ApplyLine(prev.0, lines[|lines| - 1]).value;
      ApplyLinesLastWins(b, init);
      TagsExclusive(lines[|lines| - 1]);
    }
  }

  /**
    What `get_dome()` reports after a status reply whose lines all parse: the
    classification of the last dome angle reported, or the earlier label when
    no line reports the dome.
  */
  lemma GetDomeAfterStatus(b: Board, lines: seq<string>)
    requires ApplyLines(b, lines).1
    ensures var dome := LastReported(lines, "dome:");
      GetDome(ApplyLines(b, lines).0) == (if dome.Some? then DomeLabel(dome.value) else GetDome(b))
  {
    ApplyLinesLastWins(b, lines);
  }

  /** A reply whose lines all parse and whose last dome line reports `n` leaves the dome classified from `n`. */
  lemma DomeFromLastLine(b: Board, lines: seq<string>)
    requires lines != [] && StartsWith(lines[|lines| - 1], "dome:")
    requires ApplyLines(b, lines).1
    ensures var r := ApplyLines(b, lines).0; r.domeRaw.Some? && r.dome == DomeLabel(r.domeRaw.value)
  {
  }

  // ---------------------------------------------------------------- reply assembly

  /**
    The reply read after a command: chunks are appended to the buffer until
    it holds a newline. `None` when a chunk is empty (the daemon closed the
    connection) or the chunks run out (the read timed out) first.
  */
  function AssembleFrom(buffer: string, chunks: seq<string>, i: nat): (r: Option<string>)
    requires i <= |chunks|
    ensures r.Some? ==> '\n' in r.value && |r.value| >= |buffer| && r.value[..|buffer|] == buffer
    decreases |chunks| - i
  {
    if i == |chunks| || chunks[i] == "" then None
    else if '\n' in buffer + chunks[i] then Some(buffer + chunks[i])
    else
      var r := AssembleFrom(buffer + chunks[i], chunks, i + 1);
      assert r.Some? ==> r.value[..|buffer|] == r.value[..|buffer + chunks[i]|][..|buffer|];
      r
  }

  function Assemble(chunks: seq<string>): Option<string> {
    AssembleFrom("", chunks, 0)
  }

  /** The reply is exactly the chunks up to and including the first one that holds a newline. */
  lemma {:induction false} AssembleUpToNewline(chunks: seq<string>, k: nat)
    requires k < |chunks| && '\n' in chunks[k]
    requires forall j :: 0 <= j <= k ==> chunks[j] != ""
    requires forall j :: 0 <= j < k ==> '\n' !in chunks[j]
    ensures Assemble(chunks) == Some(Concat(chunks[..k + 1]))
  {
    var i := 0;
    assert chunks[..0] == [];
    while i < k
      invariant 0 <= i <= k
      invariant '\n' !in Concat(chunks[..i])
      invariant Assemble(chunks) == AssembleFrom(Concat(chunks[..i]), chunks, i)
    {
      ConcatSnoc(chunks, i);
      i := i + 1;
    }
    ConcatSnoc(chunks, k);
  }

  /** Without an empty chunk and without a newline in any chunk, no reply is assembled. */
  lemma {:induction false} AssembleNeedsNewline(chunks: seq<string>)
    requires forall j :: 0 <= j < |chunks| ==> '\n' !in chunks[j]
    ensures Assemble(chunks) == None
  {
    var i := 0;
    assert chunks[..0] == [];
    while i < |chunks|
      invariant 0 <= i <= |chunks|
      invariant '\n' !in Concat(chunks[..i])
      invariant Assemble(chunks) == AssembleFrom(Concat(chunks[..i]), chunks, i)
    {
      if chunks[i] == "" {
        return;
      }
      ConcatSnoc(chunks, i);
      i := i + 1;
    }
  }

  lemma ConcatSnoc(chunks: seq<string>, i: nat)
    requires i < |chunks|
    ensures Concat(chunks[..i + 1]) == Concat(chunks[..i]) + chunks[i]
  {
    assert chunks[..i + 1][..i] == chunks[..i];
  }

  /** What the network does during one `send`: whether a needed connect succeeds, whether the write succeeds, and the chunks `recv` returns. */
  datatype Net = Net(connectOk: bool, writeOk: bool, chunks: seq<string>)

  /**
    The value `send` returns, given whether a socket was open and the failure
    count before the call: "" when no socket can be had or the write or read
    fails, else the stripped reply.
  */
  function SendReply(open: bool, failCount: int, net: Net): (reply: string)
    ensures reply != "" ==> Reachable(open, failCount, net) && net.writeOk && Assemble(net.chunks).Some?
    ensures Reachable(open, failCount, net) && net.writeOk && Assemble(net.chunks).Some? ==>
      reply == Strip(Assemble(net.chunks).value)
  {
    if !Reachable(open, failCount, net) || !net.writeOk then ""
    else match Assemble(net.chunks)
      case None => ""
      case Some(b) => Strip(b)
  }

  /** `send` has a socket to write to: one was open, or the lazy connect (tried only under the cap) succeeds. */
  predicate Reachable(open: bool, failCount: int, net: Net) {
    open || (failCount < MaxWarns && net.connectOk)
  }

  /**
    The client's connection bookkeeping, with the shared state's `connected`
    flag: everything `send` may change apart from what it writes.
  */
  datatype LinkState = LinkState(
    sock: bool, failCount: nat, warnSent: bool, lastFailTime: int,
    failLogs: seq<nat>, uiWarnings: seq<string>, lastUsed: int, connected: bool)

  /** `_connect()` on the bookkeeping: nothing at the cap, a reset on success, a counted, logged and possibly warned failure otherwise. */
  function ConnectLink(l: LinkState, connectOk: bool, ui: bool, now: int): LinkState {
    if l.failCount >= MaxWarns then l
    else if connectOk then l.(sock := true, failCount := 0, warnSent := false, connected := true)
    else
      var n := l.failCount + 1;
      var logged := now - l.lastFailTime > MaxLogIntervalMs;
      var warn := ui && !l.warnSent && n == MaxWarns;
      l.(sock := false, failCount := n, connected := false,
         lastFailTime := if logged then now else l.lastFailTime,
         failLogs := if logged then l.failLogs + [n] else l.failLogs,
         warnSent := if warn then true else l.warnSent,
         uiWarnings := if warn then l.uiWarnings + [UnreachableWarning] else l.uiWarnings)
  }

  /** The write and read of `send` on the bookkeeping: a full exchange marks the use, anything less drops the socket. */
  function ExchangeLink(l: LinkState, net: Net, now: int): LinkState {
    if net.writeOk && Assemble(net.chunks).Some? then l.(connected := true, lastUsed := now)
    else l.(sock := false, connected := false)
  }

  /** `send` on the bookkeeping: connect first when no socket is open, then exchange if a socket was had. */
  function SendLink(l: LinkState, net: Net, ui: bool, now: int): LinkState {
    if l.sock then ExchangeLink(l, net, now)
    else
      var c := ConnectLink(l, net.connectOk, ui, now);
      if c.sock then ExchangeLink(c, net, now) else c
  }

  /** A series of sends, each with its network outcome and clock. */
  function SendLinks(l: LinkState, steps: seq<(Net, int)>, ui: bool): LinkState
    decreases |steps|
  {
    if steps == [] then l else SendLinks(SendLink(l, steps[0].0, ui, steps[0].1), steps[1..], ui)
  }

  /**
    Sends that find no socket and cannot connect each add one failure: from no
    failures, three such sends bring the client to the cap, with no socket.
  */
  lemma {:induction false} FailedSendsCount(l: LinkState, steps: seq<(Net, int)>, ui: bool)
    requires !l.sock && l.failCount + |steps| <= MaxWarns
    requires forall i :: 0 <= i < |steps| ==> !steps[i].0.connectOk
    ensures SendLinks(l, steps, ui).failCount == l.failCount + |steps|
    ensures steps != [] ==> !SendLinks(l, steps, ui).sock && !SendLinks(l, steps, ui).connected
    decreases |steps|
  {
    if steps != [] {
      var next := SendLink(l, steps[0].0, ui, steps[0].1);
      assert next.failCount == l.failCount + 1 && !next.sock && !next.connected;
      FailedSendsCount(next, steps[1..], ui);
    }
  }

  /** At the cap with no socket, no series of sends changes the bookkeeping at all. */
  lemma {:induction false} CapHoldsForever(l: LinkState, steps: seq<(Net, int)>, ui: bool)
    requires !l.sock && l.failCount >= MaxWarns
    ensures SendLinks(l, steps, ui) == l
    decreases |steps|
  {
    if steps != [] {
      assert SendLink(l, steps[0].0, ui, steps[0].1) == l;
      CapHoldsForever(l, steps[1..], ui);
    }
  }

  /** The module-level state dictionary and every state snapshot pushed to the UI. */
  class SharedState {
    var board: Board
    var published: seq<Board>

    constructor ()
      ensures board == InitialBoard && published == []
    {
      board := InitialBoard;
      published := [];
    }
  }

  class ArduinoTcpClient {
    const shared: SharedState
    const host: string
    const port: int
    /** A socket is open. */
    var sock: bool
    var lastUsed: int
    var lastFailTime: int
    var failCount: nat
    var warnSent: bool
    /** Every frame written to the socket. */
    var written: seq<string>
    /** The attempt numbers of the logged connection failures. */
    var failLogs: seq<nat>
    /** Warnings pushed to the UI log. */
    var uiWarnings: seq<string>

    /**
      The counter never passes the cap; an open socket means the last attempt
      succeeded; the warning is sent at most once and only with the counter at
      the cap, where it stays.
    */
    predicate Valid()
      reads this
    {
      && failCount <= MaxWarns
      && (sock ==> failCount == 0)
      && (warnSent ==> failCount == MaxWarns)
      && |uiWarnings| <= 1
      && (uiWarnings != [] ==> failCount == MaxWarns)
    }

    /** The connection bookkeeping of this client and the shared `connected` flag. */
    function Link(): LinkState
      reads this, shared
    {
      LinkState(sock, failCount, warnSent, lastFailTime, failLogs, uiWarnings, lastUsed, shared.board.connected)
    }

    /** `__init__(host, port)` at clock `now`. */
    constructor (shared: SharedState, host: string, port: int, now: int)
      ensures Valid()
      ensures this.shared == shared && this.host == host && this.port == port
      ensures !sock && lastUsed == now && lastFailTime == 0 && failCount == 0 && !warnSent
      ensures written == [] && failLogs == [] && uiWarnings == []
    {
      this.shared := shared;
      this.host, this.port := host, port;
      sock := false;
      lastUsed, lastFailTime := now, 0;
      failCount, warnSent := 0, false;
      written, failLogs, uiWarnings := [], [], [];
    }

    /**
      `_connect()` at clock `now`, with `ui` telling whether a UI is attached.
      No attempt at the cap. A success opens the socket and resets the
      counter and the warning; a failure counts, is logged at most once per
      log interval, warns the UI when it reaches the cap, and drops the socket.
    */
    method Connect(connectOk: bool, ui: bool, now: int)
      requires Valid()
      modifies this`sock, this`failCount, this`warnSent, this`lastFailTime, this`failLogs, this`uiWarnings, shared`board
      ensures Valid()
      ensures Link() == ConnectLink(old(Link()), connectOk, ui, now)
      ensures old(failCount) >= MaxWarns ==>
        sock == old(sock) && failCount == old(failCount) && warnSent == old(warnSent) && lastFailTime == old(lastFailTime)
        && failLogs == old(failLogs) && uiWarnings == old(uiWarnings) && shared.board == old(shared.board)
      ensures old(failCount) < MaxWarns && connectOk ==>
        sock && failCount == 0 && !warnSent && shared.board == old(shared.board).(connected := true)
        && lastFailTime == old(lastFailTime) && failLogs == old(failLogs) && uiWarnings == old(uiWarnings)
      ensures old(failCount) < MaxWarns && !connectOk ==>
        && !sock && failCount == old(failCount) + 1 && shared.board == old(shared.board).(connected := false)
        && (now - old(lastFailTime) > MaxLogIntervalMs ==> lastFailTime == now && failLogs == old(failLogs) + [failCount])
        && (now - old(lastFailTime) <= MaxLogIntervalMs ==> lastFailTime == old(lastFailTime) && failLogs == old(failLogs))
        && (ui && !old(warnSent) && failCount == MaxWarns ==> warnSent && uiWarnings == old(uiWarnings) + [UnreachableWarning])
        && (!(ui && !old(warnSent) && failCount == MaxWarns) ==> warnSent == old(warnSent) && uiWarnings == old(uiWarnings))
    {
      if failCount >= MaxWarns {
        return;
      }
      if connectOk {
        sock := true;
        shared.board := shared.board.(connected := true);
        failCount, warnSent := 0, false;
      } else {
        shared.board := shared.board.(connected := false);
        failCount := failCount + 1;
        if now - lastFailTime > MaxLogIntervalMs {
          failLogs := failLogs + [failCount];
          lastFailTime := now;
        }
        if ui && !warnSent && failCount == MaxWarns {
          uiWarnings := uiWarnings + [UnreachableWarning];
          warnSent := true;
        }
        sock := false;
      }
    }

    /**
      `send(message)` at clock `now`: connects first when no socket is open,
      writes one line, and reads until the reply holds a newline. The reply is
      `SendReply`; only the `connected` flag of the shared state changes.
    */
    method Send(message: string, net: Net, ui: bool, now: int) returns (reply: string)
      requires Valid()
      modifies this`sock, this`failCount, this`warnSent, this`lastFailTime, this`failLogs, this`uiWarnings
      modifies this`written, this`lastUsed, shared`board
      ensures Valid()
      ensures reply == SendReply(old(sock), old(failCount), net)
      ensures shared.board == old(shared.board).(connected := shared.board.connected)
      ensures old(sock) ==>
        && failCount == old(failCount) && warnSent == old(warnSent) && uiWarnings == old(uiWarnings)
        && failLogs == old(failLogs) && lastFailTime == old(lastFailTime)
      ensures !old(sock) && old(failCount) >= MaxWarns ==>
        reply == "" && !sock && failCount == old(failCount) && written == old(written) && shared.board == old(shared.board)
        && warnSent == old(warnSent) && uiWarnings == old(uiWarnings) && failLogs == old(failLogs)
      ensures !old(sock) && old(failCount) < MaxWarns && net.connectOk ==>
        failCount == 0 && !warnSent && uiWarnings == old(uiWarnings) && failLogs == old(failLogs)
        && lastFailTime == old(lastFailTime)
      ensures !old(sock) && old(failCount) < MaxWarns && !net.connectOk ==>
        && reply == "" && !sock && !shared.board.connected && written == old(written)
        && failCount == old(failCount) + 1
        && (now - old(lastFailTime) > MaxLogIntervalMs ==> lastFailTime == now && failLogs == old(failLogs) + [failCount])
        && (now - old(lastFailTime) <= MaxLogIntervalMs ==> lastFailTime == old(lastFailTime) && failLogs == old(failLogs))
        && (ui && !old(warnSent) && failCount == MaxWarns ==> warnSent && uiWarnings == old(uiWarnings) + [UnreachableWarning])
        && (!(ui && !old(warnSent) && failCount == MaxWarns) ==> warnSent == old(warnSent) && uiWarnings == old(uiWarnings))
      ensures var up := Reachable(old(sock), old(failCount), net);
        && (up && net.writeOk ==> written == old(written) + [message + "\n"])
        && (!(up && net.writeOk) ==> written == old(written))
        && (up && net.writeOk && Assemble(net.chunks).Some? ==> sock && shared.board.connected && lastUsed == now)
        && (!(up && net.writeOk && Assemble(net.chunks).Some?) ==> lastUsed == old(lastUsed))
        && (up && !(net.writeOk && Assemble(net.chunks).Some?) ==> !sock && !shared.board.connected)
      ensures Link() == SendLink(old(Link()), net, ui, now)
    {
      if !sock {
        Connect(net.connectOk, ui, now);
        if !sock {
          return "";
        }
      }
      reply := Exchange(message, net, now);
    }

    /** The part of `send` after a socket is had: one line is written and the reply read; a failure drops the socket. */
    method Exchange(message: string, net: Net, now: int) returns (reply: string)
      requires sock
      modifies this`sock, this`written, this`lastUsed, shared`board
      ensures reply == SendReply(true, failCount, net)
      ensures shared.board == old(shared.board).(connected := shared.board.connected)
      ensures net.writeOk ==> written == old(written) + [message + "\n"]
      ensures !net.writeOk ==> written == old(written)
      ensures net.writeOk && Assemble(net.chunks).Some? ==> sock && shared.board.connected && lastUsed == now
      ensures !(net.writeOk && Assemble(net.chunks).Some?) ==> !sock && !shared.board.connected && lastUsed == old(lastUsed)
      ensures Link() == ExchangeLink(old(Link()), net, now)
    {
      var assembled := None;
      if net.writeOk {
        written := written + [message + "\n"];
        assembled := ReadReply(net.chunks);
      }
      if assembled.Some? {
        lastUsed := now;
        shared.board := shared.board.(connected := true);
        reply := Strip(assembled.value);
      } else {
        shared.board, sock := shared.board.(connected := false), false;
        reply := "";
      }
    }

    /** The read loop of `send`: `recv` chunks are appended until the buffer holds a newline; `None` where the read fails. */
    method ReadReply(chunks: seq<string>) returns (assembled: Option<string>)
      ensures assembled == Assemble(chunks)
    {
      var buffer := "";
      var i := 0;
      while true
        invariant 0 <= i <= |chunks|
        invariant '\n' !in buffer
        invariant AssembleFrom(buffer, chunks, i) == Assemble(chunks)
        decreases |chunks| - i
      {
        if i == |chunks| || chunks[i] == "" {
          return None;
        }
        buffer := buffer + chunks[i];
        i := i + 1;
        if '\n' in buffer {
          break;
        }
      }
      return Some(buffer);
    }

    /** One check of the idle watcher at clock `now`: an open socket unused for longer than the timeout is closed. */
    method IdleTick(now: int)
      requires Valid()
      modifies this`sock
      ensures Valid()
      ensures sock <==> old(sock) && now - lastUsed <= IdleTimeoutMs
    {
      if sock && now - lastUsed > IdleTimeoutMs {
        sock := false;
      }
    }
  }

  /** Once the counter reaches the cap the client never opens a socket again: every later send returns "" without writing. */
  lemma CapIsFinal(c: ArduinoTcpClient, net: Net)
    requires c.Valid() && c.failCount == MaxWarns
    ensures !c.sock && SendReply(c.sock, c.failCount, net) == ""
  {
  }

  // ---------------------------------------------------------------- module operations

  /** `_update(timestamp)`: stamps the state and pushes it to an attached UI. */
  method Update(shared: SharedState, ui: bool, timestamp: string)
    modifies shared
    ensures shared.board == old(shared.board).(lastUpdated := Some(timestamp))
    ensures shared.published == old(shared.published) + (if ui then [shared.board] else [])
  {
    shared.board := shared.board.(lastUpdated := Some(timestamp));
    if ui {
      shared.published := shared.published + [shared.board];
    }
  }

  function DomeCommand(cmd: string): string {
    "dome " + (if cmd == "open" then "180" else "0")
  }

  /**
    `set_dome(state_cmd)`: only "open" and "close" are sent (as angle 180 or
    0); a reply tagged `dome:` stores the upper-cased command and succeeds,
    anything else leaves the dome as it was.
  */
  method SetDome(client: ArduinoTcpClient, cmd: string, net: Net, ui: bool, now: int, timestamp: string) returns (ok: bool)
    requires client.Valid()
    modifies client, client.shared
    ensures client.Valid()
    ensures cmd != "open" && cmd != "close" ==>
      !ok && client.written == old(client.written) && client.shared.board == old(client.shared.board)
      && client.sock == old(client.sock) && client.failCount == old(client.failCount)
      && client.Link() == old(client.Link()) && client.shared.published == old(client.shared.published)
    ensures cmd == "open" || cmd == "close" ==>
      client.Link() == SendLink(old(client.Link()), net, ui, now)
    ensures ok ==> client.sock && client.shared.board.connected
    ensures cmd == "open" || cmd == "close" ==>
      var reply := SendReply(old(client.sock), old(client.failCount), net);
      var up := Reachable(old(client.sock), old(client.failCount), net);
      && (ok <==> StartsWith(reply, "dome:"))
      && client.written == old(client.written) + (if up && net.writeOk then [DomeCommand(cmd) + "\n"] else [])
    ensures ok ==> client.shared.board.dome == Upper(cmd) && client.shared.board.lastUpdated == Some(timestamp)
    ensures ok ==> client.shared.published == old(client.shared.published) + (if ui then [client.shared.board] else [])
    ensures !ok ==> client.shared.published == old(client.shared.published)
    ensures !ok ==> (client.shared.board.dome == old(client.shared.board.dome)
      && client.shared.board.lastUpdated == old(client.shared.board.lastUpdated))
    ensures client.shared.board.etalon1 == old(client.shared.board.etalon1)
      && client.shared.board.etalon2 == old(client.shared.board.etalon2)
      && client.shared.board.domeRaw == old(client.shared.board.domeRaw)
  {
    if cmd != "open" && cmd != "close" {
      return false;
    }
    var reply := client.Send(DomeCommand(cmd), net, ui, now);
    if StartsWith(reply, "dome:") {
      client.shared.board := client.shared.board.(dome := Upper(cmd));
      Update(client.shared, ui, timestamp);
      return true;
    }
    return false;
  }

  function EtalonCommand(index: int, value: int): string {
    "et" + IntToString(index) + " " + IntToString(value)
  }

  /**
    `set_etalon(index, value)`: only etalons 1 and 2 and angles 0 to 180 are
    sent; a reply tagged `et<index>:` stores the angle of that etalon alone
    and succeeds.
  */
  method SetEtalon(client: ArduinoTcpClient, index: int, value: int, net: Net, ui: bool, now: int, timestamp: string)
    returns (ok: bool)
    requires client.Valid()
    modifies client, client.shared
    ensures client.Valid()
    ensures !(index in {1, 2} && 0 <= value <= 180) ==>
      !ok && client.written == old(client.written) && client.shared.board == old(client.shared.board)
      && client.sock == old(client.sock) && client.failCount == old(client.failCount)
      && client.Link() == old(client.Link()) && client.shared.published == old(client.shared.published)
    ensures index in {1, 2} && 0 <= value <= 180 ==>
      client.Link() == SendLink(old(client.Link()), net, ui, now)
    ensures ok ==> client.sock && client.shared.board.connected
    ensures index in {1, 2} && 0 <= value <= 180 ==>
      var reply := SendReply(old(client.sock), old(client.failCount), net);
      var up := Reachable(old(client.sock), old(client.failCount), net);
      && (ok <==> StartsWith(reply, "et" + IntToString(index) + ":"))
      && client.written == old(client.written) + (if up && net.writeOk then [EtalonCommand(index, value) + "\n"] else [])
    ensures ok ==> GetEtalon(client.shared.board, index) == value && client.shared.board.lastUpdated == Some(timestamp)
    ensures ok ==> client.shared.published == old(client.shared.published) + (if ui then [client.shared.board] else [])
    ensures !ok ==> client.shared.published == old(client.shared.published)
    ensures index != 1 || !ok ==> client.shared.board.etalon1 == old(client.shared.board.etalon1)
    ensures index != 2 || !ok ==> client.shared.board.etalon2 == old(client.shared.board.etalon2)
    ensures !ok ==> client.shared.board.lastUpdated == old(client.shared.board.lastUpdated)
    ensures client.shared.board.dome == old(client.shared.board.dome)
      && client.shared.board.domeRaw == old(client.shared.board.domeRaw)
  {
    if !(index == 1 || index == 2) || !(0 <= value <= 180) {
      return false;
    }
    var reply := client.Send(EtalonCommand(index, value), net, ui, now);
    if StartsWith(reply, "et" + IntToString(index) + ":") {
      if index == 1 {
        client.shared.board := client.shared.board.(etalon1 := value);
      } else {
        client.shared.board := client.shared.board.(etalon2 := value);
      }
      Update(client.shared, ui, timestamp);
      return true;
    }
    return false;
  }

  /**
    The parsing half of one monitor pass: the lines of the stripped reply are
    applied in order; if one fails to parse the state goes disconnected and is
    not stamped, otherwise it is stamped and published.
  */
  method ApplyStatus(shared: SharedState, reply: string, ui: bool, timestamp: string)
    modifies shared
    ensures var lines := Split(Strip(reply), '\n');
      var r := ApplyLines(old(shared.board), lines);
      && (r.1 ==> shared.board == r.0.(lastUpdated := Some(timestamp))
                  && shared.published == old(shared.published) + (if ui then [shared.board] else []))
      && (!r.1 ==> shared.board == r.0.(connected := false) && shared.published == old(shared.published))
  {
    var lines := Split(Strip(reply), '\n');
    var board := shared.board;
    var i := 0;
    while i < |lines|
      invariant 0 <= i <= |lines|
      invariant ApplyLines(old(shared.board), lines[..i]) == (board, true)
      invariant shared.board == old(shared.board) && shared.published == old(shared.published)
    {
      ApplyLinesStep(old(shared.board), lines, i);
      var next := ApplyLine(board, lines[i]);
      if next.None? {
        StopsAtFailure(old(shared.board), lines, i + 1);
        shared.board := board.(connected := false);
        return;
      }
      board := next.value;
      i := i + 1;
    }
    assert lines[..|lines|] == lines;
    shared.board := board;
    Update(shared, ui, timestamp);
  }

  /** One more line of the fold, when the lines before it all parsed. */
  lemma ApplyLinesStep(b: Board, lines: seq<string>, i: nat)
    requires i < |lines| && ApplyLines(b, lines[..i]).1
    ensures var prev := ApplyLines(b, lines[..i]).0;
      ApplyLines(b, lines[..i + 1]) == match ApplyLine(prev, lines[i])
        case None => (prev, false)
        case Some(next) => (next, true)
  {
    assert lines[..i + 1][..i] == lines[..i];
  }

  /** A failing line ends the fold: the later lines change nothing. */
  lemma {:induction false} StopsAtFailure(b: Board, lines: seq<string>, k: nat)
    requires k <= |lines| && !ApplyLines(b, lines[..k]).1
    ensures ApplyLines(b, lines) == ApplyLines(b, lines[..k])
    decreases |lines| - k
  {
    if k < |lines| {
      assert lines[..k + 1][..k] == lines[..k];
      StopsAtFailure(b, lines, k + 1);
    } else {
      assert lines[..k] == lines;
    }
  }

  /**
    One pass of `_poll_loop`: while disconnected and under the cap it
    connects first (at the cap it waits and skips the pass), then sends
    `status` and folds the reply into the state.
  */
  method PollOnce(client: ArduinoTcpClient, pollConnectOk: bool, net: Net, ui: bool, now: int, timestamp: string)
    returns (polled: bool, reply: string)
    requires client.Valid()
    modifies client, client.shared
    ensures client.Valid()
    ensures !polled <==> !old(client.shared.board.connected) && old(client.failCount) >= MaxWarns
    ensures !polled ==> client.shared.board == old(client.shared.board) && client.written == old(client.written)
    ensures polled ==> client.written == old(client.written) || client.written == old(client.written) + ["status\n"]
  {
    if !client.shared.board.connected {
      if client.failCount < MaxWarns {
        client.Connect(pollConnectOk, ui, now);
      } else {
        return false, "";
      }
    }
    reply := client.Send("status", net, ui, now);
    assert "status" + "\n" == "status\n";
    ApplyStatus(client.shared, reply, ui, timestamp);
    polled := true;
  }
}
