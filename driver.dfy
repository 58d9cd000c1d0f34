/** The connection-lifecycle state machine of the event loop, as functions
    on a value that holds the whole state a component and its selector
    carry: which channels exist and are open, how each is registered, which
    keys are selected, the receive buffer, and, for the client role, the
    outbound queue. Each function is one transition of the loop; the class
    in module Component performs the same transitions in place. */
module Driver {
  import opened Nio
  import opened Framing

  /** The two role specialisations: the listening server (whose inbound
      handler and write hook are not part of this model) and the chat
      client, which frames messages with `delimiter`. */
  datatype Role = ServerRole | ClientRole(delimiter: Delimiter)

  /** How the handling of one key ends: normally, with an IOException that
      escapes to `runMainLoop`, or with an unchecked exception that ends
      the loop thread. */
  datatype Status = Completed | Threw | Crashed

  /** How `run` ends: by cleaning up once `running` is false, not yet (the
      rounds given ran out), or with the loop thread dead. */
  datatype RunExit = CleanedUp | StillRunning | Died

  /** A payload handed to `handleIncomingData`, with the key it came from. */
  datatype Delivery = Delivery(id: ChannelId, data: string)

  /** One selected key taken from the iterator, and the handler it got. */
  datatype Dispatch = Dispatch(id: ChannelId, handler: Handler)

  /** One iteration of the loop, as seen from outside: what `select`
      reports, what the operating system answers, and whether `stop` is
      called while the iteration runs. */
  datatype Round = Round(select: SelectResult, os: Os, stopRequested: bool)

  /** The selector and what is registered with it: the channels, their
      keys, the selected-key set in iteration order, and the identity the
      next accepted channel gets. */
  datatype Net = Net(
    channels: map<ChannelId, Channel>,
    keys: map<ChannelId, Key>,
    selected: seq<ChannelId>,
    nextId: ChannelId)

  /** The client's outbound queue, and the messages written to the wire so
      far, in the order they were written. */
  datatype Outbox = Outbox(messages: seq<string>, transmitted: seq<string>)

  /** What the handlers have been seen to do: every selected key taken
      from the iterator with its handler, every payload handed to
      `handleIncomingData`, and every string passed to `onMessage`. */
  datatype Trace = Trace(dispatched: seq<Dispatch>, deliveries: seq<Delivery>, handled: seq<string>)

  datatype World = World(
    running: bool,
    selectorOpen: bool,
    net: Net,
    buffer: string,
    position: nat,
    out: Outbox,
    trace: Trace)

  /** Every registered channel exists, fresh channel identities lie above
      every used one, and the selected keys are registered and distinct. */
  predicate NetWellFormed(n: Net) {
    n.keys.Keys <= n.channels.Keys
    && (forall id :: id in n.channels ==> id < n.nextId)
    && (forall id :: id in n.selected ==> id in n.keys)
    && NoDuplicates(n.selected)
  }

  /** The invariant every transition keeps: the selector state is well
      formed and the buffer position lies within its capacity. */
  predicate WellFormed(w: World) {
    NetWellFormed(w.net) && w.position <= |w.buffer|
  }

  /** What no step of the loop changes: the running flag, whether the
      selector is open, the capacity of the buffer. */
  predicate Stable(w: World, r: World) {
    r.running == w.running && r.selectorOpen == w.selectorOpen && |r.buffer| == |w.buffer|
  }

  /** Only the channel `id` and its key may differ; no channel or key
      appears or disappears, and the selected set stays as it is. */
  predicate OnlyTouches(n: Net, r: Net, id: ChannelId) {
    r.selected == n.selected && r.nextId == n.nextId
    && r.channels.Keys == n.channels.Keys && r.keys.Keys == n.keys.Keys
    && (forall j :: j in n.channels && j != id ==> r.channels[j] == n.channels[j])
    && (forall j :: j in n.keys && j != id ==> r.keys[j] == n.keys[j])
  }

  /** The state a component starts in: not running, the selector open, and
      the role's own channel registered under identity 0. A client's
      channel is a non-blocking socket whose connect has been initiated,
      registered for OP_CONNECT; a server's is a listening channel
      registered for OP_ACCEPT. */
  function Initial(role: Role, buffer: string): (w: World)
    ensures WellFormed(w) && !w.running && w.selectorOpen
    ensures w.net.keys.Keys == w.net.channels.Keys == {0}
    ensures w.net.channels[0].open && !w.net.channels[0].blocking && w.net.keys[0].valid
    ensures role.ClientRole? ==> w.net.channels[0].kind == SocketChannel && w.net.keys[0].interest == {OpConnect}
    ensures role.ServerRole? ==> w.net.channels[0].kind == ListenerChannel && w.net.keys[0].interest == {OpAccept}
    ensures w.buffer == buffer && w.position == 0 && w.net.selected == [] && w.out.messages == []
  {
    var kind := if role.ClientRole? then SocketChannel else ListenerChannel;
    var op := if role.ClientRole? then OpConnect else OpAccept;
    var net := Net(map[0 := Channel(kind, true, false)], map[0 := Key(true, {op}, {})], [], 1);
    World(false, true, net, buffer, 0, Outbox([], []), Trace([], [], []))
  }

  /** `start`: the loop is to run (the thread it runs on is not modelled). */
  function Start(w: World): (r: World)
    ensures r.running && r.(running := w.running) == w
  {
    w.(running := true)
  }

  /** `stop`: the loop is to end after its current iteration. */
  function Stop(w: World): (r: World)
    ensures !r.running && r.(running := w.running) == w
  {
    w.(running := false)
  }

  /** `channel.close()` and `key.cancel()` for one channel. */
  function CloseAndCancel(n: Net, id: ChannelId): (r: Net)
    requires NetWellFormed(n) && id in n.keys
    ensures NetWellFormed(r) && OnlyTouches(n, r, id)
    ensures r.channels[id] == n.channels[id].(open := false)
    ensures r.keys[id] == n.keys[id].(valid := false)
  {
    n.(channels := n.channels[id := n.channels[id].(open := false)],
       keys := n.keys[id := n.keys[id].(valid := false)])
  }

  /** `connect`: finish the connection; on success make the channel
      non-blocking and register it for writing, on failure close the
      channel and cancel its key. The failure is not propagated. */
  function Connect(n: Net, id: ChannelId, finished: bool): (r: Net)
    requires NetWellFormed(n) && id in n.keys
    ensures NetWellFormed(r) && OnlyTouches(n, r, id)
    ensures finished ==> r.keys[id] == n.keys[id].(interest := {OpWrite})
                         && r.channels[id] == n.channels[id].(blocking := false)
    ensures !finished ==> !r.channels[id].open && !r.keys[id].valid
  {
    if finished then
      n.(channels := n.channels[id := n.channels[id].(blocking := false)],
         keys := n.keys[id := n.keys[id].(interest := {OpWrite})])
    else CloseAndCancel(n, id)
  }

  /** `accept`: take one pending connection, make it non-blocking and
      register it for reading. A null result (no pending connection) makes
      the next call throw a NullPointerException, which nothing catches; an
      IOException from `accept()` escapes to `runMainLoop`. */
  function Accept(n: Net, res: AcceptResult): (r: (Net, Status))
    requires NetWellFormed(n)
    ensures NetWellFormed(r.0)
    ensures res.AcceptOk? <==> r.1 == Completed
    ensures res.AcceptNone? <==> r.1 == Crashed
    ensures r.1 != Completed ==> r.0 == n
    ensures r.1 == Completed ==>
      n.nextId !in n.channels && r.0.selected == n.selected
      && r.0.channels == n.channels[n.nextId := Channel(SocketChannel, true, false)]
      && r.0.keys == n.keys[n.nextId := Key(true, {OpRead}, {})]
  {
    match res
    case AcceptOk =>
      var next := n.nextId;
      (n.(channels := n.channels[next := Channel(SocketChannel, true, false)],
          keys := n.keys[next := Key(true, {OpRead}, {})],
          nextId := next + 1), Completed)
    case AcceptNone => (n, Crashed)
    case AcceptFault => (n, Threw)
  }

  function Min(a: nat, b: nat): nat { if a < b then a else b }

  /** `handleIncomingData`: the payload is recorded as delivered; the
      client splits it on the delimiter and passes each piece, in order, to
      the application's `onMessage`; nothing else is recorded. */
  function HandleIncomingData(t: Trace, id: ChannelId, data: string, role: Role): (r: Trace)
    ensures r.dispatched == t.dispatched
    ensures r.deliveries == t.deliveries + [Delivery(id, data)]
    ensures role.ClientRole? ==> r.handled == t.handled + Split(data, role.delimiter)
    ensures role.ServerRole? ==> r.handled == t.handled
  {
    t.(deliveries := t.deliveries + [Delivery(id, data)],
       handled := if role.ClientRole? then t.handled + Split(data, role.delimiter) else t.handled)
  }

  /** `read`: clear the buffer and read once into it. A fault or the end of
      the stream closes the channel and cancels its key and delivers
      nothing; otherwise exactly the characters read, the first `position`
      of the buffer, are delivered. A read transfers at most the buffer's
      capacity; what does not fit stays in the socket. */
  function Read(w: World, id: ChannelId, res: ReadResult, role: Role): (r: World)
    requires WellFormed(w) && id in w.net.keys
    ensures WellFormed(r) && Stable(w, r) && r.out == w.out
    ensures !res.ReadBytes? ==>
      r.net == CloseAndCancel(w.net, id) && r.position == 0
      && r.buffer == w.buffer && r.trace == w.trace
    ensures res.ReadBytes? ==>
      var n := r.position;
      n <= |res.available| && (n == |res.available| || n == |w.buffer|)
      && r.buffer[..n] == res.available[..n] && r.buffer[n..] == w.buffer[n..]
      && r.net == w.net
      && r.trace == HandleIncomingData(w.trace, id, r.buffer[..n], role)
  {
    match res
    case ReadFault => w.(net := CloseAndCancel(w.net, id), position := 0)
    case ReadEof => w.(net := CloseAndCancel(w.net, id), position := 0)
    case ReadBytes(available) =>
      var n := Min(|available|, |w.buffer|);
      var buffer := available[..n] + w.buffer[n..];
      assert buffer[..n] == available[..n];
      w.(buffer := buffer, position := n, trace := HandleIncomingData(w.trace, id, buffer[..n], role))
  }

  /** The client's `write` hook: poll each queued message, front first,
      and write it whole; then set the key's interest to OP_READ. If a
      write throws, the message just polled is lost, the rest stay queued
      and the IOException escapes to `runMainLoop`. The server's hook is
      not part of this model and changes nothing here. */
  function Write(w: World, id: ChannelId, res: WriteResult, role: Role): (r: (World, Status))
    requires WellFormed(w) && id in w.net.keys
    ensures WellFormed(r.0) && r.1 != Crashed
    ensures r.0 == w.(net := r.0.net, out := r.0.out)
    ensures role.ServerRole? ==> r == (w, Completed)
    ensures role.ClientRole? ==> (r.1 == Threw <==> res.WriteFailsAt? && res.index < |w.out.messages|)
    ensures role.ClientRole? && r.1 == Completed ==>
      r.0.out == Outbox([], w.out.transmitted + w.out.messages)
      && r.0.net == w.net.(keys := w.net.keys[id := w.net.keys[id].(interest := {OpRead})])
    ensures role.ClientRole? && r.1 == Threw ==>
      res.WriteFailsAt? && res.index < |w.out.messages| && r.0.net == w.net
      && r.0.out == Outbox(w.out.messages[res.index + 1..], w.out.transmitted + w.out.messages[..res.index])
  {
    var q := w.out;
    if role.ServerRole? then (w, Completed)
    else if res.WriteFailsAt? && res.index < |q.messages| then
      (w.(out := Outbox(q.messages[res.index + 1..], q.transmitted + q.messages[..res.index])), Threw)
    else
      (w.(out := Outbox([], q.transmitted + q.messages),
          net := w.net.(keys := w.net.keys[id := w.net.keys[id].(interest := {OpRead})])), Completed)
  }

  /** The handler a selected channel gets in the current state. */
  function HandlerOf(keys: map<ChannelId, Key>, id: ChannelId): Handler {
    if id in keys then Choose(keys[id]) else Skip
  }

  /** The record of one key taken from the iterator. */
  function Dispatched(w: World, id: ChannelId): (r: World)
    ensures r.trace.dispatched == w.trace.dispatched + [Dispatch(id, HandlerOf(w.net.keys, id))]
    ensures r == w.(trace := r.trace) && r.trace == w.trace.(dispatched := r.trace.dispatched)
  {
    w.(trace := w.trace.(dispatched := w.trace.dispatched + [Dispatch(id, HandlerOf(w.net.keys, id))]))
  }

  /** One selected key, already removed from the selected set: an invalid
      key is skipped; a valid one goes to exactly one handler, chosen in
      the order connect, accept, read, write. No handler touches the
      selected set. */
  function HandleKey(w: World, id: ChannelId, os: Os, role: Role): (r: (World, Status))
    requires WellFormed(w) && id !in w.net.selected
    ensures WellFormed(r.0) && Stable(w, r.0) && r.0.net.selected == w.net.selected
    ensures r.0.trace.dispatched == w.trace.dispatched + [Dispatch(id, HandlerOf(w.net.keys, id))]
  {
    var w1 := Dispatched(w, id);
    match HandlerOf(w.net.keys, id)
    case Skip => (w1, Completed)
    case Idle => (w1, Completed)
    case OnConnect => (w1.(net := Connect(w1.net, id, os.finishConnect(id))), Completed)
    case OnAccept =>
      var a := Accept(w1.net, os.accept(id));
      (w1.(net := a.0), a.1)
    case OnRead => (Read(w1, id, os.read(id), role), Completed)
    case OnWrite => Write(w1, id, os.write(id), role)
  }

  /** What handling one key may do besides recording the dispatch: no key
      but its own changes; only the accept and write handlers let an
      IOException escape, and only accept ends the loop thread; a skipped
      or idle key changes nothing else. */
  lemma HandleKeyEffects(w: World, id: ChannelId, os: Os, role: Role)
    requires WellFormed(w) && id !in w.net.selected
    ensures var r := HandleKey(w, id, os, role);
            var h := HandlerOf(w.net.keys, id);
            (forall j :: j in w.net.keys && j != id ==> j in r.0.net.keys && r.0.net.keys[j] == w.net.keys[j])
            && (r.1 == Threw ==> h == OnAccept || h == OnWrite)
            && (r.1 == Crashed ==> h == OnAccept)
            && (h == Skip || h == Idle ==> r == (Dispatched(w, id), Completed))
  {
    var w1 := Dispatched(w, id);
    match HandlerOf(w.net.keys, id)
    case Skip =>
    case Idle =>
    case OnConnect => assert OnlyTouches(w1.net, Connect(w1.net, id, os.finishConnect(id)), id);
    case OnAccept =>
    case OnRead =>
    case OnWrite =>
  }

  /** The transition a valid key with a ready operation goes through: the
      one of the handler its state chooses, applied after the dispatch is
      recorded, and no other. */
  lemma HandleKeyRoutes(w: World, id: ChannelId, os: Os, role: Role)
    requires WellFormed(w) && id !in w.net.selected
    ensures var r := HandleKey(w, id, os, role);
            var h := HandlerOf(w.net.keys, id);
            var w1 := Dispatched(w, id);
            (h == OnConnect ==> r == (w1.(net := Connect(w1.net, id, os.finishConnect(id))), Completed))
            && (h == OnAccept ==> r == (w1.(net := Accept(w1.net, os.accept(id)).0), Accept(w1.net, os.accept(id)).1))
            && (h == OnRead ==> r == (Read(w1, id, os.read(id), role), Completed))
            && (h == OnWrite ==> r == Write(w1, id, os.write(id), role))
  {
  }

  /** `a` is what remains of `b` once some of its front is removed. */
  predicate IsSuffix(a: seq<ChannelId>, b: seq<ChannelId>) {
    |a| <= |b| && a == b[|b| - |a|..]
  }

  /** A suffix of the tail is a suffix. */
  lemma SuffixOfTail(a: seq<ChannelId>, b: seq<ChannelId>)
    requires b != [] && (a == b[1..] || IsSuffix(a, b[1..]))
    ensures IsSuffix(a, b)
  {
    assert b[1..][|b| - 1 - |a|..] == b[|b| - |a|..];
  }

  /** The iterator's `remove` of the first selected key. */
  function Advance(w: World): (r: World)
    requires WellFormed(w) && w.net.selected != []
    ensures WellFormed(r) && Stable(w, r) && r.net.selected == w.net.selected[1..]
    ensures w.net.selected[0] !in r.net.selected
  {
    w.(net := w.net.(selected := w.net.selected[1..]))
  }

  /** The walk over the selected keys: each is removed from the selected
      set, then handled. An exception from a handler ends the walk; the
      keys not yet reached stay selected. */
  function ProcessSelected(w: World, os: Os, role: Role): (r: (World, Status))
    requires WellFormed(w)
    decreases |w.net.selected|
    ensures WellFormed(r.0) && Stable(w, r.0)
    ensures IsSuffix(r.0.net.selected, w.net.selected)
    ensures r.1 == Completed ==> r.0.net.selected == []
  {
    var s := w.net.selected;
    if s == [] then (w, Completed)
    else
      var w1 := Advance(w);
      var p := HandleKey(w1, s[0], os, role);
      if p.1 == Completed then
        var q := ProcessSelected(p.0, os, role);
        SuffixOfTail(q.0.net.selected, s);
        q
      else
        SuffixOfTail(p.0.net.selected, s);
        p
  }

  /** The selection itself: keys cancelled since the last one are
      deregistered (and leave the selected set), then the readiness the
      operating system reports is recorded: a live key joins the selected
      set when the report names it with an operation it is interested in. */
  function Select(n: Net, report: seq<Readiness>): (r: Net)
    requires NetWellFormed(n)
    ensures NetWellFormed(r) && r.channels == n.channels && r.nextId == n.nextId
    ensures forall id :: id in r.keys <==> id in n.keys && n.keys[id].valid
    ensures forall id :: id in r.keys ==> r.keys[id].interest == n.keys[id].interest && r.keys[id].valid
    ensures forall id :: id in r.selected <==>
      id in r.keys
      && (id in n.selected
          || exists k :: 0 <= k < |report| && report[k].id == id && report[k].ops * n.keys[id].interest != {})
  {
    var live := map id | id in n.keys && n.keys[id].valid :: n.keys[id];
    var marked := Mark(live, Registered(n.selected, live), report);
    n.(keys := marked.0, selected := marked.1)
  }

  /** The ready set a live key has after the selection: the reported
      operations of interest, added to its earlier readiness when it was
      already selected; as it was when the report names none of them. */
  lemma SelectReady(n: Net, report: seq<Readiness>, id: ChannelId)
    requires NetWellFormed(n) && id in Select(n, report).keys
    ensures var ops := ReportedOps(report, id, n.keys[id].interest);
            Select(n, report).keys[id].ready ==
              if ops == {} then n.keys[id].ready
              else (if id in n.selected then n.keys[id].ready else {}) + ops
  {
    var live := map id | id in n.keys && n.keys[id].valid :: n.keys[id];
    MarkReady(live, Registered(n.selected, live), report, id);
  }

  /** `runMainLoop`: select, then walk the selected keys. An IOException,
      from the selection or from a handler, is caught and the iteration
      ends; only an unchecked exception ends the loop thread (`crashed`).
      The selector `cleanUp` closed is never reopened: `select` on it throws
      the unchecked ClosedSelectorException before anything is selected. */
  function MainLoop(w: World, round: Round, role: Role): (r: (World, bool))
    requires WellFormed(w)
    ensures WellFormed(r.0) && Stable(w, r.0)
    ensures !w.selectorOpen ==> r == (w, true)
    ensures w.selectorOpen && round.select.SelectFault? ==> r == (w, false)
    ensures w.selectorOpen && round.select.Woke? ==>
      var walk := ProcessSelected(w.(net := Select(w.net, round.select.report)), round.os, role);
      r.0 == walk.0 && (r.1 <==> walk.1 == Crashed)
  {
    if !w.selectorOpen then (w, true)
    else
      match round.select
      case SelectFault => (w, false)
      case Woke(report) =>
        var p := ProcessSelected(w.(net := Select(w.net, report)), round.os, role);
        (p.0, p.1 == Crashed)
  }

  /** `cleanUp`: close the channel of every key still registered, then the
      selector. Closing is best effort: it never stops the walk. */
  function CleanUp(w: World): (r: World)
    requires WellFormed(w)
    ensures WellFormed(r) && !r.selectorOpen
    ensures r == w.(net := r.net, selectorOpen := false)
    ensures r.net.selected == w.net.selected && r.net.nextId == w.net.nextId
    ensures r.net.keys.Keys == w.net.keys.Keys && r.net.channels.Keys == w.net.channels.Keys
    ensures forall id :: id in w.net.keys ==>
      r.net.channels[id] == w.net.channels[id].(open := false) && r.net.keys[id] == w.net.keys[id].(valid := false)
    ensures forall id :: id in w.net.channels && id !in w.net.keys ==> r.net.channels[id] == w.net.channels[id]
  {
    var n := w.net;
    w.(net := n.(channels := map id | id in n.channels ::
                              if id in n.keys then n.channels[id].(open := false) else n.channels[id],
                 keys := map id | id in n.keys :: n.keys[id].(valid := false)),
       selectorOpen := false)
  }

  /** `run`: iterate while `running` holds, then clean up. `stop` may be
      called during any iteration; the loop sees it at its next test. On a
      selector an earlier `cleanUp` closed, `cleanUp`'s `keys()` throws the
      unchecked ClosedSelectorException just as `select` does, and the
      thread dies with nothing changed. */
  function Run(w: World, rounds: seq<Round>, role: Role): (r: (World, RunExit))
    requires WellFormed(w)
    decreases |rounds|
    ensures WellFormed(r.0)
    ensures r.1 == CleanedUp <==> w.selectorOpen && !r.0.running
    ensures !w.running ==> r.1 == (if w.selectorOpen then CleanedUp else Died)
    ensures !w.selectorOpen ==> r.0 == w && (r.1 == Died <==> !w.running || rounds != [])
    ensures r.1 == CleanedUp ==> !r.0.selectorOpen
    ensures r.1 == CleanedUp ==> forall id :: id in r.0.net.keys ==> !r.0.net.keys[id].valid && !r.0.net.channels[id].open
  {
    if !w.running then (if w.selectorOpen then (CleanUp(w), CleanedUp) else (w, Died))
    else if rounds == [] then (w, StillRunning)
    else
      var m := MainLoop(w, rounds[0], role);
      if m.1 then (m.0, Died)
      else Run(m.0.(running := !rounds[0].stopRequested), rounds[1..], role)
  }

  /** `run` leaves its loop only through `stop`: it cleans up only when it
      started stopped or some iteration requested a stop, and it is still
      running after the given iterations only when none requested one. */
  lemma {:induction false} RunEndsOnlyOnStop(w: World, rounds: seq<Round>, role: Role)
    requires WellFormed(w)
    decreases |rounds|
    ensures var r := Run(w, rounds, role);
            (r.1 == CleanedUp ==> !w.running || exists i :: 0 <= i < |rounds| && rounds[i].stopRequested)
            && (r.1 == StillRunning ==> w.running && forall i :: 0 <= i < |rounds| ==> !rounds[i].stopRequested)
            && (r.1 == Died ==> w.running || !w.selectorOpen)
  {
    if w.running && rounds != [] {
      var m := MainLoop(w, rounds[0], role);
      if !m.1 {
        var next := m.0.(running := !rounds[0].stopRequested);
        RunEndsOnlyOnStop(next, rounds[1..], role);
        var r := Run(next, rounds[1..], role);
        assert Run(w, rounds, role) == r;
        if r.1 == CleanedUp && !rounds[0].stopRequested {
          var i :| 0 <= i < |rounds[1..]| && rounds[1..][i].stopRequested;
          assert rounds[i + 1].stopRequested;
        }
        if r.1 == StillRunning {
          forall i | 0 <= i < |rounds| ensures !rounds[i].stopRequested {
            if i > 0 { assert rounds[i] == rounds[1..][i - 1]; }
          }
        }
      }
    }
  }

  /** `sendMessage`: append the framed message to the queue, then set the
      interest of the client channel's key to OP_WRITE. When that key is no
      longer registered (`keyFor` gives null) or cancelled, the call throws
      after the message was queued (`ok` is false). */
  function SendMessage(w: World, m: string, d: Delimiter, root: ChannelId): (r: (World, bool))
    requires WellFormed(w)
    ensures WellFormed(r.0) && r.0 == w.(out := r.0.out, net := r.0.net)
    ensures r.0.out == w.out.(messages := w.out.messages + [Frame(m, d)])
    ensures r.1 <==> root in w.net.keys && w.net.keys[root].valid
    ensures r.1 ==> r.0.net == w.net.(keys := w.net.keys[root := w.net.keys[root].(interest := {OpWrite})])
    ensures !r.1 ==> r.0.net == w.net
  {
    var w1 := w.(out := w.out.(messages := w.out.messages + [Frame(m, d)]));
    if root in w.net.keys && w.net.keys[root].valid then
      (w1.(net := w.net.(keys := w.net.keys[root := w.net.keys[root].(interest := {OpWrite})])), true)
    else (w1, false)
  }
}
