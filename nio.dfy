/** The part of `java.nio` the event loop relies on, as plain state: the
    channels, the keys registering them with the one selector (validity,
    interest set, ready set), the selected-key set, and the outcomes the
    operating system may report for each operation. */
module Nio {

  type ChannelId = nat

  /** `SelectionKey.OP_CONNECT`, `OP_ACCEPT`, `OP_READ`, `OP_WRITE`. */
  datatype Op = OpConnect | OpAccept | OpRead | OpWrite

  datatype Kind = ListenerChannel | SocketChannel

  /** A selectable channel: open until closed, blocking until configured
      otherwise. */
  datatype Channel = Channel(kind: Kind, open: bool, blocking: bool)

  /** A selection key: valid until cancelled (closing the channel also
      cancels it), with its interest set and the ready set the last
      selection recorded. */
  datatype Key = Key(valid: bool, interest: set<Op>, ready: set<Op>)

  /** One channel the operating system reports ready for `ops`. */
  datatype Readiness = Readiness(id: ChannelId, ops: set<Op>)

  /** `selector.select(timeout)`: either it throws, or it reports readiness. */
  datatype SelectResult = SelectFault | Woke(report: seq<Readiness>)

  /** `ServerSocketChannel.accept()` on a non-blocking channel: a new
      connection, null (no connection pending), or an IOException. */
  datatype AcceptResult = AcceptOk | AcceptNone | AcceptFault

  /** `SocketChannel.read(buffer)`: an IOException, end of stream (-1), or
      the characters the peer has sent and that are waiting to be read. */
  datatype ReadResult = ReadFault | ReadEof | ReadBytes(available: string)

  /** The outcome of the successive `SocketChannel.write` calls of one
      drain of the outbound queue: all succeed, or the one writing the
      message at `index` throws. */
  datatype WriteResult = WritesSucceed | WriteFailsAt(index: nat)

  /** What the operating system answers, per channel, within one loop
      iteration (each selected key is handled at most once per iteration). */
  datatype Os = Os(
    finishConnect: ChannelId -> bool,
    accept: ChannelId -> AcceptResult,
    read: ChannelId -> ReadResult,
    write: ChannelId -> WriteResult)

  /** The handler one selected key is given to. `Skip`: the key is invalid;
      `Idle`: it is valid but none of the four readiness bits is set. */
  datatype Handler = Skip | OnConnect | OnAccept | OnRead | OnWrite | Idle

  /** The handler for each readiness kind. */
  function HandlerFor(op: Op): Handler {
    match op
    case OpConnect => OnConnect
    case OpAccept => OnAccept
    case OpRead => OnRead
    case OpWrite => OnWrite
  }

  /** The order in which the loop tests the readiness bits. */
  function Rank(op: Op): nat {
    match op
    case OpConnect => 0
    case OpAccept => 1
    case OpRead => 2
    case OpWrite => 3
  }

  /** The handler the loop picks for a selected key: none for an invalid
      key, otherwise the handler of the ready operation examined first. */
  function Choose(k: Key): (h: Handler)
    ensures h == Skip <==> !k.valid
  {
    if !k.valid then Skip
    else if OpConnect in k.ready then OnConnect
    else if OpAccept in k.ready then OnAccept
    else if OpRead in k.ready then OnRead
    else if OpWrite in k.ready then OnWrite
    else
      assert forall o: Op :: o in k.ready ==> o.OpConnect? || o.OpAccept? || o.OpRead? || o.OpWrite?;
      Idle
  }

  /** No channel appears twice (the selected keys form a set). */
  predicate NoDuplicates(s: seq<ChannelId>) {
    s == [] || (s[0] !in s[1..] && NoDuplicates(s[1..]))
  }

  /** Appending a channel not yet present keeps the channels distinct. */
  lemma {:induction false} NoDuplicatesAppend(s: seq<ChannelId>, id: ChannelId)
    ensures NoDuplicates(s) && id !in s ==> NoDuplicates(s + [id])
  {
    if s != [] && NoDuplicates(s) && id !in s {
      assert (s + [id])[1..] == s[1..] + [id];
      NoDuplicatesAppend(s[1..], id);
    }
  }

  /** The loop's fixed priority: a valid key goes to the handler of `op`
      exactly when `op` is ready and no ready operation is examined before
      it; a valid key with nothing ready goes to no handler. */
  lemma ChoosePriority(k: Key, op: Op)
    ensures Choose(k) == HandlerFor(op) <==>
      k.valid && op in k.ready && forall o: Op :: o in k.ready ==> Rank(op) <= Rank(o)
    ensures Choose(k) == Idle <==> k.valid && k.ready == {}
  {
    assert forall o: Op :: o in k.ready ==> o.OpConnect? || o.OpAccept? || o.OpRead? || o.OpWrite?;
    if k.valid && k.ready != {} {
      var o :| o in k.ready;
      assert Choose(k) != Idle;
    }
  }

  /** The selected-key set without the keys that are no longer registered. */
  function Registered(selected: seq<ChannelId>, keys: map<ChannelId, Key>): (r: seq<ChannelId>)
    ensures forall id :: id in r <==> id in selected && id in keys
    ensures |r| <= |selected|
    ensures NoDuplicates(selected) ==> NoDuplicates(r)
  {
    if selected == [] then []
    else if selected[0] in keys then [selected[0]] + Registered(selected[1..], keys)
    else Registered(selected[1..], keys)
  }

  /** The operations of interest `interest` that `report` names for `id`. */
  function ReportedOps(report: seq<Readiness>, id: ChannelId, interest: set<Op>): set<Op>
    decreases |report|
  {
    if report == [] then {}
    else (if report[0].id == id then report[0].ops * interest else {}) + ReportedOps(report[1..], id, interest)
  }

  /** Records one readiness report: a registered key whose interest meets
      the reported operations joins the selected-key set with exactly those
      ready operations; a key already selected keeps its earlier readiness
      and gains the new one. */
  function Mark(keys: map<ChannelId, Key>, selected: seq<ChannelId>, report: seq<Readiness>)
    : (r: (map<ChannelId, Key>, seq<ChannelId>))
    ensures r.0.Keys == keys.Keys
    ensures forall id :: id in r.0 ==> r.0[id].valid == keys[id].valid && r.0[id].interest == keys[id].interest
    ensures forall id :: id in r.1 <==> id in selected || (id in keys && exists k :: 0 <= k < |report| && report[k].id == id && report[k].ops * keys[id].interest != {})
    ensures NoDuplicates(selected) ==> NoDuplicates(r.1)
    decreases |report|
  {
    if report == [] then (keys, selected)
    else
      var id := report[0].id;
      var ops := if id in keys then report[0].ops * keys[id].interest else {};
      if ops == {} then Mark(keys, selected, report[1..])
      else
        var k := keys[id];
        var k' := if id in selected then k.(ready := k.ready + ops) else k.(ready := ops);
        var selected' := if id in selected then selected else selected + [id];
        NoDuplicatesAppend(selected, id);
        Mark(keys[id := k'], selected', report[1..])
  }

  /** The ready set a key ends with: as it was when the report names none of
      its operations of interest; otherwise the reported operations of
      interest, added to its earlier readiness when it was already
      selected. */
  lemma {:induction false} MarkReady(keys: map<ChannelId, Key>, selected: seq<ChannelId>, report: seq<Readiness>, id: ChannelId)
    requires id in keys
    decreases |report|
    ensures var ops := ReportedOps(report, id, keys[id].interest);
            Mark(keys, selected, report).0[id].ready ==
              if ops == {} then keys[id].ready
              else (if id in selected then keys[id].ready else {}) + ops
  {
    if report != [] {
      var j := report[0].id;
      var ops := if j in keys then report[0].ops * keys[j].interest else {};
      if ops == {} {
        MarkReady(keys, selected, report[1..], id);
      } else {
        var k := keys[j];
        var k' := if j in selected then k.(ready := k.ready + ops) else k.(ready := ops);
        var selected' := if j in selected then selected else selected + [j];
        NoDuplicatesAppend(selected, j);
        MarkReady(keys[j := k'], selected', report[1..], id);
      }
    }
  }
}
