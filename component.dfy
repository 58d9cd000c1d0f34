/** The component as the program has it: one object whose fields the event
    loop and the client's `sendMessage` update in place. `Abs` reads the
    fields as a `Driver.World`, and every method is proved to perform a
    transition of module Driver (the one of the same name; `Close` performs
    `CloseAndCancel` and `RunMainLoop` performs `MainLoop`), so the
    properties proved there hold of the object. */
module Component {
  import opened Nio
  import opened Framing
  import opened Driver

  /** `channel.read` into a cleared buffer: the characters waiting on the
      socket are copied to the front of the buffer until either runs out;
      `n` is the buffer's new position. */
  method Fill(buffer: array<char>, available: string) returns (n: nat)
    modifies buffer
    ensures n == Min(|available|, buffer.Length)
    ensures buffer[..] == available[..n] + old(buffer[..])[n..]
  {
    n := Min(|available|, buffer.Length);
    var i := 0;
    while i < n
      invariant i <= n
      invariant forall k :: 0 <= k < i ==> buffer[k] == available[k]
      invariant forall k :: i <= k < buffer.Length ==> buffer[k] == old(buffer[k])
    {
      buffer[i] := available[i];
      i := i + 1;
    }
  }

  /** The loop of `cleanUp`: for every registered key, close its channel
      (which cancels the key). Channels without a key are left alone. */
  method CloseAll(channels: map<ChannelId, Channel>, keys: map<ChannelId, Key>)
    returns (ch: map<ChannelId, Channel>, ks: map<ChannelId, Key>)
    requires keys.Keys <= channels.Keys
    ensures ks.Keys == keys.Keys && ch.Keys == channels.Keys
    ensures forall id :: id in keys ==> ks[id] == keys[id].(valid := false) && ch[id] == channels[id].(open := false)
    ensures forall id :: id in channels && id !in keys ==> ch[id] == channels[id]
  {
    var todo := keys.Keys;
    ch, ks := channels, keys;
    while todo != {}
      invariant todo <= keys.Keys && ks.Keys == keys.Keys && ch.Keys == channels.Keys
      invariant forall id :: id in ks ==>
        ks[id] == if id in todo then keys[id] else keys[id].(valid := false)
      invariant forall id :: id in ch ==>
        ch[id] == if id in keys && id !in todo then channels[id].(open := false) else channels[id]
      decreases todo
    {
      var id :| id in todo;
      ch := ch[id := ch[id].(open := false)];
      ks := ks[id := ks[id].(valid := false)];
      todo := todo - {id};
    }
  }

  class Component {
    /** Server or client (with the client's message delimiter). */
    const role: Role
    /** The receive buffer (`byteBuffer`), allocated once with a fixed
        capacity; `position` is how much of it the last read filled. */
    const buffer: array<char>
    var position: nat
    var running: bool
    var selectorOpen: bool
    var channels: map<ChannelId, Channel>
    var keys: map<ChannelId, Key>
    var selected: seq<ChannelId>
    var nextId: ChannelId
    /** The client's outbound queue and what has been written from it. */
    var messages: seq<string>
    var transmitted: seq<string>
    /** What the handlers have been seen to do. */
    var dispatched: seq<Dispatch>
    var deliveries: seq<Delivery>
    var handled: seq<string>

    /** The object's state as a value. */
    function Abs(): World
      reads this, buffer
    {
      World(running, selectorOpen, Net(channels, keys, selected, nextId), buffer[..], position,
            Outbox(messages, transmitted), Trace(dispatched, deliveries, handled))
    }

    predicate Valid()
      reads this, buffer
    {
      WellFormed(Abs())
    }

    /** The constructor of a component together with the role's `channel`
        and `selector` hooks: allocate the buffer, open the role's channel,
        and register it with a new selector under identity 0. */
    constructor (role: Role, capacity: nat)
      ensures this.role == role && fresh(buffer) && buffer.Length == capacity
      ensures Valid() && Abs() == Initial(role, buffer[..])
    {
      this.role := role;
      buffer := new char[capacity](_ => '\0');
      position := 0;
      running := false;
      selectorOpen := true;
      var kind := if role.ClientRole? then SocketChannel else ListenerChannel;
      var op := if role.ClientRole? then OpConnect else OpAccept;
      channels := map[0 := Channel(kind, true, false)];
      keys := map[0 := Key(true, {op}, {})];
      selected := [];
      nextId := 1;
      messages := [];
      transmitted := [];
      dispatched := [];
      deliveries := [];
      handled := [];
    }

    /** `start` (the thread the loop runs on is not modelled). */
    method Start()
      requires Valid()
      modifies this
      ensures Valid() && Abs() == Driver.Start(old(Abs()))
    {
      running := true;
    }

    /** `stop`. */
    method Stop()
      requires Valid()
      modifies this
      ensures Valid() && Abs() == Driver.Stop(old(Abs()))
    {
      running := false;
    }

    /** `connect` for the selected key of channel `id`; `finished` is
        whether `finishConnect` succeeds. */
    method Connect(id: ChannelId, finished: bool)
      requires Valid() && id in keys
      modifies this
      ensures Valid() && Abs() == old(Abs()).(net := Driver.Connect(old(Abs()).net, id, finished))
    {
      if finished {
        channels := channels[id := channels[id].(blocking := false)];
        keys := keys[id := keys[id].(interest := {OpWrite})];
      } else {
        Close(id);
      }
    }

    /** `accept`, with what the listening channel's `accept()` gives. */
    method Accept(res: AcceptResult) returns (status: Status)
      requires Valid()
      modifies this
      ensures Valid()
      ensures (Abs(), status) == (old(Abs()).(net := Driver.Accept(old(Abs()).net, res).0), Driver.Accept(old(Abs()).net, res).1)
    {
      match res
      case AcceptOk =>
        channels := channels[nextId := Channel(SocketChannel, true, false)];
        keys := keys[nextId := Key(true, {OpRead}, {})];
        nextId := nextId + 1;
        status := Completed;
      case AcceptNone =>
        status := Crashed;
      case AcceptFault =>
        status := Threw;
    }

    /** `channel.close()` and `key.cancel()` for channel `id`. */
    method Close(id: ChannelId)
      requires Valid() && id in keys
      modifies this
      ensures Valid() && Abs() == old(Abs()).(net := CloseAndCancel(old(Abs()).net, id))
    {
      channels := channels[id := channels[id].(open := false)];
      keys := keys[id := keys[id].(valid := false)];
    }

    /** The role's `handleIncomingData`: the payload is recorded, and the
        client hands each piece of it to `onMessage`. */
    method HandleIncomingData(id: ChannelId, data: string)
      requires Valid()
      modifies this
      ensures Valid() && Abs() == old(Abs()).(trace := Driver.HandleIncomingData(old(Abs()).trace, id, data, role))
    {
      deliveries := deliveries + [Delivery(id, data)];
      if role.ClientRole? {
        handled := handled + Split(data, role.delimiter);
      }
    }

    /** `read` for the selected key of channel `id`: clear the buffer, read
        into it what the socket has, up to its capacity, and hand the
        filled part to `handleIncomingData`. */
    method Read(id: ChannelId, res: ReadResult)
      requires Valid() && id in keys
      modifies this, buffer
      ensures Valid() && Abs() == Driver.Read(old(Abs()), id, res, role)
    {
      position := 0;
      match res
      case ReadFault =>
        Close(id);
      case ReadEof =>
        Close(id);
      case ReadBytes(available) =>
        var n := Fill(buffer, available);
        position := n;
        HandleIncomingData(id, buffer[..n]);
    }

    /** The role's `write` hook for the selected key of channel `id`. The
        client polls the queue and writes each message until it is empty,
        then sets the key's interest to OP_READ; `res` says which write, if
        any, throws. */
    method Write(id: ChannelId, res: WriteResult) returns (status: Status)
      requires Valid() && id in keys
      modifies this
      ensures Valid() && (Abs(), status) == Driver.Write(old(Abs()), id, res, role)
    {
      if role.ServerRole? {
        return Completed;
      }
      var queue, written, sent := messages, transmitted, 0;
      while queue != []
        invariant sent <= |messages|
        invariant queue == messages[sent..]
        invariant written == transmitted + messages[..sent]
        invariant res.WriteFailsAt? ==> res.index >= sent
        decreases |queue|
      {
        var message := queue[0];
        queue := queue[1..];
        if res.WriteFailsAt? && res.index == sent {
          assert queue == messages[res.index + 1..];
          messages, transmitted := queue, written;
          return Threw;
        }
        assert messages[..sent + 1] == messages[..sent] + [message];
        written := written + [message];
        sent := sent + 1;
      }
      assert messages[..sent] == messages;
      messages, transmitted := [], written;
      keys := keys[id := keys[id].(interest := {OpRead})];
      status := Completed;
    }

    /** One key taken from the selected set: skip it when it is invalid,
        otherwise give it to the handler of its first ready operation in
        the order connect, accept, read, write. */
    method HandleKey(id: ChannelId, os: Os) returns (status: Status)
      requires Valid() && id !in selected
      modifies this, buffer
      ensures Valid() && (Abs(), status) == Driver.HandleKey(old(Abs()), id, os, role)
    {
      var h := HandlerOf(keys, id);
      dispatched := dispatched + [Dispatch(id, h)];
      status := Completed;
      match h
      case Skip =>
      case Idle =>
      case OnConnect =>
        Connect(id, os.finishConnect(id));
      case OnAccept =>
        status := Accept(os.accept(id));
      case OnRead =>
        Read(id, os.read(id));
      case OnWrite =>
        status := Write(id, os.write(id));
    }

    /** The iterator walk of `runMainLoop`: remove each selected key, then
        handle it; a handler's exception ends the walk. */
    method ProcessSelected(os: Os) returns (status: Status)
      requires Valid()
      modifies this, buffer
      ensures Valid() && (Abs(), status) == Driver.ProcessSelected(old(Abs()), os, role)
    {
      ghost var target := Driver.ProcessSelected(Abs(), os, role);
      status := Completed;
      while selected != []
        invariant Valid() && Driver.ProcessSelected(Abs(), os, role) == target
        invariant status == Completed
        decreases |selected|
      {
        var id := selected[0];
        selected := selected[1..];
        status := HandleKey(id, os);
        if status != Completed {
          return;
        }
      }
    }

    /** `selector.select`, when it returns: deregister cancelled keys and
        record the readiness the operating system reports. */
    method Select(report: seq<Readiness>)
      requires Valid()
      modifies this
      ensures Valid() && Abs() == old(Abs()).(net := Driver.Select(old(Abs()).net, report))
    {
      var n := Driver.Select(Net(channels, keys, selected, nextId), report);
      keys := n.keys;
      selected := n.selected;
    }

    /** `runMainLoop`; `crashed` is whether an unchecked exception ends the
        loop thread, as `select` on a closed selector does. */
    method RunMainLoop(round: Round) returns (crashed: bool)
      requires Valid()
      modifies this, buffer
      ensures Valid() && (Abs(), crashed) == MainLoop(old(Abs()), round, role)
    {
      if !selectorOpen {
        return true;
      }
      match round.select
      case SelectFault =>
        crashed := false;
      case Woke(report) =>
        Select(report);
        var status := ProcessSelected(round.os);
        crashed := status == Crashed;
    }

    /** `cleanUp`: close the channel of every registered key, then the
        selector. */
    method CleanUp()
      requires Valid()
      modifies this
      ensures Valid() && Abs() == Driver.CleanUp(old(Abs()))
    {
      ghost var w := Abs();
      var ch, ks := CloseAll(channels, keys);
      ghost var r := Driver.CleanUp(w);
      assert ks == r.net.keys;
      assert ch == r.net.channels;
      channels, keys, selectorOpen := ch, ks, false;
    }

    /** `run`, over the iterations `rounds` describes: loop while `running`
        holds, then clean up. `stop` called during an iteration is seen at
        the next test of the loop. */
    method Run(rounds: seq<Round>) returns (exit: RunExit)
      requires Valid()
      modifies this, buffer
      ensures Valid() && (Abs(), exit) == Driver.Run(old(Abs()), rounds, role)
    {
      ghost var target := Driver.Run(Abs(), rounds, role);
      var i := 0;
      while running
        invariant i <= |rounds| && Valid()
        invariant Driver.Run(Abs(), rounds[i..], role) == target
        decreases |rounds| - i
      {
        if i == |rounds| {
          return StillRunning;
        }
        var crashed := RunMainLoop(rounds[i]);
        if crashed {
          return Died;
        }
        if rounds[i].stopRequested {
          Stop();
        }
        assert rounds[i..][1..] == rounds[i + 1..];
        i := i + 1;
      }
      if !selectorOpen {
        return Died;
      }
      CleanUp();
      exit := CleanedUp;
    }

    /** The client's `sendMessage`: queue the framed message, then ask for
        OP_WRITE on the key of the client's channel (identity 0); `ok` is
        false when that key is gone or cancelled and the call throws. */
    method SendMessage(m: string) returns (ok: bool)
      requires Valid() && role.ClientRole?
      modifies this
      ensures Valid() && (Abs(), ok) == Driver.SendMessage(old(Abs()), m, role.delimiter, 0)
    {
      messages := messages + [Frame(m, role.delimiter)];
      if 0 in keys && keys[0].valid {
        keys := keys[0 := keys[0].(interest := {OpWrite})];
        ok := true;
      } else {
        ok := false;
      }
    }
  }
}
