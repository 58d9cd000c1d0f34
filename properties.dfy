/** Properties of the event loop and the client that relate several
    transitions: the order in which selected keys are dispatched, the fate
    of every queued message, the trip of messages from the client's queue
    through the wire to `onMessage`, and shutdown. */
module Properties {
  import opened Nio
  import opened Framing
  import opened Driver

  /** The dispatch record of a walk over `ids` in which every key keeps
      the state it has in `keys`. */
  function Expected(keys: map<ChannelId, Key>, ids: seq<ChannelId>): (r: seq<Dispatch>)
    ensures |r| == |ids|
  {
    if ids == [] then [] else [Dispatch(ids[0], HandlerOf(keys, ids[0]))] + Expected(keys, ids[1..])
  }

  /** Two key maps that agree on every channel of `ids` give the walk over
      `ids` the same dispatch record. */
  lemma ExpectedAgree(k1: map<ChannelId, Key>, k2: map<ChannelId, Key>, ids: seq<ChannelId>)
    requires forall j :: j in ids ==> j in k1 && j in k2 && k1[j] == k2[j]
    ensures Expected(k1, ids) == Expected(k2, ids)
  {
    if ids != [] {
      assert ids[0] in ids;
      assert forall j :: j in ids[1..] ==> j in ids;
      ExpectedAgree(k1, k2, ids[1..]);
    }
  }

  /** The first step of a walk: the head is removed and handled to `p`,
      which records its dispatch and leaves the key of every other selected
      channel as it was; the walk goes on from `p` unless the handler threw. */
  lemma FirstStep(w: World, os: Os, role: Role) returns (p: (World, Status))
    requires WellFormed(w) && w.net.selected != []
    ensures WellFormed(p.0) && p.0.net.selected == w.net.selected[1..]
    ensures p.0.trace.dispatched == w.trace.dispatched + [Dispatch(w.net.selected[0], HandlerOf(w.net.keys, w.net.selected[0]))]
    ensures forall j :: j in w.net.selected[1..] ==> j in w.net.keys && j in p.0.net.keys && p.0.net.keys[j] == w.net.keys[j]
    ensures ProcessSelected(w, os, role) == if p.1 == Completed then ProcessSelected(p.0, os, role) else p
  {
    p := HandleKey(Advance(w), w.net.selected[0], os, role);
    HandleKeyEffects(Advance(w), w.net.selected[0], os, role);
  }

  /** One step of the dispatch record: when the head of `s` is dispatched
      first (record `dp`) and the walk over the rest then appends what the
      keys `kp` choose for the channels it reaches, the whole record is what
      the original keys `kw` choose, as long as the two key maps agree on
      the rest of `s`. */
  lemma DispatchStep(dw: seq<Dispatch>, dp: seq<Dispatch>, dq: seq<Dispatch>,
                     kw: map<ChannelId, Key>, kp: map<ChannelId, Key>, s: seq<ChannelId>, n: nat)
    requires s != [] && n < |s|
    requires dp == dw + [Dispatch(s[0], HandlerOf(kw, s[0]))]
    requires dq == dp + Expected(kp, s[1..][..|s| - 1 - n])
    requires forall j :: j in s[1..] ==> j in kw && j in kp && kp[j] == kw[j]
    ensures dq == dw + Expected(kw, s[..|s| - n])
  {
    var done := s[1..][..|s| - 1 - n];
    assert forall j :: j in done ==> j in s[1..];
    ExpectedAgree(kp, kw, done);
    assert s[..|s| - n] == [s[0]] + done;
    assert Expected(kw, [s[0]] + done) == [Dispatch(s[0], HandlerOf(kw, s[0]))] + Expected(kw, done);
  }

  /** The walk from `w` dispatched each key it reached exactly once, in
      iteration order, to the handler chosen from the keys' state in `w`. */
  predicate DispatchedAsSelected(w: World, os: Os, role: Role)
    requires WellFormed(w)
  {
    var r := ProcessSelected(w, os, role);
    var s := w.net.selected;
    r.0.trace.dispatched == w.trace.dispatched + Expected(w.net.keys, s[..|s| - |r.0.net.selected|])
  }

  /** The walk over the selected keys dispatches each key it reaches
      exactly once, in iteration order, to the handler its state chose
      before the walk began: handling one key never changes the handler
      another selected key gets. */
  lemma {:induction false} DispatchedInOrder(w: World, os: Os, role: Role)
    requires WellFormed(w)
    decreases |w.net.selected|
    ensures DispatchedAsSelected(w, os, role)
  {
    var s := w.net.selected;
    if s == [] {
      assert s[..0] == [];
    } else {
      var p := FirstStep(w, os, role);
      if p.1 == Completed {
        var q := ProcessSelected(p.0, os, role);
        DispatchedInOrder(p.0, os, role);
        DispatchStep(w.trace.dispatched, p.0.trace.dispatched, q.0.trace.dispatched,
                     w.net.keys, p.0.net.keys, s, |q.0.net.selected|);
      } else {
        assert s[..|s| - |p.0.net.selected|] == [s[0]];
        assert Expected(w.net.keys, [s[0]]) == [Dispatch(s[0], HandlerOf(w.net.keys, s[0]))];
      }
    }
  }

  /** Every message the client's write hook takes from the queue ends up
      on the wire, in queue order, except at most one: the message whose
      write threw, which is neither sent nor kept. */
  lemma DrainKeepsOrder(w: World, id: ChannelId, res: WriteResult, d: Delimiter)
    requires WellFormed(w) && id in w.net.keys
    ensures var r := Write(w, id, res, ClientRole(d));
            var before := w.out.transmitted + w.out.messages;
            (r.1 == Threw <==> res.WriteFailsAt? && res.index < |w.out.messages|)
            && (r.1 == Completed ==> r.0.out.transmitted == before && r.0.out.messages == [])
            && (r.1 == Threw ==>
                  exists lost :: r.0.out.transmitted + [lost] + r.0.out.messages == before)
  {
    var r := Write(w, id, res, ClientRole(d));
    if r.1 == Threw {
      var i := res.index;
      var q := w.out.messages;
      assert q == q[..i] + [q[i]] + q[i + 1..];
      assert r.0.out.transmitted + [q[i]] + r.0.out.messages == w.out.transmitted + w.out.messages;
    }
  }

  /** A payload made of framed messages that fits in the buffer reaches
      the client's `onMessage` as exactly those messages, in order. */
  lemma ReceiveFramed(w: World, id: ChannelId, ms: seq<string>, d: Delimiter)
    requires WellFormed(w) && id in w.net.keys
    requires ms != [] && ms[|ms| - 1] != ""
    requires forall k :: 0 <= k < |ms| ==> Unambiguous(ms[k], d)
    requires |Concat(Frames(ms, d))| <= |w.buffer|
    ensures Read(w, id, ReadBytes(Concat(Frames(ms, d))), ClientRole(d)).trace.handled == w.trace.handled + ms
  {
    var s := Concat(Frames(ms, d));
    var r := Read(w, id, ReadBytes(s), ClientRole(d));
    assert r.buffer[..r.position] == s by {
      assert r.position == |s|;
      assert s[..|s|] == s;
    }
    RoundTrip(ms, d);
  }

  /** `sendMessage` called once for each message, in order. */
  function SendAll(w: World, ms: seq<string>, d: Delimiter, root: ChannelId): (r: World)
    requires WellFormed(w)
    decreases |ms|
    ensures WellFormed(r)
    ensures r.out == w.out.(messages := w.out.messages + Frames(ms, d))
    ensures r.net.keys.Keys == w.net.keys.Keys
  {
    if ms == [] then w
    else
      var w1 := SendMessage(w, ms[0], d, root).0;
      var r := SendAll(w1, ms[1..], d, root);
      assert Frames(ms, d) == [Frame(ms[0], d)] + Frames(ms[1..], d);
      assert w.out.messages + [Frame(ms[0], d)] + Frames(ms[1..], d) == w.out.messages + Frames(ms, d);
      r
  }

  /** Sending messages and then flushing the queue puts on the wire
      exactly the bytes that split back into those messages: the client's
      transmission order is the order of `sendMessage` calls, and the
      framing round-trips. */
  lemma SendThenFlushRoundTrip(w: World, ms: seq<string>, d: Delimiter, root: ChannelId, id: ChannelId)
    requires WellFormed(w) && w.out.messages == [] && id in w.net.keys
    requires ms != [] && ms[|ms| - 1] != ""
    requires forall k :: 0 <= k < |ms| ==> Unambiguous(ms[k], d)
    ensures var r := Write(SendAll(w, ms, d, root), id, WritesSucceed, ClientRole(d));
            r.1 == Completed && r.0.out.messages == []
            && Split(Concat(r.0.out.transmitted[|w.out.transmitted|..]), d) == ms
  {
    var sent := SendAll(w, ms, d, root);
    var r := Write(sent, id, WritesSucceed, ClientRole(d));
    assert sent.out.messages == Frames(ms, d) by {
      assert [] + Frames(ms, d) == Frames(ms, d);
    }
    var t := r.0.out.transmitted;
    assert t == w.out.transmitted + Frames(ms, d);
    assert t[|w.out.transmitted|..] == Frames(ms, d);
    RoundTrip(ms, d);
  }

  /** `sendMessage` replaces the interest set: called before the connection
      is finished, it turns the client's OP_CONNECT interest into OP_WRITE,
      and a later report that the connection can be finished no longer
      selects the client's key. */
  lemma SendBeforeConnect(buffer: string, d: Delimiter, m: string)
    ensures var w := SendMessage(Initial(ClientRole(d), buffer), m, d, 0).0;
            w.net.keys[0].interest == {OpWrite}
            && 0 !in Select(w.net, [Readiness(0, {OpConnect})]).selected
  {
    var w := SendMessage(Initial(ClientRole(d), buffer), m, d, 0).0;
    assert {OpConnect} * w.net.keys[0].interest == {};
  }

  /** A failing selection is caught and the loop goes on with its next
      iteration as if that one had not happened. */
  lemma SelectFaultIsContained(w: World, os: Os, rest: seq<Round>, role: Role)
    requires WellFormed(w) && w.running
    ensures Run(w, [Round(SelectFault, os, false)] + rest, role)
            == if w.selectorOpen then Run(w, rest, role) else (w, Died)
  {
    assert ([Round(SelectFault, os, false)] + rest)[1..] == rest;
  }

  /** An IOException from a handler ends only the current iteration: the
      loop goes on with the next one from the state the handler left. */
  lemma HandlerFaultIsContained(w: World, round: Round, rest: seq<Round>, role: Role)
    requires WellFormed(w) && w.running && round.select.Woke?
    ensures var walk := ProcessSelected(w.(net := Select(w.net, round.select.report)), round.os, role);
            var m := MainLoop(w, round, role);
            w.selectorOpen && walk.1 == Threw ==>
              !m.1 && Run(w, [round] + rest, role) == Run(m.0.(running := !round.stopRequested), rest, role)
  {
    assert ([round] + rest)[1..] == rest;
  }

  /** Once `stop` has been called the loop runs no further iteration: it
      closes every registered channel and the selector. Calling `stop`
      again changes nothing. */
  lemma StopThenRun(w: World, rounds: seq<Round>, role: Role)
    requires WellFormed(w)
    ensures Run(Stop(w), rounds, role)
            == if w.selectorOpen then (CleanUp(Stop(w)), CleanedUp) else (Stop(w), Died)
    ensures Stop(Stop(w)) == Stop(w)
  {
  }

  /** The selector `cleanUp` closes is never reopened: `run` started again
      on that component dies at its first `select`, or, when stopped before
      it looks, in `cleanUp`'s `keys()`; either way nothing changes. */
  lemma RestartAfterCleanUp(w: World, rounds: seq<Round>, role: Role)
    requires WellFormed(w)
    ensures var c := CleanUp(w);
            Run(Start(c), rounds, role) == (Start(c), if rounds == [] then StillRunning else Died)
            && Run(Stop(c), rounds, role) == (Stop(c), Died)
  {
  }

  /** The closing pass of `cleanUp` leaves nothing to close: applied to its
      own result it changes nothing. This is a fact about the pass, not a run
      of the program: a second `cleanUp` never completes, because `keys()` on
      the selector the first one closed throws (see `Driver.Run` and
      `RestartAfterCleanUp`). */
  lemma CleanUpIdempotent(w: World)
    requires WellFormed(w)
    ensures CleanUp(CleanUp(w)) == CleanUp(w)
  {
    var c := CleanUp(w);
    var cc := CleanUp(c);
    assert cc.net.channels == c.net.channels;
    assert cc.net.keys == c.net.keys;
  }
}
