/** Both ends as objects: whatever handlers and callbacks run, in whatever order, is a session. */
module Pipelines {
  import opened Bytes
  import opened LinearMemory
  import opened Channels
  import opened Framing
  import opened ClientModel
  import opened ClientSafety
  import opened Session
  import opened Delivery
  import opened Playback
  import opened Worlds
  import opened ClientConnection
  import opened ServerConnection

  /** Something the operating system or the audio device does. `sdl` is what the device does meanwhile. */
  datatype Happening =
    | Written(n: nat)
    | Sendfile(r: SendResult)
    | Readable(n: nat, sdl: seq<seq<nat>>)
    | EndOfStream
    | PostedDecode(sdl: seq<seq<nat>>)
    | PostedReceive
    | PostedUnblock(sdl: seq<seq<nat>>)
    | Device(len: nat)

  function SdlOf(h: Happening): seq<seq<nat>> {
    match h
    case Readable(_, sdl) => sdl
    case PostedDecode(sdl) => sdl
    case PostedUnblock(sdl) => sdl
    case _ => []
  }

  /** Where both ends are. `cut` says that the server has given up a transfer; `calls` counts the library's calls. */
  datatype Moment = Moment(state: State, cut: bool, calls: nat)

  /** The action of the session that a happening begins with; none if it cannot happen now. */
  function First(o: Offer, m: Moment, h: Happening): (first: seq<Action>)
    ensures |first| <= 1
  {
    var server, wire, c := m.state.server, m.state.wire, m.state.client;
    match h
    case Written(n) =>
      if server.SendingTime? || server.SendingEnvelope? then [WriteSome(Least(n, |server.rest|))] else []
    case Sendfile(r) =>
      if server.SendingFile? && server.cur <= |o.file| && !m.cut
      then [SendChunk(if r.Sent? then Least(r.n, |o.file| - server.cur) else 0)] else []
    case Readable(n, _) =>
      var k := if c.reading.ReadInto? then Least(Least(n, |wire|), c.reading.room) else 0;
      if k > 0 then [ReadSome(k)] else []
    case EndOfStream => if c.reading.ReadInto? && server.Finished? && wire == [] then [ReadEnd] else []
    case PostedDecode(_) => if c.stream.decodePosts > 0 then [Local(RunDecode)] else []
    case PostedReceive => if c.stream.input.posted != [] then [Local(RunResume)] else []
    case PostedUnblock(_) => if c.stream.output.posted != [] then [Local(RunUnblock)] else []
    case Device(len) => if c.stream.started && len > 0 then [Local(Audio(len))] else []
  }

  /** The happening that begins with an action which is not a step inside a handler. */
  function Cause(a: Action, sdl: seq<seq<nat>>): Happening
    requires a.Local? ==> a.e.RunDecode? || a.e.RunResume? || a.e.RunUnblock? || a.e.Audio?
  {
    match a
    case WriteSome(n) => Written(n)
    case SendChunk(n) => Sendfile(if n == 0 then WouldBlock else Sent(n))
    case ReadSome(n) => Readable(n, sdl)
    case ReadEnd => EndOfStream
    case Local(e) =>
      match e
      case RunDecode => PostedDecode(sdl)
      case RunResume => PostedReceive
      case RunUnblock => PostedUnblock(sdl)
      case Audio(len) => Device(len)
  }

  ghost predicate IsSettled(l: Limits, m: Moment) {
    m.state.client.pc.Idle? && Fits(l, m.state.client.stream)
  }

  /**
   Between two handlers, whatever the session can do happens when it is caused, with the exception of a
   transfer that was given up; a `receive` that could run inside a handler can run after it.
   */
  lemma WhatCanBeDoneHappens(l: Limits, o: Offer, m: Moment, a: Action, sdl: seq<seq<nat>>)
    requires IsSettled(l, m) && CanDo(l, o, m.state, a) && !(m.cut && a.SendChunk?)
    ensures a == Local(ResumeInside) ==> First(o, m, PostedReceive) == [Local(RunResume)]
    ensures a != Local(ResumeInside) ==>
              && (a.Local? ==> a.e.RunDecode? || a.e.RunResume? || a.e.RunUnblock? || a.e.Audio?)
              && First(o, m, Cause(a, sdl)) == [a]
  {
  }

  /** And what happens can be done. */
  lemma WhatHappensCanBeDone(l: Limits, o: Offer, m: Moment, h: Happening, a: Action)
    requires IsSettled(l, m) && First(o, m, h) == [a]
    ensures CanDo(l, o, m.state, a)
  {
  }

  /** A happening takes as many bytes as it offers, or else all that can be taken. */
  lemma AsMuchAsPossible(l: Limits, o: Offer, m: Moment, n: nat, k: nat, sdl: seq<seq<nat>>)
    requires IsSettled(l, m)
    ensures First(o, m, Written(n)) == [WriteSome(k)] ==>
              k == n || (k < n && !CanDo(l, o, m.state, WriteSome(k + 1)))
    ensures First(o, m, Sendfile(Sent(n))) == [SendChunk(k)] ==>
              k == n || (k < n && !CanDo(l, o, m.state, SendChunk(k + 1)))
    ensures First(o, m, Readable(n, sdl)) == [ReadSome(k)] ==>
              k == n || (k < n && !CanDo(l, o, m.state, ReadSome(k + 1)))
  {
  }

  function CutAfter(o: Offer, m: Moment, h: Happening): bool {
    m.cut || (First(o, m, h) != [] && h == Sendfile(ConnectionLost) && o.file != [])
  }

  /** What a happening comes to: its first action, and the steps of the client's handler that follow. */
  datatype Deed = Deed(first: seq<Action>, es: seq<Event>, later: seq<seq<nat>>)

  function Actions(deed: Deed): seq<Action> {
    deed.first + Locals(deed.es)
  }

  /**
   If nothing can happen nothing changes. Otherwise the first action is done, and the client handles it
   in steps of its own, as the device and the library drive it.
   */
  ghost predicate Happens(
    l: Limits, library: Mp3Library, o: Offer, m: Moment, h: Happening, deed: Deed, next: Moment)
  {
    && deed.first == First(o, m, h)
    && if deed.first == [] then deed.es == [] && next == m
       else
         && CanDo(l, o, m.state, deed.first[0])
         && var t := Do(l, o, m.state, deed.first[0]);
            && next.state == t.(client := next.state.client) && next.cut == CutAfter(o, m, h)
            && Handles(l, library, t.client, World(SdlOf(h), m.calls), deed.es, next.state.client,
                       World(deed.later, next.calls))
  }

  lemma HappensGoes(l: Limits, library: Mp3Library, o: Offer, m: Moment, h: Happening, deed: Deed, next: Moment)
    requires Happens(l, library, o, m, h, deed, next)
    ensures Goes(l, o, m.state, Actions(deed), next.state)
    ensures if First(o, m, h) == [] then Actions(deed) == [] && next == m
            else Actions(deed) != [] && [Actions(deed)[0]] == First(o, m, h)
  {
    hide First, CanDo, Do, Goes, LocalRun, Driven;
    if deed.first == [] {
      assert Actions(deed) == [];
      NothingDone(l, o, m.state);
    } else {
      assert deed.first == [deed.first[0]];
      GoesThenLocal(l, o, m.state, deed.first[0], deed.es, next.state.client);
    }
  }

  lemma HappensNot(l: Limits, library: Mp3Library, o: Offer, m: Moment, h: Happening)
    requires First(o, m, h) == []
    ensures Happens(l, library, o, m, h, Deed([], [], []), m)
  {
  }

  /** A happening that no handler of the client follows. */
  lemma HappensOnce(l: Limits, library: Mp3Library, o: Offer, m: Moment, h: Happening, a: Action, next: Moment)
    requires First(o, m, h) == [a] && CanDo(l, o, m.state, a) && SdlOf(h) == []
    requires next.state == Do(l, o, m.state, a) && next.cut == CutAfter(o, m, h) && next.calls == m.calls
    ensures Happens(l, library, o, m, h, Deed([a], [], []), next)
  {
    HandlesNothing(l, library, next.state.client, World([], m.calls));
  }

  /** A happening that a handler of the client deals with. */
  lemma HappensAndIsHandled(
    l: Limits, library: Mp3Library, o: Offer, m: Moment, h: Happening, a: Action, deed: Deed, next: Moment)
    requires First(o, m, h) == [a] == deed.first && !h.Sendfile? && CanDo(l, o, m.state, a)
    requires Handles(l, library, Do(l, o, m.state, a).client, World(SdlOf(h), m.calls), deed.es, next.state.client,
                     World(deed.later, next.calls))
    requires next.state == Do(l, o, m.state, a).(client := next.state.client) && next.cut == m.cut
    ensures Happens(l, library, o, m, h, deed, next)
  {
  }

  lemma DoRead(l: Limits, o: Offer, s: State, k: nat)
    requires k <= |s.wire| && Enabled(l, s.client, Arrive(s.wire[..k]))
    ensures CanDo(l, o, s, ReadSome(k))
    ensures Do(l, o, s, ReadSome(k)) == State(s.server, s.wire[k..], Apply(l, s.client, Arrive(s.wire[..k])))
  {
  }

  lemma DoLocal(l: Limits, o: Offer, s: State, e: Event)
    requires IsLocal(e) && Enabled(l, s.client, e)
    ensures CanDo(l, o, s, Local(e)) && Do(l, o, s, Local(e)) == State(s.server, s.wire, Apply(l, s.client, e))
  {
  }

  /** One happening after the other leads from `m` to `end`, each by its deed. */
  ghost predicate Follows(
    l: Limits, library: Mp3Library, o: Offer, m: Moment, script: seq<Happening>, deeds: seq<Deed>, end: Moment)
    decreases |script|
  {
    && |deeds| == |script|
    && if script == [] then end == m
       else exists next :: Happens(l, library, o, m, script[0], deeds[0], next) &&
                           Follows(l, library, o, next, script[1..], deeds[1..], end)
  }

  lemma {:induction false} FollowsOn(
    l: Limits, library: Mp3Library, o: Offer, m: Moment, script: seq<Happening>, deeds: seq<Deed>, mid: Moment,
    h: Happening, deed: Deed, end: Moment)
    requires Follows(l, library, o, m, script, deeds, mid) && Happens(l, library, o, mid, h, deed, end)
    ensures Follows(l, library, o, m, script + [h], deeds + [deed], end)
    decreases |script|
  {
    hide Happens;
    if script == [] {
      assert (script + [h])[1..] == [] && (deeds + [deed])[1..] == [];
      assert Follows(l, library, o, end, [], [], end);
    } else {
      var next :| Happens(l, library, o, m, script[0], deeds[0], next) &&
                  Follows(l, library, o, next, script[1..], deeds[1..], mid);
      FollowsOn(l, library, o, next, script[1..], deeds[1..], mid, h, deed, end);
      assert (script + [h])[1..] == script[1..] + [h] && (deeds + [deed])[1..] == deeds[1..] + [deed];
    }
  }

  lemma FollowsNone(l: Limits, library: Mp3Library, o: Offer, m: Moment)
    ensures Follows(l, library, o, m, [], [], m)
  {
  }

  lemma FollowsPrefix(
    l: Limits, library: Mp3Library, o: Offer, m: Moment, script: seq<Happening>, i: nat, deeds: seq<Deed>, mid: Moment,
    deed: Deed, end: Moment, acts: seq<Action>)
    requires acts == [Local(Receive)] + Joined(deeds)
    requires i < |script| && Follows(l, library, o, m, script[..i], deeds, mid)
    requires Happens(l, library, o, mid, script[i], deed, end)
    ensures Follows(l, library, o, m, script[..i + 1], deeds + [deed], end)
    ensures acts + Actions(deed) == [Local(Receive)] + Joined(deeds + [deed])
  {
    hide Happens, Follows, Actions;
    FollowsOn(l, library, o, m, script[..i], deeds, mid, script[i], deed, end);
    assert script[..i] + [script[i]] == script[..i + 1];
    assert (deeds + [deed])[..|deeds|] == deeds;
  }

  lemma HappensNext(
    l: Limits, library: Mp3Library, o: Offer, s: State, acts: seq<Action>, m: Moment, h: Happening, deed: Deed,
    next: Moment)
    requires Goes(l, o, s, acts, m.state) && Happens(l, library, o, m, h, deed, next)
    ensures Goes(l, o, s, acts + Actions(deed), next.state)
  {
    hide Happens, Goes;
    HappensGoes(l, library, o, m, h, deed, next);
    GoesFar(l, o, s, acts, m.state, Actions(deed), next.state);
  }

  lemma {:induction false} JoinedFirst(deeds: seq<Deed>)
    requires deeds != []
    ensures Joined(deeds) == Actions(deeds[0]) + Joined(deeds[1..])
    decreases |deeds|
  {
    hide Actions, Joined;
    var n := |deeds| - 1;
    JoinedLast(deeds);
    JoinedLast(deeds[1..]);
    if n == 0 {
      assert deeds[..0] == [] && deeds[1..] == [];
      JoinedLast([]);
      assert [] + Actions(deeds[0]) == Actions(deeds[0]) + [];
    } else {
      JoinedFirst(deeds[..n]);
      assert deeds[..n][1..] == deeds[1..][..n - 1] && deeds[1..][n - 1] == deeds[n];
      Reassociated(Actions(deeds[0]), Joined(deeds[1..][..n - 1]), Actions(deeds[n]));
    }
  }

  lemma JoinedLast(deeds: seq<Deed>)
    ensures Joined(deeds) ==
              if deeds == [] then [] else Joined(deeds[..|deeds| - 1]) + Actions(deeds[|deeds| - 1])
  {
  }

  lemma Reassociated(a: seq<Action>, b: seq<Action>, c: seq<Action>)
    ensures (a + b) + c == a + (b + c)
  {
  }

  /** What follows a script is the session of its deeds. */
  lemma {:induction false} FollowsGoes(
    l: Limits, library: Mp3Library, o: Offer, m: Moment, script: seq<Happening>, deeds: seq<Deed>, end: Moment)
    requires Follows(l, library, o, m, script, deeds, end)
    ensures |deeds| == |script| && Goes(l, o, m.state, Joined(deeds), end.state)
    decreases |script|
  {
    hide Happens, Goes, Actions;
    if script == [] {
      NothingDone(l, o, m.state);
    } else {
      var next :| Happens(l, library, o, m, script[0], deeds[0], next) &&
                  Follows(l, library, o, next, script[1..], deeds[1..], end);
      HappensGoes(l, library, o, m, script[0], deeds[0], next);
      FollowsGoes(l, library, o, next, script[1..], deeds[1..], end);
      JoinedFirst(deeds);
      GoesFar(l, o, m.state, Actions(deeds[0]), next.state, Joined(deeds[1..]), end.state);
    }
  }

  /** The actions of all deeds, one after the other. */
  function Joined(deeds: seq<Deed>): seq<Action> {
    if deeds == [] then [] else Joined(deeds[..|deeds| - 1]) + Actions(deeds[|deeds| - 1])
  }

  class Pipeline {
    const server: TcpConnection
    const client: TcpClientConnection
    /** What is in the socket's buffers and on the network. */
    var wire: seq<byte>
    /** The session so far. */
    ghost var acts: seq<Action>

    ghost predicate Apart() {
      server.Parts() !! client.Parts() && this !in server.Parts() && this !in client.Parts()
    }

    ghost function Library(): Mp3Library {
      client.stream.library
    }

    ghost function Bounds(): Limits
      reads client.Parts()
    {
      client.Bounds()
    }

    ghost predicate Holds()
      reads this, server.Parts(), server.sendFile, client.Parts()
    {
      Apart() && server.Valid() && client.Valid() && Sound(Bounds())
    }

    ghost function Now(pc: Pc): Moment
      reads this, server.Parts(), server.sendFile, client.Parts()
      requires Holds()
    {
      Moment(State(server.Model(), wire, client.Model(pc)), server.phase.CutOff?, client.stream.calls)
    }

    ghost predicate Valid()
      reads this, server.Parts(), server.sendFile, client.Parts()
    {
      Holds() && Goes(Bounds(), server.offer, Begin(server.offer), acts, Now(Idle).state)
    }

    /** Connected, with the client about to call `receive` for the first time. */
    ghost predicate IsNew()
      reads this, server.Parts(), server.sendFile, client.Parts()
    {
      Holds() && Now(Receiving) == Moment(Begin(server.offer), false, 0)
    }

    constructor (offer: Offer, serverPage: nat, clientPage: nat, library: Mp3Library)
      requires IsPageSize(serverPage) && 2 * (8388608 + serverPage) < TWO_64
      requires IsPageSize(clientPage) && 2 * (65535 + clientPage) < TWO_64 && KeepsPromise(library)
      requires ENVELOPE_SIZE + |offer.time| <= 8388608
      ensures IsNew() && server.offer == offer
      ensures fresh(server.Parts()) && fresh(client.Parts()) && server.sendFile == null
    {
      hide TcpConnection.Valid, TcpClientConnection.Valid, TcpConnection.Model, TcpClientConnection.Model;
      server := new TcpConnection(offer, serverPage);
      client := new TcpClientConnection(clientPage, library);
      wire, acts := [], [];
      new;
      ShippedLimitsAreSound(client.Bounds().size);
    }

    method Connect()
      requires IsNew()
      modifies this, client, client.stream.input
      ensures Valid() && acts == [Local(Receive)] && !Now(Idle).cut
    {
      ghost var m := Now(Receiving);
      assert !client.reading;
      hide Goes, Apply, Enabled, Begin, Start;
      hide TcpConnection.Valid, TcpClientConnection.Valid, TcpConnection.Model, TcpClientConnection.Model;
      client.Receive();
      acts := [Local(Receive)];
      OneDone(Bounds(), server.offer, m.state, Local(Receive));
    }

    method Write(n: nat) returns (ghost deed: Deed)
      requires Holds()
      modifies this, server.Parts()
      ensures Holds() && acts == old(acts) && (server.sendFile == old(server.sendFile) || fresh(server.sendFile))
      ensures Happens(Bounds(), Library(), server.offer, old(Now(Idle)), Written(n), deed, Now(Idle))
    {
      hide Handles, CanDo, Do;
      ghost var l, o, m := Bounds(), server.offer, Now(Idle);
      deed := Deed([], [], []);
      if server.phase.WritingTime? || server.phase.WritingEnvelope? {
        var k := Least(n, server.writeBuffer.filledSize);
        assert First(o, m, Written(n)) == [WriteSome(k)];
        hide First, Happens;
        var taken := server.OnWritten(k, l, m.state);
        wire := wire + taken;
        deed := Deed([WriteSome(k)], [], []);
        HappensOnce(l, Library(), o, m, Written(n), WriteSome(k), Now(Idle));
      }
    }

    method Send(r: SendResult) returns (ghost deed: Deed)
      requires Holds()
      modifies this, server.Parts(), server.sendFile
      ensures Holds() && acts == old(acts) && server.sendFile == old(server.sendFile)
      ensures Happens(Bounds(), Library(), server.offer, old(Now(Idle)), Sendfile(r), deed, Now(Idle))
    {
      hide Handles, CanDo, Do;
      ghost var l, o, m := Bounds(), server.offer, Now(Idle);
      deed := Deed([], [], []);
      if server.phase.TransferringFile? {
        ghost var n := server.sendFile.Taken(r);
        assert First(o, m, Sendfile(r)) == [SendChunk(n)];
        hide First, Happens;
        var taken := server.OnSendfile(r, l, m.state);
        wire := wire + taken;
        deed := Deed([SendChunk(n)], [], []);
        HappensOnce(l, Library(), o, m, Sendfile(r), SendChunk(n), Now(Idle));
      }
    }

    method Read(n: nat, sdl: seq<seq<nat>>) returns (ghost deed: Deed)
      requires Holds()
      modifies this, client.Parts()
      ensures Holds() && acts == old(acts)
      ensures Happens(Bounds(), Library(), server.offer, old(Now(Idle)), Readable(n, sdl), deed, Now(Idle))
    {
      hide Handles, Apply, Enabled, CanDo, Do, Happens;
      ghost var l, o, m := Bounds(), server.offer, Now(Idle);
      var k := Least(Least(n, |wire|), client.region.Size());
      assert First(o, m, Readable(n, sdl)) == if client.reading && k > 0 then [ReadSome(k)] else [];
      hide First;
      if client.reading && k > 0 {
        hide TcpConnection.Valid, TcpClientConnection.Valid, TcpConnection.Model, TcpClientConnection.Model;
        ghost var later, es;
        later, es := client.OnRead(wire[..k], sdl);
        wire := wire[k..];
        deed := Deed([ReadSome(k)], es, later);
        DoRead(l, o, m.state, k);
        HappensAndIsHandled(l, Library(), o, m, Readable(n, sdl), ReadSome(k), deed, Now(Idle));
      } else {
        deed := Deed([], [], []);
        HappensNot(l, Library(), o, m, Readable(n, sdl));
      }
    }

    method End() returns (ghost deed: Deed)
      requires Holds()
      modifies this, client
      ensures Holds() && acts == old(acts)
      ensures Happens(Bounds(), Library(), server.offer, old(Now(Idle)), EndOfStream, deed, Now(Idle))
    {
      hide Handles, Apply, Enabled;
      ghost var l, o, m := Bounds(), server.offer, Now(Idle);
      deed := Deed([], [], []);
      if client.reading && server.phase.Done? && wire == [] {
        client.OnReadError();
        deed := Deed([ReadEnd], [], []);
        HappensOnce(l, Library(), o, m, EndOfStream, ReadEnd, Now(Idle));
      }
    }

    method Decode(sdl: seq<seq<nat>>) returns (ghost deed: Deed)
      requires Holds()
      modifies this, client.Parts()
      ensures Holds() && acts == old(acts)
      ensures Happens(Bounds(), Library(), server.offer, old(Now(Idle)), PostedDecode(sdl), deed, Now(Idle))
    {
      hide Handles, Apply, Enabled, CanDo, Do, Happens;
      ghost var l, o, m := Bounds(), server.offer, Now(Idle);
      assert First(o, m, PostedDecode(sdl)) ==
        if client.stream.player.decodePosts > 0 then [Local(RunDecode)] else [];
      hide First;
      if client.stream.player.decodePosts > 0 {
        hide TcpConnection.Valid, TcpClientConnection.Valid, TcpConnection.Model, TcpClientConnection.Model;
        ghost var later, es;
        later, es := client.RunDecode(sdl);
        deed := Deed([Local(RunDecode)], es, later);
        DoLocal(l, o, m.state, RunDecode);
        HappensAndIsHandled(l, Library(), o, m, PostedDecode(sdl), Local(RunDecode), deed, Now(Idle));
      } else {
        deed := Deed([], [], []);
        HappensNot(l, Library(), o, m, PostedDecode(sdl));
      }
    }

    method Resume() returns (ghost deed: Deed)
      requires Holds() && (client.stream.input.posted != [] ==> !client.reading)
      modifies this, client.Parts()
      ensures Holds() && acts == old(acts)
      ensures Happens(Bounds(), Library(), server.offer, old(Now(Idle)), PostedReceive, deed, Now(Idle))
    {
      hide Handles, Apply, Enabled, CanDo, Do, Happens;
      ghost var l, o, m := Bounds(), server.offer, Now(Idle);
      assert First(o, m, PostedReceive) ==
        if client.stream.input.posted != [] then [Local(RunResume)] else [];
      hide First;
      if client.stream.input.posted != [] {
        hide TcpConnection.Valid, TcpClientConnection.Valid, TcpConnection.Model, TcpClientConnection.Model;
        ghost var later, es;
        client.RunResume();
        later, es := [], [Receive];
        deed := Deed([Local(RunResume)], es, later);
        DoLocal(l, o, m.state, RunResume);
        HappensAndIsHandled(l, Library(), o, m, PostedReceive, Local(RunResume), deed, Now(Idle));
      } else {
        deed := Deed([], [], []);
        HappensNot(l, Library(), o, m, PostedReceive);
      }
    }

    method Unblock(sdl: seq<seq<nat>>) returns (ghost deed: Deed)
      requires Holds()
      modifies this, client.Parts()
      ensures Holds() && acts == old(acts)
      ensures Happens(Bounds(), Library(), server.offer, old(Now(Idle)), PostedUnblock(sdl), deed, Now(Idle))
    {
      hide Handles, Apply, Enabled, CanDo, Do, Happens;
      ghost var l, o, m := Bounds(), server.offer, Now(Idle);
      assert First(o, m, PostedUnblock(sdl)) ==
        if client.stream.player.output.posted != [] then [Local(RunUnblock)] else [];
      hide First;
      if client.stream.player.output.posted != [] {
        hide TcpConnection.Valid, TcpClientConnection.Valid, TcpConnection.Model, TcpClientConnection.Model;
        ghost var later, es;
        later, es := client.RunUnblock(sdl);
        deed := Deed([Local(RunUnblock)], es, later);
        DoLocal(l, o, m.state, RunUnblock);
        HappensAndIsHandled(l, Library(), o, m, PostedUnblock(sdl), Local(RunUnblock), deed, Now(Idle));
      } else {
        deed := Deed([], [], []);
        HappensNot(l, Library(), o, m, PostedUnblock(sdl));
      }
    }

    method Play(len: nat) returns (ghost deed: Deed)
      requires Holds()
      modifies this, client.Parts()
      ensures Holds() && acts == old(acts)
      ensures Happens(Bounds(), Library(), server.offer, old(Now(Idle)), Device(len), deed, Now(Idle))
    {
      hide Handles, Apply, Enabled, CanDo, Do, Happens;
      ghost var l, o, m := Bounds(), server.offer, Now(Idle);
      assert First(o, m, Device(len)) ==
        if client.stream.player.started && len > 0 then [Local(Audio(len))] else [];
      hide First;
      if client.stream.player.started && len > 0 {
        hide TcpConnection.Valid, TcpClientConnection.Valid, TcpConnection.Model, TcpClientConnection.Model;
        client.RunAudio(len);
        deed := Deed([Local(Audio(len))], [], []);
        DoLocal(l, o, m.state, Audio(len));
        HappensOnce(l, Library(), o, m, Device(len), Local(Audio(len)), Now(Idle));
      } else {
        deed := Deed([], [], []);
        HappensNot(l, Library(), o, m, Device(len));
      }
    }

    /** No read is outstanding when a fired `receive` runs. */
    lemma ResumeFindsNoRead()
      requires Valid() && client.stream.input.posted != []
      ensures !client.reading
    {
      var l, o := Bounds(), server.offer;
      SessionIsClientRun(l, o, Begin(o), acts);
      ReceiverNeverLost(l, ClientRun(l, o, Begin(o), acts));
    }

    /** What the happening does, if it can happen now. */
    method Dispatch(h: Happening) returns (ghost deed: Deed)
      requires Holds() && (client.stream.input.posted != [] ==> !client.reading)
      modifies this, server.Parts(), server.sendFile, client.Parts()
      ensures Holds() && acts == old(acts) && (server.sendFile == old(server.sendFile) || fresh(server.sendFile))
      ensures Happens(Bounds(), Library(), server.offer, old(Now(Idle)), h, deed, Now(Idle))
    {
      hide Happens, TcpConnection.Valid, TcpClientConnection.Valid, TcpConnection.Model, TcpClientConnection.Model;
      match h
      case Written(n) => deed := Write(n);
      case Sendfile(r) => deed := Send(r);
      case Readable(n, sdl) => deed := Read(n, sdl);
      case EndOfStream => deed := End();
      case PostedDecode(sdl) => deed := Decode(sdl);
      case PostedReceive => deed := Resume();
      case PostedUnblock(sdl) => deed := Unblock(sdl);
      case Device(len) => deed := Play(len);
    }

    method Step(h: Happening) returns (ghost deed: Deed)
      requires Valid()
      modifies this, server.Parts(), server.sendFile, client.Parts()
      ensures Valid() && acts == old(acts) + Actions(deed)
      ensures server.sendFile == old(server.sendFile) || fresh(server.sendFile)
      ensures Happens(Bounds(), Library(), server.offer, old(Now(Idle)), h, deed, Now(Idle))
    {
      hide Goes, Happens;
      hide TcpConnection.Valid, TcpClientConnection.Valid, TcpConnection.Model, TcpClientConnection.Model;
      if client.stream.input.posted != [] {
        ResumeFindsNoRead();
      }
      ghost var m := Now(Idle);
      deed := Dispatch(h);
      HappensNext(Bounds(), Library(), server.offer, Begin(server.offer), acts, m, h, deed, Now(Idle));
      acts := acts + Actions(deed);
    }

    /** From the first `receive` on, the script is what happens. */
    method Run(script: seq<Happening>) returns (ghost from: Moment, ghost deeds: seq<Deed>)
      requires IsNew()
      modifies this, server.Parts(), server.sendFile, client.Parts()
      ensures Valid() && acts == [Local(Receive)] + Joined(deeds)
      ensures Goes(Bounds(), server.offer, Begin(server.offer), [Local(Receive)], from.state) && !from.cut
      ensures Follows(Bounds(), Library(), server.offer, from, script, deeds, Now(Idle))
    {
      hide Goes, Happens, Follows, Apart;
      hide TcpConnection.Valid, TcpClientConnection.Valid, TcpConnection.Model, TcpClientConnection.Model;
      Connect();
      assert acts == acts + Joined([]);
      from, deeds := Now(Idle), [];
      FollowsNone(Bounds(), Library(), server.offer, from);
      for i := 0 to |script|
        invariant Valid() && acts == [Local(Receive)] + Joined(deeds)
        invariant server.sendFile == old(server.sendFile) || fresh(server.sendFile)
        invariant Follows(Bounds(), Library(), server.offer, from, script[..i], deeds, Now(Idle))
      {
        ghost var before, mid := acts, Now(Idle);
        ghost var deed := Step(script[i]);
        FollowsPrefix(Bounds(), Library(), server.offer, from, script, i, deeds, mid, deed, Now(Idle), before);
        deeds := deeds + [deed];
      }
      assert script[..|script|] == script;
    }

    // What the objects hold after any sequence of happenings.

    lemma NothingLost()
      requires Valid() && server.offer.file != [] && |server.offer.time| <= Bounds().size
      ensures client.decoder.messages == [] || client.decoder.messages == [server.offer.time]
      ensures IsMp3(client.decoder.Mode()) ==>
                && client.decoder.messages == [server.offer.time]
                && client.stream.committed + client.stream.input.Model().bytes + wire ==
                   server.offer.file[..FileSent(server.offer, server.Model())]
      ensures !client.stream.waitingForPlay
      ensures client.stream.player.played + client.stream.player.output.Model().bytes ==
                Decoded(Bounds(), server.offer, acts)
    {
      var l, o := Bounds(), server.offer;
      StreamPreserved(l, o, acts);
      SessionIsClientRun(l, o, Begin(o), acts);
      PcmConservation(l, ClientRun(l, o, Begin(o), acts));
      OutputNeverOverflows(l, ClientRun(l, o, Begin(o), acts));
    }

    /** No handler is due and the device is stopped. */
    predicate Quiet()
      reads this, server, client, client.stream.input, client.stream.player, client.stream.player.output
    {
      && server.phase.Done? && wire == [] && !client.reading && client.stream.input.posted == []
      && client.stream.player.decodePosts == 0 && !client.stream.player.started
      && client.stream.player.output.posted == []
    }

    lemma QuietMeansFinished()
      requires Valid() && server.offer.file != [] && |server.offer.time| <= Bounds().size
      ensures Quiet() <==> IsFinished(Bounds(), server.offer, acts)
    {
      var l, o := Bounds(), server.offer;
      if IsFinished(l, o, acts) {
        StuckMeansDelivered(l, o, acts);
        BeginInv(l, o);
        SessionKeepsInv(l, o, Begin(o), acts);
        BusyCanStep(l, o, Now(Idle).state);
        StreamEnds(l, o, Now(Idle).state);
      }
    }

    lemma AllDeliveredWhenQuiet()
      requires Valid() && server.offer.file != [] && |server.offer.time| <= Bounds().size && Quiet()
      ensures client.closed && client.decoder.messages == [server.offer.time]
      ensures client.stream.committed == server.offer.file && client.stream.input.Model().bytes == []
      ensures IsFraming(Bounds(), server.offer, FramesIn(acts))
      ensures exists k: nat :: CanStopAfter(Bounds(), FramesIn(acts), k)
                               && client.stream.player.played == PcmOfAll(FramesIn(acts)[..k])
    {
      QuietMeansFinished();
      StuckMeansDelivered(Bounds(), server.offer, acts);
      PlaysWholeFrames(Bounds(), server.offer, acts);
    }
  }

  /** Both ends from their construction on, for any sequence of happenings. */
  method RunPipeline(offer: Offer, serverPage: nat, clientPage: nat, library: Mp3Library, script: seq<Happening>)
    returns (p: Pipeline, ghost from: Moment, ghost deeds: seq<Deed>)
    requires IsPageSize(serverPage) && 2 * (8388608 + serverPage) < TWO_64
    requires IsPageSize(clientPage) && 2 * (65535 + clientPage) < TWO_64 && KeepsPromise(library)
    requires ENVELOPE_SIZE + |offer.time| <= 8388608
    ensures p.Valid() && p.server.offer == offer && p.acts == [Local(Receive)] + Joined(deeds)
    ensures Goes(p.Bounds(), offer, Begin(offer), [Local(Receive)], from.state) && !from.cut
    ensures Follows(p.Bounds(), p.Library(), offer, from, script, deeds, p.Now(Idle))
  {
    hide Goes, Follows;
    p := new Pipeline(offer, serverPage, clientPage, library);
    from, deeds := p.Run(script);
  }
}
