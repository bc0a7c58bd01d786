/** Peer-connection bookkeeping.  The module client (cam_client.py) keeps a
    list of its peer connections and of the data channels it created, drops
    a connection whose state becomes "closed" and builds a fresh one, and
    closes every listed connection at shutdown.  The standalone client
    (cam-client.py) only ever adds to a set and closes the whole set at
    shutdown.  Connections are identified by the order of their creation. */
module Registry {
  import opened Wrappers

  type ConnId = nat

  /** Label of the data channel the module client opens on each connection. */
  const ClientChannelLabel := "client-channel"

  /** Seconds the reconnect handler sleeps before building a new connection. */
  const ReconnectDelay := 10

  /** `RTCPeerConnection.connectionState`; only `Closed` drives anything. */
  datatype ConnectionState = New | Connecting | Connected | Disconnected | Failed | Closed

  datatype DataChannel = DataChannel(owner: ConnId, channelLabel: string)

  /** `peer_connections` and `data_connections` of a `CamClient`, and the
      identity the next created connection gets. */
  datatype Client = Client(peers: seq<ConnId>, channels: seq<DataChannel>, next: nat)

  /** Observable effects of the handlers, in the order they are issued. */
  datatype Effect = CancelTask | Close(pc: ConnId) | Sleep(seconds: nat)

  /** A transition either completes or raises part-way (after the effects it
      already issued); the client state is what it is at that point. */
  datatype Step = Done(client: Client, effects: seq<Effect>) | Raised(client: Client, effects: seq<Effect>)

  /** What drives the registry: a call of `run` (which publishes and so
      creates a connection) or a state change reported by a connection. */
  datatype Event = Run | StateChange(pc: ConnId, state: ConnectionState)

  function Init(): Client {
    Client([], [], 0)
  }

  predicate Distinct<T(==)>(s: seq<T>) {
    forall i, j :: 0 <= i < j < |s| ==> s[i] != s[j]
  }

  /** Every listed connection was created and is listed once; channel `i`
      belongs to connection `i`. */
  predicate Valid(c: Client) {
    && Distinct(c.peers)
    && (forall p: ConnId :: p in c.peers ==> p < c.next)
    && |c.channels| == c.next
    && (forall i :: 0 <= i < |c.channels| ==> c.channels[i] == DataChannel(i, ClientChannelLabel))
  }

  /** `__create_peer_connection`: one new connection and its client channel
      are appended; nothing already listed changes. */
  function CreatePeerConnection(c: Client): (r: Client)
    ensures |r.peers| == |c.peers| + 1 && r.peers[..|c.peers|] == c.peers
    ensures |r.channels| == |c.channels| + 1 && r.channels[..|c.channels|] == c.channels
    ensures r.channels[|c.channels|].owner == r.peers[|c.peers|]
    ensures Valid(c) ==> Valid(r) && r.peers[|c.peers|] !in c.peers
  {
    var pc := c.next;
    assert Valid(c) ==> pc !in c.peers;
    var r := Client(c.peers + [pc], c.channels + [DataChannel(pc, ClientChannelLabel)], c.next + 1);
    assert r.peers[..|c.peers|] == c.peers;
    assert r.channels[..|c.channels|] == c.channels;
    assert Valid(c) ==> Distinct(r.peers) by {
      if Valid(c) {
        forall i, j | 0 <= i < j < |r.peers| ensures r.peers[i] != r.peers[j] {
          if j == |c.peers| { assert r.peers[i] in c.peers; }
        }
      }
    }
    r
  }

  /** Position of the first occurrence of `x`. */
  function IndexOf(s: seq<ConnId>, x: ConnId): (i: nat)
    requires x in s
    ensures i < |s| && s[i] == x && x !in s[..i]
  {
    if s[0] == x then 0
    else
      var i := IndexOf(s[1..], x) + 1;
      assert s[..i] == [s[0]] + s[1..][..i - 1];
      i
  }

  /** Python's `list.remove`: drop the first occurrence, `None` (a
      `ValueError`) when there is none. */
  function RemoveFirst(s: seq<ConnId>, x: ConnId): (r: Option<seq<ConnId>>)
    ensures r.Some? <==> x in s
    ensures r.Some? ==> r.value == s[..IndexOf(s, x)] + s[IndexOf(s, x) + 1..]
  {
    if s == [] then None
    else if s[0] == x then Some(s[1..])
    else
      match RemoveFirst(s[1..], x)
      case None => None
      case Some(t) =>
        var i := IndexOf(s[1..], x);
        assert IndexOf(s, x) == i + 1;
        assert s[..i + 1] == [s[0]] + s[1..][..i];
        assert s[i + 2..] == s[1..][i + 1..];
        Some([s[0]] + t)
  }

  /** Removing a listed connection from a list of distinct connections leaves
      exactly the others, still distinct. */
  lemma RemoveFirstDistinct(s: seq<ConnId>, x: ConnId)
    ensures Distinct(s) && x in s ==>
              && RemoveFirst(s, x).Some?
              && Distinct(RemoveFirst(s, x).value)
              && forall p: ConnId :: p in RemoveFirst(s, x).value <==> p in s && p != x
  {
    if Distinct(s) && x in s {
      var i := IndexOf(s, x);
      DropIndexDistinct(s, i);
    }
  }

  /** Dropping position `i` of a distinct list keeps it distinct and removes
      exactly the element at `i`. */
  lemma DropIndexDistinct(s: seq<ConnId>, i: nat)
    requires Distinct(s) && i < |s|
    ensures Distinct(s[..i] + s[i + 1..])
    ensures forall p: ConnId :: p in s[..i] + s[i + 1..] <==> p in s && p != s[i]
  {
    var t := s[..i] + s[i + 1..];
    forall a, b | 0 <= a < b < |t| ensures t[a] != t[b] {
      var a' := if a < i then a else a + 1;
      var b' := if b < i then b else b + 1;
      assert t[a] == s[a'] && t[b] == s[b'];
    }
    forall p: ConnId ensures p in t <==> p in s && p != s[i] {
      if p in t {
        var k :| 0 <= k < |t| && t[k] == p;
        var k' := if k < i then k else k + 1;
        assert t[k] == s[k'];
      }
      if p in s && p != s[i] {
        var k :| 0 <= k < |s| && s[k] == p;
        if k < i { assert t[k] == p; } else { assert t[k - 1] == p; }
      }
    }
  }

  /** `on_connectionstatechange`: on "closed" the running task is cancelled,
      the connection closed and removed, and after the reconnect delay `run`
      builds a new connection; any other state changes nothing.  When the
      connection is no longer listed, `list.remove` raises after the cancel
      and the close, and the lists stay as they were. */
  function OnConnectionStateChange(c: Client, pc: ConnId, state: ConnectionState): (r: Step)
    ensures state != Closed ==> r == Done(c, [])
    ensures state == Closed ==> (r.Raised? <==> pc !in c.peers)
    ensures r.Raised? ==> r.client == c && r.effects == [CancelTask, Close(pc)]
    ensures state == Closed && r.Done? ==>
              && r.effects == [CancelTask, Close(pc), Sleep(ReconnectDelay)]
              && |r.client.peers| == |c.peers| && |r.client.channels| == |c.channels| + 1
              && r.client.channels[..|c.channels|] == c.channels
              && r.client.peers == RemoveFirst(c.peers, pc).value + [c.next]
    ensures Valid(c) && r.Done? ==> Valid(r.client)
    ensures Valid(c) && state == Closed && r.Done? ==>
              forall p: ConnId :: p in r.client.peers <==> (p in c.peers && p != pc) || p == c.next
  {
    if state != Closed then Done(c, [])
    else
      var issued := [CancelTask, Close(pc)];
      match RemoveFirst(c.peers, pc)
      case None => Raised(c, issued)
      case Some(rest) =>
        RemoveFirstDistinct(c.peers, pc);
        Done(CreatePeerConnection(c.(peers := rest)), issued + [Sleep(ReconnectDelay)])
  }

  /** One event: `run` publishes, which creates one connection; a state change
      goes to the connection's handler. */
  function Apply(c: Client, e: Event): (r: Step)
    ensures e.Run? ==> r.Done? && r.effects == []
                       && |r.client.peers| == |c.peers| + 1 && r.client.peers[..|c.peers|] == c.peers
                       && |r.client.channels| == |c.channels| + 1
                       && r.client.peers[|c.peers|] == c.next
                       && r.client.channels[|c.channels|] == DataChannel(c.next, ClientChannelLabel)
    ensures e.StateChange? ==> r == OnConnectionStateChange(c, e.pc, e.state)
    ensures Valid(c) ==> Valid(r.client)
  {
    match e
    case Run => Done(CreatePeerConnection(c), [])
    case StateChange(pc, state) => OnConnectionStateChange(c, pc, state)
  }

  /** The client after a sequence of events.  A raising handler ends only its
      own coroutine: the next events act on the lists it left. */
  function Replay(events: seq<Event>): Client
    decreases |events|
  {
    if events == [] then Init()
    else Apply(Replay(events[..|events| - 1]), events[|events| - 1]).client
  }

  function Runs(events: seq<Event>): nat {
    if events == [] then 0
    else Runs(events[..|events| - 1]) + if events[|events| - 1].Run? then 1 else 0
  }

  /** Abstract account of the registry, without lists: how many connections
      were created and which were removed.  A `run` creates one; a "closed"
      report on a created connection not removed before removes it and
      creates its replacement; any other event changes nothing. */
  datatype Account = Account(created: nat, removed: set<ConnId>)

  function Reference(events: seq<Event>): Account {
    if events == [] then Account(0, {})
    else
      var a := Reference(events[..|events| - 1]);
      match events[|events| - 1]
      case Run => Account(a.created + 1, a.removed)
      case StateChange(pc, state) =>
        if state == Closed && pc < a.created && pc !in a.removed
        then Account(a.created + 1, a.removed + {pc})
        else a
  }

  /** The lists agree with the abstract account on every trace: connections
      are numbered in creation order, the list holds exactly the created ones
      not removed, and since every removal is followed by a rebuild it is as
      long as the number of `run` calls, while the channel list only grows. */
  lemma {:induction false} ReplayMatchesReference(events: seq<Event>)
    ensures Valid(Replay(events))
    ensures Replay(events).next == Reference(events).created
    ensures |Replay(events).peers| == Runs(events)
    ensures |Replay(events).channels| == Reference(events).created
    ensures forall p: ConnId :: p in Reference(events).removed ==> p < Reference(events).created
    ensures forall p: ConnId :: (p in Replay(events).peers
                         <==> p < Reference(events).created && p !in Reference(events).removed)
  {
    if events != [] {
      var prefix := events[..|events| - 1];
      ReplayMatchesReference(prefix);
      var c := Replay(prefix);
      var last := events[|events| - 1];
      if last.StateChange? && last.state == Closed {
        assert last.pc in c.peers <==> last.pc < c.next && last.pc !in Reference(prefix).removed;
      }
    }
  }

  /** With a single `run`, exactly one connection is ever listed: a closed one
      is replaced, never added to. */
  lemma SingleRunSingleConnection(events: seq<Event>)
    ensures Runs(events) == 1 ==> |Replay(events).peers| == 1
  {
    ReplayMatchesReference(events);
  }

  /** `shutdown`: one close per listed connection, in list order. */
  function Shutdown(c: Client): (closes: seq<Effect>)
    ensures |closes| == |c.peers|
    ensures forall i :: 0 <= i < |closes| ==> closes[i] == Close(c.peers[i])
    ensures forall p: ConnId :: Close(p) in closes <==> p in c.peers
    ensures Distinct(c.peers) ==> Distinct(closes)
  {
    var closes := seq(|c.peers|, i requires 0 <= i < |c.peers| => Close(c.peers[i]));
    assert forall p: ConnId :: p in c.peers ==> Close(p) in closes by {
      forall p | p in c.peers ensures Close(p) in closes {
        var i :| 0 <= i < |c.peers| && c.peers[i] == p;
        assert closes[i] == Close(p);
      }
    }
    closes
  }

  /** Shutdown after any run of events closes each live connection (created
      and not removed) exactly once, and nothing else. */
  lemma ShutdownClosesLive(events: seq<Event>)
    ensures var closes := Shutdown(Replay(events));
            Distinct(closes)
            && forall p: ConnId :: Close(p) in closes <==> p < Reference(events).created && p !in Reference(events).removed
  {
    ReplayMatchesReference(events);
  }

  /** The standalone client's `pcs` set and the identity of the next
      connection it creates. */
  datatype Standalone = Standalone(pcs: set<ConnId>, next: nat)

  predicate StandaloneValid(s: Standalone) {
    forall p: ConnId :: p in s.pcs ==> p < s.next
  }

  /** `publish` adds its new connection to `pcs`; nothing ever removes one. */
  function StandalonePublish(s: Standalone): (r: Standalone)
    ensures exists pc :: r.pcs == s.pcs + {pc}
    ensures StandaloneValid(s) ==> StandaloneValid(r) && |r.pcs| == |s.pcs| + 1
  {
    var r := Standalone(s.pcs + {s.next}, s.next + 1);
    assert StandaloneValid(s) ==> s.next !in s.pcs;
    r
  }

  /** Shutdown of the standalone client: one close per member of `pcs`, in
      whatever order the set is iterated. */
  method CloseAll(pcs: set<ConnId>) returns (closes: seq<Effect>)
    ensures |closes| == |pcs|
    ensures forall e :: e in closes ==> e.Close?
    ensures forall p: ConnId :: Close(p) in closes <==> p in pcs
    ensures Distinct(closes)
  {
    var rest := pcs;
    closes := [];
    while rest != {}
      invariant rest <= pcs
      invariant |closes| + |rest| == |pcs|
      invariant forall e :: e in closes ==> e.Close?
      invariant forall p: ConnId :: Close(p) in closes <==> p in pcs && p !in rest
      invariant Distinct(closes)
      decreases |rest|
    {
      var p :| p in rest;
      closes := closes + [Close(p)];
      rest := rest - {p};
    }
  }
}
