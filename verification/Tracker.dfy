/** Which connection a response belongs to: the service's message tracker. */
module Tracker {
  import opened Basics
  import opened Protocol

  type Conn = nat

  function Tracked(pending: map<nat, Conn>, id: nat, c: Conn): map<nat, Conn> {
    pending[id := c]
  }

  function Answered(pending: map<nat, Conn>, id: nat): map<nat, Conn> {
    pending - {id}
  }

  function Recipient(pending: map<nat, Conn>, id: nat): Option<Conn> {
    if id in pending then Some(pending[id]) else None
  }

  /** What the tracker sees, from any number of connections. */
  datatype Event = Request(id: nat, conn: Conn) | Response(id: nat)

  function Replay(h: seq<Event>): map<nat, Conn> {
    if h == [] then map[]
    else
      var before := Replay(h[..|h| - 1]);
      match h[|h| - 1]
      case Request(id, c) => Tracked(before, id, c)
      case Response(id) => Answered(before, id)
  }

  /** To whom the event at position k hands a message. */
  function HandedAt(h: seq<Event>, k: nat): Option<Conn>
    requires k < |h|
  {
    if h[k].Response? then Recipient(Replay(h[..k]), h[k].id) else None
  }

  ghost predicate LastOn(h: seq<Event>, id: nat, k: nat) {
    k < |h| && h[k].id == id && forall j :: k < j < |h| ==> h[j].id != id
  }

  /** An entry exists exactly when the last event on the id is a request, and then names its sender. */
  lemma {:induction false} PendingIsLastEvent(h: seq<Event>, id: nat, c: Conn)
    ensures Recipient(Replay(h), id) == Some(c) <==> exists k: nat :: LastOn(h, id, k) && h[k] == Request(id, c)
  {
    if h != [] {
      var n := |h| - 1;
      var before := h[..n];
      if h[n].id == id {
        assert LastOn(h, id, n);
        assert forall k: nat :: LastOn(h, id, k) ==> k == n;
      } else {
        PendingIsLastEvent(before, id, c);
        assert forall k: nat :: LastOn(before, id, k) <==> LastOn(h, id, k);
      }
    }
  }

  function Requests(h: seq<Event>, id: nat): nat {
    if h == [] then 0
    else Requests(h[..|h| - 1], id) + if h[|h| - 1].Request? && h[|h| - 1].id == id then 1 else 0
  }

  function Deliveries(h: seq<Event>, id: nat): nat {
    if h == [] then 0
    else Deliveries(h[..|h| - 1], id) + if h[|h| - 1].id == id && HandedAt(h, |h| - 1).Some? then 1 else 0
  }

  /** Entries lost because a later request reused the id before an answer came. */
  function Overwritten(h: seq<Event>, id: nat): nat {
    if h == [] then 0
    else Overwritten(h[..|h| - 1], id) +
         if h[|h| - 1].Request? && h[|h| - 1].id == id && id in Replay(h[..|h| - 1]) then 1 else 0
  }

  lemma {:induction false} RequestsAreAccountedFor(h: seq<Event>, id: nat)
    ensures Requests(h, id) == Deliveries(h, id) + Overwritten(h, id) + if id in Replay(h) then 1 else 0
  {
    if h != [] {
      RequestsAreAccountedFor(h[..|h| - 1], id);
    }
  }

  /** answers[k] is the position of the request that the response at position k answers. */
  ghost predicate AnswersRequests(h: seq<Event>, answers: map<nat, nat>) {
    && (forall k :: 0 <= k < |h| && h[k].Response? ==>
          k in answers && answers[k] < k && h[answers[k]].Request? && h[answers[k]].id == h[k].id)
    && (forall k, l :: 0 <= k < l < |h| && h[k].Response? && h[l].Response? && k in answers && l in answers
          ==> answers[k] != answers[l])
  }

  ghost predicate AnsweredBetween(h: seq<Event>, answers: map<nat, nat>, i: nat, j: nat) {
    exists k :: i < k < j && k < |h| && h[k].Response? && k in answers && answers[k] == i
  }

  /** An id is reused only after the request that used it before was answered. */
  ghost predicate NoSharedIds(h: seq<Event>, answers: map<nat, nat>) {
    forall i, j :: 0 <= i < j < |h| && h[i].Request? && h[j].Request? && h[i].id == h[j].id
      ==> AnsweredBetween(h, answers, i, j)
  }

  lemma AnsweredOnlyAt(h: seq<Event>, answers: map<nat, nat>, k: nat, j: nat)
    requires AnswersRequests(h, answers)
    requires k < |h| && h[k].Response? && j <= k
    ensures !AnsweredBetween(h, answers, answers[k], j)
  {}

  lemma NoRequestBetween(h: seq<Event>, answers: map<nat, nat>, k: nat, j: nat)
    requires AnswersRequests(h, answers) && NoSharedIds(h, answers)
    requires k < |h| && h[k].Response? && answers[k] < j < k && h[j].Request?
    ensures h[j].id != h[k].id
  {
    AnsweredOnlyAt(h, answers, k, j);
  }

  lemma NoResponseBetween(h: seq<Event>, answers: map<nat, nat>, k: nat, j: nat)
    requires AnswersRequests(h, answers) && NoSharedIds(h, answers)
    requires k < |h| && h[k].Response? && answers[k] < j < k && h[j].Response?
    ensures h[j].id != h[k].id
  {
    AnsweredOnlyAt(h, answers, j, answers[k]);
    if answers[k] < answers[j] {
      NoRequestBetween(h, answers, k, answers[j]);
    }
  }

  /** Without shared ids every response is handed to the connection whose request it answers,
      however soon after the request it arrives. */
  lemma ResponsesReachTheirSender(h: seq<Event>, answers: map<nat, nat>, k: nat)
    requires AnswersRequests(h, answers) && NoSharedIds(h, answers)
    requires k < |h| && h[k].Response?
    ensures HandedAt(h, k) == Some(h[answers[k]].conn)
  {
    var i := answers[k];
    forall j | i < j < k ensures h[j].id != h[k].id {
      if h[j].Request? {
        NoRequestBetween(h, answers, k, j);
      } else {
        NoResponseBetween(h, answers, k, j);
      }
    }
    assert LastOn(h[..k], h[k].id, i);
    PendingIsLastEvent(h[..k], h[k].id, h[i].conn);
  }

  /** With a shared id the later sender gets the first response and the second response gets lost. */
  lemma SharedIdMisroutes(g: seq<Event>, id: nat, a: Conn, b: Conn)
    ensures var h := g + [Request(id, a), Request(id, b), Response(id), Response(id)];
            HandedAt(h, |g| + 2) == Some(b) && HandedAt(h, |g| + 3) == None
  {
    var h := g + [Request(id, a), Request(id, b), Response(id), Response(id)];
    var n := |g|;
    assert h[..n + 3][..n + 2] == h[..n + 2];
    assert h[..n + 2][n + 1] == Request(id, b);
    assert h[..n + 3][n + 2] == Response(id);
  }

  /** One copy of a message for each connection, in order. */
  function Copies(connections: seq<Conn>, msg: Msg): (r: seq<(Conn, Msg)>) {
    seq(|connections|, k requires 0 <= k < |connections| => (connections[k], msg))
  }

  /** How many messages of a sequence go to a connection, and how many of them are this one. */
  function SentTo(sent: seq<(Conn, Msg)>, c: Conn, msg: Msg): nat {
    if sent == [] then 0 else (if sent[0] == (c, msg) then 1 else 0) + SentTo(sent[1..], c, msg)
  }

  function TimesIn(connections: seq<Conn>, c: Conn): nat {
    if connections == [] then 0 else (if connections[0] == c then 1 else 0) + TimesIn(connections[1..], c)
  }

  /** Every connection gets one copy for each time it is in the list, and there is nothing else. */
  lemma {:induction false} EachGetsOneCopy(connections: seq<Conn>, msg: Msg, c: Conn)
    ensures SentTo(Copies(connections, msg), c, msg) == TimesIn(connections, c)
    ensures |Copies(connections, msg)| == |connections|
  {
    if connections != [] {
      assert Copies(connections, msg)[1..] == Copies(connections[1..], msg);
      EachGetsOneCopy(connections[1..], msg, c);
    }
  }

  /** What responses handed in one after the other put on the wire. */
  function HandOver(pending: map<nat, Conn>, responses: seq<Msg>): seq<(Conn, Msg)> {
    if responses == [] then []
    else
      var msg := responses[0];
      Handed(Recipient(pending, msg.uniqueId), msg) + HandOver(Answered(pending, msg.uniqueId), responses[1..])
  }

  function ForId(sent: seq<(Conn, Msg)>, id: nat): seq<(Conn, Msg)> {
    if sent == [] then [] else IfFor(sent[0], id) + ForId(sent[1..], id)
  }

  function IfFor(e: (Conn, Msg), id: nat): seq<(Conn, Msg)> {
    if e.1.uniqueId == id then [e] else []
  }

  lemma Reassociate<X>(a: seq<X>, b: seq<X>, c: seq<X>)
    ensures (a + b) + c == a + (b + c)
  {}

  lemma {:induction false} ForIdConcat(a: seq<(Conn, Msg)>, b: seq<(Conn, Msg)>, id: nat)
    ensures ForId(a + b, id) == ForId(a, id) + ForId(b, id)
  {
    if a == [] {
      assert a + b == b;
    } else {
      assert (a + b)[1..] == a[1..] + b;
      ForIdConcat(a[1..], b, id);
      Reassociate(IfFor(a[0], id), ForId(a[1..], id), ForId(b, id));
    }
  }

  /** What one response puts on the wire. */
  function Handed(to: Option<Conn>, msg: Msg): seq<(Conn, Msg)> {
    if to.Some? then [(to.value, msg)] else []
  }

  lemma HandOverNext(pending: map<nat, Conn>, responses: seq<Msg>, k: nat)
    requires k < |responses|
    ensures HandOver(pending, responses[k..])
         == Handed(Recipient(pending, responses[k].uniqueId), responses[k])
            + HandOver(Answered(pending, responses[k].uniqueId), responses[k + 1..])
  {
    assert responses[k..][1..] == responses[k + 1..];
  }

  lemma {:induction false} UntrackedGetsNothing(pending: map<nat, Conn>, responses: seq<Msg>, id: nat)
    requires id !in pending
    ensures ForId(HandOver(pending, responses), id) == []
  {
    if responses != [] {
      var msg := responses[0];
      ForIdConcat(Handed(Recipient(pending, msg.uniqueId), msg),
                  HandOver(Answered(pending, msg.uniqueId), responses[1..]), id);
      UntrackedGetsNothing(Answered(pending, responses[0].uniqueId), responses[1..], id);
    }
  }

  /** i is the first response that carries the id. */
  ghost predicate FirstOn(responses: seq<Msg>, id: nat, i: nat) {
    i < |responses| && responses[i].uniqueId == id && forall j :: 0 <= j < i ==> responses[j].uniqueId != id
  }

  /** The connection that an id is tracked for gets the first response on it, and that is all anybody gets. */
  lemma {:induction false} FirstResponseIsHandedOver(pending: map<nat, Conn>, responses: seq<Msg>, id: nat, i: nat)
    requires id in pending && FirstOn(responses, id, i)
    ensures ForId(HandOver(pending, responses), id) == [(pending[id], responses[i])]
  {
    var msg, rest := responses[0], responses[1..];
    ForIdConcat(Handed(Recipient(pending, msg.uniqueId), msg), HandOver(Answered(pending, msg.uniqueId), rest), id);
    if i == 0 {
      UntrackedGetsNothing(Answered(pending, id), rest, id);
    } else {
      assert rest[i - 1] == responses[i];
      FirstResponseIsHandedOver(Answered(pending, responses[0].uniqueId), rest, id, i - 1);
    }
  }

  lemma TrackedGetsFirst(pending: map<nat, Conn>, responses: seq<Msg>, id: nat)
    requires id in pending
    ensures forall i: nat | FirstOn(responses, id, i) ::
      ForId(HandOver(pending, responses), id) == [(pending[id], responses[i])]
  {
    forall i: nat | FirstOn(responses, id, i)
      ensures ForId(HandOver(pending, responses), id) == [(pending[id], responses[i])]
    {
      FirstResponseIsHandedOver(pending, responses, id, i);
    }
  }

  lemma CopiesNext(connections: seq<Conn>, msg: Msg, k: nat)
    requires k < |connections|
    ensures |Copies(connections, msg)| == |connections|
    ensures Copies(connections, msg)[..k + 1] == Copies(connections, msg)[..k] + [(connections[k], msg)]
  {}

  lemma CopiesEnd(connections: seq<Conn>, msg: Msg)
    ensures |Copies(connections, msg)| == |connections|
    ensures Copies(connections, msg)[..|connections|] == Copies(connections, msg)
  {}

  class MessageTracker {
    var mPendingRequests: map<nat, Conn>
    // The connector's current connections, and what their sendMessageToClient was given.
    var connections: seq<Conn>
    var wire: seq<(Conn, Msg)>
    ghost var history: seq<Event>

    ghost predicate Valid()
      reads this
    {
      mPendingRequests == Replay(history)
    }

    constructor (connections: seq<Conn>)
      ensures Valid() && history == [] && wire == [] && this.connections == connections
    {
      mPendingRequests, this.connections, wire, history := map[], connections, [], [];
    }

    /** sendOk[k] is the outcome of the k-th send of this call. */
    method ProcessResponse(msg: Option<Msg>, sendOk: seq<bool>) returns (ret: bool)
      requires Valid() && |sendOk| > |connections|
      modifies this
      ensures Valid() && connections == old(connections)
      ensures msg.None? ==> !ret && history == old(history) && wire == old(wire)
      ensures msg.Some? && msg.value.isIndication ==>
                && history == old(history)
                && wire == old(wire) + Copies(connections, msg.value)
                && (ret <==> forall k :: 0 <= k < |connections| ==> sendOk[k])
      ensures msg.Some? && !msg.value.isIndication ==>
                var to := Recipient(old(mPendingRequests), msg.value.uniqueId);
                && history == old(history) + [Response(msg.value.uniqueId)]
                && wire == old(wire) + (if to.Some? then [(to.value, msg.value)] else [])
                && mPendingRequests == Answered(old(mPendingRequests), msg.value.uniqueId)
                && ret == (to.Some? ==> sendOk[0])
    {
      ret := true;
      if msg.None? {
        ret := false;
      } else if msg.value.isIndication {
        var k := 0;
        while k < |connections|
          modifies this`wire
          invariant 0 <= k <= |connections|
          invariant wire == old(wire) + Copies(connections, msg.value)[..k]
          invariant ret <==> forall j :: 0 <= j < k ==> sendOk[j]
        {
          CopiesNext(connections, msg.value, k);
          Reassociate(old(wire), Copies(connections, msg.value)[..k], [(connections[k], msg.value)]);
          wire := wire + [(connections[k], msg.value)];
          ret := ret && sendOk[k];
          k := k + 1;
        }
        CopiesEnd(connections, msg.value);
      } else {
        var uniqueId := msg.value.uniqueId;
        var connection := if uniqueId in mPendingRequests then Some(mPendingRequests[uniqueId]) else None;
        mPendingRequests := mPendingRequests - {uniqueId};
        history := history + [Response(uniqueId)];
        assert history[..|history| - 1] == old(history);
        if connection.Some? {
          wire := wire + [(connection.value, msg.value)];
          ret := sendOk[0];
        }
      }
    }

    /** Responses handed in one after the other. */
    method HandIn(responses: seq<Msg>, sendOk: seq<bool>)
      requires Valid() && |sendOk| > |connections|
      requires forall m :: m in responses ==> !m.isIndication
      modifies this
      ensures Valid() && connections == old(connections)
      ensures history == old(history) +
                         seq(|responses|, k requires 0 <= k < |responses| => Response(responses[k].uniqueId))
      ensures wire == old(wire) + HandOver(old(mPendingRequests), responses)
    {
      ghost var handed: seq<(Conn, Msg)> := [];
      var k := 0;
      while k < |responses|
        invariant 0 <= k <= |responses|
        invariant Valid() && connections == old(connections)
        invariant history == old(history) + seq(k, i requires 0 <= i < k => Response(responses[i].uniqueId))
        invariant wire == old(wire) + handed
        invariant HandOver(old(mPendingRequests), responses) == handed + HandOver(mPendingRequests, responses[k..])
      {
        ghost var next := Handed(Recipient(mPendingRequests, responses[k].uniqueId), responses[k]);
        HandOverNext(mPendingRequests, responses, k);
        Reassociate(handed, next, HandOver(Answered(mPendingRequests, responses[k].uniqueId), responses[k + 1..]));
        var _ := ProcessResponse(Some(responses[k]), sendOk);
        handed := handed + next;
        k := k + 1;
      }
    }

    /** While the next processor runs it may already hand back responses; `early` are those. */
    method TrackAndDispatchRequest(connection: Conn, msg: Msg, hasNext: bool, early: seq<Msg>,
                                   nextResult: bool, sendOk: seq<bool>)
      returns (ret: bool)
      requires Valid() && |sendOk| > |connections|
      requires forall m :: m in early ==> !m.isIndication
      modifies this
      ensures Valid() && connections == old(connections)
      ensures ret <==> hasNext && nextResult
      ensures history == old(history) + [Request(msg.uniqueId, connection)] +
                         if hasNext then seq(|early|, k requires 0 <= k < |early| => Response(early[k].uniqueId))
                         else []
      ensures wire == old(wire) +
                      if hasNext then HandOver(Tracked(old(mPendingRequests), msg.uniqueId, connection), early)
                      else []
      ensures forall i: nat | hasNext && FirstOn(early, msg.uniqueId, i) ::
                ForId(wire[|old(wire)|..], msg.uniqueId) == [(connection, early[i])]
    {
      mPendingRequests := mPendingRequests[msg.uniqueId := connection];
      history := history + [Request(msg.uniqueId, connection)];
      assert history[..|history| - 1] == old(history);
      if !hasNext {
        return false;
      }
      TrackedGetsFirst(mPendingRequests, early, msg.uniqueId);
      HandIn(early, sendOk);
      assert wire[|old(wire)|..] == HandOver(Tracked(old(mPendingRequests), msg.uniqueId, connection), early);
      ret := nextResult;
    }
  }
}
