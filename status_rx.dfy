/**
 * The status receiver: a UDP socket bound to the sonar's status port with
 * one asynchronous receive outstanding at a time.  Each completion handler
 * decides whether the status is updated, whether the valid counter grows and
 * whether another receive is armed.
 *
 * The socket is abstracted to the number of outstanding receives
 * (`pending`), and a completion to a `Completion` event.  The
 * implementation of SonarStatus::update is not part of this model: a status
 * is represented by the sequence of raw status records folded into it, so
 * whatever that function computes is a function of this sequence.
 */
module StatusReceiver {
  import opened Wire

  /** The well-known UDP port the sonar broadcasts its status on. */
  const StatusPort: nat := 52102

  /** The completion of one asynchronous receive: an error code, or success with the bytes transferred. */
  datatype Completion = Failed(code: nat) | Received(data: seq<uint8>)

  /** The running status summary, as the status records folded into it, oldest first. */
  datatype SonarStatus = SonarStatus(updates: seq<seq<uint8>>)

  function Update(status: SonarStatus, osm: seq<uint8>): SonarStatus
  {
    SonarStatus(status.updates + [osm])
  }

  /** A completion the handler accepts: no error, and exactly one status record transferred. */
  predicate Accepted(size: nat, ev: Completion)
  {
    ev.Received? && |ev.data| == size
  }

  /** A receive into a buffer of `size` bytes never transfers more than `size` bytes. */
  predicate Deliverable(size: nat, ev: Completion)
  {
    ev.Received? ==> |ev.data| <= size
  }

  /**
   * The observable state of a receiver: the counters, the status, the
   * receive buffer, the number of outstanding receives, whether a status
   * observer is registered and the statuses it has been handed.
   */
  datatype RxState = RxState(
    valid: nat,
    invalid: nat,
    status: SonarStatus,
    osm: seq<uint8>,
    pending: nat,
    hasCallback: bool,
    delivered: seq<SonarStatus>)

  /**
   * handleRead on the only outstanding receive.  An accepted datagram
   * updates the status with exactly its bytes, is handed to the observer,
   * counts as valid and re-arms; an error or a wrong-sized datagram changes
   * neither status nor counters and leaves nothing armed.
   */
  function Handled(size: nat, s: RxState, ev: Completion): (r: RxState)
    requires s.pending == 1 && |s.osm| == size && Deliverable(size, ev)
    ensures |r.osm| == size && r.hasCallback == s.hasCallback
    ensures r.pending == (if Accepted(size, ev) then 1 else 0)
    ensures r.valid == s.valid + (if Accepted(size, ev) then 1 else 0)
    ensures r.invalid == s.invalid
    ensures Accepted(size, ev) ==> r.status == Update(s.status, ev.data)
    ensures Accepted(size, ev) ==> r.delivered == s.delivered + (if s.hasCallback then [r.status] else [])
    ensures !Accepted(size, ev) ==> r.status == s.status && r.delivered == s.delivered
  {
    var consumed := s.(pending := 0);
    match ev
    case Failed(_) => consumed
    case Received(data) =>
      var written := consumed.(osm := data + s.osm[|data|..]);
      if |data| != size then written
      else
        assert data + s.osm[|data|..] == data;
        var updated := written.(status := Update(written.status, written.osm));
        var notified :=
          if updated.hasCallback then updated.(delivered := updated.delivered + [updated.status]) else updated;
        notified.(valid := notified.valid + 1, pending := notified.pending + 1)
  }

  predicate AllDeliverable(size: nat, events: seq<Completion>)
  {
    forall i :: 0 <= i < |events| ==> Deliverable(size, events[i])
  }

  /**
   * The receive loop driven by a sequence of completions.  A completion can
   * only arrive for an outstanding receive, so once nothing is armed the
   * remaining events are never delivered.
   */
  function Run(size: nat, s: RxState, events: seq<Completion>): RxState
    requires s.pending <= 1 && |s.osm| == size && AllDeliverable(size, events)
    decreases |events|
  {
    if events == [] || s.pending == 0 then s
    else Run(size, Handled(size, s, events[0]), events[1..])
  }

  /** How many completions at the head of the sequence are accepted. */
  function LeadingAccepted(size: nat, events: seq<Completion>): (k: nat)
    ensures k <= |events|
    ensures forall i :: 0 <= i < k ==> Accepted(size, events[i])
    ensures k < |events| ==> !Accepted(size, events[k])
    decreases |events|
  {
    if events == [] || !Accepted(size, events[0]) then 0
    else 1 + LeadingAccepted(size, events[1..])
  }

  /** The bytes of each completion (empty for an error). */
  function Payloads(events: seq<Completion>): seq<seq<uint8>>
  {
    seq(|events|, i requires 0 <= i < |events| => if events[i].Received? then events[i].data else [])
  }

  /**
   * The loop handles completions until the first one that is not accepted,
   * and stops there: the valid counter grows by the number of accepted
   * completions before it, the status has folded in exactly their bytes in
   * order, the invalid counter never moves, and a receive is still armed
   * only if every completion was accepted.
   */
  lemma {:induction false} RunStopsAtFirstRejected(size: nat, s: RxState, events: seq<Completion>)
    requires s.pending == 1 && |s.osm| == size && AllDeliverable(size, events)
    ensures var k := LeadingAccepted(size, events);
      var r := Run(size, s, events);
      && r.valid == s.valid + k
      && r.invalid == s.invalid
      && r.pending == (if k == |events| then 1 else 0)
      && r.status.updates == s.status.updates + Payloads(events[..k])
      && (s.hasCallback ==> |r.delivered| == |s.delivered| + k)
      && (!s.hasCallback ==> r.delivered == s.delivered)
    decreases |events|
  {
    if events != [] {
      var s1 := Handled(size, s, events[0]);
      var rest := events[1..];
      if Accepted(size, events[0]) {
        RunStopsAtFirstRejected(size, s1, rest);
        var k := LeadingAccepted(size, events);
        assert k == 1 + LeadingAccepted(size, rest);
        PayloadsOfPrefix(events, k - 1);
      } else {
        assert events[..0] == [];
      }
    }
  }

  /** The bytes of the first j + 1 completions: those of the first, then those of the next j. */
  lemma PayloadsOfPrefix(events: seq<Completion>, j: nat)
    requires j < |events|
    ensures Payloads(events[..j + 1]) == Payloads([events[0]]) + Payloads(events[1..][..j])
  {
    assert events[..j + 1] == [events[0]] + events[1..][..j];
  }

  /**
   * A registered observer keeps the statuses it already had and is handed,
   * for each accepted completion in turn, the status with the records up to
   * and including that one.
   */
  lemma {:induction false} RunDeliversInOrder(size: nat, s: RxState, events: seq<Completion>)
    requires s.pending == 1 && |s.osm| == size && AllDeliverable(size, events)
    requires s.hasCallback
    ensures |Run(size, s, events).delivered| == |s.delivered| + LeadingAccepted(size, events)
    ensures Run(size, s, events).delivered[..|s.delivered|] == s.delivered
    ensures forall i :: |s.delivered| <= i < |Run(size, s, events).delivered| ==>
      Run(size, s, events).delivered[i] == SonarStatus(s.status.updates + Payloads(events[..i - |s.delivered| + 1]))
    decreases |events|
  {
    RunStopsAtFirstRejected(size, s, events);
    if events != [] && Accepted(size, events[0]) {
      var s1 := Handled(size, s, events[0]);
      var rest := events[1..];
      RunDeliversInOrder(size, s1, rest);
      var r := Run(size, s, events);
      assert r == Run(size, s1, rest);
      assert s1.delivered == s.delivered + [s1.status];
      assert r.delivered[..|s.delivered|] == r.delivered[..|s1.delivered|][..|s.delivered|];
      forall i | |s.delivered| <= i < |r.delivered|
        ensures r.delivered[i] == SonarStatus(s.status.updates + Payloads(events[..i - |s.delivered| + 1]))
      {
        var j := i - |s.delivered|;
        PayloadsOfPrefix(events, j);
        if j == 0 {
          assert r.delivered[i] == r.delivered[..|s1.delivered|][i];
          assert events[1..][..0] == [];
        } else {
          assert s1.status.updates + Payloads(rest[..j]) == s.status.updates + (Payloads([events[0]]) + Payloads(rest[..j]));
        }
      }
    }
  }

  class StatusRx {
    const statusSize: nat
    const port: nat
    const inputBufferSize: nat
    var valid: nat
    var invalid: nat
    var status: SonarStatus
    /** The receive buffer the socket writes into. */
    var osm: seq<uint8>
    /** The socket was opened and bound. */
    var bound: bool
    /** Outstanding asynchronous receives. */
    var pending: nat
    var hasCallback: bool
    /** The statuses handed to the observer, oldest first. */
    ghost var delivered: seq<SonarStatus>
    /** Receives armed so far. */
    ghost var arms: nat
    /** Completions handled so far. */
    ghost var completions: nat

    /**
     * At most one receive is outstanding; receives are armed once on connect
     * and once per valid status; the invalid counter stays zero.
     */
    ghost predicate Valid()
      reads this
    {
      && 0 < statusSize
      && |osm| == statusSize
      && inputBufferSize == statusSize
      && port == StatusPort
      && invalid == 0
      && pending <= 1
      && (pending == 1 ==> bound)
      && arms == completions + pending
      && arms == (if bound then 1 else 0) + valid
    }

    ghost function State(): RxState
      reads this
    {
      RxState(valid, invalid, status, osm, pending, hasCallback, delivered)
    }

    /** Initialises the counters and the buffer, then connects; `openOk` is whether the socket opens without error. */
    constructor (layout: Layout, openOk: bool)
      requires ValidLayout(layout)
      ensures Valid() && statusSize == layout.statusSize
      ensures port == 52102 && valid == 0 && invalid == 0 && inputBufferSize == layout.statusSize
      ensures status == SonarStatus([]) && !hasCallback && delivered == []
      ensures bound == openOk && pending == (if openOk then 1 else 0)
    {
      statusSize := layout.statusSize;
      port := StatusPort;
      valid, invalid := 0, 0;
      inputBufferSize := layout.statusSize;
      status := SonarStatus([]);
      // The record buffer is left uninitialised in the driver; its bytes are
      // never read before a full-sized receive overwrites them all.
      osm := seq(layout.statusSize, _ => 0);
      bound, pending, hasCallback := false, 0, false;
      delivered, arms, completions := [], 0, 0;
      new;
      DoConnect(openOk);
    }

    /** Registers the status observer (the single callback slot is then occupied). */
    method SetCallback()
      modifies this
      ensures State() == old(State()).(hasCallback := true)
      ensures bound == old(bound) && arms == old(arms) && completions == old(completions)
    {
      hasCallback := true;
    }

    /** Binds to the status port and arms one receive if the socket opened; otherwise arms nothing. */
    method DoConnect(openOk: bool)
      requires Valid() && !bound && pending == 0
      modifies this
      ensures Valid()
      ensures bound == openOk
      ensures State() == old(State()).(pending := if openOk then 1 else 0)
    {
      if openOk {
        bound := true;
        StartReader();
      }
    }

    /** Arms one asynchronous receive into the status buffer. */
    method StartReader()
      modifies this
      ensures State() == old(State()).(pending := old(pending) + 1)
      ensures arms == old(arms) + 1
      ensures bound == old(bound) && completions == old(completions)
    {
      pending := pending + 1;
      arms := arms + 1;
    }

    /** The completion handler of the outstanding receive. */
    method HandleRead(ev: Completion)
      requires Valid() && pending == 1 && Deliverable(statusSize, ev)
      modifies this
      ensures Valid() && bound == old(bound)
      ensures State() == Handled(statusSize, old(State()), ev)
    {
      pending := pending - 1;
      completions := completions + 1;
      match ev {
        case Received(data) =>
          osm := data + osm[|data|..];
          if |data| != statusSize {
            return;
          }
          status := Update(status, osm);
          if hasCallback {
            delivered := delivered + [status];
          }
          valid := valid + 1;
          StartReader();
        case Failed(_) =>
      }
    }
  }
}
