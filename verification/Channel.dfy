/** A client's Send channel: 16 slots, filled by non-blocking sends that drop the message when the
    channel is full, and emptied by the write pump (hub.go, websocket.go). */
module Channel {
  import opened Wrappers

  const CAPACITY: nat := 16

  /** What the hub sends: a presence update with the connected users, or any other JSON payload. */
  datatype Message = Presence(users: seq<int>) | Payload(json: string)

  /** The history of a channel: messages offered to it and receives from it. */
  datatype Event = Offer(message: Message) | Take

  function Buffered(events: seq<Event>, n: nat): seq<Message>
    requires n <= |events|
  {
    if n == 0 then []
    else
      var b := Buffered(events, n - 1);
      match events[n - 1]
      case Offer(m) => if |b| < CAPACITY then b + [m] else b
      case Take => if b == [] then b else b[1..]
  }

  function Consumed(events: seq<Event>, n: nat): seq<Message>
    requires n <= |events|
  {
    if n == 0 then []
    else
      var b := Buffered(events, n - 1);
      Consumed(events, n - 1) + if events[n - 1].Take? && b != [] then [b[0]] else []
  }

  function Offered(events: seq<Event>, n: nat): seq<Message>
    requires n <= |events|
  {
    if n == 0 then []
    else Offered(events, n - 1) + if events[n - 1].Offer? then [events[n - 1].message] else []
  }

  // The offers that found a free slot.
  function Accepted(events: seq<Event>, n: nat): seq<Message>
    requires n <= |events|
  {
    if n == 0 then []
    else
      Accepted(events, n - 1) +
      if events[n - 1].Offer? && |Buffered(events, n - 1)| != 16 then [events[n - 1].message] else []
  }

  ghost predicate Subsequence(a: seq<Message>, b: seq<Message>) {
    if a == [] then true
    else if b == [] then false
    else if a[|a| - 1] == b[|b| - 1] && Subsequence(a[..|a| - 1], b[..|b| - 1]) then true
    else Subsequence(a, b[..|b| - 1])
  }

  lemma SkipLast(a: seq<Message>, b: seq<Message>, m: Message)
    requires Subsequence(a, b)
    ensures Subsequence(a, b + [m]) && Subsequence(a + [m], b + [m])
  {
    assert (b + [m])[..|b + [m]| - 1] == b && (a + [m])[..|a + [m]| - 1] == a;
  }

  /** The buffer never holds more than 16 messages. */
  lemma {:induction false} NeverOverfull(events: seq<Event>, n: nat)
    requires n <= |events|
    ensures |Buffered(events, n)| <= 16
  {
    if n > 0 {
      NeverOverfull(events, n - 1);
    }
  }

  /** Accepted messages keep their order among those offered. */
  lemma {:induction false} AcceptedAmongOffered(events: seq<Event>, n: nat)
    requires n <= |events|
    ensures Subsequence(Accepted(events, n), Offered(events, n))
  {
    if n > 0 {
      AcceptedAmongOffered(events, n - 1);
      var a, o := Accepted(events, n - 1), Offered(events, n - 1);
      hide Subsequence, Buffered;
      if events[n - 1].Offer? {
        SkipLast(a, o, events[n - 1].message);
        assert a + [] == a;
      } else {
        assert a + [] == a && o + [] == o;
      }
    }
  }

  /** What was received followed by what is buffered is, in order, exactly the offers that found
      the buffer not full: a message is missing only if the buffer held 16 when it came. */
  lemma {:induction false} DeliveredIsAccepted(events: seq<Event>, n: nat)
    requires n <= |events|
    ensures Consumed(events, n) + Buffered(events, n) == Accepted(events, n)
  {
    hide Buffered, Consumed, Accepted;
    if n == 0 {
      NothingYet(events);
    } else {
      DeliveredIsAccepted(events, n - 1);
      NeverOverfull(events, n - 1);
      TakeMovesOne(Consumed(events, n - 1), Buffered(events, n - 1));
      BufferStep(events, n);
      HistoryStep(events, n);
    }
  }

  lemma {:induction false} NothingYet(events: seq<Event>)
    ensures Buffered(events, 0) == [] && Consumed(events, 0) == [] && Accepted(events, 0) == []
  {
  }

  lemma {:induction false} HistoryStep(events: seq<Event>, n: nat)
    requires 0 < n <= |events|
    ensures var b := Buffered(events, n - 1);
            match events[n - 1]
            case Offer(m) =>
              && Consumed(events, n) == Consumed(events, n - 1)
              && Accepted(events, n) == if |b| != 16 then Accepted(events, n - 1) + [m] else Accepted(events, n - 1)
            case Take =>
              && Accepted(events, n) == Accepted(events, n - 1)
              && Consumed(events, n) == if b != [] then Consumed(events, n - 1) + [b[0]] else Consumed(events, n - 1)
  {
    hide Buffered;
  }

  lemma {:induction false} BufferStep(events: seq<Event>, n: nat)
    requires 0 < n <= |events|
    ensures var b := Buffered(events, n - 1);
            Buffered(events, n) ==
              match events[n - 1]
              case Offer(m) => if |b| < CAPACITY then b + [m] else b
              case Take => if b == [] then b else b[1..]
  {
  }

  lemma TakeMovesOne(consumed: seq<Message>, b: seq<Message>)
    ensures b != [] ==> consumed + [b[0]] + b[1..] == consumed + b
  {
  }

  lemma {:induction false} EarlierEvents(events: seq<Event>, e: Event, n: nat)
    requires n <= |events|
    ensures Buffered(events + [e], n) == Buffered(events, n)
    ensures Offered(events + [e], n) == Offered(events, n)
  {
    if n > 0 {
      EarlierEvents(events, e, n - 1);
    }
  }

  lemma {:induction false} AppendEvent(events: seq<Event>, e: Event)
    ensures var b := Buffered(events, |events|);
            && Buffered(events + [e], |events| + 1) ==
                 (match e
                  case Offer(m) => if |b| < CAPACITY then b + [m] else b
                  case Take => if b == [] then b else b[1..])
            && Offered(events + [e], |events| + 1) == Offered(events, |events|) + if e.Offer? then [e.message] else []
  {
    EarlierEvents(events, e, |events|);
  }

  class Client {
    const tenant: int
    const user: int
    var buffer: seq<Message>
    var closed: bool
    // The history of the channel, and how often it was closed.
    ghost var events: seq<Event>
    ghost var closes: nat

    ghost predicate Valid()
      reads this
    {
      && buffer == Buffered(events, |events|)
      && closes == if closed then 1 else 0
    }

    constructor (tenant: int, user: int)
      ensures Valid() && this.tenant == tenant && this.user == user && events == [] && !closed
    {
      this.tenant, this.user := tenant, user;
      buffer, closed, events, closes := [], false, [], 0;
    }

    /** A send that does not wait: a full channel drops the message.  On a closed channel it panics. */
    method TrySend(m: Message)
      requires Valid() && !closed
      modifies this`buffer, this`events
      ensures Valid() && events == old(events) + [Offer(m)]
    {
      AppendEvent(events, Offer(m));
      NeverOverfull(events, |events|);
      if |buffer| < CAPACITY {
        buffer := buffer + [m];
      }
      events := events + [Offer(m)];
    }

    /** One receive of the write pump; buffered messages are still delivered after a close. */
    method Receive() returns (m: Option<Message>)
      requires Valid()
      modifies this`buffer, this`events
      ensures Valid() && events == old(events) + [Take]
      ensures m == if old(buffer) == [] then None else Some(old(buffer)[0])
    {
      AppendEvent(events, Take);
      events := events + [Take];
      if buffer == [] {
        return None;
      }
      m := Some(buffer[0]);
      buffer := buffer[1..];
    }

    /** Closing a closed channel panics. */
    method Close()
      requires Valid() && !closed
      modifies this`closed, this`closes
      ensures Valid() && closed && closes == old(closes) + 1
    {
      closed, closes := true, closes + 1;
    }
  }
}
