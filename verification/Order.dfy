/** In which order a client hears of its tenant's messages when broadcasts run without the lock. */
module Order {
  import opened Wrappers
  import opened Channel
  import opened Presence
  import opened Fanout

  // Where the message the step offers to a client stands in `sent`.
  ghost function PlaceBy(s: State, step: Step, c: Client): Option<nat> {
    if OfferBy(s, step, c) == None then None
    else if step.Send? then Some(s.loops[step.b].place)
    else Some(|s.tables.sent|)
  }

  // The places of all messages the run offered to a client, in the order of the offers.
  ghost function Marks(run: seq<Step>, n: nat, c: Client): seq<nat>
    requires n <= |run|
  {
    if n == 0 then []
    else
      var place := PlaceBy(After(run, n - 1), run[n - 1], c);
      Marks(run, n - 1, c) + if place.Some? then [place.value] else []
  }

  ghost predicate Increasing(marks: seq<nat>) {
    forall i, j :: 0 <= i < j < |marks| ==> marks[i] < marks[j]
  }

  predicate Behind(place: nat, marks: seq<nat>) { exists i :: 0 <= i < |marks| && place <= marks[i] }

  // The n-th step offers the client a message after one that was not sent before it.
  ghost predicate Overtaken(run: seq<Step>, n: nat, c: Client)
    requires n < |run|
  {
    var place := PlaceBy(After(run, n), run[n], c);
    place.Some? && Behind(place.value, Marks(run, n, c))
  }

  // ---------- Marks point at the messages ----------

  lemma PlacePoints(s: State, step: Step, c: Client)
    requires Inv(s.tables) && LoopsOk(s)
    ensures var sent, place := Next(s, step).tables.sent, PlaceBy(s, step, c);
            && (place == None <==> OfferBy(s, step, c) == None)
            && (place.Some? ==>
                  && place.value < |sent| && sent[place.value] == Sent(c.tenant, OfferBy(s, step, c).value)
                  && (!step.Send? ==> place.value == |s.tables.sent|))
  {
    hide Inv, Agree, Lists, OfferTo, NoneForeign, Prune, Counted, Discounted;
    if step.Send? && step.b in s.loops {
      assert LoopOk(s, s.loops[step.b]);
    }
  }

  ghost predicate Points(marks: seq<nat>, stream: seq<Message>, sent: seq<Sent>, tenant: int) {
    && |marks| == |stream|
    && forall i :: 0 <= i < |marks| ==> marks[i] < |sent| && sent[marks[i]] == Sent(tenant, stream[i])
  }

  /** Every offer to a client has its place: there stands its message, addressed to the client's tenant. */
  lemma {:induction false} MarksPoint(run: seq<Step>, n: nat, c: Client)
    requires n <= |run|
    ensures Points(Marks(run, n, c), Stream(run, n, c), After(run, n).tables.sent, c.tenant)
  {
    hide After, Next, Inv, LoopsOk, OfferBy, PlaceBy;
    if n > 0 {
      var s := After(run, n - 1);
      MarksPoint(run, n - 1, c);
      AlwaysInv(run, n - 1);
      NothingForeign(run, n - 1);
      AfterStep(run, n);
      SentGrows(s, run[n - 1]);
      PlacePoints(s, run[n - 1], c);
    }
  }

  // ---------- When the order is kept ----------

  lemma IncreasingMore(marks: seq<nat>, place: nat)
    ensures Increasing(marks + [place]) <==> Increasing(marks) && !Behind(place, marks)
  {
    var more := marks + [place];
    if Increasing(more) {
      assert forall i :: 0 <= i < |marks| ==> marks[i] == more[i] && more[i] < more[|marks|];
    }
  }

  /** The offers to a client follow the order of the beginnings exactly if none overtakes another. */
  lemma {:induction false} OrderKept(run: seq<Step>, n: nat, c: Client)
    requires n <= |run|
    ensures Increasing(Marks(run, n, c)) <==> forall i :: 0 <= i < n ==> !Overtaken(run, i, c)
  {
    hide After, PlaceBy, Increasing, Behind;
    if n == 0 {
      NoMarks();
    } else {
      OrderKept(run, n - 1, c);
      var place := PlaceBy(After(run, n - 1), run[n - 1], c);
      if place.Some? {
        IncreasingMore(Marks(run, n - 1, c), place.value);
        assert Overtaken(run, n - 1, c) <==> Behind(place.value, Marks(run, n - 1, c));
      } else {
        assert Marks(run, n, c) == Marks(run, n - 1, c);
      }
    }
  }

  lemma NoMarks()
    ensures Increasing([])
  {
  }

  /** Only a send without the lock can overtake. */
  lemma {:induction false} OnlySendsOvertake(run: seq<Step>, n: nat, c: Client)
    requires n < |run| && Overtaken(run, n, c)
    ensures run[n].Send?
  {
    hide After, Next, Inv, LoopsOk, OfferBy, PlaceBy;
    AlwaysInv(run, n);
    NothingForeign(run, n);
    PlacePoints(After(run, n), run[n], c);
    MarksPoint(run, n, c);
  }

  // ---------- Which messages concern a client ----------

  // The client registers in this step.
  ghost predicate RegistersIn(run: seq<Step>, k: nat, c: Client)
    requires k < |run|
  {
    Joins(After(run, k), run[k]) && run[k].c == c
  }

  predicate Running(s: State, place: nat) { exists b :: b in s.loops && s.loops[b].place == place }

  /** The places of the tenant's messages that a client can hear of: those from its registration to its
      removal, and those of the loops that were still running when it registered. */
  ghost function Concerning(joining: State, t: Tables, c: Client): set<nat>
    requires c in t.spans
  {
    set p: nat | p < |t.sent| && t.sent[p].tenant == c.tenant &&
        (t.spans[c].from <= p < End(t.spans[c], |t.sent|) || (p < t.spans[c].from && Running(joining, p)))
  }

  // A loop with an early place has been running since then.
  lemma {:induction false} RunningSince(run: seq<Step>, m: nat, n: nat, place: nat)
    requires m <= n <= |run| && Running(After(run, n), place) && place < |After(run, m).tables.sent|
    ensures Running(After(run, m), place)
    decreases n
  {
    hide After, Next, Running;
    if m < n {
      var s := After(run, n - 1);
      AfterStep(run, n);
      RunningStep(s, run[n - 1], place);
      SentStays(run, m, n - 1);
      RunningSince(run, m, n - 1, place);
    }
  }

  lemma RunningStep(s: State, step: Step, place: nat)
    requires Running(Next(s, step), place)
    ensures Running(s, place) || place == |s.tables.sent|
  {
    hide Joins, Leaves, Join, Depart, Deliver, Consume, OfferTo;
    var b :| b in Next(s, step).loops && Next(s, step).loops[b].place == place;
    if b in s.loops {
      assert s.loops[b].place == place || step.Begin?;
    }
  }

  lemma {:induction false} SentStays(run: seq<Step>, m: nat, n: nat)
    requires m <= n <= |run|
    ensures After(run, m).tables.sent <= After(run, n).tables.sent
    decreases n
  {
    hide After, Next;
    if m < n {
      SentStays(run, m, n - 1);
      AfterStep(run, n);
      SentGrows(After(run, n - 1), run[n - 1]);
    }
  }

  // A known client's span opens once, and ends once.
  lemma SpanStep(s: State, step: Step, c: Client)
    requires Inv(s.tables) && c in s.tables.chans
    ensures c in s.tables.spans && c in Next(s, step).tables.chans && c in Next(s, step).tables.spans
    ensures var span, after := s.tables.spans[c], Next(s, step).tables.spans[c];
            after.from == span.from && End(span, |s.tables.sent|) <= End(after, |Next(s, step).tables.sent|)
  {
    hide Agree, Filed, In, Lists, OfferTo, Counted, Discounted, Added, Removed, Prune, Next, ChansOk, ChanOk;
    InStep(s, step, c);
    NextKeepsInv(s, step);
    SpanOf(s.tables, c);
    SpanOf(Next(s, step).tables, c);
    SpanKept(s, step, c);
  }

  lemma SpanOf(t: Tables, c: Client)
    requires Inv(t) && c in t.chans
    ensures c in t.spans && t.spans[c].from <= End(t.spans[c], |t.sent|) <= |t.sent|
    ensures In(t.clients, c) <==> t.spans[c].to == None
  {
    hide Agree, Filed, In;
    assert ChanOk(t, c);
  }

  lemma SpanKept(s: State, step: Step, c: Client)
    requires c in s.tables.chans && c in s.tables.spans && c in Next(s, step).tables.spans
    requires Leaves(s, step) && step.c == c ==> s.tables.spans[c].to == None
    ensures Next(s, step).tables.spans[c] ==
              if Leaves(s, step) && step.c == c then Span(s.tables.spans[c].from, Some(|s.tables.sent|))
              else s.tables.spans[c]
    ensures |s.tables.sent| <= |Next(s, step).tables.sent|
  {
    hide Lists, OfferTo, Counted, Discounted, Added, Removed, Prune, In;
  }

  // Who is offered a message is registered after the step.
  lemma OfferedIsIn(s: State, step: Step, c: Client)
    requires Inv(s.tables) && LoopsOk(s) && OfferBy(s, step, c).Some?
    ensures In(Next(s, step).tables.clients, c)
  {
    hide Inv, LoopsOk, Lists, Next;
    match step
    case Register(d, m) =>
      JoinedIsIn(s, d, m);
      if c != d {
        LeaverIsKnown(s.tables, c);
        InStep(s, step, c);
      }
    case Unregister(d, m) =>
      LeaverIsKnown(s.tables, c);
      InStep(s, step, c);
    case Broadcast(tenant, m) =>
      LeaverIsKnown(s.tables, c);
      InStep(s, step, c);
    case Send(b) =>
      CurrentIsKnown(s, b);
      OpenIsIn(s.tables, c);
      InStep(s, step, c);
  }

  lemma JoinedIsIn(s: State, c: Client, m: Message)
    requires Joins(s, Register(c, m))
    ensures In(Next(s, Register(c, m)).tables.clients, c)
  {
    hide Lists, OfferTo, Counted;
  }

  lemma OpenIsIn(t: Tables, c: Client)
    requires Inv(t) && c in t.chans && t.chans[c].closes == 0
    ensures In(t.clients, c)
  {
    hide Agree, Filed, In;
    assert ChanOk(t, c);
  }

  // Before it registers a client hears nothing.
  lemma {:induction false} NotYetKnown(run: seq<Step>, n: nat, c: Client)
    requires n <= |run| && c !in After(run, n).tables.chans
    ensures Marks(run, n, c) == []
  {
    hide After, Next, Inv, LoopsOk, OfferBy;
    if n > 0 {
      var s := After(run, n - 1);
      AlwaysInv(run, n - 1);
      NothingForeign(run, n - 1);
      AfterStep(run, n);
      if c in s.tables.chans {
        InStep(s, run[n - 1], c);
      } else {
        NotYetKnown(run, n - 1, c);
        if OfferBy(s, run[n - 1], c).Some? {
          OfferedIsIn(s, run[n - 1], c);
          NextKeepsInv(s, run[n - 1]);
          LeaverIsKnown(Next(s, run[n - 1]).tables, c);
        }
      }
    }
  }

  lemma BecomesKnown(s: State, step: Step, c: Client)
    requires c !in s.tables.chans && c in Next(s, step).tables.chans
    ensures Joins(s, step) && step.c == c
    ensures c in Next(s, step).tables.spans && Next(s, step).tables.spans[c].from == |s.tables.sent|
  {
    hide Lists, Counted, Discounted, Added, Removed, Prune, In;
  }

  // What concerned a client goes on to.
  lemma {:induction false} StillConcerns(joining: State, s: State, step: Step, c: Client, p: nat)
    requires Inv(s.tables) && LoopsOk(s) && c in s.tables.chans && c in s.tables.spans
    requires p in Concerning(joining, s.tables, c) && c in Next(s, step).tables.spans
    ensures p in Concerning(joining, Next(s, step).tables, c)
  {
    hide Inv, LoopsOk, Next, Running;
    SpanStep(s, step, c);
    SentGrows(s, step);
  }

  // An offer concerns the client.
  lemma {:induction false} OfferConcerns(run: seq<Step>, k: nat, n: nat, c: Client)
    requires k <= n < |run| && PlaceBy(After(run, n), run[n], c).Some?
    requires c in After(run, n + 1).tables.spans
    requires After(run, n + 1).tables.spans[c].from == |After(run, k).tables.sent|
    ensures PlaceBy(After(run, n), run[n], c).value in
              Concerning(After(run, k), After(run, n + 1).tables, c)
  {
    hide After, Next, Inv, LoopsOk, OfferBy, Running;
    var s, place := After(run, n), PlaceBy(After(run, n), run[n], c).value;
    AlwaysInv(run, n);
    NothingForeign(run, n);
    AfterStep(run, n + 1);
    PlacePoints(s, run[n], c);
    OfferedIsIn(s, run[n], c);
    NextKeepsInv(s, run[n]);
    LeaverIsKnown(Next(s, run[n]).tables, c);
    SpanOf(Next(s, run[n]).tables, c);
    SentStays(run, k, n);
    if place < |After(run, k).tables.sent| {
      SentPlaceRuns(s, run[n], c);
      RunningSince(run, k, n, place);
    }
  }

  lemma SentPlaceRuns(s: State, step: Step, c: Client)
    requires PlaceBy(s, step, c).Some? && PlaceBy(s, step, c).value < |s.tables.sent|
    ensures Running(s, PlaceBy(s, step, c).value)
  {
    hide Joins, Leaves;
  }

  /** All a client is ever offered concerns it. */
  lemma {:induction false} MarksConcern(run: seq<Step>, n: nat, c: Client) returns (k: nat)
    requires n <= |run| && c in After(run, n).tables.chans
    ensures k < n && RegistersIn(run, k, c) && c in After(run, n).tables.spans
    ensures After(run, n).tables.spans[c].from == |After(run, k).tables.sent|
    ensures forall p :: p in Marks(run, n, c) ==> p in Concerning(After(run, k), After(run, n).tables, c)
  {
    hide After, Next, Inv, LoopsOk, PlaceBy, Concerning, Joins;
    AfterStart(run);
    var s := After(run, n - 1);
    AlwaysInv(run, n - 1);
    NothingForeign(run, n - 1);
    AfterStep(run, n);
    if c !in s.tables.chans {
      k := n - 1;
      BecomesKnown(s, run[n - 1], c);
      NotYetKnown(run, n - 1, c);
    } else {
      k := MarksConcern(run, n - 1, c);
      SpanStep(s, run[n - 1], c);
      forall p | p in Marks(run, n - 1, c)
        ensures p in Concerning(After(run, k), After(run, n).tables, c)
      {
        StillConcerns(After(run, k), s, run[n - 1], c, p);
      }
    }
    if PlaceBy(s, run[n - 1], c).Some? {
      OfferConcerns(run, k, n - 1, c);
    }
  }

  // ---------- Subsequences of what was sent ----------

  // The messages at these places, up to place b.
  ghost function AtPlaces(sent: seq<Sent>, places: set<nat>, b: nat): seq<Message>
    requires b <= |sent|
  {
    if b == 0 then [] else AtPlaces(sent, places, b - 1) + if b - 1 in places then [sent[b - 1].message] else []
  }

  // ---------- Subsequences of what was addressed ----------

  lemma NothingIsSubsequence(s: seq<Message>)
    ensures Subsequence([], s)
  {
  }

  lemma PointsFront(marks: seq<nat>, stream: seq<Message>, sent: seq<Sent>, tenant: int)
    requires Points(marks, stream, sent, tenant) && Increasing(marks) && marks != []
    ensures var last := |marks| - 1;
            && Points(marks[..last], stream[..last], sent, tenant) && Increasing(marks[..last])
            && (forall i :: 0 <= i < last ==> marks[i] < marks[last])
            && stream == stream[..last] + [stream[last]]
  {
  }

  // Messages at growing places are a subsequence of all at these places.
  lemma {:induction false} GrowingIsSubsequence(sent: seq<Sent>, tenant: int, places: set<nat>, marks: seq<nat>,
      stream: seq<Message>, b: nat)
    requires b <= |sent| && Points(marks, stream, sent, tenant) && Increasing(marks)
    requires forall i :: 0 <= i < |marks| ==> marks[i] < b && marks[i] in places
    ensures Subsequence(stream, AtPlaces(sent, places, b))
    decreases b
  {
    hide Subsequence, Increasing;
    if marks == [] {
      NothingIsSubsequence(AtPlaces(sent, places, b));
    } else {
      assert marks[0] < b;
      var last := |marks| - 1;
      var before := AtPlaces(sent, places, b - 1);
      PointsFront(marks, stream, sent, tenant);
      if marks[last] == b - 1 {
        GrowingIsSubsequence(sent, tenant, places, marks[..last], stream[..last], b - 1);
        SkipLast(stream[..last], before, stream[last]);
      } else {
        GrowingIsSubsequence(sent, tenant, places, marks, stream, b - 1);
        SkipLast(stream, before, sent[b - 1].message);
        assert before + [] == before;
      }
    }
  }

  // And the other way round.
  lemma {:induction false} SubsequenceGrows(sent: seq<Sent>, tenant: int, places: set<nat>, stream: seq<Message>,
      b: nat)
      returns (marks: seq<nat>)
    requires b <= |sent| && Subsequence(stream, AtPlaces(sent, places, b))
    requires forall p :: p in places && p < b ==> sent[p].tenant == tenant
    ensures Points(marks, stream, sent, tenant) && Increasing(marks)
    ensures forall i :: 0 <= i < |marks| ==> marks[i] < b
    decreases b
  {
    marks := [];
    if stream != [] {
      var all := AtPlaces(sent, places, b);
      var last := |stream| - 1;
      if b - 1 !in places {
        assert all == AtPlaces(sent, places, b - 1);
        marks := SubsequenceGrows(sent, tenant, places, stream, b - 1);
      } else {
        assert all[..|all| - 1] == AtPlaces(sent, places, b - 1);
        if stream[last] == sent[b - 1].message && Subsequence(stream[..last], all[..|all| - 1]) {
          marks := SubsequenceGrows(sent, tenant, places, stream[..last], b - 1);
          marks := marks + [b - 1];
        } else {
          marks := SubsequenceGrows(sent, tenant, places, stream, b - 1);
        }
      }
    }
  }

  lemma {:induction false} SubsequenceTransitive(a: seq<Message>, b: seq<Message>, c: seq<Message>)
    requires Subsequence(a, b) && Subsequence(b, c)
    ensures Subsequence(a, c)
    decreases |c|
  {
    if a != [] {
      var a1, b1, c1 := a[..|a| - 1], b[..|b| - 1], c[..|c| - 1];
      if b[|b| - 1] == c[|c| - 1] && Subsequence(b1, c1) {
        if a[|a| - 1] == b[|b| - 1] && Subsequence(a1, b1) {
          SubsequenceTransitive(a1, b1, c1);
        } else {
          SubsequenceTransitive(a, b1, c1);
        }
      } else {
        SubsequenceTransitive(a, b, c1);
      }
    }
  }

  // ---------- Delivery in every run ----------

  lemma ConcerningIsSent(joining: State, t: Tables, c: Client)
    requires c in t.spans
    ensures forall p :: p in Concerning(joining, t, c) ==> p < |t.sent| && t.sent[p].tenant == c.tenant
  {
    hide Running;
  }

  /** In every run, broadcasts without the lock included: what a client received followed by what waits
      in its channel, at most 16 messages, is a subsequence of what was offered to it; and if no offer
      to it overtook another, of the messages that concern it, in the order of their beginnings: those
      to its tenant from its registration to its removal, and those whose loops were running when it
      registered, at step k. */
  lemma {:induction false} DeliveredInOrder(run: seq<Step>, n: nat, c: Client) returns (k: nat)
    requires n <= |run| && c in After(run, n).tables.chans
    ensures k < n && RegistersIn(run, k, c) && c in After(run, n).tables.spans
    ensures var t := After(run, n).tables;
            var events := t.chans[c].events;
            var delivered := Consumed(events, |events|) + Buffered(events, |events|);
            && t.spans[c].from == |After(run, k).tables.sent|
            && |Buffered(events, |events|)| <= CAPACITY
            && Subsequence(delivered, Stream(run, n, c))
            && ((forall i :: 0 <= i < n ==> !Overtaken(run, i, c)) ==>
                  Subsequence(delivered, AtPlaces(t.sent, Concerning(After(run, k), t, c), |t.sent|)))
  {
    hide After, Marks, Stream, Overtaken, AtPlaces, Subsequence, Buffered, Consumed, Concerning, RegistersIn;
    k := MarksConcern(run, n, c);
    DeliveredInSendOrder(run, n, c);
    MarksPoint(run, n, c);
    OrderKept(run, n, c);
    var t := After(run, n).tables;
    if Increasing(Marks(run, n, c)) {
      var events, due := t.chans[c].events, Concerning(After(run, k), t, c);
      var marks := Marks(run, n, c);
      ConcerningIsSent(After(run, k), t, c);
      forall i | 0 <= i < |marks|
        ensures marks[i] < |t.sent| && marks[i] in due
      {
        assert marks[i] in marks;
      }
      GrowingIsSubsequence(t.sent, c.tenant, due, marks, Stream(run, n, c), |t.sent|);
      SubsequenceTransitive(Consumed(events, |events|) + Buffered(events, |events|), Stream(run, n, c),
                            AtPlaces(t.sent, due, |t.sent|));
    }
  }

  // No message was sent to the tenant twice.
  ghost predicate AllDiffer(sent: seq<Sent>, tenant: int) {
    forall i, j :: 0 <= i < j < |sent| && sent[i].tenant == tenant ==> sent[i] != sent[j]
  }

  lemma PointsOnce(sent: seq<Sent>, tenant: int, a: seq<nat>, b: seq<nat>, stream: seq<Message>)
    requires AllDiffer(sent, tenant) && Points(a, stream, sent, tenant) && Points(b, stream, sent, tenant)
    ensures a == b
  {
  }

  /** If the messages to a tenant all differ, the offers to a client are a subsequence of those that
      concern it exactly if none overtook another; before it registers there are no offers. */
  lemma {:induction false} InOrderExactly(run: seq<Step>, n: nat, c: Client) returns (k: nat)
    requires n <= |run| && AllDiffer(After(run, n).tables.sent, c.tenant)
    ensures c !in After(run, n).tables.chans ==>
              Stream(run, n, c) == [] && forall i :: 0 <= i < n ==> !Overtaken(run, i, c)
    ensures c in After(run, n).tables.chans ==>
              && k < n && RegistersIn(run, k, c) && c in After(run, n).tables.spans
              && var t := After(run, n).tables;
                 && t.spans[c].from == |After(run, k).tables.sent|
                 && (Subsequence(Stream(run, n, c), AtPlaces(t.sent, Concerning(After(run, k), t, c), |t.sent|)) <==>
                       forall i :: 0 <= i < n ==> !Overtaken(run, i, c))
  {
    hide After, Marks, Stream, Overtaken, AtPlaces, Subsequence, Concerning, RegistersIn, AllDiffer, Points, Increasing;
    MarksPoint(run, n, c);
    OrderKept(run, n, c);
    var t, marks, stream := After(run, n).tables, Marks(run, n, c), Stream(run, n, c);
    if c !in t.chans {
      NotYetKnown(run, n, c);
      NothingPoints(marks, stream, t.sent, c.tenant);
      k := n;
    } else {
      k := MarksConcern(run, n, c);
      var due := Concerning(After(run, k), t, c);
      ConcerningIsSent(After(run, k), t, c);
      if Subsequence(stream, AtPlaces(t.sent, due, |t.sent|)) {
        var growing := SubsequenceGrows(t.sent, c.tenant, due, stream, |t.sent|);
        PointsOnce(t.sent, c.tenant, growing, marks, stream);
      }
      if Increasing(marks) {
        forall i | 0 <= i < |marks|
          ensures marks[i] < |t.sent| && marks[i] in due
        {
          assert marks[i] in marks;
        }
        GrowingIsSubsequence(t.sent, c.tenant, due, marks, stream, |t.sent|);
      }
    }
  }

  lemma NothingPoints(marks: seq<nat>, stream: seq<Message>, sent: seq<Sent>, tenant: int)
    requires marks == [] && Points(marks, stream, sent, tenant)
    ensures stream == [] && Increasing(marks)
  {
  }
}
