/** How SELECT, DELETE and SUM behave on the messages table: the facts every theorem rests on. */
module RowFacts {
  import opened Tables

  /** Every selected row is a row, and a deletion keeps the others. */
  lemma {:induction false} SelectedIff(ms: seq<Message>, queues: Queues, devices: Devices, w: Where)
    ensures forall m :: m in Selected(ms, queues, devices, w) <==> m in ms && Selects(queues, devices, w, m)
    ensures forall m :: m in Remaining(ms, queues, devices, w) <==> m in ms && !Selects(queues, devices, w, m)
    ensures |Selected(ms, queues, devices, w)| + |Remaining(ms, queues, devices, w)| == |ms|
  {
    hide Selects;
    if ms != [] {
      SelectedIff(ms[..|ms| - 1], queues, devices, w);
      assert ms == ms[..|ms| - 1] + [ms[|ms| - 1]];
    }
  }

  /** A row count of zero: nothing was selected, so the deletion changed nothing. */
  lemma {:induction false} NothingSelected(ms: seq<Message>, queues: Queues, devices: Devices, w: Where)
    requires forall i :: 0 <= i < |ms| ==> !Selects(queues, devices, w, ms[i])
    ensures Selected(ms, queues, devices, w) == []
    ensures Remaining(ms, queues, devices, w) == ms
  {
    if ms != [] {
      var init := ms[..|ms| - 1];
      assert forall i :: 0 <= i < |init| ==> init[i] == ms[i];
      NothingSelected(init, queues, devices, w);
      assert !Selects(queues, devices, w, ms[|ms| - 1]);
      assert ms == init + [ms[|ms| - 1]];
    }
  }

  lemma {:induction false} AllSelected(ms: seq<Message>, queues: Queues, devices: Devices, w: Where)
    requires forall i :: 0 <= i < |ms| ==> Selects(queues, devices, w, ms[i])
    ensures Selected(ms, queues, devices, w) == ms
    ensures Remaining(ms, queues, devices, w) == []
  {
    if ms != [] {
      var init := ms[..|ms| - 1];
      assert forall i :: 0 <= i < |init| ==> init[i] == ms[i];
      AllSelected(init, queues, devices, w);
      assert ms == init + [ms[|ms| - 1]];
    }
  }

  /** The joins read only who owns a queue and which account a device is in. */
  ghost predicate SameChoice(ms: seq<Message>, q1: Queues, d1: Devices, w1: Where, q2: Queues, d2: Devices, w2: Where) {
    forall i :: 0 <= i < |ms| ==> Selects(q1, d1, w1, ms[i]) == Selects(q2, d2, w2, ms[i])
  }

  lemma SameChoiceSplit(ms: seq<Message>, q1: Queues, d1: Devices, w1: Where, q2: Queues, d2: Devices, w2: Where)
    requires ms != [] && SameChoice(ms, q1, d1, w1, q2, d2, w2)
    ensures SameChoice(ms[..|ms| - 1], q1, d1, w1, q2, d2, w2)
    ensures Selects(q1, d1, w1, ms[|ms| - 1]) == Selects(q2, d2, w2, ms[|ms| - 1])
  {
    var init := ms[..|ms| - 1];
    forall i | 0 <= i < |init| ensures Selects(q1, d1, w1, init[i]) == Selects(q2, d2, w2, init[i]) {
      assert Selects(q1, d1, w1, ms[i]) == Selects(q2, d2, w2, ms[i]);
    }
  }

  lemma {:induction false} ChoiceDecides(
      ms: seq<Message>, q1: Queues, d1: Devices, w1: Where, q2: Queues, d2: Devices, w2: Where)
    requires SameChoice(ms, q1, d1, w1, q2, d2, w2)
    ensures Selected(ms, q1, d1, w1) == Selected(ms, q2, d2, w2)
    ensures Remaining(ms, q1, d1, w1) == Remaining(ms, q2, d2, w2)
  {
    if ms != [] {
      SameChoiceSplit(ms, q1, d1, w1, q2, d2, w2);
      ChoiceDecides(ms[..|ms| - 1], q1, d1, w1, q2, d2, w2);
    }
  }

  lemma {:induction false} ChoiceWeighs(
      ms: seq<Message>, q1: Queues, d1: Devices, w1: Where, q2: Queues, d2: Devices, w2: Where, at: Stamp)
    requires SameChoice(ms, q1, d1, w1, q2, d2, w2)
    ensures LiveBytes(ms, q1, d1, w1, at) == LiveBytes(ms, q2, d2, w2, at)
  {
    if ms != [] {
      SameChoiceSplit(ms, q1, d1, w1, q2, d2, w2);
      ChoiceWeighs(ms[..|ms| - 1], q1, d1, w1, q2, d2, w2, at);
    }
  }

  /** Two deletions, or a deletion and a selection, may be done in either order. */
  lemma {:induction false} DeletionsCommute(ms: seq<Message>, queues: Queues, devices: Devices, w: Where, v: Where)
    ensures Remaining(Remaining(ms, queues, devices, w), queues, devices, v)
         == Remaining(Remaining(ms, queues, devices, v), queues, devices, w)
    ensures Selected(Remaining(ms, queues, devices, w), queues, devices, v)
         == Remaining(Selected(ms, queues, devices, v), queues, devices, w)
  {
    if ms != [] {
      var init, last := ms[..|ms| - 1], ms[|ms| - 1];
      DeletionsCommute(init, queues, devices, w, v);
      RemainingSnoc(Remaining(init, queues, devices, w), last, queues, devices, v);
      RemainingSnoc(Remaining(init, queues, devices, v), last, queues, devices, w);
      RemainingSnoc(Selected(init, queues, devices, v), last, queues, devices, w);
    }
  }

  lemma RemainingSnoc(ms: seq<Message>, m: Message, queues: Queues, devices: Devices, w: Where, at: Stamp := 0)
    ensures Remaining(ms + [m], queues, devices, w)
         == Remaining(ms, queues, devices, w) + if Selects(queues, devices, w, m) then [] else [m]
    ensures Selected(ms + [m], queues, devices, w)
         == Selected(ms, queues, devices, w) + if Selects(queues, devices, w, m) then [m] else []
    ensures LiveBytes(ms + [m], queues, devices, w, at)
         == LiveBytes(ms, queues, devices, w, at)
            + (if Selects(queues, devices, w, m) && m.expires > at then |m.payload| else 0)
  {
    assert (ms + [m])[..|ms|] == ms;
  }

  /** Deleting rows never adds live bytes; deleting rows that are dead or elsewhere keeps them. */
  lemma {:induction false} DeletionShrinks(
      ms: seq<Message>, queues: Queues, devices: Devices, gone: Where, w: Where, at: Stamp)
    ensures LiveBytes(Remaining(ms, queues, devices, gone), queues, devices, w, at)
         <= LiveBytes(ms, queues, devices, w, at)
    ensures (forall m :: m in ms && Selects(queues, devices, gone, m) && Selects(queues, devices, w, m) ==>
                           m.expires <= at)
         ==> LiveBytes(Remaining(ms, queues, devices, gone), queues, devices, w, at)
             == LiveBytes(ms, queues, devices, w, at)
  {
    if ms != [] {
      var init, last := ms[..|ms| - 1], ms[|ms| - 1];
      assert forall m :: m in init ==> m in ms;
      assert last in ms;
      DeletionShrinks(init, queues, devices, gone, w, at);
      RemainingSnoc(Remaining(init, queues, devices, gone), last, queues, devices, w, at);
    }
  }

  /** Live bytes only decay as the clock moves on. */
  lemma {:induction false} BytesDecay(ms: seq<Message>, queues: Queues, devices: Devices, w: Where, at: Stamp,
      later: Stamp)
    requires at <= later
    ensures LiveBytes(ms, queues, devices, w, later) <= LiveBytes(ms, queues, devices, w, at)
  {
    if ms != [] {
      BytesDecay(ms[..|ms| - 1], queues, devices, w, at, later);
    }
  }

  /** Rows in strictly increasing rowid order, none above the counter. */
  ghost predicate Ascending(ms: seq<Message>, last: int) {
    ms == [] || (ms[|ms| - 1].seqno <= last && Ascending(ms[..|ms| - 1], ms[|ms| - 1].seqno - 1))
  }

  lemma {:induction false} AscendingLoosen(ms: seq<Message>, last: int, higher: int)
    requires Ascending(ms, last) && last <= higher
    ensures Ascending(ms, higher)
  {
  }

  lemma AscendingSnoc(ms: seq<Message>, m: Message, last: int)
    requires Ascending(ms, m.seqno - 1) && m.seqno <= last
    ensures Ascending(ms + [m], last)
  {
    assert (ms + [m])[..|ms|] == ms;
  }

  lemma {:induction false} AscendingRemaining(ms: seq<Message>, last: int, queues: Queues, devices: Devices, w: Where)
    requires Ascending(ms, last)
    ensures Ascending(Remaining(ms, queues, devices, w), last)
  {
    hide Selects;
    if ms != [] {
      var init, m := ms[..|ms| - 1], ms[|ms| - 1];
      AscendingRemaining(init, m.seqno - 1, queues, devices, w);
      var rest := Remaining(init, queues, devices, w);
      AscendingLoosen(rest, m.seqno - 1, last);
      AscendingSnoc(rest, m, last);
    }
  }

  /** Which is what ORDER BY seq needs: rows stand in the order of their rowids. */
  lemma {:induction false} AscendingOrders(ms: seq<Message>, last: int)
    requires Ascending(ms, last)
    ensures forall i :: 0 <= i < |ms| ==> ms[i].seqno <= last
    ensures forall i, j :: 0 <= i < j < |ms| ==> ms[i].seqno < ms[j].seqno
  {
    if ms != [] {
      var init, m := ms[..|ms| - 1], ms[|ms| - 1];
      AscendingOrders(init, m.seqno - 1);
      assert forall i :: 0 <= i < |init| ==> init[i] == ms[i];
    }
  }

  lemma DeliveriesSnoc(ms: seq<Message>, m: Message)
    ensures Deliveries(ms + [m]) == Deliveries(ms) + [Deliver(m)]
  {
    assert (ms + [m])[..|ms|] == ms;
  }
}
