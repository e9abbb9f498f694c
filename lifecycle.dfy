/** Runs of the order lifecycle that involve more than one step: repeated
    selections, two payment jobs for one order id, and two payments for one
    user. Each scheduled job and each resumption after the payment step's
    sleep is an explicit step on the tables. */
module Lifecycle {
  import opened Wrappers
  import opened Decimal
  import opened Catalog
  import opened PhoneNumbers
  import opened Orders

  /** Writing a key twice keeps only the second write. */
  lemma OverwriteTwice<K, V>(m: map<K, V>, k: K, a: V, b: V)
    ensures m[k := a][k := b] == m[k := b]
  {
  }

  /** Whatever is stored under the id a selection builds makes no difference
      to that selection: it is replaced. */
  lemma SelectReplacesSameId(t: Tables, o: Order, userId: UserId, key: string, stamp: string,
                             now: int, chatId: int, messageId: int, rand: seq<Digit>)
    requires |rand| >= MaxRandomDigits
    ensures Select(Tables(t.active, t.pending[OrderIdOf(userId, stamp) := o]), userId, key, stamp, now, chatId, messageId, rand)
         == Select(t, userId, key, stamp, now, chatId, messageId, rand)
  {
    var id := OrderIdOf(userId, stamp);
    match Lookup(key)
    case None =>
    case Some(v) =>
      var o2 := Order(userId, GeneratePhoneNumber(v.code, rand), key, v.price, Pending, now, chatId, messageId);
      OverwriteTwice(t.pending, id, o, o2);
  }

  /** A second selection by the same user in the same second builds the same
      order id, so the first selection leaves no trace in `pending_orders`:
      the tables are exactly what the second selection alone would give. */
  lemma SameSecondSelectionOverwrites(t: Tables, userId: UserId, key1: string, key2: string,
                                      stamp: string, now1: int, now2: int, chat1: int, chat2: int,
                                      message1: int, message2: int,
                                      rand1: seq<Digit>, rand2: seq<Digit>)
    requires |rand1| >= MaxRandomDigits && |rand2| >= MaxRandomDigits
    ensures
      var first := Select(t, userId, key1, stamp, now1, chat1, message1, rand1);
      first.Success? ==>
        Select(first.value, userId, key2, stamp, now2, chat2, message2, rand2)
          == Select(t, userId, key2, stamp, now2, chat2, message2, rand2)
  {
    var first := Select(t, userId, key1, stamp, now1, chat1, message1, rand1);
    if first.Success? {
      SelectReplacesSameId(t, first.value.pending[OrderIdOf(userId, stamp)], userId, key2, stamp, now2, chat2, message2, rand2);
    }
  }

  /** Selections in different seconds never disturb each other's orders. */
  lemma DistinctSecondsKeepBothOrders(t: Tables, userId: UserId, key1: string, key2: string,
                                      stamp1: string, stamp2: string, now1: int, now2: int,
                                      chat1: int, chat2: int, message1: int, message2: int,
                                      rand1: seq<Digit>, rand2: seq<Digit>)
    requires stamp1 != stamp2
    requires |rand1| >= MaxRandomDigits && |rand2| >= MaxRandomDigits
    ensures Lookup(key1).Some? && Lookup(key2).Some? ==>
      var t1 := Select(t, userId, key1, stamp1, now1, chat1, message1, rand1).value;
      var t2 := Select(t1, userId, key2, stamp2, now2, chat2, message2, rand2).value;
      && t2.pending.Keys == t.pending.Keys + {OrderIdOf(userId, stamp1), OrderIdOf(userId, stamp2)}
      && t2.pending[OrderIdOf(userId, stamp1)] == t1.pending[OrderIdOf(userId, stamp1)]
  {
    OrderIdsCollideExactly(userId, stamp1, userId, stamp2);
  }

  /** Two payment jobs for the same order id (one per same-second selection)
      that interleave at the sleep: both confirm, then both finish, with
      every message edit and send returning normally. Both confirmations ask
      for the very same edit of the same message; if both edits succeed, two
      login codes go out, the user ends up with the activation written by
      the later confirmation, and the second `del` raises KeyError. (Telegram
      refuses an edit that changes nothing, so in the running bot the second
      job stops at its edit, after writing the activation and before the
      sleep: that job sends no code and deletes nothing.) */
  lemma OverlappingPaymentJobs(t: Tables, orderId: OrderId, now1: int, now2: int,
                               rand1: seq<Digit>, rand2: seq<Digit>)
    requires orderId in t.pending && Lookup(t.pending[orderId].country).Some?
    requires |rand1| >= 5 && |rand2| >= 5
    ensures
      var o := t.pending[orderId];
      var c1 := Confirm(t, orderId, now1);
      var c2 := Confirm(c1.tables, orderId, now2);
      var f1 := Finish(c2.tables, orderId, c1.captured.value, rand1);
      var f2 := Finish(f1.tables, orderId, c2.captured.value, rand2);
      && c1.sent == c2.sent
      && f1.sent + f2.sent == [LoginCode(o.chatId, VerificationCode(rand1)), LoginCode(o.chatId, VerificationCode(rand2))]
      && f1.outcome == Pass
      && f2.outcome == Fail(orderId)
      && f2.tables.active[o.userId] == ActiveNumber(o.number, o.country, now2 + LeaseSeconds)
      && f2.tables.pending == t.pending - {orderId}
  {
    var c1 := Confirm(t, orderId, now1);
    var c2 := Confirm(c1.tables, orderId, now2);
    var f1 := Finish(c2.tables, orderId, c1.captured.value, rand1);
    assert f1.tables.pending == t.pending - {orderId};
  }

  /** The same two jobs when Telegram refuses the second confirmation's edit
      because it repeats the first one exactly: the second job ends at its
      edit, after writing the activation, and only the first job finishes.
      One login code goes out, the order is removed without error, and the
      activation left is the one the second job wrote. */
  lemma OverlappingJobsWithRefusedEdit(t: Tables, orderId: OrderId, now1: int, now2: int,
                                       rand1: seq<Digit>)
    requires orderId in t.pending && Lookup(t.pending[orderId].country).Some?
    requires |rand1| >= 5
    ensures
      var o := t.pending[orderId];
      var c1 := Confirm(t, orderId, now1);
      var c2 := Confirm(c1.tables, orderId, now2);
      var f1 := Finish(c2.tables, orderId, c1.captured.value, rand1);
      && |c2.sent| == 1 && c2.sent == c1.sent
      && f1.sent == [LoginCode(o.chatId, VerificationCode(rand1))]
      && f1.outcome == Pass
      && f1.tables.active[o.userId] == ActiveNumber(o.number, o.country, now2 + LeaseSeconds)
      && f1.tables.pending == t.pending - {orderId}
  {
  }

  /** A completed payment leaves exactly the other pending orders. */
  lemma PaymentRemovesOnlyItsOrder(t: Tables, orderId: OrderId, now: int, rand: seq<Digit>)
    requires orderId in t.pending ==> Lookup(t.pending[orderId].country).Some?
    requires |rand| >= 5
    ensures PaymentSuccess(t, orderId, now, rand).tables.pending == t.pending - {orderId}
  {
    var p := PaymentSuccess(t, orderId, now, rand);
    assert p.tables.pending.Keys == (t.pending - {orderId}).Keys;
  }

  /** Two completed payments for orders of one user: the later one's
      activation is the one that remains, and both orders are gone. */
  lemma LaterPaymentReplacesActivation(t: Tables, id1: OrderId, id2: OrderId,
                                       now1: int, now2: int, rand1: seq<Digit>, rand2: seq<Digit>)
    requires id1 != id2 && id1 in t.pending && id2 in t.pending
    requires t.pending[id1].userId == t.pending[id2].userId
    requires Lookup(t.pending[id1].country).Some? && Lookup(t.pending[id2].country).Some?
    requires |rand1| >= 5 && |rand2| >= 5
    ensures
      var o := t.pending[id2];
      var p1 := PaymentSuccess(t, id1, now1, rand1);
      var p2 := PaymentSuccess(p1.tables, id2, now2, rand2);
      && p2.tables.active[o.userId] == ActiveNumber(o.number, o.country, now2 + LeaseSeconds)
      && p2.tables.active.Keys == t.active.Keys + {o.userId}
      && p2.tables.pending == t.pending - {id1} - {id2}
  {
    var p1 := PaymentSuccess(t, id1, now1, rand1);
    PaymentRemovesOnlyItsOrder(t, id1, now1, rand1);
    var p2 := PaymentSuccess(p1.tables, id2, now2, rand2);
    PaymentRemovesOnlyItsOrder(p1.tables, id2, now2, rand2);
  }

  /** A fresh bot serving one selection and its uninterrupted payment job ends
      with just that user's activation and no pending order. */
  lemma SelectThenPay(userId: UserId, key: string, stamp: string, selectedAt: int, paidAt: int,
                      chatId: int, messageId: int, rand: seq<Digit>, code: seq<Digit>)
    requires |rand| >= MaxRandomDigits && |code| >= 5
    ensures Lookup(key).Some? ==>
      var t := Select(Tables(map[], map[]), userId, key, stamp, selectedAt, chatId, messageId, rand).value;
      var p := PaymentSuccess(t, OrderIdOf(userId, stamp), paidAt, code);
      && p.tables.pending == map[]
      && p.tables.active == map[userId :=
           ActiveNumber(GeneratePhoneNumber(Lookup(key).value.code, rand), key, paidAt + LeaseSeconds)]
  {
    if Lookup(key).Some? {
      var t := Select(Tables(map[], map[]), userId, key, stamp, selectedAt, chatId, messageId, rand).value;
      var p := PaymentSuccess(t, OrderIdOf(userId, stamp), paidAt, code);
      assert p.tables.active == map[userId :=
        ActiveNumber(GeneratePhoneNumber(Lookup(key).value.code, rand), key, paidAt + LeaseSeconds)];
    }
  }
}
