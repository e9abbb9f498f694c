/** The order lifecycle over the bot's two module-level tables,
    `pending_orders` and `active_numbers`: a selection inserts a pending
    order, and the payment step activates its number for an hour, sends the
    login code and deletes the order. Wall-clock time is the parameter `now`
    (seconds) and the timestamp text in order ids is the parameter `stamp`;
    each scheduled or awaited step is an explicit call. */
module Orders {
  import opened Wrappers
  import opened Decimal
  import opened Catalog
  import opened PhoneNumbers

  type UserId = int
  type OrderId = string

  /** `timedelta(hours=1)`, in seconds: how long an activated number lasts. */
  const LeaseSeconds: int := 3600

  /** The only status the bot ever writes. */
  datatype Status = Pending

  /** A `pending_orders` record. */
  datatype Order = Order(
    userId: UserId,
    number: string,
    country: string,   // the catalog key that was selected
    price: nat,
    status: Status,
    createdAt: int,
    chatId: int,
    messageId: int)

  /** An `active_numbers` record. */
  datatype ActiveNumber = ActiveNumber(number: string, country: string, expiresAt: int)

  /** What the payment step sends to the user; message text and Markdown are left out. */
  datatype Notice =
    | PaymentConfirmed(chatId: int, messageId: int, number: string, flag: string, country: string)
    | LoginCode(chatId: int, code: string)

  /** `NUMBERS_DATA[selected_country]` raised KeyError. */
  datatype SelectionError = UnknownVariant(key: string)

  /** The part of an order id fixed by the user: `order_{user_id}_`. */
  function OrderIdPrefix(userId: UserId): string {
    "order_" + IntToString(userId) + "_"
  }

  /** `f"order_{user_id}_{stamp}"`, where `stamp` is the selection time
      formatted to the second. */
  function OrderIdOf(userId: UserId, stamp: string): (id: OrderId)
    ensures OrderIdPrefix(userId) <= id
  {
    OrderIdPrefix(userId) + stamp
  }

  /** The decimal text of a user id never contains the separator '_'. */
  lemma NoSeparatorInUserId(userId: UserId)
    ensures '_' !in IntToString(userId)
  {
    var s := IntToString(userId);
    forall k | 0 <= k < |s| ensures s[k] != '_' {
      if k > 0 {
        assert s[k] == s[1..][k - 1];
      }
    }
  }

  /** Position of the first '_' in `s`, or `|s|` if there is none. */
  function SeparatorIndex(s: string): (k: nat)
    ensures k <= |s|
  {
    if s == [] || s[0] == '_' then 0 else 1 + SeparatorIndex(s[1..])
  }

  /** The first '_' of `a + "_" + b` is the one after `a` when `a` has none. */
  lemma {:induction false} SeparatorAfterLeftPart(a: string, b: string)
    requires '_' !in a
    ensures SeparatorIndex(a + "_" + b) == |a|
  {
    if a != [] {
      assert (a + "_" + b)[1..] == a[1..] + "_" + b;
      SeparatorAfterLeftPart(a[1..], b);
    }
  }

  /** Splitting at the first '_' is unambiguous when the left parts have none. */
  lemma SplitAtSeparator(a: string, b: string, c: string, d: string)
    requires '_' !in a && '_' !in c
    requires a + "_" + b == c + "_" + d
    ensures a == c && b == d
  {
    var x := a + "_" + b;
    SeparatorAfterLeftPart(a, b);
    SeparatorAfterLeftPart(c, d);
    assert a == x[..|a|];
    assert c == x[..|c|];
    assert b == x[|a| + 1..];
    assert d == x[|c| + 1..];
  }

  /** Two selections get the same order id exactly when they are by the same
      user and in the same second. */
  lemma OrderIdsCollideExactly(u1: UserId, s1: string, u2: UserId, s2: string)
    ensures OrderIdOf(u1, s1) == OrderIdOf(u2, s2) <==> u1 == u2 && s1 == s2
  {
    if OrderIdOf(u1, s1) == OrderIdOf(u2, s2) {
      var a, c := IntToString(u1), IntToString(u2);
      NoSeparatorInUserId(u1);
      NoSeparatorInUserId(u2);
      assert OrderIdOf(u1, s1)[6..] == a + "_" + s1;
      assert OrderIdOf(u2, s2)[6..] == c + "_" + s2;
      SplitAtSeparator(a, s1, c, s2);
      IntToStringInjective(u1, u2);
    }
  }

  /** A pending record as selection writes it: a catalog key, that variant's
      price, a number in that variant's format, an id built from its user. */
  predicate WellFormedOrder(id: OrderId, o: Order) {
    && Lookup(o.country).Some?
    && o.price == Lookup(o.country).value.price
    && IsPhoneNumberFor(Lookup(o.country).value.code, o.number)
    && OrderIdPrefix(o.userId) <= id
  }

  /** An activation as payment writes it: a catalog key and a number in its format. */
  predicate WellFormedActive(a: ActiveNumber) {
    && Lookup(a.country).Some?
    && IsPhoneNumberFor(Lookup(a.country).value.code, a.number)
  }

  /** The two module-level tables as one value: `active_numbers` and `pending_orders`. */
  datatype Tables = Tables(active: map<UserId, ActiveNumber>, pending: map<OrderId, Order>)

  /** What every step keeps true of the two tables. */
  predicate WellFormed(t: Tables) {
    && (forall id :: id in t.pending ==> WellFormedOrder(id, t.pending[id]))
    && (forall u :: u in t.active ==> WellFormedActive(t.active[u]))
  }

  /** The order-creating part of `handle_selection`: look the key up (a
      missing key fails before anything is stored), generate a number and
      store a pending order under `order_{user_id}_{stamp}`, replacing any
      order already stored under that id and leaving every other one alone. */
  function Select(t: Tables, userId: UserId, key: string, stamp: string, now: int,
                  chatId: int, messageId: int, rand: seq<Digit>): (r: Result<Tables, SelectionError>)
    requires |rand| >= MaxRandomDigits
    ensures r.Failure? <==> Lookup(key).None?
    ensures r.Failure? ==> r.error == UnknownVariant(key)
    ensures r.Success? ==>
      var id := OrderIdOf(userId, stamp);
      var v := Lookup(key).value;
      && r.value.active == t.active
      && r.value.pending.Keys == t.pending.Keys + {id}
      && (forall other :: other in t.pending && other != id ==> r.value.pending[other] == t.pending[other])
      && r.value.pending[id].userId == userId
      && r.value.pending[id].country == key
      && r.value.pending[id].price == v.price
      && r.value.pending[id].status == Pending
      && r.value.pending[id].number == GeneratePhoneNumber(v.code, rand)
      && r.value.pending[id].createdAt == now
      && r.value.pending[id].chatId == chatId && r.value.pending[id].messageId == messageId
  {
    match Lookup(key)
    case None => Failure(UnknownVariant(key))
    case Some(v) =>
      var id := OrderIdOf(userId, stamp);
      Success(Tables(t.active, t.pending[id :=
        Order(userId, GeneratePhoneNumber(v.code, rand), key, v.price, Pending, now, chatId, messageId)]))
  }

  /** The tables after the first half of a payment step, the order record it
      read (None if the order was gone) and the messages it sent. */
  datatype Confirmation = Confirmation(tables: Tables, captured: Option<Order>, sent: seq<Notice>)

  /** `process_payment_success` up to its four-second sleep: if the order is
      still pending, activate its number for the user until `now + 1 hour`,
      replacing the user's previous activation, and edit the order's message
      to say so. Nothing else changes. */
  function Confirm(t: Tables, orderId: OrderId, now: int): (r: Confirmation)
    requires orderId in t.pending ==> Lookup(t.pending[orderId].country).Some?
    ensures r.tables.pending == t.pending
    ensures orderId !in t.pending ==> r.tables.active == t.active && r.captured == None && r.sent == []
    ensures orderId in t.pending ==>
      var o := t.pending[orderId];
      var v := Lookup(o.country).value;
      && r.captured == Some(o)
      && r.tables.active.Keys == t.active.Keys + {o.userId}
      && r.tables.active[o.userId] == ActiveNumber(o.number, o.country, now + LeaseSeconds)
      && (forall u :: u in t.active && u != o.userId ==> r.tables.active[u] == t.active[u])
      && r.sent == [PaymentConfirmed(o.chatId, o.messageId, o.number, v.flag, v.country)]
  {
    if orderId !in t.pending then Confirmation(t, None, [])
    else
      var o := t.pending[orderId];
      var v := Lookup(o.country).value;
      Confirmation(
        Tables(t.active[o.userId := ActiveNumber(o.number, o.country, now + LeaseSeconds)], t.pending),
        Some(o),
        [PaymentConfirmed(o.chatId, o.messageId, o.number, v.flag, v.country)])
  }

  /** The tables after a payment step, the messages it sent and whether its
      `del` succeeded (Fail carries the id that raised KeyError). */
  datatype Completion = Completion(tables: Tables, sent: seq<Notice>, outcome: Outcome<OrderId>)

  /** `process_payment_success` after its sleep: send a fresh 5-digit login
      code to the chat of the record read before the sleep, then
      `del pending_orders[order_id]`, which raises KeyError if the id is gone
      by then. Activations are not touched. */
  function Finish(t: Tables, orderId: OrderId, orderData: Order, rand: seq<Digit>): (r: Completion)
    requires |rand| >= 5
    ensures r.tables.active == t.active
    ensures r.sent == [LoginCode(orderData.chatId, VerificationCode(rand))]
    ensures r.outcome == Pass <==> orderId in t.pending
    ensures orderId !in t.pending ==> r.outcome == Fail(orderId) && r.tables == t
    ensures orderId in t.pending ==>
      && r.tables.pending.Keys == t.pending.Keys - {orderId}
      && (forall other :: other in r.tables.pending ==> r.tables.pending[other] == t.pending[other])
  {
    var sent := [LoginCode(orderData.chatId, VerificationCode(rand))];
    if orderId !in t.pending then Completion(t, sent, Fail(orderId))
    else Completion(Tables(t.active, t.pending - {orderId}), sent, Pass)
  }

  /** `process_payment_success` run to completion with nothing in between: a
      missing order changes nothing and sends nothing; a present one is
      activated for its user (last write wins), confirmed, followed by a
      login code, and removed, every other order and every other user's
      activation left as it was. Run this way its `del` never fails. */
  function PaymentSuccess(t: Tables, orderId: OrderId, now: int, rand: seq<Digit>): (r: Completion)
    requires orderId in t.pending ==> Lookup(t.pending[orderId].country).Some?
    requires |rand| >= 5
    ensures r.outcome == Pass
    ensures orderId !in t.pending ==> r.tables == t && r.sent == []
    ensures orderId in t.pending ==>
      var o := t.pending[orderId];
      var v := Lookup(o.country).value;
      && r.tables.active.Keys == t.active.Keys + {o.userId}
      && r.tables.active[o.userId] == ActiveNumber(o.number, o.country, now + LeaseSeconds)
      && (forall u :: u in t.active && u != o.userId ==> r.tables.active[u] == t.active[u])
      && r.tables.pending.Keys == t.pending.Keys - {orderId}
      && (forall other :: other in r.tables.pending ==> r.tables.pending[other] == t.pending[other])
      && r.sent == [PaymentConfirmed(o.chatId, o.messageId, o.number, v.flag, v.country),
                    LoginCode(o.chatId, VerificationCode(rand))]
  {
    var c := Confirm(t, orderId, now);
    if c.captured.None? then Completion(c.tables, [], Pass)
    else
      var f := Finish(c.tables, orderId, c.captured.value, rand);
      Completion(f.tables, c.sent + f.sent, f.outcome)
  }

  /** Selection keeps the tables well formed: the stored record has a catalog
      key, that key's price, a number in that key's format and an id built
      from its user. */
  lemma SelectKeepsWellFormed(t: Tables, userId: UserId, key: string, stamp: string, now: int,
                              chatId: int, messageId: int, rand: seq<Digit>)
    requires WellFormed(t)
    requires |rand| >= MaxRandomDigits
    ensures var r := Select(t, userId, key, stamp, now, chatId, messageId, rand);
      r.Success? ==> WellFormed(r.value)
  {
  }

  /** Confirming keeps the tables well formed. */
  lemma ConfirmKeepsWellFormed(t: Tables, orderId: OrderId, now: int)
    requires WellFormed(t)
    ensures WellFormed(Confirm(t, orderId, now).tables)
  {
  }

  /** Finishing keeps the tables well formed. */
  lemma FinishKeepsWellFormed(t: Tables, orderId: OrderId, orderData: Order, rand: seq<Digit>)
    requires WellFormed(t)
    requires |rand| >= 5
    ensures WellFormed(Finish(t, orderId, orderData, rand).tables)
  {
  }

  /** A well-formed table never reaches the KeyError of `NUMBERS_DATA[order['country']]`
      in the payment step: every pending order's key is in the catalog. */
  lemma PendingCountriesAreInCatalog(t: Tables, orderId: OrderId)
    requires WellFormed(t)
    ensures orderId in t.pending ==> Lookup(t.pending[orderId].country).Some?
  {
  }

  /** The bot's module-level state. */
  class BotState {
    var activeNumbers: map<UserId, ActiveNumber>
    var pendingOrders: map<OrderId, Order>

    /** Both tables, as a value. */
    function State(): Tables
      reads this
    {
      Tables(activeNumbers, pendingOrders)
    }

    ghost predicate Valid()
      reads this
    {
      WellFormed(State())
    }

    /** Both tables start empty. */
    constructor ()
      ensures Valid()
      ensures State() == Tables(map[], map[])
    {
      activeNumbers := map[];
      pendingOrders := map[];
    }

    /** `handle_selection`'s store into `pending_orders`; on success the new order's id. */
    method HandleSelection(userId: UserId, key: string, stamp: string, now: int,
                           chatId: int, messageId: int, rand: seq<Digit>)
      returns (r: Result<OrderId, SelectionError>)
      requires Valid()
      requires |rand| >= MaxRandomDigits
      modifies this
      ensures Valid()
      ensures var s := Select(old(State()), userId, key, stamp, now, chatId, messageId, rand);
        && (s.Failure? ==> r == Failure(s.error) && State() == old(State()))
        && (s.Success? ==> r == Success(OrderIdOf(userId, stamp)) && State() == s.value)
    {
      SelectKeepsWellFormed(State(), userId, key, stamp, now, chatId, messageId, rand);
      var found := Lookup(key);
      if found.None? {
        return Failure(UnknownVariant(key));
      }
      var countryData := found.value;
      var phoneNumber := GeneratePhoneNumber(countryData.code, rand);
      var orderId := OrderIdOf(userId, stamp);
      pendingOrders := pendingOrders[orderId :=
        Order(userId, phoneNumber, key, countryData.price, Pending, now, chatId, messageId)];
      r := Success(orderId);
    }

    /** `process_payment_success` up to its sleep, on the bot's own tables. */
    method ConfirmPayment(orderId: OrderId, now: int) returns (captured: Option<Order>, sent: seq<Notice>)
      requires Valid()
      modifies this
      ensures Valid()
      ensures var c := Confirm(old(State()), orderId, now);
        State() == c.tables && captured == c.captured && sent == c.sent
    {
      PendingCountriesAreInCatalog(State(), orderId);
      ConfirmKeepsWellFormed(State(), orderId, now);
      if orderId !in pendingOrders {
        return None, [];
      }
      var orderData := pendingOrders[orderId];
      var countryData := Lookup(orderData.country).value;
      activeNumbers := activeNumbers[orderData.userId :=
        ActiveNumber(orderData.number, orderData.country, now + LeaseSeconds)];
      captured := Some(orderData);
      sent := [PaymentConfirmed(orderData.chatId, orderData.messageId, orderData.number,
                                countryData.flag, countryData.country)];
    }

    /** `process_payment_success` after its sleep, on the bot's own tables. */
    method FinishPayment(orderId: OrderId, orderData: Order, rand: seq<Digit>)
      returns (sent: seq<Notice>, outcome: Outcome<OrderId>)
      requires Valid()
      requires |rand| >= 5
      modifies this
      ensures Valid()
      ensures var f := Finish(old(State()), orderId, orderData, rand);
        State() == f.tables && sent == f.sent && outcome == f.outcome
    {
      FinishKeepsWellFormed(State(), orderId, orderData, rand);
      sent := [LoginCode(orderData.chatId, VerificationCode(rand))];
      if orderId !in pendingOrders {
        return sent, Fail(orderId);
      }
      pendingOrders := pendingOrders - {orderId};
      outcome := Pass;
    }

    /** `process_payment_success` as one uninterrupted call: the two halves in sequence. */
    method ProcessPaymentSuccess(orderId: OrderId, now: int, rand: seq<Digit>) returns (sent: seq<Notice>)
      requires Valid()
      requires |rand| >= 5
      modifies this
      ensures Valid()
      ensures var p := PaymentSuccess(old(State()), orderId, now, rand);
        State() == p.tables && sent == p.sent
    {
      var captured, confirmed := ConfirmPayment(orderId, now);
      if captured.None? {
        return [];
      }
      var codeMessage, outcome := FinishPayment(orderId, captured.value, rand);
      sent := confirmed + codeMessage;
    }
  }
}
