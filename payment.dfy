/** backend/routes/payment.routes.js: wallet top-up through the payment
    gateway (a pending credit per gateway order, settled after a signature
    check), guarded debits, and the wallet and history reads. */
module Payment {
  import opened Common
  import U = UserModel
  import T = TransactionModel
  import opened Store

  /** The string the gateway signs: `orderId + "|" + paymentId`. */
  function SignedPayload(orderId: string, paymentId: string): (p: string)
    ensures |p| == |orderId| + 1 + |paymentId|
    ensures p[..|orderId|] == orderId && p[|orderId|] == '|' && p[|orderId| + 1..] == paymentId
  {
    orderId + "|" + paymentId
  }

  /** The position of the first '|' in `s`, or `|s|` when there is none. */
  function FirstBar(s: string): (k: nat)
    ensures k <= |s|
    ensures forall j :: 0 <= j < k ==> s[j] != '|'
    ensures k < |s| ==> s[k] == '|'
  {
    if s == [] || s[0] == '|' then 0 else 1 + FirstBar(s[1..])
  }

  /** When order ids contain no '|', the signed string determines both ids,
      so a signature for one pair never vouches for another. */
  lemma {:induction false} PayloadDeterminesIds(o1: string, p1: string, o2: string, p2: string)
    requires '|' !in o1 && '|' !in o2
    requires SignedPayload(o1, p1) == SignedPayload(o2, p2)
    ensures o1 == o2 && p1 == p2
  {
    var s := SignedPayload(o1, p1);
    assert forall j :: 0 <= j < |o1| ==> s[j] == o1[j];
    assert forall j :: 0 <= j < |o2| ==> s[j] == o2[j];
    assert FirstBar(s) == |o1|;
    assert FirstBar(s) == |o2|;
  }

  /** The reply of create-order: the gateway's order id and the amount in paise. */
  datatype Order = Order(orderId: string, amountPaise: int, currency: string)

  /** The row create-order records. */
  function PendingCredit(user: Id, amount: int, balance: int, orderId: string): (t: T.Transaction)
    ensures T.ValidTransaction(t) && t.status == T.Pending && t.kind == T.Credit
    ensures t.user == user && t.amount == amount && t.balance == balance
    ensures t.orderId == Some(orderId) && t.paymentId.None?
  {
    T.Entry(user, T.Credit, amount, balance, "Wallet recharge").(orderId := Some(orderId))
  }

  /** The row deduct records: a completed debit holding the negated amount. */
  function DebitRow(user: Id, amount: int, balance: int, description: string): (t: T.Transaction)
    requires description != ""
    ensures T.ValidTransaction(t) && t.status == T.Completed && t.kind == T.Debit
    ensures t.user == user && t.amount == -amount && t.balance == balance
    ensures t.description == description && t.orderId.None? && t.paymentId.None?
  {
    T.Entry(user, T.Debit, -amount, balance, description).(status := T.Completed)
  }

  predicate IsPendingFor(t: T.Transaction, orderId: string)
  {
    t.orderId == Some(orderId) && t.status == T.Pending
  }

  /** `Transaction.findOne({ orderId, status: 'pending' })`: the first such row. */
  function FirstPending(txs: seq<T.Transaction>, orderId: string): (r: Option<nat>)
    ensures r.Some? ==> (r.value < |txs| && IsPendingFor(txs[r.value], orderId) &&
      forall k :: 0 <= k < r.value ==> !IsPendingFor(txs[k], orderId))
    ensures r.None? ==> forall k :: 0 <= k < |txs| ==> !IsPendingFor(txs[k], orderId)
  {
    if txs == [] then None
    else if IsPendingFor(txs[0], orderId) then Some(0)
    else
      match FirstPending(txs[1..], orderId)
      case None => None
      case Some(k) => Some(k + 1)
  }

  /** How many rows are still pending for an order. */
  function PendingCount(txs: seq<T.Transaction>, orderId: string): nat
  {
    if txs == [] then 0
    else (if IsPendingFor(txs[0], orderId) then 1 else 0) + PendingCount(txs[1..], orderId)
  }

  function Settle(t: T.Transaction, paymentId: string): T.Transaction
  {
    t.(status := T.Completed, paymentId := Some(paymentId))
  }

  /** Settling a pending row uses it up: one pending row fewer for its order,
      so each recorded credit can be settled at most once. */
  lemma {:induction false} SettleConsumesOne(txs: seq<T.Transaction>, orderId: string, i: nat, paymentId: string)
    requires i < |txs| && IsPendingFor(txs[i], orderId)
    ensures PendingCount(txs[i := Settle(txs[i], paymentId)], orderId) == PendingCount(txs, orderId) - 1
  {
    var txs' := txs[i := Settle(txs[i], paymentId)];
    if i == 0 {
      assert txs'[1..] == txs[1..];
    } else {
      assert txs'[1..] == txs[1..][i - 1 := Settle(txs[i], paymentId)];
      SettleConsumesOne(txs[1..], orderId, i - 1, paymentId);
    }
  }

  /** A pending count of zero means the lookup finds nothing. */
  lemma {:induction false} NoPendingNoMatch(txs: seq<T.Transaction>, orderId: string)
    ensures PendingCount(txs, orderId) == 0 <==> FirstPending(txs, orderId).None?
  {
    if txs != [] {
      NoPendingNoMatch(txs[1..], orderId);
    }
  }

  function Credited(u: U.User, amount: int): U.User
  {
    u.(balance := u.balance + amount)
  }

  /** POST /create-order. The gateway is asked for `amount * 100` paise and
      answers with an order id, or fails. */
  method CreateOrder(db: Database, requester: Id, amount: int, gateway: int -> Option<string>)
    returns (r: Reply<Order>)
    requires db.Valid() && requester in db.users
    modifies db`txs
    ensures db.Valid()
    ensures gateway(amount * 100).None? ==>
      r == Err(500, "Error creating payment order") && db.txs == old(db.txs)
    ensures gateway(amount * 100).Some? ==>
      var orderId := gateway(amount * 100).value;
      r == Ok(200, Order(orderId, amount * 100, "INR")) &&
      db.txs == old(db.txs) + [PendingCredit(requester, amount, old(db.users[requester].balance) + amount, orderId)]
  {
    var order := gateway(amount * 100);
    if order.None? {
      return Err(500, "Error creating payment order");
    }
    var row := PendingCredit(requester, amount, db.users[requester].balance + amount, order.value);
    db.txs := db.txs + [row];
    r := Ok(200, Order(order.value, amount * 100, "INR"));
  }

  /** POST /verify. `hmacHex` is the hex HMAC-SHA256 keyed with the gateway
      secret. A bad signature changes nothing; otherwise the first row still
      pending for the order is marked completed, and then its owner is
      credited the stored amount if the owner exists and the new balance
      passes validation (the row stays completed when it does not). */
  method Verify(db: Database, orderId: string, paymentId: string, signature: string,
                hmacHex: string -> string)
    returns (r: Reply<int>)
    requires db.Valid()
    modifies db`txs, db`users
    ensures db.Valid()
    ensures signature != hmacHex(SignedPayload(orderId, paymentId)) ==>
      r == Err(400, "Invalid signature") && db.txs == old(db.txs) && db.users == old(db.users)
    ensures signature == hmacHex(SignedPayload(orderId, paymentId)) && FirstPending(old(db.txs), orderId).None? ==>
      r == Err(404, "Transaction not found") && db.txs == old(db.txs) && db.users == old(db.users)
    ensures signature == hmacHex(SignedPayload(orderId, paymentId)) && FirstPending(old(db.txs), orderId).Some? ==>
      var i := FirstPending(old(db.txs), orderId).value;
      var t := old(db.txs)[i];
      db.txs == old(db.txs)[i := Settle(t, paymentId)] &&
      if t.user in old(db.users) && old(db.users)[t.user].balance + t.amount >= 0 then
        db.users == old(db.users)[t.user := Credited(old(db.users)[t.user], t.amount)] &&
        r == Ok(200, old(db.users)[t.user].balance + t.amount)
      else
        db.users == old(db.users) && r == Err(500, "Error verifying payment")
    // rows that are no longer pending are never touched again
    ensures forall k :: 0 <= k < |old(db.txs)| && old(db.txs)[k].status != T.Pending ==>
      db.txs[k] == old(db.txs)[k]
    ensures |db.txs| == |old(db.txs)|
  {
    if signature != hmacHex(SignedPayload(orderId, paymentId)) {
      return Err(400, "Invalid signature");
    }
    var found := FirstPending(db.txs, orderId);
    if found.None? {
      return Err(404, "Transaction not found");
    }
    var i := found.value;
    var t := db.txs[i];
    db.txs := db.txs[i := Settle(t, paymentId)];
    if t.user !in db.users {
      return Err(500, "Error verifying payment");
    }
    var user := Credited(db.users[t.user], t.amount);
    if U.SaveError(user).Some? {
      return Err(500, "Error verifying payment");
    }
    U.UpdateKeepsUsersOk(db.users, t.user, user);
    db.users := db.users[t.user := user];
    r := Ok(200, user.balance);
  }

  /** GET /wallet. */
  method Wallet(db: Database, requester: Id) returns (r: Reply<int>)
    requires db.Valid()
    ensures r.Ok? <==> requester in db.users
    ensures r.Ok? ==> r.code == 200 && r.value == db.users[requester].balance && r.value >= 0
    ensures r.Err? ==> r.code == 500
  {
    if requester !in db.users {
      return Err(500, "Error fetching wallet balance");
    }
    assert U.ValidUser(db.users[requester]);
    r := Ok(200, db.users[requester].balance);
  }

  /** The requester's rows, newest first. */
  function OwnNewestFirst(txs: seq<T.Transaction>, user: Id): seq<T.Transaction>
  {
    if txs == [] then []
    else
      var last := txs[|txs| - 1];
      (if last.user == user then [last] else []) + OwnNewestFirst(txs[..|txs| - 1], user)
  }

  /** The history holds exactly the requester's rows. */
  lemma {:induction false} OwnRowsExactly(txs: seq<T.Transaction>, user: Id)
    ensures forall t :: t in OwnNewestFirst(txs, user) <==> t in txs && t.user == user
  {
    if txs != [] {
      var front := txs[..|txs| - 1];
      OwnRowsExactly(front, user);
      assert txs == front + [txs[|txs| - 1]];
    }
  }

  const HistoryLimit: nat := 20

  function Take<X>(s: seq<X>, n: nat): (r: seq<X>)
    ensures |r| <= n && |r| <= |s| && r == s[..|r|]
    ensures |r| == n || r == s
  {
    if |s| <= n then s else s[..n]
  }

  /** One step of the newest-first scan over the first `i` rows. */
  lemma OwnStep(txs: seq<T.Transaction>, user: Id, i: nat)
    requires 0 < i <= |txs|
    ensures OwnNewestFirst(txs[..i], user) ==
      (if txs[i - 1].user == user then [txs[i - 1]] else []) + OwnNewestFirst(txs[..i - 1], user)
  {
    assert txs[..i][..i - 1] == txs[..i - 1];
  }

  /** GET /transactions: the requester's rows, newest first, at most 20. */
  method History(db: Database, requester: Id) returns (rows: seq<T.Transaction>)
    ensures rows == Take(OwnNewestFirst(db.txs, requester), HistoryLimit)
    ensures |rows| <= HistoryLimit
    ensures forall t :: t in rows ==> t in db.txs && t.user == requester
  {
    var txs := db.txs;
    ghost var all := OwnNewestFirst(txs, requester);
    rows := [];
    var i := |txs|;
    assert txs[..i] == txs;
    while i > 0 && |rows| < HistoryLimit
      invariant 0 <= i <= |txs|
      invariant |rows| <= HistoryLimit
      invariant rows + OwnNewestFirst(txs[..i], requester) == all
    {
      var t := txs[i - 1];
      OwnStep(txs, requester, i);
      if t.user == requester {
        rows := rows + [t];
      }
      i := i - 1;
    }
    assert rows == all[..|rows|];
    if i == 0 {
      assert txs[..i] == [];
      assert rows == all;
    }
    OwnRowsExactly(txs, requester);
    assert forall t :: t in rows ==> t in all;
  }

  /** POST /deduct. There is no check that `amount` is positive. An empty
      description fails the transaction's validation before the balance is
      touched. */
  method Deduct(db: Database, requester: Id, amount: int, description: string)
    returns (r: Reply<T.Transaction>)
    requires db.Valid()
    modifies db`users, db`txs
    ensures db.Valid()
    ensures requester !in old(db.users) || old(db.users)[requester].balance < amount ==>
      r == Err(400, "Insufficient balance") && db.users == old(db.users) && db.txs == old(db.txs)
    ensures requester in old(db.users) && old(db.users)[requester].balance >= amount && description == "" ==>
      r == Err(500, "Error deducting balance") && db.users == old(db.users) && db.txs == old(db.txs)
    ensures requester in old(db.users) && old(db.users)[requester].balance >= amount && description != "" ==>
      var b := old(db.users)[requester].balance - amount;
      r == Ok(200, DebitRow(requester, amount, b, description)) &&
      db.txs == old(db.txs) + [DebitRow(requester, amount, b, description)] &&
      db.users == old(db.users)[requester := old(db.users)[requester].(balance := b)] &&
      b >= 0
  {
    if requester !in db.users || db.users[requester].balance < amount {
      return Err(400, "Insufficient balance");
    }
    if description == "" {
      return Err(500, "Error deducting balance");
    }
    var user := db.users[requester];
    var row := DebitRow(requester, amount, user.balance - amount, description);
    db.txs := db.txs + [row];
    var user' := user.(balance := user.balance - amount);
    U.UpdateKeepsUsersOk(db.users, requester, user');
    db.users := db.users[requester := user'];
    r := Ok(200, row);
  }

  /** A gateway callback delivered twice for an order with one pending row
      credits the wallet once: the replay finds no pending row. */
  method ReplayedCallback(db: Database, orderId: string, paymentId: string, hmacHex: string -> string)
    returns (first: Reply<int>, second: Reply<int>)
    requires db.Valid() && PendingCount(db.txs, orderId) == 1
    modifies db`txs, db`users
    ensures second == Err(404, "Transaction not found")
    ensures FirstPending(old(db.txs), orderId).Some?
    ensures var t := old(db.txs)[FirstPending(old(db.txs), orderId).value];
      first.Ok? ==> (t.user in old(db.users) &&
        db.users == old(db.users)[t.user := Credited(old(db.users)[t.user], t.amount)])
  {
    var signature := hmacHex(SignedPayload(orderId, paymentId));
    NoPendingNoMatch(db.txs, orderId);
    ghost var i := FirstPending(db.txs, orderId).value;
    SettleConsumesOne(db.txs, orderId, i, paymentId);
    first := Verify(db, orderId, paymentId, signature, hmacHex);
    NoPendingNoMatch(db.txs, orderId);
    second := Verify(db, orderId, paymentId, signature, hmacHex);
  }
}
