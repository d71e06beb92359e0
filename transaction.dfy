/**
 * activemq-cpp ActiveMQTransaction: the always-running local transaction of a transacted
 * session. For each consumer it keeps the messages delivered under the transaction, in
 * delivery order, so that a rollback can hand them back; a message is handed back at most
 * maxRedeliveries times. Only the class declaration and its documentation are part of the
 * source, so the method bodies here are written to meet that documentation.
 */
module Transactions {
  import opened Common

  /** A consumer, known by its address and by the id of its ConsumerInfo. */
  datatype Consumer = Consumer(address: int, consumerId: int)

  /** A transacted message; redeliveryCount is how many rollbacks have handed it back. */
  datatype Message = Message(messageId: int, redeliveryCount: nat)

  /** The connector's record of the running transaction. */
  datatype TransactionInfo = TransactionInfo(transactionId: int, sessionId: int)

  /** An error the connector reports for a commit or rollback directive. */
  datatype BrokerFailure = BrokerFailure(reason: string)

  /** The list of messages held for consumer c, empty when it has none. */
  function ListOf(m: map<Consumer, seq<Message>>, c: Consumer): seq<Message> {
    if c in m then m[c] else []
  }

  /**
   * What one rollback does to one message: a message already handed back
   * maxRedeliveries times is dropped, any other is handed back once more.
   */
  function Redeliver(m: Message, maxRedeliveries: int): Option<Message> {
    if m.redeliveryCount >= maxRedeliveries then None
    else Some(m.(redeliveryCount := m.redeliveryCount + 1))
  }

  /** The messages of a list that a rollback hands back, in their delivery order. */
  function Redelivered(l: seq<Message>, maxRedeliveries: int): seq<Message>
    decreases |l|
  {
    if l == [] then []
    else
      match Redeliver(l[0], maxRedeliveries)
      case Some(m) => [m] + Redelivered(l[1..], maxRedeliveries)
      case None => Redelivered(l[1..], maxRedeliveries)
  }

  /** The messages of a list that a rollback drops, in their delivery order. */
  function Dropped(l: seq<Message>, maxRedeliveries: int): seq<Message>
    decreases |l|
  {
    if l == [] then []
    else if Redeliver(l[0], maxRedeliveries).None? then [l[0]] + Dropped(l[1..], maxRedeliveries)
    else Dropped(l[1..], maxRedeliveries)
  }

  /** The message ids of a list, in order. */
  function Ids(l: seq<Message>): seq<int>
    decreases |l|
  {
    if l == [] then [] else [l[0].messageId] + Ids(l[1..])
  }

  /** What a rollback hands back to every consumer. */
  function RedeliveredAll(rollbackMap: map<Consumer, seq<Message>>, maxRedeliveries: int): map<Consumer, seq<Message>> {
    map c | c in rollbackMap :: Redelivered(rollbackMap[c], maxRedeliveries)
  }

  /** What a rollback drops for every consumer. */
  function DroppedAll(rollbackMap: map<Consumer, seq<Message>>, maxRedeliveries: int): map<Consumer, seq<Message>> {
    map c | c in rollbackMap :: Dropped(rollbackMap[c], maxRedeliveries)
  }

  /** The state of a message after k rollbacks, or None once one of them dropped it. */
  function AfterRollbacks(m: Message, k: nat, maxRedeliveries: int): Option<Message>
    decreases k
  {
    if k == 0 then Some(m)
    else
      match Redeliver(m, maxRedeliveries)
      case None => None
      case Some(m') => AfterRollbacks(m', k - 1, maxRedeliveries)
  }

  /**
   * Redelivery keeps delivery order: what is handed back for l1 + l2 is what is handed
   * back for l1 followed by what is handed back for l2, and likewise for what is dropped.
   */
  lemma {:induction false} RedeliveredAppend(l1: seq<Message>, l2: seq<Message>, maxRedeliveries: int)
    ensures Redelivered(l1 + l2, maxRedeliveries) == Redelivered(l1, maxRedeliveries) + Redelivered(l2, maxRedeliveries)
    ensures Dropped(l1 + l2, maxRedeliveries) == Dropped(l1, maxRedeliveries) + Dropped(l2, maxRedeliveries)
    decreases |l1|
  {
    if l1 == [] {
      assert l1 + l2 == l2;
    } else {
      assert (l1 + l2)[0] == l1[0];
      assert (l1 + l2)[1..] == l1[1..] + l2;
      RedeliveredAppend(l1[1..], l2, maxRedeliveries);
    }
  }

  /**
   * A rollback loses no message and invents none: what it hands back and what it drops
   * together are the messages of the list.
   */
  lemma {:induction false} RedeliveredPartition(l: seq<Message>, maxRedeliveries: int)
    ensures |Redelivered(l, maxRedeliveries)| + |Dropped(l, maxRedeliveries)| == |l|
    ensures multiset(Ids(Redelivered(l, maxRedeliveries))) + multiset(Ids(Dropped(l, maxRedeliveries))) == multiset(Ids(l))
    decreases |l|
  {
    if l != [] {
      RedeliveredPartition(l[1..], maxRedeliveries);
      var r, d := Redelivered(l[1..], maxRedeliveries), Dropped(l[1..], maxRedeliveries);
      assert Ids(l) == [l[0].messageId] + Ids(l[1..]);
      if Redeliver(l[0], maxRedeliveries).None? {
        assert ([l[0]] + d)[1..] == d;
        assert Ids([l[0]] + d) == [l[0].messageId] + Ids(d);
      } else {
        var m := l[0].(redeliveryCount := l[0].redeliveryCount + 1);
        assert ([m] + r)[1..] == r;
        assert Ids([m] + r) == [m.messageId] + Ids(r);
      }
    }
  }

  /** A message is dropped only when it has already been handed back maxRedeliveries times. */
  lemma {:induction false} DroppedAtCap(l: seq<Message>, maxRedeliveries: int)
    ensures forall m :: m in Dropped(l, maxRedeliveries) ==> m in l && m.redeliveryCount >= maxRedeliveries
    decreases |l|
  {
    if l != [] {
      DroppedAtCap(l[1..], maxRedeliveries);
    }
  }

  /**
   * Every message handed back comes from the list with its count raised by one, and no
   * count ever exceeds maxRedeliveries.
   */
  lemma {:induction false} RedeliveredWithinCap(l: seq<Message>, maxRedeliveries: int)
    ensures forall m :: m in Redelivered(l, maxRedeliveries) ==>
      1 <= m.redeliveryCount <= maxRedeliveries && m.(redeliveryCount := m.redeliveryCount - 1) in l
    decreases |l|
  {
    if l != [] {
      RedeliveredWithinCap(l[1..], maxRedeliveries);
      if Redeliver(l[0], maxRedeliveries).Some? {
        var m := l[0].(redeliveryCount := l[0].redeliveryCount + 1);
        assert m.(redeliveryCount := m.redeliveryCount - 1) == l[0];
      }
    }
  }

  /**
   * Lifetime of a message under repeated rollbacks: it survives k rollbacks exactly when
   * its redelivery count stays within maxRedeliveries, and each one it survives adds one
   * to its count. A fresh message with a cap of 2 is handed back twice and dropped by the
   * third rollback.
   */
  lemma {:induction false} Lifetime(m: Message, k: nat, maxRedeliveries: int)
    ensures AfterRollbacks(m, k, maxRedeliveries).Some? <==> (k == 0 || m.redeliveryCount + k <= maxRedeliveries)
    ensures AfterRollbacks(m, k, maxRedeliveries).Some? ==>
      AfterRollbacks(m, k, maxRedeliveries).value == m.(redeliveryCount := m.redeliveryCount + k)
    decreases k
  {
    if k > 0 && m.redeliveryCount < maxRedeliveries {
      Lifetime(m.(redeliveryCount := m.redeliveryCount + 1), k - 1, maxRedeliveries);
    }
  }

  class ActiveMQTransaction {
    /** For each consumer, the messages to hand back on rollback, in delivery order. */
    var rollbackMap: map<Consumer, seq<Message>>
    /** The configured transaction.maxRedeliveryCount. */
    var maxRedeliveries: int
    /** The transaction the connector started; None only inside commit and rollback. */
    var transactionInfo: Option<TransactionInfo>

    /** A transaction is running. */
    predicate Running()
      reads this
    {
      transactionInfo.Some?
    }

    /** A new transaction starts at once, with nothing held. */
    constructor (maxRedeliveries: int, started: TransactionInfo)
      ensures Running() && transactionInfo == Some(started)
      ensures rollbackMap == map[] && this.maxRedeliveries == maxRedeliveries
    {
      rollbackMap := map[];
      this.maxRedeliveries := maxRedeliveries;
      transactionInfo := Some(started);
    }

    /** addToTransaction: message is appended to consumer's list; no other list changes. */
    method AddToTransaction(message: Message, consumer: Consumer)
      modifies this
      ensures rollbackMap == old(rollbackMap)[consumer := ListOf(old(rollbackMap), consumer) + [message]]
      ensures transactionInfo == old(transactionInfo) && maxRedeliveries == old(maxRedeliveries)
    {
      rollbackMap := rollbackMap[consumer := ListOf(rollbackMap, consumer) + [message]];
    }

    /**
     * removeFromTransaction(consumer): the consumer and all its messages leave the
     * transaction without being handed back; discarded is what it held.
     */
    method RemoveFromTransaction(consumer: Consumer) returns (discarded: seq<Message>)
      modifies this
      ensures discarded == ListOf(old(rollbackMap), consumer)
      ensures consumer !in rollbackMap && rollbackMap == old(rollbackMap) - {consumer}
      ensures transactionInfo == old(transactionInfo) && maxRedeliveries == old(maxRedeliveries)
    {
      discarded := ListOf(rollbackMap, consumer);
      rollbackMap := rollbackMap - {consumer};
    }

    /**
     * removeFromTransaction(consumerId): every consumer with that id leaves the
     * transaction with its messages; discarded holds their lists.
     */
    method RemoveFromTransactionById(consumerId: int) returns (discarded: map<Consumer, seq<Message>>)
      modifies this
      ensures forall c :: c in rollbackMap <==> c in old(rollbackMap) && c.consumerId != consumerId
      ensures forall c :: c in discarded <==> c in old(rollbackMap) && c.consumerId == consumerId
      ensures forall c :: c in rollbackMap ==> rollbackMap[c] == old(rollbackMap)[c]
      ensures forall c :: c in discarded ==> discarded[c] == old(rollbackMap)[c]
      ensures transactionInfo == old(transactionInfo) && maxRedeliveries == old(maxRedeliveries)
    {
      discarded := map c | c in rollbackMap && c.consumerId == consumerId :: rollbackMap[c];
      rollbackMap := map c | c in rollbackMap && c.consumerId != consumerId :: rollbackMap[c];
    }

    /** getTransactionId of the running transaction. */
    function GetTransactionId(): (id: int)
      requires Running()
      reads this
      ensures Some(TransactionInfo(id, transactionInfo.value.sessionId)) == transactionInfo
    {
      transactionInfo.value.transactionId
    }

    /** setTransactionId: the running transaction gets id; nothing else changes. */
    method SetTransactionId(id: int)
      requires Running()
      modifies this
      ensures transactionInfo == Some(old(transactionInfo.value).(transactionId := id))
      ensures rollbackMap == old(rollbackMap) && maxRedeliveries == old(maxRedeliveries)
    {
      transactionInfo := Some(transactionInfo.value.(transactionId := id));
    }

    /** clearTransaction: every list is discarded and the transaction record is destroyed. */
    method ClearTransaction() returns (discarded: map<Consumer, seq<Message>>)
      modifies this
      ensures discarded == old(rollbackMap)
      ensures rollbackMap == map[] && transactionInfo == None
      ensures maxRedeliveries == old(maxRedeliveries)
    {
      discarded := rollbackMap;
      rollbackMap := map[];
      transactionInfo := None;
    }

    /**
     * redeliverMessages: walks the list in order, handing back each message with its
     * count raised by one and dropping each that has reached maxRedeliveries.
     */
    method RedeliverMessages(consumer: Consumer, messages: seq<Message>) returns (delivered: seq<Message>, dropped: seq<Message>)
      ensures delivered == Redelivered(messages, maxRedeliveries)
      ensures dropped == Dropped(messages, maxRedeliveries)
    {
      delivered, dropped := [], [];
      var i := 0;
      while i < |messages|
        invariant 0 <= i <= |messages|
        invariant delivered == Redelivered(messages[..i], maxRedeliveries)
        invariant dropped == Dropped(messages[..i], maxRedeliveries)
      {
        var m := messages[i];
        RedeliveredAppend(messages[..i], [m], maxRedeliveries);
        assert messages[..i + 1] == messages[..i] + [m];
        assert [m][1..] == [];
        if m.redeliveryCount >= maxRedeliveries {
          dropped := dropped + [m];
        } else {
          delivered := delivered + [m.(redeliveryCount := m.redeliveryCount + 1)];
        }
        i := i + 1;
      }
      assert messages[..i] == messages;
    }

    /**
     * commit: when the broker accepts the directive, every list is released and a new
     * transaction, started, is running; when it refuses, its error is reported and
     * nothing changes.
     */
    method Commit(reply: Outcome<BrokerFailure>, started: TransactionInfo) returns (r: Outcome<BrokerFailure>)
      requires Running()
      modifies this
      ensures r == reply
      ensures reply.Fail? ==> unchanged(this)
      ensures reply.Pass? ==> rollbackMap == map[] && transactionInfo == Some(started)
      ensures maxRedeliveries == old(maxRedeliveries) && Running()
    {
      r := reply;
      if reply.Fail? {
        return;
      }
      var _ := ClearTransaction();
      transactionInfo := Some(started);
    }

    /**
     * rollback: when the broker accepts the directive, each consumer is handed back its
     * list in delivery order with the capped messages dropped, the lists are released and
     * a new transaction, started, is running; when it refuses, its error is reported and
     * nothing changes.
     */
    method Rollback(reply: Outcome<BrokerFailure>, started: TransactionInfo)
      returns (r: Outcome<BrokerFailure>, redelivered: map<Consumer, seq<Message>>, dropped: map<Consumer, seq<Message>>)
      requires Running()
      modifies this
      ensures r == reply
      ensures reply.Fail? ==> unchanged(this) && redelivered == map[] && dropped == map[]
      ensures reply.Pass? ==>
        redelivered == RedeliveredAll(old(rollbackMap), old(maxRedeliveries)) &&
        dropped == DroppedAll(old(rollbackMap), old(maxRedeliveries)) &&
        rollbackMap == map[] && transactionInfo == Some(started)
      ensures maxRedeliveries == old(maxRedeliveries) && Running()
    {
      r := reply;
      redelivered, dropped := map[], map[];
      if reply.Fail? {
        return;
      }
      var pending := rollbackMap.Keys;
      while pending != {}
        invariant pending <= rollbackMap.Keys
        invariant rollbackMap == old(rollbackMap) && maxRedeliveries == old(maxRedeliveries)
        invariant transactionInfo == old(transactionInfo)
        invariant redelivered.Keys == dropped.Keys == rollbackMap.Keys - pending
        invariant forall c :: c in redelivered ==> redelivered[c] == Redelivered(rollbackMap[c], maxRedeliveries)
        invariant forall c :: c in dropped ==> dropped[c] == Dropped(rollbackMap[c], maxRedeliveries)
        decreases pending
      {
        var c :| c in pending;
        var d, x := RedeliverMessages(c, rollbackMap[c]);
        redelivered := redelivered[c := d];
        dropped := dropped[c := x];
        pending := pending - {c};
      }
      var _ := ClearTransaction();
      transactionInfo := Some(started);
    }
  }
}
