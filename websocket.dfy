/**
 * The subscription registry of the WebSocket API (src/api/websocket.rs): which
 * session asked for which stream, and which sessions an event is sent to.
 * Sessions are identified by integers standing for their UUIDs; a session's
 * actor address is represented only by whether the manager holds one.
 */
module WebSocket {
  import opened Wrappers
  import opened TimeIntervals
  import opened TransactionModel
  import opened KLineModel
  import opened Sets

  type SessionId = int

  /** What a client may subscribe to. */
  datatype SubscriptionType =
    | Transactions(tokens: seq<string>)
    | KLines(token: string, interval: string)
    | AllTransactions

  /** What a session sends back to its client. */
  datatype ServerMessage =
    | TransactionEvent(transaction: Transaction)
    | KLineEvent(kline: KLine)
    | Subscribed(subscription: SubscriptionType)
    | Unsubscribed(subscription: SubscriptionType)
    | Pong
    | Error(message: string)

  /**
   * `subscription_matches`: same variant, same fields; token lists compare as
   * sequences, so order and repetitions matter.
   */
  function SubscriptionMatches(a: SubscriptionType, b: SubscriptionType): (r: bool)
    ensures r <==> a == b
  {
    match (a, b)
    case (AllTransactions, AllTransactions) => true
    case (Transactions(tokensA), Transactions(tokensB)) => tokensA == tokensB
    case (KLines(tokenA, intervalA), KLines(tokenB, intervalB)) => tokenA == tokenB && intervalA == intervalB
    case _ => false
  }

  /** `Vec::retain(|s| !subscription_matches(s, subscription))`. */
  function Retained(subs: seq<SubscriptionType>, subscription: SubscriptionType): (r: seq<SubscriptionType>)
    ensures |r| <= |subs|
  {
    if subs == [] then []
    else if SubscriptionMatches(subs[0], subscription) then Retained(subs[1..], subscription)
    else [subs[0]] + Retained(subs[1..], subscription)
  }

  /** Retaining removes every copy of the subscription and nothing else. */
  lemma {:induction false} RetainedElements(subs: seq<SubscriptionType>, subscription: SubscriptionType)
    ensures multiset(Retained(subs, subscription)) == multiset(subs)[subscription := 0]
  {
    if subs != [] {
      var rest := subs[1..];
      RetainedElements(rest, subscription);
      assert subs == [subs[0]] + rest;
      if subs[0] == subscription {
        assert multiset(subs)[subscription := 0] == multiset(rest)[subscription := 0];
      } else {
        assert Retained(subs, subscription) == [subs[0]] + Retained(rest, subscription);
        assert multiset(subs)[subscription := 0] == multiset{subs[0]} + multiset(rest)[subscription := 0];
      }
    }
  }

  /** Retaining works piece by piece, so the kept subscriptions stay in their order. */
  lemma {:induction false} RetainedAppend(s: seq<SubscriptionType>, t: seq<SubscriptionType>, subscription: SubscriptionType)
    ensures Retained(s + t, subscription) == Retained(s, subscription) + Retained(t, subscription)
  {
    if s == [] {
      assert s + t == t;
    } else {
      assert (s + t)[0] == s[0];
      assert (s + t)[1..] == s[1..] + t;
      RetainedAppend(s[1..], t, subscription);
    }
  }

  /** Retaining a second time removes nothing more. */
  lemma {:induction false} RetainedIdempotent(subs: seq<SubscriptionType>, subscription: SubscriptionType)
    ensures Retained(Retained(subs, subscription), subscription) == Retained(subs, subscription)
  {
    if subs != [] {
      RetainedIdempotent(subs[1..], subscription);
    }
  }

  // ---------------------------------------------------------------------------
  // Who receives an event

  /** One arm of the transaction `should_send` match. */
  predicate TransactionTarget(sub: SubscriptionType, tx: Transaction)
  {
    match sub
    case AllTransactions => true
    case Transactions(tokens) => tx.token in tokens
    case KLines(_, _) => false
  }

  /** One arm of the K-line `should_send` match. */
  predicate KLineTarget(sub: SubscriptionType, k: KLine)
  {
    match sub
    case KLines(token, interval) => token == k.token && interval == AsStr(k.interval)
    case _ => false
  }

  /** `subscriptions.iter().any(...)` in `broadcast_transaction`. */
  function ShouldSendTransaction(subs: seq<SubscriptionType>, tx: Transaction): bool
  {
    subs != [] && (TransactionTarget(subs[0], tx) || ShouldSendTransaction(subs[1..], tx))
  }

  /** `subscriptions.iter().any(...)` in `broadcast_kline`. */
  function ShouldSendKLine(subs: seq<SubscriptionType>, k: KLine): bool
  {
    subs != [] && (KLineTarget(subs[0], k) || ShouldSendKLine(subs[1..], k))
  }

  /**
   * A transaction goes to a list holding `AllTransactions` or a token list that
   * names the trade's token.
   */
  lemma {:induction false} ShouldSendTransactionIff(subs: seq<SubscriptionType>, tx: Transaction)
    ensures ShouldSendTransaction(subs, tx) <==>
      AllTransactions in subs || exists i :: 0 <= i < |subs| && subs[i].Transactions? && tx.token in subs[i].tokens
  {
    if subs != [] {
      ShouldSendTransactionIff(subs[1..], tx);
      assert forall i :: 0 < i < |subs| ==> subs[i] == subs[1..][i - 1];
      assert subs == [subs[0]] + subs[1..];
    }
  }

  /**
   * A candle goes to a list holding exactly the subscription to its token and
   * the wire name of its interval; no transaction subscription matches it.
   */
  lemma {:induction false} ShouldSendKLineIff(subs: seq<SubscriptionType>, k: KLine)
    ensures ShouldSendKLine(subs, k) <==> KLines(k.token, AsStr(k.interval)) in subs
  {
    if subs != [] {
      ShouldSendKLineIff(subs[1..], k);
      assert subs == [subs[0]] + subs[1..];
    }
  }

  /** A list holding only transaction subscriptions never receives a candle. */
  lemma TransactionSubscriptionsGetNoKLines(subs: seq<SubscriptionType>, k: KLine)
    requires forall i :: 0 <= i < |subs| ==> !subs[i].KLines?
    ensures !ShouldSendKLine(subs, k)
  {
    ShouldSendKLineIff(subs, k);
  }

  /** A subscription whose interval does not parse never receives a candle. */
  lemma UnparsableIntervalGetsNoKLines(token: string, interval: string, k: KLine)
    requires FromStr(interval).Err?
    ensures !ShouldSendKLine([KLines(token, interval)], k)
  {
    ShouldSendKLineIff([KLines(token, interval)], k);
    ParseAsStrRoundTrip(k.interval);
  }

  /** The sessions an event is sent to: those with an address and a list that matches. */
  function Targets(addressed: set<SessionId>, lists: map<SessionId, seq<SubscriptionType>>,
                   matches: seq<SubscriptionType> -> bool): set<SessionId>
  {
    set id | id in addressed && id in lists && matches(lists[id])
  }

  /** Every K-line subscription in the list names an interval that parses. */
  predicate IntervalsValid(subs: seq<SubscriptionType>)
  {
    forall i :: 0 <= i < |subs| && subs[i].KLines? ==> FromStr(subs[i].interval).Ok?
  }

  // ---------------------------------------------------------------------------
  // The manager

  class WsManager {
    /** Sessions whose actor address is known (`sessions`). */
    var addressed: set<SessionId>
    /** Each registered session's subscriptions, in the order they were made. */
    var subscriptions: map<SessionId, seq<SubscriptionType>>

    /** `WsManager::new`: no sessions. */
    constructor ()
      ensures addressed == {} && subscriptions == map[]
    {
      addressed := {};
      subscriptions := map[];
    }

    /** `add_session`: the session's list becomes empty, replacing any former one. */
    method AddSession(id: SessionId)
      modifies this
      ensures subscriptions == old(subscriptions)[id := []]
      ensures addressed == old(addressed)
    {
      subscriptions := subscriptions[id := []];
    }

    /** `remove_session`: forget the session's address and its list. */
    method RemoveSession(id: SessionId)
      modifies this
      ensures addressed == old(addressed) - {id}
      ensures subscriptions == old(subscriptions) - {id}
    {
      addressed := addressed - {id};
      subscriptions := subscriptions - {id};
    }

    /** `set_session_addr`: the session can now be sent events. */
    method SetSessionAddr(id: SessionId)
      modifies this
      ensures addressed == old(addressed) + {id}
      ensures subscriptions == old(subscriptions)
    {
      addressed := addressed + {id};
    }

    /** `add_subscription`: append to a registered session's list; ignore an unknown session. */
    method AddSubscription(id: SessionId, subscription: SubscriptionType)
      modifies this
      ensures id in old(subscriptions) ==>
        subscriptions == old(subscriptions)[id := old(subscriptions)[id] + [subscription]]
      ensures id !in old(subscriptions) ==> subscriptions == old(subscriptions)
      ensures addressed == old(addressed)
    {
      if id in subscriptions {
        subscriptions := subscriptions[id := subscriptions[id] + [subscription]];
      }
    }

    /** `remove_subscription`: drop every matching entry of a registered session's list. */
    method RemoveSubscription(id: SessionId, subscription: SubscriptionType)
      modifies this
      ensures id in old(subscriptions) ==>
        subscriptions == old(subscriptions)[id := Retained(old(subscriptions)[id], subscription)]
      ensures id !in old(subscriptions) ==> subscriptions == old(subscriptions)
      ensures addressed == old(addressed)
    {
      if id in subscriptions {
        subscriptions := subscriptions[id := Retained(subscriptions[id], subscription)];
      }
    }

    /**
     * `broadcast_transaction`: the sessions sent the trade are exactly those
     * with an address and a list holding `AllTransactions` or naming the token.
     */
    method BroadcastTransaction(tx: Transaction) returns (sentTo: set<SessionId>)
      ensures sentTo == Targets(addressed, subscriptions, subs => ShouldSendTransaction(subs, tx))
    {
      sentTo := {};
      var pending := addressed;
      while pending != {}
        invariant pending <= addressed
        invariant sentTo == Targets(addressed - pending, subscriptions, subs => ShouldSendTransaction(subs, tx))
        decreases pending
      {
        NonEmptySet(pending);
        var id :| id in pending;
        if id in subscriptions {
          var shouldSend := ShouldSendTransaction(subscriptions[id], tx);
          if shouldSend {
            sentTo := sentTo + {id};
          }
        }
        pending := pending - {id};
      }
      assert addressed - pending == addressed;
    }

    /**
     * `broadcast_kline`: the sessions sent the candle are exactly those with an
     * address and a list holding the subscription to its token and interval.
     */
    method BroadcastKLine(k: KLine) returns (sentTo: set<SessionId>)
      ensures sentTo == Targets(addressed, subscriptions, subs => ShouldSendKLine(subs, k))
    {
      sentTo := {};
      var pending := addressed;
      while pending != {}
        invariant pending <= addressed
        invariant sentTo == Targets(addressed - pending, subscriptions, subs => ShouldSendKLine(subs, k))
        decreases pending
      {
        NonEmptySet(pending);
        var id :| id in pending;
        if id in subscriptions {
          var shouldSend := ShouldSendKLine(subscriptions[id], k);
          if shouldSend {
            sentTo := sentTo + {id};
          }
        }
        pending := pending - {id};
      }
      assert addressed - pending == addressed;
    }

    /** `session_count`: the sessions with a known address. */
    function SessionCount(): (n: nat)
      reads this
      ensures n == 0 <==> addressed == {}
    {
      |addressed|
    }
  }

  // ---------------------------------------------------------------------------
  // A session

  class WsSession {
    const id: SessionId
    var subscriptions: seq<SubscriptionType>
    const manager: WsManager

    /** The session's list and its entry in the manager agree while it is registered. */
    ghost predicate InSync()
      reads this, manager
    {
      id in manager.subscriptions ==> manager.subscriptions[id] == subscriptions
    }

    /** `WsSession::new`: register the (freshly drawn) id with the manager. */
    constructor (manager: WsManager, id: SessionId)
      modifies manager
      ensures this.id == id && this.manager == manager && subscriptions == []
      ensures manager.subscriptions == old(manager.subscriptions)[id := []]
      ensures manager.addressed == old(manager.addressed)
      ensures InSync() && IntervalsValid(subscriptions)
    {
      this.id := id;
      this.manager := manager;
      subscriptions := [];
      new;
      manager.AddSession(id);
    }

    /** The actor's `started` hook: the manager learns the session's address. */
    method Started()
      modifies manager
      ensures manager.addressed == old(manager.addressed) + {id}
      ensures manager.subscriptions == old(manager.subscriptions)
      ensures InSync() <==> old(InSync())
    {
      manager.SetSessionAddr(id);
    }

    /** The actor's `stopped` hook: the manager forgets the session's address and list. */
    method Stopped()
      modifies manager
      ensures manager.addressed == old(manager.addressed) - {id}
      ensures manager.subscriptions == old(manager.subscriptions) - {id}
      ensures id !in manager.subscriptions && InSync()
    {
      manager.RemoveSession(id);
    }

    /**
     * `handle_subscribe`: a K-line subscription whose interval does not parse is
     * refused with an error and recorded nowhere; any other subscription is
     * appended to the session's list and to the manager's, and confirmed.
     */
    method HandleSubscribe(subscription: SubscriptionType) returns (reply: ServerMessage)
      requires InSync()
      modifies this, manager
      ensures subscription.KLines? && FromStr(subscription.interval).Err? ==>
        && reply == Error("Invalid interval: " + subscription.interval)
        && subscriptions == old(subscriptions)
        && manager.subscriptions == old(manager.subscriptions)
      ensures !(subscription.KLines? && FromStr(subscription.interval).Err?) ==>
        && reply == Subscribed(subscription)
        && subscriptions == old(subscriptions) + [subscription]
        && (id in old(manager.subscriptions) ==>
              manager.subscriptions == old(manager.subscriptions)[id := old(manager.subscriptions)[id] + [subscription]])
        && (id !in old(manager.subscriptions) ==> manager.subscriptions == old(manager.subscriptions))
      ensures manager.addressed == old(manager.addressed)
      ensures InSync()
      ensures IntervalsValid(old(subscriptions)) ==> IntervalsValid(subscriptions)
    {
      if subscription.KLines? {
        if FromStr(subscription.interval).Err? {
          reply := Error("Invalid interval: " + subscription.interval);
          return;
        }
      }
      subscriptions := subscriptions + [subscription];
      manager.AddSubscription(id, subscription);
      reply := Subscribed(subscription);
    }

    /**
     * `handle_unsubscribe`: drop every matching entry from the session's list
     * and the manager's, and confirm.
     */
    method HandleUnsubscribe(subscription: SubscriptionType) returns (reply: ServerMessage)
      requires InSync()
      modifies this, manager
      ensures reply == Unsubscribed(subscription)
      ensures subscriptions == Retained(old(subscriptions), subscription)
      ensures id in old(manager.subscriptions) ==>
        manager.subscriptions == old(manager.subscriptions)[id := Retained(old(manager.subscriptions)[id], subscription)]
      ensures id !in old(manager.subscriptions) ==> manager.subscriptions == old(manager.subscriptions)
      ensures manager.addressed == old(manager.addressed)
      ensures InSync()
    {
      subscriptions := Retained(subscriptions, subscription);
      manager.RemoveSubscription(id, subscription);
      reply := Unsubscribed(subscription);
    }

    /**
     * `Handler<BroadcastTransaction>`: scan the list and send the trade once, at
     * the first subscription that wants it; send nothing if none does.
     */
    method HandleBroadcastTransaction(tx: Transaction) returns (sent: seq<ServerMessage>)
      ensures sent == [] || sent == [TransactionEvent(tx)]
      ensures |sent| == 1 <==> exists i :: 0 <= i < |subscriptions| && TransactionTarget(subscriptions[i], tx)
    {
      sent := [];
      var i := 0;
      while i < |subscriptions|
        invariant 0 <= i <= |subscriptions|
        invariant sent == []
        invariant forall j :: 0 <= j < i ==> !TransactionTarget(subscriptions[j], tx)
      {
        match subscriptions[i] {
          case AllTransactions =>
            sent := sent + [TransactionEvent(tx)];
            break;
          case Transactions(tokens) =>
            if tx.token in tokens {
              sent := sent + [TransactionEvent(tx)];
              break;
            }
          case KLines(_, _) =>
        }
        i := i + 1;
      }
    }

    /**
     * `Handler<BroadcastKLine>`: send the candle once if the list holds a
     * subscription to its token and interval name; send nothing otherwise.
     */
    method HandleBroadcastKLine(k: KLine) returns (sent: seq<ServerMessage>)
      ensures sent == [] || sent == [KLineEvent(k)]
      ensures |sent| == 1 <==> exists i :: 0 <= i < |subscriptions| && KLineTarget(subscriptions[i], k)
    {
      sent := [];
      var i := 0;
      while i < |subscriptions|
        invariant 0 <= i <= |subscriptions|
        invariant sent == []
        invariant forall j :: 0 <= j < i ==> !KLineTarget(subscriptions[j], k)
      {
        if subscriptions[i].KLines? {
          var token, interval := subscriptions[i].token, subscriptions[i].interval;
          if token == k.token && interval == AsStr(k.interval) {
            sent := sent + [KLineEvent(k)];
            break;
          }
        }
        i := i + 1;
      }
    }
  }

  /** The handler's one-at-the-first-match scan agrees with the manager's `any`. */
  lemma {:induction false} HandlerAgreesWithBroadcast(subs: seq<SubscriptionType>, tx: Transaction, k: KLine)
    ensures ShouldSendTransaction(subs, tx) <==> exists i :: 0 <= i < |subs| && TransactionTarget(subs[i], tx)
    ensures ShouldSendKLine(subs, k) <==> exists i :: 0 <= i < |subs| && KLineTarget(subs[i], k)
  {
    if subs != [] {
      HandlerAgreesWithBroadcast(subs[1..], tx, k);
      assert forall i :: 0 < i < |subs| ==> subs[i] == subs[1..][i - 1];
    }
  }
}
