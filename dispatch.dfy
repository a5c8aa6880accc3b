/**
 * Fan-out of a notification: one push message per (recipient, device token)
 * pair, the push transport whose sends may fail, and the store of records
 * for the sends that succeeded.
 */
module Dispatch {
  import opened Domain
  import opened Audience
  import opened Composer

  /** A push to send: the message and the user it is for. */
  datatype Delivery = Delivery(user: User, message: Message)

  /** A user's device tokens; none without a configuration. */
  function TokensOf(u: User): seq<string> {
    if u.userConfig.Some? then u.userConfig.value.firebaseNotificationTokens else []
  }

  /** The pushes for one recipient, one per token in token order, all with the same title and body. */
  function UserDeliveries(title: string, statusAlarms: seq<AlarmDetail>, r: Recipient): seq<Delivery> {
    var tokens := TokensOf(r.user);
    seq(|tokens|, j requires 0 <= j < |tokens| =>
      Delivery(r.user, Message(tokens[j], title, Body(statusAlarms, r.alarmDetails))))
  }

  /** All pushes of a run: recipient by recipient, each recipient's tokens in order. */
  function Deliveries(title: string, statusAlarms: seq<AlarmDetail>, rs: seq<Recipient>): (ds: seq<Delivery>)
    ensures |ds| == TokenCount(rs)
    ensures forall d :: d in ds ==> d.message.title == title
    decreases |rs|
  {
    if rs == [] then []
    else Deliveries(title, statusAlarms, rs[..|rs| - 1]) + UserDeliveries(title, statusAlarms, rs[|rs| - 1])
  }

  /** The number of (recipient, token) pairs. */
  function TokenCount(rs: seq<Recipient>): nat
    decreases |rs|
  {
    if rs == [] then 0 else TokenCount(rs[..|rs| - 1]) + |TokensOf(rs[|rs| - 1].user)|
  }

  /**
   * Exactly one push per (recipient, token) pair: the pushes are as many as
   * the pairs, and the push for token `j` of recipient `i` sits at a position
   * of its own, the number of pairs before it.
   */
  lemma {:induction false} DeliveryAt(title: string, statusAlarms: seq<AlarmDetail>, rs: seq<Recipient>, i: nat, j: nat)
    requires i < |rs| && j < |TokensOf(rs[i].user)|
    ensures |Deliveries(title, statusAlarms, rs)| == TokenCount(rs)
    ensures TokenCount(rs[..i]) + j < TokenCount(rs)
    ensures Deliveries(title, statusAlarms, rs)[TokenCount(rs[..i]) + j]
         == Delivery(rs[i].user, Message(TokensOf(rs[i].user)[j], title, Body(statusAlarms, rs[i].alarmDetails)))
    decreases |rs|
  {
    var init := rs[..|rs| - 1];
    if i == |rs| - 1 {
      assert rs[..i] == init;
    } else {
      assert init[..i] == rs[..i];
      DeliveryAt(title, statusAlarms, init, i, j);
    }
  }

  /** Every push goes to a recipient, on one of its tokens, with the run's title and that recipient's body. */
  lemma {:induction false} DeliveriesMembers(title: string, statusAlarms: seq<AlarmDetail>, rs: seq<Recipient>, d: Delivery)
    requires d in Deliveries(title, statusAlarms, rs)
    ensures exists i ::
              && 0 <= i < |rs| && d.user == rs[i].user && d.message.token in TokensOf(rs[i].user)
              && d.message.title == title && d.message.body == Body(statusAlarms, rs[i].alarmDetails)
    decreases |rs|
  {
    var init, last := rs[..|rs| - 1], rs[|rs| - 1];
    if d in Deliveries(title, statusAlarms, init) {
      DeliveriesMembers(title, statusAlarms, init, d);
      var i :| 0 <= i < |init| && d.user == init[i].user && d.message.token in TokensOf(init[i].user)
        && d.message.title == title && d.message.body == Body(statusAlarms, init[i].alarmDetails);
      assert rs[i] == init[i];
    } else {
      var ds := UserDeliveries(title, statusAlarms, last);
      var j :| 0 <= j < |ds| && ds[j] == d;
      assert rs[|rs| - 1] == last;
    }
  }

  /** What the transport was asked to send, and whether the send went through. */
  datatype Attempt = Attempt(message: Message, delivered: bool)

  /** The transport's log for `plan` when its sends end with `outcomes`. */
  function Attempts(plan: seq<Delivery>, outcomes: seq<bool>): seq<Attempt>
    requires |plan| == |outcomes|
  {
    seq(|plan|, i requires 0 <= i < |plan| => Attempt(plan[i].message, outcomes[i]))
  }

  lemma AttemptsAppend(p: seq<Delivery>, o: seq<bool>, q: seq<Delivery>, u: seq<bool>)
    requires |p| == |o| && |q| == |u|
    ensures Attempts(p + q, o + u) == Attempts(p, o) + Attempts(q, u)
  {
    var l, r := Attempts(p + q, o + u), Attempts(p, o) + Attempts(q, u);
    assert |l| == |r|;
    forall i | 0 <= i < |l| ensures l[i] == r[i] {
      if i < |p| {
        assert (p + q)[i] == p[i] && (o + u)[i] == o[i];
      } else {
        assert (p + q)[i] == q[i - |p|] && (o + u)[i] == u[i - |p|];
      }
    }
  }

  /** The records saved for `plan` when its sends end with `outcomes`: one per successful send, in order. */
  function Confirmed(plan: seq<Delivery>, outcomes: seq<bool>): (r: seq<SentNotification>)
    requires |plan| == |outcomes|
    ensures |r| == Successes(outcomes) <= |plan|
    decreases |plan|
  {
    if plan == [] then []
    else
      var n := |plan| - 1;
      Confirmed(plan[..n], outcomes[..n])
        + (if outcomes[n] then [SentNotification(plan[n].message, plan[n].user)] else [])
  }

  /** How many sends succeeded. */
  function Successes(outcomes: seq<bool>): nat
    decreases |outcomes|
  {
    if outcomes == [] then 0
    else Successes(outcomes[..|outcomes| - 1]) + (if outcomes[|outcomes| - 1] then 1 else 0)
  }

  /**
   * Sends are independent: the records of a concatenated plan are the
   * records of each part, so a failure affects the record of its own send
   * and nothing else.
   */
  lemma {:induction false} ConfirmedAppend(p: seq<Delivery>, o: seq<bool>, q: seq<Delivery>, u: seq<bool>)
    requires |p| == |o| && |q| == |u|
    ensures Confirmed(p + q, o + u) == Confirmed(p, o) + Confirmed(q, u)
    decreases |q|
  {
    if q == [] {
      assert p + q == p && o + u == o;
    } else {
      var n := |q| - 1;
      assert (p + q)[..|p + q| - 1] == p + q[..n];
      assert (o + u)[..|o + u| - 1] == o + u[..n];
      ConfirmedAppend(p, o, q[..n], u[..n]);
    }
  }

  /**
   * One more send extends the transport's log (`log` before this plan) by
   * one attempt and the records (`saved` before this plan) by at most one.
   */
  lemma RecordStep(
    log: seq<Attempt>, saved: seq<SentNotification>,
    plan: seq<Delivery>, j: nat, outcomes: seq<bool>, delivered: bool)
    requires j < |plan| && |outcomes| == j
    ensures log + Attempts(plan[..j + 1], outcomes + [delivered])
         == log + Attempts(plan[..j], outcomes) + [Attempt(plan[j].message, delivered)]
    ensures saved + Confirmed(plan[..j + 1], outcomes + [delivered])
         == saved + Confirmed(plan[..j], outcomes)
          + (if delivered then [SentNotification(plan[j].message, plan[j].user)] else [])
  {
    var p, o := plan[..j + 1], outcomes + [delivered];
    assert p == plan[..j] + [plan[j]];
    AttemptsAppend(plan[..j], outcomes, [plan[j]], [delivered]);
    assert p[..j] == plan[..j] && o[..j] == outcomes && p[j] == plan[j] && o[j] == delivered;
    var added := if delivered then [SentNotification(plan[j].message, plan[j].user)] else [];
    assert Confirmed(p, o) == Confirmed(plan[..j], outcomes) + added;
    assert saved + (Confirmed(plan[..j], outcomes) + added) == saved + Confirmed(plan[..j], outcomes) + added;
  }

  /** One more recipient extends the log and the records by that recipient's sends. */
  lemma RecipientStep(
    log: seq<Attempt>, saved: seq<SentNotification>,
    title: string, statusAlarms: seq<AlarmDetail>, rs: seq<Recipient>, k: nat,
    outcomes: seq<bool>, userOutcomes: seq<bool>)
    requires k < |rs|
    requires |outcomes| == |Deliveries(title, statusAlarms, rs[..k])|
    requires |userOutcomes| == |UserDeliveries(title, statusAlarms, rs[k])|
    ensures |outcomes + userOutcomes| == |Deliveries(title, statusAlarms, rs[..k + 1])|
    ensures log + Attempts(Deliveries(title, statusAlarms, rs[..k + 1]), outcomes + userOutcomes)
         == log + Attempts(Deliveries(title, statusAlarms, rs[..k]), outcomes)
          + Attempts(UserDeliveries(title, statusAlarms, rs[k]), userOutcomes)
    ensures saved + Confirmed(Deliveries(title, statusAlarms, rs[..k + 1]), outcomes + userOutcomes)
         == saved + Confirmed(Deliveries(title, statusAlarms, rs[..k]), outcomes)
          + Confirmed(UserDeliveries(title, statusAlarms, rs[k]), userOutcomes)
  {
    var done, next := Deliveries(title, statusAlarms, rs[..k]), UserDeliveries(title, statusAlarms, rs[k]);
    assert rs[..k + 1][..k] == rs[..k];
    assert Deliveries(title, statusAlarms, rs[..k + 1]) == done + next;
    AttemptsAppend(done, outcomes, next, userOutcomes);
    ConfirmedAppend(done, outcomes, next, userOutcomes);
  }

  /** Push `i` of `plan` went through and carries record `n`. */
  predicate SavedAt(plan: seq<Delivery>, outcomes: seq<bool>, i: int, n: SentNotification)
    requires |plan| == |outcomes|
  {
    0 <= i < |plan| && outcomes[i] && n == SentNotification(plan[i].message, plan[i].user)
  }

  /** A record is saved exactly for each send that succeeded, and for no other. */
  lemma {:induction false} ConfirmedExact(plan: seq<Delivery>, outcomes: seq<bool>)
    requires |plan| == |outcomes|
    ensures |Confirmed(plan, outcomes)| == Successes(outcomes)
    ensures forall n :: n in Confirmed(plan, outcomes) <==> exists i :: SavedAt(plan, outcomes, i, n)
    decreases |plan|
  {
    if plan != [] {
      var k := |plan| - 1;
      var p, o := plan[..k], outcomes[..k];
      ConfirmedExact(p, o);
      assert outcomes == o + [outcomes[k]];
      forall n ensures n in Confirmed(plan, outcomes) <==> exists i :: SavedAt(plan, outcomes, i, n) {
        SavedAtPrefix(plan, outcomes, k, n);
      }
    }
  }

  /** A push is saved in `plan` exactly when it is saved in the plan's first `k` pushes or is push `k`, the last. */
  lemma SavedAtPrefix(plan: seq<Delivery>, outcomes: seq<bool>, k: nat, n: SentNotification)
    requires |plan| == |outcomes| && k == |plan| - 1
    ensures (exists i :: SavedAt(plan, outcomes, i, n))
        <==> (exists i :: SavedAt(plan[..k], outcomes[..k], i, n)) || SavedAt(plan, outcomes, k, n)
  {
    var p, o := plan[..k], outcomes[..k];
    if i :| SavedAt(plan, outcomes, i, n) {
      if i < k {
        assert p[i] == plan[i] && o[i] == outcomes[i];
        assert SavedAt(p, o, i, n);
      }
    }
    if i :| SavedAt(p, o, i, n) {
      assert p[i] == plan[i] && o[i] == outcomes[i];
      assert SavedAt(plan, outcomes, i, n);
    }
    if SavedAt(plan, outcomes, k, n) {
      assert exists i :: SavedAt(plan, outcomes, i, n);
    }
  }

  /** The push transport. Each send either goes through or fails; which one is not up to the engine. */
  class FirebaseMessaging {
    var attempts: seq<Attempt>

    constructor ()
      ensures attempts == []
    {
      attempts := [];
    }

    method Send(message: Message) returns (delivered: bool)
      modifies this
      ensures attempts == old(attempts) + [Attempt(message, delivered)]
    {
      delivered :| true;
      attempts := attempts + [Attempt(message, delivered)];
    }
  }

  /** The store of sent notifications; written, never read, by the engine. */
  class SentNotificationRepository {
    var records: seq<SentNotification>

    constructor ()
      ensures records == []
    {
      records := [];
    }

    method Save(n: SentNotification)
      modifies this
      ensures records == old(records) + [n]
    {
      records := records + [n];
    }
  }
}
