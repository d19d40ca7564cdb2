/**
 * The nightly job that downgrades subscriptions past their end date
 * (SubscriptionExpiryJobService), and newsletter sign-ups
 * (NewsletterSubscriptionService). Each repository is a class holding its
 * rows; the clock is a parameter.
 */
module Subscriptions {
  import opened Wrappers
  import opened Text
  import opened Calendar
  import opened Plans

  // ---------------------------------------------------------------------
  // SubscriptionExpiryJobService
  // ---------------------------------------------------------------------

  /** The job's filter: status exactly "ACTIVE" and an end date before now. */
  predicate Due(s: Subscription, now: DateTime) {
    s.status == Some("ACTIVE") && s.endDate.Some? && IsBefore(s.endDate.value, now)
  }

  /** A downgraded subscription: FREE, EXPIRED, and no dates or payment references. */
  function Expired(s: Subscription): Subscription {
    s.(planType := Some(Free), status := Some("EXPIRED"), startDate := None, endDate := None,
       orderId := None, paymentId := None)
  }

  /** What one run of the job leaves of every subscription. */
  function ExpireAll(subs: seq<Subscription>, now: DateTime): (r: seq<Subscription>)
    ensures |r| == |subs|
  {
    seq(|subs|, i requires 0 <= i < |subs| => if Due(subs[i], now) then Expired(subs[i]) else subs[i])
  }

  class SubscriptionStore {
    var subs: seq<Subscription>

    constructor(subs: seq<Subscription>)
      ensures this.subs == subs
    {
      this.subs := subs;
    }

    /** `expireSubscriptions()` at the moment `now`. */
    method ExpireSubscriptions(now: DateTime)
      modifies this
      ensures subs == ExpireAll(old(subs), now)
    {
      var i := 0;
      while i < |subs|
        invariant 0 <= i <= |subs| == |old(subs)|
        invariant forall j :: 0 <= j < i ==> subs[j] == ExpireAll(old(subs), now)[j]
        invariant forall j :: i <= j < |subs| ==> subs[j] == old(subs)[j]
      {
        if Due(subs[i], now) {
          subs := subs[i := Expired(subs[i])];
        }
        i := i + 1;
      }
    }
  }

  /**
   * After the job no subscription is due any more; exactly the due ones were
   * downgraded, and the rest are unchanged.
   */
  lemma ExpireAllSpec(subs: seq<Subscription>, now: DateTime)
    ensures forall i :: 0 <= i < |subs| ==> !Due(ExpireAll(subs, now)[i], now)
    ensures forall i :: 0 <= i < |subs| && Due(subs[i], now) ==>
      var e := ExpireAll(subs, now)[i];
      e.planType == Some(Free) && e.status == Some("EXPIRED") && e.startDate.None? && e.endDate.None?
      && e.orderId.None? && e.paymentId.None?
    ensures forall i :: 0 <= i < |subs| && !Due(subs[i], now) ==> ExpireAll(subs, now)[i] == subs[i]
  {
  }

  /** Running the job twice at the same moment is running it once. */
  lemma ExpireIdempotent(subs: seq<Subscription>, now: DateTime)
    ensures ExpireAll(ExpireAll(subs, now), now) == ExpireAll(subs, now)
  {
    ExpireAllSpec(subs, now);
  }

  /** A downgraded subscription gives its owner the FREE plan and the FREE tier. */
  lemma ExpiredIsFree(s: Subscription, currency: Option<string>)
    ensures !ActiveIgnoringCase(Some(Expired(s)))
    ensures PlanKey(User(Some(Expired(s)), currency)) == "FREE"
    ensures UserTier(User(Some(Expired(s)), currency)) == Some(FreeTier)
  {
    assert |Lower("EXPIRED")| == 7 != |Lower("ACTIVE")|;
  }

  /**
   * The job matches the status case-sensitively while the plan checks ignore
   * case: a subscription whose status is "active" stays paid past its end.
   */
  lemma LowerCaseActiveSurvives(s: Subscription, now: DateTime, currency: Option<string>)
    requires s.status == Some("active") && s.planType == Some(Premium)
    requires s.endDate.Some? && IsBefore(s.endDate.value, now)
    ensures ExpireAll([s], now) == [s]
    ensures UserTier(User(Some(ExpireAll([s], now)[0]), currency)) == Some(PremiumTier)
  {
    assert Lower("active") == Lower("ACTIVE") by {
      assert Lower("active") == "active";
      assert Lower("ACTIVE") == "active";
    }
    assert !Due(s, now) by {
      assert "active"[0] != "ACTIVE"[0];
    }
  }

  // ---------------------------------------------------------------------
  // NewsletterSubscriptionService
  // ---------------------------------------------------------------------

  /** A NewsletterSubscription row; a new one is active. */
  datatype Signup = Signup(email: string, active: bool, source: Option<string>)

  /** `findByEmailIgnoreCase`: the first row whose email matches ignoring case. */
  function FindEmail(rows: seq<Signup>, email: string): (i: int)
    ensures -1 <= i < |rows|
    ensures i >= 0 ==> EqualsIgnoreCase(rows[i].email, email)
    ensures forall j :: 0 <= j < |rows| && (i == -1 || j < i) ==> !EqualsIgnoreCase(rows[j].email, email)
  {
    if rows == [] then -1
    else
      var i := FindEmail(rows[..|rows| - 1], email);
      if i >= 0 then i
      else if EqualsIgnoreCase(rows[|rows| - 1].email, email) then |rows| - 1
      else -1
  }

  /** An existing row signed up again: active, and the new source when one is given and differs. */
  function Resubscribed(row: Signup, source: Option<string>): Signup {
    var r := if !row.active then row.(active := true) else row;
    if source.Some? && (r.source.None? || r.source.value != source.value) then r.(source := source) else r
  }

  /** The rows after `subscribe(email, source)`. */
  function AfterSubscribe(rows: seq<Signup>, email: string, source: Option<string>): seq<Signup> {
    var i := FindEmail(rows, email);
    if i >= 0 then rows[i := Resubscribed(rows[i], source)] else rows + [Signup(email, true, source)]
  }

  /** The rows after `unsubscribe(email)`. */
  function AfterUnsubscribe(rows: seq<Signup>, email: string): seq<Signup> {
    var i := FindEmail(rows, email);
    if i >= 0 then rows[i := rows[i].(active := false)] else rows
  }

  class NewsletterStore {
    var rows: seq<Signup>

    constructor()
      ensures rows == []
    {
      rows := [];
    }

    /** `subscribe(email, source)`: returns the row it reactivated or created. */
    method Subscribe(email: string, source: Option<string>) returns (r: Signup)
      modifies this
      ensures rows == AfterSubscribe(old(rows), email, source)
      ensures FindEmail(rows, email) >= 0 && r == rows[FindEmail(rows, email)]
    {
      var i := FindEmail(rows, email);
      if i >= 0 {
        r := rows[i];
        if !r.active {
          r := r.(active := true);
        }
        if source.Some? && (r.source.None? || r.source.value != source.value) {
          r := r.(source := source);
        }
        rows := rows[i := r];
      } else {
        r := Signup(email, true, source);
        rows := rows + [r];
      }
      SubscribeFinds(old(rows), email, source);
    }

    /** `unsubscribe(email)`. */
    method Unsubscribe(email: string)
      modifies this
      ensures rows == AfterUnsubscribe(old(rows), email)
    {
      var i := FindEmail(rows, email);
      if i >= 0 {
        rows := rows[i := rows[i].(active := false)];
      }
    }
  }

  /** A given source replaces the stored one; without one the stored source stays. The row is active. */
  lemma ResubscribedSpec(row: Signup, source: Option<string>)
    ensures Resubscribed(row, source).active
    ensures Resubscribed(row, source).email == row.email
    ensures Resubscribed(row, source).source == (if source.Some? then source else row.source)
  {
  }

  /**
   * Subscribing finds the row it touched again: the first row matching the
   * email, now active, with the source rule applied; a known email adds no
   * row, an unknown one appends exactly one.
   */
  lemma SubscribeFinds(rows: seq<Signup>, email: string, source: Option<string>)
    ensures var after := AfterSubscribe(rows, email, source);
      var i := FindEmail(after, email);
      0 <= i && after[i].active
      && after[i].source == (if source.Some? then source
                              else if FindEmail(rows, email) >= 0 then rows[FindEmail(rows, email)].source
                              else None)
      && (FindEmail(rows, email) >= 0 ==> |after| == |rows| && i == FindEmail(rows, email)
                                          && forall j :: 0 <= j < |rows| && j != i ==> after[j] == rows[j])
      && (FindEmail(rows, email) < 0 ==> after == rows + [Signup(email, true, source)] && i == |rows|)
  {
    var k := FindEmail(rows, email);
    var after := AfterSubscribe(rows, email, source);
    ResubscribedSpec(if k >= 0 then rows[k] else Signup(email, true, source), source);
    if k >= 0 {
      FindEmailPrefix(after, email, k);
    } else {
      assert EqualsIgnoreCase(after[|rows|].email, email);
      FindEmailPrefix(after, email, |rows|);
    }
  }

  /** If row `k` matches and no earlier row does, the search stops at `k`. */
  lemma {:induction false} FindEmailPrefix(rows: seq<Signup>, email: string, k: nat)
    requires k < |rows| && EqualsIgnoreCase(rows[k].email, email)
    requires forall j :: 0 <= j < k ==> !EqualsIgnoreCase(rows[j].email, email)
    ensures FindEmail(rows, email) == k
  {
    if k < |rows| - 1 {
      FindEmailPrefix(rows[..|rows| - 1], email, k);
    }
  }

  /** Signing up twice with the same email and source is signing up once. */
  lemma SubscribeIdempotent(rows: seq<Signup>, email: string, source: Option<string>)
    ensures AfterSubscribe(AfterSubscribe(rows, email, source), email, source) == AfterSubscribe(rows, email, source)
  {
    SubscribeFinds(rows, email, source);
    var after := AfterSubscribe(rows, email, source);
    var i := FindEmail(after, email);
    ResubscribedSpec(after[i], source);
    assert Resubscribed(after[i], source) == after[i];
  }

  /** No two rows share an email ignoring case. */
  predicate UniqueEmails(rows: seq<Signup>) {
    forall i, j :: 0 <= i < j < |rows| ==> !EqualsIgnoreCase(rows[i].email, rows[j].email)
  }

  /** Subscribing never creates a second row for an email that differs only in case. */
  lemma SubscribeKeepsUnique(rows: seq<Signup>, email: string, source: Option<string>)
    requires UniqueEmails(rows)
    ensures UniqueEmails(AfterSubscribe(rows, email, source))
  {
    SubscribeFinds(rows, email, source);
  }

  /** Unsubscribing marks the first matching row inactive; an unknown email changes nothing. */
  lemma UnsubscribeSpec(rows: seq<Signup>, email: string)
    ensures |AfterUnsubscribe(rows, email)| == |rows|
    ensures FindEmail(rows, email) < 0 ==> AfterUnsubscribe(rows, email) == rows
    ensures FindEmail(rows, email) >= 0 ==>
      var i := FindEmail(rows, email);
      !AfterUnsubscribe(rows, email)[i].active
      && AfterUnsubscribe(rows, email)[i] == rows[i].(active := false)
      && forall j :: 0 <= j < |rows| && j != i ==> AfterUnsubscribe(rows, email)[j] == rows[j]
  {
  }

  /** Unsubscribing and subscribing again reactivates the same row instead of adding one. */
  lemma ResubscribeReuses(rows: seq<Signup>, email: string, source: Option<string>)
    requires FindEmail(rows, email) >= 0
    ensures var after := AfterSubscribe(AfterUnsubscribe(rows, email), email, source);
      |after| == |rows| && after[FindEmail(rows, email)].active
  {
    var i := FindEmail(rows, email);
    var off := AfterUnsubscribe(rows, email);
    FindEmailPrefix(off, email, i);
    SubscribeFinds(off, email, source);
  }
}
