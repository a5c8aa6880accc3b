/**
 * Who is notified, and about which alarms: the machine-level audience filter
 * and the per-user alarm blacklist.
 */
module Audience {
  import opened Domain
  import opened Alarms

  /** A user can be reached: a configuration with at least one device token. */
  predicate HasTokens(u: User) {
    u.userConfig.Some? && |u.userConfig.value.firebaseNotificationTokens| > 0
  }

  /** A user keeps notifications about the machine: reachable and not blacklisting it. */
  predicate Eligible(u: User, machineId: string) {
    HasTokens(u) && machineId !in u.userConfig.value.blacklistMachines
  }

  /** The audience for a machine, in the order of the company's users. */
  function UsersWithoutBlacklistedMachines(users: seq<User>, machineId: string): (r: seq<User>)
    ensures |r| <= |users|
    ensures forall u :: u in r <==> u in users && Eligible(u, machineId)
    decreases |users|
  {
    if users == [] then []
    else
      var init, last := users[..|users| - 1], users[|users| - 1];
      assert users == init + [last];
      if Eligible(last, machineId) then UsersWithoutBlacklistedMachines(init, machineId) + [last]
      else UsersWithoutBlacklistedMachines(init, machineId)
  }

  /** The audience filter distributes over concatenation: it keeps the input order. */
  lemma {:induction false} AudienceAppend(s: seq<User>, t: seq<User>, machineId: string)
    ensures UsersWithoutBlacklistedMachines(s + t, machineId)
         == UsersWithoutBlacklistedMachines(s, machineId) + UsersWithoutBlacklistedMachines(t, machineId)
    decreases |t|
  {
    if t == [] {
      assert s + t == s;
    } else {
      var t' := t[..|t| - 1];
      assert (s + t)[..|s + t| - 1] == s + t';
      AudienceAppend(s, t', machineId);
    }
  }

  /** No user occurs twice in the list. */
  predicate Distinct(s: seq<User>) {
    forall i, j :: 0 <= i < j < |s| ==> s[i] != s[j]
  }

  /** The filter never repeats a user: a user occurs in the audience at most as often as among the company's users. */
  lemma {:induction false} AudienceMultiplicity(users: seq<User>, machineId: string)
    ensures multiset(UsersWithoutBlacklistedMachines(users, machineId)) <= multiset(users)
    ensures Distinct(users) ==> Distinct(UsersWithoutBlacklistedMachines(users, machineId))
    decreases |users|
  {
    if users != [] {
      var init, last := users[..|users| - 1], users[|users| - 1];
      assert users == init + [last];
      AudienceMultiplicity(init, machineId);
      var r := UsersWithoutBlacklistedMachines(users, machineId);
      var r' := UsersWithoutBlacklistedMachines(init, machineId);
      if Distinct(users) {
        assert Distinct(init);
        assert last !in init;
        if Eligible(last, machineId) {
          assert last !in r';
          assert r == r' + [last];
        }
      }
    }
  }

  /** Every user in the list has a configuration. */
  predicate Configured(users: seq<User>) {
    forall u :: u in users ==> u.userConfig.Some?
  }

  /** The alarm ids a configured user blacklists. */
  function BlacklistedAlarmIds(u: User): seq<string>
    requires u.userConfig.Some?
  {
    u.userConfig.value.blacklistAlarms
  }

  /** The user blacklists this alarm's id (the description is not compared). */
  predicate AlarmIsInBlacklist(u: User, a: AlarmDetail)
    requires u.userConfig.Some?
  {
    a.alarmId in BlacklistedAlarmIds(u)
  }

  /** One audience user together with the private copy of the alarms that user is shown. */
  datatype Recipient = Recipient(user: User, alarmDetails: seq<AlarmDetail>)

  /**
   * Every audience user, in order, each with the alarms minus those the user
   * blacklists. A user whose every alarm is blacklisted stays, with an empty list.
   */
  function Recipients(alarms: seq<AlarmDetail>, audience: seq<User>): (r: seq<Recipient>)
    requires Configured(audience)
    ensures |r| == |audience|
    ensures forall i :: 0 <= i < |r| ==> r[i].user == audience[i]
    ensures forall i, a :: 0 <= i < |r| ==>
      (a in r[i].alarmDetails <==> a in alarms && !AlarmIsInBlacklist(audience[i], a))
  {
    seq(|audience|, i requires 0 <= i < |audience| =>
      Recipient(audience[i], WithoutIds(alarms, BlacklistedAlarmIds(audience[i]))))
  }

  /**
   * Users are filtered independently: a user's entry depends on that user
   * alone, never on who else is in the audience or where.
   */
  lemma RecipientsIndependent(alarms: seq<AlarmDetail>, s: seq<User>, t: seq<User>)
    requires Configured(s + t)
    ensures Recipients(alarms, s + t) == Recipients(alarms, s) + Recipients(alarms, t)
    ensures forall i :: 0 <= i < |s| ==> Recipients(alarms, s)[i] == Recipients(alarms, [s[i]])[0]
  {
    var l, r := Recipients(alarms, s + t), Recipients(alarms, s) + Recipients(alarms, t);
    assert |l| == |r|;
    forall i | 0 <= i < |l| ensures l[i] == r[i] {
      if i < |s| { assert (s + t)[i] == s[i]; } else { assert (s + t)[i] == t[i - |s|]; }
    }
  }

  /**
   * A recipient's alarms are order-preserving: the per-user filter of a
   * concatenation is the concatenation of the per-user filters.
   */
  lemma RecipientAlarmsInOrder(u: User, s: seq<AlarmDetail>, t: seq<AlarmDetail>)
    requires u.userConfig.Some?
    ensures Recipients(s + t, [u])[0].alarmDetails
         == Recipients(s, [u])[0].alarmDetails + Recipients(t, [u])[0].alarmDetails
  {
    WithoutIdsAppend(s, t, BlacklistedAlarmIds(u));
  }
}
