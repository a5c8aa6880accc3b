/**
 * One notification run for a newly observed machine status: the delta gate,
 * the audience, the title and body, and the fan-out to every device token.
 */
module Sender {
  import opened Domain
  import opened Alarms
  import opened Audience
  import opened Composer
  import opened Dispatch

  class MachineStatusSender {
    const firebaseMessaging: FirebaseMessaging
    const machineStatus: MachineStatus
    /** The status before `machineStatus`; null for a machine's first status. */
    const penultimateMachineStatus: MachineStatus?
    const machine: Machine
    /** The users of the machine's company, as the user repository returns them. */
    const companyUsers: seq<User>
    const sentNotificationRepository: SentNotificationRepository

    constructor (
      firebaseMessaging: FirebaseMessaging, machineStatus: MachineStatus,
      penultimateMachineStatus: MachineStatus?, machine: Machine,
      companyUsers: seq<User>, sentNotificationRepository: SentNotificationRepository)
      ensures this.firebaseMessaging == firebaseMessaging && this.machineStatus == machineStatus
      ensures this.penultimateMachineStatus == penultimateMachineStatus && this.machine == machine
      ensures this.companyUsers == companyUsers
      ensures this.sentNotificationRepository == sentNotificationRepository
    {
      this.firebaseMessaging := firebaseMessaging;
      this.machineStatus := machineStatus;
      this.penultimateMachineStatus := penultimateMachineStatus;
      this.machine := machine;
      this.companyUsers := companyUsers;
      this.sentNotificationRepository := sentNotificationRepository;
    }

    /** The previous status's alarms, if there is a previous status. */
    ghost function PreviousAlarms(): Option<seq<AlarmDetail>>
      reads penultimateMachineStatus
    {
      if penultimateMachineStatus == null then None else Some(penultimateMachineStatus.alarmDetails)
    }

    /**
     * The delta gate: removes from the status, in place, every alarm whose id
     * the previous status already had, and reports whether it removed any.
     */
    method RemoveAlreadyNotifiedAlarms() returns (removed: bool)
      modifies machineStatus
      ensures machineStatus.alarmDetails == AlarmDelta(old(machineStatus.alarmDetails), old(PreviousAlarms())).remaining
      ensures removed == AlarmDelta(old(machineStatus.alarmDetails), old(PreviousAlarms())).suppressedAny
    {
      if penultimateMachineStatus == null {
        return false;
      }
      var previousIds := IdsOf(penultimateMachineStatus.alarmDetails);
      machineStatus.alarmDetails, removed := RemoveMatchingIds(machineStatus.alarmDetails, previousIds);
    }

    /** The two appends the title makes for one channel: the glyph when on, the glyph and "(blinking)" when blinking. */
    static method AppendChannel(title: string, light: SignalLight, glyph: string) returns (result: string)
      ensures result == title + ChannelText(light, glyph)
    {
      result := title;
      if light == On { result := result + glyph; }
      if light == Blinking { result := result + (glyph + BlinkingSuffix); }
    }

    /** The title: machine name, separator, then one glyph per lit channel or the all-off glyph. */
    method BuildMachineStatusTitle() returns (title: string)
      ensures title == Title(machine.name, machineStatus.lights)
    {
      var light := machineStatus.lights;
      var allLightsOff := light.green == Off && light.yellow == Off && light.red == Off && light.blue == Off;
      title := machine.name + NameSeparator;
      title := AppendChannel(title, light.green, GreenGlyph);
      title := AppendChannel(title, light.yellow, YellowGlyph);
      title := AppendChannel(title, light.red, RedGlyph);
      title := AppendChannel(title, light.blue, BlueGlyph);
      if allLightsOff { title := title + AllOffGlyph; }
      AppendRegroup(machine.name + NameSeparator,
        ChannelText(light.green, GreenGlyph), ChannelText(light.yellow, YellowGlyph),
        ChannelText(light.red, RedGlyph), ChannelText(light.blue, BlueGlyph),
        if allLightsOff then AllOffGlyph else "");
    }

    /**
     * Gives every audience user a private copy of the status's alarms with the
     * alarms that user blacklists removed; the status itself is not changed.
     */
    method GetUsersToNotifyWithFilteredAlarms(users: seq<User>) returns (r: seq<Recipient>)
      requires Configured(users)
      ensures r == Recipients(machineStatus.alarmDetails, users)
    {
      r := [];
      for i := 0 to |users|
        invariant r == Recipients(machineStatus.alarmDetails, users[..i])
      {
        var alarmDetails := machineStatus.alarmDetails;
        var anyRemoved;
        alarmDetails, anyRemoved := RemoveMatchingIds(alarmDetails, BlacklistedAlarmIds(users[i]));
        RecipientsIndependent(machineStatus.alarmDetails, users[..i], [users[i]]);
        assert users[..i + 1] == users[..i] + [users[i]];
        r := r + [Recipient(users[i], alarmDetails)];
      }
      assert users[..|users|] == users;
    }

    /**
     * The body for one user's alarms: nothing if the status has no alarms,
     * otherwise the ERR line, at most three alarm lines, and after the third
     * line the count of the alarms left out.
     */
    method BuildMachineStatusMessage(alarmDetails: seq<AlarmDetail>) returns (body: string)
      ensures body == Body(machineStatus.alarmDetails, alarmDetails)
    {
      if machineStatus.alarmDetails == [] {
        return "";
      }
      var lastAlarms := "";
      body := "ERR:\n";
      var numberOfAlarms := |alarmDetails|;
      if numberOfAlarms > 3 {
        lastAlarms := lastAlarms + "+ " + NatToString(numberOfAlarms - 3);
        numberOfAlarms := 3;
      }
      assert lastAlarms == Overflow(|alarmDetails|);
      for i := 0 to numberOfAlarms
        invariant i < 3 ==> body == AppendAlarmLines("ERR:\n", alarmDetails[..i])
        invariant i == 3 ==> body == AppendAlarmLines("ERR:\n", alarmDetails[..i]) + lastAlarms
      {
        AppendAlarmLinesStep("ERR:\n", alarmDetails, i);
        body := body + alarmDetails[i].alarmId + " | " + alarmDetails[i].alarmDescription + "\n";
        if i == 2 {
          body := body + lastAlarms;
        }
      }
      if numberOfAlarms < 3 {
        assert alarmDetails[..numberOfAlarms] == alarmDetails;
      }
    }

    /**
     * One send: builds the message for the token, sends it, and saves a
     * record only if the send went through.
     */
    method SendToToken(title: string, user: User, token: string, alarmDetails: seq<AlarmDetail>)
      returns (notificationSent: bool)
      modifies firebaseMessaging, sentNotificationRepository
      ensures var message := Message(token, title, Body(machineStatus.alarmDetails, alarmDetails));
        && firebaseMessaging.attempts == old(firebaseMessaging.attempts) + [Attempt(message, notificationSent)]
        && sentNotificationRepository.records == old(sentNotificationRepository.records)
             + (if notificationSent then [SentNotification(message, user)] else [])
    {
      var message := BuildMachineStatusMessage(alarmDetails);
      var firebaseMessage := Message(token, title, message);
      var sentNotification := SentNotification(firebaseMessage, user);
      notificationSent := firebaseMessaging.Send(firebaseMessage);
      if notificationSent {
        sentNotificationRepository.Save(sentNotification);
      }
    }

    /** Sends to every token of one recipient, saving a record for each send that went through. */
    method NotifyUser(title: string, r: Recipient) returns (ghost outcomes: seq<bool>)
      modifies firebaseMessaging, sentNotificationRepository
      ensures |outcomes| == |UserDeliveries(title, machineStatus.alarmDetails, r)|
      ensures firebaseMessaging.attempts
           == old(firebaseMessaging.attempts) + Attempts(UserDeliveries(title, machineStatus.alarmDetails, r), outcomes)
      ensures sentNotificationRepository.records
           == old(sentNotificationRepository.records) + Confirmed(UserDeliveries(title, machineStatus.alarmDetails, r), outcomes)
    {
      var tokens := TokensOf(r.user);
      ghost var plan := UserDeliveries(title, machineStatus.alarmDetails, r);
      outcomes := [];
      for j := 0 to |tokens|
        invariant |outcomes| == j
        invariant firebaseMessaging.attempts == old(firebaseMessaging.attempts) + Attempts(plan[..j], outcomes)
        invariant sentNotificationRepository.records
               == old(sentNotificationRepository.records) + Confirmed(plan[..j], outcomes)
      {
        var notificationSent := SendToToken(title, r.user, tokens[j], r.alarmDetails);
        RecordStep(old(firebaseMessaging.attempts), old(sentNotificationRepository.records),
          plan, j, outcomes, notificationSent);
        outcomes := outcomes + [notificationSent];
      }
      assert plan[..|tokens|] == plan;
    }

    /** The fan-out over all recipients: every recipient in order, every token of each in order. */
    method NotifyAll(title: string, usersToNotify: seq<Recipient>) returns (ghost outcomes: seq<bool>)
      modifies firebaseMessaging, sentNotificationRepository
      ensures |outcomes| == |Deliveries(title, machineStatus.alarmDetails, usersToNotify)|
      ensures firebaseMessaging.attempts
           == old(firebaseMessaging.attempts) + Attempts(Deliveries(title, machineStatus.alarmDetails, usersToNotify), outcomes)
      ensures sentNotificationRepository.records
           == old(sentNotificationRepository.records) + Confirmed(Deliveries(title, machineStatus.alarmDetails, usersToNotify), outcomes)
    {
      outcomes := [];
      ghost var alarms := machineStatus.alarmDetails;
      ghost var done: seq<Delivery> := [];
      for k := 0 to |usersToNotify|
        invariant done == Deliveries(title, alarms, usersToNotify[..k])
        invariant |outcomes| == |done|
        invariant firebaseMessaging.attempts == old(firebaseMessaging.attempts) + Attempts(done, outcomes)
        invariant sentNotificationRepository.records == old(sentNotificationRepository.records) + Confirmed(done, outcomes)
      {
        ghost var userOutcomes := NotifyUser(title, usersToNotify[k]);
        RecipientStep(old(firebaseMessaging.attempts), old(sentNotificationRepository.records),
          title, alarms, usersToNotify, k, outcomes, userOutcomes);
        outcomes := outcomes + userOutcomes;
        done := Deliveries(title, alarms, usersToNotify[..k + 1]);
      }
      assert usersToNotify[..|usersToNotify|] == usersToNotify;
    }

    /**
     * The whole run. If the delta gate removed any alarm, or no alarm is left,
     * nothing is sent or saved; with no previous status that branch throws
     * (`threw`), as its log line dereferences the missing status. Otherwise
     * there is one send per (audience user, token) pair, in order, and a
     * record for each send that went through.
     */
    method Run() returns (threw: bool, ghost outcomes: seq<bool>)
      modifies machineStatus, firebaseMessaging, sentNotificationRepository
      ensures var d := AlarmDelta(old(machineStatus.alarmDetails), old(PreviousAlarms()));
        machineStatus.alarmDetails == d.remaining
      ensures var d := AlarmDelta(old(machineStatus.alarmDetails), old(PreviousAlarms()));
        d.suppressedAny || d.remaining == [] ==>
          && threw == (penultimateMachineStatus == null)
          && firebaseMessaging.attempts == old(firebaseMessaging.attempts)
          && sentNotificationRepository.records == old(sentNotificationRepository.records)
      ensures var d := AlarmDelta(old(machineStatus.alarmDetails), old(PreviousAlarms()));
        !d.suppressedAny && d.remaining != [] ==>
          var plan := Deliveries(
            Title(machine.name, machineStatus.lights), d.remaining,
            Recipients(d.remaining, UsersWithoutBlacklistedMachines(companyUsers, machineStatus.machineId)));
          && !threw
          && |outcomes| == |plan|
          && firebaseMessaging.attempts == old(firebaseMessaging.attempts) + Attempts(plan, outcomes)
          && sentNotificationRepository.records == old(sentNotificationRepository.records) + Confirmed(plan, outcomes)
    {
      outcomes := [];
      var alreadyNotifiedAlarmsRemoved := RemoveAlreadyNotifiedAlarms();
      if !alreadyNotifiedAlarmsRemoved && machineStatus.alarmDetails != [] {
        var title := BuildMachineStatusTitle();
        var usersWithoutBlacklistedMachines := UsersWithoutBlacklistedMachines(companyUsers, machineStatus.machineId);
        var usersToNotify := GetUsersToNotifyWithFilteredAlarms(usersWithoutBlacklistedMachines);
        outcomes := NotifyAll(title, usersToNotify);
        threw := false;
      } else {
        threw := penultimateMachineStatus == null;
      }
    }
  }

  /**
   * Only eligible company users are ever notified: every push of a run goes
   * to a company user who has a token and does not blacklist the machine.
   */
  lemma DeliveredOnlyToEligible(
    title: string, alarms: seq<AlarmDetail>, users: seq<User>, machineId: string, d: Delivery)
    requires d in Deliveries(title, alarms, Recipients(alarms, UsersWithoutBlacklistedMachines(users, machineId)))
    ensures d.user in users && Eligible(d.user, machineId)
  {
    var audience := UsersWithoutBlacklistedMachines(users, machineId);
    var rs := Recipients(alarms, audience);
    DeliveriesMembers(title, alarms, rs, d);
    var i :| 0 <= i < |rs| && d.user == rs[i].user && d.message.token in TokensOf(rs[i].user)
      && d.message.title == title && d.message.body == Body(alarms, rs[i].alarmDetails);
    assert d.user == audience[i];
  }
}
