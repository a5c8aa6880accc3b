/**
 * The entities the alarm-notification engine reads and writes: machine
 * statuses with their signal lights and alarms, users with their optional
 * notification configuration, machines, push messages and the records of
 * messages that were delivered.
 */
module Domain {

  datatype Option<+T> = None | Some(value: T)

  /** One active alarm of a machine; dedup and blacklists compare `alarmId` only. */
  datatype AlarmDetail = AlarmDetail(alarmId: string, alarmDescription: string)

  /** The state of one signal-light channel. */
  datatype SignalLight = Off | On | Blinking

  /** The four independent signal-light channels of a machine status. */
  datatype Lights = Lights(green: SignalLight, yellow: SignalLight, red: SignalLight, blue: SignalLight)

  /**
   * A user's notification settings: the device tokens to push to, the ids of
   * machines the user wants no notification about, and the ids of alarms the
   * user wants never to see.
   */
  datatype UserConfig = UserConfig(
    firebaseNotificationTokens: seq<string>,
    blacklistMachines: seq<string>,
    blacklistAlarms: seq<string>)

  /** A user of the owning company; `userConfig` is `None` where the source holds null. */
  datatype User = User(email: string, userConfig: Option<UserConfig>)

  datatype Machine = Machine(machineId: string, name: string, companyId: string)

  /** A push message to one device token. */
  datatype Message = Message(token: string, title: string, body: string)

  /** The record saved for every message the transport accepted. */
  datatype SentNotification = SentNotification(message: Message, user: User)

  /**
   * A status event of a machine. Its alarm list is a mutable field because
   * the engine removes already-notified alarms from it in place, and whoever
   * else holds the status sees the shortened list.
   */
  class MachineStatus {
    const machineId: string
    const lights: Lights
    var alarmDetails: seq<AlarmDetail>

    constructor (machineId: string, lights: Lights, alarmDetails: seq<AlarmDetail>)
      ensures this.machineId == machineId && this.lights == lights
      ensures this.alarmDetails == alarmDetails
    {
      this.machineId := machineId;
      this.lights := lights;
      this.alarmDetails := alarmDetails;
    }
  }
}
