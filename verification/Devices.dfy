/** app/services/device_service.py: creating a device and changing its columns. */
module Devices {
  import opened Prelude
  import opened Models
  import opened Transactions

  datatype DeviceCreate = DeviceCreate(
    deviceName: Option<string>, channelType: string, baseUrl: Option<string>, signSecret: Option<string>)

  /** One item of `payload.model_dump(exclude_unset=True)`; None is an explicit null. */
  datatype DeviceChange =
    | SetName(name: Option<string>)
    | SetChannel(channel: Option<string>)
    | SetBaseUrl(url: Option<string>)
    | SetSecret(secret: Option<string>)

  function Nonempty(s: Option<string>): Option<string> {
    if s == Some("") then None else s
  }

  function NewDevice(p: DeviceCreate): Device {
    Device(p.deviceName, Some(p.channelType), p.baseUrl, Nonempty(p.signSecret), "inactive", false, None, None, 0)
  }

  predicate TouchesBaseUrl(changes: seq<DeviceChange>) {
    exists i | 0 <= i < |changes| :: changes[i].SetBaseUrl?
  }

  /** A secret is replaced only by a nonempty one; every other column takes the value given, null included. */
  function ChangeDevice(d: Device, c: DeviceChange): Device {
    match c
    case SetName(v) => d.(deviceName := v)
    case SetChannel(v) => d.(channelType := v)
    case SetBaseUrl(v) => d.(baseUrl := v)
    case SetSecret(v) => if Nonempty(v).Some? then d.(signSecret := v) else d
  }

  function ChangeDeviceAll(d: Device, changes: seq<DeviceChange>): Device {
    if changes == [] then d
    else ChangeDevice(ChangeDeviceAll(d, changes[..|changes| - 1]), changes[|changes| - 1])
  }

  /** The base URL an update leaves behind: the last one it names, else the present one. */
  function NewBaseUrl(changes: seq<DeviceChange>, current: Option<string>): Option<string> {
    if changes == [] then current
    else if changes[|changes| - 1].SetBaseUrl? then changes[|changes| - 1].url
    else NewBaseUrl(changes[..|changes| - 1], current)
  }

  lemma {:induction false} ChangeDeviceBaseUrl(d: Device, changes: seq<DeviceChange>)
    ensures ChangeDeviceAll(d, changes).baseUrl == NewBaseUrl(changes, d.baseUrl)
    ensures !TouchesBaseUrl(changes) ==> NewBaseUrl(changes, d.baseUrl) == d.baseUrl
    ensures ChangeDeviceAll(d, changes).webhookCount == d.webhookCount
  {
    if changes == [] {
    } else {
      var init := changes[..|changes| - 1];
      assert forall i | 0 <= i < |init| :: init[i] == changes[i];
      ChangeDeviceBaseUrl(d, init);
    }
  }

  /** What the last accepted webhook delivery, if any, left on a device. */
  predicate Activity(d: Device, last: Option<Time>) {
    && d.lastSeenAt == last && d.lastWebhookAt == last
    && d.isActive == last.Some? && d.status == (if last.Some? then "active" else "inactive")
  }

  lemma {:induction false} ChangeDeviceKeepsActivity(d: Device, changes: seq<DeviceChange>)
    ensures var r := ChangeDeviceAll(d, changes);
            r.lastSeenAt == d.lastSeenAt && r.lastWebhookAt == d.lastWebhookAt
            && r.isActive == d.isActive && r.status == d.status
  {
    if changes == [] {
    } else {
      ChangeDeviceKeepsActivity(d, changes[..|changes| - 1]);
    }
  }

  /** A change that is not passed over: everything but a null or empty secret. */
  predicate DeviceChangeCounts(c: DeviceChange) {
    c.SetSecret? ==> c.secret.Some? && c.secret != Some("")
  }

  predicate SameDeviceColumn(a: DeviceChange, b: DeviceChange) {
    || (a.SetName? && b.SetName?) || (a.SetChannel? && b.SetChannel?)
    || (a.SetBaseUrl? && b.SetBaseUrl?) || (a.SetSecret? && b.SetSecret?)
  }

  /** The column the change names holds the value it gives. */
  predicate DeviceHolds(d: Device, c: DeviceChange) {
    match c
    case SetName(v) => d.deviceName == v
    case SetChannel(v) => d.channelType == v
    case SetBaseUrl(v) => d.baseUrl == v
    case SetSecret(v) => d.signSecret == v
  }

  /** An update leaves in each column what the last change that counts gave it. */
  lemma {:induction false} LastDeviceChangeHolds(d: Device, changes: seq<DeviceChange>, i: nat)
    requires i < |changes| && DeviceChangeCounts(changes[i])
    requires forall j | i < j < |changes| && DeviceChangeCounts(changes[j]) :: !SameDeviceColumn(changes[i], changes[j])
    ensures DeviceHolds(ChangeDeviceAll(d, changes), changes[i])
  {
    if i < |changes| - 1 {
      LastDeviceChangeHolds(d, changes[..|changes| - 1], i);
    }
  }

  /** A column no such change names keeps its value. */
  lemma {:induction false} UnnamedDeviceColumnStays(d: Device, changes: seq<DeviceChange>, c: DeviceChange)
    requires forall j | 0 <= j < |changes| && DeviceChangeCounts(changes[j]) :: !SameDeviceColumn(c, changes[j])
    ensures DeviceHolds(ChangeDeviceAll(d, changes), c) <==> DeviceHolds(d, c)
  {
    if changes == [] {
    } else {
      UnnamedDeviceColumnStays(d, changes[..|changes| - 1], c);
    }
  }

  function PlanCreate(db: Db, id: string, p: DeviceCreate): Result<Txn, Error> {
    Ok(Txn(id, Some(Insert(NewDevice(p))), None))
  }

  function PlanUpdate(db: Db, id: string, changes: seq<DeviceChange>): Result<Txn, Error> {
    if id !in db.devices then Err(NotFound("device not found"))
    else if TouchesBaseUrl(changes) && id in db.tunnels && db.tunnels[id].enabled then
      Err(Conflict("base_url is managed by tunnel"))
    else Ok(Txn(id, Some(Update(db.devices[id], ChangeDeviceAll(db.devices[id], changes))), None))
  }
}
