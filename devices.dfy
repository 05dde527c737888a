/** The device directory of the devices microservice (`DeviceServiceImpl`): a
    table of devices, each owned by a record of the microservice's own user
    table, with lookups, creation, update, deletion and listing by owner. */
module DeviceDirectory {
  import opened Common

  type DeviceId = nat
  type UserId = nat

  /** A device's consumption. The service only copies it from input to
      record; its Java type is not part of this model. */
  type Consumption(==, !new)

  /** The devices microservice's own user record; its fields other than the
      id are not part of this model. */
  datatype DeviceUser = DeviceUser(id: UserId)

  /** A stored device; `owner` is the id of the user record it refers to. */
  datatype Device = Device(
    id: DeviceId,
    description: string,
    address: string,
    consumption: Consumption,
    owner: UserId)

  /** The input of `addDevice`. */
  datatype DeviceCreationDto = DeviceCreationDto(
    description: string,
    address: string,
    consumption: Consumption,
    userId: UserId)

  /** The input of `updateDevice`. */
  datatype DeviceDto = DeviceDto(
    deviceId: DeviceId,
    description: string,
    address: string,
    consumption: Consumption,
    userId: UserId)

  /** What the mapper makes of a stored device. The mapper is not part of
      this model, so a view carries the whole record. */
  datatype DeviceView = DeviceView(of: Device)

  const DeviceNotFound: Error := Runtime("Device not found")
  const UserNotFound: Error := Runtime("User not found")

  /** The ids of the devices `owner` owns. */
  ghost function OwnedSet(devices: map<DeviceId, Device>, owner: UserId): set<DeviceId>
  {
    set k | k in devices && devices[k].owner == owner
  }

  /** Each element is smaller than every later one. */
  ghost predicate Increasing(ids: seq<nat>)
  {
    forall i, j :: 0 <= i < j < |ids| ==> ids[i] < ids[j]
  }

  ghost function Elements(ids: seq<nat>): set<nat>
  {
    set k | k in ids
  }

  /** The ids below `bound` of the devices `owner` owns, each once, in
      ascending order. */
  function OwnedIds(devices: map<DeviceId, Device>, owner: UserId, bound: nat): (ids: seq<DeviceId>)
    ensures Increasing(ids)
    ensures forall k :: k in ids <==> k < bound && k in devices && devices[k].owner == owner
    decreases bound
  {
    if bound == 0 then []
    else
      var below := OwnedIds(devices, owner, bound - 1);
      assert forall i :: 0 <= i < |below| ==> below[i] in below;
      if bound - 1 in devices && devices[bound - 1].owner == owner then below + [bound - 1] else below
  }

  /** A strictly increasing sequence repeats no element: it has as many
      elements as its set of elements. */
  lemma {:induction false} IncreasingHasNoRepeats(ids: seq<nat>)
    requires Increasing(ids)
    ensures |Elements(ids)| == |ids|
  {
    if |ids| > 0 {
      var rest := ids[1..];
      assert Increasing(rest) by {
        forall i, j | 0 <= i < j < |rest| ensures rest[i] < rest[j] {
          assert rest[i] == ids[i + 1] && rest[j] == ids[j + 1];
        }
      }
      IncreasingHasNoRepeats(rest);
      assert ids[0] !in rest by {
        forall i | 0 <= i < |rest| ensures rest[i] != ids[0] {
          assert rest[i] == ids[i + 1];
        }
      }
      assert Elements(ids) == Elements(rest) + {ids[0]} by {
        assert ids == [ids[0]] + rest;
      }
    }
  }

  /** The service over its two repositories: the device table `devices` and
      the user table `users`; `nextDeviceId` is the id the device repository
      hands out on the next insertion. */
  class DeviceService {
    var users: map<UserId, DeviceUser>
    var devices: map<DeviceId, Device>
    var nextDeviceId: DeviceId

    /** Every record is stored under its own id and every device id is below
        the next one to be handed out. */
    ghost predicate Valid()
      reads this
    {
      && (forall id :: id in users ==> users[id].id == id)
      && (forall id :: id in devices ==> devices[id].id == id && id < nextDeviceId)
    }

    /** Referential integrity: every device's owner is in the user table. */
    ghost predicate OwnersExist()
      reads this
    {
      forall id :: id in devices ==> devices[id].owner in users
    }

    constructor (users: map<UserId, DeviceUser>)
      requires forall id :: id in users ==> users[id].id == id
      ensures Valid() && OwnersExist()
      ensures this.users == users && devices == map[]
    {
      this.users := users;
      devices := map[];
      nextDeviceId := 1;
    }

    /** `getAllDevices`: every stored device, each the one stored under its
        id. */
    function GetAllDevices(): (r: set<Device>)
      reads this
      requires Valid()
      ensures forall d :: d in r <==> d.id in devices && devices[d.id] == d
    {
      devices.Values
    }

    /** `getDeviceById`: the stored device, or "Device not found". */
    function GetDeviceById(id: DeviceId): (r: Result<DeviceView>)
      reads this
      ensures r.Ok? <==> id in devices
      ensures r.Ok? ==> r.value == DeviceView(devices[id])
      ensures r.Err? ==> r.error == DeviceNotFound
    {
      if id in devices then Ok(DeviceView(devices[id])) else Err(DeviceNotFound)
    }

    /** `addDevice`: "User not found", saving nothing, when the owner is not
        in the user table; otherwise stores exactly one new device under a
        fresh id, owned by that user. */
    method AddDevice(dto: DeviceCreationDto) returns (r: Result<DeviceView>)
      requires Valid()
      modifies this
      ensures Valid() && users == old(users)
      ensures r.Err? <==> dto.userId !in users
      ensures r.Err? ==> r.error == UserNotFound && devices == old(devices) && nextDeviceId == old(nextDeviceId)
      ensures r.Ok? ==>
        var d := r.value.of;
        && d.id !in old(devices)
        && devices == old(devices)[d.id := d]
        && |devices| == |old(devices)| + 1
        && d == Device(d.id, dto.description, dto.address, dto.consumption, dto.userId)
      ensures old(OwnersExist()) ==> OwnersExist()
    {
      if dto.userId !in users {
        return Err(UserNotFound);
      }
      var user := users[dto.userId];
      // The repository assigns the id when the entity is saved.
      var entity := Device(nextDeviceId, dto.description, dto.address, dto.consumption, user.id);
      devices := devices[entity.id := entity];
      nextDeviceId := nextDeviceId + 1;
      return Ok(DeviceView(entity));
    }

    /** `updateDevice`: looks up the device first and the owner second, so an
        unknown device is "Device not found" whatever the owner, and a known
        device with an unknown owner is "User not found"; a failure changes
        nothing. Otherwise overwrites description, address, consumption and
        owner, keeping the id and every other device. */
    method UpdateDevice(dto: DeviceDto) returns (r: Result<DeviceView>)
      requires Valid()
      modifies this
      ensures Valid() && users == old(users) && nextDeviceId == old(nextDeviceId)
      ensures dto.deviceId !in old(devices) ==> r == Err(DeviceNotFound)
      ensures dto.deviceId in old(devices) && dto.userId !in users ==> r == Err(UserNotFound)
      ensures r.Ok? <==> dto.deviceId in old(devices) && dto.userId in users
      ensures r.Err? ==> devices == old(devices)
      ensures r.Ok? ==>
        && devices == old(devices)[dto.deviceId := Device(dto.deviceId, dto.description, dto.address, dto.consumption, dto.userId)]
        && r.value == DeviceView(devices[dto.deviceId])
      ensures old(OwnersExist()) ==> OwnersExist()
    {
      if dto.deviceId !in devices {
        return Err(DeviceNotFound);
      }
      var existing := devices[dto.deviceId];
      if dto.userId !in users {
        return Err(UserNotFound);
      }
      var user := users[dto.userId];
      existing := existing.(description := dto.description);
      existing := existing.(address := dto.address);
      existing := existing.(consumption := dto.consumption);
      existing := existing.(owner := user.id);
      devices := devices[existing.id := existing];
      return Ok(DeviceView(existing));
    }

    /** `deleteDevice`: "Device not found" for an unknown id; otherwise removes
        exactly that device. The user table is never touched. */
    method DeleteDevice(id: DeviceId) returns (r: Outcome)
      requires Valid()
      modifies this
      ensures Valid() && users == old(users) && nextDeviceId == old(nextDeviceId)
      ensures r.Fail? <==> id !in old(devices)
      ensures r.Fail? ==> r.error == DeviceNotFound
      ensures devices == old(devices) - {id}
      ensures old(OwnersExist()) ==> OwnersExist()
    {
      if id !in devices {
        return Fail(DeviceNotFound);
      }
      var existing := devices[id];
      devices := devices - {existing.id};
      return Pass;
    }

    /** `getAllDevicesByUser`: "User not found" for an unknown user;
        otherwise exactly the devices that user owns, one entry per device,
        listed by ascending id. */
    function GetAllDevicesByUser(userId: UserId): (r: Result<seq<DeviceView>>)
      reads this
      requires Valid()
      ensures r.Err? <==> userId !in users
      ensures r.Err? ==> r.error == UserNotFound
      ensures r.Ok? ==> forall v :: v in r.value ==>
        v.of.id in devices && devices[v.of.id] == v.of && v.of.owner == userId
      ensures r.Ok? ==> forall id :: id in devices && devices[id].owner == userId ==>
        DeviceView(devices[id]) in r.value
      ensures r.Ok? ==> forall i, j :: 0 <= i < j < |r.value| ==> r.value[i].of.id < r.value[j].of.id
      ensures r.Ok? ==> |r.value| == |OwnedSet(devices, userId)|
    {
      if userId !in users then Err(UserNotFound)
      else
        var table := devices;
        var ids := OwnedIds(table, userId, nextDeviceId);
        IncreasingHasNoRepeats(ids);
        assert Elements(ids) == OwnedSet(table, userId);
        var views := seq(|ids|, i requires 0 <= i < |ids| => DeviceView(table[ids[i]]));
        assert forall id :: id in table && table[id].owner == userId ==> DeviceView(table[id]) in views by {
          forall id | id in table && table[id].owner == userId
            ensures DeviceView(table[id]) in views
          {
            var i :| 0 <= i < |ids| && ids[i] == id;
            assert views[i] == DeviceView(table[id]);
          }
        }
        Ok(views)
    }
  }
}
