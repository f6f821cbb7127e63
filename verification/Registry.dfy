/** The set of devices allowed to authenticate. */
module DeviceRegistry {
  import opened Basics
  import opened Ordered
  import opened Protocol
  import opened Persistence
  import opened Signing

  datatype StoredDevice = StoredDevice(
    deviceId: Text, name: Text, platform: nat, pubkey: Text, pairedAt: int, lastSeen: int)

  type Devices = map<Text, StoredDevice>

  // Identifiers.

  function HexDigit(n: nat): byte
    requires n < 16
  {
    if n < 10 then (48 + n) as byte else (87 + n) as byte
  }

  function Hex(bs: seq<byte>): (t: Text)
    ensures |t| == 2 * |bs|
  {
    if bs == [] then []
    else [HexDigit(bs[0] as int / 16), HexDigit(bs[0] as int % 16)] + Hex(bs[1..])
  }

  /** The value of a lower-case hex digit; -1 for anything else. */
  function HexValue(c: byte): int {
    if '0' as int <= c as int <= '9' as int then c as int - '0' as int
    else if 'a' as int <= c as int <= 'f' as int then c as int - 'a' as int + 10
    else -1
  }

  /** Two lower-case digits per byte, the high half first. */
  lemma {:induction false} HexReads(bs: seq<byte>, i: nat)
    requires i < |bs|
    ensures HexValue(Hex(bs)[2 * i]) >= 0 && HexValue(Hex(bs)[2 * i + 1]) >= 0
    ensures 16 * HexValue(Hex(bs)[2 * i]) + HexValue(Hex(bs)[2 * i + 1]) == bs[i] as int
  {
    if i > 0 {
      HexReads(bs[1..], i - 1);
      assert Hex(bs)[2 * i] == Hex(bs[1..])[2 * (i - 1)] && Hex(bs)[2 * i + 1] == Hex(bs[1..])[2 * (i - 1) + 1];
    }
  }

  lemma {:induction false} HexInjective(a: seq<byte>, b: seq<byte>)
    requires Hex(a) == Hex(b)
    ensures a == b
  {
    assert |Hex(a)| == 2 * |a| && |Hex(b)| == 2 * |b|;
    if a != [] {
      assert Hex(a)[0] == Hex(b)[0] && Hex(a)[1] == Hex(b)[1];
      assert Hex(a)[2..] == Hex(a[1..]) && Hex(b)[2..] == Hex(b[1..]);
      HexInjective(a[1..], b[1..]);
      assert a == [a[0]] + a[1..] && b == [b[0]] + b[1..];
    }
  }

  /** `d_` */
  const DEVICE_PREFIX: Text := [100, 95]

  /** `d_`, then the first 16 hex characters of the key's SHA-256. */
  function DeviceId(crypto: Crypto, key: seq<byte>): (id: Text)
    ensures |id| == 18
  {
    DEVICE_PREFIX + Hex(crypto.sha256(key)[..8])
  }

  /** The documented form of an id: `d_`, then eight digest bytes in lower-case hex. */
  lemma DeviceIdSpelled(crypto: Crypto, key: seq<byte>, i: nat)
    requires i < 8
    ensures var id := DeviceId(crypto, key);
            && |id| == 18 && id[..2] == Ascii("d_")
            && HexValue(id[2 + 2 * i]) >= 0 && HexValue(id[3 + 2 * i]) >= 0
            && 16 * HexValue(id[2 + 2 * i]) + HexValue(id[3 + 2 * i]) == crypto.sha256(key)[i] as int
  {
    var digest := crypto.sha256(key)[..8];
    HexReads(digest, i);
    assert DeviceId(crypto, key)[2 + 2 * i] == Hex(digest)[2 * i];
    assert DeviceId(crypto, key)[3 + 2 * i] == Hex(digest)[2 * i + 1];
  }

  /** Two keys share an id exactly when the first eight digest bytes collide. */
  lemma DeviceIdIsDigestPrefix(crypto: Crypto, k1: seq<byte>, k2: seq<byte>)
    ensures DeviceId(crypto, k1) == DeviceId(crypto, k2) <==> crypto.sha256(k1)[..8] == crypto.sha256(k2)[..8]
  {
    if DeviceId(crypto, k1) == DeviceId(crypto, k2) {
      assert Hex(crypto.sha256(k1)[..8]) == DeviceId(crypto, k1)[2..];
      assert Hex(crypto.sha256(k2)[..8]) == DeviceId(crypto, k2)[2..];
      HexInjective(crypto.sha256(k1)[..8], crypto.sha256(k2)[..8]);
    }
  }

  // Keys.

  /** The key a stored device authenticates with, if it loads. */
  function LoadKey(crypto: Crypto, device: StoredDevice): Result<seq<byte>, Error> {
    match crypto.decode64(device.pubkey)
    case None => Err(Fault)
    case Some(bytes) =>
      if |bytes| != PUBKEY_LEN || !crypto.validPoint(bytes) then Err(Fault) else Ok(bytes)
  }

  function VerifyingKey(crypto: Crypto, devices: Devices, id: Text): Result<seq<byte>, Error> {
    if id in devices then LoadKey(crypto, devices[id]) else Err(Wire(UnknownDevice))
  }

  /** Every entry is filed under its own id, which is the id of the key it stores, and that key loads. */
  ghost predicate RegistryOk(crypto: Crypto, devices: Devices) {
    forall id :: id in devices ==>
      && devices[id].deviceId == id
      && LoadKey(crypto, devices[id]).Ok?
      && id == DeviceId(crypto, LoadKey(crypto, devices[id]).value)
  }

  /** In a kept registry the lookup fails on absent ids only, and only with `UNKNOWN_DEVICE`. */
  lemma LookupFailsOnlyOnAbsent(crypto: Crypto, devices: Devices, id: Text)
    requires RegistryOk(crypto, devices)
    ensures VerifyingKey(crypto, devices, id).Err? <==> id !in devices
    ensures VerifyingKey(crypto, devices, id).Err? ==> VerifyingKey(crypto, devices, id).error == Wire(UnknownDevice)
    ensures VerifyingKey(crypto, devices, id).Ok? ==> DeviceId(crypto, VerifyingKey(crypto, devices, id).value) == id
  {}

  // Operations.

  datatype RegistryCall =
    | Insert(key: seq<byte>, name: Text, platform: nat, now: int)
    | Revoke(id: Text)
    | Touch(seen: Text, at: int)

  predicate StorableKey(crypto: Crypto, key: seq<byte>) {
    |key| == PUBKEY_LEN && crypto.validPoint(key)
  }

  /** Whether the call changes memory and goes on to `persist`. */
  predicate Reaches(crypto: Crypto, devices: Devices, c: RegistryCall) {
    match c
    case Insert(key, _, _, _) => StorableKey(crypto, key)
    case Revoke(id) => id in devices
    case Touch(id, _) => id in devices
  }

  function Entry(crypto: Crypto, devices: Devices, c: RegistryCall): StoredDevice
    requires c.Insert?
  {
    var id := DeviceId(crypto, c.key);
    StoredDevice(id, c.name, c.platform, crypto.encode64(c.key),
                 if id in devices then devices[id].pairedAt else c.now, c.now)
  }

  function AfterCall(crypto: Crypto, devices: Devices, c: RegistryCall): Devices {
    if !Reaches(crypto, devices, c) then devices
    else
      match c
      case Insert(key, _, _, _) => devices[DeviceId(crypto, key) := Entry(crypto, devices, c)]
      case Revoke(id) => devices - {id}
      case Touch(id, at) => devices[id := devices[id].(lastSeen := at)]
  }

  lemma RegistryStepKeepsOk(crypto: Crypto, devices: Devices, c: RegistryCall)
    requires crypto.RoundTrips() && RegistryOk(crypto, devices)
    ensures RegistryOk(crypto, AfterCall(crypto, devices, c))
  {
    if c.Insert? && StorableKey(crypto, c.key) {
      assert crypto.decode64(crypto.encode64(c.key)) == Some(c.key);
    }
  }

  /** Pairing a new key adds one entry, with everything it says; other devices are untouched. */
  lemma PairingAdds(crypto: Crypto, devices: Devices, key: seq<byte>, name: Text, platform: nat, now: int)
    requires |key| == 32 && crypto.validPoint(key) && DeviceId(crypto, key) !in devices
    ensures var after := AfterCall(crypto, devices, Insert(key, name, platform, now));
            var id := DeviceId(crypto, key);
            && after.Keys == devices.Keys + {id}
            && after[id] == StoredDevice(id, name, platform, crypto.encode64(key), now, now)
            && forall k :: k in devices ==> after[k] == devices[k]
  {}

  /** A key that would not load again is never stored. */
  lemma BadKeysAreRefused(crypto: Crypto, devices: Devices, key: seq<byte>, name: Text, platform: nat, now: int)
    requires |key| != 32 || !crypto.validPoint(key)
    ensures AfterCall(crypto, devices, Insert(key, name, platform, now)) == devices
  {}

  /** A sign-in stamps the device's entry with the time and changes nothing else; an absent id changes nothing. */
  lemma TouchStamps(crypto: Crypto, devices: Devices, id: Text, now: int)
    ensures var after := AfterCall(crypto, devices, Touch(id, now));
            && after.Keys == devices.Keys
            && (forall k :: k in devices && k != id ==> after[k] == devices[k])
            && (id in devices ==>
                  && after[id].lastSeen == now
                  && after[id].(lastSeen := devices[id].lastSeen) == devices[id])
  {}

  /**
   * Pairing a registered key again adds no entry and keeps the first pairing time; name, platform
   * and last sighting are the new ones, and other devices are untouched.
   */
  lemma RepairingRefreshes(crypto: Crypto, devices: Devices, key: seq<byte>, name: Text, platform: nat, now: int)
    requires StorableKey(crypto, key) && DeviceId(crypto, key) in devices
    ensures var after := AfterCall(crypto, devices, Insert(key, name, platform, now));
            var id := DeviceId(crypto, key);
            && after.Keys == devices.Keys
            && after[id] == StoredDevice(id, name, platform, crypto.encode64(key), devices[id].pairedAt, now)
            && forall k :: k in devices && k != id ==> after[k] == devices[k]
  {}

  /** Only `revoke` takes an id out, and only the id it names. */
  lemma OnlyRevokeRemoves(crypto: Crypto, devices: Devices, c: RegistryCall, id: Text)
    requires id in devices
    ensures id !in AfterCall(crypto, devices, c) <==> c == Revoke(id)
  {}

  ghost function RegistryMachine(crypto: Crypto): Machine<Devices, RegistryCall> {
    Machine((d: Devices, c: RegistryCall) => Reaches(crypto, d, c),
            (d: Devices, c: RegistryCall) => AfterCall(crypto, d, c))
  }

  /**
   * The registry after a crash at any instant of any run of calls: the one memory held right after
   * the last call whose write ended well, with every key loadable. No pairing and no revocation
   * that was answered Ok is lost.
   */
  lemma CrashedRegistryReloads(crypto: Crypto, codec: Codec<Devices>, d: Image, start: Devices,
                               calls: seq<Timed<RegistryCall>>, seen: Image)
    returns (k: nat)
    requires crypto.RoundTrips() && codec.RoundTrips() && RegistryOk(crypto, start)
    requires ReadJsonOr(codec, d, map[]) == Ok(start)
    requires Visible(codec, d, SavesOf(RegistryMachine(crypto), start, calls), seen)
    ensures Survives(RegistryMachine(crypto), start, calls,
                     seen == AfterSaves(codec, d, SavesOf(RegistryMachine(crypto), start, calls)), k)
    ensures RegistryOk(crypto, RunOf(RegistryMachine(crypto), start, calls[..k]))
    ensures ReadJsonOr(codec, seen, map[]) == Ok(RunOf(RegistryMachine(crypto), start, calls[..k]))
  {
    var inv := (d: Devices) => RegistryOk(crypto, d);
    forall d, c | RegistryOk(crypto, d) ensures RegistryOk(crypto, AfterCall(crypto, d, c)) {
      RegistryStepKeepsOk(crypto, d, c);
    }
    k := CrashedRunReloads(RegistryMachine(crypto), inv, codec, d, start, calls, seen, map[]);
  }

  // Listing.

  function Info(d: StoredDevice, connected: set<Text>): DeviceInfo {
    DeviceInfo(d.deviceId, d.name, d.platform, d.pairedAt, d.lastSeen, d.deviceId in connected)
  }

  /** The `pair.list_devices` payload: every device once, in key order, with live state layered on. */
  function ListDevices(devices: Devices, connected: set<Text>): seq<DeviceInfo> {
    var ks := SortedKeys(devices.Keys);
    seq(|ks|, i requires 0 <= i < |ks| => Info(devices[ks[i]], connected))
  }

  /** The listing names every registered device once, in key order, as stored, and as connected exactly if it is. */
  lemma ListShowsAll(devices: Devices, connected: set<Text>)
    requires forall id :: id in devices ==> devices[id].deviceId == id
    ensures var l := ListDevices(devices, connected);
            && (forall i :: 0 <= i < |l| ==>
                  var id := l[i].deviceId;
                  && id in devices
                  && l[i] == DeviceInfo(id, devices[id].name, devices[id].platform, devices[id].pairedAt,
                                        devices[id].lastSeen, id in connected))
            && (forall i, j :: 0 <= i < j < |l| ==>
                  l[i].deviceId != l[j].deviceId && LexLeq(l[i].deviceId, l[j].deviceId))
            && (forall id :: id in devices ==> exists i :: 0 <= i < |l| && l[i].deviceId == id)
  {
    var ks := SortedKeys(devices.Keys);
    var l := ListDevices(devices, connected);
    assert forall i :: 0 <= i < |l| ==> ks[i] in devices && l[i].deviceId == ks[i];
    forall id | id in devices ensures exists i :: 0 <= i < |l| && l[i].deviceId == id {
      assert id in ks;
      var i :| 0 <= i < |ks| && ks[i] == id;
      assert l[i].deviceId == id;
    }
  }

  /** The registry object. */
  class Registry {
    var devices: Devices
    const crypto: Crypto
    const disk: Disk
    const codec: Codec<Devices>

    constructor (crypto: Crypto, disk: Disk, codec: Codec<Devices>, devices: Devices)
      ensures this.crypto == crypto && this.disk == disk && this.codec == codec && this.devices == devices
    {
      this.crypto, this.disk, this.codec, this.devices := crypto, disk, codec, devices;
    }

    method Persist(w: Write) returns (ok: bool)
      modifies disk
      ensures ok <==> w.outcome == Persisted
      ensures disk.seen == old(disk.seen) + Instants(old(disk.Current()), codec.ser(devices), w)
      ensures disk.Current() == Settled(old(disk.Current()), codec.ser(devices), w)
    {
      ok := disk.WriteJson(codec.ser(devices), w);
    }

    ghost function DiskAfter(d: Image, before: Devices, c: RegistryCall, w: Write): Image {
      if Reaches(crypto, before, c) then Settled(d, codec.ser(AfterCall(crypto, before, c)), w) else d
    }

    ghost function DiskShows(d: Image, before: Devices, c: RegistryCall, w: Write): seq<Image> {
      if Reaches(crypto, before, c) then Instants(d, codec.ser(AfterCall(crypto, before, c)), w) else []
    }

    /** The disk went from `d`, having shown `shown`, through exactly what this call writes, if one was made. */
    ghost predicate Recorded(d: Image, shown: seq<Image>, before: Devices, w: Write, call: Option<RegistryCall>)
      reads disk
    {
      match call
      case None => disk.Current() == d && disk.seen == shown
      case Some(c) => disk.Current() == DiskAfter(d, before, c, w) && disk.seen == shown + DiskShows(d, before, c, w)
    }

    method InsertDevice(key: seq<byte>, name: Text, platform: nat, now: int, w: Write) returns (r: Result<Text, Error>)
      modifies this, disk
      ensures devices == AfterCall(crypto, old(devices), Insert(key, name, platform, now))
      ensures disk.Current() == DiskAfter(old(disk.Current()), old(devices), Insert(key, name, platform, now), w)
      ensures disk.seen
              == old(disk.seen) + DiskShows(old(disk.Current()), old(devices), Insert(key, name, platform, now), w)
      ensures r == if StorableKey(crypto, key) && w.outcome == Persisted then Ok(DeviceId(crypto, key)) else Err(Fault)
    {
      if |key| != PUBKEY_LEN || !crypto.validPoint(key) {
        return Err(Fault);
      }
      var id := DeviceId(crypto, key);
      var pairedAt := if id in devices then devices[id].pairedAt else now;
      devices := devices[id := StoredDevice(id, name, platform, crypto.encode64(key), pairedAt, now)];
      var ok := Persist(w);
      return if ok then Ok(id) else Err(Fault);
    }

    method RevokeDevice(id: Text, w: Write) returns (r: Result<bool, Error>)
      modifies this, disk
      ensures devices == AfterCall(crypto, old(devices), Revoke(id))
      ensures disk.Current() == DiskAfter(old(disk.Current()), old(devices), Revoke(id), w)
      ensures disk.seen == old(disk.seen) + DiskShows(old(disk.Current()), old(devices), Revoke(id), w)
      ensures r == if id !in old(devices) then Ok(false) else if w.outcome == Persisted then Ok(true) else Err(Fault)
    {
      var existed := id in devices;
      devices := devices - {id};
      if existed {
        var ok := Persist(w);
        if !ok {
          return Err(Fault);
        }
      }
      return Ok(existed);
    }

    method TouchDevice(id: Text, now: int, w: Write) returns (r: Result<(), Error>)
      modifies this, disk
      ensures devices == AfterCall(crypto, old(devices), Touch(id, now))
      ensures disk.Current() == DiskAfter(old(disk.Current()), old(devices), Touch(id, now), w)
      ensures disk.seen == old(disk.seen) + DiskShows(old(disk.Current()), old(devices), Touch(id, now), w)
      ensures r == if id in old(devices) && w.outcome != Persisted then Err(Fault) else Ok(())
    {
      if id in devices {
        devices := devices[id := devices[id].(lastSeen := now)];
        var ok := Persist(w);
        if !ok {
          return Err(Fault);
        }
      }
      return Ok(());
    }
  }
}
