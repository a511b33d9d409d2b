/** Matching the HAL's input devices to the kernel's (find_input_device_ids of power/nvpowerhal.cpp). */
module InputDevices {
  import opened CText

  const MAX_CHARS := 32

  /** `devId` is -1 until the device is found. */
  datatype InputDev = InputDev(devId: int, devName: string)

  /** strncmp over MAX_CHARS characters finds no difference. */
  predicate Same(a: string, b: string) {
    var (x, y) := (CStr(a), CStr(b));
    if |x| < MAX_CHARS || |y| < MAX_CHARS then x == y else x[..MAX_CHARS] == y[..MAX_CHARS]
  }

  /** `id` is the least of the first `n` kernel devices with that name, or -1 if there is none. */
  predicate IsIdOf(name: string, devices: seq<string>, n: nat, id: int)
    requires n <= |devices|
  {
    if id == -1 then forall k :: 0 <= k < n ==> !Same(devices[k], name)
    else 0 <= id < n && Same(devices[id], name) && forall k :: 0 <= k < id ==> !Same(devices[k], name)
  }

  /** What a run makes of one entry: an id already set stays, and names never change. */
  predicate Resolved(before: InputDev, after: InputDev, devices: seq<string>, n: nat)
    requires n <= |devices|
  {
    && after.devName == before.devName
    && (if before.devId != -1 then after == before else IsIdOf(before.devName, devices, n, after.devId))
  }

  ghost predicate AllResolved(before: seq<InputDev>, after: seq<InputDev>, devices: seq<string>) {
    |after| == |before| && forall j :: 0 <= j < |after| ==> Resolved(before[j], after[j], devices, |devices|)
  }

  /** `found` are the entries that this run has set. */
  ghost predicate SetHere(found: set<nat>, before: seq<InputDev>, now: seq<InputDev>)
    requires |before| == |now|
  {
    && (forall j :: j in found ==> j < |now| && before[j].devId == -1 && now[j].devId != -1)
    && (forall j :: 0 <= j < |now| && j !in found ==> now[j] == before[j])
  }

  /** The inner loop: kernel device `i` goes to every entry of that name which has none yet. */
  function Assigned(dev: InputDev, i: nat, name: string): InputDev {
    if dev.devId == -1 && Same(name, dev.devName) then dev.(devId := i) else dev
  }

  lemma AssignedResolves(before: InputDev, dev: InputDev, devices: seq<string>, i: nat)
    requires i < |devices| && Resolved(before, dev, devices, i)
    ensures Resolved(before, Assigned(dev, i, devices[i]), devices, i + 1)
  {
  }

  method AssignDevice(devs: array<InputDev>, cnt: nat, i: nat, name: string, ghost earlier: set<nat>)
    returns (count: nat, ghost found: set<nat>)
    requires cnt <= devs.Length && forall j :: j in earlier ==> j < cnt && devs[j].devId != -1
    modifies devs
    ensures forall j :: 0 <= j < cnt ==> devs[j] == Assigned(old(devs[j]), i, name)
    ensures earlier <= found && count == |found| - |earlier|
    ensures forall j :: j in found && j !in earlier ==> j < cnt && old(devs[j]).devId == -1 && devs[j].devId == i
    ensures forall j :: 0 <= j < devs.Length && j !in found ==> devs[j] == old(devs[j])
  {
    count, found := 0, earlier;
    for j := 0 to cnt
      invariant forall l :: 0 <= l < devs.Length ==>
                  devs[l] == if l < j then Assigned(old(devs[l]), i, name) else old(devs[l])
      invariant earlier <= found && count == |found| - |earlier| && forall l :: l in found && l !in earlier ==> l < j
      invariant forall l :: l in found && l !in earlier ==>
                  l < devs.Length && old(devs[l]).devId == -1 && devs[l].devId == i
      invariant forall l :: 0 <= l < devs.Length && l !in found ==> devs[l] == old(devs[l])
    {
      if devs[j].devId == -1 && Same(name, devs[j].devName) {
        count := count + 1;
        devs[j] := devs[j].(devId := i);
        found := found + {j};
      }
    }
  }

  /** The kernel's devices are numbered from 0 without gaps; `devices` are their names. The search is for the first
      `cnt` entries and stops early once as many were set. */
  method FindInputDeviceIds(devs: array<InputDev>, cnt: nat, devices: seq<string>)
    requires cnt <= devs.Length
    modifies devs
    ensures AllResolved(old(devs[..cnt]), devs[..cnt], devices) && devs[cnt..] == old(devs[cnt..])
    ensures forall j :: 0 <= j < cnt ==> devs[j].devName == old(devs[j].devName)
    ensures forall j :: 0 <= j < cnt && old(devs[j].devId) != -1 ==> devs[j].devId == old(devs[j].devId)
    ensures NoNuls(devices) ==>
              forall j :: 0 <= j < cnt && old(devs[j].devId) == -1 && '\0' !in old(devs[j].devName) ==>
                NamedBy(old(devs[j].devName), devices, devs[j].devId)
  {
    var i, count := 0, 0;
    ghost var before, rest := devs[..cnt], devs[cnt..];
    ghost var found: set<nat> := {};
    while i < |devices|
      invariant i <= |devices| && count == |found| && SetHere(found, before, devs[..cnt]) && devs[cnt..] == rest
      invariant forall j :: 0 <= j < cnt ==> Resolved(before[j], devs[j], devices, i)
    {
      hide Resolved, Same;
      ghost var now, all := devs[..cnt], devs[..];
      var more;
      ghost var earlier := found;
      more, found := AssignDevice(devs, cnt, i, devices[i], found);
      assert forall j :: cnt <= j < devs.Length ==> devs[j] == all[j];
      forall j | 0 <= j < cnt ensures Resolved(before[j], devs[j], devices, i + 1) {
        AssignedResolves(before[j], now[j], devices, i);
      }
      SetHereStep(earlier, found, before, now, devs[..cnt], i, devices[i]);
      count := count + more;
      i := i + 1;
      if count == cnt {
        EveryIndex(found, cnt);
        AllSet(found, before, devs[..cnt], devices, i);
        break;
      }
    }
    assert AllResolved(before, devs[..cnt], devices);
    ByNames(before, devs[..cnt], devices);
  }

  predicate NoNuls(names: seq<string>) {
    forall k :: 0 <= k < |names| ==> '\0' !in names[k]
  }

  /** `id` is that of the first kernel device with the name, or -1; of a name of 32 characters or more the first 32
      decide. */
  ghost predicate NamedBy(name: string, devices: seq<string>, id: int) {
    if |name| < 32 then
      if name in devices then 0 <= id < |devices| && devices[id] == name && name !in devices[..id] else id == -1
    else if exists k :: 0 <= k < |devices| && name[..32] <= devices[k] then
      && 0 <= id < |devices| && name[..32] <= devices[id]
      && forall k :: 0 <= k < id ==> !(name[..32] <= devices[k])
    else id == -1
  }

  lemma ByNames(before: seq<InputDev>, after: seq<InputDev>, devices: seq<string>)
    requires AllResolved(before, after, devices)
    ensures forall j :: 0 <= j < |before| ==>
              && after[j].devName == before[j].devName && (before[j].devId != -1 ==> after[j].devId == before[j].devId)
              && (NoNuls(devices) && before[j].devId == -1 && '\0' !in before[j].devName ==>
                    NamedBy(before[j].devName, devices, after[j].devId))
  {
    hide NamedBy, IsIdOf;
    forall j | 0 <= j < |before| && NoNuls(devices) && before[j].devId == -1 && '\0' !in before[j].devName
      ensures NamedBy(before[j].devName, devices, after[j].devId)
    {
      ResolvedByName(before[j], after[j], devices);
    }
  }

  lemma {:induction false} NoNulIsAll(s: string)
    requires '\0' !in s
    ensures CStr(s) == s
  {
    if s != [] {
      assert s[0] in s && forall c :: c in s[1..] ==> c in s;
      NoNulIsAll(s[1..]);
    }
  }

  lemma SameNames(device: string, name: string)
    requires '\0' !in device && '\0' !in name
    ensures Same(device, name) <==> if |name| < 32 then device == name else name[..32] <= device
  {
    NoNulIsAll(device);
    NoNulIsAll(name);
    hide CStr;
    if |name| >= 32 && |device| >= 32 { assert name[..32] <= device <==> device[..32] == name[..32]; }
  }

  /** Names decide: what an unset entry ends with. */
  lemma ResolvedByName(before: InputDev, after: InputDev, devices: seq<string>)
    requires Resolved(before, after, devices, |devices|)
    requires before.devId == -1 && NoNuls(devices) && '\0' !in before.devName
    ensures after.devName == before.devName && NamedBy(before.devName, devices, after.devId)
  {
    forall k | 0 <= k < |devices|
      ensures Same(devices[k], before.devName) <==>
                if |before.devName| < 32 then devices[k] == before.devName else before.devName[..32] <= devices[k]
    {
      SameNames(devices[k], before.devName);
    }
    hide Same;
  }

  /** The board's map: each entry gets the first kernel device of exactly its name or stays -1, so "touch" never gets
      the device of "touch_fusion". */
  lemma BoardMap(after: seq<InputDev>, devices: seq<string>)
    requires NoNuls(devices)
    requires AllResolved([InputDev(-1, "raydium_ts\n"), InputDev(-1, "touch\n"), InputDev(-1, "touch_fusion\n")], after,
                         devices)
    ensures |after| == 3
    ensures NamedBy("raydium_ts\n", devices, after[0].devId) && NamedBy("touch\n", devices, after[1].devId)
    ensures NamedBy("touch_fusion\n", devices, after[2].devId)
    ensures forall i, j :: 0 <= i < j < 3 && after[i].devId == after[j].devId ==> after[i].devId == -1
  {
    hide Resolved;
    var names := ["raydium_ts\n", "touch\n", "touch_fusion\n"];
    var before := [InputDev(-1, names[0]), InputDev(-1, names[1]), InputDev(-1, names[2])];
    forall i | 0 <= i < 3 ensures NamedBy(names[i], devices, after[i].devId) {
      assert Resolved(before[i], after[i], devices, |devices|);
      ResolvedByName(before[i], after[i], devices);
    }
    assert |names[0]| == 11 && |names[1]| == 6 && |names[2]| == 13;
  }

  lemma SetHereStep(earlier: set<nat>, found: set<nat>, before: seq<InputDev>, now: seq<InputDev>, next: seq<InputDev>,
                    i: nat, name: string)
    requires |before| == |now| == |next| && SetHere(earlier, before, now) && earlier <= found
    requires forall j :: 0 <= j < |now| ==> next[j] == Assigned(now[j], i, name)
    requires forall j :: j in found && j !in earlier ==> j < |now| && now[j].devId == -1 && next[j].devId == i
    requires forall j :: 0 <= j < |now| && j !in found ==> next[j] == now[j]
    ensures SetHere(found, before, next)
  {
  }

  /** Once every entry was set in this run, the devices not looked at do not matter. */
  lemma AllSet(found: set<nat>, before: seq<InputDev>, now: seq<InputDev>, devices: seq<string>, i: nat)
    requires |before| == |now| && i <= |devices| && SetHere(found, before, now)
    requires forall j :: 0 <= j < |now| ==> Resolved(before[j], now[j], devices, i)
    requires forall j :: 0 <= j < |now| ==> j in found
    ensures AllResolved(before, now, devices)
  {
  }

  lemma {:induction false} EveryIndex(s: set<nat>, n: nat)
    requires |s| == n && forall j :: j in s ==> j < n
    ensures forall j :: 0 <= j < n ==> j in s
  {
    if n > 0 {
      if n - 1 in s {
        EveryIndex(s - {n - 1}, n - 1);
      } else {
        var j :| j in s;
        TooSmall(s, n - 1);
      }
    }
  }

  lemma {:induction false} TooSmall(s: set<nat>, n: nat)
    requires forall j :: j in s ==> j < n
    ensures |s| <= n
  {
    if n > 0 {
      TooSmall(s - {n - 1}, n - 1);
    } else {
      assert s == {};
    }
  }

  /** A second run over the same devices changes nothing. */
  lemma SecondRunChangesNothing(before: seq<InputDev>, after: seq<InputDev>, again: seq<InputDev>, devices: seq<string>)
    requires AllResolved(before, after, devices) && AllResolved(after, again, devices)
    ensures again == after
  {
    forall j | 0 <= j < |after| ensures again[j] == after[j] {
      assert Resolved(before[j], after[j], devices, |devices|) && Resolved(after[j], again[j], devices, |devices|);
    }
  }

  /** From all -1, each entry holds the least matching index or -1, and nothing else fits that description. */
  lemma ResolvedOnce(before: seq<InputDev>, a: seq<InputDev>, b: seq<InputDev>, devices: seq<string>)
    requires AllResolved(before, a, devices) && AllResolved(before, b, devices)
    ensures a == b
  {
    forall j | 0 <= j < |a| ensures a[j] == b[j] {
      assert Resolved(before[j], a[j], devices, |devices|) && Resolved(before[j], b[j], devices, |devices|);
    }
  }
}
