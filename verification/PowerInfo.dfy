/** The HAL's state and its entry points (power/nvpowerhal.cpp), over the poker's objects: opening, the boost at
    start-up, and hints. */
module PowerHal {
  import opened Wrappers
  import opened CText
  import opened PokerEngine
  import EngineInvariant
  import opened PokerObjects
  import opened Barriers
  import opened RateLimit
  import opened PowerHints
  import F = Frequencies
  import D = InputDevices

  /** Pushes one after the other at one instant. */
  function PushAll(s: State, evs: seq<Event>): State
    decreases |evs|
  {
    if evs == [] then s else Push(PushAll(s, evs[..|evs| - 1]), evs[|evs| - 1])
  }

  /** The hints whose intervals are set when the HAL is opened. */
  const LIMITED := {Interaction, CpuBoost, Audio, LowPower}

  /** What opening reads of the kernel: its input devices, three files, and whether the fan's file is there. */
  datatype Sysfs = Sysfs(devices: seq<string>, frequencies: string, lpMax: string, cpu0Max: string, fanCap: bool)

  /** Without a map, or with a count of 0, the kernel's devices are counted; otherwise those of the map are found. */
  ghost predicate DevicesFound(map0: Option<seq<D.InputDev>>, cnt0: nat, map1: Option<seq<D.InputDev>>, cnt1: nat,
                               devices: seq<string>) {
    match map0
    case None => map1 == None && cnt1 == |devices|
    case Some(devs0) =>
      map1.Some? &&
      var devs1 := map1.value;
      if cnt0 == 0 then cnt1 == |devices| && devs1 == devs0
      else && cnt1 == cnt0 <= |devs0| == |devs1|
           && D.AllResolved(devs0[..cnt0], devs1[..cnt0], devices) && devs1[cnt0..] == devs0[cnt0..]
  }

  class PowerInfo {
    var poker: PokeHandler?
    var availableFrequencies: array<int>
    var numAvailableFrequencies: int
    var lpMaxFrequency: int
    var interactionBoostFrequency: int
    var animationBoostFrequency: int
    var cpu0MaxFrequency: int
    var ftraceEnable: bool
    var inputDevs: array?<D.InputDev>
    var inputCnt: nat
    var hintTime: map<Hint, nat>
    var hintInterval: map<Hint, nat>
    var fan: bool

    /** Zeroed memory: no poker, no map of input devices, no hint so far. */
    constructor ()
      ensures poker == null && inputDevs == null && inputCnt == 0 && hintTime == map[] && hintInterval == map[]
      ensures availableFrequencies.Length == 0
    {
      poker, inputDevs, inputCnt, hintTime, hintInterval := null, null, 0, map[], map[];
      availableFrequencies, numAvailableFrequencies, fan, ftraceEnable := new int[0], 0, false, false;
    }

    /** The count does not go beyond the map of input devices, if there is one. */
    ghost predicate MapCovered()
      reads this
    {
      inputDevs != null ==> inputCnt <= inputDevs.Length
    }

    ghost function Map(): Option<seq<D.InputDev>>
      reads this, inputDevs
    {
      if inputDevs == null then None else Some(inputDevs[..])
    }

    ghost function Chosen(): Boosts
      reads this
    {
      Boosts(interactionBoostFrequency, animationBoostFrequency)
    }

    function LastHint(hint: Hint): nat
      reads this
    {
      if hint in hintTime then hintTime[hint] else 0
    }

    function IntervalOf(hint: Hint): nat
      reads this
    {
      if hint in hintInterval then hintInterval[hint] else 0
    }

    /** The poker is there and the intervals are set. */
    ghost predicate Opened()
      reads this, poker
    {
      poker != null && poker.Valid() && forall h :: IntervalOf(h) == Interval(h)
    }

    // ---------- Opening ----------

    /** All but the last token are in the table, the two maxima are read, and each boost is the least listed frequency
        at its threshold or the maximum of the low-power cluster. */
    ghost predicate FrequenciesRead(files: Sysfs)
      reads this`availableFrequencies, this`numAvailableFrequencies, this`lpMaxFrequency, this`cpu0MaxFrequency,
        this`interactionBoostFrequency, this`animationBoostFrequency, availableFrequencies
    {
      && numAvailableFrequencies == |F.Tokens(files.frequencies)| - 1
      && availableFrequencies.Length == (if numAvailableFrequencies < 0 then 0 else numAvailableFrequencies)
      && availableFrequencies[..] == F.Values(F.Tokens(files.frequencies))[..availableFrequencies.Length]
      && (forall v :: files.lpMax == Decimal(v) + "\n" && |files.lpMax| <= 256 ==> lpMaxFrequency == v)
      && (forall v :: files.cpu0Max == Decimal(v) + "\n" && |files.cpu0Max| <= 256 ==> cpu0MaxFrequency == v)
      && F.IsFirst(availableFrequencies[..], 1326000, lpMaxFrequency, interactionBoostFrequency)
      && F.IsFirst(availableFrequencies[..], 1024000, lpMaxFrequency, animationBoostFrequency)
      && (F.Ascending(availableFrequencies[..]) ==>
            && F.IsBoost(availableFrequencies[..], 1326000, lpMaxFrequency, interactionBoostFrequency)
            && F.IsBoost(availableFrequencies[..], 1024000, lpMaxFrequency, animationBoostFrequency))
    }

    /** The table has a last entry if and only if the list has two tokens at least. */
    method CommonPowerOpen(kernel: Kernel, now: int, files: Sysfs)
      requires |files.frequencies| < 256 && '\0' !in files.frequencies && hintInterval.Keys <= LIMITED
      requires MapCovered()
      modifies this, inputDevs
      ensures Opened() && fresh(poker) && fresh(poker.looper) && hintTime == old(hintTime)
      ensures poker.kernel == kernel && poker.mKey == 0 && poker.Abs() == Init(now).(fds := kernel.fds)
      ensures hintInterval.Keys <= LIMITED && fan == files.fanCap && ftraceEnable == old(ftraceEnable)
      ensures inputDevs == old(inputDevs)
      ensures inputCnt == if old(inputDevs == null || inputCnt == 0) then |files.devices| else old(inputCnt)
      ensures DevicesFound(old(Map()), old(inputCnt), Map(), inputCnt, files.devices)
      ensures FrequenciesRead(files)
      ensures 0 <= numAvailableFrequencies - 1 < availableFrequencies.Length <==> |F.Tokens(files.frequencies)| >= 2
    {
      hide F.Tokens, FrequenciesRead, DevicesFound, Init, PokeHandler.Abs, PokeHandler.Valid;
      FindInputDevices(files.devices);
      StartPoker(kernel, now);
      ReadFrequencies(files);
      SetIntervals();
      fan := files.fanCap;
    }

    method SetIntervals()
      requires hintInterval.Keys <= LIMITED
      modifies this`hintInterval
      ensures hintInterval.Keys <= LIMITED && forall h :: IntervalOf(h) == Interval(h)
    {
      hintInterval := hintInterval[Interaction := 90000][CpuBoost := 500000][Audio := 500000][LowPower := 0];
    }

    method FindInputDevices(devices: seq<string>)
      requires MapCovered()
      modifies this`inputCnt, inputDevs
      ensures inputDevs == old(inputDevs)
      ensures inputCnt == if old(inputDevs == null || inputCnt == 0) then |devices| else old(inputCnt)
      ensures DevicesFound(old(Map()), old(inputCnt), Map(), inputCnt, devices)
    {
      hide D.AllResolved;
      if inputDevs == null || inputCnt == 0 {
        inputCnt := |devices|;
      } else {
        D.FindInputDeviceIds(inputDevs, inputCnt, devices);
      }
    }

    method StartPoker(kernel: Kernel, now: int)
      modifies this`poker
      ensures poker != null && fresh(poker) && fresh(poker.looper) && poker.Valid() && poker.kernel == kernel
      ensures poker.mKey == 0 && poker.Abs() == Init(now).(fds := kernel.fds)
    {
      var readyToRun := new Barrier();
      poker := new PokeHandler(kernel, now, readyToRun);
      var through, sleeps := readyToRun.Wait([]);
    }

    method ReadFrequencies(files: Sysfs)
      requires |files.frequencies| < 256 && '\0' !in files.frequencies
      modifies this`availableFrequencies, this`numAvailableFrequencies, this`lpMaxFrequency, this`cpu0MaxFrequency,
        this`interactionBoostFrequency, this`animationBoostFrequency
      ensures FrequenciesRead(files)
      ensures 0 <= numAvailableFrequencies - 1 < availableFrequencies.Length <==> |F.Tokens(files.frequencies)| >= 2
    {
      hide F.Tokens, F.IsBoost, Decimal;
      var buf;
      numAvailableFrequencies, availableFrequencies, buf := F.LoadFrequencies(files.frequencies);
      lpMaxFrequency := ReadNumber(files.lpMax, buf);
      interactionBoostFrequency := F.ChooseBoost(availableFrequencies, F.INTERACTION_THRESHOLD, lpMaxFrequency);
      animationBoostFrequency := F.ChooseBoost(availableFrequencies, F.ANIMATION_THRESHOLD, lpMaxFrequency);
      cpu0MaxFrequency := ReadNumber(files.cpu0Max, buf);
    }

    static method ReadNumber(content: string, buf: array<char>) returns (n: int)
      modifies buf
      ensures forall v :: content == Decimal(v) + "\n" && |content| <= buf.Length ==> n == v
    {
      hide Atoi, CStr, Decimal;
      F.SysfsRead(content, buf);
      n := Atoi(CStr(buf[..]));
      forall v | content == Decimal(v) + "\n" && |content| <= buf.Length ensures n == v {
        assert content <= buf[..];
        LineReads(v, content, buf[..]);
      }
    }

    /** Opens, and asks for the last listed frequency for 15 seconds; the list must have one. */
    method CommonPowerInit(kernel: Kernel, now: int, files: Sysfs, ftrace: bool)
      requires |files.frequencies| < 256 && '\0' !in files.frequencies && hintInterval.Keys <= LIMITED
      requires |F.Tokens(files.frequencies)| >= 2 && MapCovered()
      modifies this, inputDevs
      ensures Opened() && fresh(poker) && fresh(poker.looper) && hintTime == old(hintTime)
              && availableFrequencies.Length == numAvailableFrequencies > 0
      ensures FrequenciesRead(files)
      ensures inputDevs == old(inputDevs) && fan == files.fanCap && ftraceEnable == ftrace
      ensures DevicesFound(old(Map()), old(inputCnt), Map(), inputCnt, files.devices)
      ensures poker.Abs() == Push(Init(now).(fds := kernel.fds),
                                  OpenTimed("/dev/constraint_cpu_freq",
                                            Prioritized(35, -1, availableFrequencies[numAvailableFrequencies - 1]),
                                            15000000000))
      ensures forall freqs :: freqs != [] && files.frequencies == F.Render(freqs) ==>
                poker.Abs() == Push(Init(now).(fds := kernel.fds),
                                    OpenTimed("/dev/constraint_cpu_freq", Prioritized(35, -1, freqs[|freqs| - 1]),
                                              15000000000))
    {
      hide F.Tokens, F.Render, FrequenciesRead, DevicesFound, Push, PokeHandler.Abs, PokeHandler.Valid, Interval;
      CommonPowerOpen(kernel, now, files);
      ftraceEnable := ftrace;
      LastOfPrinted(files);
      poker.RequestPmQosTimed(CPU_FREQ,
        Prioritized(BOOST_PRIORITY, DEFAULT_VALUE, availableFrequencies[numAvailableFrequencies - 1]), 15000000000);
    }

    lemma LastOfPrinted(files: Sysfs)
      requires FrequenciesRead(files) && 0 < numAvailableFrequencies
      ensures numAvailableFrequencies == availableFrequencies.Length
      ensures forall freqs :: freqs != [] && files.frequencies == F.Render(freqs) ==>
                availableFrequencies[numAvailableFrequencies - 1] == freqs[|freqs| - 1]
    {
      hide F.Tokens, F.Render, F.IsBoost, F.Values;
      forall freqs | freqs != [] && files.frequencies == F.Render(freqs)
        ensures availableFrequencies[numAvailableFrequencies - 1] == freqs[|freqs| - 1]
      {
        F.ListRoundTrip(freqs);
        assert availableFrequencies[..] == freqs;
      }
    }

    /** The structure may have been opened before, when there was no map yet: what was counted then does not matter
        now. */
    method ShieldPowerInit(kernel: Kernel, now: int, files: Sysfs, ftrace: bool, devs: array<D.InputDev>)
      requires |files.frequencies| < 256 && '\0' !in files.frequencies && hintInterval.Keys <= LIMITED
      requires |F.Tokens(files.frequencies)| >= 2 && devs.Length > 0
      modifies this, devs
      ensures Opened() && fresh(poker) && fresh(poker.looper) && hintTime == old(hintTime)
              && availableFrequencies.Length == numAvailableFrequencies > 0
      ensures FrequenciesRead(files) && fan == files.fanCap && ftraceEnable == ftrace
      ensures inputDevs == devs && inputCnt == devs.Length && D.AllResolved(old(devs[..]), devs[..], files.devices)
      ensures poker.Abs() == Push(Init(now).(fds := kernel.fds),
                                  OpenTimed("/dev/constraint_cpu_freq",
                                            Prioritized(35, -1, availableFrequencies[numAvailableFrequencies - 1]),
                                            15000000000))
    {
      hide F.Tokens, F.Render, D.AllResolved, Push, FrequenciesRead, PokeHandler.Abs, PokeHandler.Valid, Opened;
      inputDevs, inputCnt := devs, devs.Length;
      CommonPowerInit(kernel, now, files, ftrace);
      assert devs[..][..inputCnt] == devs[..] && old(devs[..][..devs.Length]) == old(devs[..]);
    }

    // ---------- Hints ----------

    method CheckHint(hint: Hint) returns (t: Option<nat>)
      requires Opened() && poker.looper.now >= 0
      ensures t == if hint.Invalid? || !Passes(LastHint(hint), Interval(hint), Micros(poker.looper.now)) then None
                   else Some(Micros(poker.looper.now))
      ensures var (last, time) := (LastHint(hint), poker.looper.now / 1000);
              match hint
              case Invalid(_) => t == None
              case Interaction => t == if last != 0 && time < last + 90000 then None else Some(time)
              case CpuBoost => t == if last != 0 && time < last + 500000 then None else Some(time)
              case Audio => t == if last != 0 && time < last + 500000 then None else Some(time)
              case _ => t == Some(time)
    {
      if hint.Invalid? { return None; }
      var time := poker.looper.now / 1000;
      if LastHint(hint) != 0 && IntervalOf(hint) != 0 && time - LastHint(hint) < IntervalOf(hint) { return None; }
      return Some(time);
    }

    /** The k-th request of a hint. */
    method Request(node: string, command: Command, timeout: int, ghost s: State, ghost evs: seq<Event>, ghost k: nat)
      requires Opened() && poker.mKey < 0x7FFF_FFFF && k < |evs|
      requires poker.Abs() == PushAll(s, evs[..k]) && evs[k] == OpenTimed(node, command, timeout)
      modifies poker`mKey, poker`mQueuedEvents, poker`log, poker.looper
      ensures Opened() && poker.Abs() == PushAll(s, evs[..k + 1])
      ensures poker.mKey == old(poker.mKey) + 1
    {
      hide Push;
      poker.RequestPmQosTimed(node, command, timeout);
      assert evs[..k + 1][..k] == evs[..k];
    }

    method BoostForInteraction()
      requires Opened() && poker.mKey <= 0x7FFF_FFFF - 5
      modifies poker`mKey, poker`mQueuedEvents, poker`log, poker.looper
      ensures Opened() && poker.Abs() == PushAll(old(poker.Abs()), Leases(Interaction, Chosen(), false))
    {
      hide Push, PushAll, PokeHandler.Abs;
      ghost var s, evs := poker.Abs(), Leases(Interaction, Chosen(), false);
      StartOfAll(s, evs);
      Request(CPU_FREQ, Prioritized(BOOST_PRIORITY, DEFAULT_VALUE, interactionBoostFrequency), 100000000, s, evs, 0);
      Request(ONLINE_CPUS, Prioritized(BOOST_PRIORITY, DEFAULT_VALUE, 2), 2000000000, s, evs, 1);
      Request(CPU_FREQ, Prioritized(BOOST_PRIORITY, DEFAULT_VALUE, animationBoostFrequency), 2000000000, s, evs, 2);
      Request(GPU_FREQ, Prioritized(BOOST_PRIORITY, DEFAULT_VALUE, 180000), 2000000000, s, evs, 3);
      Request(EMC_FREQ_MIN, Plain(396000), 2000000000, s, evs, 4);
      assert evs[..5] == evs;
    }

    method BoostCpu()
      requires Opened() && poker.mKey <= 0x7FFF_FFFF - 5
      modifies poker`mKey, poker`mQueuedEvents, poker`log, poker.looper
      ensures Opened() && poker.Abs() == PushAll(old(poker.Abs()), Leases(CpuBoost, Chosen(), false))
    {
      hide Push, PushAll, PokeHandler.Abs;
      ghost var s, evs := poker.Abs(), Leases(CpuBoost, Chosen(), false);
      StartOfAll(s, evs);
      Request(CPU_FREQ, Prioritized(BOOST_PRIORITY, DEFAULT_VALUE, INT_MAX), 1500000000, s, evs, 0);
      Request(ONLINE_CPUS, Prioritized(BOOST_PRIORITY, DEFAULT_VALUE, 2), 1500000000, s, evs, 1);
      Request(GPU_FREQ, Prioritized(BOOST_PRIORITY, DEFAULT_VALUE, 180000), 1500000000, s, evs, 2);
      Request(EMC_FREQ_MIN, Plain(792000), 1500000000, s, evs, 3);
      assert evs[..4] == evs;
    }

    method LimitPower(data: bool)
      requires Opened() && poker.mKey <= 0x7FFF_FFFF - 5
      modifies poker`mKey, poker`mQueuedEvents, poker`log, poker.looper
      ensures Opened() && poker.Abs() == PushAll(old(poker.Abs()), Leases(LowPower, Chosen(), data))
    {
      hide Push, PushAll, PokeHandler.Abs;
      ghost var s, evs := poker.Abs(), Leases(LowPower, Chosen(), data);
      StartOfAll(s, evs);
      Request(MAX_CPU_FREQ, Prioritized(BOOST_PRIORITY, DEFAULT_VALUE, if data then 1020000 else INT_MAX),
          1000000000, s, evs, 0);
      Request(MAX_ONLINE_CPUS, Prioritized(BOOST_PRIORITY, DEFAULT_VALUE, if data then 1 else INT_MAX), 1000000000,
          s, evs, 1);
      assert evs[..2] == evs;
    }

    /** A hint that does not pass leaves everything as it is; one that does pushes its constraints in order and
        notes the time of its check. */
    method CommonPowerHint(hint: Hint, data: bool)
      requires Opened() && poker.looper.now >= 0 && poker.mKey <= 0x7FFF_FFFF - 5
      modifies this`hintTime, poker`mKey, poker`mQueuedEvents, poker`log, poker.looper
      ensures Opened()
      ensures var now := Micros(old(poker.looper.now));
              if hint.Invalid? || !Passes(old(LastHint(hint)), Interval(hint), now)
              then poker.Abs() == old(poker.Abs()) && hintTime == old(hintTime)
              else poker.Abs() == PushAll(old(poker.Abs()), Leases(hint, Chosen(), data))
                   && hintTime == old(hintTime)[hint := now]
      ensures var (s, s') := (old(poker.Abs()), poker.Abs());
              var (last, time) := (old(LastHint(hint)), old(poker.looper.now) / 1000);
              match hint
              case Invalid(_) => s' == s && hintTime == old(hintTime)
              case Interaction =>
                if last != 0 && time < last + 90000 then s' == s && hintTime == old(hintTime)
                else hintTime == old(hintTime)[hint := time] && Asked(s, s', [
                  OpenTimed("/dev/constraint_cpu_freq", Prioritized(35, -1, interactionBoostFrequency), 100000000),
                  OpenTimed("/dev/constraint_online_cpus", Prioritized(35, -1, 2), 2000000000),
                  OpenTimed("/dev/constraint_cpu_freq", Prioritized(35, -1, animationBoostFrequency), 2000000000),
                  OpenTimed("/dev/constraint_gpu_freq", Prioritized(35, -1, 180000), 2000000000),
                  OpenTimed("/dev/emc_freq_min", Plain(396000), 2000000000)])
              case CpuBoost =>
                if last != 0 && time < last + 500000 then s' == s && hintTime == old(hintTime)
                else hintTime == old(hintTime)[hint := time] && Asked(s, s', [
                  OpenTimed("/dev/constraint_cpu_freq", Prioritized(35, -1, 2147483647), 1500000000),
                  OpenTimed("/dev/constraint_online_cpus", Prioritized(35, -1, 2), 1500000000),
                  OpenTimed("/dev/constraint_gpu_freq", Prioritized(35, -1, 180000), 1500000000),
                  OpenTimed("/dev/emc_freq_min", Plain(792000), 1500000000)])
              case Audio =>
                if last != 0 && time < last + 500000 then s' == s && hintTime == old(hintTime)
                else hintTime == old(hintTime)[hint := time] && Asked(s, s', [
                  OpenTimed("/dev/constraint_cpu_freq", Prioritized(35, -1, 512000), 1000000000)])
              case LowPower =>
                hintTime == old(hintTime)[hint := time] && Asked(s, s', [
                  OpenTimed("/dev/cpu_freq_max", Prioritized(35, -1, if data then 1020000 else 2147483647), 1000000000),
                  OpenTimed("/dev/max_online_cpus", Prioritized(35, -1, if data then 1 else 2147483647), 1000000000)])
              case _ => hintTime == old(hintTime)[hint := time] && s' == s
    {
      hide Push, PushAll, Asked, PokeHandler.Abs;
      ghost var s := poker.Abs();
      var t := CheckHint(hint);
      if t.None? { return; }
      match hint {
        case Interaction => BoostForInteraction();
        case CpuBoost => BoostCpu();
        case Audio =>
          RequestOnly(CPU_FREQ, Prioritized(BOOST_PRIORITY, DEFAULT_VALUE, 512000), 1000000000);
        case LowPower => LimitPower(data);
        case _ =>
      }
      hintTime := hintTime[hint := t.value];
      NoPushes(s);
      PushAllAsks(s, Leases(hint, Chosen(), data));
    }

    method RequestOnly(node: string, command: Command, timeout: int)
      requires Opened() && poker.mKey < 0x7FFF_FFFF
      modifies poker`mKey, poker`mQueuedEvents, poker`log, poker.looper
      ensures Opened() && poker.Abs() == PushAll(old(poker.Abs()), [OpenTimed(node, command, timeout)])
    {
      ghost var s, evs := poker.Abs(), [OpenTimed(node, command, timeout)];
      StartOfAll(s, evs);
      Request(node, command, timeout, s, evs, 0);
      assert evs[..1] == evs;
    }
  }

  lemma LineReads(v: int, line: string, s: seq<char>)
    requires line == Decimal(v) + "\n" && line <= s
    ensures Atoi(CStr(s)) == v
  {
    hide Atoi, CStr, Decimal;
    F.NumberOverLeftovers(v, s[|line|..]);
    assert s == line + s[|line|..];
  }

  /** `m'` is `m` with the entries `vs` added, one after the other from `from` on. */
  ghost predicate Filed<V(!new)>(m: map<nat, V>, m': map<nat, V>, from: nat, vs: seq<V>) {
    && (forall k :: from <= k < from + |vs| ==> k in m' && m'[k] == vs[k - from])
    && (forall k :: k < from || k >= from + |vs| ==> (k in m' <==> k in m) && (k in m ==> m'[k] == m[k]))
  }

  /** Messages for the `n` keys from `from` on, due at `now`, have been added. */
  ghost predicate Posted(q: seq<Message>, q': seq<Message>, now: int, from: nat, n: nat) {
    forall m :: m in q' <==> m in q || (m.due == now && from <= m.key < from + n)
  }

  /** `evs` are pushed between `s` and `s'`, all at this instant: under the next keys, in order, each is on record and
      pending, with its message in the queue. Nothing else changes. */
  ghost predicate Asked(s: State, s': State, evs: seq<Event>) {
    && s'.nextKey == s.nextKey + |evs|
    && Filed(s.log.history, s'.log.history, s.nextKey, seq(|evs|, i requires 0 <= i < |evs| => Pushed(evs[i], s.now)))
    && Filed(s.table, s'.table, s.nextKey, evs) && Posted(s.queue, s'.queue, s.now, s.nextKey, |evs|)
    && s' == s.(nextKey := s'.nextKey, table := s'.table, queue := s'.queue,
                log := s.log.(history := s'.log.history))
  }

  lemma {:induction false} PushAllAsks(s: State, evs: seq<Event>)
    ensures Asked(s, PushAll(s, evs), evs)
    decreases |evs|
  {
    hide Asked, Push;
    if evs == [] {
      AskedNone(s);
    } else {
      var n := |evs| - 1;
      PushAllAsks(s, evs[..n]);
      OneMoreAsked(s, PushAll(s, evs[..n]), evs[..n], evs[n]);
      assert evs[..n] + [evs[n]] == evs;
    }
  }

  lemma AskedNone(s: State)
    ensures Asked(s, s, [])
  {
  }

  lemma OneMoreFiled<V(!new)>(m: map<nat, V>, m': map<nat, V>, from: nat, vs: seq<V>, v: V)
    requires Filed(m, m', from, vs)
    ensures Filed(m, m'[from + |vs| := v], from, vs + [v])
  {
  }

  lemma OneMorePosted(q: seq<Message>, q': seq<Message>, now: int, from: nat, n: nat)
    requires Posted(q, q', now, from, n)
    ensures Posted(q, Insert(q', Message(now, from + n)), now, from, n + 1)
  {
    EngineInvariant.InsertMembers(q', Message(now, from + n));
    hide Insert;
  }

  lemma OneMoreAsked(s: State, s': State, evs: seq<Event>, ev: Event)
    requires Asked(s, s', evs)
    ensures Asked(s, Push(s', ev), evs + [ev])
  {
    var stamped := seq(|evs|, i requires 0 <= i < |evs| => Pushed(evs[i], s.now));
    var all := evs + [ev];
    assert seq(|all|, i requires 0 <= i < |all| => Pushed(all[i], s.now)) == stamped + [Pushed(ev, s.now)];
    OneMoreFiled(s.log.history, s'.log.history, s.nextKey, stamped, Pushed(ev, s.now));
    OneMoreFiled(s.table, s'.table, s.nextKey, evs, ev);
    OneMorePosted(s.queue, s'.queue, s.now, s.nextKey, |evs|);
    hide Filed, Posted, Insert;
  }

  lemma NoPushes(s: State)
    ensures PushAll(s, []) == s
  {
  }

  lemma StartOfAll(s: State, evs: seq<Event>)
    ensures PushAll(s, evs[..0]) == s
  {
  }

  // ---------- The method is a run of the hint machine ----------

  function Pushes(n: nat): seq<HalStep> {
    if n == 0 then [End] else [PushNext] + Pushes(n - 1)
  }

  /** From the k-th push on, the machine makes the remaining pushes and notes the time. */
  lemma {:induction false} PushesRun(hal: Hal, s: State, evs: seq<Event>, k: nat)
    requires hal.call.Some? && evs == Leases(hal.call.value.hint, hal.boosts, hal.call.value.data)
    requires k <= |evs| && hal.call.value.next == k && hal.engine == PushAll(s, evs[..k])
    ensures HalFeasible(hal, Pushes(|evs| - k))
    ensures var end := HalExecute(hal, Pushes(|evs| - k));
            && end.engine == PushAll(s, evs) && end.call == None
            && end.hintTime == hal.hintTime[hal.call.value.hint := hal.call.value.t]
    decreases |evs| - k
  {
    hide Leases, Push, PushAll;
    if k == |evs| {
      assert evs[..k] == evs;
      EndRuns(hal);
    } else {
      OneMore(s, evs, k);
      PushesRun(DoPushNext(hal), s, evs, k + 1);
      PushRuns(hal, Pushes(|evs| - (k + 1)));
    }
  }

  lemma EndRuns(hal: Hal)
    requires HalEnabled(hal, End)
    ensures HalFeasible(hal, Pushes(0)) && HalExecute(hal, Pushes(0)) == DoEnd(hal)
  {
    assert Pushes(0)[1..] == [];
    assert HalFeasible(DoEnd(hal), []);
  }

  lemma PushRuns(hal: Hal, rest: seq<HalStep>)
    requires HalEnabled(hal, PushNext) && HalFeasible(DoPushNext(hal), rest)
    ensures HalFeasible(hal, [PushNext] + rest)
    ensures HalExecute(hal, [PushNext] + rest) == HalExecute(DoPushNext(hal), rest)
  {
    hide DoPushNext;
    assert ([PushNext] + rest)[1..] == rest;
  }

  lemma OneMore(s: State, evs: seq<Event>, k: nat)
    requires k < |evs|
    ensures PushAll(s, evs[..k + 1]) == Push(PushAll(s, evs[..k]), evs[k])
  {
    assert evs[..k + 1][..k] == evs[..k];
  }

  /** One uninterrupted call, in the machine: what CommonPowerHint does to the poker and to hintTime. */
  lemma CallIsARun(hal: Hal, h: Hint, data: bool)
    requires hal.call == None
    ensures var evs := Leases(h, hal.boosts, data);
            var steps := [Begin(h, data)] + if PowerHints.CheckHint(hal, h).Some? then Pushes(|evs|) else [];
            && HalFeasible(hal, steps)
            && HalExecute(hal, steps).call == None
            && HalExecute(hal, steps).engine
               == (if PowerHints.CheckHint(hal, h).Some? then PushAll(hal.engine, evs) else hal.engine)
            && HalExecute(hal, steps).hintTime
               == (if PowerHints.CheckHint(hal, h).Some? then hal.hintTime[h := Micros(Clock(hal))] else hal.hintTime)
  {
    hide Leases, Push;
    var evs := Leases(h, hal.boosts, data);
    var begun := DoBegin(hal, h, data);
    if PowerHints.CheckHint(hal, h).Some? {
      var steps := [Begin(h, data)] + Pushes(|evs|);
      assert steps[1..] == Pushes(|evs|);
      StartOfAll(hal.engine, evs);
      PushesRun(begun, hal.engine, evs, 0);
    } else {
      var steps: seq<HalStep> := [Begin(h, data)] + [];
      assert steps[1..] == [];
    }
  }
}
