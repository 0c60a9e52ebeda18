/**
 * Init and deinit of a sensor handle: what they acquire and release, and in
 * which order. Every foreign call (calloc, rmt_config, rmt_driver_install,
 * event-loop and task creation, and their releases) is an entry of a trace;
 * the outcome of each acquisition is injected, as the first step that fails.
 */
module SensorLifecycle {
  import opened Wrappers
  import opened UltrasonicTypes
  import opened RmtTiming
  import opened SensorTask

  /** The seven acquisitions of init, in the order the source performs them. */
  datatype Step = Alloc | TxConfig | TxInstall | RxConfig | RxInstall | LoopCreate | TaskCreate

  const Steps: seq<Step> := [Alloc, TxConfig, TxInstall, RxConfig, RxInstall, LoopCreate, TaskCreate]

  /** Where a step stands in the acquisition order. */
  function Position(s: Step): (i: nat)
    ensures i < |Steps| && Steps[i] == s
  {
    match s
    case Alloc => 0
    case TxConfig => 1
    case TxInstall => 2
    case RxConfig => 3
    case RxInstall => 4
    case LoopCreate => 5
    case TaskCreate => 6
  }

  /** What a live handle holds: its memory, an installed RMT driver per channel, its event loop and its task. */
  datatype Resource = Memory | Driver(channel: nat) | EventLoop | Task

  /** Status codes of the release calls: ESP_OK or an error. */
  datatype Status = Ok | Error(code: int)

  /** A foreign call, with its outcome for the acquisitions. */
  datatype Act =
    | Calloc(ok: bool)
    | Configure(config: ChannelConfig, ok: bool)
    | Install(channel: nat, rxBufferSize: nat, ok: bool)
    | CreateLoop(ok: bool)
    | CreateTask(ok: bool)
    | Free
    | Uninstall(channel: nat)
    | DeleteLoop
    | DeleteTask

  /** The resource an act acquires, if any. */
  function Acquired(a: Act): Option<Resource>
  {
    match a
    case Calloc(ok) => if ok then Some(Memory) else None
    case Install(c, _, ok) => if ok then Some(Driver(c)) else None
    case CreateLoop(ok) => if ok then Some(EventLoop) else None
    case CreateTask(ok) => if ok then Some(Task) else None
    case _ => None
  }

  /** The resource an act releases, if any. */
  function Released(a: Act): Option<Resource>
  {
    match a
    case Free => Some(Memory)
    case Uninstall(c) => Some(Driver(c))
    case DeleteLoop => Some(EventLoop)
    case DeleteTask => Some(Task)
    case _ => None
  }

  /** The release call for a resource. */
  function ReleaseOf(r: Resource): (a: Act)
    ensures Released(a) == Some(r) && Acquired(a) == None
  {
    match r
    case Memory => Free
    case Driver(c) => Uninstall(c)
    case EventLoop => DeleteLoop
    case Task => DeleteTask
  }

  /** The held set after one act. Releasing what is not held (free(NULL), uninstalling a driver never installed) changes nothing. */
  function Apply(held: set<Resource>, a: Act): set<Resource>
  {
    match Acquired(a)
    case Some(r) => held + {r}
    case None =>
      match Released(a)
      case Some(r) => held - {r}
      case None => held
  }

  /** The resources held after a trace that starts from `held`. */
  function HeldFrom(held: set<Resource>, trace: seq<Act>): set<Resource>
    decreases |trace|
  {
    if trace == [] then held else HeldFrom(Apply(held, trace[0]), trace[1..])
  }

  /** The resources held after a trace that starts with nothing held. */
  function Held(trace: seq<Act>): set<Resource>
  {
    HeldFrom({}, trace)
  }

  /** The resources a trace acquires, in acquisition order. */
  function AcquiredBy(trace: seq<Act>): seq<Resource>
  {
    if trace == [] then []
    else (match Acquired(trace[0]) case Some(r) => [r] case None => []) + AcquiredBy(trace[1..])
  }

  /** The resources a trace releases. */
  function ReleasedBy(trace: seq<Act>): set<Resource>
  {
    if trace == [] then {}
    else (match Released(trace[0]) case Some(r) => {r} case None => {}) + ReleasedBy(trace[1..])
  }

  /** Reference definition of a rollback: release the given resources, last acquired first. */
  function Mirror(rs: seq<Resource>): (t: seq<Act>)
    ensures |t| == |rs|
    ensures forall i :: 0 <= i < |rs| ==> t[i] == ReleaseOf(rs[|rs| - 1 - i])
  {
    if rs == [] then [] else [ReleaseOf(rs[|rs| - 1])] + Mirror(rs[..|rs| - 1])
  }

  /** The call that performs a step, with its outcome. */
  function Attempt(cfg: Config, s: Step, ok: bool): (a: Act)
    ensures Released(a) == None
    ensures Acquired(a).Some? ==> ok
  {
    match s
    case Alloc => Calloc(ok)
    case TxConfig => Configure(TxConfigFor(cfg), ok)
    case TxInstall => Install(cfg.rmt.txChannel, 0, ok)
    case RxConfig => Configure(RxConfigFor(cfg), ok)
    case RxInstall => Install(cfg.rmt.rxChannel, 1000, ok)
    case LoopCreate => CreateLoop(ok)
    case TaskCreate => CreateTask(ok)
  }

  /** The given steps, each succeeding, in order. */
  function Successes(cfg: Config, steps: seq<Step>): (t: seq<Act>)
    ensures |t| == |steps|
    ensures forall i :: 0 <= i < |steps| ==> t[i] == Attempt(cfg, steps[i], true)
  {
    if steps == [] then [] else Successes(cfg, steps[..|steps| - 1]) + [Attempt(cfg, steps[|steps| - 1], true)]
  }

  /** The calls before the rollback of a failure at `s`: every earlier step succeeding, then `s` failing. */
  function FailedPrefix(cfg: Config, s: Step): seq<Act>
  {
    Successes(cfg, Steps[..Position(s)]) + [Attempt(cfg, s, false)]
  }

  /**
   * The releases that follow a failure at `s`: the chain of error labels
   * entered at the label `s` jumps to, since each label falls through into
   * the next. A rollback only releases, and it always ends by freeing the
   * handle.
   */
  function Unwind(cfg: Config, s: Step): (u: seq<Act>)
    ensures 1 <= |u| <= 4 && u[|u| - 1] == Free
    ensures forall i :: 0 <= i < |u| ==> Acquired(u[i]) == None && Released(u[i]).Some?
  {
    UnwindChain(cfg)[ChainEntry(s)..]
  }

  /** The foreign calls of init when `failAt` is the first step to fail, or when none fails. */
  function InitTrace(cfg: Config, failAt: Option<Step>): (t: seq<Act>)
    ensures failAt == None ==> |t| == |Steps|
    ensures failAt.Some? ==> |t| > Position(failAt.value) && t[Position(failAt.value)] == Attempt(cfg, failAt.value, false)
    ensures forall i :: 0 <= i < |Steps| && (failAt == None || i < Position(failAt.value)) ==>
      i < |t| && t[i] == Attempt(cfg, Steps[i], true)
  {
    match failAt
    case None => Successes(cfg, Steps)
    case Some(s) => FailedPrefix(cfg, s) + Unwind(cfg, s)
  }

  /** The calls of deinit for a handle with these channels: releases only, the task first and the handle's memory last. */
  function DeinitTrace(tx: nat, rx: nat): (t: seq<Act>)
    ensures |t| == 5 && t[0] == DeleteTask && t[4] == Free
    ensures forall i :: 0 <= i < |t| ==> Acquired(t[i]) == None && Released(t[i]).Some?
  {
    [DeleteTask, DeleteLoop, Uninstall(rx), Uninstall(tx), Free]
  }

  /** The seven calls of a successful init. */
  function FullInit(cfg: Config): seq<Act>
  {
    [Calloc(true), Configure(TxConfigFor(cfg), true), Install(cfg.rmt.txChannel, 0, true),
     Configure(RxConfigFor(cfg), true), Install(cfg.rmt.rxChannel, 1000, true), CreateLoop(true), CreateTask(true)]
  }

  /** The first `k` calls of a successful init. */
  function InitPrefix(cfg: Config, k: nat): (t: seq<Act>)
    requires k <= |Steps|
    ensures |t| == k
  {
    FullInit(cfg)[..k]
  }

  /** What a successful init holds, in acquisition order. */
  function AllResources(cfg: Config): seq<Resource>
  {
    [Memory, Driver(cfg.rmt.txChannel), Driver(cfg.rmt.rxChannel), EventLoop, Task]
  }

  /** The resources a sequence of them names, as a set. */
  function Elements(rs: seq<Resource>): set<Resource>
  {
    set r | r in rs
  }

  /** How many resources the first `k` steps acquire when they succeed. */
  function AcquiredCount(k: nat): (n: nat)
    requires k <= |Steps|
    ensures n <= k && n <= 5
  {
    if k == 0 then 0 else if k <= 2 then 1 else if k <= 4 then 2 else k - 2
  }

  /**
   * The full chain of error labels, from the first (`err_task_create`) to the
   * last: it releases the event loop, both drivers and the memory, in reverse
   * of the order a successful init acquires them.
   */
  function UnwindChain(cfg: Config): (c: seq<Act>)
    ensures |c| == 4
    ensures forall i :: 0 <= i < 4 ==> c[i] == ReleaseOf(AllResources(cfg)[3 - i])
  {
    [DeleteLoop, Uninstall(cfg.rmt.rxChannel), Uninstall(cfg.rmt.txChannel), Free]
  }

  /**
   * Where a failure at `s` enters the chain of error labels. The chain from
   * there releases as many resources as the earlier steps acquired, or one
   * more.
   */
  function ChainEntry(s: Step): (e: nat)
    ensures e < 4
    ensures AcquiredCount(Position(s)) <= 4 - e <= AcquiredCount(Position(s)) + 1
  {
    match s
    case TaskCreate => 0
    case LoopCreate | RxInstall | RxConfig => 1
    case TxInstall => 2
    case TxConfig | Alloc => 3
  }

  lemma {:induction false} HeldAppend(h: set<Resource>, a: seq<Act>, b: seq<Act>)
    ensures HeldFrom(h, a + b) == HeldFrom(HeldFrom(h, a), b)
    decreases |a|
  {
    if a == [] {
      assert a + b == b;
    } else {
      assert (a + b)[1..] == a[1..] + b;
      HeldAppend(Apply(h, a[0]), a[1..], b);
    }
  }

  lemma {:induction false} AcquiredByAppend(a: seq<Act>, b: seq<Act>)
    ensures AcquiredBy(a + b) == AcquiredBy(a) + AcquiredBy(b)
  {
    if a == [] {
      assert a + b == b;
    } else {
      assert (a + b)[1..] == a[1..] + b;
      AcquiredByAppend(a[1..], b);
    }
  }

  /** A trace that only acquires adds exactly what it acquires. */
  lemma {:induction false} AcquiringOnly(h: set<Resource>, t: seq<Act>)
    requires forall i :: 0 <= i < |t| ==> Released(t[i]) == None
    ensures HeldFrom(h, t) == h + Elements(AcquiredBy(t))
    decreases |t|
  {
    if t != [] {
      AcquiringOnly(Apply(h, t[0]), t[1..]);
    }
  }

  /** A trace that only releases removes exactly what it releases. */
  lemma {:induction false} ReleasingOnly(h: set<Resource>, t: seq<Act>)
    requires forall i :: 0 <= i < |t| ==> Acquired(t[i]) == None
    ensures HeldFrom(h, t) == h - ReleasedBy(t)
    decreases |t|
  {
    if t != [] {
      ReleasingOnly(Apply(h, t[0]), t[1..]);
    }
  }

  /** The first `k` steps, all succeeding, are the first `k` calls of a successful init. */
  lemma SuccessesArePrefix(cfg: Config, k: nat)
    requires k <= |Steps|
    ensures Successes(cfg, Steps[..k]) == FullInit(cfg)[..k]
  {
    var t := Successes(cfg, Steps[..k]);
    forall i | 0 <= i < k
      ensures t[i] == FullInit(cfg)[i]
    {
      assert Steps[..k][i] == Steps[i];
    }
  }

  /** What a step acquires when it succeeds: the next slice of a successful init's resources. */
  function AcquiredSeq(a: Act): seq<Resource>
  {
    match Acquired(a) case Some(r) => [r] case None => []
  }

  lemma StepAcquires(cfg: Config, k: nat)
    requires k < |Steps|
    ensures AcquiredSeq(FullInit(cfg)[k]) == AllResources(cfg)[AcquiredCount(k)..AcquiredCount(k + 1)]
  {
    var all := AllResources(cfg);
    if k == 0 {
      assert all[0..1] == [Memory];
    } else if k == 2 {
      assert all[1..2] == [Driver(cfg.rmt.txChannel)];
    } else if k == 4 {
      assert all[2..3] == [Driver(cfg.rmt.rxChannel)];
    } else if k == 5 {
      assert all[3..4] == [EventLoop];
    } else if k == 6 {
      assert all[4..5] == [Task];
    }
  }

  /** The first `k` calls of a successful init acquire the first AcquiredCount(k) resources it holds. */
  lemma {:induction false} PrefixAcquires(cfg: Config, k: nat)
    requires k <= |Steps|
    ensures AcquiredBy(FullInit(cfg)[..k]) == AllResources(cfg)[..AcquiredCount(k)]
  {
    if k > 0 {
      PrefixAcquires(cfg, k - 1);
      var f, all := FullInit(cfg), AllResources(cfg);
      assert f[..k] == f[..k - 1] + [f[k - 1]];
      AcquiredByAppend(f[..k - 1], [f[k - 1]]);
      assert AcquiredBy([f[k - 1]]) == AcquiredSeq(f[k - 1]) by {
        assert [f[k - 1]][1..] == [];
      }
      StepAcquires(cfg, k - 1);
      var m, n := AcquiredCount(k - 1), AcquiredCount(k);
      assert all[..m] + all[m..n] == all[..n];
    }
  }

  lemma FailedPrefixShape(cfg: Config, s: Step)
    ensures FailedPrefix(cfg, s) == FullInit(cfg)[..Position(s)] + [Attempt(cfg, s, false)]
  {
    SuccessesArePrefix(cfg, Position(s));
  }

  /** The calls before a failure's rollback hold, and have acquired, what the succeeding steps acquired. */
  lemma PrefixFacts(cfg: Config, s: Step)
    ensures AcquiredBy(FailedPrefix(cfg, s)) == AllResources(cfg)[..AcquiredCount(Position(s))]
    ensures Held(FailedPrefix(cfg, s)) == Elements(AllResources(cfg)[..AcquiredCount(Position(s))])
  {
    var k := Position(s);
    var a := Attempt(cfg, s, false);
    PrefixAcquires(cfg, k);
    SuccessesArePrefix(cfg, k);
    AcquiredByAppend(Successes(cfg, Steps[..k]), [a]);
    assert [a][1..] == [];
    AcquiringOnly({}, FailedPrefix(cfg, s));
  }

  /** The chain entered at `e` releases the first 4 - e resources a successful init acquires. */
  lemma {:induction false} ChainReleases(cfg: Config, e: nat)
    requires e <= 4
    ensures ReleasedBy(UnwindChain(cfg)[e..]) == Elements(AllResources(cfg)[..4 - e])
    decreases 4 - e
  {
    var c := UnwindChain(cfg);
    if e < 4 {
      ChainReleases(cfg, e + 1);
      assert c[e..][1..] == c[e + 1..];
      assert AllResources(cfg)[..4 - e] == AllResources(cfg)[..4 - (e + 1)] + [AllResources(cfg)[3 - e]];
    }
  }

  /** Releasing the first `n` resources of a successful init in reverse order is the tail of the chain of error labels. */
  lemma MirrorIsChainTail(cfg: Config, n: nat)
    requires n <= 4
    ensures Mirror(AllResources(cfg)[..n]) == UnwindChain(cfg)[4 - n..]
  {
  }

  /**
   * Init acquires in the source's order: handle memory, TX config, TX
   * driver, RX config, RX driver, event loop, task. When all seven succeed it
   * holds memory, both drivers, the loop and the task.
   */
  lemma InitSuccess(cfg: Config)
    ensures InitTrace(cfg, None) == FullInit(cfg)
    ensures AcquiredBy(InitTrace(cfg, None)) == AllResources(cfg)
    ensures Held(InitTrace(cfg, None)) == Elements(AllResources(cfg))
  {
    SuccessesArePrefix(cfg, 7);
    PrefixAcquires(cfg, 7);
    assert Steps[..7] == Steps;
    assert FullInit(cfg)[..7] == FullInit(cfg);
    AcquiringOnly({}, FullInit(cfg));
  }

  /**
   * Whatever step fails, and even when the configuration names the same
   * channel twice, init ends holding nothing.
   */
  lemma NoLeakOnFailure(cfg: Config, s: Step)
    ensures Held(InitTrace(cfg, Some(s))) == {}
  {
    var p := FailedPrefix(cfg, s);
    var u := Unwind(cfg, s);
    PrefixFacts(cfg, s);
    HeldAppend({}, p, u);
    ReleasingOnly(Held(p), u);
    ChainReleases(cfg, ChainEntry(s));
    var n, m := AcquiredCount(Position(s)), 4 - ChainEntry(s);
    assert n <= m;
    forall i | 0 <= i < n
      ensures AllResources(cfg)[..n][i] in AllResources(cfg)[..m]
    {
      assert AllResources(cfg)[..m][i] == AllResources(cfg)[..n][i];
    }
  }

  /**
   * The rollback runs in reverse acquisition order, but it is not an exact
   * mirror of what was acquired. With distinct channels: a failure at the TX
   * config, the event loop or the task is unwound by exactly the mirror; a
   * failure at the allocation, the TX install, the RX config or the RX
   * install gets one extra first release of something not held (free(NULL),
   * or the uninstall of a driver whose install failed or never ran), followed
   * by exactly the mirror.
   */
  lemma UnwindAgainstMirror(cfg: Config, s: Step)
    requires cfg.rmt.txChannel != cfg.rmt.rxChannel
    ensures var p, u := FailedPrefix(cfg, s), Unwind(cfg, s);
      var m := Mirror(AcquiredBy(p));
      if s in [Alloc, TxInstall, RxConfig, RxInstall] then
        |u| == |m| + 1 && u[1..] == m && Released(u[0]).Some? && Released(u[0]).value !in Held(p)
      else
        u == m
  {
    match s {
      case Alloc | TxInstall | RxConfig | RxInstall => OneExtraRelease(cfg, s);
      case TxConfig | LoopCreate | TaskCreate => ExactRelease(cfg, s);
    }
  }

  /** Where the entry label releases one more resource than the earlier steps acquired, that one comes first and is not held. */
  lemma OneExtraRelease(cfg: Config, s: Step)
    requires cfg.rmt.txChannel != cfg.rmt.rxChannel
    requires AcquiredCount(Position(s)) + ChainEntry(s) == 3
    ensures var p, u := FailedPrefix(cfg, s), Unwind(cfg, s);
      var m := Mirror(AcquiredBy(p));
      |u| == |m| + 1 && u[1..] == m && Released(u[0]).Some? && Released(u[0]).value !in Held(p)
  {
    PrefixFacts(cfg, s);
    MirrorIsChainTail(cfg, AcquiredCount(Position(s)));
    ChainHeadNotHeld(cfg, ChainEntry(s));
  }

  /** Where the entry label releases as many resources as the earlier steps acquired, the rollback is exactly the mirror. */
  lemma ExactRelease(cfg: Config, s: Step)
    requires AcquiredCount(Position(s)) + ChainEntry(s) == 4
    ensures Unwind(cfg, s) == Mirror(AcquiredBy(FailedPrefix(cfg, s)))
  {
    PrefixFacts(cfg, s);
    MirrorIsChainTail(cfg, AcquiredCount(Position(s)));
  }

  /**
   * With distinct channels, the release at position `e` of the chain is of a
   * resource that the first 3 - e acquisitions of a successful init do not
   * include; the rest of the chain is the tail after it.
   */
  lemma ChainHeadNotHeld(cfg: Config, e: nat)
    requires cfg.rmt.txChannel != cfg.rmt.rxChannel && e < 4
    ensures var c := UnwindChain(cfg);
      && c[e..][1..] == c[e + 1..]
      && Released(c[e..][0]).Some?
      && Released(c[e..][0]).value !in Elements(AllResources(cfg)[..3 - e])
  {
    var c, all := UnwindChain(cfg), AllResources(cfg);
    assert c[e..][1..] == c[e + 1..];
    assert Released(c[e]) == Some(all[3 - e]);
    var pre := all[..3 - e];
    forall i | 0 <= i < |pre|
      ensures pre[i] != all[3 - e]
    {
    }
  }

  /**
   * The rollbacks are the suffixes of one chain, entered at the error label
   * of the failing step: a later failure releases everything an earlier one
   * does, and possibly more, first.
   */
  lemma UnwindFallsThrough(cfg: Config, s: Step, s': Step)
    requires Position(s) <= Position(s')
    ensures var u, u' := Unwind(cfg, s), Unwind(cfg, s');
      |u| <= |u'| && u'[|u'| - |u|..] == u
  {
    assert ChainEntry(s') <= ChainEntry(s);
  }

  /**
   * Deinit deletes the task, then the event loop, uninstalls the RX and then
   * the TX driver, and frees the handle: exactly the mirror of a successful
   * init, so that init followed by deinit holds nothing.
   */
  lemma DeinitMirrorsInit(cfg: Config)
    ensures DeinitTrace(cfg.rmt.txChannel, cfg.rmt.rxChannel) == Mirror(AcquiredBy(InitTrace(cfg, None)))
    ensures Held(InitTrace(cfg, None) + DeinitTrace(cfg.rmt.txChannel, cfg.rmt.rxChannel)) == {}
  {
    InitSuccess(cfg);
    var d := DeinitTrace(cfg.rmt.txChannel, cfg.rmt.rxChannel);
    HeldAppend({}, InitTrace(cfg, None), d);
    ReleasingOnly(Held(InitTrace(cfg, None)), d);
    ChainReleases(cfg, 0);
    assert d[1..] == UnwindChain(cfg)[0..];
  }

  /**
   * The chain of error labels at the end of `ultrasonicsensor_init`, entered
   * at the label a failure at `failed` jumps to. Each label falls through into
   * the next, so entering at one runs its release and every release after it:
   * delete the event loop, uninstall the RX driver, uninstall the TX driver
   * (both on the configuration's channels), free the handle.
   */
  method Rollback(cfg: Config, failed: Step, trace: seq<Act>) returns (trace': seq<Act>)
    requires trace == FullInit(cfg)[..Position(failed)] + [Attempt(cfg, failed, false)]
    ensures trace' == InitTrace(cfg, Some(failed))
  {
    FailedPrefixShape(cfg, failed);
    trace' := trace;
    var entry := ChainEntry(failed);
    if entry <= 0 {
      trace' := trace' + [DeleteLoop];
    }
    if entry <= 1 {
      trace' := trace' + [Uninstall(cfg.rmt.rxChannel)];
    }
    if entry <= 2 {
      trace' := trace' + [Uninstall(cfg.rmt.txChannel)];
    }
    trace' := trace' + [Free];
    assert trace' == trace + UnwindChain(cfg)[entry..];
  }

  /**
   * One acquisition of init: make the step's call, with the injected
   * outcome; when it fails, jump to its error label and run the chain from
   * there. `failed` tells init to return null.
   */
  method Acquire(cfg: Config, s: Step, failAt: Option<Step>, trace: seq<Act>) returns (failed: bool, trace': seq<Act>)
    requires trace == InitPrefix(cfg, Position(s))
    ensures failed <==> failAt == Some(s)
    ensures failed ==> trace' == InitTrace(cfg, failAt)
    ensures !failed ==> trace' == InitPrefix(cfg, Position(s) + 1)
  {
    failed := failAt == Some(s);
    trace' := trace + [Attempt(cfg, s, !failed)];
    if failed {
      trace' := Rollback(cfg, s, trace');
    } else {
      var full, k := FullInit(cfg), Position(s);
      assert full[k] == Attempt(cfg, s, true);
      assert full[..k + 1] == full[..k] + [full[k]];
    }
  }

  /**
   * The RMT part of init: configure the trigger channel and install its
   * driver, then configure the echo channel and install its driver. A
   * failure in any of the four jumps into the chain of error labels.
   */
  method SetUpChannels(cfg: Config, failAt: Option<Step>, trace: seq<Act>) returns (failed: bool, trace': seq<Act>)
    requires trace == InitPrefix(cfg, Position(Alloc) + 1)
    ensures failed <==> failAt in {Some(TxConfig), Some(TxInstall), Some(RxConfig), Some(RxInstall)}
    ensures failed ==> trace' == InitTrace(cfg, failAt)
    ensures !failed ==> trace' == InitPrefix(cfg, Position(RxInstall) + 1)
  {
    failed, trace' := Acquire(cfg, TxConfig, failAt, trace);
    if failed {
      return;
    }
    failed, trace' := Acquire(cfg, TxInstall, failAt, trace');
    if failed {
      return;
    }
    failed, trace' := Acquire(cfg, RxConfig, failAt, trace');
    if failed {
      return;
    }
    failed, trace' := Acquire(cfg, RxInstall, failAt, trace');
  }

  /**
   * `ultrasonicsensor_init`: the seven acquisitions in order; the first
   * failure jumps into the chain of error labels and init returns null.
   * Returns the handle and the calls made; what they leave held is
   * `Held(trace)`. The handle's channels are set from the configuration once
   * both drivers are installed; its reading starts zeroed, as `calloc`
   * leaves it.
   */
  method Init(cfg: Config, failAt: Option<Step>) returns (h: Sensor?, trace: seq<Act>)
    ensures trace == InitTrace(cfg, failAt)
    ensures h != null <==> failAt == None
    ensures h != null ==> fresh(h) && h.parent == ZeroReading && h.log == []
    ensures h != null ==> h.txChannel == cfg.rmt.txChannel && h.rxChannel == cfg.rmt.rxChannel
  {
    h := null;
    var failed: bool;
    failed, trace := Acquire(cfg, Alloc, failAt, []);
    if failed {
      return;
    }
    var s := new Sensor.Zeroed();
    failed, trace := SetUpChannels(cfg, failAt, trace);
    if failed {
      return;
    }
    s.txChannel := cfg.rmt.txChannel;
    s.rxChannel := cfg.rmt.rxChannel;
    failed, trace := Acquire(cfg, LoopCreate, failAt, trace);
    if failed {
      return;
    }
    failed, trace := Acquire(cfg, TaskCreate, failAt, trace);
    if failed {
      return;
    }
    assert trace == FullInit(cfg)[..7] == FullInit(cfg);
    InitSuccess(cfg);
    h := s;
  }

  /**
   * `ultrasonicsensor_deinit`: releases in the order of DeinitTrace, on the
   * handle's own channels, and returns the status of the TX uninstall; the
   * RX uninstall's status is overwritten and lost. The release calls'
   * statuses are injected.
   */
  method Deinit(h: Sensor, rxStatus: Status, txStatus: Status) returns (status: Status, trace: seq<Act>)
    ensures trace == DeinitTrace(h.txChannel, h.rxChannel)
    ensures status == txStatus
  {
    trace := [DeleteTask, DeleteLoop];
    var err := rxStatus;
    trace := trace + [Uninstall(h.rxChannel)];
    err := txStatus;
    trace := trace + [Uninstall(h.txChannel)];
    trace := trace + [Free];
    status := err;
  }
}
