/**
 The power loop against a Metal3 host: the controller's reads and its one write, interleaved with
 a host that moves its observed power state to the requested one at moments of its own choosing.
 */
module PowerLoop {
  import opened Metal3Management
  import opened InstanceManagement

  /** Where a reconcile stands: before it, with a power reading, or past SetPowerState's check. */
  datatype Stage = Resting | HasRead(ps: PowerStatus) | Checked(target: PowerState)

  datatype Loop = Loop(host: Host, stage: Stage)

  datatype Move =
    | Settle           // the host reaches the requested state
    | ReadState        // GetPowerState
    | CheckPower       // reconcilePower's decision and SetPowerState's own read of the host
    | PatchOnline      // the write of spec.online
    | Drop             // an error or the end of the reconcile

  predicate CanMove(strategy: RunStrategy, s: Loop, m: Move) {
    match m
    case Settle => s.host.online != s.host.poweredOn
    case ReadState => s.stage.Resting?
    case CheckPower => s.stage.HasRead?
    case PatchOnline => s.stage.Checked?
    case Drop => !s.stage.Resting?
  }

  function Wanted(strategy: RunStrategy): PowerState {
    if strategy.Always? then PowerOn else PowerOff
  }

  function After(strategy: RunStrategy, s: Loop, m: Move): Loop
    requires CanMove(strategy, s, m)
  {
    match m
    case Settle => s.(host := s.host.(poweredOn := s.host.online))
    case ReadState => s.(stage := HasRead(StatusOf(s.host)))
    case CheckPower =>
      var target := PowerTarget(strategy, s.stage.ps);
      if target.None? || s.host.online != s.host.poweredOn || s.host.online == target.value.PowerOn?
      then s.(stage := Resting)
      else s.(stage := Checked(target.value))
    case PatchOnline => Loop(s.host.(online := s.stage.target.PowerOn?), Resting)
    case Drop => s.(stage := Resting)
  }

  predicate OffTarget(strategy: RunStrategy, h: Host) {
    h.online != Wanted(strategy).PowerOn?
  }

  function Measure(strategy: RunStrategy, h: Host): nat {
    (if OffTarget(strategy, h) then 2 else 0) + (if h.online != h.poweredOn then 1 else 0)
  }

  /** A reconcile about to write still faces the stable, off-target host it checked. */
  predicate Loyal(strategy: RunStrategy, s: Loop) {
    match s.stage
    case Resting => true
    case HasRead(_) => true
    case Checked(target) =>
      target == Wanted(strategy) && s.host.online == s.host.poweredOn && OffTarget(strategy, s.host)
  }

  /** Never a write during a transition; every change of the host is progress. */
  lemma MoveProgresses(strategy: RunStrategy, s: Loop, m: Move)
    requires !strategy.Unspecified? && Loyal(strategy, s) && CanMove(strategy, s, m)
    ensures
      var s' := After(strategy, s, m);
      && Loyal(strategy, s')
      && (s'.host != s.host ==> Measure(strategy, s'.host) < Measure(strategy, s.host))
      && (s'.host.online != s.host.online <==> m.PatchOnline?)
      && (m.PatchOnline? ==> s.host.online == s.host.poweredOn && OffTarget(strategy, s.host)
                             && !OffTarget(strategy, s'.host))
  {
  }

  predicate ValidMoves(strategy: RunStrategy, s: Loop, ms: seq<Move>)
    decreases |ms|
  {
    ms == [] || (CanMove(strategy, s, ms[0]) && ValidMoves(strategy, After(strategy, s, ms[0]), ms[1..]))
  }

  function AfterAll(strategy: RunStrategy, s: Loop, ms: seq<Move>): Loop
    requires ValidMoves(strategy, s, ms)
    decreases |ms|
  {
    if ms == [] then s else AfterAll(strategy, After(strategy, s, ms[0]), ms[1..])
  }

  function Patches(ms: seq<Move>): nat {
    if ms == [] then 0 else (if ms[0].PatchOnline? then 1 else 0) + Patches(ms[1..])
  }

  function Settles(ms: seq<Move>): nat {
    if ms == [] then 0 else (if ms[0].Settle? then 1 else 0) + Settles(ms[1..])
  }

  /**
   Over any run the writes are exactly those needed: one if the host started off target and ends on
   it, none otherwise; and all changes together are paid for by the measure.
   */
  lemma {:induction false} PowerConverges(strategy: RunStrategy, s: Loop, ms: seq<Move>)
    requires !strategy.Unspecified? && Loyal(strategy, s) && ValidMoves(strategy, s, ms)
    ensures
      var s' := AfterAll(strategy, s, ms);
      && Loyal(strategy, s')
      && Patches(ms) + (if OffTarget(strategy, s'.host) then 1 else 0) == (if OffTarget(strategy, s.host) then 1 else 0)
      && Patches(ms) + Settles(ms) + Measure(strategy, s'.host) <= Measure(strategy, s.host)
    decreases |ms|
  {
    if ms == [] {
    } else {
      MoveProgresses(strategy, s, ms[0]);
      PowerConverges(strategy, After(strategy, s, ms[0]), ms[1..]);
    }
  }

  /** At most one write, from any point on. */
  lemma OneWrite(strategy: RunStrategy, s: Loop, ms: seq<Move>)
    requires !strategy.Unspecified? && Loyal(strategy, s) && ValidMoves(strategy, s, ms)
    ensures Patches(ms) <= 1
  {
    PowerConverges(strategy, s, ms);
  }

  /** Unless it has converged, either the host can still move or one undisturbed reconcile writes. */
  lemma NotStuck(strategy: RunStrategy, h: Host)
    requires !strategy.Unspecified? && Measure(strategy, h) > 0
    ensures
      var s := Loop(h, Resting);
      || CanMove(strategy, s, Settle)
      || (ValidMoves(strategy, s, [ReadState, CheckPower, PatchOnline])
          && Measure(strategy, AfterAll(strategy, s, [ReadState, CheckPower, PatchOnline]).host) < Measure(strategy, h))
  {
    var s := Loop(h, Resting);
    if h.online == h.poweredOn {
      var ms := [ReadState, CheckPower, PatchOnline];
      assert ms[1..] == [CheckPower, PatchOnline] && ms[1..][1..] == [PatchOnline];
      var s1 := After(strategy, s, ReadState);
      var s2 := After(strategy, s1, CheckPower);
      var s3 := After(strategy, s2, PatchOnline);
      assert [PatchOnline][1..] == [] && ValidMoves(strategy, s2, [PatchOnline]);
      assert AfterAll(strategy, s2, [PatchOnline]) == s3;
      assert ValidMoves(strategy, s1, ms[1..]) && AfterAll(strategy, s1, ms[1..]) == s3;
    }
  }

  /** Converged hosts, and no others, let a reconcile end Ready. */
  lemma ReadyWhenConverged(strategy: RunStrategy, h: Host)
    requires !strategy.Unspecified?
    ensures Measure(strategy, h) == 0 <==> PowerMatches(strategy, StatusOf(h))
  {
  }
}
