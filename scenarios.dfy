/**
 * Client programs that drive the sequencer through the behaviours its
 * design promises, using only the contracts of its methods.
 */
module Scenarios {
  import opened Options
  import opened Identifiers
  import opened Engine
  import opened HashCatalog
  import opened Descriptors
  import opened LayerModel
  import opened Coder

  /** A degenerate name hash under which every member collides. */
  function ConstantHash(name: string): int
  {
    0
  }

  /**
   * A fresh sequencer on a two-layer engine. Every name hashes to 0 and both
   * layers show a state hashed 0, so seeding picks the first member, IDLE.
   */
  method NewSequencer(currentLength: real, nextLength: real) returns (coder: AnimatorCoder)
    ensures fresh(coder) && fresh(coder.animator) && fresh(coder.catalog)
    ensures fresh(coder.currentAnimation) && fresh(coder.layerLocked) && fresh(coder.currentCoroutine)
    ensures fresh(coder.parameters)
    ensures coder.Valid() && coder.Initialized()
    ensures coder.State() == LayerTable([IDLE, IDLE], [false, false], [None, None])
    ensures coder.animator.currentLength == (_ => currentLength) && coder.animator.nextLength == (_ => nextLength)
    ensures coder.animator.crossFades == [] && coder.defaultRequests == []
    ensures coder.orphans == [] && coder.animator.layerCount == 2
    ensures coder.animator.stateHash(0) == 0 && coder.animator.stateHash(1) == 0
    ensures coder.catalog.initialized && coder.catalog.Hashes()[0] == 0
  {
    var animator := new Animator(2, _ => 0, _ => currentLength, _ => nextLength);
    var catalog := new AnimatorValues();
    coder := new AnimatorCoder(animator, catalog);
    coder.InitializeStoppingChains(ConstantHash);
    assert catalog.Hashes() == NameHashes(ConstantHash);
    assert catalog.Hashes()[0] == 0;
    assert coder.currentAnimation[0] == IDLE && coder.currentAnimation[1] == IDLE;
    assert coder.State().current == [IDLE, IDLE];
  }

  /**
   * A sequencer on which RUN, locking its layer or not, with a 0.1 s
   * cross-fade and an ATTACK1 follow-up, has committed on layer 0.
   */
  method PendingRunSequencer(lockLayer: bool) returns (coder: AnimatorCoder, run: AnimationData, attack: AnimationData)
    ensures fresh(coder) && fresh(coder.animator) && fresh(coder.catalog)
    ensures fresh(coder.currentAnimation) && fresh(coder.layerLocked) && fresh(coder.currentCoroutine)
    ensures coder.Valid() && coder.Initialized()
    ensures coder.State() == LayerTable([RUN, IDLE], [lockLayer, false], [Some(Pending(run, 1.5)), None])
    ensures coder.orphans == [] && coder.animator.layerCount == 2
    ensures coder.animator.stateHash(0) == 0 && coder.animator.stateHash(1) == 0
    ensures coder.catalog.initialized && coder.catalog.Hashes()[0] == 0
    ensures run.nextAnimation == attack && attack.animation == ATTACK1 && attack.nextAnimation == null
    ensures !attack.lockLayer && attack.crossfade == 0.0
  {
    coder := NewSequencer(1.0, 1.5);
    attack := new AnimationData(ATTACK1);
    run := new AnimationData(RUN, lockLayer, attack, 0.1);
    var _ := coder.Play(run);
  }

  /**
   * Layer 0 starts at IDLE; a locking RUN with a 0.1 s cross-fade and an
   * ATTACK1 follow-up commits, locks the layer and schedules its chain step
   * after the length of the state blended into.
   */
  method PlayLocksAndSchedules() returns (seeded: Animation, played: bool, playing: Animation,
                                          locked: bool, delay: real)
    ensures seeded == IDLE
    ensures played && playing == RUN && locked
    ensures delay == 1.5
  {
    var coder := NewSequencer(1.0, 1.5);
    seeded := coder.GetCurrentAnimation(0);
    var attack := new AnimationData(ATTACK1, false, null, 0.0);
    var run := new AnimationData(RUN, true, attack, 0.1);
    assert Admits(coder.State(), 0, RUN);
    played := coder.Play(run, 0);
    assert coder.State() == LayerTable([RUN, IDLE], [true, false], [Some(Pending(run, 1.5)), None]);
    playing := coder.GetCurrentAnimation(0);
    locked := coder.IsLocked(0);
    var step := coder.currentCoroutine[0];
    delay := if step.Some? then step.value.delay else 0.0;
  }

  /**
   * When the chain step of a locking RUN fires, the layer unlocks and the
   * ATTACK1 follow-up commits.
   */
  method ChainFires() returns (chained: bool, after: Animation, lockedAfter: bool)
    ensures chained && after == ATTACK1 && !lockedAfter
  {
    var coder, run, attack := PendingRunSequencer(true);
    ghost var unlocked := LayerTable([RUN, IDLE], [false, false], [None, None]);
    assert WithLock(Consume(coder.State(), 0), 0, false) == unlocked;
    assert coder.RequestOf(attack, 0) == Request(ATTACK1, false, 0.0, None);
    assert PlayOn(unlocked, 0, Request(ATTACK1, false, 0.0, None)) == LayerTable([ATTACK1, IDLE], [false, false], [None, None]);
    chained := coder.Fire(0);
    assert coder.State() == LayerTable([ATTACK1, IDLE], [false, false], [None, None]);
    after := coder.GetCurrentAnimation(0);
    lockedAfter := coder.IsLocked(0);
  }

  /** With a zero cross-fade, a 1.0 s clip and a follow-up cross-fade of 0.2 s, the chain step waits 0.8 s. */
  method ChainTiming() returns (delay: real)
    ensures delay == 0.8
  {
    var coder := NewSequencer(1.0, 3.0);
    var attack := new AnimationData(ATTACK1, false, null, 0.2);
    var run := new AnimationData(RUN, false, attack, 0.0);
    var _ := coder.Play(run, 0);
    var step := coder.currentCoroutine[0];
    delay := if step.Some? then step.value.delay else 0.0;
  }

  /**
   * A play request that commits before a pending chain step fires cancels it:
   * firing afterwards does nothing and the second animation stays current.
   */
  method ChainCancellation() returns (fired: bool, playing: Animation)
    ensures !fired && playing == JUMP
  {
    var coder, run, attack := PendingRunSequencer(false);
    var jump := new AnimationData(JUMP);
    assert coder.RequestOf(jump, 0) == Request(JUMP, false, 0.0, None);
    assert PlayOn(coder.State(), 0, Request(JUMP, false, 0.0, None)) == LayerTable([JUMP, IDLE], [false, false], [None, None]);
    var _ := coder.Play(jump, 0);
    assert coder.State() == LayerTable([JUMP, IDLE], [false, false], [None, None]);
    fired := coder.Fire(0);
    playing := coder.GetCurrentAnimation(0);
  }

  /** Lock gating and the self-transition rule, seen from a caller. */
  method LockGating() returns (whileLocked: bool, sameAgain: bool, playing: Animation)
    ensures !whileLocked && !sameAgain && playing == RUN
  {
    var coder := NewSequencer(1.0, 1.0);
    var run := new AnimationData(RUN, true, null, 0.0);
    var hit := new AnimationData(HIT, false, null, 0.0);
    var _ := coder.Play(run, 0);
    assert coder.State() == LayerTable([RUN, IDLE], [true, false], [None, None]);
    whileLocked := coder.Play(hit, 0);
    coder.SetLocked(false, 0);
    assert coder.State() == LayerTable([RUN, IDLE], [false, false], [None, None]);
    sameAgain := coder.Play(run, 0);
    playing := coder.GetCurrentAnimation(0);
  }

  /**
   * The RESET sentinel and an out-of-range layer are both refused; the
   * sentinel is handed to the default-animation hook instead.
   */
  method RefusedRequests() returns (reset: bool, outOfRange: bool, playing: Animation, ghost hooks: seq<int>)
    ensures !reset && !outOfRange && playing == IDLE && hooks == [0]
  {
    var coder := NewSequencer(1.0, 1.0);
    var idle := new AnimationData(IDLE, false, null, 0.0);
    var back := new AnimationData(RESET, false, null, 0.0);
    reset := coder.Play(back, 0);
    outOfRange := coder.Play(idle, 5);
    hooks := coder.defaultRequests;
    playing := coder.GetCurrentAnimation(0);
  }

  /** The same sequencer after Initialize ran a second time, as written. */
  method OrphanedSequencer() returns (coder: AnimatorCoder, run: AnimationData, attack: AnimationData)
    ensures fresh(coder) && fresh(coder.animator)
    ensures fresh(coder.currentAnimation) && fresh(coder.layerLocked) && fresh(coder.currentCoroutine)
    ensures coder.Valid() && coder.Initialized()
    ensures coder.State() == LayerTable([IDLE, IDLE], [false, false], [None, None])
    ensures coder.orphans == [Orphan(0, Pending(run, 1.5))]
    ensures run.nextAnimation == attack && attack.animation == ATTACK1 && attack.nextAnimation == null
    ensures !attack.lockLayer && attack.crossfade == 0.0
  {
    coder, run, attack := PendingRunSequencer(true);
    assert Running(coder.State().pending) == [Orphan(0, Pending(run, 1.5))] by {
      var slots := coder.State().pending;
      assert slots[..1][..0] == [];
      assert slots[..1] == [Some(Pending(run, 1.5))];
    }
    coder.Initialize(ConstantHash);
    assert FirstMatch(coder.catalog.Hashes(), 0, 0) == Some(0);
    assert coder.currentAnimation[0] == IDLE && coder.currentAnimation[1] == IDLE;
    assert coder.State() == LayerTable([IDLE, IDLE], [false, false], [None, None]);
  }

  /**
   * As written, the second Initialize leaves layer 0 unlocked with an empty
   * slot, yet the orphaned chain step of RUN still fires there and commits
   * ATTACK1.
   */
  method OrphanedStepFires() returns (emptySlot: bool, chained: bool, after: Animation)
    ensures emptySlot && chained && after == ATTACK1
  {
    var coder, run, attack := OrphanedSequencer();
    emptySlot := coder.currentCoroutine[0].None?;
    assert coder.RequestOf(attack, 0) == Request(ATTACK1, false, 0.0, None);
    chained := coder.FireOrphan(0);
    after := coder.GetCurrentAnimation(0);
  }

  /** With the chains stopped before reinitializing, the step of RUN never fires and layer 0 stays IDLE. */
  method StoppedStepNeverFires() returns (fired: bool, playing: Animation)
    ensures !fired && playing == IDLE
  {
    var coder, run, attack := PendingRunSequencer(true);
    coder.InitializeStoppingChains(ConstantHash);
    assert FirstMatch(coder.catalog.Hashes(), 0, 0) == Some(0);
    fired := coder.FireOrphan(0);
    playing := coder.GetCurrentAnimation(0);
  }

  /** A parameter set on the table reads back, and the other parameter keeps its value. */
  method ParameterRoundTrip(value: bool) returns (read: bool, other: bool, beforeInit: bool)
    ensures read == value && !other && !beforeInit
  {
    var animator := new Animator(1, _ => 0, _ => 1.0, _ => 1.0);
    var catalog := new AnimatorValues();
    var coder := new AnimatorCoder(animator, catalog);
    beforeInit := coder.GetBool(GROUNDED);
    coder.InitializeStoppingChains(ConstantHash);
    coder.SetBool(FALLING, value);
    read := coder.GetBool(FALLING);
    other := coder.GetBool(GROUNDED);
  }
}
