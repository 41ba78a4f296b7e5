/** MGRAnimate3D: a skeletal-animation controller that cross-fades between
    the controllers applied to the same target. Three registries, shared by
    every controller, map a target node to the controller fading in, the
    one fading out and the one running on it. */
module Animation {
  import opened Types

  /** A node of the scene graph: an identity, a name and ordered children. */
  datatype NodeTree = Node(id: nat, name: string, children: seq<NodeTree>)

  /** The node a controller is started on: its subtree, whether it is a
      `MGRSprite3D`, and that sprite's skeleton as a bone-name table. */
  datatype Target = Target(tree: NodeTree, isSprite: bool, skeleton: Option<map<string, nat>>)

  /** An `Animation3D`: its length in seconds and the names of its bone
      curves, in the order the curve table is walked. */
  datatype Animation3D = Animation3D(duration: real, curveNames: seq<string>)

  datatype Quality = QualityNone | QualityLow | QualityHigh

  datatype EvaluateType = IntLinear | IntNear | IntQuatSlerp

  /** The interpolation used for translation, rotation and scale curves. */
  datatype Evaluators = Evaluators(translate: EvaluateType, rotate: EvaluateType, scale: EvaluateType)

  datatype State = Running | FadeIn | FadeOut

  function Abs(x: real): real { if x < 0.0 then -x else x }

  // ---------------------------------------------------------------------
  // Depth-first name search

  /** `findChildByNameRecursivelyMGR`: the node itself when its name
      matches, otherwise the first match among its children, in order. */
  function FindByName(n: NodeTree, name: string): Option<NodeTree>
    decreases n, |n.children| + 1
  {
    if n.name == name then Some(n) else FindInChildren(n, 0, name)
  }

  /** The `for (child : children)` loop of the search, from child `i` on. */
  function FindInChildren(n: NodeTree, i: nat, name: string): Option<NodeTree>
    decreases n, |n.children| - i
  {
    if i >= |n.children| then None
    else match FindByName(n.children[i], name)
      case Some(m) => Some(m)
      case None => FindInChildren(n, i + 1, name)
  }

  /** The nodes of a subtree in depth-first pre-order. */
  function PreOrder(n: NodeTree): seq<NodeTree>
    decreases n, |n.children| + 1
  {
    [n] + PreOrderFrom(n, 0)
  }

  function PreOrderFrom(n: NodeTree, i: nat): seq<NodeTree>
    decreases n, |n.children| - i
  {
    if i >= |n.children| then [] else PreOrder(n.children[i]) + PreOrderFrom(n, i + 1)
  }

  /** The reference search: the first node of a list with the given name. */
  function FirstNamed(s: seq<NodeTree>, name: string): (r: Option<NodeTree>)
    ensures r.Some? ==> r.value in s && r.value.name == name
    ensures r.None? <==> forall k :: 0 <= k < |s| ==> s[k].name != name
    ensures r.Some? ==> exists j :: 0 <= j < |s| && s[j] == r.value &&
                                    forall k :: 0 <= k < j ==> s[k].name != name
  {
    if |s| == 0 then None
    else if s[0].name == name then Some(s[0])
    else
      var r := FirstNamed(s[1..], name);
      assert forall k :: 1 <= k < |s| ==> s[k] == s[1..][k - 1];
      r
  }

  lemma {:induction false} FirstNamedAppend(a: seq<NodeTree>, b: seq<NodeTree>, name: string)
    ensures FirstNamed(a + b, name) == if FirstNamed(a, name).Some? then FirstNamed(a, name) else FirstNamed(b, name)
  {
    if |a| > 0 {
      assert (a + b)[1..] == a[1..] + b;
      FirstNamedAppend(a[1..], b, name);
    } else {
      assert a + b == b;
    }
  }

  /** The search returns exactly the first node of the pre-order walk that
      carries the name, and nothing when no node of the subtree does. */
  lemma {:induction false} FindByNameIsFirstInPreOrder(n: NodeTree, name: string)
    ensures FindByName(n, name) == FirstNamed(PreOrder(n), name)
    decreases n, |n.children| + 1
  {
    FirstNamedAppend([n], PreOrderFrom(n, 0), name);
    if n.name != name {
      assert FirstNamed([n], name) == None by { assert [n][1..] == []; }
      FindInChildrenIsFirst(n, 0, name);
    }
  }

  lemma {:induction false} FindInChildrenIsFirst(n: NodeTree, i: nat, name: string)
    ensures FindInChildren(n, i, name) == FirstNamed(PreOrderFrom(n, i), name)
    decreases n, |n.children| - i
  {
    if i < |n.children| {
      FindByNameIsFirstInPreOrder(n.children[i], name);
      FirstNamedAppend(PreOrder(n.children[i]), PreOrderFrom(n, i + 1), name);
      FindInChildrenIsFirst(n, i + 1, name);
    }
  }

  /** What the search promises: a matching root is returned as is; any
      result carries the name and lies in the subtree; no result means no
      node of the subtree has the name. */
  lemma FindByNameSpec(n: NodeTree, name: string)
    ensures n.name == name ==> FindByName(n, name) == Some(n)
    ensures FindByName(n, name).Some? ==>
              FindByName(n, name).value.name == name && FindByName(n, name).value in PreOrder(n)
    ensures FindByName(n, name).None? <==>
              forall k :: 0 <= k < |PreOrder(n)| ==> PreOrder(n)[k].name != name
  {
    FindByNameIsFirstInPreOrder(n, name);
  }

  // ---------------------------------------------------------------------
  // Curve binding

  datatype Binding = BoneBinding(bone: nat) | NodeBinding(node: nat)

  /** The node a curve binds to: the target itself when it carries the
      curve's name, otherwise the first node below it with that name. */
  function NodeNamed(t: Target, name: string): Option<nat>
  {
    if t.tree.name == name then Some(t.tree.id)
    else match FindByName(t.tree, name)
      case Some(m) => Some(m.id)
      case None => None
  }

  /** Where the curve called `name` is bound when the controller starts on
      `t`: on a sprite with a skeleton, a bone of that name, else a node of
      that name; on a sprite without a skeleton, nowhere; on any other node,
      a node of that name. */
  function Resolve(t: Target, name: string): Option<Binding>
  {
    if t.isSprite then
      match t.skeleton
      case None => None
      case Some(skin) =>
        if name in skin then Some(BoneBinding(skin[name]))
        else match NodeNamed(t, name)
          case Some(id) => Some(NodeBinding(id))
          case None => None
    else
      match NodeNamed(t, name)
      case Some(id) => Some(NodeBinding(id))
      case None => None
  }

  /** The node search, including the explicit root test before it, binds
      only to a node of the target's subtree that carries the curve's name. */
  lemma NodeNamedFindsName(t: Target, name: string)
    ensures NodeNamed(t, name) == (match FindByName(t.tree, name) case Some(m) => Some(m.id) case None => None)
    ensures NodeNamed(t, name).Some? ==>
              exists k :: 0 <= k < |PreOrder(t.tree)| && PreOrder(t.tree)[k].name == name &&
                          PreOrder(t.tree)[k].id == NodeNamed(t, name).value
  {
    FindByNameSpec(t.tree, name);
    if NodeNamed(t, name).Some? {
      var m := FindByName(t.tree, name).value;
      var k :| 0 <= k < |PreOrder(t.tree)| && PreOrder(t.tree)[k] == m;
    }
  }

  /** The bone table `_boneCurves` after binding the first `k` curves: each
      bone maps to the last curve that resolved to it. */
  function BoneBindings(t: Target, names: seq<string>, k: nat): map<nat, string>
    requires k <= |names|
  {
    if k == 0 then map[]
    else
      var prev := BoneBindings(t, names, k - 1);
      match Resolve(t, names[k - 1])
      case Some(BoneBinding(b)) => prev[b := names[k - 1]]
      case _ => prev
  }

  /** The node table `_nodeCurves` after binding the first `k` curves. */
  function NodeBindings(t: Target, names: seq<string>, k: nat): map<nat, string>
    requires k <= |names|
  {
    if k == 0 then map[]
    else
      var prev := NodeBindings(t, names, k - 1);
      match Resolve(t, names[k - 1])
      case Some(NodeBinding(n)) => prev[n := names[k - 1]]
      case _ => prev
  }

  /** Every bone entry resolves back to its bone, every node entry to its
      node, and each names one of the curves walked. */
  lemma {:induction false} BindingsSound(t: Target, names: seq<string>, k: nat)
    requires k <= |names|
    ensures forall b :: b in BoneBindings(t, names, k) ==>
              Resolve(t, BoneBindings(t, names, k)[b]) == Some(BoneBinding(b)) &&
              BoneBindings(t, names, k)[b] in names[..k]
    ensures forall n :: n in NodeBindings(t, names, k) ==>
              Resolve(t, NodeBindings(t, names, k)[n]) == Some(NodeBinding(n)) &&
              NodeBindings(t, names, k)[n] in names[..k]
  {
    if k > 0 {
      BindingsSound(t, names, k - 1);
      assert names[..k - 1] <= names[..k];
    }
  }

  /** Every curve that resolves somewhere is bound there. */
  lemma {:induction false} BindingsComplete(t: Target, names: seq<string>, k: nat)
    requires k <= |names|
    ensures forall i :: 0 <= i < k && Resolve(t, names[i]).Some? && Resolve(t, names[i]).value.BoneBinding? ==>
              Resolve(t, names[i]).value.bone in BoneBindings(t, names, k)
    ensures forall i :: 0 <= i < k && Resolve(t, names[i]).Some? && Resolve(t, names[i]).value.NodeBinding? ==>
              Resolve(t, names[i]).value.node in NodeBindings(t, names, k)
  {
    if k > 0 { BindingsComplete(t, names, k - 1); }
  }

  /** On a sprite, a curve whose name is a skeleton bone binds to that bone
      and never to a node; a sprite without skeleton binds nothing; any
      other target binds no bone. */
  lemma BindingKinds(t: Target, names: seq<string>)
    ensures t.isSprite && t.skeleton.Some? ==>
              forall n :: n in NodeBindings(t, names, |names|) ==>
                NodeBindings(t, names, |names|)[n] !in t.skeleton.value
    ensures t.isSprite && t.skeleton.Some? ==>
              forall b :: b in BoneBindings(t, names, |names|) ==>
                BoneBindings(t, names, |names|)[b] in t.skeleton.value &&
                t.skeleton.value[BoneBindings(t, names, |names|)[b]] == b
    ensures t.isSprite && t.skeleton.None? ==>
              BoneBindings(t, names, |names|) == map[] && NodeBindings(t, names, |names|) == map[]
    ensures !t.isSprite ==> BoneBindings(t, names, |names|) == map[]
  {
    if t.isSprite && t.skeleton.Some? {
      BindingsSound(t, names, |names|);
      var bones := BoneBindings(t, names, |names|);
      forall b | b in bones
        ensures bones[b] in t.skeleton.value && t.skeleton.value[bones[b]] == b
      {
        assert Resolve(t, bones[b]) == Some(BoneBinding(b));
      }
    }
    UnboundKinds(t, names, |names|);
  }

  lemma {:induction false} UnboundKinds(t: Target, names: seq<string>, k: nat)
    requires k <= |names|
    ensures (t.isSprite && t.skeleton.None?) || !t.isSprite ==> BoneBindings(t, names, k) == map[]
    ensures t.isSprite && t.skeleton.None? ==> NodeBindings(t, names, k) == map[]
  {
    if k > 0 { UnboundKinds(t, names, k - 1); }
  }

  // ---------------------------------------------------------------------
  // Setup arithmetic

  /** The length `init(animation, fromTime, duration)` keeps: the request,
      cut at the end of the animation. */
  function ClampedDuration(full: real, from: real, d: real): (r: real)
    ensures r <= full - from && r <= d
    ensures r == d || r == full - from
  {
    if d > full - from then full - from else d
  }

  /** `initWithFrames`: the start time and length of a frame range. */
  function FrameRange(startFrame: int, endFrame: int, frameRate: real): (r: (real, real))
    requires frameRate != 0.0
    ensures r.0 * frameRate == startFrame as real
    ensures r.1 * frameRate == (endFrame - startFrame) as real
  {
    var perFrameTime := 1.0 / frameRate;
    (startFrame as real * perFrameTime, (endFrame - startFrame) as real * perFrameTime)
  }

  /** The evaluators `setQuality` installs; `QUALITY_NONE` keeps the ones
      already set. */
  function QualityEvaluators(q: Quality, prior: Evaluators): Evaluators
  {
    match q
    case QualityHigh => Evaluators(IntLinear, IntQuatSlerp, IntLinear)
    case QualityLow => Evaluators(IntNear, IntNear, IntNear)
    case QualityNone => prior
  }

  /** `getSpeed`: the speed magnitude, negated when playing in reverse. */
  function SignedSpeed(absSpeed: real, playReverse: bool): real
  {
    if playReverse then -absSpeed else absSpeed
  }

  /** `setSpeed(s)` stores |s| and the sign; reading the speed back gives s. */
  lemma SpeedRoundTrip(s: real)
    ensures SignedSpeed(Abs(s), s < 0.0) == s
    ensures Abs(s) >= 0.0
  {
  }

  // ---------------------------------------------------------------------
  // Fade bookkeeping

  datatype FadeStep = FadeStep(state: State, weight: real, acc: real, settled: bool)

  /** The fade part of `update(t)`: a fading controller that has been
      sampled before accumulates `(t - lastTime) * duration` of fade time;
      fading in, its weight is the fraction of the transition time elapsed
      and it settles into `Running` at 1; fading out, its weight is the
      fraction left and it settles at 0. `settled` says the fade ended on
      this step. */
  function Fade(state: State, weight: real, acc: real, lastTime: real, t: real, duration: real, transTime: real): (r: FadeStep)
    requires state != Running && lastTime > 0.0 ==> transTime > 0.0
    ensures !(state != Running && lastTime > 0.0) ==> r == FadeStep(state, weight, acc, false)
    ensures state == FadeIn && lastTime > 0.0 ==>
              (r.settled <==> acc + (t - lastTime) * duration >= transTime) &&
              (r.settled ==> r.state == Running && r.weight == 1.0 && r.acc == transTime) &&
              (!r.settled ==> r.state == FadeIn && r.acc == acc + (t - lastTime) * duration &&
                              r.weight * transTime == r.acc)
    ensures state == FadeOut && lastTime > 0.0 ==>
              r.state == FadeOut &&
              (r.settled <==> acc + (t - lastTime) * duration >= transTime) &&
              (r.settled ==> r.weight == 0.0 && r.acc == transTime) &&
              (!r.settled ==> r.acc == acc + (t - lastTime) * duration &&
                              r.weight * transTime == transTime - r.acc)
  {
    if state == FadeIn && lastTime > 0.0 then
      var a := acc + (t - lastTime) * duration;
      var w := a / transTime;
      if w >= 1.0 then FadeStep(Running, 1.0, transTime, true) else FadeStep(FadeIn, w, a, false)
    else if state == FadeOut && lastTime > 0.0 then
      var a := acc + (t - lastTime) * duration;
      var w := 1.0 - a / transTime;
      if w <= 0.0 then FadeStep(FadeOut, 0.0, transTime, true) else FadeStep(FadeOut, w, a, false)
    else FadeStep(state, weight, acc, false)
  }

  lemma ProductNonNegative(a: real, b: real)
    requires 0.0 <= a && 0.0 <= b
    ensures 0.0 <= a * b
  {
  }

  /** With time moving forward and a non-negative accumulated fade time, a
      fade step leaves the weight in [0, 1] and the fade time in
      [0, transTime]. */
  lemma FadeStaysInUnitRange(state: State, weight: real, acc: real, lastTime: real, t: real, duration: real, transTime: real)
    requires state != Running && lastTime > 0.0
    requires transTime > 0.0 && 0.0 <= acc && lastTime <= t && 0.0 <= duration
    ensures 0.0 <= Fade(state, weight, acc, lastTime, t, duration, transTime).weight <= 1.0
    ensures 0.0 <= Fade(state, weight, acc, lastTime, t, duration, transTime).acc <= transTime
    ensures Fade(state, weight, acc, lastTime, t, duration, transTime).settled ==>
              Fade(state, weight, acc, lastTime, t, duration, transTime).acc == transTime
  {
    var r := Fade(state, weight, acc, lastTime, t, duration, transTime);
    ProductNonNegative(t - lastTime, duration);
    if !r.settled {
      assert 0.0 <= r.acc < transTime;
      if state == FadeIn {
        assert r.weight * transTime < 1.0 * transTime;
      } else {
        assert r.weight * transTime <= 1.0 * transTime;
      }
    }
  }

  /** A controller fading in and one fading out with the same accumulated
      fade time, stepped over the same stretch of real time, always have
      weights that add up to 1 and settle on the same step. Each keeps its
      own normalised time and duration; what they share is the elapsed fade
      time `(t - lastTime) * duration`. */
  lemma CrossFadeWeightsSumToOne(wIn: real, wOut: real, acc: real, transTime: real,
                                 lastIn: real, tIn: real, durIn: real,
                                 lastOut: real, tOut: real, durOut: real)
    requires lastIn > 0.0 && lastOut > 0.0 && transTime > 0.0
    requires (tIn - lastIn) * durIn == (tOut - lastOut) * durOut
    ensures Fade(FadeIn, wIn, acc, lastIn, tIn, durIn, transTime).weight +
            Fade(FadeOut, wOut, acc, lastOut, tOut, durOut, transTime).weight == 1.0
    ensures Fade(FadeIn, wIn, acc, lastIn, tIn, durIn, transTime).settled ==
            Fade(FadeOut, wOut, acc, lastOut, tOut, durOut, transTime).settled
  {
    var i := Fade(FadeIn, wIn, acc, lastIn, tIn, durIn, transTime);
    var o := Fade(FadeOut, wOut, acc, lastOut, tOut, durOut, transTime);
    if !i.settled {
      assert (i.weight + o.weight) * transTime == 1.0 * transTime;
    }
  }

  /** The time `update(t)` samples the curves at: the normalised time,
      mirrored when playing in reverse, mapped into the sub-range. */
  function SampleTime(start: real, last: real, playReverse: bool, t: real): real
  {
    start + (if playReverse then 1.0 - t else t) * last
  }

  /** Sampling stays within the sub-range `[start, start + last]`, and
      reverse play at `t` samples what forward play does at `1 - t`. */
  lemma SampleTimeInRange(start: real, last: real, playReverse: bool, t: real)
    requires 0.0 <= t <= 1.0 && 0.0 <= last
    ensures start <= SampleTime(start, last, playReverse, t) <= start + last
    ensures SampleTime(start, last, true, t) == SampleTime(start, last, false, 1.0 - t)
    ensures SampleTime(start, last, playReverse, 0.0) == if playReverse then start + last else start
  {
    var u := if playReverse then 1.0 - t else t;
    assert 0.0 <= u * last by { assert 0.0 <= u; }
    assert u * last <= last by { assert 0.0 <= (1.0 - u) * last; }
  }

  // ---------------------------------------------------------------------
  // Registries and controllers

  /** The class-wide registries of `MGRAnimate3D` and the transition time. */
  class Scheduler {
    var fadeIn: map<nat, Animate3D>
    var fadeOut: map<nat, Animate3D>
    var running: map<nat, Animate3D>
    var transTime: real

    constructor ()
      ensures fadeIn == map[] && fadeOut == map[] && running == map[]
      ensures transTime == 0.1
    {
      fadeIn := map[];
      fadeOut := map[];
      running := map[];
      transTime := 0.1;
    }
  }

  class Animate3D {
    const sched: Scheduler
    var animation: Animation3D
    var target: Option<nat>
    var state: State
    var weight: real
    var accTransTime: real
    var lastTime: real
    var absSpeed: real
    var start: real
    var last: real
    var playReverse: bool
    var duration: real
    var originInterval: real
    var quality: Quality
    var evaluators: Evaluators
    var boneCurves: map<nat, string>
    var nodeCurves: map<nat, string>

    /** The fields the play-back setup owns, which starting, updating and
        stopping leave alone. */
    twostate predicate SetupUnchanged()
      reads this
    {
      animation == old(animation) && absSpeed == old(absSpeed) && start == old(start) &&
      last == old(last) && playReverse == old(playReverse) && duration == old(duration) &&
      originInterval == old(originInterval) && quality == old(quality) &&
      evaluators == old(evaluators)
    }

    /** The fade fields: state, weight, accumulated fade time, last time. */
    twostate predicate FadeUnchanged()
      reads this
    {
      state == old(state) && weight == old(weight) && accTransTime == old(accTransTime) &&
      lastTime == old(lastTime)
    }

    /** The target and the curve tables bound on it. */
    twostate predicate BindingUnchanged()
      reads this
    {
      target == old(target) && boneCurves == old(boneCurves) && nodeCurves == old(nodeCurves)
    }

    /** `create(animation)`: the constructor defaults, then `init(animation)`
        with the configured quality. */
    constructor (s: Scheduler, anim: Animation3D, configured: Quality)
      ensures sched == s && animation == anim && target == None
      ensures state == Running && weight == 1.0 && accTransTime == 0.0 && lastTime == 0.0
      ensures absSpeed == 1.0 && start == 0.0 && last == 1.0 && !playReverse
      ensures duration == anim.duration && originInterval == anim.duration
      ensures quality == configured
      ensures evaluators == QualityEvaluators(configured, QualityEvaluators(QualityHigh, Evaluators(IntLinear, IntLinear, IntLinear)))
      ensures boneCurves == map[] && nodeCurves == map[]
    {
      sched := s;
      animation := anim;
      target := None;
      state := Running;
      weight := 1.0;
      accTransTime := 0.0;
      lastTime := 0.0;
      absSpeed := 1.0;
      start := 0.0;
      last := 1.0;
      playReverse := false;
      duration := anim.duration;
      originInterval := anim.duration;
      quality := configured;
      evaluators := QualityEvaluators(configured, QualityEvaluators(QualityHigh, Evaluators(IntLinear, IntLinear, IntLinear)));
      boneCurves := map[];
      nodeCurves := map[];
    }

    /** `create(animation, fromTime, duration)`: the sub-range `[from, from +
        d]`, cut at the animation's end, as fractions of its length. */
    constructor Range(s: Scheduler, anim: Animation3D, from: real, d: real, configured: Quality)
      requires anim.duration != 0.0
      ensures sched == s && animation == anim && target == None
      ensures state == Running && weight == 1.0 && accTransTime == 0.0 && lastTime == 0.0
      ensures absSpeed == 1.0 && !playReverse
      ensures duration == ClampedDuration(anim.duration, from, d) && originInterval == duration
      ensures start * anim.duration == from && last * anim.duration == duration
      ensures quality == configured
      ensures evaluators == QualityEvaluators(configured, QualityEvaluators(QualityHigh, Evaluators(IntLinear, IntLinear, IntLinear)))
      ensures boneCurves == map[] && nodeCurves == map[]
    {
      var kept := ClampedDuration(anim.duration, from, d);
      sched := s;
      animation := anim;
      target := None;
      state := Running;
      weight := 1.0;
      accTransTime := 0.0;
      lastTime := 0.0;
      absSpeed := 1.0;
      start := from / anim.duration;
      last := kept / anim.duration;
      playReverse := false;
      duration := kept;
      originInterval := kept;
      quality := configured;
      evaluators := QualityEvaluators(configured, QualityEvaluators(QualityHigh, Evaluators(IntLinear, IntLinear, IntLinear)));
      boneCurves := map[];
      nodeCurves := map[];
    }

    /** `createWithFrames`: the frame range turned into a time range. */
    constructor Frames(s: Scheduler, anim: Animation3D, startFrame: int, endFrame: int, frameRate: real, configured: Quality)
      requires anim.duration != 0.0 && frameRate != 0.0
      ensures sched == s && animation == anim && target == None
      ensures state == Running && weight == 1.0 && accTransTime == 0.0 && lastTime == 0.0
      ensures absSpeed == 1.0 && !playReverse
      ensures duration == ClampedDuration(anim.duration, FrameRange(startFrame, endFrame, frameRate).0,
                                          FrameRange(startFrame, endFrame, frameRate).1)
      ensures start * anim.duration * frameRate == startFrame as real
      ensures last * anim.duration == duration && originInterval == duration
      ensures quality == configured
      ensures evaluators == QualityEvaluators(configured, QualityEvaluators(QualityHigh, Evaluators(IntLinear, IntLinear, IntLinear)))
      ensures boneCurves == map[] && nodeCurves == map[]
    {
      var range := FrameRange(startFrame, endFrame, frameRate);
      var kept := ClampedDuration(anim.duration, range.0, range.1);
      sched := s;
      animation := anim;
      target := None;
      state := Running;
      weight := 1.0;
      accTransTime := 0.0;
      lastTime := 0.0;
      absSpeed := 1.0;
      start := range.0 / anim.duration;
      last := kept / anim.duration;
      playReverse := false;
      duration := kept;
      originInterval := kept;
      quality := configured;
      evaluators := QualityEvaluators(configured, QualityEvaluators(QualityHigh, Evaluators(IntLinear, IntLinear, IntLinear)));
      boneCurves := map[];
      nodeCurves := map[];
    }

    function GetSpeed(): real
      reads this
    {
      SignedSpeed(absSpeed, playReverse)
    }

    /** `setSpeed`: the magnitude rescales the play-back duration, the sign
        picks the direction. */
    method SetSpeed(s: real)
      requires s != 0.0
      modifies this
      ensures GetSpeed() == s && absSpeed == Abs(s) && playReverse == (s < 0.0)
      ensures duration * Abs(s) == originInterval
      ensures originInterval == old(originInterval) && start == old(start) && last == old(last)
      ensures animation == old(animation) && quality == old(quality) && evaluators == old(evaluators)
      ensures FadeUnchanged() && BindingUnchanged()
    {
      absSpeed := Abs(s);
      playReverse := s < 0.0;
      duration := originInterval / absSpeed;
      SpeedRoundTrip(s);
    }

    /** `setWeight`: the weight is stored as a magnitude. */
    method SetWeight(w: real)
      modifies this
      ensures weight == Abs(w) && weight >= 0.0
      ensures w >= 0.0 ==> weight == w
      ensures state == old(state) && accTransTime == old(accTransTime) && lastTime == old(lastTime)
      ensures SetupUnchanged() && BindingUnchanged()
    {
      weight := Abs(w);
    }

    /** `setQuality`: high and low pick their interpolations, none keeps the
        previous ones. */
    method SetQuality(q: Quality)
      modifies this
      ensures quality == q
      ensures q == QualityHigh ==> evaluators == Evaluators(IntLinear, IntQuatSlerp, IntLinear)
      ensures q == QualityLow ==> evaluators == Evaluators(IntNear, IntNear, IntNear)
      ensures q == QualityNone ==> evaluators == old(evaluators)
      ensures animation == old(animation) && absSpeed == old(absSpeed) && playReverse == old(playReverse)
      ensures start == old(start) && last == old(last) && duration == old(duration)
      ensures originInterval == old(originInterval)
      ensures FadeUnchanged() && BindingUnchanged()
    {
      evaluators := QualityEvaluators(q, evaluators);
      quality := q;
    }

    /** `clone`: a new controller on the same animation with this one's
        speed, weight, sub-range, direction and durations. */
    method Clone(configured: Quality) returns (c: Animate3D)
      ensures fresh(c)
      ensures c.sched == sched && c.animation == animation && c.target == None && c.state == Running
      ensures c.absSpeed == absSpeed && c.weight == weight && c.start == start && c.last == last
      ensures c.playReverse == playReverse && c.duration == duration && c.originInterval == originInterval
      ensures c.quality == configured
      ensures c.evaluators == QualityEvaluators(configured, QualityEvaluators(QualityHigh, Evaluators(IntLinear, IntLinear, IntLinear)))
      ensures c.accTransTime == 0.0 && c.lastTime == 0.0
      ensures c.boneCurves == map[] && c.nodeCurves == map[]
    {
      c := new Animate3D(sched, animation, configured);
      c.absSpeed := absSpeed;
      c.weight := weight;
      c.start := start;
      c.last := last;
      c.playReverse := playReverse;
      c.duration := duration;
      c.originInterval := originInterval;
    }

    /** `reverse`: a clone playing the other way. */
    method Reverse(configured: Quality) returns (c: Animate3D)
      ensures fresh(c)
      ensures c.sched == sched && c.animation == animation && c.playReverse == !playReverse
      ensures c.GetSpeed() == -GetSpeed()
      ensures c.absSpeed == absSpeed && c.start == start && c.last == last && c.weight == weight
      ensures c.duration == duration && c.originInterval == originInterval
      ensures c.target == None && c.state == Running && c.accTransTime == 0.0 && c.lastTime == 0.0
      ensures c.quality == configured
      ensures c.evaluators == QualityEvaluators(configured, QualityEvaluators(QualityHigh, Evaluators(IntLinear, IntLinear, IntLinear)))
      ensures c.boneCurves == map[] && c.nodeCurves == map[]
    {
      c := Clone(configured);
      c.playReverse := !c.playReverse;
    }

    /** Reversing a reversed controller restores the original direction. */
    method ReverseTwice(configured: Quality) returns (c: Animate3D)
      ensures fresh(c)
      ensures c.playReverse == playReverse && c.GetSpeed() == GetSpeed()
      ensures c.start == start && c.last == last && c.duration == duration
    {
      var once := Reverse(configured);
      c := once.Reverse(configured);
    }

    /** Binds every curve of the animation on `t`, walking the curve table in
        order and overwriting a bone's or node's earlier entry. */
    method Rebind(t: Target)
      modifies this
      ensures boneCurves == BoneBindings(t, animation.curveNames, |animation.curveNames|)
      ensures nodeCurves == NodeBindings(t, animation.curveNames, |animation.curveNames|)
      ensures SetupUnchanged() && target == old(target) && state == old(state) && weight == old(weight)
      ensures accTransTime == old(accTransTime) && lastTime == old(lastTime)
    {
      boneCurves := map[];
      nodeCurves := map[];
      var names := animation.curveNames;
      var i := 0;
      while i < |names|
        invariant 0 <= i <= |names|
        invariant boneCurves == BoneBindings(t, names, i)
        invariant nodeCurves == NodeBindings(t, names, i)
        invariant SetupUnchanged() && target == old(target) && state == old(state) && weight == old(weight)
        invariant accTransTime == old(accTransTime) && lastTime == old(lastTime)
      {
        var name := names[i];
        var binding := Resolve(t, name);
        if binding.Some? && binding.value.BoneBinding? {
          boneCurves := boneCurves[binding.value.bone := name];
        } else if binding.Some? {
          nodeCurves := nodeCurves[binding.value.node := name];
        }
        i := i + 1;
      }
    }

    /** `startWithTarget`: rebinds the curves when the target changes, then
        hands the target over (see `HandOver`). */
    method StartWithTarget(t: Target)
      modifies this, sched, if t.tree.id in sched.running then {sched.running[t.tree.id]} else {}
      ensures target == Some(t.tree.id)
      ensures old(target) != Some(t.tree.id) ==>
                boneCurves == BoneBindings(t, animation.curveNames, |animation.curveNames|) &&
                nodeCurves == NodeBindings(t, animation.curveNames, |animation.curveNames|)
      ensures old(target) == Some(t.tree.id) ==>
                boneCurves == old(boneCurves) && nodeCurves == old(nodeCurves)
      ensures SetupUnchanged() && sched.transTime == old(sched.transTime)
      // the target runs another controller: immediate hand-over
      ensures t.tree.id in old(sched.running) && old(sched.running)[t.tree.id] != this &&
              old(sched.transTime) < 0.001 ==>
                var r := old(sched.running)[t.tree.id];
                sched.running == old(sched.running)[t.tree.id := this] &&
                sched.fadeIn == old(sched.fadeIn) && sched.fadeOut == old(sched.fadeOut) &&
                state == Running && weight == 1.0 &&
                accTransTime == old(accTransTime) && lastTime == old(lastTime) &&
                r.FadeUnchanged() && r.BindingUnchanged() && r.SetupUnchanged()
      // the target runs another controller: cross-fade
      ensures t.tree.id in old(sched.running) && old(sched.running)[t.tree.id] != this &&
              old(sched.transTime) >= 0.001 ==>
                var r := old(sched.running)[t.tree.id];
                sched.running == old(sched.running) &&
                sched.fadeOut == old(sched.fadeOut)[t.tree.id := r] &&
                sched.fadeIn == old(sched.fadeIn)[t.tree.id := this] &&
                r.state == FadeOut && r.weight == 1.0 && r.accTransTime == 0.0 && r.lastTime == 0.0 &&
                r.BindingUnchanged() && r.SetupUnchanged() &&
                state == FadeIn && weight == 0.0 && accTransTime == 0.0 && lastTime == 0.0
      // the target already runs this controller: no hand-over
      ensures t.tree.id in old(sched.running) && old(sched.running)[t.tree.id] == this ==>
                sched.running == old(sched.running) && sched.fadeIn == old(sched.fadeIn) &&
                sched.fadeOut == old(sched.fadeOut) &&
                state == old(state) && weight == old(weight) &&
                accTransTime == old(accTransTime) && lastTime == old(lastTime)
      // nothing runs on the target
      ensures t.tree.id !in old(sched.running) ==>
                sched.running == old(sched.running)[t.tree.id := this] &&
                sched.fadeIn == old(sched.fadeIn) - {t.tree.id} && sched.fadeOut == old(sched.fadeOut) &&
                state == Running && weight == 1.0 &&
                accTransTime == old(accTransTime) && lastTime == old(lastTime)
    {
      var id := t.tree.id;
      var needReMap := target != Some(id);
      if needReMap {
        Rebind(t);
      }
      target := Some(id);
      HandOver(id);
    }

    /** The registry part of `startWithTarget(id)`. A different controller
        running on the target is replaced at once when the transition time
        is below 0.001 and otherwise fades out while this one fades in;
        with nothing running, this one runs and any fade-in entry is
        dropped. */
    method HandOver(id: nat)
      modifies this, sched, if id in sched.running then {sched.running[id]} else {}
      ensures target == old(target) && boneCurves == old(boneCurves) && nodeCurves == old(nodeCurves)
      ensures SetupUnchanged() && sched.transTime == old(sched.transTime)
      // the target runs another controller: immediate hand-over
      ensures id in old(sched.running) && old(sched.running)[id] != this &&
              old(sched.transTime) < 0.001 ==>
                var r := old(sched.running)[id];
                sched.running == old(sched.running)[id := this] &&
                sched.fadeIn == old(sched.fadeIn) && sched.fadeOut == old(sched.fadeOut) &&
                state == Running && weight == 1.0 &&
                accTransTime == old(accTransTime) && lastTime == old(lastTime) &&
                r.FadeUnchanged() && r.BindingUnchanged() && r.SetupUnchanged()
      // the target runs another controller: cross-fade
      ensures id in old(sched.running) && old(sched.running)[id] != this &&
              old(sched.transTime) >= 0.001 ==>
                var r := old(sched.running)[id];
                sched.running == old(sched.running) &&
                sched.fadeOut == old(sched.fadeOut)[id := r] &&
                sched.fadeIn == old(sched.fadeIn)[id := this] &&
                r.state == FadeOut && r.weight == 1.0 && r.accTransTime == 0.0 && r.lastTime == 0.0 &&
                r.BindingUnchanged() && r.SetupUnchanged() &&
                state == FadeIn && weight == 0.0 && accTransTime == 0.0 && lastTime == 0.0
      // the target already runs this controller: no hand-over
      ensures id in old(sched.running) && old(sched.running)[id] == this ==>
                sched.running == old(sched.running) && sched.fadeIn == old(sched.fadeIn) &&
                sched.fadeOut == old(sched.fadeOut) &&
                state == old(state) && weight == old(weight) &&
                accTransTime == old(accTransTime) && lastTime == old(lastTime)
      // nothing runs on the target
      ensures id !in old(sched.running) ==>
                sched.running == old(sched.running)[id := this] &&
                sched.fadeIn == old(sched.fadeIn) - {id} && sched.fadeOut == old(sched.fadeOut) &&
                state == Running && weight == 1.0 &&
                accTransTime == old(accTransTime) && lastTime == old(lastTime)
    {
      if id in sched.running {
        var action := sched.running[id];
        if action != this {
          if sched.transTime < 0.001 {
            sched.running := sched.running[id := this];
            state := Running;
            weight := 1.0;
          } else {
            FadeOver(id, action);
          }
        }
      } else {
        sched.fadeIn := sched.fadeIn - {id};
        sched.running := sched.running[id := this];
        state := Running;
        weight := 1.0;
      }
    }

    /** The cross-fade branch of the hand-over: `action` starts fading out
        from full weight and this controller fades in from zero. */
    method FadeOver(id: nat, action: Animate3D)
      requires action != this
      modifies this, sched, action
      ensures sched.fadeOut == old(sched.fadeOut)[id := action] && sched.fadeIn == old(sched.fadeIn)[id := this]
      ensures sched.running == old(sched.running) && sched.transTime == old(sched.transTime)
      ensures action.state == FadeOut && action.weight == 1.0 && action.accTransTime == 0.0 && action.lastTime == 0.0
      ensures action.BindingUnchanged() && action.SetupUnchanged()
      ensures state == FadeIn && weight == 0.0 && accTransTime == 0.0 && lastTime == 0.0
      ensures target == old(target) && boneCurves == old(boneCurves) && nodeCurves == old(nodeCurves)
      ensures SetupUnchanged()
    {
      sched.fadeOut := sched.fadeOut[id := action];
      action.state := FadeOut;
      action.accTransTime := 0.0;
      action.weight := 1.0;
      action.lastTime := 0.0;

      sched.fadeIn := sched.fadeIn[id := this];
      accTransTime := 0.0;
      state := FadeIn;
      weight := 0.0;
      lastTime := 0.0;
    }

    /** `update(t)`: the fade step, the registry move when a fade settles,
        and the time the curves are sampled at, if they are: only with a
        quality other than none and a positive weight. */
    method Update(t: real) returns (sample: Option<real>)
      requires target.Some? && state != Running && lastTime > 0.0 ==> sched.transTime > 0.0
      modifies this, sched
      ensures SetupUnchanged() && target == old(target) && sched.transTime == old(sched.transTime)
      ensures boneCurves == old(boneCurves) && nodeCurves == old(nodeCurves)
      ensures old(target).None? ==>
                sample == None && state == old(state) && weight == old(weight) &&
                accTransTime == old(accTransTime) && lastTime == old(lastTime) &&
                sched.fadeIn == old(sched.fadeIn) && sched.fadeOut == old(sched.fadeOut) &&
                sched.running == old(sched.running)
      ensures old(target).Some? ==>
                var step := Fade(old(state), old(weight), old(accTransTime), old(lastTime), t, duration, sched.transTime);
                var id := old(target).value;
                state == step.state && weight == step.weight && accTransTime == step.acc && lastTime == t &&
                (step.settled && old(state) == FadeIn ==>
                   sched.fadeIn == old(sched.fadeIn) - {id} && sched.running == old(sched.running)[id := this] &&
                   sched.fadeOut == old(sched.fadeOut)) &&
                (step.settled && old(state) == FadeOut ==>
                   sched.fadeOut == old(sched.fadeOut) - {id} &&
                   sched.fadeIn == old(sched.fadeIn) && sched.running == old(sched.running)) &&
                (!step.settled ==>
                   sched.fadeIn == old(sched.fadeIn) && sched.fadeOut == old(sched.fadeOut) &&
                   sched.running == old(sched.running)) &&
                sample == if quality != QualityNone && weight > 0.0
                          then Some(SampleTime(start, last, playReverse, t)) else None
    {
      sample := None;
      if target.Some? {
        var id := target.value;
        var step := Fade(state, weight, accTransTime, lastTime, t, duration, sched.transTime);
        state := step.state;
        weight := step.weight;
        accTransTime := step.acc;
        if step.settled {
          if step.state == Running {
            sched.fadeIn := sched.fadeIn - {id};
            sched.running := sched.running[id := this];
          } else {
            sched.fadeOut := sched.fadeOut - {id};
          }
        }
        lastTime := t;
        if quality != QualityNone && weight > 0.0 {
          sample := Some(SampleTime(start, last, playReverse, t));
        }
      }
    }

    /** `removeFromMap`: the target's entry goes from all three registries,
        whichever controller it names; no other entry changes. */
    method RemoveFromMap()
      modifies sched
      ensures target.Some? ==>
                sched.fadeIn == old(sched.fadeIn) - {target.value} &&
                sched.fadeOut == old(sched.fadeOut) - {target.value} &&
                sched.running == old(sched.running) - {target.value}
      ensures target.None? ==>
                sched.fadeIn == old(sched.fadeIn) && sched.fadeOut == old(sched.fadeOut) &&
                sched.running == old(sched.running)
      ensures sched.transTime == old(sched.transTime)
    {
      if target.Some? {
        var id := target.value;
        sched.fadeIn := sched.fadeIn - {id};
        sched.fadeOut := sched.fadeOut - {id};
        sched.running := sched.running - {id};
      }
    }

    /** `stop`: removes the registry entries, then the action base class
        forgets the target. */
    method Stop()
      modifies this, sched
      ensures old(target).Some? ==>
                var id := old(target).value;
                sched.running == old(sched.running) - {id} &&
                sched.fadeIn == old(sched.fadeIn) - {id} &&
                sched.fadeOut == old(sched.fadeOut) - {id}
      ensures old(target).None? ==>
                sched.fadeIn == old(sched.fadeIn) && sched.fadeOut == old(sched.fadeOut) &&
                sched.running == old(sched.running)
      ensures sched.transTime == old(sched.transTime)
      ensures target == None && boneCurves == old(boneCurves) && nodeCurves == old(nodeCurves)
      ensures SetupUnchanged() && FadeUnchanged()
    {
      RemoveFromMap();
      target := None;
    }
  }

  /** Starting controller `b` on a target that runs `a`, with a transition
      time of at least 0.001: right after the call `a` is fading out with
      weight 1, `b` is fading in with weight 0, and `a` still owns the
      running entry until `b`'s fade settles. */
  method CrossFade(s: Scheduler, a: Animate3D, b: Animate3D, t: Target)
    requires a.sched == s && b.sched == s && a != b
    requires t.tree.id in s.running && s.running[t.tree.id] == a && s.transTime >= 0.001
    modifies s, b, a
    ensures t.tree.id in s.fadeOut && s.fadeOut[t.tree.id] == a && a.state == FadeOut && a.weight == 1.0
    ensures t.tree.id in s.fadeIn && s.fadeIn[t.tree.id] == b && b.state == FadeIn && b.weight == 0.0
    ensures t.tree.id in s.running && s.running[t.tree.id] == a
  {
    b.StartWithTarget(t);
  }

  /** Starting `c` on a target leaves every controller other than `c` and
      the one running on that target as it was. */
  method StartLeavesOthers(c: Animate3D, t: Target, x: Animate3D)
    requires x != c && (t.tree.id in c.sched.running ==> x != c.sched.running[t.tree.id])
    modifies c, c.sched, if t.tree.id in c.sched.running then {c.sched.running[t.tree.id]} else {}
    ensures x.FadeUnchanged() && x.BindingUnchanged() && x.SetupUnchanged()
  {
    c.StartWithTarget(t);
  }

  /** Finishing a cross-fade: once both controllers have accumulated the
      whole transition time, the one fading out has left the fade-out
      registry, the one fading in has left the fade-in registry and owns
      the running entry, at weights 0 and 1. */
  method SettleCrossFade(s: Scheduler, a: Animate3D, b: Animate3D, id: nat, t: real)
    requires a.sched == s && b.sched == s && a != b
    requires a.target == Some(id) && b.target == Some(id)
    requires a.state == FadeOut && b.state == FadeIn && a.lastTime > 0.0 && b.lastTime > 0.0
    requires s.transTime > 0.0
    requires a.accTransTime + (t - a.lastTime) * a.duration >= s.transTime
    requires b.accTransTime + (t - b.lastTime) * b.duration >= s.transTime
    modifies s, a, b
    ensures id !in s.fadeIn && id !in s.fadeOut
    ensures id in s.running && s.running[id] == b
    ensures a.weight == 0.0 && b.weight == 1.0 && b.state == Running
  {
    var sa := a.Update(t);
    var sb := b.Update(t);
  }
}
