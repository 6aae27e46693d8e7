/**
 * The behaviour state machine of one animal (Wandering, Scanning, Hunting).
 *
 * A state is a value holding its own timers; `Step` is one call of the state's
 * OnUpdate, returning the state with its timers advanced, the states passed to
 * the changeState callback in the order they were passed, and whether the
 * animal moved. The callback only assigns, so the last request wins (`Applied`).
 * `OnUpdate` is the same step written the way AnimalStateMachine.cs runs it: it moves the
 * transform in place and picks the closest hit with the `GetClosest` loop.
 *
 * Perception is an input: `hits` are the targets the sphere cast returned, each
 * with its distance from the animal; for Hunting, whether the hunted target
 * still exists and how far away it is.
 */
module AnimalStates {
  import opened Engine

  /** Seconds a Wandering state walks before it asks for a new direction. */
  const WanderTime: real := 1.0
  /** Seconds Scanning takes for a full 360 degree turn. */
  const SecPerFullTurn: real := 1.0

  /** An opaque reference to a food object in the scene. */
  type TargetRef = nat

  /** One result of the sphere cast: the object hit and its distance from the animal. */
  datatype Hit = Hit(target: TargetRef, distance: real)

  datatype AnimalState =
    | Wandering(timer: real)
    | Scanning(rotateTimer: real, rotateTime: real)
    | Hunting(target: TargetRef)

  /** What the animal perceives during one update. */
  datatype Senses = Senses(hits: seq<Hit>, targetAlive: bool, targetDistance: real)

  /**
   * The effect of one OnUpdate: the state itself with its timers advanced, the
   * states passed to changeState in call order, and whether MoveForward ran.
   */
  datatype StepOutcome = StepOutcome(self: AnimalState, requests: seq<AnimalState>, moves: bool)

  function StateName(s: AnimalState): (name: string)
    ensures name == "Wandering" || name == "Scanning" || name == "Hunting"
    ensures name == "Wandering" <==> s.Wandering?
    ensures name == "Scanning" <==> s.Scanning?
    ensures name == "Hunting" <==> s.Hunting?
  {
    match s
    case Wandering(_) => "Wandering"
    case Scanning(_, _) => "Scanning"
    case Hunting(_) => "Hunting"
  }

  /** `new Scanning(animal, transform, degrees)`: the turn takes degrees/360 of a full turn's time. */
  function NewScanning(degrees: int): (s: AnimalState)
    ensures s.Scanning? && s.rotateTimer == 0.0
    ensures s.rotateTime * 360.0 == degrees as real * SecPerFullTurn
    ensures degrees <= 0 ==> s.rotateTime <= s.rotateTimer
  {
    Scanning(0.0, (degrees as real / 360.0) * SecPerFullTurn)
  }

  /** The position MoveForward leaves behind: a step along `forward`, clamped to the habitat square. */
  function Moved(p: Vec3, forward: Vec3, dexterity: int, dt: real, mapSize: real): (q: Vec3)
    ensures mapSize >= 0.0 ==> -mapSize <= q.x <= mapSize && -mapSize <= q.z <= mapSize
    ensures q.y == p.y + forward.y * dexterity as real * dt
    ensures var step := Add(p, Scale(Scale(forward, dexterity as real), dt));
            (-mapSize <= step.x <= mapSize ==> q.x == step.x) &&
            (-mapSize <= step.z <= mapSize ==> q.z == step.z)
  {
    var step := Add(p, Scale(Scale(forward, dexterity as real), dt));
    Vec3(Clamp(step.x, -mapSize, mapSize), step.y, Clamp(step.z, -mapSize, mapSize))
  }

  /** AnimalState.MoveForward: moves the transform, then clamps x and z to [-mapSize, mapSize]. */
  method MoveForward(transform: Transform, forward: Vec3, dexterity: int, dt: real, mapSize: real)
    modifies transform
    ensures transform.position == Moved(old(transform.position), forward, dexterity, dt, mapSize)
  {
    transform.position := Add(transform.position, Scale(Scale(forward, dexterity as real), dt));
    var p := transform.position;
    transform.position := Vec3(Clamp(p.x, -mapSize, mapSize), p.y, Clamp(p.z, -mapSize, mapSize));
  }

  /**
   * The index GetClosest ends on: the first hit whose distance is not larger
   * than any other, found left to right as the loop does.
   */
  function ClosestIndex(hits: seq<Hit>): (k: nat)
    requires |hits| > 0
    ensures k < |hits|
    ensures forall j :: 0 <= j < |hits| ==> hits[k].distance <= hits[j].distance
    ensures forall j :: 0 <= j < k ==> hits[j].distance > hits[k].distance
    decreases |hits|
  {
    if |hits| == 1 then 0
    else
      var k := ClosestIndex(hits[..|hits| - 1]);
      if hits[k].distance > hits[|hits| - 1].distance then |hits| - 1 else k
  }

  /** Being a minimum that no earlier hit ties singles out one index. */
  lemma FirstMinimumUnique(hits: seq<Hit>, k: nat)
    requires k < |hits|
    requires forall j :: 0 <= j < |hits| ==> hits[k].distance <= hits[j].distance
    requires forall j :: 0 <= j < k ==> hits[j].distance > hits[k].distance
    ensures k == ClosestIndex(hits)
  {
  }

  /** AnimalState.GetClosest: the earliest hit of least distance. */
  method GetClosest(hits: seq<Hit>) returns (hit: Hit)
    requires |hits| > 0
    ensures hit in hits
    ensures forall j :: 0 <= j < |hits| ==> hit.distance <= hits[j].distance
    ensures hit == hits[ClosestIndex(hits)]
  {
    hit := hits[0];
    ghost var k := 0;
    var i := 0;
    while i < |hits|
      invariant 0 <= i <= |hits|
      invariant k < |hits| && (k < i || k == 0) && hit == hits[k]
      invariant forall j :: 0 <= j < i ==> hit.distance <= hits[j].distance
      invariant forall j :: 0 <= j < k ==> hits[j].distance > hit.distance
    {
      var item := hits[i];
      if hit.distance > item.distance {
        hit := item;
        k := i;
      }
      i := i + 1;
    }
    FirstMinimumUnique(hits, k);
  }

  /** The Hunting request that a non-empty sphere cast adds. */
  function HuntRequest(hits: seq<Hit>): seq<AnimalState> {
    if |hits| > 0 then [Hunting(hits[ClosestIndex(hits)].target)] else []
  }

  /** One OnUpdate of state `s`; `degrees` is the Random.Range(-360, 360) draw for a new Scanning. */
  function Step(s: AnimalState, dt: real, sensing: int, senses: Senses, degrees: int): StepOutcome {
    match s
    case Wandering(timer) =>
      if timer < WanderTime then StepOutcome(Wandering(timer + dt), HuntRequest(senses.hits), true)
      else StepOutcome(s, [NewScanning(degrees)] + HuntRequest(senses.hits), false)
    case Scanning(rotateTimer, rotateTime) =>
      if rotateTimer < rotateTime then StepOutcome(Scanning(rotateTimer + dt, rotateTime), HuntRequest(senses.hits), false)
      else StepOutcome(s, [Wandering(0.0)] + HuntRequest(senses.hits), false)
    case Hunting(_) =>
      if !senses.targetAlive || senses.targetDistance > (sensing * 2) as real then StepOutcome(s, [NewScanning(degrees)], false)
      else StepOutcome(s, [], true)
  }

  /** The state the animal holds after the update: the last request, or itself when none was made. */
  function Applied(o: StepOutcome): AnimalState {
    if |o.requests| > 0 then o.requests[|o.requests| - 1] else o.self
  }

  /**
   * OnUpdate of Wandering, Scanning and Hunting as AnimalStateMachine.cs runs it: timers
   * advance in place, MoveForward moves the transform, and every changeState
   * call is appended to `requests`.
   */
  method OnUpdate(s: AnimalState, transform: Transform, forward: Vec3, dexterity: int, mapSize: real,
                  dt: real, sensing: int, senses: Senses, degrees: int)
    returns (self: AnimalState, requests: seq<AnimalState>)
    modifies transform
    ensures var o := Step(s, dt, sensing, senses, degrees);
            self == o.self && requests == o.requests &&
            transform.position == if o.moves then Moved(old(transform.position), forward, dexterity, dt, mapSize)
                                  else old(transform.position)
  {
    self := s;
    requests := [];
    match s {
      case Wandering(timer) =>
        if timer < WanderTime {
          self := Wandering(timer + dt);
          MoveForward(transform, forward, dexterity, dt, mapSize);
        } else {
          requests := requests + [NewScanning(degrees)];
        }
        if |senses.hits| > 0 {
          var closest := GetClosest(senses.hits);
          requests := requests + [Hunting(closest.target)];
        }
      case Scanning(rotateTimer, rotateTime) =>
        if rotateTimer < rotateTime {
          self := Scanning(rotateTimer + dt, rotateTime);
        } else {
          requests := requests + [Wandering(0.0)];
        }
        if |senses.hits| > 0 {
          var closest := GetClosest(senses.hits);
          requests := requests + [Hunting(closest.target)];
        }
      case Hunting(_) =>
        if !senses.targetAlive || senses.targetDistance > (sensing * 2) as real {
          requests := requests + [NewScanning(degrees)];
        } else {
          MoveForward(transform, forward, dexterity, dt, mapSize);
        }
    }
  }

  // ---------------------------------------------------------------------------
  // Properties of one step

  /** The transitions a request may make: Wandering and Scanning swap or hunt; Hunting only rescans. */
  predicate Allowed(from: AnimalState, to: AnimalState) {
    match from
    case Wandering(_) => to.Scanning? || to.Hunting?
    case Scanning(_, _) => to.Wandering? || to.Hunting?
    case Hunting(_) => to.Scanning?
  }

  /**
   * Every request follows the transition graph, and a state that is not replaced
   * stays the same kind of state (a Hunting state keeps its target).
   */
  lemma TransitionGraph(s: AnimalState, dt: real, sensing: int, senses: Senses, degrees: int)
    ensures var o := Step(s, dt, sensing, senses, degrees);
            (forall r :: r in o.requests ==> Allowed(s, r)) &&
            o.self.Wandering? == s.Wandering? && o.self.Scanning? == s.Scanning? &&
            (s.Hunting? ==> o.self == s) &&
            (Applied(o) == o.self || Allowed(s, Applied(o)))
  {
  }

  /** A non-empty sphere cast in Wandering or Scanning ends the update in Hunting the closest hit. */
  lemma PerceptionPreempts(s: AnimalState, dt: real, sensing: int, senses: Senses, degrees: int)
    requires s.Wandering? || s.Scanning?
    requires |senses.hits| > 0
    ensures Applied(Step(s, dt, sensing, senses, degrees)) == Hunting(senses.hits[ClosestIndex(senses.hits)].target)
  {
  }

  /** Wandering walks while its timer is under one second, then asks for a new Scanning and stands still. */
  lemma WanderingStep(timer: real, dt: real, sensing: int, senses: Senses, degrees: int)
    ensures var o := Step(Wandering(timer), dt, sensing, senses, degrees);
            (timer < WanderTime ==> o.self == Wandering(timer + dt) && o.moves && o.requests == HuntRequest(senses.hits)) &&
            (timer >= WanderTime ==> !o.moves && o.requests[0] == NewScanning(degrees) &&
                                     o.requests == [NewScanning(degrees)] + HuntRequest(senses.hits))
  {
  }

  /** Scanning counts up until its timer reaches the turn time, then asks for Wandering; it never moves. */
  lemma ScanningStep(rotateTimer: real, rotateTime: real, dt: real, sensing: int, senses: Senses, degrees: int)
    ensures var o := Step(Scanning(rotateTimer, rotateTime), dt, sensing, senses, degrees);
            !o.moves &&
            (rotateTimer < rotateTime ==> o.self == Scanning(rotateTimer + dt, rotateTime) && o.requests == HuntRequest(senses.hits)) &&
            (rotateTimer >= rotateTime ==> o.requests == [Wandering(0.0)] + HuntRequest(senses.hits))
  {
  }

  /** A fresh Scanning with a non-positive angle asks for Wandering on its very first update. */
  lemma NonPositiveTurnEndsAtOnce(degrees: int, dt: real, sensing: int, senses: Senses, nextDegrees: int)
    requires degrees <= 0
    ensures Step(NewScanning(degrees), dt, sensing, senses, nextDegrees).requests[0] == Wandering(0.0)
  {
  }

  /** Hunting gives up (asks for Scanning, stays put) exactly when the target is gone or beyond twice the sensing range. */
  lemma HuntingStep(target: TargetRef, dt: real, sensing: int, senses: Senses, degrees: int)
    ensures var o := Step(Hunting(target), dt, sensing, senses, degrees);
            var lost := !senses.targetAlive || senses.targetDistance > (2 * sensing) as real;
            (lost ==> o.requests == [NewScanning(degrees)] && !o.moves && Applied(o) == NewScanning(degrees)) &&
            (!lost ==> o.requests == [] && o.moves && Applied(o) == Hunting(target))
  {
  }

  // ---------------------------------------------------------------------------
  // Runs of several updates with nothing in sight

  /** Perception that finds nothing. */
  const Unseen: Senses := Senses([], false, 0.0)

  function Sum(dts: seq<real>): real {
    if |dts| == 0 then 0.0 else dts[0] + Sum(dts[1..])
  }

  lemma {:induction false} SumPrefixStep(dts: seq<real>, m: nat)
    requires m < |dts|
    ensures Sum(dts[..m + 1]) == dts[0] + Sum(dts[1..][..m])
  {
    assert dts[..m + 1][1..] == dts[1..][..m];
  }

  /** The timer a Wandering or Scanning state counts up, and the value it counts to. */
  function TimerOf(s: AnimalState): real {
    match s
    case Wandering(timer) => timer
    case Scanning(rotateTimer, _) => rotateTimer
    case Hunting(_) => 0.0
  }

  function LimitOf(s: AnimalState): real {
    match s
    case Wandering(_) => WanderTime
    case Scanning(_, rotateTime) => rotateTime
    case Hunting(_) => 0.0
  }

  /**
   * Feeds frame times `dts` to state `s`, with nothing in sight, until it first
   * calls changeState; the index of that frame, if any.
   */
  function FirstRequest(s: AnimalState, dts: seq<real>, sensing: int, degrees: int): Option<nat>
    decreases |dts|
  {
    if |dts| == 0 then None
    else
      var o := Step(s, dts[0], sensing, Unseen, degrees);
      if |o.requests| > 0 then Some(0)
      else match FirstRequest(o.self, dts[1..], sensing, degrees)
        case None => None
        case Some(n) => Some(n + 1)
  }

  /**
   * With nothing in sight, Wandering and Scanning call changeState in the first
   * frame that begins with the accumulated time at or past the limit
   * (one second for Wandering, rotateTime for Scanning), and in no earlier frame.
   */
  lemma {:induction false} FirstRequestAt(s: AnimalState, dts: seq<real>, sensing: int, degrees: int, n: nat)
    requires s.Wandering? || s.Scanning?
    ensures FirstRequest(s, dts, sensing, degrees) == Some(n) <==>
            n < |dts| && TimerOf(s) + Sum(dts[..n]) >= LimitOf(s) &&
            forall m :: 0 <= m < n ==> TimerOf(s) + Sum(dts[..m]) < LimitOf(s)
    decreases |dts|
  {
    if |dts| == 0 {
      return;
    }
    assert dts[..0] == [];
    var o := Step(s, dts[0], sensing, Unseen, degrees);
    if TimerOf(s) >= LimitOf(s) {
      assert |o.requests| > 0;
      return;
    }
    assert |o.requests| == 0;
    assert TimerOf(o.self) == TimerOf(s) + dts[0] && LimitOf(o.self) == LimitOf(s);
    if n == 0 {
      return;
    }
    var rest := dts[1..];
    FirstRequestAt(o.self, rest, sensing, degrees, n - 1);
    if n < |dts| {
      SumPrefixStep(dts, n - 1);
      forall m | 0 <= m < n - 1
        ensures Sum(dts[..m + 1]) == dts[0] + Sum(rest[..m])
      {
        SumPrefixStep(dts, m);
      }
      if (forall m :: 0 <= m < n ==> TimerOf(s) + Sum(dts[..m]) < LimitOf(s)) {
        forall m | 0 <= m < n - 1
          ensures TimerOf(o.self) + Sum(rest[..m]) < LimitOf(o.self)
        {
          assert TimerOf(s) + Sum(dts[..m + 1]) < LimitOf(s);
        }
      }
      if (forall m :: 0 <= m < n - 1 ==> TimerOf(o.self) + Sum(rest[..m]) < LimitOf(o.self)) {
        forall m | 0 <= m < n
          ensures TimerOf(s) + Sum(dts[..m]) < LimitOf(s)
        {
          if m > 0 {
            assert TimerOf(o.self) + Sum(rest[..m - 1]) < LimitOf(o.self);
          }
        }
      }
    }
  }
}
