/**
 * The life cycle of one animal: the stat block and its mutation, the stats
 * derived when it starts, feeding, and the per-frame update (comfort check,
 * behaviour step, one-second energy decay, death and breeding).
 *
 * Unity's services are parameters: the frame time `dt`, the habitat readings,
 * the heading the transform faces, what the sphere casts see, and every
 * Random.Range draw. Destroy(gameObject) sets `destroyed`; Instantiate is the
 * list of spawn positions that Update returns.
 */
module AnimalLife {
  import opened Engine
  import opened AnimalStates

  /** The stat fields an egg sets and MutateStats changes. */
  datatype StatBlock = StatBlock(
    comfortTemp: int, comfortMoisture: int,
    size: real, constitution: int, strength: int, dexterity: int, sensing: int)

  /** The fields set in the editor that neither the egg nor the life cycle changes. */
  datatype Config = Config(
    minChildren: int, maxChildren: int,
    breedCost: real, energyToBreed: real, foodEnergy: int,
    mutationChance: real, mutationAmount: int)

  /** The fields the life cycle itself keeps. */
  datatype Vitals = Vitals(
    energy: real, energyCost: real, timeToLive: real, energyTimer: real,
    currentState: Option<AnimalState>, destroyed: bool)

  /** What an animal reads from its habitat each frame. */
  datatype HabitatReadout = HabitatReadout(temperature: int, humidity: int, size: real)

  /** The stat floors MutateStats enforces. */
  predicate Floors(s: StatBlock) {
    s.strength >= 1 && s.constitution >= 1 && s.dexterity >= 1 && s.sensing >= 1 && s.size >= 0.1
  }

  // ---------------------------------------------------------------------------
  // Mutation

  /** The two draws one stat's mutation uses: the Random.Range(0f, 1f) coin and the offset. */
  datatype Draw = Draw(coin: real, offset: int)

  datatype MutationDraws = MutationDraws(
    dexterity: Draw, strength: Draw, constitution: Draw, sensing: Draw,
    size: Draw, comfortTemp: Draw, comfortMoisture: Draw)

  /** The coins come from [0, 1]; the four abilities draw from [-amount, amount), the rest from [-2 amount, 2 amount). */
  predicate ValidDraws(d: MutationDraws, amount: int) {
    UnitDraw(d.dexterity.coin) && UnitDraw(d.strength.coin) && UnitDraw(d.constitution.coin) &&
    UnitDraw(d.sensing.coin) && UnitDraw(d.size.coin) && UnitDraw(d.comfortTemp.coin) &&
    UnitDraw(d.comfortMoisture.coin) &&
    IntRangeDraw(-amount, amount, d.dexterity.offset) &&
    IntRangeDraw(-amount, amount, d.strength.offset) &&
    IntRangeDraw(-amount, amount, d.constitution.offset) &&
    IntRangeDraw(-amount, amount, d.sensing.offset) &&
    IntRangeDraw(-amount * 2, amount * 2, d.size.offset) &&
    IntRangeDraw(-amount * 2, amount * 2, d.comfortTemp.offset) &&
    IntRangeDraw(-amount * 2, amount * 2, d.comfortMoisture.offset)
  }

  /** What the stat gains: the offset when the coin falls under the mutation chance, nothing otherwise. */
  function Offset(d: Draw, chance: real): int {
    if d.coin < chance then d.offset else 0
  }

  /** The first half of MutateStats: every stat whose coin succeeds gains its offset. */
  function Shifted(s: StatBlock, chance: real, d: MutationDraws): StatBlock {
    StatBlock(
      s.comfortTemp + Offset(d.comfortTemp, chance), s.comfortMoisture + Offset(d.comfortMoisture, chance),
      s.size + Offset(d.size, chance) as real, s.constitution + Offset(d.constitution, chance),
      s.strength + Offset(d.strength, chance), s.dexterity + Offset(d.dexterity, chance),
      s.sensing + Offset(d.sensing, chance))
  }

  /**
   * The second half: the floors, applied in the order of Animal.cs. Dexterity and
   * sensing are taken from the clamped strength and constitution.
   */
  function Clamped(s: StatBlock): StatBlock {
    var strength := MaxInt(s.strength, 1);
    var constitution := MaxInt(s.constitution, 1);
    StatBlock(s.comfortTemp, s.comfortMoisture, MaxReal(s.size, 0.1),
              constitution, strength, MaxInt(strength, 1), MaxInt(constitution, 1))
  }

  /**
   * MutateStats on a stat block: whatever the draws, the result respects the
   * floors, and the offsets drawn for dexterity and sensing are lost.
   */
  function Mutate(s: StatBlock, chance: real, d: MutationDraws): (r: StatBlock)
    ensures Floors(r)
    ensures r.dexterity == r.strength && r.sensing == r.constitution
    ensures r.strength == MaxInt(s.strength + Offset(d.strength, chance), 1)
    ensures r.constitution == MaxInt(s.constitution + Offset(d.constitution, chance), 1)
    ensures r.size == MaxReal(s.size + Offset(d.size, chance) as real, 0.1)
    ensures r.comfortTemp == s.comfortTemp + Offset(d.comfortTemp, chance)
    ensures r.comfortMoisture == s.comfortMoisture + Offset(d.comfortMoisture, chance)
  {
    Clamped(Shifted(s, chance, d))
  }

  /** A stat whose coin fails gets nothing; one whose coin succeeds moves by at most `span` down and `span - 1` up. */
  lemma OffsetBounds(d: Draw, chance: real, span: int)
    requires span > 0 && IntRangeDraw(-span, span, d.offset)
    ensures d.coin >= chance ==> Offset(d, chance) == 0
    ensures d.coin < chance ==> -span <= Offset(d, chance) <= span - 1
  {
  }

  /** The offsets before clamping, for every stat and every valid draw. */
  lemma MutationOffsets(s: StatBlock, chance: real, amount: int, d: MutationDraws)
    requires amount > 0 && ValidDraws(d, amount)
    ensures -amount <= Offset(d.strength, chance) < amount
    ensures -amount <= Offset(d.constitution, chance) < amount
    ensures -amount <= Offset(d.dexterity, chance) < amount
    ensures -amount <= Offset(d.sensing, chance) < amount
    ensures -2 * amount <= Offset(d.size, chance) < 2 * amount
    ensures -2 * amount <= Offset(d.comfortTemp, chance) < 2 * amount
    ensures -2 * amount <= Offset(d.comfortMoisture, chance) < 2 * amount
  {
    OffsetBounds(d.strength, chance, amount);
    OffsetBounds(d.constitution, chance, amount);
    OffsetBounds(d.dexterity, chance, amount);
    OffsetBounds(d.sensing, chance, amount);
    OffsetBounds(d.size, chance, amount * 2);
    OffsetBounds(d.comfortTemp, chance, amount * 2);
    OffsetBounds(d.comfortMoisture, chance, amount * 2);
  }

  /** Neither the old dexterity and sensing nor their draws have any effect on the mutated block. */
  lemma DexteritySensingOverwritten(s: StatBlock, s': StatBlock, chance: real, d: MutationDraws, d': MutationDraws)
    requires s' == s.(dexterity := s'.dexterity, sensing := s'.sensing)
    requires d' == d.(dexterity := d'.dexterity, sensing := d'.sensing)
    ensures Mutate(s', chance, d') == Mutate(s, chance, d)
  {
  }

  /**
   * The default stat block with mutation switched off: only sensing changes,
   * to the constitution, so the energy cost is 5 rather than 4.5.
   */
  lemma DefaultStatsScenario(d: MutationDraws)
    requires ValidDraws(d, 0)
    ensures var r := Mutate(StatBlock(20, 10, 25.0, 10, 5, 5, 5), 0.0, d);
            r == StatBlock(20, 10, 25.0, 10, 5, 5, 10) && EnergyCost(r) == 5.0 && TimeToLive(r) == 5.0
  {
  }

  // ---------------------------------------------------------------------------
  // Stats derived at spawn

  /** Energy used per second, set once in Start. */
  function EnergyCost(s: StatBlock): (c: real)
    requires Floors(s)
    ensures c > 0.0 && c >= 0.31
  {
    ((s.constitution + s.dexterity + s.sensing) as real + s.size) / 10.0
  }

  /** How long the starting energy (the size) lasts at the energy cost. */
  function TimeToLive(s: StatBlock): (t: real)
    requires Floors(s)
    ensures t > 0.0
    ensures t * EnergyCost(s) == s.size
  {
    s.size / EnergyCost(s)
  }

  // ---------------------------------------------------------------------------
  // Comfort

  /** The comfort check: temperature off by more than twice the constitution either way, or humidity that much too high. */
  predicate ComfortViolated(h: HabitatReadout, comfortTemp: int, comfortMoisture: int, constitution: int) {
    AbsInt(h.temperature - comfortTemp) > constitution * 2 || h.humidity - comfortMoisture > constitution * 2
  }

  /** Dry air never kills: at or below the comfort humidity only the temperature decides. */
  lemma DryAirIsHarmless(h: HabitatReadout, comfortTemp: int, comfortMoisture: int, constitution: int)
    requires constitution >= 0 && h.humidity <= comfortMoisture
    ensures ComfortViolated(h, comfortTemp, comfortMoisture, constitution) <==>
            AbsInt(h.temperature - comfortTemp) > constitution * 2
  {
  }

  /** Both directions of temperature matter, only one of humidity; a tolerable habitat stays tolerable as it gets drier. */
  lemma ComfortShape(h: HabitatReadout, comfortTemp: int, comfortMoisture: int, constitution: int, drier: int)
    requires drier <= h.humidity
    ensures ComfortViolated(h.(temperature := 2 * comfortTemp - h.temperature), comfortTemp, comfortMoisture, constitution) ==
            ComfortViolated(h, comfortTemp, comfortMoisture, constitution)
    ensures !ComfortViolated(h, comfortTemp, comfortMoisture, constitution) ==>
            !ComfortViolated(h.(humidity := drier), comfortTemp, comfortMoisture, constitution)
  {
  }

  /** Comfort temperature 20 and constitution 10: humidity up to 20 over the comfort value is fine, a 25 degree swing is not. */
  lemma ComfortScenario(humidity: int, comfortMoisture: int)
    ensures humidity - comfortMoisture <= 20 ==>
            !ComfortViolated(HabitatReadout(20, humidity, 5.0), 20, comfortMoisture, 10)
    ensures ComfortViolated(HabitatReadout(45, humidity, 5.0), 20, comfortMoisture, 10)
    ensures ComfortViolated(HabitatReadout(-5, humidity, 5.0), 20, comfortMoisture, 10)
  {
  }

  // ---------------------------------------------------------------------------
  // Energy decay

  datatype EnergyClock = EnergyClock(energy: real, timer: real)

  /** One frame of decay: the timer counts up while under one second; otherwise the cost is paid and the timer restarts. */
  function Decay(c: EnergyClock, cost: real, dt: real): EnergyClock {
    if c.timer < 1.0 then EnergyClock(c.energy, c.timer + dt) else EnergyClock(c.energy - cost, 0.0)
  }

  /** Decay over a run of frames. */
  function DecayRun(c: EnergyClock, cost: real, dts: seq<real>): EnergyClock
    decreases |dts|
  {
    if |dts| == 0 then c else DecayRun(Decay(c, cost, dts[0]), cost, dts[1..])
  }

  /** The number of frames in a run that begin with the timer at one second or more. */
  function Resets(timer: real, dts: seq<real>): nat
    decreases |dts|
  {
    if |dts| == 0 then 0
    else if timer < 1.0 then Resets(timer + dts[0], dts[1..])
    else 1 + Resets(0.0, dts[1..])
  }

  /**
   * Over any run of frames the energy falls by exactly the cost per reset,
   * and there are never more resets than whole seconds elapsed (counting the
   * timer's starting value): the frame that pays also discards its own time.
   */
  lemma {:induction false} DecayAccounting(c: EnergyClock, cost: real, dts: seq<real>)
    requires c.timer >= 0.0
    requires forall k :: 0 <= k < |dts| ==> dts[k] >= 0.0
    ensures var r := DecayRun(c, cost, dts);
            var n := Resets(c.timer, dts);
            r.energy == c.energy - n as real * cost &&
            r.timer >= 0.0 &&
            n as real + r.timer <= c.timer + Sum(dts) &&
            n <= |dts|
    decreases |dts|
  {
    if |dts| == 0 {
      return;
    }
    var next := Decay(c, cost, dts[0]);
    assert forall k :: 0 <= k < |dts[1..]| ==> dts[1..][k] >= 0.0 by {
      forall k | 0 <= k < |dts[1..]| ensures dts[1..][k] >= 0.0 {
        assert dts[1..][k] == dts[k + 1];
      }
    }
    DecayAccounting(next, cost, dts[1..]);
    var m := Resets(next.timer, dts[1..]);
    if c.timer >= 1.0 {
      assert (m + 1) as real * cost == m as real * cost + cost;
    }
  }

  // ---------------------------------------------------------------------------
  // Breeding

  /**
   * The spawn positions of the breeding loop `for (i = 1; i < Random.Range(min, max) + 1; i++)`.
   * The loop test makes a fresh draw each time it runs: the test with counter
   * i uses draws[i - 1], and child i spawns at x + i, height 1, depth z.
   */
  function Brood(x: real, z: real, draws: seq<int>, i: nat): seq<Vec3>
    requires i >= 1
    decreases |draws| + 1 - i
  {
    if i <= |draws| && i < draws[i - 1] + 1 then [Vec3(x + i as real, 1.0, z)] + Brood(x, z, draws, i + 1)
    else []
  }

  /** The loop goes on while each draw is at least the counter, and spawns child i at x + i. */
  lemma {:induction false} BroodShape(x: real, z: real, draws: seq<int>, i: nat)
    requires 1 <= i <= |draws| + 1
    ensures |Brood(x, z, draws, i)| <= |draws| + 1 - i
    ensures var b := Brood(x, z, draws, i);
            forall k :: 0 <= k < |b| ==> b[k] == Vec3(x + (i + k) as real, 1.0, z) && draws[i - 1 + k] >= i + k
    ensures var n := |Brood(x, z, draws, i)|;
            i - 1 + n < |draws| ==> draws[i - 1 + n] < i + n
    decreases |draws| + 1 - i
  {
    if i <= |draws| && i < draws[i - 1] + 1 {
      BroodShape(x, z, draws, i + 1);
      var rest := Brood(x, z, draws, i + 1);
      var b := [Vec3(x + i as real, 1.0, z)] + rest;
      assert Brood(x, z, draws, i) == b;
      forall k | 0 <= k < |b|
        ensures b[k] == Vec3(x + (i + k) as real, 1.0, z) && draws[i - 1 + k] >= i + k
      {
        if k > 0 {
          assert b[k] == rest[k - 1];
          assert (i + 1) + (k - 1) == i + k;
        }
      }
    }
  }

  /**
   * With every draw from Random.Range(lo, hi), the brood has between the least
   * and the greatest possible draw children (never fewer than none), and the
   * loop stops before it runs out of draws.
   */
  lemma BroodSize(x: real, z: real, lo: int, hi: int, draws: seq<int>)
    requires forall k :: 0 <= k < |draws| ==> IntRangeDraw(lo, hi, draws[k])
    requires |draws| > 0 && |draws| > MaxInt(lo, hi)
    ensures var n := |Brood(x, z, draws, 1)|;
            MaxInt(LeastDraw(lo, hi), 0) <= n <= MaxInt(GreatestDraw(lo, hi), 0) && n < |draws|
  {
    BroodShape(x, z, draws, 1);
    var b := Brood(x, z, draws, 1);
    var n := |b|;
    if n > 0 {
      assert b[n - 1] == Vec3(x + n as real, 1.0, z) && draws[n - 1] >= n;
      assert IntRangeDraw(lo, hi, draws[n - 1]);
      assert n <= GreatestDraw(lo, hi);
    }
    assert n < |draws|;
    assert IntRangeDraw(lo, hi, draws[n]);
    assert LeastDraw(lo, hi) <= draws[n] < n + 1;
  }

  /**
   * The breeding loop itself: one Instantiate per pass, at x + i, height 1,
   * depth z, with the loop test drawing again each time.
   */
  method SpawnBrood(x: real, z: real, minChildren: int, maxChildren: int, draws: seq<int>) returns (children: seq<Vec3>)
    requires forall k :: 0 <= k < |draws| ==> IntRangeDraw(minChildren, maxChildren, draws[k])
    requires |draws| > 0 && |draws| > MaxInt(minChildren, maxChildren)
    ensures children == Brood(x, z, draws, 1)
  {
    children := [];
    var i := 1;
    while i < draws[i - 1] + 1
      invariant 1 <= i <= |draws|
      invariant children + Brood(x, z, draws, i) == Brood(x, z, draws, 1)
      decreases |draws| - i
    {
      assert IntRangeDraw(minChildren, maxChildren, draws[i - 1]);
      assert draws[i - 1] <= GreatestDraw(minChildren, maxChildren);
      children := children + [Vec3(x + i as real, 1.0, z)];
      i := i + 1;
    }
  }

  /** With five to ten children and a first draw of 9, later low draws still cut the brood to 5. */
  lemma BroodRedraws()
    ensures |Brood(0.0, 0.0, [9, 9, 9, 9, 9, 5, 9, 9, 9, 9, 9], 1)| == 5
  {
    var d := [9, 9, 9, 9, 9, 5, 9, 9, 9, 9, 9];
    BroodShape(0.0, 0.0, d, 1);
    assert d[5] < 6;
  }

  // ---------------------------------------------------------------------------
  // The animal

  class Animal {
    var animalGroup: string
    var minChildren: int
    var maxChildren: int
    var comfortTemp: int
    var comfortMoisture: int
    var size: real
    var constitution: int
    var strength: int
    var dexterity: int
    var sensing: int
    var breedCost: real
    var energyToBreed: real
    var foodEnergy: int
    var mutationChance: real
    var mutationAmount: int
    var energy: real
    var energyCost: real
    var timeToLive: real
    var energyTimer: real
    /** None until Start has run. */
    var currentState: Option<AnimalState>
    /** Destroy(gameObject) has been called; Unity removes the object at the end of the frame. */
    var destroyed: bool
    const transform: Transform

    function Stats(): StatBlock
      reads this`comfortTemp, this`comfortMoisture, this`size, this`constitution,
            this`strength, this`dexterity, this`sensing
    {
      StatBlock(comfortTemp, comfortMoisture, size, constitution, strength, dexterity, sensing)
    }

    function Settings(): Config
      reads this`minChildren, this`maxChildren, this`breedCost, this`energyToBreed,
            this`foodEnergy, this`mutationChance, this`mutationAmount
    {
      Config(minChildren, maxChildren, breedCost, energyToBreed, foodEnergy, mutationChance, mutationAmount)
    }

    function Condition(): Vitals
      reads this`energy, this`energyCost, this`timeToLive, this`energyTimer,
            this`currentState, this`destroyed
    {
      Vitals(energy, energyCost, timeToLive, energyTimer, currentState, destroyed)
    }

    /** An animal that has run Start: it has a state, its stats respect the floors, and its energy cost is positive. */
    ghost predicate Started()
      reads this`currentState, this`energyCost, this`comfortTemp, this`comfortMoisture, this`size,
            this`constitution, this`strength, this`dexterity, this`sensing
    {
      currentState.Some? && Floors(Stats()) && energyCost > 0.0
    }

    /**
     * A freshly placed animal with the field initialisers of Animal.cs. The
     * breeding, food and mutation settings have no initialiser there, so they
     * are the values given in the editor.
     */
    constructor (group: string, settings: Config, transform: Transform)
      ensures animalGroup == group && this.transform == transform
      ensures Settings() == settings.(minChildren := 5, maxChildren := 10)
      ensures Stats() == StatBlock(20, 10, 25.0, 10, 5, 5, 5)
      ensures Condition() == Vitals(0.0, 0.0, 0.0, 0.0, None, false)
    {
      animalGroup := group;
      minChildren, maxChildren := 5, 10;
      comfortTemp, comfortMoisture := 20, 10;
      size, constitution, strength, dexterity, sensing := 25.0, 10, 5, 5, 5;
      breedCost, energyToBreed, foodEnergy := settings.breedCost, settings.energyToBreed, settings.foodEnergy;
      mutationChance, mutationAmount := settings.mutationChance, settings.mutationAmount;
      energy, energyCost, timeToLive, energyTimer := 0.0, 0.0, 0.0, 0.0;
      currentState := None;
      destroyed := false;
      this.transform := transform;
    }

    /** Applies one round of mutation to the stat fields in place; every other field keeps its value. */
    method MutateStats(draws: MutationDraws)
      requires ValidDraws(draws, mutationAmount)
      modifies this`dexterity, this`strength, this`constitution, this`sensing,
               this`size, this`comfortTemp, this`comfortMoisture
      ensures Stats() == Mutate(old(Stats()), mutationChance, draws)
    {
      ghost var before := Stats();
      dexterity := dexterity + Offset(draws.dexterity, mutationChance);
      strength := strength + Offset(draws.strength, mutationChance);
      constitution := constitution + Offset(draws.constitution, mutationChance);
      sensing := sensing + Offset(draws.sensing, mutationChance);
      size := size + Offset(draws.size, mutationChance) as real;
      comfortTemp := comfortTemp + Offset(draws.comfortTemp, mutationChance);
      comfortMoisture := comfortMoisture + Offset(draws.comfortMoisture, mutationChance);
      assert Stats() == Shifted(before, mutationChance, draws);
      strength := MaxInt(strength, 1);
      constitution := MaxInt(constitution, 1);
      dexterity := MaxInt(strength, 1);
      sensing := MaxInt(constitution, 1);
      size := MaxReal(size, 0.1);
    }

    /** Start: mutate, enter Scanning with a random turn, and derive energy, energy cost and lifetime. */
    method Start(draws: MutationDraws, degrees: int)
      requires ValidDraws(draws, mutationAmount)
      requires IntRangeDraw(-360, 360, degrees)
      modifies this`dexterity, this`strength, this`constitution, this`sensing,
               this`size, this`comfortTemp, this`comfortMoisture,
               this`currentState, this`energy, this`energyCost, this`timeToLive
      ensures Stats() == Mutate(old(Stats()), mutationChance, draws)
      ensures currentState == Some(NewScanning(degrees))
      ensures energy == size
      ensures energyCost == EnergyCost(Stats()) && timeToLive == TimeToLive(Stats())
      ensures Started()
    {
      MutateStats(draws);
      currentState := Some(NewScanning(degrees));
      energy := size;
      energyCost := ((constitution + dexterity + sensing) as real + size) / 10.0;
      timeToLive := size / energyCost;
    }

    /** FeedAnimal: adds the amount to the energy, with no upper limit; nothing else changes. */
    method FeedAnimal(amount: int)
      modifies this`energy
      ensures energy == old(energy) + amount as real
      ensures Stats() == old(Stats()) && Settings() == old(Settings())
      ensures currentState == old(currentState) && energyTimer == old(energyTimer) && destroyed == old(destroyed)
    {
      energy := energy + amount as real;
    }

    /**
     * One frame. The comfort check only flags the animal, and the rest of the
     * frame still runs. The state steps, and the last state passed to
     * changeState becomes current. Energy decays once per second; energy at or
     * below zero destroys the animal, otherwise enough energy pays the breeding
     * cost and returns the spawn positions of the brood. The stats, the
     * settings, the energy cost and the lifetime are outside the frame and
     * keep their values.
     */
    method Update(dt: real, habitat: HabitatReadout, forward: Vec3, senses: Senses, degrees: int, childDraws: seq<int>)
      returns (children: seq<Vec3>)
      requires currentState.Some? && !destroyed
      requires IntRangeDraw(-360, 360, degrees)
      requires forall k :: 0 <= k < |childDraws| ==> IntRangeDraw(minChildren, maxChildren, childDraws[k])
      requires |childDraws| > 0 && |childDraws| > MaxInt(minChildren, maxChildren)
      modifies this`destroyed, this`currentState, this`energy, this`energyTimer, transform
      ensures var o := Step(old(currentState).value, dt, sensing, senses, degrees);
              currentState == Some(Applied(o)) &&
              transform.position == if o.moves then Moved(old(transform.position), forward, dexterity, dt, habitat.size)
                                    else old(transform.position)
      ensures var c := Decay(EnergyClock(old(energy), old(energyTimer)), energyCost, dt);
              var breeds := c.energy > 0.0 && c.energy >= energyToBreed;
              energyTimer == c.timer &&
              destroyed == (ComfortViolated(habitat, comfortTemp, comfortMoisture, constitution) || c.energy <= 0.0) &&
              energy == (if breeds then c.energy - breedCost else c.energy) &&
              children == if breeds then Brood(transform.position.x, transform.position.z, childDraws, 1) else []
    {
      CheckComfort(habitat);
      StepState(dt, forward, habitat.size, senses, degrees);
      DecayEnergy(dt);
      children := DieOrBreed(childDraws);
    }

    /** The comfort check of Update: too hot, too cold or too humid calls Destroy, which only flags the animal. */
    method CheckComfort(habitat: HabitatReadout)
      modifies this`destroyed
      ensures destroyed == (old(destroyed) || ComfortViolated(habitat, comfortTemp, comfortMoisture, constitution))
    {
      if AbsInt(habitat.temperature - comfortTemp) > constitution * 2 ||
         habitat.humidity - comfortMoisture > constitution * 2 {
        destroyed := true;
      }
    }

    /** The behaviour step of Update: the callback assigns currentState, so the last request is kept. */
    method StepState(dt: real, forward: Vec3, mapSize: real, senses: Senses, degrees: int)
      requires currentState.Some?
      modifies this`currentState, transform
      ensures var o := Step(old(currentState).value, dt, sensing, senses, degrees);
              currentState == Some(Applied(o)) &&
              transform.position == if o.moves then Moved(old(transform.position), forward, dexterity, dt, mapSize)
                                    else old(transform.position)
    {
      var self, requests := OnUpdate(currentState.value, transform, forward, dexterity, mapSize,
                                     dt, sensing, senses, degrees);
      currentState := Some(if |requests| > 0 then requests[|requests| - 1] else self);
    }

    /** The energy timer of Update: a second's energy cost is paid on the frame after the timer reaches one. */
    method DecayEnergy(dt: real)
      modifies this`energy, this`energyTimer
      ensures EnergyClock(energy, energyTimer) == Decay(EnergyClock(old(energy), old(energyTimer)), energyCost, dt)
    {
      if energyTimer < 1.0 {
        energyTimer := energyTimer + dt;
      } else {
        energy := energy - energyCost;
        energyTimer := 0.0;
      }
    }

    /** The end of Update: no energy destroys the animal; otherwise enough energy pays for a brood. */
    method DieOrBreed(childDraws: seq<int>) returns (children: seq<Vec3>)
      requires forall k :: 0 <= k < |childDraws| ==> IntRangeDraw(minChildren, maxChildren, childDraws[k])
      requires |childDraws| > 0 && |childDraws| > MaxInt(minChildren, maxChildren)
      modifies this`energy, this`destroyed
      ensures var breeds := old(energy) > 0.0 && old(energy) >= energyToBreed;
              destroyed == (old(destroyed) || old(energy) <= 0.0) &&
              energy == (if breeds then old(energy) - breedCost else old(energy)) &&
              children == if breeds then Brood(transform.position.x, transform.position.z, childDraws, 1) else []
    {
      children := [];
      if energy <= 0.0 {
        destroyed := true;
      } else if energy >= energyToBreed {
        energy := energy - breedCost;
        children := SpawnBrood(transform.position.x, transform.position.z, minChildren, maxChildren, childDraws);
      }
    }
  }
}
