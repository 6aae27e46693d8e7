# Animal simulation core, modelled in Dafny

A Unity natural-selection toy: animals hatch from egg presets, mutate their
stats, wander, scan and hunt for food in a square habitat, burn energy once a
second, die when it runs out or when the habitat is uncomfortable, and breed
when they have enough. This project models the per-animal logic of that game
and proves what it does.

Files and modules:

- `engine.dfy`, module `Engine`: the few Unity services the logic uses. These are
  `Vector3` as `Vec3`, `Mathf.Clamp`, `Mathf.Max`, `Mathf.Abs`, what
  `Random.Range` may return (`IntRangeDraw`, `UnitDraw`), and a `Transform`
  class whose `position` is updated in place.
- `animal_states.dfy`, module `AnimalStates`: the behaviour state machine.
  - A state is a datatype value (`Wandering(timer)`,
    `Scanning(rotateTimer, rotateTime)`, `Hunting(target)`).
  - `Step` is the specification of one `OnUpdate`. It returns the state with
    its timers advanced, the states passed to the `changeState` callback in
    call order, and whether `MoveForward` ran.
  - `Applied` is what the animal holds afterwards: the callback only assigns,
    so the last request wins.
  - `OnUpdate` is the imperative version. It moves the transform through
    `MoveForward` and picks the target through the `GetClosest` loop, and it is
    proved equal to `Step`.
- `animal.dfy`, module `AnimalLife`: class `Animal` with the fields of the
  component.
  - `MutateStats`, `Start`, `FeedAnimal` and `Update` change those fields in
    place.
  - Each is proved against value-level functions: `Mutate`, `EnergyCost`,
    `TimeToLive`, `ComfortViolated`, `Decay` and `Brood`.
  - Lemmas about those functions state the game's rules over all inputs.
- `egg.dfy`, module `Eggs`: class `Egg`, the preset asset, and `HatchAnimal`,
  which copies exactly eight fields onto an animal.

Unity's services are passed in as parameters:

- the frame time `dt`;
- the habitat's temperature, humidity and size (`HabitatReadout`);
- the direction the animal faces (`forward`);
- what the sphere casts see (`Senses`: the hits with their distances, and for
  Hunting whether the target still exists and how far it is);
- every `Random.Range` draw.

`Destroy(gameObject)` sets the flag `destroyed`. `Instantiate` of children
becomes the list of spawn positions that `Update` returns.

### Quirks of the code that the model keeps

- **Breeding count.** The test of the breeding loop at
  `Assets/Scripts/Animal.cs:129` calls `Random.Range(minChildren, maxChildren)`,
  so it draws again on every pass.
  - The brood is modelled on a sequence of draws: `Brood`, with `BroodShape`.
  - The brood size still lies between the least and the greatest single draw
    (`BroodSize`).
  - A low later draw cuts it short, for example 5 children although the first
    draw was 9 (`BroodRedraws`).
- **Dexterity and sensing.** `Assets/Scripts/Animal.cs:88-89` set dexterity
  from the clamped strength and sensing from the clamped constitution. With
  mutation switched off, the default sensing of 5 therefore becomes 10, and the
  energy cost of the default stats is 5 (`DefaultStatsScenario`).
- **Size mutation.** The size offset at `Assets/Scripts/Animal.cs:79` comes
  from the int overload of `Random.Range`, so it is a whole number.
- **Energy timer.** The frame that pays the energy cost resets the timer to 0
  (`Assets/Scripts/Animal.cs:117-118`) and discards its own `dt`. Decay
  therefore depends on how the time is cut into frames, and there are never
  more payments than whole seconds elapsed (`DecayAccounting`).
- **Comfort death.** The comfort check at `Assets/Scripts/Animal.cs:102-104`
  only calls Destroy, which takes effect at the end of the frame. The rest of
  the frame still runs, so an animal destroyed for discomfort can still breed
  in that frame.

## Model

| member | source | states |
|---|---|---|
| Engine.Clamp | Assets/Scripts/AnimalStateMachine.cs:26 | Mathf.Clamp: inside [min, max] when min <= max; the value itself when it lies in range; min when it is below (the lower bound is tested first) |
| Engine.MaxInt | Assets/Scripts/Animal.cs:86-89 | Mathf.Max on ints: at least both arguments and equal to one of them |
| Engine.MaxReal | Assets/Scripts/Animal.cs:90 | Mathf.Max on floats: at least both arguments and equal to one of them |
| Engine.AbsInt | Assets/Scripts/Animal.cs:102 | Mathf.Abs: non-negative and equal to the argument or its negation |
| Engine.LeastDraw | Assets/Scripts/Animal.cs:129 | the smallest value Random.Range(lo, hi) on ints can return, admitted by the draw range and below every admitted value |
| Engine.GreatestDraw | Assets/Scripts/Animal.cs:129 | the largest value Random.Range(lo, hi) on ints can return (hi - 1 when lo < hi, since the upper bound is excluded), at most max(lo, hi) |
| AnimalStates.StateName | Assets/Scripts/AnimalStateMachine.cs:50 | the name is "Wandering", "Scanning" or "Hunting" (lines 50, 91, 123), and each name holds exactly for its own state |
| AnimalStates.NewScanning | Assets/Scripts/AnimalStateMachine.cs:84-89 | a new Scanning starts its timer at 0 and needs degrees/360 of a full turn's time; a non-positive angle needs no time |
| AnimalStates.Moved | Assets/Scripts/AnimalStateMachine.cs:20-27 | after a move, x and z lie in [-mapSize, mapSize]; y gains forward.y * dexterity * dt; a step that stays inside the square is not altered |
| AnimalStates.MoveForward | Assets/Scripts/AnimalStateMachine.cs:20-27 | moving the transform in place, then clamping, leaves exactly the Moved position |
| AnimalStates.ClosestIndex | Assets/Scripts/AnimalStateMachine.cs:30-39 | for a non-empty array: an index in range whose distance is at most every other, with every earlier hit strictly farther (the strict comparison keeps the first of equals) |
| AnimalStates.FirstMinimumUnique | Assets/Scripts/AnimalStateMachine.cs:30-39 | a least distance that no earlier hit ties pins down the index ClosestIndex picks |
| AnimalStates.GetClosest | Assets/Scripts/AnimalStateMachine.cs:30-39 | the foreach loop returns a member of the array, at least as close as every hit, and the first such hit |
| AnimalStates.OnUpdate | Assets/Scripts/AnimalStateMachine.cs:52-137 | the three OnUpdate bodies, run in place, produce the state, the changeState calls in order and the position that Step specifies |
| AnimalStates.TransitionGraph | Assets/Scripts/AnimalStateMachine.cs:52-137 | every request follows Wandering to Scanning or Hunting, Scanning to Wandering or Hunting, Hunting to Scanning only; unreplaced states keep their kind, and Hunting keeps its target |
| AnimalStates.PerceptionPreempts | Assets/Scripts/AnimalStateMachine.cs:52-110 | in Wandering or Scanning, a non-empty cast ends the update Hunting the closest hit, overriding the timer's request |
| AnimalStates.WanderingStep | Assets/Scripts/AnimalStateMachine.cs:52-71 | under one second the timer gains dt and the animal moves; from one second on it requests Scanning with the drawn angle before any Hunting request and stands still |
| AnimalStates.ScanningStep | Assets/Scripts/AnimalStateMachine.cs:93-110 | Scanning never moves; below rotateTime the timer gains dt, otherwise it requests Wandering before any Hunting request |
| AnimalStates.NonPositiveTurnEndsAtOnce | Assets/Scripts/AnimalStateMachine.cs:84-102 | a fresh Scanning with degrees <= 0 requests Wandering on its first update |
| AnimalStates.HuntingStep | Assets/Scripts/AnimalStateMachine.cs:125-137 | a missing target or one beyond 2 * sensing yields exactly one Scanning request and no move; otherwise no request and a move |
| AnimalStates.FirstRequestAt | Assets/Scripts/AnimalStateMachine.cs:52-102 | with nothing in sight, Wandering and Scanning first call changeState in frame n if and only if n is the first frame that begins with the summed time at or past the limit |
| AnimalLife.Mutate | Assets/Scripts/Animal.cs:66-91 | whatever the draws, strength, constitution, dexterity, sensing >= 1 and size >= 0.1; dexterity equals the clamped strength and sensing the clamped constitution; the other stats gain exactly their offsets |
| AnimalLife.OffsetBounds | Assets/Scripts/Animal.cs:69-83 | a stat whose coin fails gets no offset; one whose coin succeeds moves by an offset in [-span, span - 1] |
| AnimalLife.MutationOffsets | Assets/Scripts/Animal.cs:69-83 | the four abilities move by at most [-amount, amount - 1], size and the comfort values by [-2 amount, 2 amount - 1] |
| AnimalLife.DexteritySensingOverwritten | Assets/Scripts/Animal.cs:88-89 | the old dexterity and sensing, and their draws, have no effect on the mutated stats |
| AnimalLife.DefaultStatsScenario | Assets/Scripts/Animal.cs:43-53 | with chance 0 the default stats become sensing 10 and nothing else changes; energy cost 5 and lifetime 5 |
| AnimalLife.EnergyCost | Assets/Scripts/Animal.cs:52 | on stats that respect the floors, the energy cost is positive (at least 0.31), so the lifetime division is defined |
| AnimalLife.TimeToLive | Assets/Scripts/Animal.cs:53 | the lifetime is positive, and lifetime times energy cost is the size (the starting energy) |
| AnimalLife.DryAirIsHarmless | Assets/Scripts/Animal.cs:102-104 | at or below the comfort humidity, only the temperature can kill |
| AnimalLife.ComfortShape | Assets/Scripts/Animal.cs:102-104 | mirroring the temperature around the comfort value changes nothing; a tolerable habitat stays tolerable when drier |
| AnimalLife.ComfortScenario | Assets/Scripts/Animal.cs:102-104 | comfort 20 and constitution 10: humidity up to 20 over comfort is fine, temperatures 45 and -5 are not |
| AnimalLife.DecayAccounting | Assets/Scripts/Animal.cs:113-119 | over any run of frames, energy falls by exactly the cost times the number of payments, the timer stays non-negative, and payments plus the final timer never exceed the time elapsed |
| AnimalLife.BroodShape | Assets/Scripts/Animal.cs:129-132 | child k spawns at x + k, height 1, the parent's z; the loop continues while the test's draw is at least the counter and stops at the first that is not |
| AnimalLife.BroodSize | Assets/Scripts/Animal.cs:129-132 | the number of children lies between the least and the greatest single draw of Random.Range(min, max) (and is never negative) |
| AnimalLife.SpawnBrood | Assets/Scripts/Animal.cs:129-132 | the for loop with its redrawn bound produces exactly the Brood spawn positions |
| AnimalLife.BroodRedraws | Assets/Scripts/Animal.cs:129 | draws 9, 9, 9, 9, 9, 5, ... give 5 children, not 9 |
| Engine.IntRangeDraw | Assets/Scripts/Animal.cs:69-83 | definition of the values the int Random.Range(lo, hi) may return (also used for the draws at Animal.cs:129 and AnimalStateMachine.cs:63): lo included, hi excluded, lo when equal; LeastDraw and GreatestDraw prove its extremes |
| Engine.UnitDraw | Assets/Scripts/Animal.cs:69-83 | definition of the values the float Random.Range(0f, 1f) coins may return, both ends included; used by ValidDraws and so by Mutate's callers |
| AnimalStates.HuntRequest | Assets/Scripts/AnimalStateMachine.cs:69-70 | definition of the Hunting request a non-empty cast adds (also lines 108-109); PerceptionPreempts, WanderingStep and ScanningStep prove where it goes |
| AnimalStates.Step | Assets/Scripts/AnimalStateMachine.cs:52-137 | definition of one OnUpdate of each state as a value; OnUpdate is proved equal to it, and TransitionGraph, PerceptionPreempts, WanderingStep, ScanningStep, HuntingStep and FirstRequestAt prove its properties |
| AnimalStates.Applied | Assets/Scripts/Animal.cs:107-110 | definition of the state kept after the assigning callback: the last request, or the state itself; StepState's contract and PerceptionPreempts use it |
| AnimalLife.Offset | Assets/Scripts/Animal.cs:69-83 | definition of what one stat gains: its offset when the coin is under the chance, else 0; OffsetBounds and MutationOffsets bound it |
| AnimalLife.Shifted | Assets/Scripts/Animal.cs:69-83 | definition of the seven coin-gated additions before the floors; MutateStats asserts it at the midpoint, and Mutate's contract states the result |
| AnimalLife.Clamped | Assets/Scripts/Animal.cs:86-90 | definition of the floors in the code's order; Mutate's contract proves the floors hold and that dexterity and sensing copy strength and constitution |
| AnimalLife.ComfortViolated | Assets/Scripts/Animal.cs:102-103 | definition of the comfort test; DryAirIsHarmless, ComfortShape and ComfortScenario prove its shape, CheckComfort and Update its use |
| AnimalLife.Decay | Assets/Scripts/Animal.cs:113-119 | definition of one frame of the energy timer; DecayEnergy is proved equal to it, and DecayAccounting proves its behaviour over runs of frames |
| AnimalLife.Brood | Assets/Scripts/Animal.cs:129-131 | definition of the spawn positions of the redrawing breeding loop; SpawnBrood is proved equal to it, and BroodShape, BroodSize and BroodRedraws prove its properties |
| Eggs.Egg.MinFloors | Assets/Scripts/EggSO.cs:9-19 | definition of the [Min] floors on the egg's fields; the Egg constructor proves the defaults meet them, and HatchAnimal proves they carry over to the animal's stat floors |
| AnimalLife.Animal.constructor | Assets/Scripts/Animal.cs:6-38 | the field initialisers: 5 to 10 children, comfort 20 and 10, size 25, constitution 10, strength, dexterity and sensing 5, zero energy, no state; the settings without an initialiser come from the editor |
| AnimalLife.Animal.MutateStats | Assets/Scripts/Animal.cs:66-91 | the seven stat fields become Mutate of their old values, and no other field changes |
| AnimalLife.Animal.Start | Assets/Scripts/Animal.cs:40-53 | after Start the stats are mutated, the state is a Scanning with the drawn angle, energy equals size, energyCost and timeToLive are the derived stats, and the floors hold |
| AnimalLife.Animal.FeedAnimal | Assets/Scripts/Animal.cs:94 | energy grows by exactly the amount, with no cap, and nothing else changes |
| AnimalLife.Animal.Update | Assets/Scripts/Animal.cs:99-134 | one frame: the state becomes the last request (or itself, advanced); energy decays once per second; destroyed exactly when uncomfortable or out of energy; breeding, exclusive with running out of energy, pays breedCost and returns the brood at the moved position; an animal destroyed by the comfort check still breeds |
| AnimalLife.Animal.CheckComfort | Assets/Scripts/Animal.cs:102-104 | the destroyed flag is raised exactly on a comfort violation, and the frame goes on |
| AnimalLife.Animal.StepState | Assets/Scripts/Animal.cs:107-110 | the callback assigns, so the current state becomes the last state passed to it |
| AnimalLife.Animal.DecayEnergy | Assets/Scripts/Animal.cs:113-119 | below one second the timer gains dt; otherwise energy falls by exactly energyCost and the timer becomes 0 |
| AnimalLife.Animal.DieOrBreed | Assets/Scripts/Animal.cs:122-133 | energy at or below 0 destroys and does not breed; otherwise energy at the threshold pays breedCost and spawns the brood |
| Eggs.Egg.constructor | Assets/Scripts/EggSO.cs:7-19 | the preset defaults, which respect the [Min] floors |
| Eggs.Egg.HatchAnimal | Assets/Scripts/EggSO.cs:22-34 | the animal receives the egg's group and seven stats; its child counts, breeding, mutation and vital fields keep their values; an egg within its [Min] floors hatches an animal within the stat floors; the egg is unchanged |

## Left out

- Rendering: the colour and the scale set at the end of Start, and the gizmo sphere. They affect only the picture.
- Rotation: the quaternion Lerp of Scanning and the LookAt of Hunting. The heading is the input `forward`; Scanning keeps only its timers.
- Physics: the sphere casts and the collision handler. Perception is the input `Senses`; eating is an external call of `FeedAnimal` with `foodEnergy`.
- GetClosest: compares the input distances, not Vector3.Distance between transforms.
- Instantiate: copies the whole game object; the model returns only the spawn positions of the children.
- Destroy: is a flag; Unity removes the object at the end of the frame.
- Randomness and time: Random and Time.deltaTime are parameters. Draws are constrained to a superset of the values Random.Range can return (when lo > hi, any value between hi and lo), and the breeding loop receives enough draws to end.
- Update: requires a state and an animal not yet destroyed, because Unity runs Start before the first Update and stops updating destroyed objects.
- Numbers: floats are exact reals, with no rounding. Ints are unbounded, so 32-bit overflow of stats or offsets is not modelled.
- GetCurrentState: is the field `currentState` itself.
- Habitat.cs and AnimalSelector.cs: UI, the sun colour, food spawning and mouse selection are not part of this model. The habitat appears only as its temperature, humidity and size.
