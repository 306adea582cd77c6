/**
 * Animals with a little mutable state: every animal is awake or asleep and
 * has an energy level; a dog knows tricks, a cat may purr and a bird may be
 * flying at some altitude. Actions are guarded: they do nothing while the
 * animal sleeps or lacks energy, and otherwise change energy by a fixed amount.
 *
 * Dog, Cat and Bird extend Animal in the program; here each holds the Animal
 * part its parent constructor builds, and acts on that part's fields.
 */
module Animals {
  /** Full energy; a new or rested animal has this much. */
  const MaxEnergy := 100
  /** What a meal adds, up to MaxEnergy. */
  const MealEnergy := 20

  /** A dog needs this much energy to fetch, and fetching uses FetchCost. */
  const FetchThreshold := 20
  const FetchCost := 15
  /** A cat needs this much energy to climb a tree, and climbing uses ClimbCost. */
  const ClimbThreshold := 30
  const ClimbCost := 20
  /** A bird needs this much energy to fly, and flying uses FlyCost. */
  const FlyThreshold := 25
  const FlyCost := 20

  /** What an action reports instead of its message text. */
  datatype Outcome =
    | Done             // the action happened
    | Asleep           // refused (or done quietly) because the animal sleeps
    | TooTired         // refused because energy is below the action's threshold
    | AlreadySleeping  // sleep on a sleeping animal
    | AlreadyAwake     // wake_up on an awake animal
    | AlreadyKnown     // learn_trick of a trick the dog knows
    | UnknownTrick     // perform_trick of a trick the dog does not know
    | AlreadyGrounded  // land on a bird that is not flying

  /** Energy after a meal: 20 more, but never above the maximum. */
  function Fed(energy: int): (r: int)
    ensures r <= MaxEnergy
    ensures energy <= MaxEnergy ==> energy <= r
    ensures r == energy + MealEnergy || r == MaxEnergy
    ensures energy + MealEnergy <= MaxEnergy ==> r == energy + MealEnergy
  {
    if energy + MealEnergy < MaxEnergy then energy + MealEnergy else MaxEnergy
  }

  /**
   * Energy after an action that an awake animal with at least `threshold`
   * energy performs at a price of `cost`; otherwise energy is untouched.
   */
  function Exerted(sleeping: bool, energy: int, threshold: int, cost: int): (r: int)
    ensures sleeping || energy < threshold ==> r == energy
    ensures !sleeping && threshold <= energy ==> r + cost == energy
    ensures 0 <= cost <= threshold && 0 <= energy <= MaxEnergy ==> 0 <= r <= energy
  {
    if sleeping || energy < threshold then energy else energy - cost
  }

  /** No trick is listed twice. */
  predicate Distinct(tricks: seq<string>)
  {
    forall i, j :: 0 <= i < j < |tricks| ==> tricks[i] != tricks[j]
  }

  /** The trick list after learning `trick`: appended at the end unless already known. */
  function Learned(tricks: seq<string>, trick: string): (r: seq<string>)
    ensures trick in r
    ensures forall t :: t in r <==> t in tricks || t == trick
    ensures |tricks| <= |r| <= |tricks| + 1 && r[..|tricks|] == tricks
    ensures trick in tricks <==> r == tricks
    ensures Distinct(tricks) ==> Distinct(r)
  {
    if trick in tricks then tricks else tricks + [trick]
  }

  /** The state every animal shares. */
  class Animal {
    const name: string
    const species: string
    const age: int
    var isSleeping: bool
    var energy: int

    /** Energy stays within 0..MaxEnergy. */
    ghost predicate Valid()
      reads this
    {
      0 <= energy <= MaxEnergy
    }

    /** A new animal is awake with full energy. */
    constructor (name: string, species: string, age: int)
      ensures this.name == name && this.species == species && this.age == age
      ensures !isSleeping && energy == MaxEnergy
      ensures Valid()
    {
      this.name := name;
      this.species := species;
      this.age := age;
      isSleeping := false;
      energy := MaxEnergy;
    }

    /** Eating restores energy up to the cap, asleep or not. */
    method Eat(food: string)
      modifies this`energy
      ensures energy == Fed(old(energy))
      ensures old(Valid()) ==> Valid()
    {
      energy := if MaxEnergy < energy + MealEnergy then MaxEnergy else energy + MealEnergy;
    }

    /** Falling asleep restores full energy; a sleeping animal is left alone. */
    method Sleep() returns (outcome: Outcome)
      modifies this`isSleeping, this`energy
      ensures isSleeping
      ensures old(isSleeping) ==> outcome == AlreadySleeping && energy == old(energy)
      ensures !old(isSleeping) ==> outcome == Done && energy == MaxEnergy
      ensures old(Valid()) ==> Valid()
    {
      if isSleeping {
        return AlreadySleeping;
      }
      isSleeping := true;
      energy := MaxEnergy;
      outcome := Done;
    }

    /** Waking up touches nothing but the sleeping flag. */
    method WakeUp() returns (outcome: Outcome)
      modifies this`isSleeping
      ensures !isSleeping
      ensures outcome == (if old(isSleeping) then Done else AlreadyAwake)
    {
      if !isSleeping {
        return AlreadyAwake;
      }
      isSleeping := false;
      outcome := Done;
    }
  }

  class Dog {
    const animal: Animal
    const breed: string
    /** Set once; no operation trains a dog. */
    const isTrained: bool
    var tricks: seq<string>

    /** Energy within range and no trick listed twice. */
    ghost predicate Valid()
      reads this, animal
    {
      animal.Valid() && Distinct(tricks)
    }

    /** A new dog is an awake animal of species "Dog", untrained and knowing no tricks. */
    constructor (name: string, age: int, breed: string)
      ensures fresh(animal)
      ensures animal.name == name && animal.species == "Dog" && animal.age == age
      ensures !animal.isSleeping && animal.energy == MaxEnergy
      ensures this.breed == breed && !isTrained && tricks == []
      ensures Valid()
    {
      animal := new Animal(name, "Dog", age);
      this.breed := breed;
      isTrained := false;
      tricks := [];
    }

    /** Fetching costs 15 energy and needs 20; a sleeping dog does not fetch. */
    method Fetch(item: string) returns (outcome: Outcome)
      modifies animal`energy
      ensures animal.energy == Exerted(animal.isSleeping, old(animal.energy), FetchThreshold, FetchCost)
      ensures animal.isSleeping ==> outcome == Asleep
      ensures !animal.isSleeping && old(animal.energy) < FetchThreshold ==> outcome == TooTired
      ensures !animal.isSleeping && FetchThreshold <= old(animal.energy) ==> outcome == Done
      ensures old(Valid()) ==> Valid()
    {
      if animal.isSleeping {
        return Asleep;
      }
      if animal.energy < FetchThreshold {
        return TooTired;
      }
      animal.energy := animal.energy - FetchCost;
      outcome := Done;
    }

    /** Learning adds an unknown trick at the end, asleep or not. */
    method LearnTrick(trick: string) returns (outcome: Outcome)
      modifies this`tricks
      ensures tricks == Learned(old(tricks), trick)
      ensures outcome == (if trick in old(tricks) then AlreadyKnown else Done)
      ensures old(Valid()) ==> Valid()
    {
      if trick in tricks {
        return AlreadyKnown;
      }
      tricks := tricks + [trick];
      outcome := Done;
    }

    /** Performing changes nothing; an unknown trick is reported before sleep. */
    method PerformTrick(trick: string) returns (outcome: Outcome)
      ensures trick !in tricks ==> outcome == UnknownTrick
      ensures trick in tricks && animal.isSleeping ==> outcome == Asleep
      ensures outcome == Done <==> trick in tricks && !animal.isSleeping
    {
      if trick !in tricks {
        return UnknownTrick;
      }
      if animal.isSleeping {
        return Asleep;
      }
      outcome := Done;
    }
  }

  class Cat {
    const animal: Animal
    const color: string
    /** Set once; no operation changes it. */
    const livesRemaining: int
    var isPurring: bool

    ghost predicate Valid()
      reads this, animal
    {
      animal.Valid()
    }

    /** A new cat is an awake animal of species "Cat" with 9 lives, not purring. */
    constructor (name: string, age: int, color: string)
      ensures fresh(animal)
      ensures animal.name == name && animal.species == "Cat" && animal.age == age
      ensures !animal.isSleeping && animal.energy == MaxEnergy
      ensures this.color == color && livesRemaining == 9 && !isPurring
      ensures Valid()
    {
      animal := new Animal(name, "Cat", age);
      this.color := color;
      livesRemaining := 9;
      isPurring := false;
    }

    /** An awake cat starts purring; a sleeping one keeps its purring flag. */
    method Purr() returns (outcome: Outcome)
      modifies this`isPurring
      ensures animal.isSleeping ==> outcome == Asleep && isPurring == old(isPurring)
      ensures !animal.isSleeping ==> outcome == Done && isPurring
    {
      if animal.isSleeping {
        return Asleep;
      }
      isPurring := true;
      outcome := Done;
    }

    /** Climbing costs 20 energy and needs 30; a sleeping cat does not climb. */
    method ClimbTree() returns (outcome: Outcome)
      modifies animal`energy
      ensures animal.energy == Exerted(animal.isSleeping, old(animal.energy), ClimbThreshold, ClimbCost)
      ensures animal.isSleeping ==> outcome == Asleep
      ensures !animal.isSleeping && old(animal.energy) < ClimbThreshold ==> outcome == TooTired
      ensures !animal.isSleeping && ClimbThreshold <= old(animal.energy) ==> outcome == Done
      ensures old(Valid()) ==> Valid()
    {
      if animal.isSleeping {
        return Asleep;
      }
      if animal.energy < ClimbThreshold {
        return TooTired;
      }
      animal.energy := animal.energy - ClimbCost;
      outcome := Done;
    }

    /** Knocking things over changes nothing and needs only an awake cat. */
    method KnockOverObject(objectName: string) returns (outcome: Outcome)
      ensures outcome == Asleep <==> animal.isSleeping
      ensures outcome == Done <==> !animal.isSleeping
    {
      if animal.isSleeping {
        return Asleep;
      }
      outcome := Done;
    }
  }

  class Bird {
    const animal: Animal
    /** In inches. */
    const wingSpan: real
    var isFlying: bool
    /** In feet. */
    var altitude: int

    /** Energy within range, and a bird on the ground is at altitude 0. */
    ghost predicate Valid()
      reads this, animal
    {
      animal.Valid() && (!isFlying ==> altitude == 0)
    }

    /** A new bird is an awake animal of species "Bird", on the ground. */
    constructor (name: string, age: int, wingSpan: real)
      ensures fresh(animal)
      ensures animal.name == name && animal.species == "Bird" && animal.age == age
      ensures !animal.isSleeping && animal.energy == MaxEnergy
      ensures this.wingSpan == wingSpan && !isFlying && altitude == 0
      ensures Valid()
    {
      animal := new Animal(name, "Bird", age);
      this.wingSpan := wingSpan;
      isFlying := false;
      altitude := 0;
    }

    /**
     * Flying needs 25 energy and costs 20, and takes the bird to `height`
     * (even when it is already flying); otherwise nothing changes.
     */
    method Fly(height: int) returns (outcome: Outcome)
      modifies this`isFlying, this`altitude, animal`energy
      ensures animal.energy == Exerted(animal.isSleeping, old(animal.energy), FlyThreshold, FlyCost)
      ensures animal.isSleeping ==> outcome == Asleep
      ensures !animal.isSleeping && old(animal.energy) < FlyThreshold ==> outcome == TooTired
      ensures outcome == Done <==> !animal.isSleeping && FlyThreshold <= old(animal.energy)
      ensures outcome == Done ==> isFlying && altitude == height
      ensures outcome != Done ==> isFlying == old(isFlying) && altitude == old(altitude)
      ensures old(Valid()) ==> Valid()
    {
      if animal.isSleeping {
        return Asleep;
      }
      if animal.energy < FlyThreshold {
        return TooTired;
      }
      isFlying := true;
      altitude := height;
      animal.energy := animal.energy - FlyCost;
      outcome := Done;
    }

    /** Landing brings a flying bird to the ground at altitude 0. */
    method Land() returns (outcome: Outcome)
      modifies this`isFlying, this`altitude
      ensures !isFlying
      ensures !old(isFlying) ==> outcome == AlreadyGrounded && altitude == old(altitude)
      ensures old(isFlying) ==> outcome == Done && altitude == 0
      ensures old(Valid()) ==> Valid()
    {
      if !isFlying {
        return AlreadyGrounded;
      }
      isFlying := false;
      altitude := 0;
      outcome := Done;
    }
  }

  /**
   * A day with a dog: fetching from full energy leaves 85, and a meal then
   * brings it back to the cap of 100 rather than 105; a trick is learned
   * once; an unknown trick is reported; a sleeping dog does not fetch.
   */
  method DogExamples() returns (fetched: Outcome, energy: int, fed: int, first: Outcome,
                                 again: Outcome, unknown: Outcome, asleep: Outcome, known: seq<string>)
    ensures fetched == Done && energy == 85 && fed == MaxEnergy
    ensures first == Done && again == AlreadyKnown && unknown == UnknownTrick
    ensures asleep == Asleep && known == ["sit"]
  {
    var buddy := new Dog("Buddy", 3, "Golden Retriever");
    fetched := buddy.Fetch("ball");
    energy := buddy.animal.energy;
    buddy.animal.Eat("treats");
    fed := buddy.animal.energy;
    first := buddy.LearnTrick("sit");
    again := buddy.LearnTrick("sit");
    unknown := buddy.PerformTrick("roll over");
    var _ := buddy.animal.Sleep();
    asleep := buddy.Fetch("stick");
    known := buddy.tricks;
  }

  /** A cat climbs from 100 to 80, 60, 40 and 20, and then is too tired. */
  method CatExamples() returns (climbs: seq<Outcome>, energy: int, purring: bool)
    ensures climbs == [Done, Done, Done, Done, TooTired] && energy == 20 && purring
  {
    var whiskers := new Cat("Whiskers", 2, "Orange");
    var c1 := whiskers.ClimbTree();
    var c2 := whiskers.ClimbTree();
    var c3 := whiskers.ClimbTree();
    var c4 := whiskers.ClimbTree();
    var c5 := whiskers.ClimbTree();
    climbs := [c1, c2, c3, c4, c5];
    energy := whiskers.animal.energy;
    var _ := whiskers.Purr();
    purring := whiskers.isPurring;
  }

  /** A bird flies to 50 feet, lands, and a second landing finds it grounded. */
  method BirdExamples() returns (flew: Outcome, up: int, landed: Outcome, again: Outcome, down: int)
    ensures flew == Done && up == 50 && landed == Done && again == AlreadyGrounded && down == 0
  {
    var tweety := new Bird("Tweety", 1, 8.5);
    flew := tweety.Fly(50);
    up := tweety.altitude;
    landed := tweety.Land();
    again := tweety.Land();
    down := tweety.altitude;
  }
}
