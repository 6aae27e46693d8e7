/**
 * EggSO: an editor asset holding the base stats an animal hatches with.
 * The [Min] attributes are editor-side floors: the inspector refuses smaller
 * values, but nothing enforces them at run time, so they are a predicate here
 * and not an invariant of the class.
 */
module Eggs {
  import opened AnimalLife

  class Egg {
    var animalGroup: string
    var minChildren: int
    var maxChildren: int
    var comfortTemp: int
    var comfortMoisture: int
    var size: real
    var constitution: int
    var strength: int
    var dexterity: int
    var sensing: int

    /** The stats HatchAnimal hands over. */
    function Stats(): StatBlock
      reads this
    {
      StatBlock(comfortTemp, comfortMoisture, size, constitution, strength, dexterity, sensing)
    }

    /** The [Min(1)] and [Min(0.1f)] floors on the egg's fields. */
    predicate MinFloors()
      reads this
    {
      minChildren >= 1 && maxChildren >= 1 && size >= 0.1 &&
      constitution >= 1 && strength >= 1 && dexterity >= 1 && sensing >= 1
    }

    /** A new egg asset with the field initialisers of EggSO.cs. */
    constructor (group: string)
      ensures animalGroup == group && minChildren == 5 && maxChildren == 10
      ensures Stats() == StatBlock(20, 10, 25.0, 10, 5, 5, 5)
      ensures MinFloors()
    {
      animalGroup := group;
      minChildren, maxChildren := 5, 10;
      comfortTemp, comfortMoisture := 20, 10;
      size, constitution, strength, dexterity, sensing := 25.0, 10, 5, 5, 5;
    }

    /**
     * Copies the group and the seven base stats into the animal. The egg's
     * child counts are not copied: the animal keeps its own breeding settings.
     */
    method HatchAnimal(anim: Animal)
      modifies anim`animalGroup, anim`comfortTemp, anim`comfortMoisture, anim`size,
               anim`constitution, anim`strength, anim`dexterity, anim`sensing
      ensures anim.animalGroup == animalGroup && anim.Stats() == Stats()
      ensures anim.Settings() == old(anim.Settings()) && anim.Condition() == old(anim.Condition())
      ensures MinFloors() ==> Floors(anim.Stats())
      ensures animalGroup == old(animalGroup) && Stats() == old(Stats())
      ensures minChildren == old(minChildren) && maxChildren == old(maxChildren)
    {
      anim.animalGroup := animalGroup;
      anim.comfortTemp := comfortTemp;
      anim.comfortMoisture := comfortMoisture;
      anim.size := size;
      anim.constitution := constitution;
      anim.strength := strength;
      anim.dexterity := dexterity;
      anim.sensing := sensing;
    }
  }
}
