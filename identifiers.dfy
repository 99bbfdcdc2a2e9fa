/**
 * The closed enumerations of animation states and animator parameters.
 * Each member's ordinal is its position in declaration order, as the
 * source's enum values are.
 */
module Identifiers {

  /** Animation states. RESET is a sentinel meaning "play the default animation". */
  datatype Animation = IDLE | RUN | ATTACK1 | ATTACK2 | HIT | JUMP | FALL | RESET

  /** Boolean animator parameters. */
  datatype Parameter = GROUNDED | FALLING

  const AnimationCount: nat := 8
  const ParameterCount: nat := 2

  /** The enumeration members in declaration (ordinal) order. */
  const AllAnimations: seq<Animation> := [IDLE, RUN, ATTACK1, ATTACK2, HIT, JUMP, FALL, RESET]

  /** The integer value of an animation member. */
  function Ordinal(a: Animation): (k: nat)
    ensures k < AnimationCount && AllAnimations[k] == a
  {
    match a
    case IDLE => 0
    case RUN => 1
    case ATTACK1 => 2
    case ATTACK2 => 3
    case HIT => 4
    case JUMP => 5
    case FALL => 6
    case RESET => 7
  }

  /** The symbolic name of an animation member, which is also its engine state name. */
  function Name(a: Animation): string
  {
    match a
    case IDLE => "IDLE"
    case RUN => "RUN"
    case ATTACK1 => "ATTACK1"
    case ATTACK2 => "ATTACK2"
    case HIT => "HIT"
    case JUMP => "JUMP"
    case FALL => "FALL"
    case RESET => "RESET"
  }

  /** The integer value of a parameter member, used to index the parameter table. */
  function ParameterOrdinal(p: Parameter): (k: nat)
    ensures k < ParameterCount
  {
    match p
    case GROUNDED => 0
    case FALLING => 1
  }

  /** Ordinals and enumeration positions are inverse to each other. */
  lemma OrdinalOfMember(k: nat)
    requires k < AnimationCount
    ensures Ordinal(AllAnimations[k]) == k
  {
  }

  /** Distinct members have distinct ordinals. */
  lemma OrdinalsDistinct(a: Animation, b: Animation)
    requires a != b
    ensures Ordinal(a) != Ordinal(b)
  {
  }
}
