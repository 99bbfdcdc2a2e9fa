/**
 * The table of engine hashes of the animation state names, built once behind
 * an initialized flag and shared by every sequencer, and the reverse lookup
 * the sequencer uses to seed each layer's current animation.
 */
module HashCatalog {
  import opened Options
  import opened Identifiers

  /** The hashes of all animation names, indexed by ordinal. */
  function NameHashes(stringToHash: string -> int): (r: seq<int>)
    ensures |r| == AnimationCount
    ensures forall a: Animation :: r[Ordinal(a)] == stringToHash(Name(a))
  {
    seq(AnimationCount, k requires 0 <= k < AnimationCount => stringToHash(Name(AllAnimations[k])))
  }

  /** The first index at or after `from` whose hash equals `h`, if there is one. */
  function FirstMatch(hashes: seq<int>, h: int, from: nat): (r: Option<nat>)
    requires from <= |hashes|
    ensures r.Some? ==> from <= r.value < |hashes| && hashes[r.value] == h
    ensures r.Some? ==> forall j :: from <= j < r.value ==> hashes[j] != h
    ensures r.None? <==> forall j :: from <= j < |hashes| ==> hashes[j] != h
    decreases |hashes| - from
  {
    if from == |hashes| then None
    else if hashes[from] == h then Some(from)
    else FirstMatch(hashes, h, from + 1)
  }

  /**
   * The animation a layer is seeded with: the first member (in ordinal order)
   * whose hash equals the layer's state hash, or IDLE when none does.
   */
  function LookupAnimation(hashes: seq<int>, h: int): Animation
    requires |hashes| == AnimationCount
  {
    match FirstMatch(hashes, h, 0)
    case Some(k) => AllAnimations[k]
    case None => IDLE
  }

  /** LookupAnimation picks exactly the first matching member, or IDLE when nothing matches. */
  lemma LookupAnimationIsFirstMatch(hashes: seq<int>, h: int, a: Animation)
    requires |hashes| == AnimationCount
    ensures LookupAnimation(hashes, h) == a <==>
      (hashes[Ordinal(a)] == h && forall b: Animation :: Ordinal(b) < Ordinal(a) ==> hashes[Ordinal(b)] != h)
      || (a == IDLE && forall b: Animation :: hashes[Ordinal(b)] != h)
  {
    var r := FirstMatch(hashes, h, 0);
    if r.Some? {
      OrdinalOfMember(r.value);
      var found := AllAnimations[r.value];
      if a != found {
        if Ordinal(a) < r.value {
          assert hashes[Ordinal(a)] != h;
        } else {
          assert Ordinal(found) < Ordinal(a) && hashes[Ordinal(found)] == h;
        }
        OrdinalsDistinct(a, found);
      }
    } else {
      forall b: Animation ensures hashes[Ordinal(b)] != h {
        assert 0 <= Ordinal(b) < |hashes|;
      }
    }
  }

  /**
   * Seeding round-trips through the table: when some member's hash equals the
   * state hash, the seeded member's own hash equals it.
   */
  lemma LookupAnimationHashMatches(hashes: seq<int>, h: int, b: Animation)
    requires |hashes| == AnimationCount
    requires hashes[Ordinal(b)] == h
    ensures hashes[Ordinal(LookupAnimation(hashes, h))] == h
  {
    assert 0 <= Ordinal(b) < |hashes|;
    var r := FirstMatch(hashes, h, 0);
    assert r.Some?;
    OrdinalOfMember(r.value);
  }

  /**
   * The process-wide hash table. The source keeps it in static fields; here it
   * is one object that every sequencer is given.
   */
  class AnimatorValues {
    var initialized: bool
    var animations: array?<int>
    /** The name-to-hash function the table was built with. */
    ghost var hasher: string -> int

    ghost predicate Valid()
      reads this, animations
    {
      initialized ==> animations != null && animations[..] == NameHashes(hasher)
    }

    /** The table's contents; empty before it is built. */
    ghost function Hashes(): seq<int>
      reads this, animations
    {
      if animations == null then [] else animations[..]
    }

    constructor ()
      ensures Valid() && !initialized && animations == null
    {
      initialized := false;
      animations := null;
      hasher := _ => 0;
    }

    /** Builds the table from the member names on the first call; later calls change nothing. */
    method Initialize(stringToHash: string -> int)
      requires Valid()
      modifies this
      ensures Valid() && initialized
      ensures old(initialized) ==> animations == old(animations) && hasher == old(hasher)
      ensures !old(initialized) ==> fresh(animations) && hasher == stringToHash
      ensures Hashes() == if old(initialized) then old(Hashes()) else NameHashes(stringToHash)
    {
      if initialized {
        return;
      }
      initialized := true;
      animations := new int[AnimationCount];
      for i := 0 to AnimationCount
        invariant initialized && animations != null && fresh(animations) && animations.Length == AnimationCount
        invariant forall k :: 0 <= k < i ==> animations[k] == stringToHash(Name(AllAnimations[k]))
      {
        animations[i] := stringToHash(Name(AllAnimations[i]));
      }
      hasher := stringToHash;
      assert animations[..] == NameHashes(stringToHash);
    }

    /** The engine hash of an animation's state name. */
    method GetHash(animation: Animation) returns (h: int)
      requires Valid() && initialized
      ensures h == hasher(Name(animation))
      ensures h == Hashes()[Ordinal(animation)]
    {
      h := animations[Ordinal(animation)];
    }
  }
}
