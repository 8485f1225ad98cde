/**
  The point and dot translators write into the same scene: their keys are
  kept apart by the kind prefix.
 */
module DescriptorKeys {
  import Points
  import Dots

  /** A dot key never equals a point key, so the descriptors of the two kinds never collide. */
  lemma KeysOfKindsDiffer(dotId: string, pointId: string)
    ensures Dots.Key(dotId) != Points.Key(pointId)
  {
    assert Dots.Key(dotId)[0] == 'd';
    assert Points.Key(pointId)[0] == 'p';
  }
}
