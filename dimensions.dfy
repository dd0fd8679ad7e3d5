/** A width and a height (`nx::math::Dimensions<T>`). */
module Math {

  datatype Dimensions<T(==)> = Dimensions(width: T, height: T) {

    /** `operator==`: componentwise comparison, which is the same as equality
        of the pair. */
    function Equals(other: Dimensions<T>): (b: bool)
      ensures b <==> this == other
    {
      width == other.width && height == other.height
    }

    /** `operator!=`: the negation of `operator==`. */
    function NotEquals(other: Dimensions<T>): (b: bool)
      ensures b <==> this != other
      ensures b <==> !Equals(other)
    {
      !Equals(other)
    }
  }

  /** `==` is an equivalence relation and `a != a` never holds. */
  lemma EqualsIsEquivalence<T>(a: Dimensions<T>, b: Dimensions<T>, c: Dimensions<T>)
    ensures a.Equals(a) && !a.NotEquals(a)
    ensures a.Equals(b) ==> b.Equals(a)
    ensures a.Equals(b) && b.Equals(c) ==> a.Equals(c)
  {
  }
}
