/** Values shared by every part of the engine model: optional references,
    the glm vector and quaternion records, colours, and the "erase the first
    identical entry" operation that std::vector::erase performs after a linear
    search in several places of the engine. */
module Common {

  datatype Option<+T> = None | Some(value: T)

  /** glm::vec3 with real components (floating point is not modelled). */
  datatype Vec3 = Vec3(x: real, y: real, z: real)
  {
    function Add(o: Vec3): Vec3 { Vec3(x + o.x, y + o.y, z + o.z) }
    function Mul(o: Vec3): Vec3 { Vec3(x * o.x, y * o.y, z * o.z) }
  }

  /** Componentwise products regroup freely. */
  lemma MulAssociates(a: Vec3, b: Vec3, c: Vec3)
    ensures a.Mul(b).Mul(c) == a.Mul(b.Mul(c))
  {
    assert a.x * b.x * c.x == a.x * (b.x * c.x);
    assert a.y * b.y * c.y == a.y * (b.y * c.y);
    assert a.z * b.z * c.z == a.z * (b.z * c.z);
  }

  const Zero3 := Vec3(0.0, 0.0, 0.0)
  const One3 := Vec3(1.0, 1.0, 1.0)

  /** glm::quat (w, x, y, z). */
  datatype Quat = Quat(w: real, x: real, y: real, z: real)
  {
    /** Hamilton product, as glm's quaternion operator*. */
    function Mul(q: Quat): Quat {
      Quat(w * q.w - x * q.x - y * q.y - z * q.z,
           w * q.x + x * q.w + y * q.z - z * q.y,
           w * q.y - x * q.z + y * q.w + z * q.x,
           w * q.z + x * q.y - y * q.x + z * q.w)
    }
  }

  const IdentityQuat := Quat(1.0, 0.0, 0.0, 0.0)

  datatype Color = Color(r: real, g: real, b: real, a: real)

  /** The position, orientation and scale parts of a Transform. */
  datatype Pose = Pose(position: Vec3, orientation: Quat, scale: Vec3)

  /** A model matrix, kept symbolic: the matrix maths itself is not modelled,
      only which values a matrix was built from. */
  datatype Matrix =
    | Identity
      /** translation * rotation * scale of the accumulated transform */
    | Trs(position: Vec3, orientation: Quat, scale: Vec3)
      /** the physics body's OpenGL matrix, scaled by the object's own scale */
    | BodyScaled(position: Vec3, orientation: Quat, scale: Vec3)

  /** Index of the first entry equal to x. */
  function IndexOf<T(==)>(xs: seq<T>, x: T): (k: nat)
    requires x in xs
    ensures k < |xs| && xs[k] == x && x !in xs[..k]
  {
    if xs[0] == x then 0 else 1 + IndexOf(xs[1..], x)
  }

  /** A position holding x with no x before it is the index IndexOf finds. */
  lemma {:induction false} IndexOfFirst<T>(xs: seq<T>, x: T, i: nat)
    requires i < |xs| && xs[i] == x && x !in xs[..i]
    ensures IndexOf(xs, x) == i
  {
    if i > 0 {
      assert xs[0] in xs[..i];
      assert xs[1..][..i - 1] == xs[1..i];
      assert xs[..i] == [xs[0]] + xs[1..i];
      IndexOfFirst(xs[1..], x, i - 1);
    }
  }

  /** What a linear search followed by vector::erase leaves: the first entry
      equal to x removed, the rest in order; the sequence itself when x is absent. */
  function RemoveFirst<T(==)>(xs: seq<T>, x: T): seq<T>
  {
    if xs == [] then []
    else if xs[0] == x then xs[1..]
    else [xs[0]] + RemoveFirst(xs[1..], x)
  }

  lemma {:induction false} RemoveFirstAt<T>(xs: seq<T>, x: T)
    requires x in xs
    ensures RemoveFirst(xs, x) == xs[..IndexOf(xs, x)] + xs[IndexOf(xs, x) + 1..]
  {
    if xs[0] != x {
      RemoveFirstAt(xs[1..], x);
      assert xs[1..][..IndexOf(xs[1..], x)] == xs[1..IndexOf(xs, x)];
      assert xs[..IndexOf(xs, x)] == [xs[0]] + xs[1..IndexOf(xs, x)];
    }
  }

  lemma {:induction false} RemoveFirstAbsent<T>(xs: seq<T>, x: T)
    requires x !in xs
    ensures RemoveFirst(xs, x) == xs
  {
    if xs != [] {
      RemoveFirstAbsent(xs[1..], x);
    }
  }

  /** Erasing the first occurrence takes away exactly one copy of x and keeps
      every other element: the multiset partner of RemoveFirst. */
  lemma {:induction false} RemoveFirstMultiset<T>(xs: seq<T>, x: T)
    ensures multiset(RemoveFirst(xs, x)) ==
            if x in xs then multiset(xs) - multiset{x} else multiset(xs)
  {
    if xs != [] {
      RemoveFirstMultiset(xs[1..], x);
      assert xs == [xs[0]] + xs[1..];
      assert multiset(xs) == multiset{xs[0]} + multiset(xs[1..]);
      if xs[0] != x {
        assert x in xs <==> x in xs[1..];
        assert multiset(RemoveFirst(xs, x)) == multiset{xs[0]} + multiset(RemoveFirst(xs[1..], x));
      }
    }
  }

  /** Erasing shortens the list by one exactly when x occurs in it. */
  lemma {:induction false} RemoveFirstLength<T>(xs: seq<T>, x: T)
    ensures |RemoveFirst(xs, x)| == if x in xs then |xs| - 1 else |xs|
  {
    if xs != [] {
      RemoveFirstLength(xs[1..], x);
      assert x in xs <==> xs[0] == x || x in xs[1..];
    }
  }

  /** No element occurs twice. */
  predicate Distinct<T(==)>(xs: seq<T>)
  {
    forall i, j :: 0 <= i < j < |xs| ==> xs[i] != xs[j]
  }

  /** Erasing from a list without duplicates keeps it without duplicates and
      takes x out of it altogether. */
  lemma {:induction false} RemoveFirstDistinct<T>(xs: seq<T>, x: T)
    requires Distinct(xs)
    ensures Distinct(RemoveFirst(xs, x))
    ensures forall y :: y in RemoveFirst(xs, x) <==> y in xs && y != x
  {
    if xs != [] {
      assert Distinct(xs[1..]) by {
        forall i, j | 0 <= i < j < |xs[1..]| ensures xs[1..][i] != xs[1..][j] {
          assert xs[1..][i] == xs[i + 1] && xs[1..][j] == xs[j + 1];
        }
      }
      RemoveFirstDistinct(xs[1..], x);
      assert xs[0] !in xs[1..] by {
        forall j | 0 <= j < |xs[1..]| ensures xs[1..][j] != xs[0] {
          assert xs[1..][j] == xs[j + 1];
        }
      }
      assert forall y :: y in xs <==> y == xs[0] || y in xs[1..] by {
        assert xs == [xs[0]] + xs[1..];
      }
      if xs[0] != x {
        var r := RemoveFirst(xs[1..], x);
        assert RemoveFirst(xs, x) == [xs[0]] + r;
        forall i, j | 0 <= i < j < |[xs[0]] + r| ensures ([xs[0]] + r)[i] != ([xs[0]] + r)[j] {
          if i > 0 {
            assert ([xs[0]] + r)[i] == r[i - 1] && ([xs[0]] + r)[j] == r[j - 1];
          } else {
            assert ([xs[0]] + r)[j] == r[j - 1];
          }
        }
      }
    }
  }
}
