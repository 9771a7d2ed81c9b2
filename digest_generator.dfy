/** The job fingerprint: the class name, a dash, then the argument strings
    joined by dashes, handed to a pluggable hash backend. */
module DigestGenerator {

  const Separator: char := '-'

  /** Array#join with the one-character separator. */
  function Join(parts: seq<string>): (s: string)
    ensures parts == [] ==> s == ""
    ensures |parts| == 1 ==> s == parts[0]
  {
    if parts == [] then ""
    else if |parts| == 1 then parts[0]
    else parts[0] + [Separator] + Join(parts[1..])
  }

  /** The string handed to the backend's hexdigest. */
  function Preimage(jobClass: string, arguments: seq<string>): (s: string)
    ensures |s| > |jobClass| && s[..|jobClass| + 1] == jobClass + [Separator]
    ensures arguments == [] ==> s == jobClass + [Separator]
  {
    jobClass + [Separator] + Join(arguments)
  }

  /** generate: the backend applied once to the pre-image, its result
      returned unchanged. */
  function Generate(backend: string -> string, jobClass: string, arguments: seq<string>): (digest: string)
    ensures digest == backend(Preimage(jobClass, arguments))
  {
    backend(Preimage(jobClass, arguments))
  }

  /** String#split on every separator, keeping empty pieces: the inverse of Join. */
  function Split(s: string): (parts: seq<string>)
    ensures |parts| >= 1
  {
    if s == [] then [""]
    else if s[0] == Separator then [""] + Split(s[1..])
    else var rest := Split(s[1..]); [[s[0]] + rest[0]] + rest[1..]
  }

  predicate SeparatorFree(s: string)
  {
    Separator !in s
  }

  lemma {:induction false} SplitSeparatorFree(a: string)
    requires SeparatorFree(a)
    ensures Split(a) == [a]
  {
    if a != [] {
      assert a == [a[0]] + a[1..];
      SplitSeparatorFree(a[1..]);
    }
  }

  lemma {:induction false} SplitAfterPiece(a: string, t: string)
    requires SeparatorFree(a)
    ensures Split(a + [Separator] + t) == [a] + Split(t)
  {
    var s := a + [Separator] + t;
    if a == [] {
      assert s == [Separator] + t;
      assert s[1..] == t;
    } else {
      assert s[1..] == a[1..] + [Separator] + t;
      SplitAfterPiece(a[1..], t);
      assert [a[0]] + a[1..] == a;
    }
  }

  /** Joining separator-free pieces and splitting again gives the pieces back. */
  lemma {:induction false} SplitJoin(parts: seq<string>)
    requires parts != []
    requires forall i :: 0 <= i < |parts| ==> SeparatorFree(parts[i])
    ensures Split(Join(parts)) == parts
  {
    if |parts| == 1 {
      SplitSeparatorFree(parts[0]);
    } else {
      SplitAfterPiece(parts[0], Join(parts[1..]));
      SplitJoin(parts[1..]);
      assert [parts[0]] + parts[1..] == parts;
    }
  }

  /** Over class names and non-empty argument lists free of the separator,
      the pre-image determines the class and the arguments. */
  lemma PreimageInjective(c1: string, a1: seq<string>, c2: string, a2: seq<string>)
    requires SeparatorFree(c1) && SeparatorFree(c2)
    requires a1 != [] && a2 != []
    requires forall i :: 0 <= i < |a1| ==> SeparatorFree(a1[i])
    requires forall i :: 0 <= i < |a2| ==> SeparatorFree(a2[i])
    requires Preimage(c1, a1) == Preimage(c2, a2)
    ensures c1 == c2 && a1 == a2
  {
    SplitAfterPiece(c1, Join(a1));
    SplitAfterPiece(c2, Join(a2));
    SplitJoin(a1);
    SplitJoin(a2);
    assert [c1] + a1 == [c2] + a2;
    assert c1 == ([c1] + a1)[0];
    assert a1 == ([c1] + a1)[1..];
  }

  /** The fingerprint promise: with a collision-free backend, two jobs of
      dash-free class names and non-empty lists of dash-free arguments share
      a digest only when they have the same class and the same arguments. */
  lemma {:induction false} GenerateInjective(backend: string -> string, c1: string, a1: seq<string>,
                                             c2: string, a2: seq<string>)
    requires forall x, y :: backend(x) == backend(y) ==> x == y
    requires SeparatorFree(c1) && SeparatorFree(c2)
    requires a1 != [] && a2 != []
    requires forall i :: 0 <= i < |a1| ==> SeparatorFree(a1[i])
    requires forall i :: 0 <= i < |a2| ==> SeparatorFree(a2[i])
    ensures Generate(backend, c1, a1) == Generate(backend, c2, a2) <==> c1 == c2 && a1 == a2
  {
    if Generate(backend, c1, a1) == Generate(backend, c2, a2) {
      PreimageInjective(c1, a1, c2, a2);
    }
  }

  /** The pre-image of the documented example: class Object, two arguments. */
  lemma PreimageExample()
    ensures Preimage("Object", ["argument_1", "argument_2"]) == "Object-argument_1-argument_2"
    ensures Preimage("Object", []) == "Object-"
  {
    assert Join(["argument_1", "argument_2"]) == "argument_1" + "-" + Join(["argument_2"]);
  }

  /** Outside that domain the pre-image is not injective: an argument that
      contains the separator, or a lone empty argument, collides with a
      different argument list, so the digests collide for every backend. */
  lemma PreimageCollisions(backend: string -> string)
    ensures ["a-b"] != ["a", "b"] && Generate(backend, "C", ["a-b"]) == Generate(backend, "C", ["a", "b"])
    ensures [""] != [] && Generate(backend, "C", [""]) == Generate(backend, "C", [])
  {
    assert Join(["a", "b"]) == "a" + "-" + Join(["b"]);
    assert Preimage("C", ["a-b"]) == Preimage("C", ["a", "b"]);
  }
}
