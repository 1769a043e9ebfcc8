/** Small vocabulary shared by every part of the trace generator model. */
module Common {

  datatype Option<T> = None | Some(value: T)

  /** The failures the generator raises as exceptions. */
  datatype Error =
      /** `setErrorChance` refuses a percentage outside [0, 100]. */
    | ErrorChanceOutOfRange(chance: real)
      /** The call-graph check found an operation calling one of its ancestors; both ends as `app.svc.op`. */
    | CircularReference(from: string, to: string)
      /** `Random.nextInt(0)`: a random pick from an empty collection. */
    | EmptyChoice
      /** A retry loop of the random synthesis used up its round budget (the source would keep retrying). */
    | RetriesExhausted

  datatype Result<T> = Ok(value: T) | Err(error: Error)

  datatype Outcome = Pass | Fail(error: Error)

  /** `Strings.isNullOrEmpty`: a Java null string is modelled as the empty string. */
  predicate IsBlank(s: string) { s == "" }

  function Min(a: int, b: int): (m: int)
    ensures m <= a && m <= b && (m == a || m == b)
  {
    if a <= b then a else b
  }

  /** A count that a negative bound leaves at zero, as a loop `for (i = 0; i < n; i++)` runs `Max0(n)` times. */
  function Max0(n: int): (m: nat)
    ensures n >= 0 ==> m == n
    ensures n < 0 ==> m == 0
  {
    if n > 0 then n else 0
  }

  predicate Distinct<T(==)>(s: seq<T>) {
    forall i, j :: 0 <= i < j < |s| ==> s[i] != s[j]
  }

  /** `s` lists every key of `keys` exactly once, as `new ArrayList<>(map.keySet())` does in an order left open. */
  ghost predicate ListsKeys(s: seq<string>, keys: set<string>) {
    && |s| == |keys| && Distinct(s)
    && forall k :: k in s <==> k in keys
  }

  /** Removes the first occurrence of `x`, as `List.remove(Object)` does. */
  function RemoveFirst<T(==)>(s: seq<T>, x: T): (r: seq<T>)
    ensures x in s ==> |r| == |s| - 1
    ensures x !in s ==> r == s
    ensures forall y :: y in r ==> y in s
    ensures Distinct(s) ==> Distinct(r) && x !in r && forall y :: y in s && y != x ==> y in r
  {
    if s == [] then []
    else if s[0] == x then s[1..]
    else
      var rest := RemoveFirst(s[1..], x);
      assert Distinct(s) ==> s[0] !in s[1..] && Distinct(s[1..]);
      assert forall j :: 0 <= j < |rest| ==> rest[j] in s[1..];
      [s[0]] + rest
  }

  /** Removes the element at index `i`, as `List.remove(int)` does. */
  function RemoveAt<T(==)>(s: seq<T>, i: nat): (r: seq<T>)
    requires i < |s|
    ensures |r| == |s| - 1
    ensures forall y :: y in r ==> y in s
    ensures Distinct(s) ==> Distinct(r) && s[i] !in r && forall y :: y in s && y != s[i] ==> y in r
  {
    assert s == s[..i] + [s[i]] + s[i + 1..];
    s[..i] + s[i + 1..]
  }

  const TwoTo53: nat := 0x20_0000_0000_0000

  /** `Math.random()`: a multiple of 2^-53 in [0, 1), made from one raw draw. */
  function Unit(draw: nat): (u: real)
    ensures 0.0 <= u < 1.0
  {
    (draw % TwoTo53) as real / TwoTo53 as real
  }

  /**
   * The generator's source of randomness, made an explicit input: an infinite
   * stream of raw draws and the position of the next one. `new Random()` and
   * `Math.random()` in the source each take the next draw.
   */
  class RandomSource {
    const stream: nat -> nat
    var next: nat

    constructor (stream: nat -> nat)
      ensures this.stream == stream && next == 0
    {
      this.stream := stream;
      next := 0;
    }

    /** `Random.nextInt(bound)`; callers check `bound > 0`, which is where the source throws. */
    method NextInt(bound: nat) returns (r: nat)
      requires bound > 0
      modifies this
      ensures r < bound
      ensures r == stream(old(next)) % bound && next == old(next) + 1
    {
      r := stream(next) % bound;
      next := next + 1;
    }
  }
}
