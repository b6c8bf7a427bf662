/** The HTTP methods of the Swagger models library, and counting them in a list. */
module HttpMethods {

  /** Every constant of the library's `HttpMethod` enumeration. */
  datatype HttpMethod = POST | GET | PUT | PATCH | DELETE | HEAD | OPTIONS

  /** The number of occurrences of `m` in `s`. */
  function Count(s: seq<HttpMethod>, m: HttpMethod): nat
  {
    if s == [] then 0
    else (if s[0] == m then 1 else 0) + Count(s[1..], m)
  }

  /** Counting distributes over concatenation. */
  lemma {:induction false} CountConcat(s: seq<HttpMethod>, t: seq<HttpMethod>, m: HttpMethod)
    ensures Count(s + t, m) == Count(s, m) + Count(t, m)
  {
    if s == [] {
      assert s + t == t;
    } else {
      assert (s + t)[1..] == s[1..] + t;
      CountConcat(s[1..], t, m);
    }
  }

  /** A method occurs in a list exactly when it is counted at least once. */
  lemma {:induction false} CountPositive(s: seq<HttpMethod>, m: HttpMethod)
    ensures Count(s, m) > 0 <==> m in s
  {
    if s != [] {
      CountPositive(s[1..], m);
      assert s == [s[0]] + s[1..];
    }
  }
}
