/**
 * The operation filter of the test configuration: which API path to test, and
 * with which HTTP methods.
 */
module Configuration {
  import opened Wrappers
  import opened HttpMethods

  /** The methods a filter's collection holds, reading a `null` collection as empty. */
  function Existing(ms: Option<seq<HttpMethod>>): seq<HttpMethod>
  {
    if ms.Some? then ms.value else []
  }

  /**
   * The collection after one method is added to it: a missing collection is
   * first created empty, and the method then goes at the end, with no check
   * for duplicates.
   */
  function Appended(ms: Option<seq<HttpMethod>>, m: HttpMethod): (r: seq<HttpMethod>)
    ensures |r| == |Existing(ms)| + 1
    ensures r[..|r| - 1] == Existing(ms) && r[|r| - 1] == m
    ensures ms.None? ==> r == [m]
  {
    Existing(ms) + [m]
  }

  /** The four methods `addAllMethods` adds, in the order it adds them. */
  const StandardMethods: seq<HttpMethod> := [GET, POST, PUT, DELETE]

  /** Adding GET, POST, PUT and DELETE one after another appends the standard methods in that order. */
  lemma AppendedInTurn(ms: Option<seq<HttpMethod>>)
    ensures Appended(Some(Appended(Some(Appended(Some(Appended(ms, GET)), POST)), PUT)), DELETE)
         == Existing(ms) + StandardMethods
  {
  }

  /** Adding `m` adds one occurrence of `m` and leaves every other method's count as it was. */
  lemma AppendedCount(ms: Option<seq<HttpMethod>>, m: HttpMethod, x: HttpMethod)
    ensures Count(Appended(ms, m), x) == Count(Existing(ms), x) + (if x == m then 1 else 0)
  {
    CountConcat(Existing(ms), [m], x);
  }

  /** Adding the same method twice keeps both entries: the collection is a list, not a set. */
  lemma AppendTwiceKeepsBoth(ms: Option<seq<HttpMethod>>, m: HttpMethod)
    ensures var twice := Appended(Some(Appended(ms, m)), m);
      |twice| == |Existing(ms)| + 2 &&
      twice[|twice| - 2] == m && twice[|twice| - 1] == m &&
      Count(twice, m) == Count(Existing(ms), m) + 2
  {
    AppendedCount(ms, m, m);
    AppendedCount(Some(Appended(ms, m)), m, m);
  }

  /**
   * Adding the standard methods adds exactly one occurrence of each of them and
   * none of any other method; so afterwards all four are present, and a
   * non-standard method is present exactly when it was before.
   */
  lemma StandardMethodsAdded(ms: Option<seq<HttpMethod>>, x: HttpMethod)
    ensures Count(Existing(ms) + StandardMethods, x)
         == Count(Existing(ms), x) + (if x in StandardMethods then 1 else 0)
    ensures x in StandardMethods ==> x in Existing(ms) + StandardMethods
    ensures x !in StandardMethods ==> (x in Existing(ms) + StandardMethods <==> x in Existing(ms))
  {
    CountConcat(Existing(ms), StandardMethods, x);
    assert StandardMethods[1..][1..][1..][1..] == [];
  }

  /**
   * A filter: a path (`None` selects every path) and the HTTP methods to test
   * on it (`None` while no collection has been set or created).
   */
  class TestConfigurationFilter {
    var path: Option<string>
    var methods: Option<seq<HttpMethod>>

    /** A filter for every path, with no method collection yet. */
    constructor ()
      ensures path == None && methods == None
    {
      path := None;
      methods := None;
    }

    /** A filter holding exactly the given path and method collection. */
    constructor Of(path: Option<string>, methods: Option<seq<HttpMethod>>)
      ensures this.path == path && this.methods == methods
    {
      this.path := path;
      this.methods := methods;
    }

    method GetPath() returns (p: Option<string>)
      ensures p == path
    {
      p := path;
    }

    method SetPath(p: Option<string>)
      modifies this
      ensures path == p && methods == old(methods)
    {
      path := p;
    }

    method GetMethods() returns (ms: Option<seq<HttpMethod>>)
      ensures ms == methods
    {
      ms := methods;
    }

    method SetMethods(ms: Option<seq<HttpMethod>>)
      modifies this
      ensures methods == ms && path == old(path)
    {
      methods := ms;
    }

    method AddGetMethod()
      modifies this
      ensures methods == Some(Appended(old(methods), GET)) && path == old(path)
    {
      if methods == None {
        methods := Some([]);
      }
      methods := Some(methods.value + [GET]);
    }

    method AddPostMethod()
      modifies this
      ensures methods == Some(Appended(old(methods), POST)) && path == old(path)
    {
      if methods == None {
        methods := Some([]);
      }
      methods := Some(methods.value + [POST]);
    }

    method AddPutMethod()
      modifies this
      ensures methods == Some(Appended(old(methods), PUT)) && path == old(path)
    {
      if methods == None {
        methods := Some([]);
      }
      methods := Some(methods.value + [PUT]);
    }

    method AddDeleteMethod()
      modifies this
      ensures methods == Some(Appended(old(methods), DELETE)) && path == old(path)
    {
      if methods == None {
        methods := Some([]);
      }
      methods := Some(methods.value + [DELETE]);
    }

    /** Adds GET, POST, PUT and DELETE, in that order, after whatever the filter already holds. */
    method AddAllMethods()
      modifies this
      ensures methods == Some(Existing(old(methods)) + StandardMethods) && path == old(path)
    {
      AddGetMethod();
      AddPostMethod();
      AddPutMethod();
      AddDeleteMethod();
      AppendedInTurn(old(methods));
    }
  }

  /** A fresh filter given GET twice holds two GET entries. */
  method AddGetTwice() returns (ms: Option<seq<HttpMethod>>)
    ensures ms == Some([GET, GET])
  {
    var filter := new TestConfigurationFilter();
    filter.AddGetMethod();
    filter.AddGetMethod();
    assert filter.methods.value == [GET] + [GET] == [GET, GET];
    ms := filter.GetMethods();
  }
}
