/** The search client: `search` and the defaults object it shares across
    calls. */
module GoogleBooksSearch {
  import opened Js
  import opened SearchOptions
  import opened Volumes

  /** The client object. Every search extends `defaultOptions` in place with
      its caller's options, so what one caller passes becomes the default of
      every later search. */
  class Client {
    var defaultOptions: Options

    constructor()
      ensures defaultOptions == InitialDefaults()
    {
      defaultOptions := InitialDefaults();
    }

    /** `search(query, options, callback)`, given the reply its HTTP request
        receives. Returns the parameters of the request, which is sent
        whether or not the options are valid, and what reaches the callback,
        in order: one `null` per failed check, then the outcome of the
        reply. */
    method Search(query: string, options: Overrides, reply: Reply)
      returns (request: seq<Param>, outcomes: seq<Completion>)
      modifies this
      ensures defaultOptions == Extend(old(defaultOptions), options)
      ensures IsRequest(request, QueryText(query, defaultOptions.field), defaultOptions)
      ensures |outcomes| == |Rejections(query, defaultOptions)| + 1
      ensures forall i :: 0 <= i < |outcomes| - 1 ==> outcomes[i] == Called(None)
      ensures Handles(reply, outcomes[|outcomes| - 1])
    {
      defaultOptions := Extend(defaultOptions, options);
      var merged := defaultOptions;
      outcomes := [];
      if Fails(QueryCheck, query, merged) {
        outcomes := outcomes + [Called(None)];
      }
      if Fails(OffsetCheck, query, merged) {
        outcomes := outcomes + [Called(None)];
      }
      if Fails(LimitCheck, query, merged) {
        outcomes := outcomes + [Called(None)];
      }
      request := BuildRequest(query, merged);
      var last := HandleResponse(reply);
      outcomes := outcomes + [last];
    }
  }

  /** Two searches on one client: the first passes `limit: 40`, the second
      passes no options and still asks for 40 results. */
  method LimitLeaksIntoNextSearch(reply: Reply) returns (second: seq<Param>)
    ensures Lookup(second, "maxResults") == Some(Num(40))
  {
    var client := new Client();
    var first, firstOutcomes := client.Search("dune", NoOverrides.(limit := Some(40)), reply);
    var secondOutcomes;
    second, secondOutcomes := client.Search("dune", NoOverrides, reply);
  }

  /** An invalid search still sends its request: an empty query with a
      negative offset and a limit of 0 yields three `null` callbacks, then
      the reply's outcome, and the request carries the invalid values. */
  method InvalidSearchStillSends(reply: Reply) returns (request: seq<Param>, outcomes: seq<Completion>)
    ensures |request| == 6
    ensures Lookup(request, "q") == Some(Str(""))
    ensures Lookup(request, "startIndex") == Some(Num(-1))
    ensures Lookup(request, "maxResults") == Some(Num(0))
    ensures |outcomes| == 4 && outcomes[..3] == [Called(None), Called(None), Called(None)]
    ensures Handles(reply, outcomes[3])
  {
    var client := new Client();
    request, outcomes := client.Search("", NoOverrides.(offset := Some(-1), limit := Some(0)), reply);
  }

  /** Runs one search per element of `calls`, in turn, on a new client, and
      returns the defaults the client holds afterwards: each option is the
      value last passed for it, or its initial default if none was. */
  method SearchesInTurn(query: string, calls: seq<Overrides>, reply: Reply) returns (defaults: Options)
    ensures defaults == DefaultsAfter(InitialDefaults(), calls)
    ensures forall name ::
      Get(defaults, name) == (if LastPassed(calls, name).Some? then LastPassed(calls, name) else Get(InitialDefaults(), name))
  {
    var client := new Client();
    var i := 0;
    while i < |calls|
      invariant 0 <= i <= |calls|
      invariant client.defaultOptions == DefaultsAfter(InitialDefaults(), calls[..i])
    {
      var request, outcomes := client.Search(query, calls[i], reply);
      assert calls[..i + 1][..i] == calls[..i];
      i := i + 1;
    }
    assert calls[..i] == calls;
    defaults := client.defaultOptions;
    forall name
      ensures Get(defaults, name) == (if LastPassed(calls, name).Some? then LastPassed(calls, name) else Get(InitialDefaults(), name))
    {
      DefaultsAfterLeak(InitialDefaults(), calls, name);
    }
  }
}
