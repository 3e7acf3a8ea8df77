/** The request pipeline: a default option set shared by every instance, an append-only
    middleware list, the verb helpers, and `request`, which merges the options, attaches a
    freshly built handler and hands method, URL and options to the HTTP client. The client
    itself is not modelled: `request` yields the `Dispatch` it would hand over. */
module HttpPipeline {
  import opened Php
  import opened Options
  import opened Multipart

  /** cURL's option number for CURLOPT_IPRESOLVE (an integer key in PHP) and the value
      CURL_IPRESOLVE_V4. */
  const CurlOptIpResolve := "113"
  const CurlIpResolveV4 := 1

  /** The default option set before any `setDefaultOptions`: resolve host names to IPv4 only. */
  function InitialDefaults(): map<string, Value> {
    map["curl" := Dict(map[CurlOptIpResolve := Plain(Int(CurlIpResolveV4))])]
  }

  /** What `request` hands to the HTTP client. */
  datatype Dispatch = Dispatch(verb: string, url: string, options: Value)

  /** The middlewares as option values, in order. */
  function Fns(middlewares: seq<Callable>): seq<Value> {
    seq(|middlewares|, i requires 0 <= i < |middlewares| => Fn(middlewares[i]))
  }

  /** The layers `getHandler` pushes: the middlewares, then the default handler when it is set. */
  function HandlerLayers(middlewares: seq<Callable>, defaults: map<string, Value>): seq<Value> {
    Fns(middlewares) + if IsSet(defaults, "handler") then [defaults["handler"]] else []
  }

  /** What `request(url, verb, options)` hands to the client, given the defaults and the middlewares. */
  function Prepared(defaults: map<string, Value>, middlewares: seq<Callable>,
                    url: string, verb: string, options: Value): Dispatch {
    Dispatch(Upper(verb), url, WithKey(ArrayMerge(Dict(defaults), options), "handler",
                                       Stack(HandlerLayers(middlewares, defaults))))
  }

  /** The class-level (static) default option set: one store that every `Http` object reads. */
  class StaticDefaults {
    var options: map<string, Value>

    constructor ()
      ensures options == InitialDefaults()
    {
      options := InitialDefaults();
    }
  }

  class Http {
    const shared: StaticDefaults
    var middlewares: seq<Callable>

    constructor (shared: StaticDefaults)
      ensures this.shared == shared && middlewares == []
    {
      this.shared := shared;
      middlewares := [];
    }

    function GetDefaultOptions(): map<string, Value>
      reads shared
    {
      shared.options
    }

    method SetDefaultOptions(defaults: map<string, Value> := map[])
      modifies shared
      ensures GetDefaultOptions() == defaults
    {
      shared.options := defaults;
    }

    function GetMiddlewares(): seq<Callable>
      reads this
    {
      middlewares
    }

    method AddMiddleware(m: Callable)
      modifies this`middlewares
      ensures GetMiddlewares() == old(GetMiddlewares()) + [m]
      ensures |GetMiddlewares()| == |old(GetMiddlewares())| + 1
      ensures GetMiddlewares()[..|old(GetMiddlewares())|] == old(GetMiddlewares())
    {
      middlewares := middlewares + [m];
    }

    /** `getHandler`: a new stack with every middleware pushed in registration order, then the
        default handler when the defaults set one. */
    method GetHandler() returns (stack: Value)
      ensures stack == Stack(HandlerLayers(middlewares, shared.options))
      ensures |stack.layers| == |middlewares| + 1 <==> IsSet(shared.options, "handler")
      ensures |stack.layers| == |middlewares| || |stack.layers| == |middlewares| + 1
      ensures forall i :: 0 <= i < |middlewares| ==> stack.layers[i] == Fn(middlewares[i])
      ensures IsSet(shared.options, "handler") ==> stack.layers[|middlewares|] == shared.options["handler"]
    {
      var layers: seq<Value> := [];
      for i := 0 to |middlewares|
        invariant layers == Fns(middlewares[..i])
      {
        layers := layers + [Fn(middlewares[i])];
      }
      assert middlewares[..|middlewares|] == middlewares;
      if IsSet(shared.options, "handler") {
        layers := layers + [shared.options["handler"]];
      }
      stack := Stack(layers);
    }

    /** `request`: upper-cases the method, merges the defaults with the call's options (the
        call wins, one level deep) and overwrites the `handler` option with a fresh handler. */
    method Request(url: string, verb: string := "GET", options: Value := Dict(map[])) returns (sent: Dispatch)
      ensures sent == Prepared(shared.options, middlewares, url, verb, options)
      ensures sent.verb == Upper(verb) && sent.url == url
      ensures sent.options.Dict? && "handler" in sent.options.fields
      ensures sent.options.fields["handler"] == Stack(HandlerLayers(middlewares, shared.options))
      ensures options.Dict? ==>
                sent.options.fields.Keys == shared.options.Keys + options.fields.Keys + {"handler"}
      ensures options.Dict? ==>
                forall k :: k in options.fields && k != "handler" ==> sent.options.fields[k] == options.fields[k]
      ensures options.Dict? ==>
                forall k :: k in shared.options && k !in options.fields && k != "handler" ==>
                  sent.options.fields[k] == shared.options[k]
      ensures !options.Dict? ==> sent.options.fields.Keys == {"handler"}
    {
      var upper := Upper(verb);
      var merged := ArrayMerge(Dict(shared.options), options);
      var handler := GetHandler();
      sent := Dispatch(upper, url, WithKey(merged, "handler", handler));
    }

    /** `get`: a GET request whose only call option is `query`. */
    method Get(url: string, query: map<string, Value> := map[]) returns (sent: Dispatch)
      ensures sent == Prepared(shared.options, middlewares, url, "GET", Dict(map["query" := Dict(query)]))
      ensures sent.verb == "GET"
      ensures sent.options.fields["query"] == Dict(query)
    {
      assert Upper("GET") == "GET";
      sent := Request(url, "GET", Dict(map["query" := Dict(query)]));
    }

    /** `post`: a POST request whose only call option is `form_params`. */
    method Post(url: string, formParams: map<string, Value> := map[]) returns (sent: Dispatch)
      ensures sent == Prepared(shared.options, middlewares, url, "POST", Dict(map["form_params" := Dict(formParams)]))
      ensures sent.verb == "POST"
      ensures sent.options.fields["form_params"] == Dict(formParams)
    {
      assert Upper("POST") == "POST";
      sent := Request(url, "POST", Dict(map["form_params" := Dict(formParams)]));
    }

    /** `json`: a POST request whose only call option is `json`. */
    method Json(url: string, json: map<string, Value> := map[]) returns (sent: Dispatch)
      ensures sent == Prepared(shared.options, middlewares, url, "POST", Dict(map["json" := Dict(json)]))
      ensures sent.verb == "POST"
      ensures sent.options.fields["json"] == Dict(json)
    {
      assert Upper("POST") == "POST";
      sent := Request(url, "POST", Dict(map["json" := Dict(json)]));
    }

    /** `upload` as written: the part list is built, but the options passed on merge the query
        array with the string "multipart" instead of the list; that merge is null, so the
        client receives neither the query nor the parts nor the defaults, only the handler. */
    method Upload(url: string, queries: map<string, Value> := map[], files: seq<(string, FileEntry)> := [],
                  form: seq<(string, Value)> := []) returns (sent: Dispatch)
      ensures sent == Prepared(shared.options, middlewares, url, "POST", Plain(Null))
      ensures sent.verb == "POST"
      ensures sent.options == Dict(map["handler" := Stack(HandlerLayers(middlewares, shared.options))])
      ensures "multipart" !in sent.options.fields && "query" !in sent.options.fields
    {
      var multipart := BuildMultipart(files, form);
      var options := ArrayMerge(Dict(map["query" := Dict(queries)]), Plain(Str("multipart")));
      assert Upper("POST") == "POST";
      sent := Request(url, "POST", options);
    }

    /** `upload` as evidently intended: the built part list goes out under `multipart`. */
    method UploadCorrected(url: string, queries: map<string, Value> := map[], files: seq<(string, FileEntry)> := [],
                           form: seq<(string, Value)> := []) returns (sent: Dispatch)
      ensures sent == Prepared(shared.options, middlewares, url, "POST",
                               Dict(map["query" := Dict(queries), "multipart" := Parts(PartList(files, form))]))
      ensures sent.verb == "POST"
      ensures sent.options.fields["query"] == Dict(queries)
      ensures sent.options.fields["multipart"] == Parts(PartList(files, form))
      ensures |sent.options.fields["multipart"].parts| == PathCount(files) + |form|
    {
      var multipart := BuildMultipart(files, form);
      PartListShape(files, form);
      var options := Dict(map["query" := Dict(queries), "multipart" := Parts(multipart)]);
      assert Upper("POST") == "POST";
      sent := Request(url, "POST", options);
    }
  }

  /** Merging the defaults {a: 1, b: 2} with the call options {b: 3, c: 4} gives {a: 1, b: 3, c: 4}. */
  lemma MergeExample()
    ensures ArrayMerge(Dict(map["a" := Plain(Int(1)), "b" := Plain(Int(2))]),
                       Dict(map["b" := Plain(Int(3)), "c" := Plain(Int(4))]))
            == Dict(map["a" := Plain(Int(1)), "b" := Plain(Int(3)), "c" := Plain(Int(4))])
  {
  }

  /** The default option set is one store: what one instance sets, another instance reads. */
  method DefaultsAreProcessWide(defaults: map<string, Value>) returns (seen: map<string, Value>)
    ensures seen == defaults
  {
    var store := new StaticDefaults();
    var a := new Http(store);
    var b := new Http(store);
    a.SetDefaultOptions(defaults);
    seen := b.GetDefaultOptions();
  }

  /** Middlewares m1 then m2, and no default handler: every request's handler stack pushes m1,
      then m2, and nothing else. */
  method MiddlewareOrderScenario(m1: Callable, m2: Callable, url: string) returns (sent: Dispatch)
    ensures sent.options.Dict? && "handler" in sent.options.fields
    ensures sent.options.fields["handler"] == Stack([Fn(m1), Fn(m2)])
  {
    var store := new StaticDefaults();
    var http := new Http(store);
    http.AddMiddleware(m1);
    http.AddMiddleware(m2);
    sent := http.Get(url);
    assert !IsSet(store.options, "handler");
    assert Fns([m1, m2]) == [Fn(m1), Fn(m2)];
  }
}
