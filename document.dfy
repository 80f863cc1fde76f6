/** `Pismo::Document`: option merging in `initialize` and the handle
    classification of `load`, which sets the base URL and the markup that is
    then handed to the HTML parser. */
module PismoDocument {
  import opened RubyValues
  import opened Configuration
  import opened UrlPattern

  /** `open(handle, 'User-Agent' => agent) { |f| f.read }`: the page text,
      or the exception the retrieval raised. */
  type Fetcher = (Value, Value) -> Result<string>

  /** The options `initialize` leaves in @options: the defaults overridden by
      the caller's options, without :url. Every key the caller gave other than
      :url keeps the caller's value, and every default the caller did not
      override keeps its default. */
  function InitialOptions(given: map<Value, Value>): (options: map<Value, Value>)
    ensures UrlKey !in options
    ensures options.Keys == (DefaultOptions.Keys + given.Keys) - {UrlKey}
    ensures forall k :: k in given && k != UrlKey ==> options[k] == given[k]
    ensures forall k :: k in DefaultOptions && k !in given ==> options[k] == DefaultOptions[k]
  {
    Merge(DefaultOptions, given) - {UrlKey}
  }

  /** With no options (`options = {}`), @options is exactly DEFAULT_OPTIONS. */
  lemma InitialOptionsWithoutOptions()
    ensures InitialOptions(map[]) == DefaultOptions
  {
  }

  /** Because the defaults always supply :user_agent, a caller who gives only
      :user_agent_alias still gets the default agent: the alias is consulted
      only when the caller sets :user_agent to nil or false. */
  lemma AliasAloneIsIgnored(given: map<Value, Value>)
    requires UserAgentKey !in given
    ensures ResolveUserAgent(InitialOptions(given)) == Str(AgentAliases["Mac Safari"])
  {
  }

  /** A caller who sets :user_agent to nil or false makes a known
      :user_agent_alias select its string. */
  lemma UnsetAgentEnablesAlias(given: map<Value, Value>)
    requires UserAgentKey in given && !Truthy(given[UserAgentKey])
    requires IsAliasName(Lookup(given, UserAgentAliasKey))
    ensures ResolveUserAgent(InitialOptions(given)) == Str(AgentAliases[Lookup(given, UserAgentAliasKey).s])
  {
  }

  /** A full agent string given as :user_agent (test/pismo_document_test.rb:79)
      is not an alias name and is sent as it is. */
  lemma FullAgentStringIsSentLiterally()
    ensures ResolveUserAgent(InitialOptions(map[UserAgentKey := Str(AgentAliases["Linux Firefox"])]))
              == Str(AgentAliases["Linux Firefox"])
  {
  }

  /** Only :user_agent_alias => 'Linux Mozilla': the default agent is sent. */
  lemma AliasOnlyOptionSendsDefault()
    ensures ResolveUserAgent(InitialOptions(map[UserAgentAliasKey := Str("Linux Mozilla")]))
              == Str(AgentAliases["Mac Safari"])
  {
  }

  /** :user_agent => 'Linux Mozilla' sends the Linux Mozilla agent string. */
  lemma AliasNameAsAgentIsSubstituted()
    ensures ResolveUserAgent(InitialOptions(map[UserAgentKey := Str("Linux Mozilla")]))
              == Str(AgentAliases["Linux Mozilla"])
  {
  }

  /** :user_agent => 'Browser Bob', an unknown name, is sent as it is. */
  lemma UnknownAgentNameIsSentLiterally()
    ensures ResolveUserAgent(InitialOptions(map[UserAgentKey := Str("Browser Bob")])) == Str("Browser Bob")
  {
  }

  class Document {
    /** `@url`: the base URL; nil until a load sets it. */
    var url: Value
    /** `@options`: the merged options. */
    var options: map<Value, Value>
    /** `@html`: the markup handed to the HTML parser. */
    var html: Value

    /** A freshly allocated document before the body of `initialize` runs:
        no instance variable is set yet, so @url and @html read as nil. */
    constructor Allocate()
      ensures url == Nil && options == map[] && html == Nil
    {
      url := Nil;
      options := map[];
      html := Nil;
    }

    /** `Document.new(handle, given)`: merges the options over the defaults,
        takes :url out of them and loads the handle with it. It fails exactly
        when `fetch` fails on a URL handle or reading a stream handle fails,
        with that error. */
    static method New(handle: Value, given: map<Value, Value>, fetch: Fetcher) returns (r: Result<Document>)
      ensures IsUrlHandle(handle) ==>
                (r.Failure? <==> fetch(handle, ResolveUserAgent(InitialOptions(given))).Failure?)
      ensures !IsUrlHandle(handle) && handle.Stream? ==> (r.Failure? <==> handle.contents.Failure?)
      ensures !IsUrlHandle(handle) && !handle.Stream? ==> r.Success?
      ensures IsUrlHandle(handle) && r.Failure? ==>
                r.error == fetch(handle, ResolveUserAgent(InitialOptions(given))).error
      ensures !IsUrlHandle(handle) && handle.Stream? && r.Failure? ==> r.error == handle.contents.error
      ensures r.Success? ==> fresh(r.value) && r.value.options == InitialOptions(given)
      ensures r.Success? ==>
                r.value.url == (if IsUrlHandle(handle) then handle
                                else if Truthy(Lookup(given, UrlKey)) then Lookup(given, UrlKey)
                                else Nil)
      ensures r.Success? ==>
                r.value.html == (if IsUrlHandle(handle) then Str(fetch(handle, ResolveUserAgent(InitialOptions(given))).value)
                                 else if handle.Stream? then Str(handle.contents.value)
                                 else handle)
    {
      var d := new Document.Allocate();
      d.options := Merge(DefaultOptions, given);
      var url := Lookup(d.options, UrlKey);
      d.options := d.options - {UrlKey};
      var raised := d.Load(handle, url, fetch);
      if raised.Some? {
        r := Failure(raised.value);
      } else {
        r := Success(d);
      }
    }

    /** `load(handle, url)`: an explicit truthy `url` becomes the base URL,
        but a URL handle overrides it; otherwise the base URL is kept. A URL
        handle is fetched with the resolved User-Agent, a stream is read to
        the end, and anything else is the markup itself. When the retrieval
        or the read raises, the base URL has already been updated and the
        markup is left as it was. */
    method Load(handle: Value, urlArg: Value, fetch: Fetcher) returns (raised: Option<string>)
      modifies this
      ensures options == old(options)
      ensures IsUrlHandle(handle) ==> url == handle
      ensures !IsUrlHandle(handle) && Truthy(urlArg) ==> url == urlArg
      ensures !IsUrlHandle(handle) && !Truthy(urlArg) ==> url == old(url)
      ensures raised.Some? ==> html == old(html)
      ensures IsUrlHandle(handle) && fetch(handle, ResolveUserAgent(options)).Failure? ==>
                raised == Some(fetch(handle, ResolveUserAgent(options)).error)
      ensures IsUrlHandle(handle) && fetch(handle, ResolveUserAgent(options)).Success? ==>
                raised.None? && html == Str(fetch(handle, ResolveUserAgent(options)).value)
      ensures !IsUrlHandle(handle) && handle.Stream? && handle.contents.Failure? ==>
                raised == Some(handle.contents.error)
      ensures !IsUrlHandle(handle) && handle.Stream? && handle.contents.Success? ==>
                raised.None? && html == Str(handle.contents.value)
      ensures !IsUrlHandle(handle) && !handle.Stream? ==> raised.None? && html == handle
    {
      if Truthy(urlArg) {
        url := urlArg;
      }
      if IsUrlHandle(handle) {
        url := handle;
      }
      if IsUrlHandle(handle) {
        var fetched := fetch(handle, ResolveUserAgent(options));
        if fetched.Failure? {
          return Some(fetched.error);
        }
        html := Str(fetched.value);
      } else if handle.Stream? {
        if handle.contents.Failure? {
          return Some(handle.contents.error);
        }
        html := Str(handle.contents.value);
      } else {
        html := handle;
      }
      raised := None;
    }
  }

  /** Markup created with an explicit :url keeps that URL as its base. */
  method MarkupWithExplicitUrl(fetch: Fetcher)
  {
    MarkupIsNotUrlHandle("h1>Hello</h1>");
    var r := Document.New(Str("<h1>Hello</h1>"), map[UrlKey := Str("http://example.com/page")], fetch);
    assert r.Success?;
    assert r.value.url == Str("http://example.com/page") && r.value.html == Str("<h1>Hello</h1>");
  }

  /** A URL handle replaces the base URL even when another url is given. */
  method UrlHandleWinsOverUrl(d: Document, fetch: Fetcher)
    modifies d
  {
    SchemesAreUrlHandles("example.org/");
    var raised := d.Load(Str("https://example.org/"), Str("http://example.net/"), fetch);
    assert d.url == Str("https://example.org/");
  }

  /** Reading a stream without a url keeps the base URL of the earlier load. */
  method StreamKeepsBaseUrl(d: Document, fetch: Fetcher)
    modifies d
  {
    var before := d.url;
    var raised := d.Load(Stream(Success("<p>streamed</p>")), Nil, fetch);
    assert raised.None? && d.url == before && d.html == Str("<p>streamed</p>");
  }

  /** Reading a closed stream raises; the markup of the earlier load stays,
      and a url given with it has already become the base URL. */
  method ClosedStreamRaises(d: Document, fetch: Fetcher)
    modifies d
  {
    var before := d.html;
    var raised := d.Load(Stream(Failure("IOError: not opened for reading")), Str("http://example.com/"), fetch);
    assert raised == Some("IOError: not opened for reading");
    assert d.html == before && d.url == Str("http://example.com/");
  }
}
