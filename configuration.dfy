/** The constant configuration of `Pismo::Document`: the table of
    User-Agent aliases, the default options, and the rule that turns the
    options into the User-Agent header sent when a URL is fetched. */
module Configuration {
  import opened RubyValues

  /** `Pismo::VERSION` and the running Ruby's version string, which only the
      'Pismo' alias interpolates. Their values are left open: nothing proved
      here depends on them. */
  const PismoVersion: string
  const RubyVersion: string

  /** `AGENT_ALIASES`: alias name to full User-Agent string. */
  const AgentAliases: map<string, string> := map[
    "Pismo" := "Pismo/" + PismoVersion + " Ruby/" + RubyVersion + " (https://github.com/peterc/pismo)",
    "Linux Firefox" := "Mozilla/5.0 (X11; Ubuntu; Linux x86_64; rv:43.0) Gecko/20100101 Firefox/43.0",
    "Linux Konqueror" := "Mozilla/5.0 (compatible; Konqueror/3; Linux)",
    "Linux Mozilla" := "Mozilla/5.0 (X11; U; Linux i686; en-US; rv:1.4) Gecko/20030624",
    "Mac Firefox" := "Mozilla/5.0 (Macintosh; Intel Mac OS X 10.11; rv:43.0) Gecko/20100101 Firefox/43.0",
    "Mac Mozilla" := "Mozilla/5.0 (Macintosh; U; PPC Mac OS X Mach-O; en-US; rv:1.4a) Gecko/20030401",
    "Mac Safari 4" := "Mozilla/5.0 (Macintosh; U; Intel Mac OS X 10_6_2; de-at) AppleWebKit/531.21.8 (KHTML, like Gecko) Version/4.0.4 Safari/531.21.10",
    "Mac Safari" := "Mozilla/5.0 (Macintosh; Intel Mac OS X 10_11_2) AppleWebKit/601.3.9 (KHTML, like Gecko) Version/9.0.2 Safari/601.3.9",
    "Windows Chrome" := "Mozilla/5.0 (Windows NT 6.1; WOW64) AppleWebKit/537.36 (KHTML, like Gecko) Chrome/43.0.2357.125 Safari/537.36",
    "Windows IE 6" := "Mozilla/4.0 (compatible; MSIE 6.0; Windows NT 5.1)",
    "Windows IE 7" := "Mozilla/4.0 (compatible; MSIE 7.0; Windows NT 5.1; .NET CLR 1.1.4322; .NET CLR 2.0.50727)",
    "Windows IE 8" := "Mozilla/5.0 (compatible; MSIE 8.0; Windows NT 5.1; Trident/4.0; .NET CLR 1.1.4322; .NET CLR 2.0.50727)",
    "Windows IE 9" := "Mozilla/5.0 (compatible; MSIE 9.0; Windows NT 6.1; Trident/5.0)",
    "Windows IE 10" := "Mozilla/5.0 (compatible; MSIE 10.0; Windows NT 6.2; WOW64; Trident/6.0)",
    "Windows IE 11" := "Mozilla/5.0 (Windows NT 6.3; WOW64; Trident/7.0; rv:11.0) like Gecko",
    "Windows Edge" := "Mozilla/5.0 (Windows NT 10.0; Win64; x64) AppleWebKit/537.36 (KHTML, like Gecko) Chrome/46.0.2486.0 Safari/537.36 Edge/13.10586",
    "Windows Mozilla" := "Mozilla/5.0 (Windows; U; Windows NT 5.0; en-US; rv:1.4b) Gecko/20030516 Mozilla Firebird/0.6",
    "Windows Firefox" := "Mozilla/5.0 (Windows NT 6.3; WOW64; rv:43.0) Gecko/20100101 Firefox/43.0",
    "iPhone" := "Mozilla/5.0 (iPhone; CPU iPhone OS 9_1 like Mac OS X) AppleWebKit/601.1.46 (KHTML, like Gecko) Version/9.0 Mobile/13B5110e Safari/601.1",
    "iPad" := "Mozilla/5.0 (iPad; CPU OS 9_1 like Mac OS X) AppleWebKit/601.1.46 (KHTML, like Gecko) Version/9.0 Mobile/13B143 Safari/601.1",
    "Android" := "Mozilla/5.0 (Linux; Android 5.1.1; Nexus 7 Build/LMY47V) AppleWebKit/537.36 (KHTML, like Gecko) Chrome/47.0.2526.76 Safari/537.36"
  ]

  /** The option keys the loader reads (Ruby symbols). */
  const UserAgentKey: Value := Sym("user_agent")
  const UserAgentAliasKey: Value := Sym("user_agent_alias")
  const UrlKey: Value := Sym("url")
  const ImageExtractorKey: Value := Sym("image_extractor")
  const MinImageWidthKey: Value := Sym("min_image_width")
  const MinImageHeightKey: Value := Sym("min_image_height")

  /** `DEFAULT_OPTIONS`. */
  const DefaultOptions: map<Value, Value> := map[
    UserAgentKey := Str(AgentAliases["Mac Safari"]),
    ImageExtractorKey := Bool(false),
    MinImageWidthKey := Int(100),
    MinImageHeightKey := Int(100)
  ]

  /** `DEFAULT_OPTIONS[:user_agent]`, the fallback of the resolution rule. */
  function DefaultUserAgent(): (agent: Value)
    ensures agent == Str(AgentAliases["Mac Safari"])
  {
    Lookup(DefaultOptions, UserAgentKey)
  }

  /** `AGENT_ALIASES.key?(v)`: only a String equal to an alias name is one
      (a Symbol such as :iPhone is not). */
  predicate IsAliasName(v: Value) {
    v.Str? && v.s in AgentAliases
  }

  /** `AGENT_ALIASES.key?` on a String compares it with the alias names; a
      Symbol, even one spelled like an alias, is never a key. */
  lemma AliasNamesAreStrings(name: string)
    ensures IsAliasName(Str(name)) <==> name in AgentAliases
    ensures !IsAliasName(Sym(name))
  {
  }

  /** Every alias name is at most 15 characters long. */
  lemma AliasNamesAreShort()
    ensures forall name :: name in AgentAliases ==> |name| <= 15
  {
  }

  /** Every User-Agent string in the table is longer than 15 characters,
      whatever the version strings in the 'Pismo' entry are. */
  lemma AgentStringsAreLong()
    ensures forall name :: name in AgentAliases ==> |AgentAliases[name]| > 15
  {
  }

  /** No table value is itself an alias name, so substituting an alias never
      yields another alias. */
  lemma AliasValuesAreNotNames()
    ensures forall name :: name in AgentAliases ==> AgentAliases[name] !in AgentAliases
  {
    AliasNamesAreShort();
    AgentStringsAreLong();
  }

  /** `user_agent`: the User-Agent the document fetches with. The result is
      always truthy (resolution never fails and never yields nil), is never
      an alias name still to be substituted, and is a String unless the
      caller put a truthy non-String under :user_agent, which is passed on. */
  function ResolveUserAgent(options: map<Value, Value>): (agent: Value)
    ensures Truthy(agent)
    ensures !IsAliasName(agent)
    ensures agent.Str? || agent == Lookup(options, UserAgentKey)
  {
    AliasValuesAreNotNames();
    var given := Lookup(options, UserAgentKey);
    if Truthy(given) then
      if IsAliasName(given) then Str(AgentAliases[given.s]) else given
    else
      var alias := Lookup(options, UserAgentAliasKey);
      if Truthy(alias) then
        if IsAliasName(alias) then Str(AgentAliases[alias.s]) else DefaultUserAgent()
      else
        DefaultUserAgent()
  }

  /** A :user_agent that names an alias is replaced by the alias's string. */
  lemma AgentAliasIsSubstituted(options: map<Value, Value>)
    requires IsAliasName(Lookup(options, UserAgentKey))
    ensures ResolveUserAgent(options) == Str(AgentAliases[Lookup(options, UserAgentKey).s])
  {
  }

  /** A truthy :user_agent that is not an alias name is used unchanged. */
  lemma UnknownAgentPassesThrough(options: map<Value, Value>)
    requires Truthy(Lookup(options, UserAgentKey))
    requires !IsAliasName(Lookup(options, UserAgentKey))
    ensures ResolveUserAgent(options) == Lookup(options, UserAgentKey)
  {
  }

  /** With :user_agent unset (missing, nil or false), a known
      :user_agent_alias selects its string and anything else falls back to
      the default, which is the 'Mac Safari' string. */
  lemma AliasConsultedWhenAgentUnset(options: map<Value, Value>)
    requires !Truthy(Lookup(options, UserAgentKey))
    ensures IsAliasName(Lookup(options, UserAgentAliasKey)) ==>
              ResolveUserAgent(options) == Str(AgentAliases[Lookup(options, UserAgentAliasKey).s])
    ensures !IsAliasName(Lookup(options, UserAgentAliasKey)) ==>
              ResolveUserAgent(options) == Str(AgentAliases["Mac Safari"])
  {
  }

  /** Once :user_agent is set, :user_agent_alias has no influence at all. */
  lemma AliasIgnoredWhenAgentSet(options: map<Value, Value>, alias: Value)
    requires Truthy(Lookup(options, UserAgentKey))
    ensures ResolveUserAgent(options[UserAgentAliasKey := alias]) == ResolveUserAgent(options)
  {
  }

  /** Only :user_agent and :user_agent_alias matter: options that agree on
      those two keys resolve to the same agent. */
  lemma ResolutionReadsOnlyAgentKeys(o1: map<Value, Value>, o2: map<Value, Value>)
    requires Lookup(o1, UserAgentKey) == Lookup(o2, UserAgentKey)
    requires Lookup(o1, UserAgentAliasKey) == Lookup(o2, UserAgentAliasKey)
    ensures ResolveUserAgent(o1) == ResolveUserAgent(o2)
  {
  }

  /** A resolved agent given back as :user_agent resolves to itself: resolution
      is idempotent. */
  lemma ResolutionIsIdempotent(options: map<Value, Value>)
    ensures ResolveUserAgent(map[UserAgentKey := ResolveUserAgent(options)]) == ResolveUserAgent(options)
  {
  }
}
