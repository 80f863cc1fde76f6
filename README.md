# Pismo document loading, in Dafny

This project models how `Pismo::Document` (lib/pismo/document.rb) is configured
and loaded. It covers three rules.

- **Option merging.** `initialize` merges the caller's options over
  `DEFAULT_OPTIONS`. It then removes `:url` from the merged Hash in place and
  passes the removed value to `load`.
- **Handle classification.** `load` sorts its handle into three kinds. A
  String (or Symbol) that starts with `http` in any case is a URL to fetch. A
  StringIO, IO or Tempfile is a stream to read. Anything else is the markup
  itself. `load` also updates the base URL `@url`: an explicit truthy `url`
  is taken first, and a URL handle then overrides it. When neither applies,
  `@url` keeps its previous value.
- **User-Agent resolution.** `user_agent` turns `:user_agent` and
  `:user_agent_alias` into the header value, using the alias table
  `AGENT_ALIASES` and the `'Mac Safari'` default.

Ruby objects are one datatype, `RubyValues.Value`: nil, booleans, integers,
strings, symbols, and streams. A stream carries what reading it to the end
yields: its text, or the error `read` raises. A Ruby
Hash is a `map<Value, Value>`. Ruby truthiness is the predicate `Truthy`: only
nil and false are unset. The document is a class, `PismoDocument.Document`.
Its fields `url`, `options` and `html` are the instance variables `@url`,
`@options` and `@html`. `Document.new` is the static method `New`. The retrieval
`open(handle, 'User-Agent' => agent) { |f| f.read }` is a parameter `fetch`.
`New` and `Load` fail exactly when `fetch` fails on a URL handle or reading a
stream handle fails, and they pass that error on unchanged. The other ways the
Ruby code can raise are listed under "Left out".

Where the code and its surrounding documentation differ, the model follows the
code:

- `/\Ahttp/i` needs no `://`. Markup that begins with the letters "http" is
  fetched as a URL (`UrlPattern.NoSchemeSeparatorNeeded`).
- Line 95 runs after line 94, so a URL handle overrides an explicit `url`
  option. It is not the other way round.
- `DEFAULT_OPTIONS` always supplies `:user_agent`. So `:user_agent_alias` only
  has an effect when the caller sets `:user_agent` to nil or false
  (`PismoDocument.AliasAloneIsIgnored`, `PismoDocument.UnsetAgentEnablesAlias`).
  The example in the comment at lib/pismo/document.rb:47,
  `user_agent_alias: 'Linux Firefox'`, therefore still sends the Mac Safari
  string.
- A truthy `:user_agent` that is not a String is passed on unchanged. So the
  resolved agent is a String only when `:user_agent` is a String or unset
  (third postcondition of `Configuration.ResolveUserAgent`).

Files: `ruby_values.dfy` (values, truthiness, `Hash#[]`, `Hash#merge`),
`configuration.dfy` (`AGENT_ALIASES`, `DEFAULT_OPTIONS`, `user_agent`),
`url_pattern.dfy` (the `/\Ahttp/i` test), `document.dfy` (`initialize`,
`load`, the class).

## Model

| member | source | states |
|---|---|---|
| RubyValues.Merge | lib/pismo/document.rb:83 | the merged Hash has the keys of both; a caller's value wins over the default; a default the caller did not give is kept |
| RubyValues.TruthyUnlessNilOrFalse | lib/pismo/document.rb:94 | a value is falsy exactly when it is nil or false; 0, the empty String and true are truthy |
| RubyValues.LookupMissingIsNil | lib/pismo/document.rb:116 | `hash[key]` gives nil both for a missing key and for a key stored with nil, and the stored value for any present key |
| Configuration.DefaultUserAgent | lib/pismo/document.rb:72-73 | `DEFAULT_OPTIONS[:user_agent]` is the 'Mac Safari' alias string |
| Configuration.AliasNamesAreStrings | lib/pismo/document.rb:117 | `AGENT_ALIASES.key?` holds for a String exactly when it is an alias name, and never for a Symbol |
| Configuration.AliasNamesAreShort | lib/pismo/document.rb:49-71 | every alias name in the table has at most 15 characters |
| Configuration.AgentStringsAreLong | lib/pismo/document.rb:49-71 | every User-Agent string in the table has more than 15 characters, whatever the version strings are |
| Configuration.AliasValuesAreNotNames | lib/pismo/document.rb:49-71 | no User-Agent string in the table is itself an alias name |
| Configuration.ResolveUserAgent | lib/pismo/document.rb:115-125 | resolution is total and never yields nil or false; its result is never an alias name still to be substituted; it is a String unless a truthy non-String `:user_agent` is passed through |
| Configuration.AgentAliasIsSubstituted | lib/pismo/document.rb:116-117 | a `:user_agent` that is an alias name resolves to that alias's string |
| Configuration.UnknownAgentPassesThrough | lib/pismo/document.rb:116-118 | a truthy `:user_agent` that is not an alias name resolves to itself, unchanged |
| Configuration.AliasConsultedWhenAgentUnset | lib/pismo/document.rb:119-124 | with `:user_agent` missing, nil or false, a known `:user_agent_alias` resolves to its string; any other alias value, or none, resolves to the 'Mac Safari' default |
| Configuration.AliasIgnoredWhenAgentSet | lib/pismo/document.rb:116-119 | when `:user_agent` is truthy, changing `:user_agent_alias` does not change the result |
| Configuration.ResolutionReadsOnlyAgentKeys | lib/pismo/document.rb:115-125 | two option Hashes that agree on `:user_agent` and `:user_agent_alias` resolve to the same agent |
| Configuration.ResolutionIsIdempotent | lib/pismo/document.rb:115-125 | giving a resolved agent back as `:user_agent` resolves to the same agent |
| UrlPattern.Downcase | lib/pismo/document.rb:95 | the case-insensitive comparison of the `/i` flag: the result has the same length and each character lower-cased |
| UrlPattern.SymbolMatchesByName | lib/pismo/document.rb:95 | a Symbol handle matches `/\Ahttp/i` exactly when the String of its name does |
| UrlPattern.OnlyStringsAndSymbolsMatch | lib/pismo/document.rb:97-103 | a handle that is neither a String nor a Symbol is never a URL handle, so it is read as a stream or taken as markup |
| UrlPattern.HttpPrefixByCharacters | lib/pismo/document.rb:95 | a string matches `/\Ahttp/i` if and only if it has at least four characters and they are h, t, t, p, each in either case |
| UrlPattern.HttpPrefixIgnoresRest | lib/pismo/document.rb:95 | whatever follows a matching prefix, the string still matches |
| UrlPattern.AnchoredAtStart | lib/pismo/document.rb:95 | "http" after a first character other than h or H does not match, because of the `\A` anchor |
| UrlPattern.SchemesAreUrlHandles | lib/pismo/document.rb:95 | every `http://`, `https://` or `HTTPS://` string is a URL handle |
| UrlPattern.MarkupIsNotUrlHandle | test/pismo_document_test.rb:15 | markup starting with '<' is never a URL handle |
| UrlPattern.NoSchemeSeparatorNeeded | lib/pismo/document.rb:95 | a string such as "httpd logs follow" is a URL handle even though it has no scheme separator |
| PismoDocument.InitialOptions | lib/pismo/document.rb:82-84 | after `initialize`, `@options` has no `:url`; its keys are the default and caller keys minus `:url`; every caller key other than `:url` has the caller's value; every default the caller did not override keeps its default |
| PismoDocument.InitialOptionsWithoutOptions | lib/pismo/document.rb:82-84 | with the default `options = {}`, `@options` equals `DEFAULT_OPTIONS` |
| PismoDocument.AliasAloneIsIgnored | lib/pismo/document.rb:72-119 | if the caller gives no `:user_agent` key, the document resolves to the 'Mac Safari' string whatever `:user_agent_alias` says |
| PismoDocument.UnsetAgentEnablesAlias | lib/pismo/document.rb:116-120 | if the caller sets `:user_agent` to nil or false and names a known alias, the document resolves to that alias's string |
| PismoDocument.FullAgentStringIsSentLiterally | test/pismo_document_test.rb:79 | a full agent string given as `:user_agent` is sent as it is |
| PismoDocument.AliasOnlyOptionSendsDefault | test/pismo_document_test.rb:88 | `user_agent_alias: 'Linux Mozilla'` alone sends the Mac Safari string |
| PismoDocument.AliasNameAsAgentIsSubstituted | test/pismo_document_test.rb:98 | `user_agent: 'Linux Mozilla'` sends the Linux Mozilla string |
| PismoDocument.UnknownAgentNameIsSentLiterally | test/pismo_document_test.rb:118 | `user_agent: 'Browser Bob'` is sent literally, without error |
| PismoDocument.Document.Allocate | lib/pismo/document.rb:82 | before the body of `initialize` runs, `@url` and `@html` are nil |
| PismoDocument.Document.New | lib/pismo/document.rb:82-86 | construction fails exactly when `fetch` fails on a URL handle, or reading a stream handle fails, with that error. On success the document's options are the initial options. Its base URL is the URL handle, else the caller's truthy `:url`, else nil. Its markup is the fetched text, the stream's text, or the handle itself |
| PismoDocument.Document.Load | lib/pismo/document.rb:93-106 | the options are unchanged. A URL handle becomes the base URL even when a url is given; otherwise a truthy url does; otherwise the base URL is kept. The markup is set by the three-way priority, fetched with the resolved agent. A failed fetch or stream read is returned as the error, after the base URL was updated, with the markup unchanged |

## Left out

- Retrieval (`open` with the User-Agent header) is I/O. It is the parameter `fetch` of `New` and `Load`. Whether a handle such as `"httpd logs"` or a Symbol can actually be opened is up to `fetch`.
- Reading a stream is I/O. A stream is a value carrying what reading it to the end yields, text or error. The model does not capture that reading consumes the stream, so that a second read yields "".
- The HTML parser (`Nokogiri::HTML`, `@doc`) is a foreign library. So are the public `html` method, which serialises `@doc`, and `match`, which delegates to it. The model stops at `@html`, the markup handed to the parser.
- `Pismo::VERSION` and the Ruby version string (lib/pismo/document.rb:11-15) appear only in the 'Pismo' alias. The model declares them as the constants `PismoVersion` and `RubyVersion` and leaves their values open.
- `ATTRIBUTE_METHODS` and the attribute modules (title, keywords, images, videos) are not part of this model. pismo/internal_attributes.rb and pismo/external_attributes.rb are not part of this model.
- The model follows Ruby before 3.2, where `=~` on a non-String, non-Symbol object returns nil. From Ruby 3.2 on, such a handle (an Integer, true, false, a StringIO) raises NoMethodError at line 95.
- `attr_reader :options` hands out the Hash itself, so a caller could mutate it between loads. This aliasing is not modelled: `options` changes only in `New`.
- Hash key order is not modelled; none of the modelled rules depends on it.
- The alias lookup (`IsAliasName`) checks membership in the table by value equality on Strings. It does not model String subclasses or redefined `eql?`/`hash`.
- PismoDocument.Document.New: it does not fail in three cases where `Document.new` raises. First, `Nokogiri::HTML` at line 105 may raise for markup that is not a String, such as `Document.new(5)` or a Symbol that does not start with "http"; the parser is a foreign library. Second, `=~` at line 95 raises ArgumentError on a String with invalid bytes, which a Dafny `string` cannot hold. Third, `merge` at line 83 raises TypeError when the options are not a Hash; the `map` parameter type rules that out.
- PismoDocument.Document.Load: it does not fail where `Nokogiri::HTML` at line 105 raises for non-String markup, nor where `=~` at line 95 raises on a String with invalid bytes, for the same reasons.
