/** The test `handle =~ /\Ahttp/i` that decides whether a handle is a URL
    to fetch: the first four characters are "http" in any mix of cases. */
module UrlPattern {
  import opened RubyValues

  /** ASCII lower-casing; no other character folds to 'h', 't' or 'p'. */
  function LowerAscii(c: char): char {
    if 'A' <= c <= 'Z' then (c as int + 32) as char else c
  }

  /** `s` lower-cased character by character. */
  function Downcase(s: string): (r: string)
    ensures |r| == |s|
    ensures forall i :: 0 <= i < |s| ==> r[i] == LowerAscii(s[i])
  {
    if s == [] then [] else [LowerAscii(s[0])] + Downcase(s[1..])
  }

  /** `/\Ahttp/i` matches `s`. */
  predicate HasHttpPrefix(s: string) {
    |s| >= 4 && Downcase(s[..4]) == "http"
  }

  /** `handle =~ /\Ahttp/i` is truthy. A String is matched directly and a
      Symbol through its name (Symbol#=~); nil, numbers, booleans and
      streams never match. */
  predicate IsUrlHandle(handle: Value) {
    match handle
    case Str(s) => HasHttpPrefix(s)
    case Sym(name) => HasHttpPrefix(name)
    case _ => false
  }

  /** A Symbol is matched through its name, exactly as the String of that
      name would be. */
  lemma SymbolMatchesByName(name: string)
    ensures IsUrlHandle(Sym(name)) <==> IsUrlHandle(Str(name))
  {
  }

  /** Only Strings and Symbols can be URL handles: nil, booleans, numbers
      and streams never are, so they are read or taken as markup. */
  lemma OnlyStringsAndSymbolsMatch(handle: Value)
    requires !handle.Str? && !handle.Sym?
    ensures !IsUrlHandle(handle)
  {
  }

  /** The match, character by character: each of the first four characters
      is the letter of "http" in either case. */
  lemma HttpPrefixByCharacters(s: string)
    ensures HasHttpPrefix(s) <==>
              |s| >= 4 && s[0] in "hH" && s[1] in "tT" && s[2] in "tT" && s[3] in "pP"
  {
  }

  /** Only the first four characters matter: whatever follows a matching
      prefix, the string still matches. */
  lemma HttpPrefixIgnoresRest(s: string, rest: string)
    requires HasHttpPrefix(s)
    ensures HasHttpPrefix(s + rest)
  {
  }

  /** The anchor is at the start of the string: "http" further on does not
      make a URL when the first character is not an 'h'. */
  lemma AnchoredAtStart(lead: string, rest: string)
    requires |lead| > 0 && lead[0] !in "hH"
    ensures !HasHttpPrefix(lead + "http" + rest)
  {
  }

  /** URLs with either scheme and in any capitalisation are URL handles, such
      as the archived blog address loaded at test/pismo_document_test.rb:78. */
  lemma SchemesAreUrlHandles(rest: string)
    ensures IsUrlHandle(Str("http://" + rest))
    ensures IsUrlHandle(Str("https://" + rest))
    ensures IsUrlHandle(Str("HTTPS://" + rest))
  {
  }

  /** Markup such as "<html><body><h1>Hello</h1></body></html>" is not a URL
      handle, whatever follows its opening '<'. */
  lemma MarkupIsNotUrlHandle(rest: string)
    ensures !IsUrlHandle(Str("<" + rest))
  {
  }

  /** The pattern asks for no "://": markup that happens to begin with the
      letters "http" is taken for a URL. */
  lemma NoSchemeSeparatorNeeded()
    ensures IsUrlHandle(Str("httpd logs follow"))
  {
  }
}
