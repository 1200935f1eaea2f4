/**
 * Loading the user's options (`loadUserOptions` in `scripts/base.js`): the
 * configuration file's export wins over inline options, and two path options
 * are normalised before validation: `baseUrl` gets its slashes
 * (`ensureSlash`, then one leading `./` is dropped) and `outputDir` loses one
 * trailing slash (`removeSlash`).
 */
module ServiceOptions {
  import opened JsValues
  import opened Options

  // ---------------------------------------------------------------------------
  // The string normalisers

  /** `/^https?:/`: an absolute http or https URL. */
  predicate IsHttpUrl(s: string) {
    IsPrefix("http:", s) || IsPrefix("https:", s)
  }

  /** `/^([^/.])/` matches: a first character other than `/` and `.`. */
  predicate NeedsLeadingSlash(s: string) {
    s != [] && s[0] != '/' && s[0] != '.'
  }

  /** `/([^/])$/` matches: a last character other than `/`. */
  predicate NeedsTrailingSlash(s: string) {
    s != [] && s[|s| - 1] != '/'
  }

  /** `ensureSlash` on a string value: a leading `/` unless the value is an
      http(s) URL or starts with `/` or `.`, then a trailing `/` unless it ends
      with one. */
  function EnsureSlash(s: string): string {
    var led := if !IsHttpUrl(s) && NeedsLeadingSlash(s) then "/" + s else s;
    if NeedsTrailingSlash(led) then led + "/" else led
  }

  /** The value is kept, with at most one `/` added on each side. */
  lemma EnsureSlashKeeps(s: string)
    ensures exists pre: string, post: string | pre in {"", "/"} && post in {"", "/"} ::
      EnsureSlash(s) == pre + s + post
  {
    var pre := if !IsHttpUrl(s) && NeedsLeadingSlash(s) then "/" else "";
    var post := if NeedsTrailingSlash(pre + s) then "/" else "";
    assert EnsureSlash(s) == pre + s + post;
  }

  /** The empty string stays empty; anything else ends in `/`. */
  lemma EnsureSlashTrailing(s: string)
    ensures s == [] <==> EnsureSlash(s) == []
    ensures s != [] ==> EnsureSlash(s)[|EnsureSlash(s)| - 1] == '/'
  {
  }

  /** A non-empty value that is not an http(s) URL starts with `/` afterwards,
      unless it started with `.`; the leading slash is added exactly then. */
  lemma EnsureSlashLeading(s: string)
    requires s != [] && !IsHttpUrl(s)
    ensures s[0] != '.' ==> EnsureSlash(s)[0] == '/'
    ensures IsPrefix("/", EnsureSlash(s)) && !IsPrefix("/", s) <==> NeedsLeadingSlash(s)
  {
  }

  /** Normalising twice is normalising once. */
  lemma EnsureSlashIdempotent(s: string)
    ensures EnsureSlash(EnsureSlash(s)) == EnsureSlash(s)
  {
    var r := EnsureSlash(s);
    if s != [] {
      if IsHttpUrl(s) {
        assert r[..|s|] == s;
        assert IsHttpUrl(r) by {
          if IsPrefix("http:", s) {
            assert r[..5] == s[..5];
          } else {
            assert r[..6] == s[..6];
          }
        }
      } else {
        assert !NeedsLeadingSlash(r);
      }
      assert !NeedsTrailingSlash(r);
    }
  }

  /** `/^\.\//`: one leading `./` is removed. */
  function DropDotSlash(s: string): (r: string)
    ensures IsPrefix("./", s) ==> s == "./" + r
    ensures !IsPrefix("./", s) ==> r == s
  {
    if IsPrefix("./", s) then s[2..] else s
  }

  /** The normalised `baseUrl`. */
  function NormalizeBaseUrl(s: string): string {
    DropDotSlash(EnsureSlash(s))
  }

  /** A relative `./x` base becomes `x/`, while `app` and `app/` become `/app/`
      and `./` becomes the empty string. */
  lemma NormalizeBaseUrlRelative(x: string)
    requires NeedsTrailingSlash(x)
    ensures NormalizeBaseUrl("./" + x) == x + "/"
    ensures NormalizeBaseUrl("./") == ""
  {
    assert !NeedsLeadingSlash("./" + x) && !IsHttpUrl("./" + x);
    assert EnsureSlash("./" + x) == "./" + (x + "/");
    assert EnsureSlash("./") == "./";
  }

  /** `removeSlash` on a string value: `/\/$/g` removes exactly one trailing
      slash. */
  function RemoveSlash(s: string): string {
    if s != [] && s[|s| - 1] == '/' then s[..|s| - 1] else s
  }

  /** The inverse of appending one slash, and the identity on values that do
      not end in one. */
  lemma RemoveSlashOne(s: string)
    ensures RemoveSlash(s + "/") == s
    ensures (s == [] || s[|s| - 1] != '/') ==> RemoveSlash(s) == s
  {
    assert (s + "/")[..|s|] == s;
  }

  /** Only one slash goes: `dist//` becomes `dist/`. */
  lemma RemoveSlashOnlyOne(s: string)
    ensures RemoveSlash(s + "//") == s + "/"
  {
    assert s + "//" == (s + "/") + "/";
    RemoveSlashOne(s + "/");
  }

  // ---------------------------------------------------------------------------
  // Normalising the loaded options

  /** The options object after `ensureSlash(resolved, 'baseUrl')`, the `./`
      removal and `removeSlash(resolved, 'outputDir')`; values that are not
      strings are left alone. */
  function Normalize(fields: map<string, Value>): map<string, Value> {
    var withBase := if Lookup(fields, "baseUrl").Str?
      then fields["baseUrl" := Str(NormalizeBaseUrl(fields["baseUrl"].s))] else fields;
    if Lookup(withBase, "outputDir").Str?
    then withBase["outputDir" := Str(RemoveSlash(withBase["outputDir"].s))] else withBase
  }

  /** Only the two path options change, each only when it is a string. */
  lemma NormalizeFields(fields: map<string, Value>)
    ensures Normalize(fields).Keys == fields.Keys
    ensures forall k | k in fields && k != "baseUrl" && k != "outputDir" :: Normalize(fields)[k] == fields[k]
    ensures Lookup(fields, "baseUrl").Str? ==> Normalize(fields)["baseUrl"] == Str(NormalizeBaseUrl(fields["baseUrl"].s))
    ensures !Lookup(fields, "baseUrl").Str? ==> Lookup(Normalize(fields), "baseUrl") == Lookup(fields, "baseUrl")
    ensures Lookup(fields, "outputDir").Str? ==> Normalize(fields)["outputDir"] == Str(RemoveSlash(fields["outputDir"].s))
    ensures !Lookup(fields, "outputDir").Str? ==> Lookup(Normalize(fields), "outputDir") == Lookup(fields, "outputDir")
  {
  }

  /** What the project's configuration file holds: no file, an export that is
      not an object (reported, then ignored), or an options object. */
  datatype ConfigFile = NoConfigFile | NotAnObject | Exported(options: UserOptions)

  const NoOptions := UserOptions(map[], None, None)

  /** `loadUserOptions` before validation: the file's options, else the inline
      ones, else none, normalised. */
  function LoadUserOptions(file: ConfigFile, inline: Option<UserOptions>): UserOptions {
    var resolved := if file.Exported? then file.options else inline.GetOr(NoOptions);
    UserOptions(Normalize(resolved.fields), resolved.chainWebpack, resolved.configureWebpack)
  }

  /** The file wins over inline options; without either no option is set. */
  lemma LoadUserOptionsSource(file: ConfigFile, inline: Option<UserOptions>)
    ensures file.Exported? ==> LoadUserOptions(file, inline).fields == Normalize(file.options.fields)
    ensures !file.Exported? && inline.Some? ==> LoadUserOptions(file, inline).fields == Normalize(inline.value.fields)
    ensures !file.Exported? && inline.None? ==> LoadUserOptions(file, inline).fields == map[]
    ensures LoadUserOptions(file, inline).chainWebpack ==
      (if file.Exported? then file.options.chainWebpack else inline.GetOr(NoOptions).chainWebpack)
  {
  }
}
