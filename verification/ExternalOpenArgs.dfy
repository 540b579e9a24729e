/** Command-line argument extraction of the external-open feature (src-tauri/src/external_open.rs). */
module ExternalOpenArgs {
  import opened Text

  const ALLOWED_SCHEMES: seq<string> := ["ssh", "telnet", "niceterm"]
  const MAX_URL_LENGTH: nat := 4096
  const MAX_URLS_PER_BATCH: nat := 10

  /** Unicode White_Space, the set Rust's `str::trim` removes. */
  predicate IsWhitespace(c: char) {
    var n := c as int;
    || 0x09 <= n <= 0x0D || n == 0x20 || n == 0x85 || n == 0xA0 || n == 0x1680
    || 0x2000 <= n <= 0x200A || n == 0x2028 || n == 0x2029 || n == 0x202F || n == 0x205F || n == 0x3000
  }

  function Trimmed(s: string): string { Trim(s, IsWhitespace) }

  // ------------------------------------------------------------------ one argument

  function AllowedScheme(value: string): Option<string> {
    var index := FirstIndex(value, ':');
    if index == |value| then None
    else if exists i :: 0 <= i < index && !IsAsciiAlphanumeric(value[i]) then None
    else
      var scheme := ToLower(value[..index]);
      if scheme in ALLOWED_SCHEMES then Some(scheme) else None
  }

  function Sanitize(arg: string): Option<string> {
    var candidate := Trimmed(arg);
    if candidate == "" then None
    else if Utf8Length(candidate) > MAX_URL_LENGTH then None
    else if AllowedScheme(candidate).None? then None
    else Some(candidate)
  }

  predicate IsLocalFlag(arg: string) { ToLower(Trimmed(arg)) == "--local" }
  predicate IsCwdFlag(arg: string) { ToLower(Trimmed(arg)) == "--cwd" }
  predicate IsCwdAssignment(arg: string) { "--cwd=" <= Trimmed(arg) }

  /** How the extraction loop reads an argument that is not the value of a preceding `--cwd`. */
  datatype Reading = LocalFlag | CwdFlag | CwdAssignment(path: string) | Url(url: string) | Ignored

  function Read(arg: string): Reading {
    if IsLocalFlag(arg) then LocalFlag
    else if IsCwdFlag(arg) then CwdFlag
    else if IsCwdAssignment(arg) then CwdAssignment(Trimmed(arg)[6..])
    else match Sanitize(arg)
      case Some(url) => Url(url)
      case None => Ignored
  }

  function LocalUrl(cwd: Option<string>, encode: string -> string): string {
    match cwd
    case Some(path) => "niceterm://connect/local?cwd=" + encode(path)
    case None => "niceterm://connect/local"
  }

  // ------------------------------------------------------------------ reference reading of a whole argument list

  /** Argument `i` is swallowed as the value of a preceding bare `--cwd`. */
  predicate IsCwdValue(args: seq<string>, read: string -> Reading, i: nat)
    requires i <= |args|
  {
    i > 0 && !IsCwdValue(args, read, i - 1) && read(args[i - 1]).CwdFlag?
  }

  /** The URLs among the first `n` arguments. */
  function Urls(args: seq<string>, read: string -> Reading, n: nat): seq<string>
    requires n <= |args|
  {
    if n == 0 then []
    else
      var before := Urls(args, read, n - 1);
      if !IsCwdValue(args, read, n - 1) && read(args[n - 1]).Url? then before + [read(args[n - 1]).url] else before
  }

  predicate LocalRequested(args: seq<string>, read: string -> Reading, n: nat)
    requires n <= |args|
  {
    exists i :: 0 <= i < n && !IsCwdValue(args, read, i) && read(args[i]).LocalFlag?
  }

  /** The last working directory named by either `--cwd <value>` or `--cwd=<value>`. */
  function LastCwd(args: seq<string>, read: string -> Reading, n: nat): Option<string>
    requires n <= |args|
  {
    if n == 0 then None
    else if IsCwdValue(args, read, n - 1) then Some(args[n - 1])
    else match read(args[n - 1])
      case CwdAssignment(path) => Some(path)
      case _ => LastCwd(args, read, n - 1)
  }

  /** The first ten URLs; with room to spare, one local request built from the last cwd follows. */
  function ExtractedBy(args: seq<string>, read: string -> Reading, local: Option<string> -> Option<string>): seq<string> {
    var urls := Urls(args, read, |args|);
    if |urls| >= MAX_URLS_PER_BATCH then urls[..MAX_URLS_PER_BATCH]
    else if !LocalRequested(args, read, |args|) then urls
    else
      match local(LastCwd(args, read, |args|))
      case Some(url) => urls + [url]
      case None => urls
  }

  function SanitizedLocal(encode: string -> string): Option<string> -> Option<string> {
    cwd => Sanitize(LocalUrl(cwd, encode))
  }

  function Extracted(args: seq<string>, encode: string -> string): seq<string> {
    ExtractedBy(args, Read, SanitizedLocal(encode))
  }

  // ------------------------------------------------------------------ the loop of extract_external_open_urls

  method ExtractExternalOpenUrls(args: seq<string>, encode: string -> string) returns (accepted: seq<string>)
    ensures accepted == Extracted(args, encode)
  {
    accepted := Scan(args, Read, SanitizedLocal(encode));
  }

  /** The loop, over any reading of single arguments and any builder of the local request. */
  method Scan(args: seq<string>, read: string -> Reading, local: Option<string> -> Option<string>)
    returns (accepted: seq<string>)
    ensures accepted == ExtractedBy(args, read, local)
  {
    accepted := [];
    var localRequested := false;
    var localCwd: Option<string> := None;
    var expectingCwdValue := false;
    for i := 0 to |args|
      invariant accepted == Urls(args, read, i) && |accepted| < MAX_URLS_PER_BATCH
      invariant localRequested == LocalRequested(args, read, i)
      invariant localCwd == LastCwd(args, read, i)
      invariant expectingCwdValue == IsCwdValue(args, read, i)
    {
      var arg := args[i];
      if expectingCwdValue {
        localCwd := Some(arg);
        expectingCwdValue := false;
        continue;
      }
      match read(arg)
      case LocalFlag =>
        localRequested := true;
      case CwdFlag =>
        expectingCwdValue := true;
      case CwdAssignment(path) =>
        localCwd := Some(path);
      case Url(url) =>
        accepted := accepted + [url];
        if |accepted| >= MAX_URLS_PER_BATCH {
          UrlsMonotone(args, read, i + 1, |args|);
          return;
        }
      case Ignored =>
    }
    if localRequested && |accepted| < MAX_URLS_PER_BATCH {
      match local(localCwd)
      case Some(url) => accepted := accepted + [url];
      case None =>
    }
  }

  lemma {:induction false} UrlsMonotone(args: seq<string>, read: string -> Reading, m: nat, n: nat)
    requires m <= n <= |args|
    ensures Urls(args, read, m) <= Urls(args, read, n)
    decreases n
  {
    if m < n {
      UrlsMonotone(args, read, m, n - 1);
    }
  }

  // ------------------------------------------------------------------ what survives

  /** What every URL that leaves the extraction satisfies. */
  predicate Acceptable(url: string) {
    && Trimmed(url) == url
    && url != ""
    && Utf8Length(url) <= MAX_URL_LENGTH
    && AllowedScheme(url).Some?
    && !IsLocalFlag(url) && !IsCwdFlag(url) && !IsCwdAssignment(url)
  }

  lemma DashStart(arg: string)
    requires IsLocalFlag(arg) || IsCwdFlag(arg) || IsCwdAssignment(arg)
    ensures Trimmed(arg) != "" && Trimmed(arg)[0] == '-'
  {
    var t := Trimmed(arg);
    if IsLocalFlag(arg) || IsCwdFlag(arg) {
      assert ToLower(t)[0] == '-' == LowerChar(t[0]);
    } else {
      assert t[0] == "--cwd="[0];
    }
  }

  lemma SchemeStartsWithLetter(url: string)
    requires AllowedScheme(url).Some?
    ensures url != "" && url[0] != '-'
  {
    var index := FirstIndex(url, ':');
    var scheme := ToLower(url[..index]);
    assert scheme in ALLOWED_SCHEMES;
    assert |scheme| == index > 0;
    assert IsAsciiAlphanumeric(url[0]);
  }

  /** An argument is read as a URL exactly when it sanitises: no flag has an allowed scheme. */
  lemma ReadAsUrlIffSanitizes(arg: string)
    ensures Read(arg).Url? <==> Sanitize(arg).Some?
    ensures Read(arg).Url? ==> Sanitize(arg) == Some(Read(arg).url)
  {
    if (IsLocalFlag(arg) || IsCwdFlag(arg) || IsCwdAssignment(arg)) && Sanitize(arg).Some? {
      DashStart(arg);
      SchemeStartsWithLetter(Trimmed(arg));
    }
  }

  /** A URL that sanitises is acceptable, and a second pass reads it as the very same URL. */
  lemma SanitizedIsStable(arg: string)
    requires Sanitize(arg).Some?
    ensures Acceptable(Sanitize(arg).value)
    ensures Read(Sanitize(arg).value) == Url(Sanitize(arg).value)
  {
    var url := Sanitize(arg).value;
    TrimIdempotent(arg, IsWhitespace);
    assert Sanitize(url) == Some(url);
    ReadAsUrlIffSanitizes(url);
  }

  /** The scheme of a URL: what stands before its first colon, in lower case. */
  ghost predicate HasScheme(url: string, scheme: string) {
    exists i :: 0 <= i < |url| && url[i] == ':' && ToLower(url[..i]) == scheme && ':' !in url[..i]
  }

  lemma HasSchemeAt(url: string, scheme: string)
    ensures HasScheme(url, scheme) <==> FirstIndex(url, ':') < |url| && ToLower(url[..FirstIndex(url, ':')]) == scheme
  {
    var index := FirstIndex(url, ':');
    if index < |url| {
      assert ':' !in url[..index];
      forall i | 0 <= i < |url| && url[i] == ':' && i != index ensures ':' in url[..i] {
        assert url[..i][index] == ':';
      }
    }
  }

  lemma AllowedAreLetters(scheme: string, k: nat)
    requires scheme in ALLOWED_SCHEMES && k < |scheme|
    ensures 'a' <= scheme[k] <= 'z'
  {
    assert scheme == "ssh" || scheme == "telnet" || scheme == "niceterm";
  }

  lemma LettersInPrefix(prefix: string, k: nat)
    requires ToLower(prefix) in ALLOWED_SCHEMES && k < |prefix|
    ensures IsAsciiAlphanumeric(prefix[k])
  {
    AllowedAreLetters(ToLower(prefix), k);
    assert ToLower(prefix)[k] == LowerChar(prefix[k]);
  }

  lemma PlainPrefix(url: string, index: nat)
    requires index == FirstIndex(url, ':') < |url| && forall k :: 0 <= k < index ==> IsAsciiAlphanumeric(url[k])
    ensures AllowedScheme(url).Some? <==> ToLower(url[..index]) in ALLOWED_SCHEMES
  {
  }

  lemma OddPrefix(url: string, index: nat, k: nat)
    requires k < index == FirstIndex(url, ':') < |url| && !IsAsciiAlphanumeric(url[k])
    ensures AllowedScheme(url).None? && ToLower(url[..index]) !in ALLOWED_SCHEMES
  {
    if ToLower(url[..index]) in ALLOWED_SCHEMES { LettersInPrefix(url[..index], k); }
  }

  lemma AllowedSchemeAt(url: string, index: nat)
    requires index == FirstIndex(url, ':') < |url|
    ensures AllowedScheme(url).Some? <==> ToLower(url[..index]) in ALLOWED_SCHEMES
  {
    if k: nat :| k < index && !IsAsciiAlphanumeric(url[k]) {
      OddPrefix(url, index, k);
    } else {
      PlainPrefix(url, index);
    }
  }

  lemma SchemeIsAllowedIff(url: string)
    ensures AllowedScheme(url).Some? <==> HasScheme(url, "ssh") || HasScheme(url, "telnet") || HasScheme(url, "niceterm")
  {
    HasSchemeAt(url, "ssh");
    HasSchemeAt(url, "telnet");
    HasSchemeAt(url, "niceterm");
    if FirstIndex(url, ':') < |url| { AllowedSchemeAt(url, FirstIndex(url, ':')); }
  }

  /**
   * What an argument must be to be taken as a URL: trimmed it has at most 4096 bytes and the scheme `ssh`, `telnet` or `niceterm` in
   * any case.
   */
  lemma SanitizesIff(arg: string)
    ensures Sanitize(arg).Some?
       <==> var url := Trimmed(arg);
            Utf8Length(url) <= 4096 && (HasScheme(url, "ssh") || HasScheme(url, "telnet") || HasScheme(url, "niceterm"))
    ensures Sanitize(arg).Some? ==> Sanitize(arg).value == Trimmed(arg)
  {
    SchemeIsAllowedIff(Trimmed(arg));
  }

  lemma {:induction false} UrlsAreRead(args: seq<string>, read: string -> Reading, n: nat)
    requires n <= |args|
    ensures forall url :: url in Urls(args, read, n) ==> exists i :: 0 <= i < |args| && read(args[i]) == Url(url)
  {
    if n > 0 {
      UrlsAreRead(args, read, n - 1);
    }
  }

  lemma ExtractedOrigin(args: seq<string>, read: string -> Reading, local: Option<string> -> Option<string>, url: string)
    requires url in ExtractedBy(args, read, local)
    ensures || (exists i :: 0 <= i < |args| && read(args[i]) == Url(url))
            || (exists cwd :: local(cwd) == Some(url))
  {
    UrlsAreRead(args, read, |args|);
    if url !in Urls(args, read, |args|) {
      assert local(LastCwd(args, read, |args|)) == Some(url);
    }
  }

  /** The first ten URLs are taken; a local request comes only after fewer than ten, and no URL is dropped for it. */
  lemma AtMostTen(args: seq<string>, read: string -> Reading, local: Option<string> -> Option<string>)
    ensures var urls, all := Urls(args, read, |args|), ExtractedBy(args, read, local);
            |all| <= 10 && (if |urls| < 10 then urls <= all && |all| <= |urls| + 1 else all == urls[..10])
  {
  }

  /** For every argument list and every cwd encoder: at most ten URLs leave, each of them acceptable. */
  lemma ExtractedIsAcceptable(args: seq<string>, encode: string -> string)
    ensures |Extracted(args, encode)| <= 10
    ensures forall url :: url in Extracted(args, encode) ==> Acceptable(url) && Read(url) == Url(url)
  {
    AtMostTen(args, Read, SanitizedLocal(encode));
    forall url | url in Extracted(args, encode)
      ensures Acceptable(url) && Read(url) == Url(url)
    {
      ExtractedUrlIsAcceptable(args, encode, url);
    }
  }

  lemma ExtractedUrlIsAcceptable(args: seq<string>, encode: string -> string, url: string)
    ensures url in Extracted(args, encode) ==> Acceptable(url) && Read(url) == Url(url)
  {
    if url in Extracted(args, encode) {
      ExtractedOrigin(args, Read, SanitizedLocal(encode), url);
      if i :| 0 <= i < |args| && Read(args[i]) == Url(url) {
        ReadAsUrlIffSanitizes(args[i]);
        SanitizedIsStable(args[i]);
      } else {
        var cwd :| SanitizedLocal(encode)(cwd) == Some(url);
        SanitizedIsStable(LocalUrl(cwd, encode));
      }
    }
  }

  lemma {:induction false} StableListReadsBack(urls: seq<string>, read: string -> Reading, n: nat)
    requires n <= |urls|
    requires forall url :: url in urls ==> read(url) == Url(url)
    ensures Urls(urls, read, n) == urls[..n] && !IsCwdValue(urls, read, n)
  {
    if n > 0 {
      StableListReadsBack(urls, read, n - 1);
      assert urls[n - 1] in urls;
    }
  }

  lemma StableListIsFixed(urls: seq<string>, read: string -> Reading, local: Option<string> -> Option<string>)
    requires |urls| <= MAX_URLS_PER_BATCH
    requires forall url :: url in urls ==> read(url) == Url(url)
    ensures ExtractedBy(urls, read, local) == urls
  {
    StableListReadsBack(urls, read, |urls|);
    assert forall i :: 0 <= i < |urls| ==> urls[i] in urls;
  }

  /** The pipeline extracts twice (once per launch, once per batch); the second extraction changes nothing. */
  lemma ExtractionIsIdempotent(args: seq<string>, encode: string -> string)
    ensures Extracted(Extracted(args, encode), encode) == Extracted(args, encode)
  {
    ExtractedIsAcceptable(args, encode);
    StableListIsFixed(Extracted(args, encode), Read, SanitizedLocal(encode));
  }

  // ------------------------------------------------------------------ local requests

  lemma NoBlankNoTrim(s: string)
    requires s != "" && !IsWhitespace(s[0]) && !IsWhitespace(s[|s| - 1])
    ensures Trimmed(s) == s
  {
  }

  predicate IsLowerCase(s: string) { forall i :: 0 <= i < |s| ==> !('A' <= s[i] <= 'Z') }

  lemma FlagIsRead(arg: string)
    requires arg != "" && !IsWhitespace(arg[0]) && !IsWhitespace(arg[|arg| - 1]) && IsLowerCase(arg)
    ensures arg == "--local" ==> Read(arg) == LocalFlag
    ensures arg == "--cwd" ==> Read(arg) == CwdFlag
  {
    NoBlankNoTrim(arg);
    LowerIsKept(arg);
  }

  lemma LocalFlagIsRead()
    ensures Read("--local") == LocalFlag
  {
    FlagIsRead("--local");
  }

  lemma CwdFlagIsRead()
    ensures Read("--cwd") == CwdFlag
  {
    FlagIsRead("--cwd");
  }

  lemma LowerIsKept(s: string)
    requires IsLowerCase(s)
    ensures ToLower(s) == s
  {
  }

  /** `--cwd=<path>` names the directory, even an empty one. */
  lemma CwdAssignmentIsRead(path: string)
    requires path != "" ==> !IsWhitespace(path[|path| - 1])
    ensures Read("--cwd=" + path) == CwdAssignment(path)
  {
    var arg := "--cwd=" + path;
    NoBlankNoTrim(arg);
    assert ToLower(arg)[2] == LowerChar(arg[2]) && ToLower(arg)[5] == LowerChar(arg[5]);
    assert arg[6..] == path;
  }

  lemma {:induction false} Utf8Bound(s: string)
    ensures Utf8Length(s) <= 4 * |s|
  {
    if s != "" { Utf8Bound(s[1..]); }
  }

  lemma PrefixHasScheme(base: string, rest: string, k: nat)
    requires k < |base| && base[k] == ':' && ':' !in base[..k]
    ensures HasScheme(base + rest, ToLower(base[..k]))
  {
    assert (base + rest)[..k] == base[..k] && (base + rest)[k] == ':';
  }

  lemma LocalHasScheme(rest: string)
    ensures HasScheme("niceterm://connect/local" + rest, "niceterm")
  {
    var base := "niceterm://connect/local";
    assert base[..8] == "niceterm" && base[8] == ':';
    LowerIsKept("niceterm");
    PrefixHasScheme(base, rest, 8);
  }

  lemma UrlSanitizes(url: string)
    requires url != "" && !IsWhitespace(url[0]) && !IsWhitespace(url[|url| - 1]) && HasScheme(url, "niceterm")
    ensures Sanitize(url) == if Utf8Length(url) <= 4096 then Some(url) else None
  {
    NoBlankNoTrim(url);
    SanitizesIff(url);
  }

  lemma EndsOf(base: string, rest: string)
    requires base != "" && !IsWhitespace(base[0]) && !IsWhitespace(base[|base| - 1])
    requires rest != "" ==> !IsWhitespace(rest[|rest| - 1])
    ensures var url := base + rest; url != "" && !IsWhitespace(url[0]) && !IsWhitespace(url[|url| - 1])
  {
  }

  lemma LocalUrlSanitizes(url: string, rest: string)
    requires url == "niceterm://connect/local" + rest && (rest != "" ==> !IsWhitespace(rest[|rest| - 1]))
    ensures Sanitize(url) == if Utf8Length(url) <= 4096 then Some(url) else None
  {
    LocalHasScheme(rest);
    EndsOf("niceterm://connect/local", rest);
    UrlSanitizes(url);
  }

  lemma LocalOnly(flag: string, read: string -> Reading, local: Option<string> -> Option<string>)
    requires read(flag) == LocalFlag
    ensures ExtractedBy([flag], read, local) == if local(None).Some? then [local(None).value] else []
  {
    var args := [flag];
    assert !IsCwdValue(args, read, 0) && LocalRequested(args, read, 1);
    assert Urls(args, read, 1) == Urls(args, read, 0) == [] && LastCwd(args, read, 1) == LastCwd(args, read, 0) == None;
  }

  lemma LocalThenCwd(flag: string, cwd: string, path: string, read: string -> Reading, local: Option<string> -> Option<string>)
    requires read(flag) == LocalFlag && read(cwd) == CwdFlag
    ensures ExtractedBy([flag, cwd, path], read, local) == if local(Some(path)).Some? then [local(Some(path)).value] else []
  {
    var args := [flag, cwd, path];
    assert !IsCwdValue(args, read, 0) && !IsCwdValue(args, read, 1) && IsCwdValue(args, read, 2) && read(args[0]) == LocalFlag;
    assert LocalRequested(args, read, 3);
    assert Urls(args, read, 3) == Urls(args, read, 2) == Urls(args, read, 1) == Urls(args, read, 0) == [];
  }

  lemma CwdPartSplits(path: string)
    ensures "niceterm://connect/local?cwd=" + path == "niceterm://connect/local" + ("?cwd=" + path)
  {
    assert "niceterm://connect/local?cwd=" == "niceterm://connect/local" + "?cwd=";
    Joined("niceterm://connect/local", "?cwd=", path);
  }

  lemma Joined(a: string, b: string, c: string)
    ensures a + b + c == a + (b + c)
  {
  }

  lemma LocalRequestUrl(cwd: Option<string>, encode: string -> string, url: string)
    requires url == LocalUrl(cwd, encode) && Sanitize(url) == if Utf8Length(url) <= 4096 then Some(url) else None
    ensures SanitizedLocal(encode)(cwd) == if Utf8Length(url) <= 4096 then Some(url) else None
  {
  }

  lemma ShortLocalUrl()
    ensures Utf8Length("niceterm://connect/local") <= 4096
  {
    Utf8Bound("niceterm://connect/local");
  }

  lemma NothingAppended(s: string)
    ensures s + "" == s
  {
  }

  lemma LocalRequest(encode: string -> string)
    ensures SanitizedLocal(encode)(None) == Some("niceterm://connect/local")
  {
    var url := LocalUrl(None, encode);
    ShortLocalUrl();
    NothingAppended(url);
    LocalUrlSanitizes(url, "");
    LocalRequestUrl(None, encode, url);
  }

  lemma LocalRequestAt(path: string, encode: string -> string, url: string)
    requires url == "niceterm://connect/local?cwd=" + encode(path)
    requires encode(path) != "" ==> !IsWhitespace(encode(path)[|encode(path)| - 1])
    ensures SanitizedLocal(encode)(Some(path)) == if Utf8Length(url) <= 4096 then Some(url) else None
  {
    CwdPartSplits(encode(path));
    CwdPartEnds(encode(path));
    LocalUrlSanitizes(url, "?cwd=" + encode(path));
    LocalRequestUrl(Some(path), encode, url);
  }

  lemma CwdPartEnds(path: string)
    requires path != "" ==> !IsWhitespace(path[|path| - 1])
    ensures var rest := "?cwd=" + path; !IsWhitespace(rest[|rest| - 1])
  {
  }

  /** A lone `--local` asks for a local session. */
  lemma LocalAlone(encode: string -> string)
    ensures Extracted(["--local"], encode) == ["niceterm://connect/local"]
  {
    LocalFlagIsRead();
    LocalOnly("--local", Read, SanitizedLocal(encode));
    LocalRequest(encode);
  }

  /**
   * `--local --cwd <path>` asks for a local session in that directory, with the path as the source's encoder writes it (it never ends in
   * white space, section 2.1 of RFC 3986), unless the request is longer than 4096 bytes.
   */
  lemma LocalWithCwd(path: string, encode: string -> string, url: string)
    requires url == "niceterm://connect/local?cwd=" + encode(path)
    requires encode(path) != "" ==> !IsWhitespace(encode(path)[|encode(path)| - 1])
    ensures Extracted(["--local", "--cwd", path], encode) == if Utf8Length(url) <= 4096 then [url] else []
  {
    LocalFlagIsRead();
    CwdFlagIsRead();
    LocalRequestAt(path, encode, url);
    LocalThenCwd("--local", "--cwd", path, Read, SanitizedLocal(encode));
  }

  /** A later `--cwd <path>` or `--cwd=<path>` replaces an earlier one. */
  lemma LastCwdWins(args: seq<string>, read: string -> Reading, flag: string, path: string)
    requires !IsCwdValue(args, read, |args|)
    ensures read(flag) == CwdFlag ==> LastCwd(args + [flag, path], read, |args| + 2) == Some(path)
    ensures read(flag) == CwdAssignment(path) ==> LastCwd(args + [flag], read, |args| + 1) == Some(path)
  {
    SwallowedPrefix(args, [flag, path], read, |args|);
    SwallowedPrefix(args, [flag], read, |args|);
  }

  lemma {:induction false} SwallowedPrefix(args: seq<string>, more: seq<string>, read: string -> Reading, n: nat)
    requires n <= |args|
    ensures IsCwdValue(args + more, read, n) <==> IsCwdValue(args, read, n)
  {
    if n > 0 { SwallowedPrefix(args, more, read, n - 1); }
  }

  // ------------------------------------------------------------------ deduplication key

  function DeduplicationKey(value: string): string {
    var trimmed := Trimmed(value);
    var index := FirstIndex(trimmed, ':');
    if index < |trimmed| then ToLower(trimmed[..index]) + trimmed[index..] else trimmed
  }

  /**
   * Two accepted URLs share a key exactly when they are the same URL up to the ASCII case of the scheme
   * (section 6.2.2.1 of RFC 3986 for the scheme only: host and path keep their case).
   */
  lemma KeyFoldsSchemeCaseOnly(a: string, b: string)
    requires Acceptable(a) && Acceptable(b)
    ensures DeduplicationKey(a) == DeduplicationKey(b)
       <==> && AllowedScheme(a) == AllowedScheme(b)
            && a[FirstIndex(a, ':')..] == b[FirstIndex(b, ':')..]
  {
    KeySplits(a);
    KeySplits(b);
  }

  /** The key up to its first colon is the scheme in lower case; from there on it is the URL itself. */
  lemma KeySplits(url: string)
    requires Acceptable(url)
    ensures var key, i := DeduplicationKey(url), FirstIndex(url, ':');
            && FirstIndex(key, ':') == i < |url| && i < |key| && key == key[..i] + key[i..]
            && AllowedScheme(url) == Some(key[..i]) && key[i..] == url[i..]
  {
    var i := FirstIndex(url, ':');
    FirstColonOfKey(url[..i], url[i..]);
    var key := ToLower(url[..i]) + url[i..];
    assert DeduplicationKey(url) == key && key[..i] == ToLower(url[..i]) && key[i..] == url[i..];
  }

  lemma FirstColonOfKey(scheme: string, rest: string)
    requires forall k :: 0 <= k < |scheme| ==> scheme[k] != ':'
    requires rest != "" && rest[0] == ':'
    ensures FirstIndex(ToLower(scheme) + rest, ':') == |scheme|
  {
    var key := ToLower(scheme) + rest;
    assert key[|scheme|] == ':';
    assert forall k :: 0 <= k < |scheme| ==> key[k] == LowerChar(scheme[k]) != ':';
  }
}
