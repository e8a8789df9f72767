/**
 * URL classification of src/social_video_downloader.py: the platform tag of a URL
 * (`identify_platform`) and whether a URL names a playlist or channel
 * (`is_playlist_or_channel`).
 */
module Classify {
  import opened Wrappers
  import opened Strings

  /** The platform tags `identify_platform` can return. */
  datatype Platform = TikTok | Instagram | Facebook | YouTube | Twitter | Unknown
  {
    /** The string the source returns for this platform. */
    function Tag(): (t: string)
      ensures t in {"tiktok", "instagram", "facebook", "youtube", "twitter", "unknown"}
    {
      match this
      case TikTok => "tiktok"
      case Instagram => "instagram"
      case Facebook => "facebook"
      case YouTube => "youtube"
      case Twitter => "twitter"
      case Unknown => "unknown"
    }
  }

  // ---------------------------------------------------------------------------
  // urlparse(url).netloc

  predicate IsAsciiLetter(c: char) { 'a' <= c <= 'z' || 'A' <= c <= 'Z' }

  /** The characters urllib accepts in a scheme. */
  predicate IsSchemeChar(c: char)
  {
    IsAsciiLetter(c) || '0' <= c <= '9' || c == '+' || c == '-' || c == '.'
  }

  /** The index of the first `c` in `s` (`s.find(c)`), if any. */
  function IndexOf(s: string, c: char): (r: Option<nat>)
    ensures r.Some? ==> r.value < |s| && s[r.value] == c && forall k :: 0 <= k < r.value ==> s[k] != c
    ensures r.None? ==> forall k :: 0 <= k < |s| ==> s[k] != c
  {
    if s == [] then None
    else if s[0] == c then Some(0)
    else match IndexOf(s[1..], c)
      case None => None
      case Some(i) => Some(i + 1)
  }

  /** What urlsplit leaves after removing a scheme: the scheme is the text before the first ':' when it starts with a letter and holds only scheme characters. */
  function AfterScheme(url: string): (rest: string)
    ensures rest == url || EndsWith(url, rest)
  {
    match IndexOf(url, ':')
    case None => url
    case Some(i) =>
      if i > 0 && IsAsciiLetter(url[0]) && forall k :: 0 <= k < i ==> IsSchemeChar(url[k])
      then url[i + 1..] else url
  }

  /** A netloc delimiter of urlsplit. */
  predicate IsNetlocEnd(c: char) { c == '/' || c == '?' || c == '#' }

  /** The longest prefix of `s` without a '/', '?' or '#'. */
  function TakeHost(s: string): (h: string)
    ensures StartsWith(s, h)
    ensures forall k :: 0 <= k < |h| ==> !IsNetlocEnd(h[k])
    ensures |h| < |s| ==> IsNetlocEnd(s[|h|])
  {
    if s == [] || IsNetlocEnd(s[0]) then [] else [s[0]] + TakeHost(s[1..])
  }

  /** A C0 control or space: urlsplit strips these from the front of a URL. */
  predicate IsBlank(c: char) { c <= ' ' }

  /** Tab, CR or LF: urlsplit deletes these wherever they occur. */
  predicate IsUnsafe(c: char) { c == '\t' || c == '\r' || c == '\n' }

  /** `s.lstrip()` of the blanks. */
  function LStripBlanks(s: string): (r: string)
    ensures EndsWith(s, r)
    ensures r == [] || !IsBlank(r[0])
    ensures forall k :: 0 <= k < |s| - |r| ==> IsBlank(s[k])
  {
    if s != [] && IsBlank(s[0]) then LStripBlanks(s[1..]) else s
  }

  /** `s` with every tab, CR and LF taken out. */
  function RemoveUnsafe(s: string): (r: string)
    ensures |r| <= |s|
    ensures forall k :: 0 <= k < |r| ==> !IsUnsafe(r[k])
    ensures s != [] && !IsUnsafe(s[0]) ==> r != [] && r[0] == s[0]
  {
    if s == [] then []
    else (if IsUnsafe(s[0]) then [] else [s[0]]) + RemoveUnsafe(s[1..])
  }

  /** `s` holds no tab, CR or LF. */
  predicate NoUnsafe(s: string)
  {
    forall k :: 0 <= k < |s| ==> !IsUnsafe(s[k])
  }

  lemma NoUnsafeAppend(a: string, b: string)
    requires NoUnsafe(a) && NoUnsafe(b)
    ensures NoUnsafe(a + b)
  {
    assert forall k :: 0 <= k < |a| ==> (a + b)[k] == a[k];
    assert forall k :: |a| <= k < |a + b| ==> (a + b)[k] == b[k - |a|];
  }

  /** Taking out the unsafe characters of `a + b` takes them out of each part. */
  lemma {:induction false} RemoveUnsafeAppend(a: string, b: string)
    ensures RemoveUnsafe(a + b) == RemoveUnsafe(a) + RemoveUnsafe(b)
  {
    if a != [] {
      var h := if IsUnsafe(a[0]) then [] else [a[0]];
      assert (a + b)[0] == a[0];
      assert (a + b)[1..] == a[1..] + b;
      assert RemoveUnsafe(a + b) == h + RemoveUnsafe(a[1..] + b);
      RemoveUnsafeAppend(a[1..], b);
      assert RemoveUnsafe(a) == h + RemoveUnsafe(a[1..]);
      assert h + (RemoveUnsafe(a[1..]) + RemoveUnsafe(b)) == (h + RemoveUnsafe(a[1..])) + RemoveUnsafe(b);
    } else {
      assert a + b == b;
    }
  }

  /** A string without tab, CR or LF is left as it is. */
  lemma {:induction false} RemoveUnsafeNone(s: string)
    requires NoUnsafe(s)
    ensures RemoveUnsafe(s) == s
  {
    if s != [] {
      RemoveUnsafeNone(s[1..]);
      assert [s[0]] + s[1..] == s;
    }
  }

  /** The URL urlsplit goes on to split: the leading blanks stripped, then tab, CR and LF taken out. */
  function Cleaned(url: string): (r: string)
    ensures NoUnsafe(r)
    ensures r == [] || !IsBlank(r[0])
  {
    RemoveUnsafe(LStripBlanks(url))
  }

  /** A URL that starts with no blank and holds no tab, CR or LF is split as given. */
  lemma CleanedClean(url: string)
    requires url == [] || !IsBlank(url[0])
    requires NoUnsafe(url)
    ensures Cleaned(url) == url
  {
    RemoveUnsafeNone(url);
  }

  /** Cleaning twice is cleaning once. */
  lemma CleanedIdempotent(url: string)
    ensures Cleaned(Cleaned(url)) == Cleaned(url)
  {
    CleanedClean(Cleaned(url));
  }

  /** Stripping the blanks of `pad + s` strips all of a blank `pad`. */
  lemma {:induction false} LStripPad(pad: string, s: string)
    requires forall k :: 0 <= k < |pad| ==> IsBlank(pad[k])
    ensures LStripBlanks(pad + s) == LStripBlanks(s)
  {
    if pad != [] {
      assert (pad + s)[0] == pad[0];
      assert (pad + s)[1..] == pad[1..] + s;
      LStripPad(pad[1..], s);
    } else {
      assert pad + s == s;
    }
  }

  /** Leading blanks play no part. */
  lemma CleanedIgnoresBlanks(pad: string, url: string)
    requires forall k :: 0 <= k < |pad| ==> IsBlank(pad[k])
    ensures Cleaned(pad + url) == Cleaned(url)
  {
    LStripPad(pad, url);
  }

  /** Behind a non-blank first character nothing is stripped. */
  lemma LStripKept(a: string, b: string)
    requires a != [] && !IsBlank(a[0])
    ensures LStripBlanks(a + b) == a + b
  {
    assert (a + b)[0] == a[0];
  }

  /** A tab, CR or LF anywhere plays no part. */
  lemma {:induction false} CleanedDropsUnsafe(a: string, c: char, b: string)
    requires IsUnsafe(c)
    ensures Cleaned(a + [c] + b) == Cleaned(a + b)
  {
    if a == [] {
      assert a + [c] + b == [c] + b;
      assert a + b == b;
      LStripPad([c], b);
    } else if IsBlank(a[0]) {
      assert a + [c] + b == [a[0]] + (a[1..] + [c] + b);
      assert a + b == [a[0]] + (a[1..] + b);
      LStripPad([a[0]], a[1..] + [c] + b);
      LStripPad([a[0]], a[1..] + b);
      CleanedDropsUnsafe(a[1..], c, b);
    } else {
      LStripKept(a, [c] + b);
      LStripKept(a, b);
      assert a + [c] + b == a + ([c] + b);
      RemoveUnsafeAppend(a, [c] + b);
      RemoveUnsafeAppend([c], b);
      RemoveUnsafeAppend(a, b);
      assert RemoveUnsafe([c]) == [];
    }
  }

  /**
   * `urlparse(url).netloc`: in the cleaned URL, the text after "//" (once any
   * scheme is removed) up to the next '/', '?' or '#', or "" when there is no "//".
   */
  function Netloc(url: string): (host: string)
    ensures forall k :: 0 <= k < |host| ==> !IsNetlocEnd(host[k])
  {
    var rest := AfterScheme(Cleaned(url));
    if StartsWith(rest, "//") then TakeHost(rest[2..]) else ""
  }

  /** The netloc is that of the cleaned URL. */
  lemma NetlocOfCleaned(url: string)
    ensures Netloc(Cleaned(url)) == Netloc(url)
  {
    CleanedIdempotent(url);
  }

  /** The host part of `host + tail` is `host` when `tail` is empty or starts at a delimiter. */
  lemma {:induction false} TakeHostOf(host: string, tail: string)
    requires forall k :: 0 <= k < |host| ==> !IsNetlocEnd(host[k])
    requires tail == [] || IsNetlocEnd(tail[0])
    ensures TakeHost(host + tail) == host
  {
    if host != [] {
      assert (host + tail)[1..] == host[1..] + tail;
      TakeHostOf(host[1..], tail);
    }
  }

  /** A well-formed scheme and its ':' are what urlsplit removes. */
  lemma AfterSchemeOf(scheme: string, rest: string)
    requires |scheme| > 0 && IsAsciiLetter(scheme[0])
    requires forall k :: 0 <= k < |scheme| ==> IsSchemeChar(scheme[k])
    ensures AfterScheme(scheme + ":" + rest) == rest
  {
    var url := scheme + ":" + rest;
    assert url[|scheme|] == ':';
    assert forall k :: 0 <= k < |scheme| ==> url[k] == scheme[k];
    assert IndexOf(url, ':') == Some(|scheme|);
    assert url[|scheme| + 1..] == rest;
  }

  /** The netloc of `scheme://host<tail>` is `host`, for a well-formed scheme and a tail that starts with '/', '?' or '#' (or is empty). */
  lemma NetlocOfAuthority(scheme: string, host: string, tail: string)
    requires |scheme| > 0 && IsAsciiLetter(scheme[0])
    requires forall k :: 0 <= k < |scheme| ==> IsSchemeChar(scheme[k])
    requires forall k :: 0 <= k < |host| ==> !IsNetlocEnd(host[k])
    requires tail == [] || IsNetlocEnd(tail[0])
    requires NoUnsafe(host) && NoUnsafe(tail)
    ensures Netloc(scheme + "://" + host + tail) == host
  {
    var url := scheme + "://" + host + tail;
    var rest := "//" + (host + tail);
    assert url == scheme + ":" + rest;
    NoUnsafeAppend(scheme, "://");
    NoUnsafeAppend(scheme + "://", host);
    NoUnsafeAppend(scheme + "://" + host, tail);
    CleanedClean(url);
    AfterSchemeOf(scheme, rest);
    assert rest[2..] == host + tail;
    TakeHostOf(host, tail);
  }

  // ---------------------------------------------------------------------------
  // identify_platform

  /** The branch chain of `identify_platform` applied to an already lower-cased domain. */
  function ClassifyDomain(domain: string): Platform
  {
    if Contains(domain, "tiktok.com") then TikTok
    else if Contains(domain, "instagram.com") then Instagram
    else if Contains(domain, "facebook.com") || Contains(domain, "fb.com") then Facebook
    else if Contains(domain, "youtube.com") || Contains(domain, "youtu.be") then YouTube
    else if Contains(domain, "twitter.com") || Contains(domain, "x.com") then Twitter
    else Unknown
  }

  /** `identify_platform(url)`: only the lower-cased netloc is inspected. */
  function IdentifyPlatform(url: string): Platform
  {
    ClassifyDomain(Lower(Netloc(url)))
  }

  /** The rule table the branch chain follows, in order: a domain containing the needle gets the platform. */
  const Rules: seq<(string, Platform)> := [
    ("tiktok.com", TikTok), ("instagram.com", Instagram),
    ("facebook.com", Facebook), ("fb.com", Facebook),
    ("youtube.com", YouTube), ("youtu.be", YouTube),
    ("twitter.com", Twitter), ("x.com", Twitter)]

  /** Rule `i` is the first rule of `rules` whose needle occurs in `domain`. */
  predicate FirstMatchAt(rules: seq<(string, Platform)>, domain: string, i: int)
  {
    0 <= i < |rules| && Contains(domain, rules[i].0)
    && forall j :: 0 <= j < i ==> !Contains(domain, rules[j].0)
  }

  /** First-match lookup in a rule table; Unknown when no needle occurs. */
  function FirstMatch(rules: seq<(string, Platform)>, domain: string): Platform
  {
    if rules == [] then Unknown
    else if Contains(domain, rules[0].0) then rules[0].1
    else FirstMatch(rules[1..], domain)
  }

  /** The lookup returns the platform of the first matching rule, or Unknown when no rule matches. */
  lemma {:induction false} FirstMatchWins(rules: seq<(string, Platform)>, domain: string)
    ensures forall i :: FirstMatchAt(rules, domain, i) ==> FirstMatch(rules, domain) == rules[i].1
    ensures (forall i :: 0 <= i < |rules| ==> !Contains(domain, rules[i].0)) ==> FirstMatch(rules, domain) == Unknown
  {
    if rules != [] {
      FirstMatchWins(rules[1..], domain);
      forall i | FirstMatchAt(rules, domain, i)
        ensures FirstMatch(rules, domain) == rules[i].1
      {
        if i > 0 {
          assert FirstMatchAt(rules[1..], domain, i - 1);
        }
      }
      if forall i :: 0 <= i < |rules| ==> !Contains(domain, rules[i].0) {
        assert forall i :: 0 <= i < |rules[1..]| ==> !Contains(domain, rules[1..][i].0) by {
          forall i | 0 <= i < |rules[1..]| ensures !Contains(domain, rules[1..][i].0) {
            assert rules[1..][i] == rules[i + 1];
          }
        }
      }
    }
  }

  /** The branch chain is the first-match lookup in `Rules`. */
  lemma ClassifyDomainIsFirstMatch(domain: string)
    ensures ClassifyDomain(domain) == FirstMatch(Rules, domain)
  {
    FirstMatchWins(Rules, domain);
    if Contains(domain, "tiktok.com") {
      assert FirstMatchAt(Rules, domain, 0);
    } else if Contains(domain, "instagram.com") {
      assert FirstMatchAt(Rules, domain, 1);
    } else if Contains(domain, "facebook.com") {
      assert FirstMatchAt(Rules, domain, 2);
    } else if Contains(domain, "fb.com") {
      assert FirstMatchAt(Rules, domain, 3);
    } else if Contains(domain, "youtube.com") {
      assert FirstMatchAt(Rules, domain, 4);
    } else if Contains(domain, "youtu.be") {
      assert FirstMatchAt(Rules, domain, 5);
    } else if Contains(domain, "twitter.com") {
      assert FirstMatchAt(Rules, domain, 6);
    } else if Contains(domain, "x.com") {
      assert FirstMatchAt(Rules, domain, 7);
    }
  }

  /**
   * `identify_platform` always returns one of the six tags, and the tag is the platform
   * of the first rule of `Rules` whose needle occurs in the lower-cased netloc ("unknown"
   * when none does).
   */
  lemma IdentifyPlatformFirstRuleWins(url: string)
    ensures IdentifyPlatform(url).Tag() in {"tiktok", "instagram", "facebook", "youtube", "twitter", "unknown"}
    ensures forall i :: FirstMatchAt(Rules, Lower(Netloc(url)), i) ==> IdentifyPlatform(url) == Rules[i].1
    ensures (forall i :: 0 <= i < |Rules| ==> !Contains(Lower(Netloc(url)), Rules[i].0)) ==> IdentifyPlatform(url) == Unknown
  {
    ClassifyDomainIsFirstMatch(Lower(Netloc(url)));
    FirstMatchWins(Rules, Lower(Netloc(url)));
  }

  /**
   * Rule `|missing|` decides the tag of `domain` when the domain holds its
   * needle and, for each earlier rule `k`, lacks the character `missing[k]`
   * of that rule's needle.
   */
  lemma ClassifyDomainByMissing(domain: string, missing: string)
    requires |missing| < |Rules|
    requires forall k :: 0 <= k < |missing| ==> missing[k] in Rules[k].0 && missing[k] !in domain
    requires Contains(domain, Rules[|missing|].0)
    ensures ClassifyDomain(domain) == Rules[|missing|].1
  {
    var needles := seq(|missing|, k requires 0 <= k < |missing| => Rules[k].0);
    NotContainsAny(domain, needles, missing);
    ClassifyDomainIsFirstMatch(domain);
    FirstMatchWins(Rules, domain);
    assert FirstMatchAt(Rules, domain, |missing|);
  }


  /** Leading blanks play no part in the tag: `" https://www.tiktok.com/@a"` is a TikTok URL. */
  lemma IdentifyPlatformIgnoresBlanks(pad: string, url: string)
    requires forall k :: 0 <= k < |pad| ==> IsBlank(pad[k])
    ensures IdentifyPlatform(pad + url) == IdentifyPlatform(url)
  {
    CleanedIgnoresBlanks(pad, url);
  }

  /** Nor does a tab, CR or LF anywhere in the URL. */
  lemma IdentifyPlatformIgnoresUnsafe(a: string, c: char, b: string)
    requires IsUnsafe(c)
    ensures IdentifyPlatform(a + [c] + b) == IdentifyPlatform(a + b)
  {
    CleanedDropsUnsafe(a, c, b);
  }

  // ---------------------------------------------------------------------------
  // is_playlist_or_channel

  /** The YouTube markers of a playlist or channel URL. */
  predicate HasYouTubeCollectionMarker(url: string)
  {
    Contains(url, "/playlist?") || Contains(url, "/channel/") || Contains(url, "/@") || Contains(url, "/c/")
  }

  /** `is_playlist_or_channel(url)`, on the URL as given (not lower-cased). */
  predicate IsCollection(url: string)
  {
    if Contains(url, "youtube.com") then HasYouTubeCollectionMarker(url)
    else Contains(url, "tiktok.com/@") && !Contains(url, "/video/")
  }

  /**
   * The YouTube rule is consulted first, but the order does not change the
   * answer: a TikTok profile URL always holds the "/@" marker, so a URL is a
   * collection exactly when either rule alone says so.
   */
  lemma CollectionEitherRule(url: string)
    ensures Contains(url, "youtube.com") ==> (IsCollection(url) <==> HasYouTubeCollectionMarker(url))
    ensures IsCollection(url) <==>
      || (Contains(url, "youtube.com") && HasYouTubeCollectionMarker(url))
      || (Contains(url, "tiktok.com/@") && !Contains(url, "/video/"))
  {
    if Contains(url, "tiktok.com/@") {
      assert "tiktok.com/@" == "tiktok.com" + "/@";
      ContainsSuffix(url, "tiktok.com", "/@");
    }
  }
}
