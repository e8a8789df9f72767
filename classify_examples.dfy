/**
 * Worked examples of the URL classification on concrete URLs. The platform
 * of each URL follows from its lower-cased netloc by `ClassifyDomainByMissing`;
 * the collection test needs facts about the URL text, which are proved one
 * per lemma, as each costs the solver an unfolding of `Contains` over the
 * whole literal.
 */
module ClassifyExamples {
  import opened Strings
  import opened Classify

  /** The lower-cased netloc of `https://<host><tail>` is `host`, for a lower-case host without delimiters. */
  lemma HttpsHost(url: string, host: string, tail: string)
    requires url == "https://" + host + tail
    requires forall k :: 0 <= k < |host| ==> !IsNetlocEnd(host[k]) && !('A' <= host[k] <= 'Z')
    requires tail == [] || IsNetlocEnd(tail[0])
    requires NoUnsafe(host) && NoUnsafe(tail)
    ensures Lower(Netloc(url)) == host
  {
    assert url == "https" + "://" + host + tail;
    NetlocOfAuthority("https", host, tail);
    LowerOfLower(host);
  }

  // https://www.youtube.com/watch?v=AAA

  /** A watch URL is a single YouTube item. */
  lemma YouTubeWatchUrl(url: string)
    requires url == "https://www.youtube.com/watch?v=AAA"
    ensures IdentifyPlatform(url) == YouTube
    ensures !IsCollection(url)
  {
    HttpsHost(url, "www.youtube.com", "/watch?v=AAA");
    YouTubeDomain("www.youtube.com");
    WatchHasYouTube(url);
    WatchNoPlaylist(url);
    WatchNoChannel(url);
    WatchNoHandle(url);
    WatchNoCustom(url);
  }

  lemma YouTubeDomain(host: string)
    requires host == "www.youtube.com"
    ensures ClassifyDomain(host) == YouTube
  {
    assert host == "www." + "youtube.com" + "";
    ContainsMiddle("www.", "youtube.com", "");
    ClassifyDomainByMissing(host, "kgff");
  }

  lemma WatchHasYouTube(url: string)
    requires url == "https://www.youtube.com/watch?v=AAA"
    ensures Contains(url, "youtube.com")
  {
    assert url == "https://www." + "youtube.com" + "/watch?v=AAA";
    ContainsMiddle("https://www.", "youtube.com", "/watch?v=AAA");
  }

  lemma WatchNoPlaylist(url: string)
    requires url == "https://www.youtube.com/watch?v=AAA"
    ensures !Contains(url, "/playlist?")
  {
    NotContainsMissingChar(url, "/playlist?", 'l');
  }

  lemma WatchNoChannel(url: string)
    requires url == "https://www.youtube.com/watch?v=AAA"
    ensures !Contains(url, "/channel/")
  {
    NotContainsMissingChar(url, "/channel/", 'n');
  }

  lemma WatchNoHandle(url: string)
    requires url == "https://www.youtube.com/watch?v=AAA"
    ensures !Contains(url, "/@")
  {
    NotContainsMissingChar(url, "/@", '@');
  }

  lemma WatchNoCustom(url: string)
    requires url == "https://www.youtube.com/watch?v=AAA"
    ensures !Contains(url, "/c/")
  {
    NotContainsMissingPair(url, "/c/");
  }

  // https://www.tiktok.com/@user/video/123

  /** A TikTok video URL is a single TikTok item, although it names the creator. */
  lemma TikTokVideoUrl(url: string)
    requires url == "https://www.tiktok.com/@user/video/123"
    ensures IdentifyPlatform(url) == TikTok
    ensures !IsCollection(url)
  {
    HttpsHost(url, "www.tiktok.com", "/@user/video/123");
    TikTokDomain("www.tiktok.com");
    VideoNoYouTube(url);
    VideoHasVideo(url);
  }

  lemma TikTokDomain(host: string)
    requires host == "www.tiktok.com"
    ensures ClassifyDomain(host) == TikTok
  {
    assert host == "www." + "tiktok.com" + "";
    ContainsMiddle("www.", "tiktok.com", "");
    ClassifyDomainByMissing(host, "");
  }

  lemma VideoHasVideo(url: string)
    requires url == "https://www.tiktok.com/@user/video/123"
    ensures Contains(url, "/video/")
  {
    assert url == "https://www.tiktok.com/@user" + "/video/" + "123";
    ContainsMiddle("https://www.tiktok.com/@user", "/video/", "123");
  }

  lemma VideoNoYouTube(url: string)
    requires url == "https://www.tiktok.com/@user/video/123"
    ensures !Contains(url, "youtube.com")
  {
    NotContainsMissingChar(url, "youtube.com", 'y');
  }

  // https://www.tiktok.com/@user

  /** A TikTok profile URL is a collection. */
  lemma TikTokProfileUrl(url: string)
    requires url == "https://www.tiktok.com/@user"
    ensures IsCollection(url)
  {
    ProfileNoYouTube(url);
    ProfileNoVideo(url);
    ProfileHasTikTokAt(url);
  }

  lemma ProfileHasTikTokAt(url: string)
    requires url == "https://www.tiktok.com/@user"
    ensures Contains(url, "tiktok.com/@")
  {
    assert url == "https://www." + "tiktok.com/@" + "user";
    ContainsMiddle("https://www.", "tiktok.com/@", "user");
  }

  lemma ProfileNoYouTube(url: string)
    requires url == "https://www.tiktok.com/@user"
    ensures !Contains(url, "youtube.com")
  {
    NotContainsMissingChar(url, "youtube.com", 'y');
  }

  lemma ProfileNoVideo(url: string)
    requires url == "https://www.tiktok.com/@user"
    ensures !Contains(url, "/video/")
  {
    NotContainsMissingChar(url, "/video/", 'v');
  }

  // https://www.netflix.com/title/1

  /** Matching is by substring, so any host ending in "x.com" is tagged twitter. */
  lemma SubstringMatchTagsNetflixAsTwitter(url: string)
    requires url == "https://www.netflix.com/title/1"
    ensures IdentifyPlatform(url) == Twitter
  {
    HttpsHost(url, "www.netflix.com", "/title/1");
    TwitterDomain("www.netflix.com");
  }

  lemma TwitterDomain(host: string)
    requires host == "www.netflix.com"
    ensures ClassifyDomain(host) == Twitter
  {
    assert host == "www.netfli" + "x.com" + "";
    ContainsMiddle("www.netfli", "x.com", "");
    ClassifyDomainByMissing(host, "kgbbyyr");
  }
}
