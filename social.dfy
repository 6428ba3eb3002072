/** The social media tools of the public-persona agent
    (src/tools/social_media_retrieval.py). `get_instagram_posts` reads the
    first page of media and follows at most four `next` links, then ranks
    the posts by likes and comments. `get_youtube_videos` checks its
    credentials, reads the channel and every page of its uploads playlist,
    asks for statistics in batches of at most fifty distinct video ids,
    then ranks the videos by views, likes and comments. HTTP responses and
    the Google API are functions given as parameters; `normalize_timestamp`
    is the parameter `normalize`, which is partial: it gives `None` where
    `datetime.fromisoformat` raises ValueError, and the tool then raises. */
module SocialMedia {
  import opened Wrappers
  import opened Json
  import opened StableSort

  /** The `error` text both tools return when they cannot run. */
  const NoContent := "Could not retrieve any content."

  const NoChannel := "No channel found"

  /** Address of a video, the id appended. */
  const WatchUrl := "https://www.youtube.com/watch?v="

  /** `normalize_timestamp`: the timestamp in UTC with a `Z` suffix, or
      `None` for a text `datetime.fromisoformat` rejects with ValueError
      (the empty text among them). */
  type Normalizer = string -> Option<string>

  /** Python truthiness of an optional string: set and not empty. */
  predicate Truthy(v: Option<string>)
  {
    v.Some? && v.value != ""
  }

  /** One post of the media listing: the counts the ranking reads (absent
      when the listing omits them), the timestamp, and the other fields,
      which are carried through unchanged. */
  datatype Post = Post(likeCount: Option<int>, commentsCount: Option<int>, timestamp: string, fields: map<string, Json>)

  /** A page of the media listing: its `data` and its `paging.next` link. */
  datatype MediaPage = MediaPage(data: seq<Post>, next: Option<string>)

  /** `acc_info`: the handle and media count of the account. */
  datatype Account = Account(handle: string, mediaCount: int)

  /** What `get_instagram_posts` returns, or the ValueError its timestamp
      loop raises on the timestamp it rejects. */
  datatype InstagramResult =
    | InstagramError(message: string)
    | InstagramValueError(timestamp: string)
    | InstagramMedia(account: Account, media: seq<Post>)

  /** The links followed after the first page: each page's `next` link in
      turn, while there is one, and at most `budget` of them. */
  function FollowUrls(next: Option<string>, fetch: string -> MediaPage, budget: nat): (urls: seq<string>)
    ensures |urls| <= budget
    decreases budget
  {
    if budget == 0 || !Truthy(next) then []
    else [next.value] + FollowUrls(fetch(next.value).next, fetch, budget - 1)
  }

  /** The `data` of the pages behind `urls`, one after the other. */
  function PagesData(urls: seq<string>, fetch: string -> MediaPage): seq<Post>
  {
    if urls == [] then [] else PagesData(urls[..|urls| - 1], fetch) + fetch(urls[|urls| - 1]).data
  }

  /** `all_posts` after the loop: the first page's posts, then those of
      every page followed, in order. */
  function Accumulated(first: MediaPage, fetch: string -> MediaPage): seq<Post>
  {
    first.data + PagesData(FollowUrls(first.next, fetch, 4), fetch)
  }

  /** The link after the last page followed, or the first page's link when
      none was followed. */
  function LinkAfter(first: Option<string>, urls: seq<string>, fetch: string -> MediaPage): Option<string>
  {
    if urls == [] then first else fetch(urls[|urls| - 1]).next
  }

  /** The pages followed form the chain of `next` links from the first
      page, each link non-empty, and the loop stops early only at a page
      without a link. */
  lemma {:induction false} FollowUrlsChain(next: Option<string>, fetch: string -> MediaPage, budget: nat)
    ensures var urls := FollowUrls(next, fetch, budget);
      (urls != [] ==> next == Some(urls[0])) &&
      (forall i :: 0 <= i < |urls| ==> urls[i] != "") &&
      (forall i :: 0 <= i < |urls| - 1 ==> fetch(urls[i]).next == Some(urls[i + 1])) &&
      (|urls| < budget ==> !Truthy(LinkAfter(next, urls, fetch)))
    decreases budget
  {
    var urls := FollowUrls(next, fetch, budget);
    if budget > 0 && Truthy(next) {
      var rest := FollowUrls(fetch(next.value).next, fetch, budget - 1);
      FollowUrlsChain(fetch(next.value).next, fetch, budget - 1);
      assert urls == [next.value] + rest;
      forall i | 0 <= i < |urls| - 1 ensures fetch(urls[i]).next == Some(urls[i + 1]) {
        if i > 0 {
          assert urls[i] == rest[i - 1] && urls[i + 1] == rest[i];
        }
      }
      if rest != [] {
        assert urls[|urls| - 1] == rest[|rest| - 1];
      }
    }
  }

  lemma PagesDataSnoc(urls: seq<string>, u: string, fetch: string -> MediaPage)
    ensures PagesData(urls + [u], fetch) == PagesData(urls, fetch) + fetch(u).data
  {
    assert (urls + [u])[..|urls|] == urls;
  }

  lemma FollowStep(next: Option<string>, fetch: string -> MediaPage, budget: nat)
    requires budget > 0 && Truthy(next)
    ensures FollowUrls(next, fetch, budget) == [next.value] + FollowUrls(fetch(next.value).next, fetch, budget - 1)
  {
  }

  /** Following one more link moves it from the links still to follow to
      the links followed. */
  lemma FollowAdvance(urls: seq<string>, next: Option<string>, fetch: string -> MediaPage, budget: nat, all: seq<string>)
    requires budget > 0 && Truthy(next)
    requires urls + FollowUrls(next, fetch, budget) == all
    ensures (urls + [next.value]) + FollowUrls(fetch(next.value).next, fetch, budget - 1) == all
  {
    FollowStep(next, fetch, budget);
    assert (urls + [next.value]) + FollowUrls(fetch(next.value).next, fetch, budget - 1)
      == urls + ([next.value] + FollowUrls(fetch(next.value).next, fetch, budget - 1));
  }

  /** Extending the posts with one more page's data keeps them equal to the
      data of the pages followed. */
  lemma PostsAdvance(posts: seq<Post>, firstData: seq<Post>, urls: seq<string>, u: string, fetch: string -> MediaPage)
    requires posts == firstData + PagesData(urls, fetch)
    ensures posts + fetch(u).data == firstData + PagesData(urls + [u], fetch)
  {
    PagesDataSnoc(urls, u, fetch);
  }

  /** The pagination loop: follow `next` links, at most four times,
      extending the posts with each page's data. */
  method FetchAllPosts(first: MediaPage, fetch: string -> MediaPage) returns (posts: seq<Post>, urls: seq<string>)
    ensures urls == FollowUrls(first.next, fetch, 4)
    ensures posts == Accumulated(first, fetch)
  {
    posts := first.data;
    urls := [];
    var nextUrl := first.next;
    var k := 0;
    while k < 4
      invariant 0 <= k <= 4
      invariant urls + FollowUrls(nextUrl, fetch, 4 - k) == FollowUrls(first.next, fetch, 4)
      invariant posts == first.data + PagesData(urls, fetch)
    {
      if !Truthy(nextUrl) {
        break;
      }
      var page := fetch(nextUrl.value);
      FollowAdvance(urls, nextUrl, fetch, 4 - k, FollowUrls(first.next, fetch, 4));
      PostsAdvance(posts, first.data, urls, nextUrl.value, fetch);
      posts := posts + page.data;
      urls := urls + [nextUrl.value];
      nextUrl := page.next;
      k := k + 1;
    }
    FollowDone(nextUrl, fetch, 4 - k);
    assert urls + [] == urls;
  }

  /** With no link left, or no budget, nothing more is followed. */
  lemma FollowDone(next: Option<string>, fetch: string -> MediaPage, budget: nat)
    requires budget == 0 || !Truthy(next)
    ensures FollowUrls(next, fetch, budget) == []
  {
  }

  /** The ranking key: `(like_count, comments_count)`, a missing count
      being 0. */
  function PostKey(p: Post): seq<int>
  {
    [p.likeCount.GetOr(0), p.commentsCount.GetOr(0)]
  }

  /** The posts with every timestamp normalized, or the ValueError of the
      first timestamp `normalize_timestamp` rejects. */
  function NormalizedPosts(posts: seq<Post>, normalize: Normalizer): (r: Result<seq<Post>, string>)
    ensures r.Ok? <==> forall i :: 0 <= i < |posts| ==> normalize(posts[i].timestamp).Some?
    ensures r.Ok? ==> |r.value| == |posts|
    ensures r.Ok? ==>
      forall i :: 0 <= i < |posts| ==> r.value[i] == posts[i].(timestamp := normalize(posts[i].timestamp).value)
    ensures r.Err? ==> normalize(r.error).None?
    decreases |posts|
  {
    if posts == [] then Ok([])
    else
      match (normalize(posts[0].timestamp), NormalizedPosts(posts[1..], normalize))
      case (None, _) => Err(posts[0].timestamp)
      case (Some(_), Err(e)) => Err(e)
      case (Some(t), Ok(rest)) =>
        assert forall i :: 1 <= i < |posts| ==> posts[1..][i - 1] == posts[i];
        Ok([posts[0].(timestamp := t)] + rest)
  }

  /** The loop raises on the first timestamp it cannot parse. */
  lemma {:induction false} NormalizedPostsRejects(posts: seq<Post>, normalize: Normalizer, i: nat)
    requires i < |posts| && normalize(posts[i].timestamp).None?
    requires forall k :: 0 <= k < i ==> normalize(posts[k].timestamp).Some?
    ensures NormalizedPosts(posts, normalize) == Err(posts[i].timestamp)
  {
    if i > 0 {
      assert forall k :: 0 <= k < i - 1 ==> posts[1..][k] == posts[k + 1];
      NormalizedPostsRejects(posts[1..], normalize, i - 1);
    }
  }

  /** Normalizing timestamps keeps the ranking and the order of ties. */
  lemma NormalizedPostsRanked(posts: seq<Post>, normalize: Normalizer)
    requires SortedDesc(posts, PostKey)
    ensures NormalizedPosts(posts, normalize).Ok? ==>
      SortedDesc(NormalizedPosts(posts, normalize).value, PostKey) &&
      forall i :: 0 <= i < |posts| ==> PostKey(NormalizedPosts(posts, normalize).value[i]) == PostKey(posts[i])
  {
    if NormalizedPosts(posts, normalize).Ok? {
      var r := NormalizedPosts(posts, normalize).value;
      forall i, j | 0 <= i < j < |r| ensures LexGe(PostKey(r[i]), PostKey(r[j])) {
        assert PostKey(r[i]) == PostKey(posts[i]) && PostKey(r[j]) == PostKey(posts[j]);
      }
    }
  }

  /** The timestamp loop over the ranked posts, rewriting each post in
      turn until a timestamp is rejected. */
  method NormalizePostTimestamps(posts: seq<Post>, normalize: Normalizer) returns (r: Result<seq<Post>, string>)
    ensures r == NormalizedPosts(posts, normalize)
  {
    var ps := posts;
    var i := 0;
    while i < |ps|
      invariant 0 <= i <= |ps| == |posts|
      invariant forall k :: 0 <= k < i ==>
        normalize(posts[k].timestamp).Some? && ps[k] == posts[k].(timestamp := normalize(posts[k].timestamp).value)
      invariant forall k :: i <= k < |ps| ==> ps[k] == posts[k]
    {
      var t := normalize(ps[i].timestamp);
      if t.None? {
        NormalizedPostsRejects(posts, normalize, i);
        return Err(ps[i].timestamp);
      }
      ps := ps[i := ps[i].(timestamp := t.value)];
      i := i + 1;
    }
    assert ps == NormalizedPosts(posts, normalize).value;
    r := Ok(ps);
  }

  /** `get_instagram_posts`: with no token, the error and no request at
      all; otherwise the account, two first requests, up to four
      follow-up requests, and the posts ranked by likes then comments with
      normalized timestamps. */
  method GetInstagramPosts(token: string, accountInfoUrl: string, mediaUrl: string,
                           account: Account, first: MediaPage,
                           fetch: string -> MediaPage, normalize: Normalizer)
    returns (r: InstagramResult, requests: seq<string>)
    ensures token == "" ==> r == InstagramError(NoContent) && requests == []
    ensures token != "" ==>
      requests == [accountInfoUrl, mediaUrl] + FollowUrls(first.next, fetch, 4) &&
      r == match NormalizedPosts(SortDesc(Accumulated(first, fetch), PostKey), normalize)
           case Ok(media) => InstagramMedia(account, media)
           case Err(ts) => InstagramValueError(ts)
  {
    if token == "" {
      return InstagramError(NoContent), [];
    }
    var allPosts, followed := FetchAllPosts(first, fetch);
    requests := [accountInfoUrl, mediaUrl] + followed;
    var postsSorted := SortDesc(allPosts, PostKey);
    var media := NormalizePostTimestamps(postsSorted, normalize);
    if media.Err? {
      return InstagramValueError(media.error), requests;
    }
    r := InstagramMedia(account, media.value);
  }

  /** The ranked posts are the accumulated posts, ordered by likes and then
      comments from high to low, and posts with equal counts keep the
      order in which the pages listed them. */
  lemma InstagramRanking(first: MediaPage, fetch: string -> MediaPage, k: seq<int>)
    ensures var ranked := SortDesc(Accumulated(first, fetch), PostKey);
      multiset(ranked) == multiset(Accumulated(first, fetch)) &&
      SortedDesc(ranked, PostKey) &&
      WithKey(ranked, PostKey, k) == WithKey(Accumulated(first, fetch), PostKey, k)
  {
    SortDescStable(Accumulated(first, fetch), PostKey, k);
  }

  /** The environment variables the YouTube tool reads; `None` for an
      unset one. */
  datatype Credentials = Credentials(
    accessToken: Option<string>,
    refreshToken: Option<string>,
    clientId: Option<string>,
    clientSecret: Option<string>,
    tokenUri: Option<string>)

  /** The guard of `get_youtube_videos` as written: it refuses to run
      unless the access token is set and all four refresh settings are
      unset. */
  predicate Refused(c: Credentials)
    ensures !Refused(c) ==> Truthy(c.accessToken)
    ensures Truthy(c.refreshToken) || Truthy(c.clientId) || Truthy(c.clientSecret) || Truthy(c.tokenUri) ==> Refused(c)
  {
    !Truthy(c.accessToken) || Truthy(c.refreshToken) || Truthy(c.clientId) || Truthy(c.clientSecret) || Truthy(c.tokenUri)
  }

  /** A channel item: its title, description and counts (absent when the
      response omits them) and its uploads playlist. */
  datatype Channel = Channel(title: string, description: Option<string>, subscriberCount: Option<string>,
                             videoCount: Option<string>, uploads: string)

  datatype ChannelInfo = ChannelInfo(handle: string, description: string, subscriberCount: string, videoCount: string)

  /** An item of the uploads playlist. */
  datatype PlaylistItem = PlaylistItem(videoId: string, title: Option<string>, description: Option<string>, publishedAt: Option<string>)

  datatype PlaylistPage = PlaylistPage(items: seq<PlaylistItem>, nextPageToken: Option<string>)

  /** `playlistItems().list(playlistId, pageToken)`. */
  type PlaylistApi = (string, Option<string>) -> PlaylistPage

  /** The statistics of a video as the `videos().list` response gives
      them, each count absent when omitted. */
  datatype Stats = Stats(viewCount: Option<int>, commentCount: Option<int>, likeCount: Option<int>)

  datatype StatsItem = StatsItem(id: string, statistics: Option<Stats>)

  /** `videos().list(id=",".join(batch))`. */
  type StatsApi = seq<string> -> seq<StatsItem>

  /** A video record: the playlist fields, and the counts once the
      statistics have been merged in. */
  datatype Video = Video(videoId: string, url: string, title: Option<string>, description: string, publishedAt: string,
                         viewCount: Option<int>, commentCount: Option<int>, likeCount: Option<int>)

  datatype YouTubeResult =
    | YouTubeError(message: string)
    | YouTubeKeyError(key: string)
    | YouTubeValueError(timestamp: string)
    | YouTubeVideos(channel: ChannelInfo, videos: seq<Video>)

  /** `channel_info`, with the defaults for missing fields. */
  function InfoOf(ch: Channel): ChannelInfo
  {
    ChannelInfo(ch.title, ch.description.GetOr(""), ch.subscriberCount.GetOr("0"), ch.videoCount.GetOr("0"))
  }

  /** The record appended for one playlist item. */
  function VideoOf(item: PlaylistItem): Video
  {
    Video(item.videoId, WatchUrl + item.videoId, item.title, item.description.GetOr(""), item.publishedAt.GetOr(""), None, None, None)
  }

  function ToVideos(items: seq<PlaylistItem>): (vs: seq<Video>)
    ensures |vs| == |items|
    ensures forall i :: 0 <= i < |items| ==> vs[i] == VideoOf(items[i])
  {
    if items == [] then [] else ToVideos(items[..|items| - 1]) + [VideoOf(items[|items| - 1])]
  }

  /** The playlist's chain of page tokens reaches a page without a next
      token within `n` pages: the paging loop ends only when the service's
      paging does. */
  predicate ChainEnds(api: PlaylistApi, playlistId: string, token: Option<string>, n: nat)
    decreases n
  {
    n > 0 &&
    var next := api(playlistId, token).nextPageToken;
    !Truthy(next) || ChainEnds(api, playlistId, next, n - 1)
  }

  /** The records of every item of every page, page after page. */
  function PlaylistVideos(api: PlaylistApi, playlistId: string, token: Option<string>, n: nat): (vs: seq<Video>)
    requires ChainEnds(api, playlistId, token, n)
    ensures forall i :: 0 <= i < |vs| ==> vs[i].url == WatchUrl + vs[i].videoId && vs[i].viewCount.None?
    decreases n
  {
    var page := api(playlistId, token);
    ToVideos(page.items)
      + if Truthy(page.nextPageToken) then PlaylistVideos(api, playlistId, page.nextPageToken, n - 1) else []
  }

  /** The records do not depend on the bound on the number of pages. */
  lemma {:induction false} PlaylistVideosUnique(api: PlaylistApi, playlistId: string, token: Option<string>, n: nat, m: nat)
    requires ChainEnds(api, playlistId, token, n) && ChainEnds(api, playlistId, token, m)
    ensures PlaylistVideos(api, playlistId, token, n) == PlaylistVideos(api, playlistId, token, m)
    decreases n
  {
    var next := api(playlistId, token).nextPageToken;
    if Truthy(next) {
      PlaylistVideosUnique(api, playlistId, next, n - 1, m - 1);
    }
  }

  /** The inner loop over one page's items. */
  method AppendVideos(videos: seq<Video>, items: seq<PlaylistItem>) returns (r: seq<Video>)
    ensures r == videos + ToVideos(items)
  {
    r := videos;
    var j := 0;
    while j < |items|
      invariant 0 <= j <= |items|
      invariant r == videos + ToVideos(items[..j])
    {
      assert items[..j + 1][..j] == items[..j];
      r := r + [VideoOf(items[j])];
      j := j + 1;
    }
    assert items[..j] == items;
  }

  /** The `while True` paging loop over the uploads playlist. */
  method FetchPlaylist(api: PlaylistApi, playlistId: string, ghost n: nat) returns (videos: seq<Video>)
    requires ChainEnds(api, playlistId, None, n)
    ensures videos == PlaylistVideos(api, playlistId, None, n)
  {
    videos := [];
    var nextPage: Option<string> := None;
    ghost var m := n;
    while true
      invariant ChainEnds(api, playlistId, nextPage, m)
      invariant videos + PlaylistVideos(api, playlistId, nextPage, m) == PlaylistVideos(api, playlistId, None, n)
      decreases m
    {
      var page := api(playlistId, nextPage);
      ghost var before := videos;
      videos := AppendVideos(videos, page.items);
      PlaylistAdvance(api, playlistId, nextPage, m, before, videos, PlaylistVideos(api, playlistId, None, n));
      nextPage := page.nextPageToken;
      if !Truthy(nextPage) {
        return;
      }
      m := m - 1;
    }
  }

  /** One turn of the paging loop: the records of the page just read move
      from what is left to read to what has been gathered. */
  lemma PlaylistAdvance(api: PlaylistApi, playlistId: string, token: Option<string>, m: nat,
                        before: seq<Video>, videos: seq<Video>, target: seq<Video>)
    requires ChainEnds(api, playlistId, token, m)
    requires before + PlaylistVideos(api, playlistId, token, m) == target
    requires videos == before + ToVideos(api(playlistId, token).items)
    ensures var next := api(playlistId, token).nextPageToken;
      (Truthy(next) ==> m > 0 && ChainEnds(api, playlistId, next, m - 1)
                        && videos + PlaylistVideos(api, playlistId, next, m - 1) == target)
      && (!Truthy(next) ==> videos == target)
  {
    var page := api(playlistId, token);
    if Truthy(page.nextPageToken) {
      var rest := PlaylistVideos(api, playlistId, page.nextPageToken, m - 1);
      assert PlaylistVideos(api, playlistId, token, m) == ToVideos(page.items) + rest;
      assert videos + rest == before + (ToVideos(page.items) + rest);
    } else {
      assert PlaylistVideos(api, playlistId, token, m) == ToVideos(page.items);
    }
  }

  /** `video_map`: each id to the position of the record the dict keeps
      for it, the last one with that id. */
  function IndexMap(videos: seq<Video>): (m: map<string, nat>)
    ensures forall id :: id in m ==> m[id] < |videos| && videos[m[id]].videoId == id
    ensures forall i :: 0 <= i < |videos| ==> videos[i].videoId in m && i <= m[videos[i].videoId]
  {
    if videos == [] then map[]
    else
      var n := |videos| - 1;
      var init := videos[..n];
      assert forall i :: 0 <= i < n ==> init[i] == videos[i];
      IndexMap(init)[videos[n].videoId := n]
  }

  /** `list(video_map.keys())`: each id once, in the order it first
      appears. */
  function DistinctIds(videos: seq<Video>): (ids: seq<string>)
    ensures forall i, j :: 0 <= i < j < |ids| ==> ids[i] != ids[j]
    ensures forall id :: id in ids <==> exists i :: 0 <= i < |videos| && videos[i].videoId == id
  {
    if videos == [] then []
    else
      var init := videos[..|videos| - 1];
      var ids := DistinctIds(init);
      var last := videos[|videos| - 1].videoId;
      assert forall i :: 0 <= i < |init| ==> init[i] == videos[i];
      if last in ids then ids else ids + [last]
  }

  /** With no repeated id the keys are the ids in playlist order. */
  lemma {:induction false} DistinctIdsInOrder(videos: seq<Video>)
    requires forall i, j :: 0 <= i < j < |videos| ==> videos[i].videoId != videos[j].videoId
    ensures |DistinctIds(videos)| == |videos|
    ensures forall i :: 0 <= i < |videos| ==> DistinctIds(videos)[i] == videos[i].videoId
  {
    if videos != [] {
      var init := videos[..|videos| - 1];
      DistinctIdsInOrder(init);
      assert videos[|videos| - 1].videoId !in DistinctIds(init);
    }
  }

  /** `all_ids[i:i + 50]` for i = 0, 50, 100, ... */
  function Batches(ids: seq<string>): (bs: seq<seq<string>>)
    ensures forall k :: 0 <= k < |bs| ==> 1 <= |bs[k]| <= 50
    decreases |ids|
  {
    if ids == [] then []
    else if |ids| <= 50 then [ids]
    else [ids[..50]] + Batches(ids[50..])
  }

  /** The batches one after the other. */
  function Flatten(bs: seq<seq<string>>): seq<string>
  {
    if bs == [] then [] else bs[0] + Flatten(bs[1..])
  }

  /** The batches cover every id once and in order; each holds one to
      fifty ids, and all but the last exactly fifty. */
  lemma {:induction false} BatchesPartition(ids: seq<string>)
    ensures Flatten(Batches(ids)) == ids
    ensures forall k :: 0 <= k < |Batches(ids)| ==> 1 <= |Batches(ids)[k]| <= 50
    ensures forall k :: 0 <= k < |Batches(ids)| - 1 ==> |Batches(ids)[k]| == 50
    ensures |Batches(ids)| == (|ids| + 49) / 50
    decreases |ids|
  {
    var bs := Batches(ids);
    if |ids| == 0 {
    } else if |ids| <= 50 {
      assert Flatten(bs) == ids + Flatten([]);
    } else {
      var rest := Batches(ids[50..]);
      BatchesPartition(ids[50..]);
      assert bs == [ids[..50]] + rest;
      assert bs[1..] == rest;
      assert ids[..50] + ids[50..] == ids;
      forall k | 1 <= k < |bs| ensures bs[k] == rest[k - 1] { }
    }
  }

  /** `.update({...})` of one record with a statistics item; a missing
      count becomes 0. */
  function WithStats(v: Video, statistics: Option<Stats>): (r: Video)
    ensures SameUpload(r, v)
    ensures statistics.None? ==> r.viewCount == r.commentCount == r.likeCount == Some(0)
    ensures statistics.Some? ==>
      r.viewCount == Some(statistics.value.viewCount.GetOr(0))
      && r.commentCount == Some(statistics.value.commentCount.GetOr(0))
      && r.likeCount == Some(statistics.value.likeCount.GetOr(0))
  {
    var s := statistics.GetOr(Stats(None, None, None));
    v.(viewCount := Some(s.viewCount.GetOr(0)), commentCount := Some(s.commentCount.GetOr(0)), likeCount := Some(s.likeCount.GetOr(0)))
  }

  /** Everything but the counts is the same. */
  predicate SameUpload(a: Video, b: Video)
  {
    a.videoId == b.videoId && a.url == b.url && a.title == b.title && a.description == b.description && a.publishedAt == b.publishedAt
  }

  predicate IndexFits(index: map<string, nat>, n: nat)
  {
    forall id :: id in index ==> index[id] < n
  }

  /** The loop over one statistics response: each item updates the record
      `video_map` holds for its id; an id not in the map raises
      `KeyError`. */
  function ApplyStats(videos: seq<Video>, index: map<string, nat>, items: seq<StatsItem>): (r: Result<seq<Video>, string>)
    requires IndexFits(index, |videos|)
    ensures r.Ok? ==> |r.value| == |videos|
    decreases |items|
  {
    if items == [] then Ok(videos)
    else
      var id := items[0].id;
      if id !in index then Err(id)
      else
        var k := index[id];
        ApplyStats(videos[k := WithStats(videos[k], items[0].statistics)], index, items[1..])
  }

  /** A response whose ids are all known updates only the records the map
      points to; every other record, among them an earlier record with a
      repeated id, is left as it was. The first unknown id is the error. */
  lemma {:induction false} ApplyStatsEffect(videos: seq<Video>, index: map<string, nat>, items: seq<StatsItem>)
    requires IndexFits(index, |videos|)
    ensures ApplyStats(videos, index, items).Ok? <==> forall i :: 0 <= i < |items| ==> items[i].id in index
    ensures ApplyStats(videos, index, items).Err? ==>
      exists i :: 0 <= i < |items| && items[i].id !in index && ApplyStats(videos, index, items).error == items[i].id
        && forall j :: 0 <= j < i ==> items[j].id in index
    ensures ApplyStats(videos, index, items).Ok? ==>
      forall k :: 0 <= k < |videos| ==> SameUpload(ApplyStats(videos, index, items).value[k], videos[k])
    ensures ApplyStats(videos, index, items).Ok? ==>
      forall k :: 0 <= k < |videos| && (forall i :: 0 <= i < |items| ==> index[items[i].id] != k) ==>
        ApplyStats(videos, index, items).value[k] == videos[k]
    decreases |items|
  {
    if items != [] {
      var id := items[0].id;
      if id in index {
        var k := index[id];
        var next := videos[k := WithStats(videos[k], items[0].statistics)];
        ApplyStatsEffect(next, index, items[1..]);
        assert forall i :: 1 <= i < |items| ==> items[i] == items[1..][i - 1];
        if ApplyStats(next, index, items[1..]).Err? {
          var i :| 0 <= i < |items[1..]| && items[1..][i].id !in index
            && ApplyStats(next, index, items[1..]).error == items[1..][i].id
            && forall j :: 0 <= j < i ==> items[1..][j].id in index;
          assert items[i + 1].id !in index;
          forall j | 0 <= j < i + 1 ensures items[j].id in index {
            if j > 0 { assert items[j] == items[1..][j - 1]; }
          }
        }
      }
    }
  }

  /** An update replaces all three counts, so what a record held before
      does not matter. */
  lemma WithStatsOverwrites(a: Video, b: Video, statistics: Option<Stats>)
    requires SameUpload(a, b)
    ensures WithStats(a, statistics) == WithStats(b, statistics)
  {
  }

  /** The last item for a record decides its counts: when every id of the
      response is known, the record that item j updates ends with item j's
      counts (a missing count being 0) unless a later item updates the
      same record. */
  lemma {:induction false} ApplyStatsLastWins(videos: seq<Video>, index: map<string, nat>, items: seq<StatsItem>)
    requires IndexFits(index, |videos|)
    ensures ApplyStats(videos, index, items).Ok? <==> forall i :: 0 <= i < |items| ==> items[i].id in index
    ensures ApplyStats(videos, index, items).Ok? ==>
      forall j :: 0 <= j < |items| && (forall i :: j < i < |items| ==> index[items[i].id] != index[items[j].id]) ==>
        ApplyStats(videos, index, items).value[index[items[j].id]] == WithStats(videos[index[items[j].id]], items[j].statistics)
    decreases |items|
  {
    ApplyStatsEffect(videos, index, items);
    var r := ApplyStats(videos, index, items);
    if items != [] && r.Ok? {
      var k := index[items[0].id];
      var next := videos[k := WithStats(videos[k], items[0].statistics)];
      var rest := items[1..];
      assert r == ApplyStats(next, index, rest);
      ApplyStatsEffect(next, index, rest);
      ApplyStatsLastWins(next, index, rest);
      forall j | 0 <= j < |items| && (forall i :: j < i < |items| ==> index[items[i].id] != index[items[j].id])
        ensures r.value[index[items[j].id]] == WithStats(videos[index[items[j].id]], items[j].statistics)
      {
        if j == 0 {
          forall i | 0 <= i < |rest| ensures index[rest[i].id] != k {
            assert rest[i] == items[i + 1];
          }
        } else {
          var kj := index[items[j].id];
          assert items[j] == rest[j - 1];
          forall i | j - 1 < i < |rest| ensures index[rest[i].id] != kj {
            assert rest[i] == items[i + 1];
          }
          WithStatsOverwrites(next[kj], videos[kj], items[j].statistics);
        }
      }
    }
  }

  /** The batch loop: each batch's statistics applied in turn. */
  function AllStats(videos: seq<Video>, index: map<string, nat>, batches: seq<seq<string>>, api: StatsApi): (r: Result<seq<Video>, string>)
    requires IndexFits(index, |videos|)
    ensures r.Ok? ==> |r.value| == |videos|
    decreases |batches|
  {
    if batches == [] then Ok(videos)
    else
      match ApplyStats(videos, index, api(batches[0]))
      case Err(id) => Err(id)
      case Ok(next) => AllStats(next, index, batches[1..], api)
  }

  /** The items of every response, batch after batch. */
  function AllItems(batches: seq<seq<string>>, api: StatsApi): seq<StatsItem>
  {
    if batches == [] then [] else api(batches[0]) + AllItems(batches[1..], api)
  }

  /** Applying two responses one after the other is applying their items
      in one pass, stopping at the first unknown id. */
  lemma {:induction false} ApplyStatsAppend(videos: seq<Video>, index: map<string, nat>, a: seq<StatsItem>, b: seq<StatsItem>)
    requires IndexFits(index, |videos|)
    ensures ApplyStats(videos, index, a + b) ==
      match ApplyStats(videos, index, a)
      case Err(id) => Err(id)
      case Ok(next) => ApplyStats(next, index, b)
    decreases |a|
  {
    if a == [] {
      assert a + b == b;
    } else {
      assert (a + b)[0] == a[0] && (a + b)[1..] == a[1..] + b;
      if a[0].id in index {
        var k := index[a[0].id];
        ApplyStatsAppend(videos[k := WithStats(videos[k], a[0].statistics)], index, a[1..], b);
      }
    }
  }

  /** The batch loop is one pass over all the responses' items. */
  lemma {:induction false} AllStatsItems(videos: seq<Video>, index: map<string, nat>, batches: seq<seq<string>>, api: StatsApi)
    requires IndexFits(index, |videos|)
    ensures AllStats(videos, index, batches, api) == ApplyStats(videos, index, AllItems(batches, api))
    decreases |batches|
  {
    if batches != [] {
      var items := api(batches[0]);
      ApplyStatsAppend(videos, index, items, AllItems(batches[1..], api));
      var first := ApplyStats(videos, index, items);
      if first.Ok? {
        AllStatsItems(first.value, index, batches[1..], api);
      }
    }
  }

  /** Across all batches: the loop fails exactly when some response item
      names an unknown id; otherwise records keep their playlist fields,
      the record the last item for it updates ends with that item's counts
      (a missing count being 0), and a record no item updates, among them
      any the map does not point to, is left as it was. */
  lemma {:induction false} AllStatsEffect(videos: seq<Video>, index: map<string, nat>, batches: seq<seq<string>>, api: StatsApi)
    requires IndexFits(index, |videos|)
    ensures AllStats(videos, index, batches, api).Ok? ==>
      forall k :: 0 <= k < |videos| ==> SameUpload(AllStats(videos, index, batches, api).value[k], videos[k])
    ensures AllStats(videos, index, batches, api).Ok? ==>
      forall k :: 0 <= k < |videos| && (forall id :: id in index ==> index[id] != k) ==>
        AllStats(videos, index, batches, api).value[k] == videos[k]
    ensures AllStats(videos, index, batches, api).Ok? <==>
      forall i :: 0 <= i < |AllItems(batches, api)| ==> AllItems(batches, api)[i].id in index
    ensures var items := AllItems(batches, api);
      AllStats(videos, index, batches, api).Ok? ==>
      forall j :: 0 <= j < |items| && (forall i :: j < i < |items| ==> index[items[i].id] != index[items[j].id]) ==>
        AllStats(videos, index, batches, api).value[index[items[j].id]] == WithStats(videos[index[items[j].id]], items[j].statistics)
    ensures var items := AllItems(batches, api);
      AllStats(videos, index, batches, api).Ok? ==>
      forall k :: 0 <= k < |videos| && (forall i :: 0 <= i < |items| ==> index[items[i].id] != k) ==>
        AllStats(videos, index, batches, api).value[k] == videos[k]
  {
    var items := AllItems(batches, api);
    AllStatsItems(videos, index, batches, api);
    ApplyStatsEffect(videos, index, items);
    ApplyStatsLastWins(videos, index, items);
    var r := AllStats(videos, index, batches, api);
    if r.Ok? {
      forall k | 0 <= k < |videos| && (forall id :: id in index ==> index[id] != k)
        ensures r.value[k] == videos[k]
      {
        forall i | 0 <= i < |items| ensures index[items[i].id] != k {
          assert items[i].id in index;
        }
      }
    }
  }

  /** A record followed later in the playlist by one with the same id is
      never updated: the dict keeps the later record, and the earlier one
      keeps no counts. */
  lemma EarlierDuplicateKeepsNoCounts(videos: seq<Video>, batches: seq<seq<string>>, api: StatsApi, k: nat, j: nat)
    requires k < j < |videos| && videos[k].videoId == videos[j].videoId
    ensures AllStats(videos, IndexMap(videos), batches, api).Ok? ==>
      AllStats(videos, IndexMap(videos), batches, api).value[k] == videos[k]
  {
    var index := IndexMap(videos);
    AllStatsEffect(videos, index, batches, api);
    assert j <= index[videos[j].videoId];
  }

  /** The statistics loop of `get_youtube_videos`: with every item naming
      an uploaded video, the record `video_map` keeps for an id ends with
      the counts of the last item for that id, a missing count being 0. */
  lemma KeptRecordsGetStats(videos: seq<Video>, batches: seq<seq<string>>, api: StatsApi)
    ensures var items := AllItems(batches, api); var index := IndexMap(videos);
      AllStats(videos, index, batches, api).Ok? ==>
      forall j :: 0 <= j < |items| && (forall i :: j < i < |items| ==> items[i].id != items[j].id) ==>
        items[j].id in index
        && AllStats(videos, index, batches, api).value[index[items[j].id]] == WithStats(videos[index[items[j].id]], items[j].statistics)
  {
    var items := AllItems(batches, api);
    var index := IndexMap(videos);
    var r := AllStats(videos, index, batches, api);
    AllStatsItems(videos, index, batches, api);
    ApplyStatsLastWins(videos, index, items);
    if r.Ok? {
      assert forall i :: 0 <= i < |items| ==> items[i].id in index;
      forall j | 0 <= j < |items| && (forall i :: j < i < |items| ==> items[i].id != items[j].id)
        ensures items[j].id in index && r.value[index[items[j].id]] == WithStats(videos[index[items[j].id]], items[j].statistics)
      {
        forall i | j < i < |items| ensures index[items[i].id] != index[items[j].id] {
          IndexMapDistinct(videos, items[i].id, items[j].id);
        }
      }
    }
  }

  /** Different ids are kept at different positions. */
  lemma IndexMapDistinct(videos: seq<Video>, a: string, b: string)
    requires a in IndexMap(videos) && b in IndexMap(videos) && a != b
    ensures IndexMap(videos)[a] != IndexMap(videos)[b]
  {
  }

  /** One pass of the batch loop. */
  method ApplyStatsLoop(videos: seq<Video>, index: map<string, nat>, items: seq<StatsItem>) returns (r: Result<seq<Video>, string>)
    requires IndexFits(index, |videos|)
    ensures r == ApplyStats(videos, index, items)
  {
    var current := videos;
    var i := 0;
    while i < |items|
      invariant 0 <= i <= |items|
      invariant |current| == |videos|
      invariant ApplyStats(current, index, items[i..]) == ApplyStats(videos, index, items)
    {
      var id := items[i].id;
      assert items[i..][0] == items[i] && items[i..][1..] == items[i + 1..];
      if id !in index {
        return Err(id);
      }
      var k := index[id];
      current := current[k := WithStats(current[k], items[i].statistics)];
      i := i + 1;
    }
    return Ok(current);
  }

  /** `for i in range(0, len(all_ids), 50)`: one statistics request per
      batch, in order. */
  method FetchStatistics(videos: seq<Video>, index: map<string, nat>, allIds: seq<string>, api: StatsApi)
    returns (r: Result<seq<Video>, string>, requested: seq<seq<string>>)
    requires IndexFits(index, |videos|)
    ensures r == AllStats(videos, index, Batches(allIds), api)
    ensures r.Ok? ==> requested == Batches(allIds)
  {
    var current := videos;
    requested := [];
    var i := 0;
    while i < |allIds|
      invariant 0 <= i <= |allIds|
      invariant |current| == |videos|
      invariant requested + Batches(allIds[i..]) == Batches(allIds)
      invariant AllStats(current, index, Batches(allIds[i..]), api) == AllStats(videos, index, Batches(allIds), api)
      decreases |allIds| - i
    {
      var end := if i + 50 < |allIds| then i + 50 else |allIds|;
      var batch := allIds[i..end];
      BatchesStep(allIds, i, end);
      var applied := ApplyStatsLoop(current, index, api(batch));
      if applied.Err? {
        return Err(applied.error), requested + [batch];
      }
      current := applied.value;
      requested := requested + [batch];
      i := end;
    }
    assert allIds[i..] == [];
    assert requested + [] == requested;
    return Ok(current), requested;
  }

  lemma BatchesStep(ids: seq<string>, i: nat, end: nat)
    requires i < |ids| && end == (if i + 50 < |ids| then i + 50 else |ids|)
    ensures Batches(ids[i..]) == [ids[i..end]] + Batches(ids[end..])
  {
    var t := ids[i..];
    if |t| > 50 {
      assert t[..50] == ids[i..end] && t[50..] == ids[end..];
    } else {
      assert t == ids[i..end] && ids[end..] == [];
    }
  }

  /** The ranking key: `(viewCount, likeCount, commentCount)`, a missing
      count being 0. */
  function VideoKey(v: Video): seq<int>
  {
    [v.viewCount.GetOr(0), v.likeCount.GetOr(0), v.commentCount.GetOr(0)]
  }

  /** The videos with every publication time normalized, or the
      ValueError of the first one `normalize_timestamp` rejects. */
  function NormalizedVideos(videos: seq<Video>, normalize: Normalizer): (r: Result<seq<Video>, string>)
    ensures r.Ok? <==> forall i :: 0 <= i < |videos| ==> normalize(videos[i].publishedAt).Some?
    ensures r.Ok? ==> |r.value| == |videos|
    ensures r.Ok? ==>
      forall i :: 0 <= i < |videos| ==> r.value[i] == videos[i].(publishedAt := normalize(videos[i].publishedAt).value)
    ensures r.Err? ==> normalize(r.error).None?
    decreases |videos|
  {
    if videos == [] then Ok([])
    else
      match (normalize(videos[0].publishedAt), NormalizedVideos(videos[1..], normalize))
      case (None, _) => Err(videos[0].publishedAt)
      case (Some(_), Err(e)) => Err(e)
      case (Some(t), Ok(rest)) =>
        assert forall i :: 1 <= i < |videos| ==> videos[1..][i - 1] == videos[i];
        Ok([videos[0].(publishedAt := t)] + rest)
  }

  /** The loop raises on the first publication time it cannot parse. */
  lemma {:induction false} NormalizedVideosRejects(videos: seq<Video>, normalize: Normalizer, i: nat)
    requires i < |videos| && normalize(videos[i].publishedAt).None?
    requires forall k :: 0 <= k < i ==> normalize(videos[k].publishedAt).Some?
    ensures NormalizedVideos(videos, normalize) == Err(videos[i].publishedAt)
  {
    if i > 0 {
      assert forall k :: 0 <= k < i - 1 ==> videos[1..][k] == videos[k + 1];
      NormalizedVideosRejects(videos[1..], normalize, i - 1);
    }
  }

  /** Normalizing the publication times keeps the ranking. */
  lemma NormalizedVideosRanked(videos: seq<Video>, normalize: Normalizer)
    requires SortedDesc(videos, VideoKey)
    ensures NormalizedVideos(videos, normalize).Ok? ==> SortedDesc(NormalizedVideos(videos, normalize).value, VideoKey)
  {
    if NormalizedVideos(videos, normalize).Ok? {
      var r := NormalizedVideos(videos, normalize).value;
      forall i, j | 0 <= i < j < |r| ensures LexGe(VideoKey(r[i]), VideoKey(r[j])) {
        assert VideoKey(r[i]) == VideoKey(videos[i]) && VideoKey(r[j]) == VideoKey(videos[j]);
      }
    }
  }

  /** The publication-time loop over the ranked videos, rewriting each
      record in turn until a time is rejected. */
  method NormalizeVideoTimestamps(videos: seq<Video>, normalize: Normalizer) returns (r: Result<seq<Video>, string>)
    ensures r == NormalizedVideos(videos, normalize)
  {
    var vs := videos;
    var i := 0;
    while i < |vs|
      invariant 0 <= i <= |vs| == |videos|
      invariant forall k :: 0 <= k < i ==>
        normalize(videos[k].publishedAt).Some? && vs[k] == videos[k].(publishedAt := normalize(videos[k].publishedAt).value)
      invariant forall k :: i <= k < |vs| ==> vs[k] == videos[k]
    {
      var t := normalize(vs[i].publishedAt);
      if t.None? {
        NormalizedVideosRejects(videos, normalize, i);
        return Err(vs[i].publishedAt);
      }
      vs := vs[i := vs[i].(publishedAt := t.value)];
      i := i + 1;
    }
    assert vs == NormalizedVideos(videos, normalize).value;
    r := Ok(vs);
  }

  /** What `get_youtube_videos` returns past its two guards. */
  function RankedVideos(ch: Channel, api: PlaylistApi, n: nat, stats: StatsApi, normalize: Normalizer): (r: YouTubeResult)
    requires ChainEnds(api, ch.uploads, None, n)
    ensures !r.YouTubeError?
    ensures r.YouTubeValueError? ==> normalize(r.timestamp).None?
    ensures r.YouTubeVideos? ==>
      |r.videos| == |PlaylistVideos(api, ch.uploads, None, n)| && SortedDesc(r.videos, VideoKey)
  {
    var videos := PlaylistVideos(api, ch.uploads, None, n);
    match AllStats(videos, IndexMap(videos), Batches(DistinctIds(videos)), stats)
    case Err(id) => YouTubeKeyError(id)
    case Ok(updated) =>
      var sorted := SortDesc(updated, VideoKey);
      NormalizedVideosRanked(sorted, normalize);
      match NormalizedVideos(sorted, normalize)
      case Err(ts) => YouTubeValueError(ts)
      case Ok(ranked) => YouTubeVideos(InfoOf(ch), ranked)
  }

  /** A playlist item without `publishedAt` is recorded with "", which
      `datetime.fromisoformat` rejects: such a playlist never yields the
      ranked videos, it ends in the KeyError of the statistics or in the
      ValueError of the timestamp loop. */
  lemma UndatedVideoFails(ch: Channel, api: PlaylistApi, n: nat, stats: StatsApi, normalize: Normalizer, j: nat)
    requires ChainEnds(api, ch.uploads, None, n)
    requires j < |PlaylistVideos(api, ch.uploads, None, n)| && PlaylistVideos(api, ch.uploads, None, n)[j].publishedAt == ""
    requires normalize("").None?
    ensures RankedVideos(ch, api, n, stats, normalize).YouTubeKeyError? ||
            RankedVideos(ch, api, n, stats, normalize).YouTubeValueError?
  {
    var videos := PlaylistVideos(api, ch.uploads, None, n);
    var index := IndexMap(videos);
    var batches := Batches(DistinctIds(videos));
    var all := AllStats(videos, index, batches, stats);
    if all.Ok? {
      AllStatsItems(videos, index, batches, stats);
      ApplyStatsEffect(videos, index, AllItems(batches, stats));
      assert SameUpload(all.value[j], videos[j]);
      RejectedSurvivesRanking(all.value, normalize, j);
    }
  }

  /** Ranking moves records but drops none: a rejected publication time is
      still met by the timestamp loop. */
  lemma RejectedSurvivesRanking(updated: seq<Video>, normalize: Normalizer, j: nat)
    requires j < |updated| && normalize(updated[j].publishedAt).None?
    ensures NormalizedVideos(SortDesc(updated, VideoKey), normalize).Err?
  {
    var sorted := SortDesc(updated, VideoKey);
    assert updated[j] in multiset(updated);
    assert updated[j] in multiset(sorted);
    var m :| 0 <= m < |sorted| && sorted[m] == updated[j];
    assert normalize(sorted[m].publishedAt).None?;
  }

  /** `get_youtube_videos`: the credential guard, then the channel guard,
      then the uploads, their statistics and the ranking by views, likes
      and comments. `valid` is whether the credentials are still valid;
      `refreshed` says whether they were refreshed, which the guard
      makes impossible. */
  method GetYouTubeVideos(creds: Credentials, valid: bool, channels: seq<Channel>, api: PlaylistApi, ghost n: nat,
                          stats: StatsApi, normalize: Normalizer)
    returns (r: YouTubeResult, refreshed: bool)
    requires channels != [] ==> ChainEnds(api, channels[0].uploads, None, n)
    ensures Refused(creds) ==> r == YouTubeError(NoContent)
    ensures !Refused(creds) && channels == [] ==> r == YouTubeError(NoChannel)
    ensures !Refused(creds) && channels != [] ==> r == RankedVideos(channels[0], api, n, stats, normalize)
    ensures !refreshed
  {
    refreshed := false;
    if !Truthy(creds.accessToken) || Truthy(creds.refreshToken) || Truthy(creds.clientId)
       || Truthy(creds.clientSecret) || Truthy(creds.tokenUri) {
      return YouTubeError(NoContent), refreshed;
    }
    if !valid && Truthy(creds.refreshToken) {
      refreshed := true;
    }
    if channels == [] {
      return YouTubeError(NoChannel), refreshed;
    }
    var ch := channels[0];
    var videos := FetchPlaylist(api, ch.uploads, n);
    var videoMap := IndexMap(videos);
    var allIds := DistinctIds(videos);
    var updated, _ := FetchStatistics(videos, videoMap, allIds, stats);
    if updated.Err? {
      return YouTubeKeyError(updated.error), refreshed;
    }
    var videosSorted := SortDesc(updated.value, VideoKey);
    var ranked := NormalizeVideoTimestamps(videosSorted, normalize);
    if ranked.Err? {
      return YouTubeValueError(ranked.error), refreshed;
    }
    r := YouTubeVideos(InfoOf(ch), ranked.value);
  }

  /** Fully configured credentials, with the refresh settings, are refused
      by the guard as written. */
  lemma CompleteCredentialsRefused(c: Credentials)
    requires Truthy(c.accessToken) && Truthy(c.refreshToken) && Truthy(c.clientId) && Truthy(c.clientSecret) && Truthy(c.tokenUri)
    ensures Refused(c)
  {
  }

  /** The ranked videos are the updated records, ordered by views, likes
      and comments from high to low, ties in playlist order. */
  lemma YouTubeRanking(updated: seq<Video>, k: seq<int>)
    ensures var ranked := SortDesc(updated, VideoKey);
      multiset(ranked) == multiset(updated) && SortedDesc(ranked, VideoKey) &&
      WithKey(ranked, VideoKey, k) == WithKey(updated, VideoKey, k)
  {
    SortDescStable(updated, VideoKey, k);
  }
}
