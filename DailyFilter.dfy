/**
 * `get_today_videos`: resolve the channel, read its feed and keep, in feed order, the
 * entries whose publication date is today. One malformed timestamp makes the whole call
 * fail, so no partial list is ever returned.
 * The feed parser is a parameter: `fetchFeed(feedUrl)` is the (possibly empty) entry list
 * it produces; it never fails.
 */
module DailyFilter {
  import opened Wrappers
  import opened Timestamps
  import ChannelResolver

  datatype FeedEntry = FeedEntry(title: string, link: string, published: string)

  /** The dictionary `{'title', 'url', 'published'}` built for a kept entry. */
  datatype VideoRecord = VideoRecord(title: string, url: string, published: string)

  datatype ChannelError =
    | Unresolved(reason: ChannelResolver.ResolveError)
    | MalformedTimestamp(published: string)

  function Record(e: FeedEntry): VideoRecord
  {
    VideoRecord(e.title, e.link, e.published)
  }

  function FeedUrl(channelId: string): string
  {
    "https://www.youtube.com/feeds/videos.xml?channel_id=" + channelId
  }

  predicate IsMalformed(e: FeedEntry)
  {
    ParseTimestamp(e.published).None?
  }

  predicate IsFrom(e: FeedEntry, today: Date)
  {
    ParseTimestamp(e.published) == Some(today)
  }

  /**
   * The outcome of the loop over `entries[i..]`: at most one record per entry, or an error
   * naming a timestamp that does not parse.
   */
  function FilterFrom(entries: seq<FeedEntry>, today: Date, i: nat): (r: Result<seq<VideoRecord>, ChannelError>)
    ensures r.Success? && i <= |entries| ==> |r.value| <= |entries| - i
    ensures r.Failure? ==> r.error.MalformedTimestamp? && ParseTimestamp(r.error.published).None?
    decreases |entries| - i
  {
    if i >= |entries| then Success([])
    else if IsMalformed(entries[i]) then Failure(MalformedTimestamp(entries[i].published))
    else
      match FilterFrom(entries, today, i + 1)
      case Failure(e) => Failure(e)
      case Success(rest) => Success(if IsFrom(entries[i], today) then [Record(entries[i])] + rest else rest)
  }

  function FilterToday(entries: seq<FeedEntry>, today: Date): Result<seq<VideoRecord>, ChannelError>
  {
    FilterFrom(entries, today, 0)
  }

  /**
   * The whole of `get_today_videos`, with the page fetch, the feed and today's UTC date as
   * parameters: a resolver error is passed on, and otherwise the feed of the resolved
   * channel is filtered, so every video returned is dated today.
   */
  function TodayVideos(fetchPage: string -> Option<ChannelResolver.Page>, fetchFeed: string -> seq<FeedEntry>,
                       today: Date, channelUrl: string): (r: Result<seq<VideoRecord>, ChannelError>)
    ensures ChannelResolver.ResolveChannelId(fetchPage, channelUrl).Failure? ==>
      r == Failure(Unresolved(ChannelResolver.ResolveChannelId(fetchPage, channelUrl).error))
    ensures ChannelResolver.ResolveChannelId(fetchPage, channelUrl).Success? ==>
      r == FilterToday(fetchFeed(FeedUrl(ChannelResolver.ResolveChannelId(fetchPage, channelUrl).value)), today)
    ensures r.Success? ==> forall k :: 0 <= k < |r.value| ==> ParseTimestamp(r.value[k].published) == Some(today)
  {
    match ChannelResolver.ResolveChannelId(fetchPage, channelUrl)
    case Failure(e) => Failure(Unresolved(e))
    case Success(id) =>
      FilterFromDated(fetchFeed(FeedUrl(id)), today, 0);
      FilterToday(fetchFeed(FeedUrl(id)), today)
  }

  /** Every record the loop keeps carries a timestamp dated today. */
  lemma {:induction false} FilterFromDated(entries: seq<FeedEntry>, today: Date, i: nat)
    ensures FilterFrom(entries, today, i).Success? ==>
      forall k :: 0 <= k < |FilterFrom(entries, today, i).value| ==>
        ParseTimestamp(FilterFrom(entries, today, i).value[k].published) == Some(today)
    decreases |entries| - i
  {
    if i < |entries| && !IsMalformed(entries[i]) {
      FilterFromDated(entries, today, i + 1);
      var rest := FilterFrom(entries, today, i + 1);
      if rest.Success? && IsFrom(entries[i], today) {
        var r := FilterFrom(entries, today, i).value;
        assert r == [Record(entries[i])] + rest.value;
        forall k | 0 <= k < |r| ensures ParseTimestamp(r[k].published) == Some(today) {
          if k > 0 { assert r[k] == rest.value[k - 1]; }
        }
      }
    }
  }

  /** `acc` followed by the outcome of the rest of the loop. */
  function Prepend(acc: seq<VideoRecord>, r: Result<seq<VideoRecord>, ChannelError>): Result<seq<VideoRecord>, ChannelError>
  {
    match r
    case Success(vs) => Success(acc + vs)
    case Failure(e) => Failure(e)
  }

  lemma PrependNothing(r: Result<seq<VideoRecord>, ChannelError>)
    ensures Prepend([], r) == r
  {
    if r.Success? {
      assert [] + r.value == r.value;
    }
  }

  /** One well-formed entry moves from the rest of the loop into the accumulated list. */
  lemma PrependStep(entries: seq<FeedEntry>, today: Date, i: nat, acc: seq<VideoRecord>)
    requires i < |entries| && !IsMalformed(entries[i])
    ensures Prepend(acc, FilterFrom(entries, today, i))
         == Prepend(acc + (if IsFrom(entries[i], today) then [Record(entries[i])] else []), FilterFrom(entries, today, i + 1))
  {
    var kept: seq<VideoRecord> := if IsFrom(entries[i], today) then [Record(entries[i])] else [];
    var rest := FilterFrom(entries, today, i + 1);
    if rest.Success? {
      if IsFrom(entries[i], today) {
        assert FilterFrom(entries, today, i) == Success(kept + rest.value);
      } else {
        assert kept + rest.value == rest.value;
      }
      assert acc + (kept + rest.value) == (acc + kept) + rest.value;
    }
  }

  method GetTodayVideos(fetchPage: string -> Option<ChannelResolver.Page>, fetchFeed: string -> seq<FeedEntry>,
                        today: Date, channelUrl: string)
    returns (r: Result<seq<VideoRecord>, ChannelError>)
    ensures r == TodayVideos(fetchPage, fetchFeed, today, channelUrl)
  {
    var id := ChannelResolver.ResolveChannelId(fetchPage, channelUrl);
    if id.Failure? {
      return Failure(Unresolved(id.error));
    }
    var entries := fetchFeed(FeedUrl(id.value));
    var todayVideos: seq<VideoRecord> := [];
    PrependNothing(FilterToday(entries, today));
    for i := 0 to |entries|
      invariant FilterToday(entries, today) == Prepend(todayVideos, FilterFrom(entries, today, i))
    {
      var published := ParseTimestamp(entries[i].published);
      if published.None? {
        return Failure(MalformedTimestamp(entries[i].published));
      }
      PrependStep(entries, today, i, todayVideos);
      if published.value == today {
        todayVideos := todayVideos + [Record(entries[i])];
      } else {
        assert todayVideos + [] == todayVideos;
      }
    }
    assert todayVideos + [] == todayVideos;
    return Success(todayVideos);
  }

  // ---------------------------------------------------------------------------------
  // What the filter keeps

  /** Positions `i..` of the entries published today, in increasing order. */
  ghost function TodayIndicesFrom(entries: seq<FeedEntry>, today: Date, i: nat): seq<nat>
    decreases |entries| - i
  {
    if i >= |entries| then []
    else (if IsFrom(entries[i], today) then [i] else []) + TodayIndicesFrom(entries, today, i + 1)
  }

  lemma {:induction false} TodayIndicesBounded(entries: seq<FeedEntry>, today: Date, i: nat)
    ensures forall k :: 0 <= k < |TodayIndicesFrom(entries, today, i)| ==>
      i <= TodayIndicesFrom(entries, today, i)[k] < |entries|
    decreases |entries| - i
  {
    if i < |entries| {
      TodayIndicesBounded(entries, today, i + 1);
      var head: seq<nat> := if IsFrom(entries[i], today) then [i] else [];
      var tail := TodayIndicesFrom(entries, today, i + 1);
      var idx := head + tail;
      assert forall k :: 0 <= k < |tail| ==> i + 1 <= tail[k] < |entries|;
      assert idx == TodayIndicesFrom(entries, today, i);
      forall k | 0 <= k < |idx| ensures i <= idx[k] < |entries| {
        if k >= |head| {
          assert idx[k] == tail[k - |head|];
          assert i + 1 <= tail[k - |head|] < |entries|;
        } else {
          assert idx[k] == head[k] == i;
        }
      }
    }
  }

  lemma {:induction false} TodayIndicesIncreasing(entries: seq<FeedEntry>, today: Date, i: nat)
    ensures forall k, l :: 0 <= k < l < |TodayIndicesFrom(entries, today, i)| ==>
      TodayIndicesFrom(entries, today, i)[k] < TodayIndicesFrom(entries, today, i)[l]
    decreases |entries| - i
  {
    if i < |entries| {
      TodayIndicesIncreasing(entries, today, i + 1);
      TodayIndicesBounded(entries, today, i + 1);
      var head: seq<nat> := if IsFrom(entries[i], today) then [i] else [];
      var tail := TodayIndicesFrom(entries, today, i + 1);
      var idx := head + tail;
      assert idx == TodayIndicesFrom(entries, today, i);
      forall k, l | 0 <= k < l < |idx| ensures idx[k] < idx[l] {
        assert idx[l] == tail[l - |head|];
        if k >= |head| { assert idx[k] == tail[k - |head|]; } else { assert idx[k] == head[k] == i; }
      }
    }
  }

  lemma {:induction false} TodayIndicesMembers(entries: seq<FeedEntry>, today: Date, i: nat)
    ensures forall j :: i <= j < |entries| ==> (j in TodayIndicesFrom(entries, today, i) <==> IsFrom(entries[j], today))
    decreases |entries| - i
  {
    if i < |entries| {
      TodayIndicesMembers(entries, today, i + 1);
      TodayIndicesBounded(entries, today, i + 1);
      var head: seq<nat> := if IsFrom(entries[i], today) then [i] else [];
      var tail := TodayIndicesFrom(entries, today, i + 1);
      var idx := head + tail;
      assert idx == TodayIndicesFrom(entries, today, i);
      forall j | i <= j < |entries| ensures (j in idx <==> IsFrom(entries[j], today)) {
        assert j in idx <==> j in head || j in tail;
      }
    }
  }

  lemma TodayIndicesFromSpec(entries: seq<FeedEntry>, today: Date, i: nat)
    ensures var idx := TodayIndicesFrom(entries, today, i);
      (forall k :: 0 <= k < |idx| ==> i <= idx[k] < |entries|)
      && (forall k, l :: 0 <= k < l < |idx| ==> idx[k] < idx[l])
      && (forall j :: i <= j < |entries| ==> (j in idx <==> IsFrom(entries[j], today)))
  {
    TodayIndicesBounded(entries, today, i);
    TodayIndicesIncreasing(entries, today, i);
    TodayIndicesMembers(entries, today, i);
  }

  lemma {:induction false} FilterFromSelects(entries: seq<FeedEntry>, today: Date, i: nat)
    requires FilterFrom(entries, today, i).Success?
    ensures var vs, idx := FilterFrom(entries, today, i).value, TodayIndicesFrom(entries, today, i);
      |vs| == |idx| && forall k :: 0 <= k < |idx| ==> 0 <= idx[k] < |entries| && vs[k] == Record(entries[idx[k]])
    decreases |entries| - i
  {
    if i < |entries| {
      FilterFromSelects(entries, today, i + 1);
      TodayIndicesBounded(entries, today, i + 1);
      var rest, tail := FilterFrom(entries, today, i + 1).value, TodayIndicesFrom(entries, today, i + 1);
      if IsFrom(entries[i], today) {
        var vs, idx := [Record(entries[i])] + rest, [i] + tail;
        assert FilterFrom(entries, today, i).value == vs;
        assert TodayIndicesFrom(entries, today, i) == idx;
        forall k | 0 <= k < |idx| ensures 0 <= idx[k] < |entries| && vs[k] == Record(entries[idx[k]]) {
          if k > 0 {
            assert idx[k] == tail[k - 1] && vs[k] == rest[k - 1];
          }
        }
      } else {
        assert FilterFrom(entries, today, i).value == rest;
        assert TodayIndicesFrom(entries, today, i) == tail;
      }
    }
  }

  /**
   * A successful filter returns exactly the records of the entries dated today, in feed
   * order, each copying the entry's title, link and published text.
   */
  lemma KeepsExactlyToday(entries: seq<FeedEntry>, today: Date)
    requires FilterToday(entries, today).Success?
    ensures var vs, idx := FilterToday(entries, today).value, TodayIndicesFrom(entries, today, 0);
      |vs| == |idx|
      && (forall k :: 0 <= k < |idx| ==> 0 <= idx[k] < |entries| && vs[k] == Record(entries[idx[k]]))
      && (forall k, l :: 0 <= k < l < |idx| ==> idx[k] < idx[l])
      && (forall j :: 0 <= j < |entries| ==> (j in idx <==> IsFrom(entries[j], today)))
  {
    FilterFromSelects(entries, today, 0);
    TodayIndicesFromSpec(entries, today, 0);
  }

  lemma {:induction false} FilterFromFails(entries: seq<FeedEntry>, today: Date, i: nat)
    ensures FilterFrom(entries, today, i).Failure? <==> exists j :: i <= j < |entries| && IsMalformed(entries[j])
    ensures FilterFrom(entries, today, i).Failure? ==>
      exists j :: i <= j < |entries| && IsMalformed(entries[j])
        && (forall l :: i <= l < j ==> !IsMalformed(entries[l]))
        && FilterFrom(entries, today, i).error == MalformedTimestamp(entries[j].published)
    decreases |entries| - i
  {
    if i < |entries| {
      FilterFromFails(entries, today, i + 1);
      if IsMalformed(entries[i]) {
        assert FilterFrom(entries, today, i) == Failure(MalformedTimestamp(entries[i].published));
      } else {
        var rest := FilterFrom(entries, today, i + 1);
        assert FilterFrom(entries, today, i).Failure? <==> rest.Failure?;
        if j :| i <= j < |entries| && IsMalformed(entries[j]) {
          assert i + 1 <= j;
        }
        if rest.Failure? {
          assert FilterFrom(entries, today, i) == rest;
          var j :| i + 1 <= j < |entries| && IsMalformed(entries[j])
            && (forall l :: i + 1 <= l < j ==> !IsMalformed(entries[l]))
            && rest.error == MalformedTimestamp(entries[j].published);
          assert forall l :: i <= l < j ==> !IsMalformed(entries[l]);
        }
      }
    }
  }

  /**
   * The filter fails exactly when some entry's timestamp is malformed, and then with the
   * first malformed timestamp in feed order.
   */
  lemma FailsOnMalformed(entries: seq<FeedEntry>, today: Date)
    ensures FilterToday(entries, today).Failure? <==> exists j :: 0 <= j < |entries| && IsMalformed(entries[j])
    ensures FilterToday(entries, today).Failure? ==>
      exists j :: 0 <= j < |entries| && IsMalformed(entries[j])
        && (forall l :: 0 <= l < j ==> !IsMalformed(entries[l]))
        && FilterToday(entries, today).error == MalformedTimestamp(entries[j].published)
  {
    FilterFromFails(entries, today, 0);
  }

  /** For a well-formed timestamp, "dated today" means its `YYYY-MM-DD` part spells today's date. */
  lemma TodayByDatePart(e: FeedEntry, today: Date)
    requires !IsMalformed(e) && ValidDate(today)
    ensures IsFrom(e, today) <==> e.published[..10] == FormatDate(today)
  {
    DateAsWritten(e.published);
    if e.published[..10] == FormatDate(today) {
      FormatDateInjective(ParseTimestamp(e.published).value, today);
    }
  }
}
