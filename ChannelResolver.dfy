/**
 * `resolve_channel_id`: fetch a channel page and find the first
 * `"channelId":"UC` + 22 characters of `[0-9A-Za-z_-]` + `"` in its text.
 * The HTTP request is a parameter: `fetch(url)` is `None` when the request raises,
 * otherwise the response's status code and text.
 */
module ChannelResolver {
  import opened Wrappers
  import Seqs

  datatype Page = Page(status: int, text: string)

  datatype ResolveError =
    | RequestFailed(url: string)     // requests.get raised
    | PageNotOk(url: string)         // status code other than 200
    | IdNotFound(url: string)        // no match in the page text

  /** The literal text before the captured group. */
  const Marker: string := "\"channelId\":\""

  const IdLength: nat := 24

  /** Marker, identifier and the closing quote. */
  const MatchLength: nat := |Marker| + IdLength + 1

  predicate IsIdChar(c: char)
  {
    ('0' <= c <= '9') || ('A' <= c <= 'Z') || ('a' <= c <= 'z') || c == '_' || c == '-'
  }

  /** What the group `UC[0-9A-Za-z_-]{22}` matches. */
  predicate IsChannelId(id: string)
  {
    |id| == IdLength && id[0] == 'U' && id[1] == 'C' && forall i :: 2 <= i < |id| ==> IsIdChar(id[i])
  }

  /** The whole pattern matches at position `k` of `text`. */
  predicate MatchesAt(text: string, k: int)
  {
    0 <= k && k + MatchLength <= |text|
    && text[k..k + |Marker|] == Marker
    && IsChannelId(text[k + |Marker|..k + |Marker| + IdLength])
    && text[k + |Marker| + IdLength] == '"'
  }

  /** The leftmost position at or after `from` where the pattern matches, as `re.search` scans. */
  function FindMatch(text: string, from: nat): (r: Option<nat>)
    ensures r.Some? ==> from <= r.value && MatchesAt(text, r.value)
    ensures r.Some? ==> forall k :: from <= k < r.value ==> !MatchesAt(text, k)
    ensures r.None? ==> forall k :: from <= k ==> !MatchesAt(text, k)
    decreases |text| - from
  {
    if from + MatchLength > |text| then None
    else if MatchesAt(text, from) then Some(from)
    else FindMatch(text, from + 1)
  }

  /** The captured identifier of a match at `k`. */
  function IdAt(text: string, k: int): string
    requires MatchesAt(text, k)
  {
    text[k + |Marker|..k + |Marker| + IdLength]
  }

  /**
   * A failed request or a status other than 200 fails before any scan; otherwise the
   * identifier captured by the leftmost match, or IdNotFound when there is none.
   */
  function ResolveChannelId(fetch: string -> Option<Page>, url: string): (r: Result<string, ResolveError>)
    ensures fetch(url).None? ==> r == Failure(RequestFailed(url))
    ensures fetch(url).Some? && fetch(url).value.status != 200 ==> r == Failure(PageNotOk(url))
    ensures fetch(url).Some? && fetch(url).value.status == 200 ==>
      (r.Success? <==> exists k :: MatchesAt(fetch(url).value.text, k))
    ensures fetch(url).Some? && fetch(url).value.status == 200 && r.Failure? ==> r.error == IdNotFound(url)
    ensures r.Success? ==> fetch(url).Some? && fetch(url).value.status == 200 && IsChannelId(r.value)
    ensures r.Success? ==>
      var text := fetch(url).value.text;
      exists k :: MatchesAt(text, k) && r.value == IdAt(text, k) && forall j :: 0 <= j < k ==> !MatchesAt(text, j)
  {
    match fetch(url)
    case None => Failure(RequestFailed(url))
    case Some(page) =>
      if page.status != 200 then Failure(PageNotOk(url))
      else
        match FindMatch(page.text, 0)
        case None => Failure(IdNotFound(url))
        case Some(k) => Success(IdAt(page.text, k))
  }

  /** A page whose text is exactly one match yields that match's identifier. */
  lemma ResolveSingleMatch(fetch: string -> Option<Page>, url: string, id: string)
    requires IsChannelId(id) && fetch(url) == Some(Page(200, Marker + id + "\""))
    ensures ResolveChannelId(fetch, url) == Success(id)
  {
    var text := Marker + id + "\"";
    Seqs.ConcatSlices(Marker, id, "\"");
    assert text[|Marker| + IdLength] == '"';
    assert MatchesAt(text, 0);
    assert FindMatch(text, 0) == Some(0);
  }

  /** An identifier of the channel-id form. */
  lemma ExampleIsChannelId()
    ensures IsChannelId("UCabcdefghijklmnopqrstuv")
  {
    var id := "UCabcdefghijklmnopqrstuv";
    assert |id| == IdLength;
    forall i | 2 <= i < |id| ensures IsIdChar(id[i]) {
      assert 'a' <= id[i] <= 'v';
    }
  }
}
