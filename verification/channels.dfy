/** Channels of one country and the rule that selects which of them the
    channel grid shows. */
module Channels {
  import opened Text

  /** One entry of a country's channel list. */
  datatype Channel = Channel(nanoid: string, name: string, iptvUrls: seq<string>, youtubeUrls: seq<string>)

  /** The category tabs of the channel browser. */
  datatype Filter = All | Iptv | YouTube

  /** The lower-cased channel name contains the (already lower-cased) term. */
  predicate MatchesSearch(ch: Channel, term: string) {
    Contains(Lower(ch.name), term)
  }

  predicate MatchesFilter(ch: Channel, filter: Filter) {
    match filter
    case All => true
    case Iptv => |ch.iptvUrls| > 0
    case YouTube => |ch.youtubeUrls| > 0
  }

  /** The callback given to `currentChannels.filter`. */
  predicate Keep(ch: Channel, term: string, filter: Filter) {
    MatchesSearch(ch, term) && MatchesFilter(ch, filter)
  }

  /** `Array.prototype.filter` with `Keep`. */
  function FilterChannels(chs: seq<Channel>, term: string, filter: Filter): (r: seq<Channel>)
    ensures |r| <= |chs|
    ensures forall c :: c in r <==> c in chs && Keep(c, term, filter)
  {
    if chs == [] then []
    else
      var rest := FilterChannels(chs[1..], term, filter);
      assert forall c :: c in chs <==> c == chs[0] || c in chs[1..];
      if Keep(chs[0], term, filter) then [chs[0]] + rest else rest
  }

  /** `r` is `s` with some elements dropped and the rest in their order. */
  predicate IsSubsequence<T(==)>(r: seq<T>, s: seq<T>)
    decreases |s|
  {
    r == [] || (s != [] && ((r[0] == s[0] && IsSubsequence(r[1..], s[1..])) || IsSubsequence(r, s[1..])))
  }

  /** Kept channels stay in their original relative order. */
  lemma {:induction false} FilterIsSubsequence(chs: seq<Channel>, term: string, filter: Filter)
    ensures IsSubsequence(FilterChannels(chs, term, filter), chs)
  {
    if chs != [] {
      FilterIsSubsequence(chs[1..], term, filter);
      var r := FilterChannels(chs, term, filter);
      if Keep(chs[0], term, filter) {
        assert r[0] == chs[0] && r[1..] == FilterChannels(chs[1..], term, filter);
      }
    }
  }

  /** Filtering a concatenation filters each part: the filter looks at one
      channel at a time. */
  lemma {:induction false} FilterConcat(a: seq<Channel>, b: seq<Channel>, term: string, filter: Filter)
    ensures FilterChannels(a + b, term, filter) == FilterChannels(a, term, filter) + FilterChannels(b, term, filter)
  {
    if a == [] {
      assert a + b == b;
    } else {
      assert (a + b)[0] == a[0] && (a + b)[1..] == a[1..] + b;
      FilterConcat(a[1..], b, term, filter);
    }
  }

  /** A list whose every channel passes is returned unchanged. */
  lemma {:induction false} FilterKeepsAllPassing(chs: seq<Channel>, term: string, filter: Filter)
    requires forall c :: c in chs ==> Keep(c, term, filter)
    ensures FilterChannels(chs, term, filter) == chs
  {
    if chs != [] {
      assert chs[0] in chs;
      assert forall c :: c in chs[1..] ==> c in chs;
      FilterKeepsAllPassing(chs[1..], term, filter);
      assert [chs[0]] + chs[1..] == chs;
    }
  }

  /** With an empty search term and the `all` tab every channel is shown. */
  lemma {:induction false} ShowAllOnReset(chs: seq<Channel>)
    ensures FilterChannels(chs, "", All) == chs
  {
    forall c | c in chs ensures Keep(c, "", All) {
      ContainsEmpty(Lower(c.name));
    }
    FilterKeepsAllPassing(chs, "", All);
  }

  /** Filtering twice with the same term and tab changes nothing more. */
  lemma {:induction false} FilterIdempotent(chs: seq<Channel>, term: string, filter: Filter)
    ensures FilterChannels(FilterChannels(chs, term, filter), term, filter) == FilterChannels(chs, term, filter)
  {
    FilterKeepsAllPassing(FilterChannels(chs, term, filter), term, filter);
  }
}
