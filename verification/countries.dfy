/** The country metadata document and the rules of the country picker:
    which countries it lists, in what order, and which items a search
    leaves visible. */
module Countries {
  import opened Text
  import opened Wrappers

  datatype CountryMeta = CountryMeta(country: string, capital: string, hasChannels: bool)

  /** One `[code, data]` pair of `Object.entries` over the metadata document. */
  datatype CountryEntry = CountryEntry(code: string, meta: CountryMeta)

  /** A parsed JSON object never repeats a key. */
  predicate UniqueCodes(entries: seq<CountryEntry>) {
    forall i, j :: 0 <= i < j < |entries| ==> entries[i].code != entries[j].code
  }

  /** `countriesData[code]`: the entry filed under `code`, if any. */
  function LookupCode(entries: seq<CountryEntry>, code: string): (r: Option<CountryEntry>)
    ensures r.None? <==> forall e :: e in entries ==> e.code != code
    ensures r.Some? ==> r.value in entries && r.value.code == code
  {
    if entries == [] then None
    else if entries[0].code == code then Some(entries[0])
    else
      assert forall e :: e in entries <==> e == entries[0] || e in entries[1..];
      LookupCode(entries[1..], code)
  }

  /** The `.filter(([_, data]) => data.hasChannels)` step. */
  function WithChannels(entries: seq<CountryEntry>): (r: seq<CountryEntry>)
    ensures forall e :: e in r <==> e in entries && e.meta.hasChannels
  {
    if entries == [] then []
    else
      assert forall e :: e in entries <==> e == entries[0] || e in entries[1..];
      (if entries[0].meta.hasChannels then [entries[0]] else []) + WithChannels(entries[1..])
  }

  /** Lexicographic order on names, standing in for `localeCompare`. */
  predicate NameLe(a: string, b: string)
    decreases |a|
  {
    a == [] || (b != [] && (a[0] < b[0] || (a[0] == b[0] && NameLe(a[1..], b[1..]))))
  }

  lemma {:induction false} NameLeTotal(a: string, b: string)
    ensures NameLe(a, b) || NameLe(b, a)
    decreases |a|
  {
    if a != [] && b != [] && a[0] == b[0] {
      NameLeTotal(a[1..], b[1..]);
    }
  }

  lemma {:induction false} NameLeTransitive(a: string, b: string, c: string)
    requires NameLe(a, b) && NameLe(b, c)
    ensures NameLe(a, c)
    decreases |a|
  {
    if a != [] && a[0] == b[0] && b[0] == c[0] {
      NameLeTransitive(a[1..], b[1..], c[1..]);
    }
  }

  predicate SortedByName(s: seq<CountryEntry>) {
    forall i, j :: 0 <= i < j < |s| ==> NameLe(s[i].meta.country, s[j].meta.country)
  }

  /** Place `e` before the first entry whose name it does not exceed. */
  function InsertByName(e: CountryEntry, s: seq<CountryEntry>): (r: seq<CountryEntry>)
    requires SortedByName(s)
    ensures SortedByName(r)
    ensures multiset(r) == multiset(s) + multiset{e}
  {
    if s == [] then [e]
    else if NameLe(e.meta.country, s[0].meta.country) then
      forall j | 0 <= j < |s| ensures NameLe(e.meta.country, s[j].meta.country) {
        if j > 0 { NameLeTransitive(e.meta.country, s[0].meta.country, s[j].meta.country); }
      }
      [e] + s
    else
      NameLeTotal(e.meta.country, s[0].meta.country);
      var tail := InsertByName(e, s[1..]);
      assert s == [s[0]] + s[1..];
      forall x | x in tail ensures NameLe(s[0].meta.country, x.meta.country) {
        assert x in multiset(tail);
        if x != e {
          assert x in multiset(s[1..]);
          var j :| 0 <= j < |s[1..]| && s[1..][j] == x;
          assert s[j + 1] == x;
        }
      }
      [s[0]] + tail
  }

  /** The `.sort(...)` step, as a stable insertion sort. */
  function SortByName(s: seq<CountryEntry>): (r: seq<CountryEntry>)
    ensures SortedByName(r)
    ensures multiset(r) == multiset(s)
  {
    if s == [] then []
    else
      assert s == [s[0]] + s[1..];
      InsertByName(s[0], SortByName(s[1..]))
  }

  /** The entries `populateCountryGrid` lists, in grid order. */
  function CountryGridEntries(entries: seq<CountryEntry>): (r: seq<CountryEntry>)
    ensures SortedByName(r)
    ensures multiset(r) == multiset(WithChannels(entries))
    ensures forall e :: e in r <==> e in entries && e.meta.hasChannels
  {
    var r := SortByName(WithChannels(entries));
    assert forall e :: e in r <==> e in multiset(r);
    assert forall e :: e in WithChannels(entries) <==> e in multiset(WithChannels(entries));
    r
  }

  lemma {:induction false} WithChannelsKeepsUnique(entries: seq<CountryEntry>)
    requires UniqueCodes(entries)
    ensures UniqueCodes(WithChannels(entries))
  {
    if entries != [] {
      WithChannelsKeepsUnique(entries[1..]);
      forall e | e in WithChannels(entries[1..]) ensures e.code != entries[0].code {
        var j :| 0 <= j < |entries[1..]| && entries[1..][j] == e;
        assert entries[j + 1] == e;
      }
    }
  }

  lemma {:induction false} InsertKeepsUnique(e: CountryEntry, s: seq<CountryEntry>)
    requires SortedByName(s) && UniqueCodes(s)
    requires forall x :: x in s ==> x.code != e.code
    ensures UniqueCodes(InsertByName(e, s))
  {
    if s != [] && !NameLe(e.meta.country, s[0].meta.country) {
      assert forall x :: x in s[1..] ==> x in s;
      InsertKeepsUnique(e, s[1..]);
      var tail := InsertByName(e, s[1..]);
      forall x | x in tail ensures x.code != s[0].code {
        assert x in multiset(tail);
        if x != e {
          assert x in multiset(s[1..]);
          var j :| 0 <= j < |s[1..]| && s[1..][j] == x;
          assert s[j + 1] == x;
        } else {
          assert s[0] in s;
        }
      }
    }
  }

  lemma {:induction false} SortKeepsUnique(s: seq<CountryEntry>)
    requires UniqueCodes(s)
    ensures UniqueCodes(SortByName(s))
  {
    if s != [] {
      SortKeepsUnique(s[1..]);
      var sorted := SortByName(s[1..]);
      forall x | x in sorted ensures x.code != s[0].code {
        assert x in multiset(sorted);
        assert x in multiset(s[1..]);
        var j :| 0 <= j < |s[1..]| && s[1..][j] == x;
        assert s[j + 1] == x;
      }
      InsertKeepsUnique(s[0], sorted);
    }
  }

  /** Each country appears in the grid at most once. */
  lemma GridListsEachCountryOnce(entries: seq<CountryEntry>)
    requires UniqueCodes(entries)
    ensures UniqueCodes(CountryGridEntries(entries))
  {
    WithChannelsKeepsUnique(entries);
    SortKeepsUnique(WithChannels(entries));
  }

  /** A rendered `.country-item`: its `data-code` and its text content. */
  datatype CountryItem = CountryItem(code: string, text: string)

  /** The text content of an item holds the country name and the capital. */
  function ItemOf(e: CountryEntry): CountryItem {
    CountryItem(e.code, e.meta.country + "\n" + e.meta.capital)
  }

  function ItemsOf(entries: seq<CountryEntry>): (items: seq<CountryItem>)
    ensures |items| == |entries|
    ensures forall i :: 0 <= i < |entries| ==> items[i] == ItemOf(entries[i])
  {
    seq(|entries|, i requires 0 <= i < |entries| => ItemOf(entries[i]))
  }

  /** The picker lists one item per country with channels and none other,
      and no two items carry the same `data-code`, so a click on an item
      selects exactly one country. */
  lemma {:induction false} GridItemsIdentifyCountries(entries: seq<CountryEntry>)
    requires UniqueCodes(entries)
    ensures var items := ItemsOf(CountryGridEntries(entries));
            && (forall i, j :: 0 <= i < j < |items| ==> items[i].code != items[j].code)
            && (forall it :: it in items ==> exists e :: e in entries && e.meta.hasChannels && it == ItemOf(e))
            && (forall e :: e in entries && e.meta.hasChannels ==> ItemOf(e) in items)
  {
    var grid := CountryGridEntries(entries);
    var items := ItemsOf(grid);
    GridListsEachCountryOnce(entries);
    forall it | it in items ensures exists e :: e in entries && e.meta.hasChannels && it == ItemOf(e) {
      var k :| 0 <= k < |items| && items[k] == it;
      assert grid[k] in grid;
    }
    forall e | e in entries && e.meta.hasChannels ensures ItemOf(e) in items {
      var k :| 0 <= k < |grid| && grid[k] == e;
      assert items[k] == ItemOf(e);
    }
  }

  /** The match rule of `handleCountrySearch` for an already lower-cased term. */
  predicate ItemMatches(item: CountryItem, term: string) {
    Contains(Lower(item.text), term) || Contains(Lower(item.code), term)
  }

  /** An empty search term matches every item. */
  lemma EmptyTermMatches(item: CountryItem)
    ensures ItemMatches(item, "")
  {
    ContainsEmpty(Lower(item.text));
  }

  /** A country's item matches a term that occurs in its lower-cased name. */
  lemma {:induction false} NameTermMatches(e: CountryEntry, term: string, i: int)
    requires OccursAt(Lower(e.meta.country), term, i)
    ensures ItemMatches(ItemOf(e), term)
  {
    var text := e.meta.country + "\n" + e.meta.capital;
    assert Lower(text)[..|e.meta.country|] == Lower(e.meta.country);
    assert Lower(text)[i..i + |term|] == Lower(e.meta.country)[i..i + |term|];
    assert OccursAt(Lower(text), term, i);
    ContainsIffOccurs(Lower(text), term);
  }
}
