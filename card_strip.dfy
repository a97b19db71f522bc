/** What a strip of cards shows: the strip's campaigns narrowed by the
    strip's own search box and, on the one strip marked filterable, by the
    view's recency filter. */
module CardStrip {
  import opened Basics
  import opened Text
  import opened TimeHelpers
  import opened Campaigns

  /** `c.name.toLowerCase().includes(search.toLowerCase())`. */
  predicate NameMatches(c: Campaign, search: string) {
    Includes(ToLower(c.name), ToLower(search))
  }

  /** `filterable ? withinRange(c.createdAt, filter) : true`. */
  predicate PassesRecency(c: Campaign, filter: string, filterable: bool, now: int) {
    filterable ==> WithinRange(now, c.createdAt, filter)
  }

  /** The cards a strip shows: exactly the campaigns of `data` that match the
      search and pass the recency filter, in the order of `data`, each as
      many times as `data` holds it. */
  function Visible(data: seq<Campaign>, search: string, filter: string, filterable: bool, now: int): (r: seq<Campaign>)
    ensures SubsequenceOf(r, data)
    ensures forall i :: 0 <= i < |r| ==> NameMatches(r[i], search) && PassesRecency(r[i], filter, filterable, now)
    ensures forall i :: 0 <= i < |data| ==>
      (NameMatches(data[i], search) && PassesRecency(data[i], filter, filterable, now) ==> data[i] in r)
    ensures forall c ::
      multiset(r)[c] == if NameMatches(c, search) && PassesRecency(c, filter, filterable, now) then multiset(data)[c] else 0
  {
    var named := Filter(data, (c: Campaign) => NameMatches(c, search));
    var r := Filter(named, (c: Campaign) => PassesRecency(c, filter, filterable, now));
    FilterMembers(data, (c: Campaign) => NameMatches(c, search));
    FilterMembers(named, (c: Campaign) => PassesRecency(c, filter, filterable, now));
    SubsequenceTransitive(r, named, data);
    r
  }

  /** With an empty search box and the filter on `All` (or a strip that is
      not filterable), a strip shows all of its campaigns. */
  lemma {:induction false} VisibleUnfilteredShowsAll(data: seq<Campaign>, filter: string, filterable: bool, now: int)
    requires !filterable || filter == "All"
    ensures Visible(data, "", filter, filterable, now) == data
  {
    forall i | 0 <= i < |data|
      ensures NameMatches(data[i], "")
    {
      IncludesEmpty(ToLower(data[i].name));
    }
    var named := Filter(data, (c: Campaign) => NameMatches(c, ""));
    FilterAll(data, (c: Campaign) => NameMatches(c, ""));
    FilterAll(named, (c: Campaign) => PassesRecency(c, filter, filterable, now));
  }

  /** Every card a strip shows belongs to that strip; in particular every
      card shown under "Available & New Opportunities" is available. */
  lemma VisibleStaysInStrip(cs: seq<Campaign>, search: string, filter: string, now: int)
    ensures forall c :: c in Visible(AvailableStrip(cs), search, filter, true, now) ==> c in cs && IsAvailable(c)
  {
    var a := AvailableStrip(cs);
    var v := Visible(a, search, filter, true, now);
    forall c | c in v
      ensures c in cs && IsAvailable(c)
    {
      SubsequenceMembers(v, a, c);
      FilterMembers(cs, IsAvailable);
      var k :| 0 <= k < |a| && a[k] == c;
    }
  }
}
