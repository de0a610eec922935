/**
 * The search engine of the browse and delete screens: the candidate pool is
 * deduplicated by id (first occurrence wins) and then narrowed to the
 * destinations whose lowercased name contains the lowercased query.
 */
module Search {
  import opened Wrappers
  import opened Strings
  import opened Seqs
  import opened Entities

  /** `pool.findIndex((t) => t.id === id)` */
  function IndexOfId(pool: seq<Destination>, id: int): (k: int)
    ensures -1 <= k < |pool|
    ensures k >= 0 ==> pool[k].id == id && forall j :: 0 <= j < k ==> pool[j].id != id
    ensures k < 0 ==> forall j :: 0 <= j < |pool| ==> pool[j].id != id
  {
    FindIndex(pool, (t: Destination) => t.id == id)
  }

  /** For each position, `index === self.findIndex((t) => t.id === item.id)`. */
  function FirstOccurrences(pool: seq<Destination>): (keep: seq<bool>)
    ensures |keep| == |pool|
  {
    seq(|pool|, i requires 0 <= i < |pool| => IndexOfId(pool, pool[i].id) == i)
  }

  /** The duplicate removal of the search: `pool.filter((item, index, self) => index === self.findIndex(...))`. */
  function DedupById(pool: seq<Destination>): (unique: seq<Destination>) {
    Select(pool, FirstOccurrences(pool))
  }

  /** No id occurs twice. */
  predicate DistinctIds(s: seq<Destination>) {
    forall i, j :: 0 <= i < j < |s| ==> s[i].id != s[j].id
  }

  /** `x` is the first entry of `pool` carrying its id. */
  predicate IsFirstWithId(pool: seq<Destination>, x: Destination) {
    var k := IndexOfId(pool, x.id);
    k >= 0 && pool[k] == x
  }

  lemma {:induction false} SelectDistinct(s: seq<Destination>, keep: seq<bool>)
    requires |keep| == |s|
    requires forall i, j :: 0 <= i < j < |s| && keep[i] && keep[j] ==> s[i].id != s[j].id
    ensures DistinctIds(Select(s, keep))
  {
    if s != [] {
      var tail := Select(s[1..], keep[1..]);
      SelectDistinct(s[1..], keep[1..]);
      SelectMembers(s[1..], keep[1..]);
      if keep[0] {
        var r := [s[0]] + tail;
        forall i, j | 0 <= i < j < |r| ensures r[i].id != r[j].id {
          if i == 0 {
            assert r[j] == tail[j - 1];
            assert tail[j - 1] in tail;
            var m :| 0 <= m < |s| - 1 && keep[1..][m] && s[1..][m] == tail[j - 1];
            assert keep[m + 1] && s[m + 1] == r[j];
          } else {
            assert r[i] == tail[i - 1] && r[j] == tail[j - 1];
          }
        }
      }
    }
  }

  /** No id occurs twice in the deduplicated pool. */
  lemma DedupDistinct(pool: seq<Destination>)
    ensures DistinctIds(DedupById(pool))
  {
    SelectDistinct(pool, FirstOccurrences(pool));
  }

  /**
   * The deduplicated pool holds exactly the first occurrence of every id of the pool:
   * an entry is kept iff it is in the pool and no earlier entry has its id.
   */
  lemma DedupMembers(pool: seq<Destination>)
    ensures forall x :: x in DedupById(pool) <==> x in pool && IsFirstWithId(pool, x)
  {
    var keep := FirstOccurrences(pool);
    SelectMembers(pool, keep);
    forall x | x in pool && IsFirstWithId(pool, x) ensures x in DedupById(pool) {
      var k := IndexOfId(pool, x.id);
      assert keep[k];
    }
  }

  /** Every id of the pool survives deduplication. */
  lemma DedupKeepsEveryId(pool: seq<Destination>)
    ensures forall x <- pool :: exists y <- DedupById(pool) :: y.id == x.id
  {
    DedupMembers(pool);
    forall x <- pool ensures exists y <- DedupById(pool) :: y.id == x.id {
      var k := IndexOfId(pool, x.id);
      assert IsFirstWithId(pool, pool[k]);
    }
  }

  /** Deduplication changes nothing exactly when the ids are already distinct. */
  lemma DedupIdentityIffDistinct(pool: seq<Destination>)
    ensures DedupById(pool) == pool <==> DistinctIds(pool)
  {
    DedupDistinct(pool);
    if DistinctIds(pool) {
      var keep := FirstOccurrences(pool);
      forall i | 0 <= i < |pool| ensures keep[i] {
        var k := IndexOfId(pool, pool[i].id);
        assert k == i;
      }
      SelectAll(pool, keep);
    }
  }

  /** `place.nama.toLowerCase().includes(term.toLowerCase())` */
  predicate NameMatches(place: Destination, term: string) {
    ContainsIgnoreCase(place.nama, term)
  }

  /**
   * The candidates: the data handed to the search (or else `allTourismData`),
   * followed by the region-scoped `tourismData`.
   */
  function SearchPool(dataToSearch: Option<seq<Destination>>, allTourismData: seq<Destination>,
                      tourismData: seq<Destination>): (pool: seq<Destination>)
    ensures dataToSearch.None? ==> pool == allTourismData + tourismData
    ensures dataToSearch.Some? ==> pool == dataToSearch.value + tourismData
  {
    (if dataToSearch.Some? then dataToSearch.value else allTourismData) + tourismData
  }

  /** The search's filter callback for one query. */
  function Matcher(term: string): (matches: Destination -> bool) {
    (place: Destination) => NameMatches(place, term)
  }

  /** The matches for a non-blank query: deduplicate, then keep the names that contain it. */
  function SearchMatches(term: string, pool: seq<Destination>): (results: seq<Destination>) {
    Filter(DedupById(pool), Matcher(term))
  }

  /** Search results never hold an id twice, even when the pool overlaps itself. */
  lemma {:induction false} SearchDistinct(term: string, pool: seq<Destination>)
    ensures DistinctIds(SearchMatches(term, pool))
  {
    var keep := FirstOccurrences(pool);
    var both := seq(|pool|, i requires 0 <= i < |pool| => keep[i] && Matcher(term)(pool[i]));
    FilterSelect(pool, keep, Matcher(term), both);
    SelectDistinct(pool, both);
  }

  /**
   * The result is exactly the set of pool entries that are the first with their id
   * and whose name contains the query, in pool order.
   */
  lemma SearchMembers(term: string, pool: seq<Destination>)
    ensures forall x :: x in SearchMatches(term, pool) <==>
      x in pool && IsFirstWithId(pool, x) && NameMatches(x, term)
    ensures IsSubsequence(SearchMatches(term, pool), pool)
  {
    DedupMembers(pool);
    var keep := FirstOccurrences(pool);
    var both := seq(|pool|, i requires 0 <= i < |pool| => keep[i] && Matcher(term)(pool[i]));
    FilterSelect(pool, keep, Matcher(term), both);
    forall x | x in DedupById(pool) && NameMatches(x, term) ensures x in SearchMatches(term, pool) {
      var d := DedupById(pool);
      var i :| 0 <= i < |d| && d[i] == x;
    }
  }

  /** Spelling does not matter: an entry is always found under its own name, in any ASCII case. */
  lemma {:induction false} FoundByOwnName(term: string, pool: seq<Destination>, x: Destination)
    requires x in pool && IsFirstWithId(pool, x)
    requires Lower(term) == Lower(x.nama)
    ensures x in SearchMatches(term, pool)
  {
    SearchMembers(term, pool);
    MatchesItself(x.nama);
  }

  /** `tourismData.filter((place) => place.nama.toLowerCase().includes(searchTerm.toLowerCase()))` */
  function NameFilter(tourismData: seq<Destination>, term: string): (r: seq<Destination>)
    ensures IsSubsequence(r, tourismData)
    ensures forall x <- r :: x in tourismData && NameMatches(x, term)
    ensures forall i :: 0 <= i < |tourismData| && NameMatches(tourismData[i], term) ==> tourismData[i] in r
  {
    FilterIsSubsequence(tourismData, Matcher(term));
    Filter(tourismData, Matcher(term))
  }

  /** With no search term the in-region list is shown whole. */
  lemma EmptyTermKeepsAll(tourismData: seq<Destination>)
    ensures NameFilter(tourismData, "") == tourismData
  {
    forall i | 0 <= i < |tourismData| ensures NameMatches(tourismData[i], "") {
      EmptyTermMatches(tourismData[i].nama);
    }
    FilterKeepsAll(tourismData, Matcher(""));
  }

  /**
   * The re-search scheduled after a delete, as written: it searches the fresh
   * superset followed by the region list captured BEFORE the delete. A deleted
   * destination of the selected region whose name matches the query is absent
   * from the fresh data and still comes back as a result.
   */
  lemma {:induction false} StaleResearchShowsDeleted(term: string, freshAll: seq<Destination>,
                                                     captured: seq<Destination>, deleted: Destination)
    requires forall y <- freshAll :: y.id != deleted.id
    requires deleted in captured && IsFirstWithId(captured, deleted)
    requires NameMatches(deleted, term)
    ensures deleted in SearchMatches(term, freshAll + captured)
  {
    var pool := freshAll + captured;
    var c := IndexOfId(captured, deleted.id);
    var k := IndexOfId(pool, deleted.id);
    assert pool[|freshAll| + c] == deleted;
    forall j | 0 <= j < |freshAll| + c ensures pool[j].id != deleted.id {
      if j < |freshAll| {
        assert pool[j] in freshAll;
      } else {
        assert pool[j] == captured[j - |freshAll|];
      }
    }
    assert k == |freshAll| + c;
    SearchMembers(term, pool);
  }

  /**
   * The re-search over data that no longer holds an id never returns that id:
   * with the fresh superset and the reloaded region list, a deleted destination
   * is gone from the results.
   */
  lemma ResearchOmitsAbsentId(term: string, pool: seq<Destination>, id: int)
    requires forall y <- pool :: y.id != id
    ensures forall x <- SearchMatches(term, pool) :: x.id != id
  {
    SearchMembers(term, pool);
  }
}
