/**
 * The search-and-category filter shared by the blog (posts: title, excerpt, category)
 * and the help centre (FAQs: question, answer, category). A record is kept when one of
 * its two text fields, lower-cased, includes the lower-cased term, and its category
 * equals the selector or the selector is "all". The result keeps catalog order.
 */
module Search {
  import opened Text

  /** What the filter reads of a record: two searchable texts and a category tag. */
  datatype Fields = Fields(primary: string, secondary: string, category: string)

  /** The selector value that disables the category predicate. */
  const AllCategories: string := "all"

  /** The term occurs in one of the two texts, letter case aside; an empty term occurs in every text. */
  predicate MatchesSearch(f: Fields, term: string)
    ensures term == "" ==> MatchesSearch(f, term)
    ensures MatchesSearch(f, term) ==> |term| <= |f.primary| || |term| <= |f.secondary|
  {
    IncludesEmpty(Lower(f.primary));
    Includes(Lower(f.primary), Lower(term)) || Includes(Lower(f.secondary), Lower(term))
  }

  /** The selector "all" lets every record through; any other value only records tagged with it. */
  predicate MatchesCategory(f: Fields, category: string)
    ensures category == AllCategories ==> MatchesCategory(f, category)
    ensures category != AllCategories ==> (MatchesCategory(f, category) <==> f.category == category)
  {
    category == AllCategories || f.category == category
  }

  /** With an empty search box and the selector at "all", every record matches. */
  predicate Matches(f: Fields, term: string, category: string)
    ensures term == "" && category == AllCategories ==> Matches(f, term, category)
  {
    MatchesSearch(f, term) && MatchesCategory(f, category)
  }

  /**
   * `records.filter(r => matchesSearch && matchesCategory)`. Every kept record matches
   * and comes from the catalog; every matching record of the catalog is kept.
   */
  function Filter<T>(records: seq<T>, fields: T -> Fields, term: string, category: string): (r: seq<T>)
    ensures |r| <= |records|
    ensures forall x :: x in r ==> x in records && Matches(fields(x), term, category)
    ensures forall x :: x in records && Matches(fields(x), term, category) ==> x in r
  {
    if records == [] then []
    else
      var rest := Filter(records[1..], fields, term, category);
      if Matches(fields(records[0]), term, category) then [records[0]] + rest else rest
  }

  /** `sub` is `s` with some elements dropped and the rest left in their order. */
  ghost predicate IsSubsequence<T>(sub: seq<T>, s: seq<T>)
    decreases |s|
  {
    if sub == [] then true
    else if s == [] then false
    else if sub[0] == s[0] then IsSubsequence(sub[1..], s[1..])
    else IsSubsequence(sub, s[1..])
  }

  /** The filter keeps the catalog's relative order. */
  lemma {:induction false} FilterIsSubsequence<T>(records: seq<T>, fields: T -> Fields, term: string, category: string)
    ensures IsSubsequence(Filter(records, fields, term, category), records)
  {
    if records != [] {
      FilterIsSubsequence(records[1..], fields, term, category);
      var rest := Filter(records[1..], fields, term, category);
      if !Matches(fields(records[0]), term, category) && rest != [] {
        SubsequenceOfTail(rest, records);
      }
    }
  }

  /** Anything that is a subsequence of the tail of `s` is a subsequence of `s`. */
  lemma {:induction false} SubsequenceOfTail<T>(sub: seq<T>, s: seq<T>)
    requires s != [] && IsSubsequence(sub, s[1..])
    ensures IsSubsequence(sub, s)
    decreases |s|, 0
  {
    if sub != [] && sub[0] == s[0] {
      SubsequenceDropHead(sub, s[1..]);
    }
  }

  /** Dropping the first element of a subsequence leaves a subsequence. */
  lemma {:induction false} SubsequenceDropHead<T>(sub: seq<T>, s: seq<T>)
    requires sub != [] && IsSubsequence(sub, s)
    ensures IsSubsequence(sub[1..], s)
    decreases |s|, 1
  {
    if sub[0] != s[0] {
      SubsequenceDropHead(sub, s[1..]);
    }
    if sub[1..] != [] {
      SubsequenceOfTail(sub[1..], s);
    }
  }

  /** Filtering a concatenation filters each part: the filter looks at one record at a time. */
  lemma {:induction false} FilterAppend<T>(a: seq<T>, b: seq<T>, fields: T -> Fields, term: string, category: string)
    ensures Filter(a + b, fields, term, category) == Filter(a, fields, term, category) + Filter(b, fields, term, category)
  {
    if a == [] {
      assert a + b == b;
    } else {
      assert (a + b)[1..] == a[1..] + b;
      FilterAppend(a[1..], b, fields, term, category);
    }
  }

  /** When every record matches, the filter returns the catalog unchanged. */
  lemma {:induction false} FilterKeepsAll<T>(records: seq<T>, fields: T -> Fields, term: string, category: string)
    requires forall x :: x in records ==> Matches(fields(x), term, category)
    ensures Filter(records, fields, term, category) == records
  {
    if records != [] {
      assert records[0] in records;
      assert forall x :: x in records[1..] ==> x in records;
      FilterKeepsAll(records[1..], fields, term, category);
      assert [records[0]] + records[1..] == records;
    }
  }

  /** An empty search box with "all" selected shows the whole catalog. */
  lemma FilterIdentity<T>(records: seq<T>, fields: T -> Fields)
    ensures Filter(records, fields, "", AllCategories) == records
  {
    assert Lower("") == "";
    forall x | x in records ensures Matches(fields(x), "", AllCategories) {
      IncludesEmpty(Lower(fields(x).primary));
    }
    FilterKeepsAll(records, fields, "", AllCategories);
  }

  /** Filtering an already filtered list with the same criteria changes nothing. */
  lemma FilterIdempotent<T>(records: seq<T>, fields: T -> Fields, term: string, category: string)
    ensures Filter(Filter(records, fields, term, category), fields, term, category) == Filter(records, fields, term, category)
  {
    FilterKeepsAll(Filter(records, fields, term, category), fields, term, category);
  }

  /** Two terms that differ only in letter case select the same records. */
  lemma {:induction false} FilterCaseInsensitive<T>(records: seq<T>, fields: T -> Fields, term1: string, term2: string, category: string)
    requires Lower(term1) == Lower(term2)
    ensures Filter(records, fields, term1, category) == Filter(records, fields, term2, category)
  {
    if records != [] {
      FilterCaseInsensitive(records[1..], fields, term1, term2, category);
    }
  }

  /** Searching with a term or with its lower-case form gives the same result. */
  lemma FilterLowerTerm<T>(records: seq<T>, fields: T -> Fields, term: string, category: string)
    ensures Filter(records, fields, Lower(term), category) == Filter(records, fields, term, category)
  {
    LowerIdempotent(term);
    FilterCaseInsensitive(records, fields, Lower(term), term, category);
  }

  /** The two predicates are independent: search across all categories, then narrow by category. */
  lemma {:induction false} FilterSplits<T>(records: seq<T>, fields: T -> Fields, term: string, category: string)
    ensures Filter(records, fields, term, category)
         == Filter(Filter(records, fields, term, AllCategories), fields, "", category)
  {
    if records != [] {
      FilterSplits(records[1..], fields, term, category);
      assert Lower("") == "";
      IncludesEmpty(Lower(fields(records[0]).primary));
    }
  }

  /** The records of one category (every record for "all"), in catalog order. */
  function CategoryOnly<T>(records: seq<T>, fields: T -> Fields, category: string): seq<T>
  {
    if records == [] then []
    else (if MatchesCategory(fields(records[0]), category) then [records[0]] else [])
         + CategoryOnly(records[1..], fields, category)
  }

  /** With an empty search box the filter selects by category alone. */
  lemma {:induction false} FilterEmptyTerm<T>(records: seq<T>, fields: T -> Fields, category: string)
    ensures Filter(records, fields, "", category) == CategoryOnly(records, fields, category)
  {
    if records != [] {
      assert Lower("") == "";
      IncludesEmpty(Lower(fields(records[0]).primary));
      FilterEmptyTerm(records[1..], fields, category);
    }
  }

  /** The empty catalog filters to the empty list. */
  lemma FilterEmptyCatalog<T>(fields: T -> Fields, term: string, category: string)
    ensures Filter([], fields, term, category) == []
  {
  }

  /** A category that no record carries lists nothing, whatever the term. */
  lemma FilterUnusedCategory<T>(records: seq<T>, fields: T -> Fields, term: string, category: string)
    requires category != AllCategories
    requires forall x :: x in records ==> fields(x).category != category
    ensures Filter(records, fields, term, category) == []
  {
  }
}
