/**
 * The blog page (src/pages/Blog.jsx): a search box and a category selector over a fixed
 * list of posts, and a featured post shown above the grid only while no filter is active.
 */
module Blog {
  import opened Text
  import opened Search

  datatype Author = Author(name: string)

  datatype Post = Post(title: string, excerpt: string, category: string, author: Author, date: string)

  /** The post highlighted above the grid; it is not one of `BlogPosts`. */
  const FeaturedPost: Post := Post(
    "The Future of AI in Accounting: 2024 Trends",
    "Discover how artificial intelligence is revolutionizing the accounting industry and what it means for your business.",
    "Technology", Author("Dr. Sarah Chen"), "December 20, 2023")

  const TaxPlanningTitle: string := "Essential Tax Planning Strategies for Small Businesses"

  const TaxPlanningPost: Post := Post(
    TaxPlanningTitle,
    "Learn the key tax planning strategies that can help your small business save money.",
    "tax", Author("John Smith"), "December 15, 2023")

  const CloudAccountingPost: Post := Post(
    "Understanding Cloud Accounting Software",
    "A comprehensive guide to choosing and implementing cloud accounting solutions.",
    "technology", Author("Emily Brown"), "December 10, 2023")

  const ReportingPost: Post := Post(
    "Financial Reporting Best Practices",
    "Master the art of creating clear and effective financial reports for your stakeholders.",
    "accounting", Author("Michael Wong"), "December 5, 2023")

  const BlogPosts: seq<Post> := [TaxPlanningPost, CloudAccountingPost, ReportingPost]

  /** The category selector's option values. */
  const CategoryOptions: seq<string> := ["all", "accounting", "tax", "business", "technology"]

  /** A post is searched by title and excerpt. */
  function PostFields(p: Post): Fields {
    Fields(p.title, p.excerpt, p.category)
  }

  class BlogPage {
    var searchTerm: string
    var selectedCategory: string

    constructor ()
      ensures searchTerm == "" && selectedCategory == AllCategories
      ensures ShowsFeatured() && FilteredPosts() == BlogPosts
    {
      searchTerm := "";
      selectedCategory := AllCategories;
      new;
      FilterIdentity(BlogPosts, PostFields);
    }

    /** The search box's `onChange`. */
    method SetSearchTerm(value: string)
      modifies this
      ensures searchTerm == value && selectedCategory == old(selectedCategory)
    {
      searchTerm := value;
    }

    /** The category selector's `onChange`. */
    method SetSelectedCategory(value: string)
      modifies this
      ensures selectedCategory == value && searchTerm == old(searchTerm)
    {
      selectedCategory := value;
    }

    /**
     * The posts in the grid: exactly the posts that match the current criteria, in
     * catalog order.
     */
    function FilteredPosts(): (r: seq<Post>)
      reads this
      ensures forall p :: p in r <==> p in BlogPosts && Matches(PostFields(p), searchTerm, selectedCategory)
      ensures IsSubsequence(r, BlogPosts)
      ensures selectedCategory != AllCategories ==> forall p :: p in r ==> p.category == selectedCategory
    {
      FilterIsSubsequence(BlogPosts, PostFields, searchTerm, selectedCategory);
      Filter(BlogPosts, PostFields, searchTerm, selectedCategory)
    }

    /** The featured block renders only with category "all" and an empty search box. */
    predicate ShowsFeatured()
      reads this
    {
      selectedCategory == AllCategories && searchTerm == ""
    }
  }

  /** While the featured post is shown the grid lists every post, and never the featured one. */
  lemma FeaturedAboveFullGrid(page: BlogPage)
    ensures page.ShowsFeatured() ==> page.FilteredPosts() == BlogPosts
    ensures FeaturedPost !in page.FilteredPosts()
  {
    if page.ShowsFeatured() {
      FilterIdentity(BlogPosts, PostFields);
    }
  }

  /** The tax-planning post's title includes "tax" once lower-cased. */
  lemma TaxPostMatches()
    ensures MatchesSearch(PostFields(BlogPosts[0]), "tax")
  {
    TaxTitle();
    TitleWithTax(TaxPlanningPost, 10);
  }

  /** The tax-planning post's title, "Essential Tax ...", has "Tax" at position 10. */
  lemma TaxTitle()
    ensures |TaxPlanningTitle| >= 13
    ensures TaxPlanningTitle[10] == 'T' && TaxPlanningTitle[11] == 'a' && TaxPlanningTitle[12] == 'x'
  {
  }

  /**
   * Every post carries one of the selector's categories, and no post carries
   * "business", so choosing that option lists nothing whatever is typed.
   */
  lemma CategoryOptionsOfPosts(term: string)
    ensures forall p :: p in BlogPosts ==> p.category in CategoryOptions
    ensures "business" in CategoryOptions
    ensures Filter(BlogPosts, PostFields, term, "business") == []
  {
    assert BlogPosts[0].category == "tax" && BlogPosts[1].category == "technology";
    assert BlogPosts[2].category == "accounting";
    FilterUnusedCategory(BlogPosts, PostFields, term, "business");
  }

  /** Any post whose title has "Tax" at some position matches the search term "tax". */
  lemma TitleWithTax(p: Post, i: int)
    requires 0 <= i && i + 3 <= |p.title|
    requires p.title[i] == 'T' && p.title[i + 1] == 'a' && p.title[i + 2] == 'x'
    ensures MatchesSearch(PostFields(p), "tax")
  {
    var l := Lower(p.title);
    assert Lower("tax") == "tax" by {
      LowerOfNoUpper("tax");
    }
    assert l[i..i + 3] == "tax";
    assert OccursAt(l, "tax", i);
    IncludesIff(l, "tax");
  }

  /** Searching "tax" across all categories finds the tax-planning post. */
  lemma TaxSearchFindsTaxPost()
    ensures BlogPosts[0] in Filter(BlogPosts, PostFields, "tax", AllCategories)
  {
    TaxPostMatches();
  }

  /** Selecting the "tax" category with an empty search box leaves exactly the tax-planning post. */
  lemma TaxCategory()
    ensures Filter(BlogPosts, PostFields, "", "tax") == [BlogPosts[0]]
  {
    assert BlogPosts[0].category == "tax" && BlogPosts[1].category == "technology";
    assert BlogPosts[2].category == "accounting";
    TaxOfThree(BlogPosts);
  }

  /** The same walk over any three posts whose categories are those of `BlogPosts`. */
  lemma TaxOfThree(posts: seq<Post>)
    requires |posts| == 3
    requires posts[0].category == "tax" && posts[1].category == "technology" && posts[2].category == "accounting"
    ensures Filter(posts, PostFields, "", "tax") == [posts[0]]
  {
    FilterEmptyTerm(posts, PostFields, "tax");
    assert posts[3..] == [];
    assert CategoryOnly(posts[2..], PostFields, "tax") == [] by { assert posts[2..][1..] == posts[3..]; }
    assert CategoryOnly(posts[1..], PostFields, "tax") == [] by { assert posts[1..][1..] == posts[2..]; }
  }
}
