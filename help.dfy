/**
  The help centre: a search box and a category bar that together narrow
  the FAQ list, and the accordion in which a click on a question expands it
  or, when it is the expanded one, collapses it.
 */
module Help {
  import opened Wrappers
  import opened Text
  import opened Seqs

  datatype Faq = Faq(category: string, question: string, answer: string)

  /** The category that switches the category condition off. */
  const AllCategories: string := "All"

  const Categories: seq<string> := ["All", "Account", "Courses", "Billing", "Technical"]

  /** The lowercased search term occurs in the lowercased question or answer. */
  predicate MatchesSearch(faq: Faq, searchTerm: string) {
    Contains(Lower(faq.question), Lower(searchTerm)) || Contains(Lower(faq.answer), Lower(searchTerm))
  }

  predicate MatchesCategory(faq: Faq, activeCategory: string) {
    activeCategory == AllCategories || faq.category == activeCategory
  }

  function Kept(searchTerm: string, activeCategory: string): Faq -> bool {
    faq => MatchesSearch(faq, searchTerm) && MatchesCategory(faq, activeCategory)
  }

  /** `filteredFaqs`: the FAQs passing both tests, in their order. */
  function FilteredFaqs(faqs: seq<Faq>, searchTerm: string, activeCategory: string): (r: seq<Faq>)
    ensures forall faq :: faq in r <==> faq in faqs && MatchesSearch(faq, searchTerm) && MatchesCategory(faq, activeCategory)
    ensures IsSubsequence(r, faqs)
  {
    FilterIsSubsequence(Kept(searchTerm, activeCategory), faqs);
    Filter(Kept(searchTerm, activeCategory), faqs)
  }

  /** Lowercasing twice is lowercasing once. */
  lemma LowerIdempotent(s: string)
    ensures Lower(Lower(s)) == Lower(s)
  {
  }

  /** Only the lowercased term matters: two terms that differ in letter case
      alone select the same FAQs. */
  lemma CaseInsensitive(faqs: seq<Faq>, term1: string, term2: string, activeCategory: string)
    requires Lower(term1) == Lower(term2)
    ensures FilteredFaqs(faqs, term1, activeCategory) == FilteredFaqs(faqs, term2, activeCategory)
  {
    FilterExtensional(Kept(term1, activeCategory), Kept(term2, activeCategory), faqs);
  }

  /** In particular, typing the term in lower case changes nothing. */
  lemma LowercasedTermSameResult(faqs: seq<Faq>, searchTerm: string, activeCategory: string)
    ensures FilteredFaqs(faqs, Lower(searchTerm), activeCategory) == FilteredFaqs(faqs, searchTerm, activeCategory)
  {
    LowerIdempotent(searchTerm);
    CaseInsensitive(faqs, Lower(searchTerm), searchTerm, activeCategory);
  }

  /** The initial empty search keeps every FAQ of the active category, and
      with `'All'` the whole list. */
  lemma EmptySearchKeepsCategory(faqs: seq<Faq>, activeCategory: string)
    ensures FilteredFaqs(faqs, "", activeCategory) == Filter(faq => MatchesCategory(faq, activeCategory), faqs)
    ensures FilteredFaqs(faqs, "", AllCategories) == faqs
  {
    forall faq: Faq ensures MatchesSearch(faq, "") {
      ContainsEmpty(Lower(faq.question));
    }
    FilterExtensional(Kept("", activeCategory), faq => MatchesCategory(faq, activeCategory), faqs);
    FilterKeepsAll(Kept("", AllCategories), faqs);
  }

  /** "No results found" is shown exactly when no FAQ passes both tests. */
  lemma NoResultsIff(faqs: seq<Faq>, searchTerm: string, activeCategory: string)
    ensures |FilteredFaqs(faqs, searchTerm, activeCategory)| == 0 <==>
              forall faq :: faq in faqs ==> !(MatchesSearch(faq, searchTerm) && MatchesCategory(faq, activeCategory))
  {
    FilterEmpty(Kept(searchTerm, activeCategory), faqs);
  }

  /** `toggleFaq(index)`: the expanded index collapses, any other expands. */
  function Toggled(expandedFaq: Option<nat>, index: nat): (r: Option<nat>)
    ensures r == None <==> expandedFaq == Some(index)
    ensures r != None ==> r == Some(index)
  {
    if expandedFaq == Some(index) then None else Some(index)
  }

  /** The questions drawn expanded among the first `count`. */
  function ExpandedAmong(expandedFaq: Option<nat>, count: nat): (r: set<nat>)
    ensures |r| <= 1
    ensures forall i :: i in r <==> i < count && expandedFaq == Some(i)
  {
    if expandedFaq.Some? && expandedFaq.value < count then {expandedFaq.value} else {}
  }

  /** Toggling the same question twice: from nothing expanded, or from that
      question expanded, returns to where it started; from another question
      expanded it ends with nothing expanded. */
  lemma ToggleTwice(expandedFaq: Option<nat>, index: nat)
    ensures expandedFaq == None || expandedFaq == Some(index) ==> Toggled(Toggled(expandedFaq, index), index) == expandedFaq
    ensures expandedFaq.Some? && expandedFaq != Some(index) ==> Toggled(Toggled(expandedFaq, index), index) == None
  {
  }

  class HelpCenter {
    var searchTerm: string
    var activeCategory: string
    /** An index into the filtered list, or none. */
    var expandedFaq: Option<nat>

    constructor ()
      ensures searchTerm == "" && activeCategory == AllCategories && expandedFaq == None
    {
      searchTerm := "";
      activeCategory := AllCategories;
      expandedFaq := None;
    }

    /** Typing in the search box; the expanded index is kept. */
    method SetSearchTerm(value: string)
      modifies this
      ensures searchTerm == value
      ensures activeCategory == old(activeCategory) && expandedFaq == old(expandedFaq)
    {
      searchTerm := value;
    }

    /** A category button; the expanded index is kept. */
    method SetActiveCategory(category: string)
      modifies this
      ensures activeCategory == category
      ensures searchTerm == old(searchTerm) && expandedFaq == old(expandedFaq)
    {
      activeCategory := category;
    }

    method ToggleFaq(index: nat)
      modifies this
      ensures old(expandedFaq) == Some(index) ==> expandedFaq == None
      ensures old(expandedFaq) != Some(index) ==> expandedFaq == Some(index)
      ensures searchTerm == old(searchTerm) && activeCategory == old(activeCategory)
    {
      expandedFaq := Toggled(expandedFaq, index);
    }

    function Shown(faqs: seq<Faq>): seq<Faq>
      reads this
    {
      FilteredFaqs(faqs, searchTerm, activeCategory)
    }
  }

  /** Opening a question and clicking it again closes it; clicking two
      different questions leaves only the second open. */
  method AccordionClicks() returns (afterOne: Option<nat>, afterSame: Option<nat>, afterOther: Option<nat>)
    ensures afterOne == Some(2) && afterSame == None && afterOther == Some(5)
  {
    var page := new HelpCenter();
    page.ToggleFaq(2);
    afterOne := page.expandedFaq;
    page.ToggleFaq(2);
    afterSame := page.expandedFaq;
    page.ToggleFaq(2);
    page.ToggleFaq(5);
    afterOther := page.expandedFaq;
  }
}
