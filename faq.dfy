/** The FAQ page: a search box that narrows the question list, and an
    accordion in which at most one answer is open at a time. */
module Faq {
  import opened Wrappers
  import opened Text
  import opened Seqs

  datatype Question = Question(question: string, answer: string)

  datatype Category = Category(category: string, questions: seq<Question>)

  // ------------------------------------------------------------ the open key

  /** The accordion key `${categoryIndex}-${questionIndex}`. */
  function KeyOf(categoryIndex: nat, questionIndex: nat): string
  {
    Decimal(categoryIndex) + "-" + Decimal(questionIndex)
  }

  /** Two positions share a key only when they are the same position: the
      dash cannot be part of a number, so it splits the key unambiguously. */
  lemma KeyInjective(c: nat, q: nat, c': nat, q': nat)
    requires KeyOf(c, q) == KeyOf(c', q')
    ensures c == c' && q == q'
  {
    var k, dc, dc' := KeyOf(c, q), Decimal(c), Decimal(c');
    assert k == dc + "-" + Decimal(q) == dc' + "-" + Decimal(q');
    assert k[|dc|] == '-' && k[|dc'|] == '-';
    assert |dc| == |dc'|;
    assert k[..|dc|] == dc && k[..|dc|] == dc';
    DecimalInjective(c, c');
    assert k[|dc| + 1..] == Decimal(q) && k[|dc| + 1..] == Decimal(q');
    DecimalInjective(q, q');
  }

  /** `toggleQuestion`'s new open key: the question's key, or none when it
      was the open one. */
  function Toggled(openIndex: Option<string>, key: string): (r: Option<string>)
    ensures r == Some(key) <==> openIndex != Some(key)
    ensures r == None <==> openIndex == Some(key)
  {
    if openIndex == Some(key) then None else Some(key)
  }

  /** Toggling the same question twice restores the state exactly when a
      question was closed before or it was that one that was open. */
  lemma ToggleTwice(openIndex: Option<string>, key: string)
    ensures Toggled(Toggled(openIndex, key), key) == openIndex <==> openIndex.None? || openIndex == Some(key)
  {
  }

  /** The accordion's state. */
  class FaqPage {
    var openIndex: Option<string>
    var searchQuery: string

    constructor ()
      ensures openIndex == None && searchQuery == ""
    {
      openIndex := None;
      searchQuery := "";
    }

    /** Whether the question at these indices of the shown list is expanded. */
    predicate IsOpen(categoryIndex: nat, questionIndex: nat)
      reads this
    {
      openIndex == Some(KeyOf(categoryIndex, questionIndex))
    }

    /** At most one answer is open. */
    lemma AtMostOneOpen(c: nat, q: nat, c': nat, q': nat)
      requires IsOpen(c, q) && IsOpen(c', q')
      ensures c == c' && q == q'
    {
      KeyInjective(c, q, c', q');
    }

    /** `toggleQuestion`: the clicked question opens, or closes when it was
        the open one; every other question is then closed. */
    method ToggleQuestion(categoryIndex: nat, questionIndex: nat)
      modifies this`openIndex
      ensures openIndex == Toggled(old(openIndex), KeyOf(categoryIndex, questionIndex))
      ensures IsOpen(categoryIndex, questionIndex) <==> !old(IsOpen(categoryIndex, questionIndex))
    {
      var key := KeyOf(categoryIndex, questionIndex);
      openIndex := if openIndex == Some(key) then None else Some(key);
    }

    /** Typing in the search box; the open key is left as it is. */
    method SetSearchQuery(query: string)
      modifies this`searchQuery
      ensures searchQuery == query
    {
      searchQuery := query;
    }
  }

  // ------------------------------------------------------------- searching

  /** The question or its answer contains the query, ignoring letter case. */
  predicate Hit(query: string, q: Question)
  {
    Contains(ToLower(q.question), ToLower(query)) || Contains(ToLower(q.answer), ToLower(query))
  }

  function HitBy(query: string): Question -> bool
  {
    (q: Question) => Hit(query, q)
  }

  /** The category with only the questions the query hits. */
  function Narrowed(c: Category, query: string): (r: Category)
    ensures r.category == c.category
  {
    c.(questions := Filter(c.questions, HitBy(query)))
  }

  predicate NonEmpty(c: Category)
  {
    |c.questions| > 0
  }

  /** `filteredCategories`: every category narrowed to the questions the
      query hits, then the categories left without questions dropped. */
  function FilteredCategories(categories: seq<Category>, query: string): seq<Category>
  {
    Filter(seq(|categories|, i requires 0 <= i < |categories| => Narrowed(categories[i], query)), NonEmpty)
  }

  /** What is shown: a subsequence of the narrowed categories, each with at
      least one question, every shown question hit by the query, and every
      category with a hit shown. */
  lemma FilteredExactly(categories: seq<Category>, query: string)
    ensures var r, narrowed := FilteredCategories(categories, query),
                               seq(|categories|, i requires 0 <= i < |categories| => Narrowed(categories[i], query));
      && IsSubsequence(r, narrowed)
      && (forall k :: 0 <= k < |r| ==> |r[k].questions| > 0)
      && (forall k, j :: 0 <= k < |r| && 0 <= j < |r[k].questions| ==> Hit(query, r[k].questions[j]))
      && (forall i :: 0 <= i < |categories| && (exists j :: 0 <= j < |categories[i].questions| && Hit(query, categories[i].questions[j])) ==>
            Narrowed(categories[i], query) in r)
  {
    var r := FilteredCategories(categories, query);
    var narrowed := seq(|categories|, i requires 0 <= i < |categories| => Narrowed(categories[i], query));
    forall k, j | 0 <= k < |r| && 0 <= j < |r[k].questions| ensures Hit(query, r[k].questions[j]) {
      var i :| 0 <= i < |narrowed| && narrowed[i] == r[k];
      assert r[k].questions == Filter(categories[i].questions, HitBy(query));
    }
    forall i | 0 <= i < |categories| && (exists j :: 0 <= j < |categories[i].questions| && Hit(query, categories[i].questions[j]))
      ensures Narrowed(categories[i], query) in r
    {
      var j :| 0 <= j < |categories[i].questions| && Hit(query, categories[i].questions[j]);
      assert categories[i].questions[j] in Narrowed(categories[i], query).questions;
      assert NonEmpty(narrowed[i]);
    }
  }

  /** "No questions found" is shown exactly when the query hits no question
      of any category. */
  lemma NoResultsIff(categories: seq<Category>, query: string)
    ensures |FilteredCategories(categories, query)| == 0 <==>
      forall i, j :: 0 <= i < |categories| && 0 <= j < |categories[i].questions| ==> !Hit(query, categories[i].questions[j])
  {
    FilteredExactly(categories, query);
    var narrowed := seq(|categories|, i requires 0 <= i < |categories| => Narrowed(categories[i], query));
    if |FilteredCategories(categories, query)| == 0 {
    } else {
      var c := FilteredCategories(categories, query)[0];
      assert c in narrowed;
      var i :| 0 <= i < |narrowed| && narrowed[i] == c;
      assert Hit(query, c.questions[0]);
      assert c.questions[0] in categories[i].questions;
    }
  }

  /** With an empty search box every question of every category is shown,
      as long as no category is empty. */
  lemma EmptyQueryShowsAll(categories: seq<Category>)
    requires forall i :: 0 <= i < |categories| ==> |categories[i].questions| > 0
    ensures FilteredCategories(categories, "") == categories
  {
    var narrowed := seq(|categories|, i requires 0 <= i < |categories| => Narrowed(categories[i], ""));
    forall i | 0 <= i < |categories| ensures narrowed[i] == categories[i] {
      forall j | 0 <= j < |categories[i].questions| ensures HitBy("")(categories[i].questions[j]) {
        ContainsEmpty(ToLower(categories[i].questions[j].question));
      }
      FilterKeepsAll(categories[i].questions, HitBy(""));
    }
    assert narrowed == categories;
    FilterKeepsAll(categories, NonEmpty);
  }

  /** The search ignores letter case in the query. */
  lemma QueryCaseInsensitive(categories: seq<Category>, query: string)
    ensures FilteredCategories(categories, query) == FilteredCategories(categories, ToLower(query))
  {
    ToLowerIdempotent(query);
    var a := seq(|categories|, i requires 0 <= i < |categories| => Narrowed(categories[i], query));
    var b := seq(|categories|, i requires 0 <= i < |categories| => Narrowed(categories[i], ToLower(query)));
    forall i | 0 <= i < |categories| ensures a[i] == b[i] {
      FilterCongruent(categories[i].questions, HitBy(query), HitBy(ToLower(query)));
    }
    assert a == b;
  }
}
