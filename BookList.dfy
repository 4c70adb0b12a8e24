/**
 * The book list page: the books loaded from the API, the search query, and
 * the list shown, which is the books whose title or author contains the query
 * ignoring case. Deleting a book removes it from the list.
 */
module BookList {
  import opened Wrappers
  import Text
  import Seqs

  /** A book as the API returns it; `id` is only ever compared for equality. */
  datatype Book = Book(id: int, title: string, author: string, category: Option<string>)

  /**
   * The search predicate: lower-cased title or author includes the lower-cased
   * query. The empty query matches every book, and the query's case is irrelevant.
   */
  predicate Matches(b: Book, query: string)
    ensures query == [] ==> Matches(b, query)
  {
    Text.ContainsEmpty(Text.ToLower(b.title));
    Text.Contains(Text.ToLower(b.title), Text.ToLower(query))
    || Text.Contains(Text.ToLower(b.author), Text.ToLower(query))
  }

  /** The search ignores the case of the query, of the title and of the author. */
  lemma MatchesIgnoresCase(b: Book, query: string)
    ensures Matches(b, query) <==> Matches(b, Text.ToLower(query))
    ensures Matches(b, query) <==> Matches(b.(title := Text.ToLower(b.title), author := Text.ToLower(b.author)), query)
  {
    Text.ToLowerIdempotent(query);
    Text.ToLowerIdempotent(b.title);
    Text.ToLowerIdempotent(b.author);
  }

  /** `books.filter(book => matchesTitle || matchesAuthor)`. */
  function Search(books: seq<Book>, query: string): (r: seq<Book>)
    ensures Seqs.IsSubsequence(r, books)
    ensures forall b :: b in r <==> b in books && Matches(b, query)
  {
    if books == [] then []
    else if Matches(books[0], query) then [books[0]] + Search(books[1..], query)
    else Search(books[1..], query)
  }

  /**
   * `books.filter(b => b.id !== id)`. The category page has its own copy of
   * this filter over its own record type (`Categories.WithoutId`).
   */
  function WithoutId(books: seq<Book>, id: int): (r: seq<Book>)
    ensures Seqs.IsSubsequence(r, books)
    ensures forall b :: b in r <==> b in books && b.id != id
  {
    if books == [] then []
    else if books[0].id != id then [books[0]] + WithoutId(books[1..], id)
    else WithoutId(books[1..], id)
  }

  /** Searching a concatenation searches each part: the kept books stay in their order. */
  lemma {:induction false} SearchAppend(a: seq<Book>, b: seq<Book>, query: string)
    ensures Search(a + b, query) == Search(a, query) + Search(b, query)
  {
    if a != [] {
      assert (a + b)[1..] == a[1..] + b;
      SearchAppend(a[1..], b, query);
    } else {
      assert a + b == b;
    }
  }

  /** A list whose every book matches is kept whole. */
  lemma {:induction false} SearchKeepsMatching(books: seq<Book>, query: string)
    requires forall b :: b in books ==> Matches(b, query)
    ensures Search(books, query) == books
  {
    if books != [] {
      SearchKeepsMatching(books[1..], query);
    }
  }

  /** The empty query keeps every book. */
  lemma {:induction false} EmptyQueryKeepsAll(books: seq<Book>)
    ensures Search(books, "") == books
  {
    forall b | b in books
      ensures Matches(b, "")
    {
      Text.ContainsEmpty(Text.ToLower(b.title));
    }
    SearchKeepsMatching(books, "");
  }

  /** Searching the search result again with the same query changes nothing. */
  lemma {:induction false} SearchIdempotent(books: seq<Book>, query: string)
    ensures Search(Search(books, query), query) == Search(books, query)
  {
    SearchKeepsMatching(Search(books, query), query);
  }

  /** Removing from a concatenation removes from each part: the kept books stay in their order. */
  lemma {:induction false} WithoutIdAppend(a: seq<Book>, b: seq<Book>, id: int)
    ensures WithoutId(a + b, id) == WithoutId(a, id) + WithoutId(b, id)
  {
    if a != [] {
      assert (a + b)[1..] == a[1..] + b;
      WithoutIdAppend(a[1..], b, id);
    } else {
      assert a + b == b;
    }
  }

  /** Removing an id that no book carries changes nothing. */
  lemma {:induction false} WithoutAbsentId(books: seq<Book>, id: int)
    requires forall b :: b in books ==> b.id != id
    ensures WithoutId(books, id) == books
  {
    if books != [] {
      WithoutAbsentId(books[1..], id);
    }
  }

  /** Removing by id twice is removing once. */
  lemma {:induction false} WithoutIdIdempotent(books: seq<Book>, id: int)
    ensures WithoutId(WithoutId(books, id), id) == WithoutId(books, id)
  {
    WithoutAbsentId(WithoutId(books, id), id);
  }

  /** Deleting then searching shows the same books as searching then deleting. */
  lemma {:induction false} SearchAfterDelete(books: seq<Book>, id: int, query: string)
    ensures Search(WithoutId(books, id), query) == WithoutId(Search(books, query), id)
  {
    if books != [] {
      SearchAfterDelete(books[1..], id, query);
    }
  }

  /** What the DELETE request's `fetch` did: it resolved with some status, or it rejected. */
  datatype DeleteOutcome = Answered(status: int) | NetworkError

  /** The page's state: `books`, `filteredBooks`, `searchQuery` and `isLoading`. */
  class Page {
    var books: seq<Book>
    var filteredBooks: seq<Book>
    var searchQuery: string
    var isLoading: bool

    /** The list shown is what the filter effect computes from the current state. */
    predicate Displayed()
      reads this
    {
      filteredBooks == Search(books, searchQuery)
    }

    /** The initial state of the `useState` calls. */
    constructor ()
      ensures books == [] && filteredBooks == [] && searchQuery == "" && isLoading
      ensures Displayed()
    {
      books, filteredBooks, searchQuery, isLoading := [], [], "", true;
    }

    /**
     * The load effect: `getBooks()` resolved with `{ data }`, or it threw
     * (`None`), in which case nothing is set and the page keeps loading.
     */
    method Load(data: Option<seq<Book>>)
      modifies this
      ensures searchQuery == old(searchQuery)
      ensures data.Some? ==> books == data.value && filteredBooks == data.value && !isLoading
      ensures data.None? ==> books == old(books) && filteredBooks == old(filteredBooks) && isLoading == old(isLoading)
      ensures data.Some? && searchQuery == "" ==> Displayed()
    {
      if data.Some? {
        books := data.value;
        filteredBooks := data.value;
        isLoading := false;
        EmptyQueryKeepsAll(books);
      }
    }

    /** The search box's `onChange`. */
    method SetSearchQuery(query: string)
      modifies this`searchQuery
      ensures searchQuery == query
    {
      searchQuery := query;
    }

    /** The filter effect, run after every change of `searchQuery` or `books`. */
    method FilterEffect()
      modifies this`filteredBooks
      ensures Displayed()
      ensures forall b :: b in filteredBooks <==> b in books && Matches(b, searchQuery)
      ensures Seqs.IsSubsequence(filteredBooks, books)
    {
      filteredBooks := Search(books, searchQuery);
    }

    /**
     * `deleteBook(id)` with the answer to `confirm`. The returned id is the
     * DELETE sent, if any. The response is never inspected: any status leads
     * to the update, and only a rejected `fetch` prevents it.
     */
    method DeleteBook(id: int, confirmed: bool, outcome: DeleteOutcome) returns (sent: Option<int>)
      modifies this`books
      ensures sent == (if confirmed then Some(id) else None)
      ensures confirmed && outcome.Answered? ==> books == WithoutId(old(books), id)
      ensures !confirmed || outcome.NetworkError? ==> books == old(books)
      ensures forall b :: b in books ==> b in old(books)
      ensures confirmed && outcome.Answered? ==> forall b :: b in books ==> b.id != id
    {
      if confirmed {
        sent := Some(id);
        if outcome.Answered? {
          books := WithoutId(books, id);
        }
      } else {
        sent := None;
      }
    }
  }
}
