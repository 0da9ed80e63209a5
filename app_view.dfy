/**
 * The listing view of the single-page app: which restaurants the filters
 * keep, their order by rating, and the guards in front of a search.
 * Restaurants are read through a typed view holding the fields the view
 * inspects; a rating is a real number.
 */
module AppView {
  import opened Wrappers
  import opened Text
  import opened RestaurantService

  datatype Category = Category(alias: string, title: string)

  datatype Card = Card(businessId: string, name: string, price: string, rating: real, categories: seq<Category>)

  datatype TimeFilter = TimeFilter(openTime: Option<string>, closeTime: Option<string>)

  /** The filter state: price, opening window, minimum stars and category (the empty string is unset). */
  datatype Filters = Filters(price: Option<string>, time: TimeFilter, stars: Option<real>, category: string)

  const BlankSearchError := "Please enter a search term"
  const SignInError := "Please sign in to search for restaurants"

  /** JavaScript truthiness of a `string | null` state. */
  predicate IsSet(s: Option<string>) {
    s.Some? && s.value != ""
  }

  /** JavaScript truthiness of a `number | undefined` state. */
  predicate StarsSet(s: Option<real>) {
    s.Some? && s.value != 0.0
  }

  /** `cat.alias === category || cat.title.toLowerCase() === category.toLowerCase()`. */
  predicate CategoryMatches(c: Category, category: string) {
    c.alias == category || AsciiLower(c.title) == AsciiLower(category)
  }

  /** `restaurant.categories.some(...)`. */
  predicate SomeCategory(cats: seq<Category>, category: string) {
    exists i :: 0 <= i < |cats| && CategoryMatches(cats[i], category)
  }

  /**
   * The filter callback, its early returns in the source's order. A
   * restaurant is kept when its price passes and either both opening
   * times are set or it passes the star and category checks.
   */
  predicate Keep(r: Card, f: Filters)
    // a readable summary of the early returns below; the filter's promises are the lemmas after FilterCards
    ensures Keep(r, f) <==>
      (!IsSet(f.price) || r.price == f.price.value)
      && ((IsSet(f.time.openTime) && IsSet(f.time.closeTime))
          || ((!StarsSet(f.stars) || r.rating >= f.stars.value)
              && (f.category == "" || SomeCategory(r.categories, f.category))))
  {
    if IsSet(f.price) && r.price != f.price.value then false
    else if IsSet(f.time.openTime) && IsSet(f.time.closeTime) then true
    else if StarsSet(f.stars) && r.rating < f.stars.value then false
    else if f.category != "" && !SomeCategory(r.categories, f.category) then false
    else true
  }

  /** `restaurants.filter(...)`: the kept restaurants, in their order. */
  function FilterCards(rs: seq<Card>, f: Filters): (r: seq<Card>)
    ensures |r| <= |rs|
    ensures forall x :: x in r <==> x in rs && Keep(x, f)
    ensures multiset(r) <= multiset(rs)
  {
    if rs == [] then []
    else
      var rest := FilterCards(rs[1..], f);
      assert rs == [rs[0]] + rs[1..];
      if Keep(rs[0], f) then [rs[0]] + rest else rest
  }

  /** Each restaurant is rated at least as high as the next one. */
  predicate NonIncreasing(s: seq<Card>)
    decreases |s|
  {
    |s| <= 1 || (s[0].rating >= s[1].rating && NonIncreasing(s[1..]))
  }

  /** In a non-increasing list every restaurant is rated at least as high as every later one. */
  lemma {:induction false} NonIncreasingPairwise(s: seq<Card>, i: nat, j: nat)
    requires NonIncreasing(s) && i < j < |s|
    ensures s[i].rating >= s[j].rating
    decreases |s|
  {
    if i > 0 {
      NonIncreasingPairwise(s[1..], i - 1, j - 1);
      assert s[1..][i - 1] == s[i] && s[1..][j - 1] == s[j];
    } else if j > 1 {
      NonIncreasingPairwise(s[1..], 0, j - 1);
      assert s[1..][0] == s[1] && s[1..][j - 1] == s[j];
    }
  }

  /** `x` placed before the first element rated no higher than it: after every higher and before every equal one. */
  function InsertByRating(x: Card, sorted: seq<Card>): (r: seq<Card>)
    requires NonIncreasing(sorted)
    ensures NonIncreasing(r)
    ensures |r| == |sorted| + 1 && (r[0] == x || (sorted != [] && r[0] == sorted[0]))
  {
    if sorted == [] || sorted[0].rating <= x.rating then
      ConsNonIncreasing(x, sorted);
      [x] + sorted
    else
      var rest := InsertByRating(x, sorted[1..]);
      InsertBehindHead(x, sorted, rest);
      [sorted[0]] + rest
  }

  /** The head of `sorted`, rated higher than `x`, stays in front of the tail `x` was inserted into. */
  lemma InsertBehindHead(x: Card, sorted: seq<Card>, rest: seq<Card>)
    requires NonIncreasing(sorted) && sorted != [] && sorted[0].rating > x.rating
    requires NonIncreasing(rest)
    requires |rest| == |sorted| && (rest[0] == x || (sorted[1..] != [] && rest[0] == sorted[1..][0]))
    ensures NonIncreasing([sorted[0]] + rest)
  {
    ConsNonIncreasing(sorted[0], rest);
  }

  /** Inserting adds exactly `x`: the result is a permutation of `sorted` with `x`. */
  lemma {:induction false} InsertPermutes(x: Card, sorted: seq<Card>)
    requires NonIncreasing(sorted)
    ensures multiset(InsertByRating(x, sorted)) == multiset(sorted) + multiset{x}
    decreases |sorted|
  {
    if sorted != [] && sorted[0].rating > x.rating {
      InsertPermutes(x, sorted[1..]);
      assert sorted == [sorted[0]] + sorted[1..];
    }
  }

  /** A head rated at least as high as the head of a non-increasing list (and so as all of it) keeps it non-increasing. */
  lemma ConsNonIncreasing(h: Card, rest: seq<Card>)
    requires NonIncreasing(rest)
    requires rest == [] || rest[0].rating <= h.rating
    ensures NonIncreasing([h] + rest)
  {
    assert ([h] + rest)[1..] == rest;
  }

  /** `.sort((a, b) => b.rating - a.rating)` with the stable sort of current JavaScript engines. */
  function SortByRating(s: seq<Card>): (r: seq<Card>)
    ensures NonIncreasing(r)
    ensures |r| == |s|
  {
    if s == [] then []
    else InsertByRating(s[0], SortByRating(s[1..]))
  }

  /** The sort is a permutation: each restaurant occurs in the result as often as in the input. */
  lemma {:induction false} SortPermutes(s: seq<Card>)
    ensures multiset(SortByRating(s)) == multiset(s)
    decreases |s|
  {
    if s != [] {
      SortPermutes(s[1..]);
      InsertPermutes(s[0], SortByRating(s[1..]));
      assert s == [s[0]] + s[1..];
    }
  }

  /** `filteredRestaurants`. */
  function FilteredRestaurants(rs: seq<Card>, f: Filters): seq<Card> {
    SortByRating(FilterCards(rs, f))
  }

  /**
   * The list shown is ordered by rating, non-increasing, and holds exactly
   * the restaurants the filter keeps, each as often as it occurs in the input.
   */
  lemma FilteredRestaurantsSpec(rs: seq<Card>, f: Filters)
    ensures NonIncreasing(FilteredRestaurants(rs, f))
    ensures multiset(FilteredRestaurants(rs, f)) == multiset(FilterCards(rs, f))
    ensures forall x :: x in FilteredRestaurants(rs, f) <==> x in rs && Keep(x, f)
  {
    var r := FilteredRestaurants(rs, f);
    SortPermutes(FilterCards(rs, f));
    forall x
      ensures x in r <==> x in FilterCards(rs, f)
    {
      assert x in r <==> x in multiset(r);
      assert x in FilterCards(rs, f) <==> x in multiset(FilterCards(rs, f));
    }
  }

  /** With a price filter set, every restaurant shown has exactly that price. */
  lemma PriceFilterExact(rs: seq<Card>, f: Filters)
    requires IsSet(f.price)
    ensures forall x :: x in FilteredRestaurants(rs, f) ==> x.price == f.price.value
  {
    FilteredRestaurantsSpec(rs, f);
  }

  /** With both opening times set, a restaurant that passes the price check is shown whatever its stars and categories. */
  lemma OpeningWindowBypasses(rs: seq<Card>, f: Filters, x: Card)
    requires IsSet(f.time.openTime) && IsSet(f.time.closeTime)
    requires x in rs && (!IsSet(f.price) || x.price == f.price.value)
    ensures x in FilteredRestaurants(rs, f)
  {
    FilteredRestaurantsSpec(rs, f);
  }

  /** Without the opening-window shortcut, a restaurant rated below the star filter is never shown. */
  lemma StarFilterExcludes(rs: seq<Card>, f: Filters, x: Card)
    requires !(IsSet(f.time.openTime) && IsSet(f.time.closeTime))
    requires StarsSet(f.stars) && x.rating < f.stars.value
    ensures x !in FilteredRestaurants(rs, f)
  {
    FilteredRestaurantsSpec(rs, f);
  }

  /**
   * Without the opening-window shortcut, a restaurant of the input that passes
   * the price and star checks is shown exactly when one of its categories has
   * the selected alias or, ignoring ASCII case, the selected title.
   */
  lemma CategoryFilterIff(rs: seq<Card>, f: Filters, x: Card)
    requires !(IsSet(f.time.openTime) && IsSet(f.time.closeTime)) && f.category != ""
    requires x in rs && (!IsSet(f.price) || x.price == f.price.value)
    requires !StarsSet(f.stars) || x.rating >= f.stars.value
    ensures x in FilteredRestaurants(rs, f) <==>
      exists i :: 0 <= i < |x.categories| && (x.categories[i].alias == f.category || AsciiLower(x.categories[i].title) == AsciiLower(f.category))
  {
    FilteredRestaurantsSpec(rs, f);
  }

  /** `u` occurs in `r` at some position before an occurrence of `v`. */
  predicate Before(r: seq<Card>, u: Card, v: Card) {
    exists c, d :: 0 <= c < d < |r| && r[c] == u && r[d] == v
  }

  lemma BeforeAt(r: seq<Card>, u: Card, v: Card, c: nat, d: nat)
    requires c < d < |r| && r[c] == u && r[d] == v
    ensures Before(r, u, v)
  {
  }

  /** Putting an element in front keeps every `Before` relation. */
  lemma BeforeCons(h: Card, r: seq<Card>, u: Card, v: Card)
    requires Before(r, u, v)
    ensures Before([h] + r, u, v)
  {
    var c, d :| 0 <= c < d < |r| && r[c] == u && r[d] == v;
    BeforeAt([h] + r, u, v, c + 1, d + 1);
  }

  /** The head of a list comes before any element of its tail. */
  lemma BeforeHead(h: Card, r: seq<Card>, v: Card)
    requires v in multiset(r)
    ensures Before([h] + r, h, v)
  {
    var d :| 0 <= d < |r| && r[d] == v;
    BeforeAt([h] + r, h, v, 0, d + 1);
  }

  /** The sort is stable: of two distinct, equally rated restaurants, the one earlier in the input is shown earlier. */
  lemma {:induction false} SortIsStable(s: seq<Card>, i: nat, j: nat)
    requires i < j < |s| && s[i].rating == s[j].rating && s[i] != s[j]
    ensures Before(SortByRating(s), s[i], s[j])
    decreases |s|
  {
    var tail := s[1..];
    assert tail[j - 1] == s[j];
    assert i > 0 ==> tail[i - 1] == s[i];
    var rest := SortByRating(tail);
    assert SortByRating(s) == InsertByRating(s[0], rest);
    if i == 0 {
      InsertAheadOfTail(s[0], tail, j - 1);
    } else {
      SortIsStable(tail, i - 1, j - 1);
      InsertKeepsOrder(s[0], rest, s[i], s[j]);
    }
  }

  /** The head of the input, inserted into the sorted tail, lands before every equally rated element of that tail. */
  lemma InsertAheadOfTail(x: Card, tail: seq<Card>, j: nat)
    requires j < |tail| && tail[j].rating == x.rating && tail[j] != x
    ensures Before(InsertByRating(x, SortByRating(tail)), x, tail[j])
  {
    var rest := SortByRating(tail);
    SortPermutes(tail);
    assert tail[j] in multiset(tail);
    assert tail[j] in multiset(rest);
    var k :| 0 <= k < |rest| && rest[k] == tail[j];
    InsertBeforeEqual(x, rest, k);
  }

  /** Inserting an element keeps the relative order of the others. */
  lemma {:induction false} InsertKeepsOrder(x: Card, sorted: seq<Card>, u: Card, v: Card)
    requires NonIncreasing(sorted) && Before(sorted, u, v)
    ensures Before(InsertByRating(x, sorted), u, v)
    decreases |sorted|
  {
    var c, d :| 0 <= c < d < |sorted| && sorted[c] == u && sorted[d] == v;
    if sorted[0].rating <= x.rating {
      assert InsertByRating(x, sorted) == [x] + sorted;
      BeforeCons(x, sorted, u, v);
    } else {
      var tail := sorted[1..];
      var inserted := InsertByRating(x, tail);
      assert InsertByRating(x, sorted) == [sorted[0]] + inserted;
      assert tail[d - 1] == sorted[d];
      if c == 0 {
        HeadBeforeInserted(sorted[0], x, tail, d - 1);
      } else {
        assert tail[c - 1] == sorted[c];
        BeforeAt(tail, u, v, c - 1, d - 1);
        InsertKeepsOrder(x, tail, u, v);
        BeforeCons(sorted[0], inserted, u, v);
      }
    }
  }

  /** A head stays ahead of every element of its tail once another element is inserted into the tail. */
  lemma HeadBeforeInserted(h: Card, x: Card, tail: seq<Card>, d: nat)
    requires NonIncreasing(tail) && d < |tail|
    ensures Before([h] + InsertByRating(x, tail), h, tail[d])
  {
    var inserted := InsertByRating(x, tail);
    InsertPermutes(x, tail);
    assert tail[d] in multiset(tail);
    assert tail[d] in multiset(inserted);
    BeforeHead(h, inserted, tail[d]);
  }

  /** An element inserted ahead of an equally rated one lands before it. */
  lemma {:induction false} InsertBeforeEqual(x: Card, sorted: seq<Card>, j: nat)
    requires NonIncreasing(sorted) && j < |sorted| && sorted[j].rating == x.rating && sorted[j] != x
    ensures Before(InsertByRating(x, sorted), x, sorted[j])
    decreases j
  {
    if sorted[0].rating <= x.rating {
      BeforeAt([x] + sorted, x, sorted[j], 0, j + 1);
    } else {
      assert j > 0;
      var tail := sorted[1..];
      assert tail[j - 1] == sorted[j];
      InsertBeforeEqual(x, tail, j - 1);
      BeforeCons(sorted[0], InsertByRating(x, tail), x, sorted[j]);
    }
  }

  // ---------------------------------------------------------------------------
  // handleSearch

  datatype SearchStep =
    | Refused(error: string)
    | Requested(params: seq<(string, ParamValue)>)

  /** The parameter object `handleSearch` passes: the trimmed term as both term and location, and the price filter. */
  function SearchParams(term: string, price: Option<string>): seq<(string, ParamValue)> {
    [("term", PString(term)), ("location", PString(term)),
     ("price", if price.Some? then PString(price.value) else PUndefined)]
  }

  /** `handleSearch`: a blank search is refused first, then a signed-out user; otherwise one search request goes out. */
  function HandleSearch(search: string, signedIn: bool, price: Option<string>): (r: SearchStep)
    ensures Trim(search) == "" ==> r == Refused(BlankSearchError)
    ensures Trim(search) != "" && !signedIn ==> r == Refused(SignInError)
    ensures r.Requested? <==> Trim(search) != "" && signedIn
  {
    if Trim(search) == "" then Refused(BlankSearchError)
    else if !signedIn then Refused(SignInError)
    else Requested(SearchParams(Trim(search), price))
  }

  /** The query the parameter object sends: the term as `term` and `location`, then the converted price when one is set. */
  lemma SearchParamsQuery(t: string, price: Option<string>)
    ensures SearchQuery(SearchParams(t, price))
      == [("term", t), ("location", t)] + (if IsSet(price) then [("price", NatToString(|price.value|))] else [])
  {
    var params := SearchParams(t, price);
    var first := [("term", PString(t))];
    var two := first + [("location", PString(t))];
    assert first[..0] == [];
    assert SearchQuery(first) == [("term", t)];
    assert two[..1] == first;
    assert SearchQuery(two) == [("term", t), ("location", t)];
    assert params[..2] == two;
    assert EntryQuery("price", params[2].1) == (if IsSet(price) then [("price", NatToString(|price.value|))] else []);
  }

  /** The query a permitted search sends: the trimmed search as `term` and `location`, then the price filter converted to its length when one is set. */
  lemma SearchRequestQuery(search: string, signedIn: bool, price: Option<string>)
    requires HandleSearch(search, signedIn, price).Requested?
    ensures SearchQuery(HandleSearch(search, signedIn, price).params)
      == [("term", Trim(search)), ("location", Trim(search))]
         + (if IsSet(price) then [("price", NatToString(|price.value|))] else [])
  {
    SearchParamsQuery(Trim(search), price);
  }

  /** A search of Unicode space separators only (here an em space) is blank, and one that has them around a word sends the bare word. */
  lemma SpaceSeparatorsTrimmed(signedIn: bool, price: Option<string>)
    ensures HandleSearch("\U{2003}", signedIn, price) == Refused(BlankSearchError)
    ensures signedIn ==> HandleSearch("\U{2003}abc\U{205F}", signedIn, price) == Requested(SearchParams("abc", price))
  {
    assert "\U{2003}"[1..] == [];
    assert "\U{2003}abc\U{205F}" == ['\U{2003}'] + "abc" + ['\U{205F}'];
    TrimSurrounded('\U{2003}', "abc", '\U{205F}');
  }
}
