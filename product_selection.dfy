/**
 * The product picker of the dashboard (`blog-dashboard/src/components/ProductSelectionUI.tsx`):
 * the selection toggle, and the two actions that guard their inputs before asking the
 * server, searching for products and generating a review of the selected ones.
 *
 * The component's state hooks become the fields of `SelectionPanel`; each request's
 * answer is a parameter.
 */
module ProductSelection {
  import opened Strings
  import DmmApi

  /** A product as the search returns it; only `content_id` matters to the selection. */
  datatype Product = Product(contentId: string, title: string)

  /** `prev.some(p => p.content_id === id)`. */
  predicate IsSelected(prev: seq<Product>, id: string) {
    exists k :: 0 <= k < |prev| && prev[k].contentId == id
  }

  /** `prev.filter(p => p.content_id !== id)`. */
  function WithoutId(xs: seq<Product>, id: string): (r: seq<Product>)
    ensures |r| <= |xs|
  {
    if xs == [] then []
    else (if xs[0].contentId == id then [] else [xs[0]]) + WithoutId(xs[1..], id)
  }

  /** The filtered list holds exactly the entries with another id, so none with `id`. */
  lemma {:induction false} WithoutIdMembers(xs: seq<Product>, id: string)
    ensures forall p :: p in WithoutId(xs, id) <==> p in xs && p.contentId != id
    ensures !IsSelected(WithoutId(xs, id), id)
  {
    if xs != [] {
      WithoutIdMembers(xs[1..], id);
      assert xs == [xs[0]] + xs[1..];
      var r := WithoutId(xs, id);
      assert forall k :: 0 <= k < |r| ==> r[k] in r;
    }
  }

  /** Filtering out an id no entry has changes nothing. */
  lemma {:induction false} WithoutAbsentId(xs: seq<Product>, id: string)
    requires !IsSelected(xs, id)
    ensures WithoutId(xs, id) == xs
  {
    if xs != [] {
      assert !IsSelected(xs[1..], id) by {
        forall k | 0 <= k < |xs[1..]|
          ensures xs[1..][k].contentId != id
        {
          assert xs[1..][k] == xs[k + 1];
        }
      }
      WithoutAbsentId(xs[1..], id);
      assert xs[0].contentId != id;
    }
  }

  /** Filtering a concatenation filters each part. */
  lemma {:induction false} WithoutAppend(a: seq<Product>, b: seq<Product>, id: string)
    ensures WithoutId(a + b, id) == WithoutId(a, id) + WithoutId(b, id)
  {
    if a != [] {
      var head := if a[0].contentId == id then [] else [a[0]];
      assert (a + b)[0] == a[0] && (a + b)[1..] == a[1..] + b;
      calc {
        WithoutId(a + b, id);
        head + WithoutId(a[1..] + b, id);
        { WithoutAppend(a[1..], b, id); }
        head + (WithoutId(a[1..], id) + WithoutId(b, id));
        (head + WithoutId(a[1..], id)) + WithoutId(b, id);
        WithoutId(a, id) + WithoutId(b, id);
      }
    } else {
      assert a + b == b;
    }
  }

  /** `toggleProductSelection(product)` on the previous selection. */
  function Toggle(prev: seq<Product>, product: Product): (r: seq<Product>)
    ensures IsSelected(prev, product.contentId) ==> r == WithoutId(prev, product.contentId)
    ensures !IsSelected(prev, product.contentId) ==> r == prev + [product]
  {
    if IsSelected(prev, product.contentId) then WithoutId(prev, product.contentId) else prev + [product]
  }

  /** After a toggle the product's id is selected exactly when it was not before; a
      newly selected product comes last, after the earlier selection. */
  lemma ToggleFlips(prev: seq<Product>, product: Product)
    ensures IsSelected(Toggle(prev, product), product.contentId) <==> !IsSelected(prev, product.contentId)
    ensures !IsSelected(prev, product.contentId) ==>
      |Toggle(prev, product)| == |prev| + 1 && Toggle(prev, product)[..|prev|] == prev &&
      Toggle(prev, product)[|prev|] == product
  {
    var r := Toggle(prev, product);
    if !IsSelected(prev, product.contentId) {
      assert r[|prev|] == product;
    } else {
      WithoutIdMembers(prev, product.contentId);
    }
  }

  /** Deselecting keeps every entry with another id and only those. */
  lemma ToggleKeepsOthers(prev: seq<Product>, product: Product, p: Product)
    requires IsSelected(prev, product.contentId)
    ensures p in Toggle(prev, product) <==> p in prev && p.contentId != product.contentId
  {
    WithoutIdMembers(prev, product.contentId);
  }

  /** Toggling twice from a selection without the id gives the selection back. */
  lemma ToggleTwice(prev: seq<Product>, product: Product)
    requires !IsSelected(prev, product.contentId)
    ensures Toggle(Toggle(prev, product), product) == prev
  {
    var id := product.contentId;
    var once := prev + [product];
    assert IsSelected(once, id) by {
      assert once[|prev|].contentId == id;
    }
    WithoutAppend(prev, [product], id);
    WithoutAbsentId(prev, id);
    assert WithoutId([product], id) == [];
  }

  /** Toggling twice from a selection with the id leaves every other entry in place and
      the product once, at the end. */
  lemma ToggleTwiceSelected(prev: seq<Product>, product: Product)
    requires IsSelected(prev, product.contentId)
    ensures Toggle(Toggle(prev, product), product) == WithoutId(prev, product.contentId) + [product]
  {
    WithoutIdMembers(prev, product.contentId);
  }

  const EmptyQueryError := "検索キーワードを入力してください"
  const NothingFound := "商品が見つかりませんでした"
  const FoundSuffix := "件の商品が見つかりました"
  const SearchFailed := "検索中にエラーが発生しました"
  const SearchErrorPrefix := "検索エラー: "
  const NoSelectionError := "商品を選択してください"
  const GenerateFailed := "記事生成中にエラーが発生しました"
  const GenerateErrorPrefix := "生成エラー: "
  const ReviewDone := "✅ レビュー記事の生成に成功しました！"
  const PostedPrefix := "✅ WordPress投稿完了！ Post ID: "
  const ReviewSource := "dmm"

  /** The answer to the search request: a thrown error's message, or a response with its
      `ok` flag and status and the body's `error` ("" when absent) and `products`. */
  datatype SearchReply =
    | SearchThrew(message: string)
    | SearchResponse(ok: bool, status: nat, error: string, products: Option<seq<Product>>)

  /** The body of the review request. */
  datatype ReviewRequest = ReviewRequest(products: seq<Product>, keyword: string, source: string)

  /** The answer to the review request; `postId` is "" when the body has none. */
  datatype ReviewReply =
    | ReviewThrew(message: string)
    | ReviewResponse(ok: bool, status: nat, error: string, postId: string)

  /** The error text the search shows for a failed reply, or `None` for a good one. */
  function SearchError(reply: SearchReply): (r: Option<string>)
    ensures r.Some? ==> r.value != []
    ensures r.None? <==> reply.SearchResponse? && reply.ok && reply.error == []
  {
    match reply
    case SearchThrew(m) => Some(DmmApi.Or(m, SearchFailed))
    case SearchResponse(ok, status, error, _) =>
      if !ok then Some(SearchErrorPrefix + NatToString(status))
      else if error != [] then Some(error)
      else None
  }

  /** The message for a search that found `n` products. */
  function FoundMessage(n: nat): string {
    if n == 0 then NothingFound else NatToString(n) + FoundSuffix
  }

  /** The error text the review shows for a failed reply, or `None` for a good one. */
  function ReviewError(reply: ReviewReply): (r: Option<string>)
    ensures r.Some? ==> r.value != []
    ensures r.None? <==> reply.ReviewResponse? && reply.ok && reply.error == []
  {
    match reply
    case ReviewThrew(m) => Some(DmmApi.Or(m, GenerateFailed))
    case ReviewResponse(ok, status, error, _) =>
      if !ok then Some(GenerateErrorPrefix + NatToString(status))
      else if error != [] then Some(error)
      else None
  }

  /** The message after a review was generated. */
  function ReviewMessage(postId: string): string {
    if postId != [] then PostedPrefix + postId else ReviewDone
  }

  /** The component's state. */
  class SelectionPanel {
    var searchQuery: string
    var products: seq<Product>
    var selected: seq<Product>
    var loading: bool
    var message: string
    var error: string

    constructor ()
      ensures searchQuery == [] && products == [] && selected == [] && !loading && message == [] && error == []
    {
      searchQuery := [];
      products := [];
      selected := [];
      loading := false;
      message := [];
      error := [];
    }

    /** `searchProducts()`: refused, without a request, when the query is blank;
        otherwise the products found, or an error and no products. `requested` says
        whether the request was made. */
    method SearchProducts(reply: SearchReply) returns (requested: bool)
      modifies this
      ensures requested <==> Trim(old(searchQuery)) != []
      ensures !requested ==>
        error == EmptyQueryError && products == old(products) && message == old(message) && loading == old(loading)
      ensures requested ==> !loading
      ensures requested && SearchError(reply).Some? ==>
        error == SearchError(reply).value && products == [] && message == []
      ensures requested && SearchError(reply).None? ==>
        error == [] && products == Pick(reply.products) && message == FoundMessage(|Pick(reply.products)|)
      ensures searchQuery == old(searchQuery) && selected == old(selected)
    {
      var query := Trim(searchQuery);
      if query == [] {
        error := EmptyQueryError;
        return false;
      }
      Search(reply);
      return true;
    }

    /** The request part of `searchProducts()`, once the query passed the guard. */
    method Search(reply: SearchReply)
      modifies this
      ensures !loading
      ensures SearchError(reply).Some? ==> error == SearchError(reply).value && products == [] && message == []
      ensures SearchError(reply).None? ==>
        error == [] && products == Pick(reply.products) && message == FoundMessage(|Pick(reply.products)|)
      ensures searchQuery == old(searchQuery) && selected == old(selected)
    {
      loading := true;
      error, message := [], [];
      var failure := SearchError(reply);
      if failure.Some? {
        error, products := failure.value, [];
      } else {
        var found := Pick(reply.products);
        products, message := found, FoundMessage(|found|);
      }
      loading := false;
    }

    /** `toggleProductSelection(product)`. */
    method ToggleProductSelection(product: Product)
      modifies this
      ensures selected == Toggle(old(selected), product)
      ensures searchQuery == old(searchQuery) && products == old(products) && loading == old(loading) &&
        message == old(message) && error == old(error)
    {
      selected := Toggle(selected, product);
    }

    /** `generateReview()`: refused, without a request, when nothing is selected;
        otherwise the selection and the query are sent, and a success clears the
        selection while a failure keeps it. */
    method GenerateReview(reply: ReviewReply) returns (request: Option<ReviewRequest>)
      modifies this
      ensures request.None? <==> old(selected) == []
      ensures request.None? ==>
        error == NoSelectionError && selected == old(selected) && message == old(message) && loading == old(loading)
      ensures request.Some? ==> request.value == ReviewRequest(old(selected), old(searchQuery), ReviewSource) && !loading
      ensures request.Some? && ReviewError(reply).Some? ==>
        error == ReviewError(reply).value && message == [] && selected == old(selected)
      ensures request.Some? && ReviewError(reply).None? ==>
        error == [] && message == ReviewMessage(reply.postId) && selected == []
      ensures searchQuery == old(searchQuery) && products == old(products)
    {
      if |selected| == 0 {
        error := NoSelectionError;
        return None;
      }
      loading := true;
      error := [];
      message := [];
      request := Some(ReviewRequest(selected, searchQuery, ReviewSource));
      var failure := ReviewError(reply);
      if failure.Some? {
        error := failure.value;
      } else {
        message := ReviewDone;
        selected := [];
        if reply.postId != [] {
          message := PostedPrefix + reply.postId;
        }
      }
      loading := false;
    }
  }

  /** `data.products || []`. */
  function Pick(products: Option<seq<Product>>): seq<Product> {
    if products.Some? then products.value else []
  }
}
