/**
 * The home feed: the active posts in their display order, each with the
 * products linked to it. The linked products of all posts arrive as one
 * list of rows tagged with their post; the service groups them by post in
 * a map and then attaches each post's group.
 */
module HomeService {
  import opened Wrappers

  type Id = string

  /** A post row of `listActiveOrdered`. */
  datatype Post = Post(id: Id, imageUrl: string, caption: Option<string>, priority: int, createdAt: string, updatedAt: string)

  /** A row of `listLinkedProductsForPosts`: a product and the post it is linked to. */
  datatype LinkedRow = LinkedRow(
    postId: Id, id: Id, title: string, slug: string, category: string, pricePaise: int, primaryImageUrl: string)

  /** A product as the feed shows it. */
  datatype Card = Card(id: Id, title: string, slug: string, category: string, pricePaise: int, primaryImageUrl: string)

  /** A post of the feed with its products. */
  datatype PostWithProducts = PostWithProducts(
    id: Id, imageUrl: string, caption: Option<string>, priority: int, createdAt: string, updatedAt: string,
    products: seq<Card>)

  /** The card of a linked row: the row without its post id. */
  function CardOf(row: LinkedRow): (c: Card)
    ensures c.id == row.id && c.title == row.title && c.slug == row.slug
    ensures c.category == row.category && c.pricePaise == row.pricePaise && c.primaryImageUrl == row.primaryImageUrl
  {
    Card(row.id, row.title, row.slug, row.category, row.pricePaise, row.primaryImageUrl)
  }

  /** The cards of the rows linked to `postId`, in the order of the rows. */
  function LinkedTo(rows: seq<LinkedRow>, postId: Id): seq<Card> {
    if rows == [] then []
    else LinkedTo(rows[..|rows| - 1], postId) + (if rows[|rows| - 1].postId == postId then [CardOf(rows[|rows| - 1])] else [])
  }

  /** The ids of the posts, passed to the linked-products query. */
  function PostIds(posts: seq<Post>): (ids: seq<Id>)
    ensures |ids| == |posts| && forall i :: 0 <= i < |posts| ==> ids[i] == posts[i].id
  {
    seq(|posts|, i requires 0 <= i < |posts| => posts[i].id)
  }

  /**
   * `listPosts()`: with no active post the result is empty and the linked
   * products are not queried (`queried` is false); otherwise they are
   * queried once for all post ids, and the result keeps the posts, in
   * their order, each with the cards of the rows linked to it.
   * `linkedFor` stands for the linked-products query.
   */
  method ListPosts(posts: seq<Post>, linkedFor: seq<Id> -> seq<LinkedRow>)
    returns (feed: seq<PostWithProducts>, queried: bool)
    ensures queried <==> posts != []
    ensures |feed| == |posts|
    ensures forall i :: 0 <= i < |posts| ==>
      var p, f := posts[i], feed[i];
      && f.id == p.id && f.imageUrl == p.imageUrl && f.caption == p.caption && f.priority == p.priority
      && f.createdAt == p.createdAt && f.updatedAt == p.updatedAt
      && f.products == LinkedTo(linkedFor(PostIds(posts)), p.id)
  {
    if |posts| == 0 {
      return [], false;
    }
    queried := true;
    var linked := linkedFor(PostIds(posts));
    var groups := GroupByPost(linked);
    feed := Attach(posts, groups);
    forall i | 0 <= i < |posts|
      ensures feed[i].products == LinkedTo(linked, posts[i].id)
    {
      if posts[i].id !in groups {
        NoRowsNoCards(linked, posts[i].id);
      }
    }
  }

  /** `posts.map(p => ({...p, products: map.get(p.id) ?? []}))`. */
  function Attach(posts: seq<Post>, groups: map<Id, seq<Card>>): (feed: seq<PostWithProducts>)
    ensures |feed| == |posts|
    ensures forall i :: 0 <= i < |posts| ==>
      var p, f := posts[i], feed[i];
      && f.id == p.id && f.imageUrl == p.imageUrl && f.caption == p.caption && f.priority == p.priority
      && f.createdAt == p.createdAt && f.updatedAt == p.updatedAt
      && f.products == (if p.id in groups then groups[p.id] else [])
  {
    seq(|posts|, i requires 0 <= i < |posts| =>
      var p := posts[i];
      PostWithProducts(p.id, p.imageUrl, p.caption, p.priority, p.createdAt, p.updatedAt,
                       if p.id in groups then groups[p.id] else []))
  }

  /**
   * The grouping loop: a post id gets an entry when its first row is
   * seen, and every row's card is appended to its post's entry. The map
   * ends with one entry per post id that has rows, holding exactly those
   * rows' cards in row order.
   */
  method GroupByPost(rows: seq<LinkedRow>) returns (groups: map<Id, seq<Card>>)
    ensures forall id :: id in groups <==> exists r :: r in rows && r.postId == id
    ensures forall id :: id in groups ==> groups[id] == LinkedTo(rows, id)
  {
    groups := map[];
    var i := 0;
    while i < |rows|
      invariant 0 <= i <= |rows|
      invariant forall id :: id in groups <==> exists r :: r in rows[..i] && r.postId == id
      invariant forall id :: id in groups ==> groups[id] == LinkedTo(rows[..i], id)
    {
      var row := rows[i];
      if row.postId !in groups {
        groups := groups[row.postId := []];
        NoRowsNoCards(rows[..i], row.postId);
      }
      groups := groups[row.postId := groups[row.postId] + [CardOf(row)]];
      assert rows[..i + 1][..i] == rows[..i];
      assert forall r :: r in rows[..i + 1] <==> r in rows[..i] || r == row;
      i := i + 1;
    }
    assert rows[..i] == rows;
  }

  /** A post id no row carries has no cards. */
  lemma {:induction false} NoRowsNoCards(rows: seq<LinkedRow>, postId: Id)
    requires forall r :: r in rows ==> r.postId != postId
    ensures LinkedTo(rows, postId) == []
  {
    if rows != [] {
      assert forall r :: r in rows[..|rows| - 1] ==> r in rows;
      NoRowsNoCards(rows[..|rows| - 1], postId);
    }
  }

  /**
   * Each card under a post comes from a row linked to that post, and the
   * cards keep the order of the rows: the cards are the rows linked to
   * the post, each without its post id.
   */
  lemma {:induction false} LinkedToIsOwnRows(rows: seq<LinkedRow>, postId: Id)
    ensures |LinkedTo(rows, postId)| <= |rows|
    ensures forall c :: c in LinkedTo(rows, postId) ==> exists r :: r in rows && r.postId == postId && c == CardOf(r)
  {
    if rows != [] {
      var init := rows[..|rows| - 1];
      LinkedToIsOwnRows(init, postId);
      assert forall r :: r in init ==> r in rows;
    }
  }

  /** Rows linked to posts not in the feed show up nowhere in it. */
  lemma OtherPostsDropped(rows: seq<LinkedRow>, posts: seq<Post>, row: LinkedRow)
    requires row in rows && forall p :: p in posts ==> p.id != row.postId
    ensures forall p :: p in posts ==> forall c :: c in LinkedTo(rows, p.id) ==> exists r :: r in rows && r.postId == p.id && r != row && c == CardOf(r)
  {
    forall p | p in posts
      ensures forall c :: c in LinkedTo(rows, p.id) ==> exists r :: r in rows && r.postId == p.id && r != row && c == CardOf(r)
    {
      LinkedToIsOwnRows(rows, p.id);
    }
  }

  /** A post gets no products exactly when no row is linked to it. */
  lemma {:induction false} NoCardsIffNoRows(rows: seq<LinkedRow>, postId: Id)
    ensures LinkedTo(rows, postId) == [] <==> forall r :: r in rows ==> r.postId != postId
  {
    if rows != [] {
      var init := rows[..|rows| - 1];
      NoCardsIffNoRows(init, postId);
      assert forall r :: r in rows <==> r in init || r == rows[|rows| - 1];
    }
  }
}
