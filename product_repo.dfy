/**
 * The products repository: inserting a product under the slug of its
 * title, searching for the first free slug, the COALESCE update, lookup
 * and soft delete of live rows, and the owner's paged listing. The
 * `products.slug` column is UNIQUE over the whole table, deleted rows
 * included; a write that would repeat a slug fails with the database's
 * unique-violation error.
 */
module ProductRepo {
  import opened Wrappers
  import opened Db
  import opened Errors
  import opened Query
  import opened Placeholders
  import opened Slug
  import opened Digits

  /** A row is live while `deleted_at` is NULL. */
  predicate Live(p: Product) {
    p.deletedAt.None?
  }

  /** Some row other than `id` already holds `slug`, deleted or not: the UNIQUE index refuses a second one. */
  predicate SlugHeld(products: map<Id, Product>, slug: string, id: Id) {
    exists k :: k in products && k != id && products[k].slug == slug
  }

  // ---------------------------------------------------------------------
  // Unique slugs.
  // ---------------------------------------------------------------------

  /** `toSlug(base) || "item"`. */
  function BaseSlug(base: string): (r: string)
    ensures r != []
    ensures ToSlug(base) != [] ==> r == ToSlug(base)
    ensures ToSlug(base) == [] ==> r == "item"
  {
    var s := ToSlug(base);
    if s == [] then "item" else s
  }

  /** The i-th candidate: the slug itself, then `${slug}-${i}`. */
  function Candidate(slug: string, i: nat): (r: string)
    ensures i == 0 ==> r == slug
    ensures i > 0 ==> r == slug + "-" + ToDecimal(i)
  {
    if i == 0 then slug else slug + "-" + ToDecimal(i)
  }

  /** Distinct counters give distinct candidates. */
  lemma CandidatesDistinct(slug: string, i: nat, j: nat)
    requires i != j
    ensures Candidate(slug, i) != Candidate(slug, j)
  {
    if i > 0 && j > 0 && Candidate(slug, i) == Candidate(slug, j) {
      var n := |slug| + 1;
      assert Candidate(slug, i)[n..] == ToDecimal(i);
      assert Candidate(slug, j)[n..] == ToDecimal(j);
      ToDecimalInjective(i, j);
    }
  }

  /** `exceptId ? "AND id<>$2" : ""`: an empty or absent id excludes nothing. */
  predicate Excepted(exceptId: Option<Id>, k: Id) {
    exceptId.Some? && exceptId.value != "" && k == exceptId.value
  }

  /** The rows the uniqueness query counts: live rows holding the candidate, other than `exceptId`. */
  function Holders(products: map<Id, Product>, candidate: string, exceptId: Option<Id>): (r: set<Id>)
    ensures r <= products.Keys
    ensures forall k :: k in r <==> k in products && products[k].slug == candidate && Live(products[k]) && !Excepted(exceptId, k)
  {
    set k | k in products && products[k].slug == candidate && Live(products[k]) && !Excepted(exceptId, k)
  }

  /** The i-th candidate is in use by some live row other than `exceptId`. */
  predicate Taken(products: map<Id, Product>, slug: string, exceptId: Option<Id>, i: nat) {
    Holders(products, Candidate(slug, i), exceptId) != {}
  }

  /** A subset is no larger than its superset. */
  lemma {:induction false} SubsetCard<T>(a: set<T>, b: set<T>)
    requires a <= b
    ensures |a| <= |b|
    decreases |b|
  {
    if a != {} {
      var x :| x in a;
      SubsetCard(a - {x}, b - {x});
    }
  }

  /**
   * `ensureUniqueSlug(base, exceptId)`: the first of slug, slug-1, slug-2, …
   * that no live row other than `exceptId` holds, where slug is
   * `toSlug(base)`, or "item" when that is empty. The search ends because
   * each taken candidate is held by a different row.
   */
  method EnsureUniqueSlug(db: Database, base: string, exceptId: Option<Id>) returns (r: string)
    ensures Holders(db.products, r, exceptId) == {}
    ensures exists n: nat ::
      r == Candidate(BaseSlug(base), n) && forall j: nat :: j < n ==> Taken(db.products, BaseSlug(base), exceptId, j)
  {
    var slug := BaseSlug(base);
    var i: nat := 0;
    // Each taken candidate so far, by the row found holding it.
    ghost var held: map<Id, nat> := map[];
    while true
      invariant held.Keys <= db.products.Keys && |held.Keys| == i
      invariant forall k :: k in held ==> held[k] < i && db.products[k].slug == Candidate(slug, held[k])
      invariant forall j: nat :: j < i ==> Taken(db.products, slug, exceptId, j)
      decreases |db.products.Keys| - |held.Keys|
    {
      SubsetCard(held.Keys, db.products.Keys);
      var candidate := Candidate(slug, i);
      var count := |Holders(db.products, candidate, exceptId)|;
      if count == 0 {
        return candidate;
      }
      ghost var w :| w in Holders(db.products, candidate, exceptId);
      NewHolder(db.products, slug, exceptId, held, i, w);
      TakenUpTo(db.products, slug, exceptId, i);
      held := held[w := i];
      i := i + 1;
    }
  }

  /** The candidates before i were taken, and so is the i-th: those before i + 1 are. */
  lemma TakenUpTo(products: map<Id, Product>, slug: string, exceptId: Option<Id>, i: nat)
    requires forall j: nat :: j < i ==> Taken(products, slug, exceptId, j)
    requires Taken(products, slug, exceptId, i)
    ensures forall j: nat :: j < i + 1 ==> Taken(products, slug, exceptId, j)
  {
  }

  /**
   * A row holding the i-th candidate has not been seen holding an earlier
   * one, so recording it grows the set of rows seen by one.
   */
  lemma NewHolder(products: map<Id, Product>, slug: string, exceptId: Option<Id>, held: map<Id, nat>, i: nat, w: Id)
    requires held.Keys <= products.Keys
    requires forall k :: k in held ==> held[k] < i && products[k].slug == Candidate(slug, held[k])
    requires w in Holders(products, Candidate(slug, i), exceptId)
    ensures Taken(products, slug, exceptId, i)
    ensures w !in held
    ensures held[w := i].Keys <= products.Keys && |held[w := i].Keys| == |held.Keys| + 1
    ensures forall k :: k in held[w := i] ==> held[w := i][k] < i + 1 && products[k].slug == Candidate(slug, held[w := i][k])
  {
    if w in held {
      CandidatesDistinct(slug, i, held[w]);
      assert false;
    }
    assert held[w := i].Keys == held.Keys + {w};
  }

  /** When the plain slug is free the search returns it unchanged. */
  lemma FreeSlugKept(products: map<Id, Product>, base: string, exceptId: Option<Id>, r: string, n: nat)
    requires r == Candidate(BaseSlug(base), n)
    requires forall j: nat :: j < n ==> Taken(products, BaseSlug(base), exceptId, j)
    ensures !Taken(products, BaseSlug(base), exceptId, 0) ==> r == BaseSlug(base)
  {
    if n > 0 {
      assert Taken(products, BaseSlug(base), exceptId, 0);
    }
  }

  /**
   * The search skips only live rows, while the UNIQUE index also counts
   * deleted ones: when the only holder of the plain slug is a deleted
   * product, the search finds it free, so returns it, and the index
   * refuses it for any other row.
   */
  lemma DeletedSlugReturned(products: map<Id, Product>, base: string, other: Id, id: Id)
    requires other in products && other != id && products[other].slug == BaseSlug(base) && !Live(products[other])
    requires forall k :: k in products && k != other ==> products[k].slug != BaseSlug(base)
    ensures Holders(products, BaseSlug(base), Some(id)) == {}
    ensures SlugHeld(products, BaseSlug(base), id)
  {
  }

  // ---------------------------------------------------------------------
  // Rows.
  // ---------------------------------------------------------------------

  /** The columns `create` takes. */
  datatype NewProduct = NewProduct(
    id: Id, title: string, category: string, pricePaise: int,
    description: Option<string>, authenticityNote: Option<string>, active: bool, stockQty: Option<int>)

  /** The inserted row: the slug is `toSlug(title)` as it is, timestamps now, not deleted. */
  function CreatedRow(input: NewProduct, now: Time): (p: Product)
    ensures p.slug == ToSlug(input.title) && p.title == input.title && Live(p)
    ensures p.category == input.category && p.pricePaise == input.pricePaise && p.stockQty == input.stockQty
    ensures p.description == input.description && p.authenticityNote == input.authenticityNote && p.active == input.active
    ensures p.createdAt == now && p.updatedAt == now
  {
    Product(input.title, ToSlug(input.title), input.category, input.pricePaise, input.description,
            input.authenticityNote, input.active, input.stockQty, now, now, None)
  }

  /**
   * `create(input)`: one INSERT. No uniqueness search runs, so a title
   * whose slug some row already holds, or a used id, fails with nothing
   * written.
   */
  method Create(db: Database, input: NewProduct, now: Time) returns (r: Result<Product>)
    modifies db`products
    ensures input.id in old(db.products) || SlugHeld(old(db.products), ToSlug(input.title), input.id) ==>
      r == Err(DuplicateKey) && db.products == old(db.products)
    ensures !(input.id in old(db.products) || SlugHeld(old(db.products), ToSlug(input.title), input.id)) ==>
      r == Ok(CreatedRow(input, now)) && db.products == old(db.products)[input.id := CreatedRow(input, now)]
  {
    var row := CreatedRow(input, now);
    if input.id in db.products || SlugHeld(db.products, row.slug, input.id) {
      return Err(DuplicateKey);
    }
    db.products := db.products[input.id := row];
    r := Ok(row);
  }

  /** Two products with the same title: the second insert is refused. */
  lemma SameTitleTwiceRefused(products: map<Id, Product>, first: NewProduct, second: NewProduct, now: Time)
    requires first.id != second.id && first.title == second.title
    ensures SlugHeld(products[first.id := CreatedRow(first, now)], ToSlug(second.title), second.id)
  {
    var after := products[first.id := CreatedRow(first, now)];
    assert first.id in after && after[first.id].slug == ToSlug(second.title);
  }

  /** A patch: each field absent or null (None) leaves the column as it is. */
  datatype ProductPatch = ProductPatch(
    title: Option<string>, category: Option<string>, pricePaise: Option<int>,
    description: Option<string>, authenticityNote: Option<string>, active: Option<bool>, stockQty: Option<int>)

  /** `if (patch.title)`: a present, non-empty title. */
  predicate RetitlesSlug(patch: ProductPatch) {
    patch.title.Some? && patch.title.value != ""
  }

  /**
   * The row after `SET col = COALESCE($n, col)` for each patch field,
   * `updated_at = NOW()` and the slug given: a NULL argument keeps the
   * column, so a nullable column such as `stock_qty` cannot be set back
   * to NULL.
   */
  function Patched(p: Product, patch: ProductPatch, slug: string, now: Time): (q: Product)
    ensures q.title == patch.title.GetOr(p.title) && q.category == patch.category.GetOr(p.category)
    ensures q.pricePaise == patch.pricePaise.GetOr(p.pricePaise) && q.active == patch.active.GetOr(p.active)
    ensures patch.description.Some? ==> q.description == patch.description
    ensures patch.description.None? ==> q.description == p.description
    ensures patch.authenticityNote.Some? ==> q.authenticityNote == patch.authenticityNote
    ensures patch.authenticityNote.None? ==> q.authenticityNote == p.authenticityNote
    ensures patch.stockQty.Some? ==> q.stockQty == patch.stockQty
    ensures patch.stockQty.None? ==> q.stockQty == p.stockQty
    ensures q.slug == slug && q.updatedAt == now && q.createdAt == p.createdAt && q.deletedAt == p.deletedAt
  {
    p.(title := patch.title.GetOr(p.title), slug := slug, category := patch.category.GetOr(p.category),
       pricePaise := patch.pricePaise.GetOr(p.pricePaise),
       description := if patch.description.Some? then patch.description else p.description,
       authenticityNote := if patch.authenticityNote.Some? then patch.authenticityNote else p.authenticityNote,
       active := patch.active.GetOr(p.active),
       stockQty := if patch.stockQty.Some? then patch.stockQty else p.stockQty, updatedAt := now)
  }

  /** Once a product has a stock quantity, no patch makes it NULL again. */
  lemma StockNeverCleared(p: Product, patch: ProductPatch, slug: string, now: Time)
    requires p.stockQty.Some?
    ensures Patched(p, patch, slug, now).stockQty.Some?
  {
  }

  /** A patch with no fields changes nothing but `updated_at` (and the slug it is given). */
  lemma EmptyPatchKeepsColumns(p: Product, now: Time)
    ensures Patched(p, ProductPatch(None, None, None, None, None, None, None), p.slug, now) == p.(updatedAt := now)
  {
  }

  /**
   * `update(id, patch)`: a truthy title first picks a fresh slug for it
   * (excluding the row itself); then the live row, if any, is patched
   * and returned; a missing or deleted row gives null. A slug that a
   * deleted row still holds is refused by the UNIQUE index.
   */
  method Update(db: Database, id: Id, patch: ProductPatch, now: Time) returns (r: Result<Option<Product>>)
    modifies db`products
    ensures id !in old(db.products) || !Live(old(db.products)[id]) ==> r == Ok(None) && db.products == old(db.products)
    ensures r.Err? ==> r == Err(DuplicateKey) && db.products == old(db.products)
    ensures r.Ok? && r.value.Some? ==>
      && id in old(db.products) && Live(old(db.products)[id])
      && db.products == old(db.products)[id := r.value.value]
      && !SlugHeld(old(db.products), r.value.value.slug, id)
      && (!RetitlesSlug(patch) ==> r.value.value == Patched(old(db.products)[id], patch, old(db.products)[id].slug, now))
      && (RetitlesSlug(patch) ==>
            && r.value.value == Patched(old(db.products)[id], patch, r.value.value.slug, now)
            && Holders(old(db.products), r.value.value.slug, Some(id)) == {}
            && exists n: nat :: r.value.value.slug == Candidate(BaseSlug(patch.title.value), n))
    ensures (id in old(db.products) && Live(old(db.products)[id]) && !RetitlesSlug(patch)
             && !SlugHeld(old(db.products), old(db.products)[id].slug, id)) ==> r.Ok? && r.value.Some?
  {
    var slug := if id in db.products then db.products[id].slug else "";
    if RetitlesSlug(patch) {
      slug := EnsureUniqueSlug(db, patch.title.value, Some(id));
    }
    if id !in db.products || !Live(db.products[id]) {
      return Ok(None);
    }
    var row := Patched(db.products[id], patch, slug, now);
    if SlugHeld(db.products, slug, id) {
      return Err(DuplicateKey);
    }
    db.products := db.products[id := row];
    r := Ok(Some(row));
  }

  // ---------------------------------------------------------------------
  // The update as written. With a title, `slug = $1` takes the first
  // placeholder, so the SET list reads $2..$8 and the WHERE $9, while the
  // values are still [title, category, price, description, note, active,
  // stock, newSlug, id]: each column reads the value meant for the one
  // before it, and `stock_qty` reads the new slug.
  // ---------------------------------------------------------------------

  const MinInt4 := -0x8000_0000
  const MaxInt4 := 0x7fff_ffff

  /**
   * A bound value's text read as an INT column: an optional sign, then
   * one or more decimal digits, within the 32-bit range.
   */
  function ParseInt4(s: string): (r: Option<int>)
    ensures r.Some? ==> MinInt4 <= r.value <= MaxInt4
    ensures r.Some? ==> AllDigits(s) || (|s| > 1 && (s[0] == '+' || s[0] == '-') && AllDigits(s[1..]))
  {
    if s != [] && AllDigits(s) then
      if Digits.Value(s) <= MaxInt4 then Some(Digits.Value(s)) else None
    else if |s| > 1 && (s[0] == '+' || s[0] == '-') && AllDigits(s[1..]) then
      var m := if s[0] == '-' then 0 - Digits.Value(s[1..]) else Digits.Value(s[1..]);
      if MinInt4 <= m <= MaxInt4 then Some(m) else None
    else None
  }

  /** The decimal text of a number within range reads back as that number. */
  lemma Int4OfDecimal(n: nat)
    requires n <= MaxInt4
    ensures ParseInt4(ToDecimal(n)) == Some(n)
  {
    ValueOfToDecimal(n);
  }

  /** A text with a letter in it is never an integer. */
  lemma LetterNeverInt4(s: string, i: nat)
    requires i < |s| && 'a' <= s[i] <= 'z'
    ensures ParseInt4(s).None?
  {
  }

  /** `String(n)` of an integer. */
  function IntText(n: int): (r: string)
    ensures r != [] && (r[0] == '-' || IsDigit(r[0]))
  {
    if n < 0 then "-" + ToDecimal(-n) else ToDecimal(n)
  }

  /** A bound value's text read as the `product_category` enum. */
  function ParseCategory(s: string): (r: Option<string>)
    ensures r.Some? ==> r.value == s && s != [] && s[0] in "RGA"
  {
    if s == "RUDRAKSHA" || s == "GEMSTONE" || s == "ACCESSORY" then Some(s) else None
  }

  /** A price's text is never a category. */
  lemma PriceNeverCategory(n: int)
    ensures ParseCategory(IntText(n)).None?
  {
  }

  /** `String(b)` of a boolean, as the driver sends it. */
  function BoolText(b: bool): (r: string)
    ensures b <==> r == "true"
  {
    if b then "true" else "false"
  }

  /**
   * A stock quantity's text read as a BOOLEAN column: among the texts of
   * integers only "1" and "0" are boolean spellings.
   */
  function StockAsBool(n: int): (r: Option<bool>)
    ensures r.Some? <==> n == 0 || n == 1
    ensures r.Some? ==> (r.value <==> n == 1)
  {
    if n == 1 then Some(true) else if n == 0 then Some(false) else None
  }

  /**
   * The patch the as-written UPDATE applies after a retitle: each column
   * reads its left neighbour's value, as text read by its own type; None
   * when one of those texts is not valid for its column.
   */
  function ShiftedPatch(patch: ProductPatch, newSlug: string): (r: Option<ProductPatch>)
    ensures r.None? <==>
      || patch.pricePaise.Some?
      || (patch.description.Some? && ParseInt4(patch.description.value).None?)
      || (patch.stockQty.Some? && patch.stockQty.value != 0 && patch.stockQty.value != 1)
      || ParseInt4(newSlug).None?
    ensures r.Some? ==>
      && r.value.title == patch.category && r.value.category.None?
      && r.value.pricePaise == (if patch.description.Some? then ParseInt4(patch.description.value) else None)
      && r.value.description == patch.authenticityNote
      && (patch.active.Some? <==> r.value.authenticityNote.Some?)
      && (patch.active.Some? ==> r.value.authenticityNote.value == BoolText(patch.active.value))
      && (patch.stockQty.Some? <==> r.value.active.Some?)
      && (patch.stockQty.Some? ==> (r.value.active.value <==> patch.stockQty.value == 1))
      && r.value.stockQty == ParseInt4(newSlug) && r.value.stockQty.Some?
  {
    if || (patch.pricePaise.Some? && ParseCategory(IntText(patch.pricePaise.value)).None?)
       || (patch.description.Some? && ParseInt4(patch.description.value).None?)
       || (patch.stockQty.Some? && StockAsBool(patch.stockQty.value).None?)
       || ParseInt4(newSlug).None?
    then None
    else
      Some(ProductPatch(
        patch.category,
        None,  // a given price has refused the statement already
        if patch.description.Some? then ParseInt4(patch.description.value) else None,
        patch.authenticityNote,
        if patch.active.Some? then Some(BoolText(patch.active.value)) else None,
        if patch.stockQty.Some? then StockAsBool(patch.stockQty.value) else None,
        ParseInt4(newSlug)))
  }

  /**
   * The UPDATE once its values are bound: null for a missing or deleted
   * row; a duplicate key when the slug written (`slug`, or the row's own
   * when None) is another row's; otherwise exactly that row is patched.
   */
  function Written(products: map<Id, Product>, id: Id, q: ProductPatch, slug: Option<string>, now: Time)
    : (o: (Result<Option<Product>>, map<Id, Product>))
    ensures id !in products || !Live(products[id]) ==> o == (Ok(None), products)
    ensures o.0.Err? ==> o == (Err(DuplicateKey), products) && SlugHeld(products, slug.GetOr(products[id].slug), id)
    ensures o.0.Ok? && o.0.value.Some? ==>
      && id in products && Live(products[id]) && !SlugHeld(products, slug.GetOr(products[id].slug), id)
      && o.0.value.value == Patched(products[id], q, slug.GetOr(products[id].slug), now)
      && o.1 == products[id := o.0.value.value]
  {
    if id !in products || !Live(products[id]) then (Ok(None), products)
    else
      var s := slug.GetOr(products[id].slug);
      if SlugHeld(products, s, id) then (Err(DuplicateKey), products)
      else
        var row := Patched(products[id], q, s, now);
        (Ok(Some(row)), products[id := row])
  }

  /**
   * A retitle as written, given the slug the search picked: the shifted
   * values are read before any row is looked at, so a value invalid for
   * its column refuses the statement even for a missing row; otherwise the
   * raw title becomes the slug and the shifted patch is written.
   */
  function RetitledAsWritten(products: map<Id, Product>, id: Id, patch: ProductPatch, newSlug: string, now: Time)
    : (o: (Result<Option<Product>>, map<Id, Product>))
    requires RetitlesSlug(patch)
    ensures ShiftedPatch(patch, newSlug).None? ==> o == (Err(InvalidText), products)
    ensures ShiftedPatch(patch, newSlug).Some? ==>
      o == Written(products, id, ShiftedPatch(patch, newSlug).value, Some(patch.title.value), now)
  {
    match ShiftedPatch(patch, newSlug)
    case None => (Err(InvalidText), products)
    case Some(q) => Written(products, id, q, Some(patch.title.value), now)
  }

  /** A slug that does not read as an integer has no candidate that does. */
  lemma CandidateNotInt4(base: string, n: nat)
    requires base != [] && ParseInt4(base).None?
    ensures ParseInt4(Candidate(base, n)).None?
  {
    if n > 0 {
      var s := Candidate(base, n);
      assert s[|base|] == '-';
    }
  }

  /**
   * `update(id, patch)` as written: without a truthy title the values line
   * up with their placeholders; with one, the search picks a slug and the
   * statement runs with every value shifted by one placeholder. A title
   * whose slug does not read as an integer therefore always fails, with
   * nothing written.
   */
  method UpdateAsWritten(db: Database, id: Id, patch: ProductPatch, now: Time) returns (r: Result<Option<Product>>)
    modifies db`products
    ensures !RetitlesSlug(patch) ==> (r, db.products) == Written(old(db.products), id, patch, None, now)
    ensures RetitlesSlug(patch) ==> exists n: nat ::
      && (forall j: nat :: j < n ==> Taken(old(db.products), BaseSlug(patch.title.value), Some(id), j))
      && (r, db.products) == RetitledAsWritten(old(db.products), id, patch, Candidate(BaseSlug(patch.title.value), n), now)
    ensures RetitlesSlug(patch) && ParseInt4(BaseSlug(patch.title.value)).None? ==>
      r == Err(InvalidText) && db.products == old(db.products)
  {
    var o;
    if RetitlesSlug(patch) {
      var slug := EnsureUniqueSlug(db, patch.title.value, Some(id));
      ghost var n: nat :| slug == Candidate(BaseSlug(patch.title.value), n)
        && forall j: nat :: j < n ==> Taken(db.products, BaseSlug(patch.title.value), Some(id), j);
      if ParseInt4(BaseSlug(patch.title.value)).None? {
        CandidateNotInt4(BaseSlug(patch.title.value), n);
      }
      o := RetitledAsWritten(db.products, id, patch, slug, now);
    } else {
      o := Written(db.products, id, patch, None, now);
    }
    r := o.0;
    db.products := o.1;
  }

  /**
   * A retitle to a title whose slug is a free number, with nothing else
   * given: the title stays (its COALESCE reads the null category), the raw
   * title becomes the slug, and the stock becomes the slug's number.
   */
  lemma NumericRetitleSetsStock(products: map<Id, Product>, id: Id, title: string, now: Time)
    requires id in products && Live(products[id]) && title != []
    requires ParseInt4(BaseSlug(title)).Some? && !SlugHeld(products, title, id)
    ensures var o := RetitledAsWritten(products, id, ProductPatch(Some(title), None, None, None, None, None, None), BaseSlug(title), now);
      && o.0.Ok? && o.0.value.Some?
      && o.0.value.value.title == products[id].title
      && o.0.value.value.slug == title
      && o.0.value.value.stockQty == ParseInt4(BaseSlug(title))
  {
  }

  /** `findById(id)`: the live row, or null for a missing or deleted one. */
  function FindById(products: map<Id, Product>, id: Id): (r: Option<Product>)
    ensures r.Some? <==> id in products && Live(products[id])
    ensures r.Some? ==> r.value == products[id]
  {
    if id in products && Live(products[id]) then Some(products[id]) else None
  }

  /** `softDelete(id)`: a live row gets `deleted_at = now` and `active = false`; anything else is left alone. */
  method SoftDelete(db: Database, id: Id, now: Time)
    modifies db`products
    ensures id in old(db.products) && Live(old(db.products)[id]) ==>
      db.products == old(db.products)[id := old(db.products)[id].(deletedAt := Some(now), active := false)]
    ensures !(id in old(db.products) && Live(old(db.products)[id])) ==> db.products == old(db.products)
  {
    if id in db.products && Live(db.products[id]) {
      db.products := db.products[id := db.products[id].(deletedAt := Some(now), active := false)];
    }
  }

  /** After a soft delete the product is no longer found, and its slug stays taken. */
  lemma SoftDeletedHidden(products: map<Id, Product>, id: Id, now: Time)
    requires id in products && Live(products[id])
    ensures var after := products[id := products[id].(deletedAt := Some(now), active := false)];
      FindById(after, id).None? && FindById(products, id).Some? && after[id].slug == products[id].slug
  {
  }

  // ---------------------------------------------------------------------
  // The owner's listing.
  // ---------------------------------------------------------------------

  /** The ORDER BY clauses of the listings. */
  datatype ProductSort = CreatedAsc | CreatedDesc | PriceAsc | PriceDesc | TitleAsc | TitleDesc

  /** `sortMap[sort] ?? "p.created_at DESC"`. */
  function SortFor(sort: string): (k: ProductSort)
    ensures sort == "created_at" <==> k == CreatedAsc
    ensures sort == "price_paise" <==> k == PriceAsc
    ensures sort == "-price_paise" <==> k == PriceDesc
    ensures sort == "title" <==> k == TitleAsc
    ensures sort == "-title" <==> k == TitleDesc
    ensures k == CreatedDesc <==> sort !in {"created_at", "price_paise", "-price_paise", "title", "-title"}
  {
    if sort == "created_at" then CreatedAsc
    else if sort == "-created_at" then CreatedDesc
    else if sort == "price_paise" then PriceAsc
    else if sort == "-price_paise" then PriceDesc
    else if sort == "title" then TitleAsc
    else if sort == "-title" then TitleDesc
    else CreatedDesc
  }

  /** The filters of the owner's listing. */
  datatype ProductFilter =
    | NotDeleted | CategoryIs | ActiveIs | TitleLike | MinPrice | MaxPrice | InStock | HasImages | CreatedFrom | CreatedTo

  /** The arguments of `page`. */
  datatype PageArgs = PageArgs(
    q: Option<string>, category: Option<string>, active: Option<bool>,
    minPrice: Option<int>, maxPrice: Option<int>, inStock: bool, hasImages: bool,
    createdFrom: Option<string>, createdTo: Option<string>,
    includes: Option<string>, imagesLimit: Option<int>,
    page: int, pageSize: int, sort: string)

  /** The filters in the order `page` adds them. */
  const Filters: seq<ProductFilter> :=
    [NotDeleted, CategoryIs, ActiveIs, TitleLike, MinPrice, MaxPrice, InStock, HasImages, CreatedFrom, CreatedTo]

  /** Whether the arguments ask for a filter: a truthy string, a boolean or number that is given, a true flag. */
  predicate Asked(args: PageArgs, f: ProductFilter) {
    match f
    case NotDeleted => true
    case CategoryIs => Present(args.category)
    case ActiveIs => args.active.Some?
    case TitleLike => Present(args.q)
    case MinPrice => args.minPrice.Some?
    case MaxPrice => args.maxPrice.Some?
    case InStock => args.inStock
    case HasImages => args.hasImages
    case CreatedFrom => Present(args.createdFrom)
    case CreatedTo => Present(args.createdTo)
  }

  /** What a filter compares with; the literal conditions compare with TRUE. */
  function Compared(args: PageArgs, f: ProductFilter): Value {
    match f
    case NotDeleted => VBool(true)
    case CategoryIs => VText(args.category.GetOr(""))
    case ActiveIs => VBool(args.active.GetOr(false))
    case TitleLike => VText("%" + args.q.GetOr("") + "%")
    case MinPrice => VInt(args.minPrice.GetOr(0))
    case MaxPrice => VInt(args.maxPrice.GetOr(0))
    case InStock => VBool(true)
    case HasImages => VBool(true)
    case CreatedFrom => VText(args.createdFrom.GetOr(""))
    case CreatedTo => VText(args.createdTo.GetOr(""))
  }

  /** The filters among the first `n` that the arguments ask for, with what each compares with. */
  function WantedUpTo(args: PageArgs, n: nat): map<ProductFilter, Value>
    requires n <= |Filters|
  {
    map f | f in Filters[..n] && Asked(args, f) :: Compared(args, f)
  }

  /** Every filter appears in the list. */
  lemma AllFiltersListed()
    ensures forall f: ProductFilter :: f in Filters
  {
    forall f: ProductFilter
      ensures f in Filters
    {
      match f
      case NotDeleted => assert Filters[0] == f;
      case CategoryIs => assert Filters[1] == f;
      case ActiveIs => assert Filters[2] == f;
      case TitleLike => assert Filters[3] == f;
      case MinPrice => assert Filters[4] == f;
      case MaxPrice => assert Filters[5] == f;
      case InStock => assert Filters[6] == f;
      case HasImages => assert Filters[7] == f;
      case CreatedFrom => assert Filters[8] == f;
      case CreatedTo => assert Filters[9] == f;
    }
  }

  /** What the listing filters on, as the arguments ask. */
  function Wanted(args: PageArgs): (w: map<ProductFilter, Value>)
    ensures forall f :: f in w <==> Asked(args, f)
    ensures forall f :: f in w ==> w[f] == Compared(args, f)
  {
    AllFiltersListed();
    assert Filters[..|Filters|] == Filters;
    WantedUpTo(args, |Filters|)
  }

  /** Adding the n-th filter to the first n. */
  lemma WantedStep(args: PageArgs, n: nat)
    requires n < |Filters|
    ensures WantedUpTo(args, n + 1)
         == if Asked(args, Filters[n]) then WantedUpTo(args, n)[Filters[n] := Compared(args, Filters[n])] else WantedUpTo(args, n)
  {
    assert Filters[..n + 1] == Filters[..n] + [Filters[n]];
    assert Filters[n] !in Filters[..n];
  }

  /** The listing always excludes deleted rows, and filters on exactly what the arguments ask for. */
  lemma WantedFilters(args: PageArgs)
    ensures var w := Wanted(args);
      && NotDeleted in w && w[NotDeleted] == VBool(true)
      && (CategoryIs in w <==> Present(args.category))
      && (ActiveIs in w <==> args.active.Some?)
      && (TitleLike in w <==> Present(args.q))
      && (MinPrice in w <==> args.minPrice.Some?)
      && (MaxPrice in w <==> args.maxPrice.Some?)
      && (InStock in w <==> args.inStock)
      && (HasImages in w <==> args.hasImages)
      && (CreatedFrom in w <==> Present(args.createdFrom))
      && (CreatedTo in w <==> Present(args.createdTo))
  {
  }

  /** Each filter compares with its own argument: the category, the flag, `%q%`, the bounds and the dates. */
  lemma WantedValues(args: PageArgs)
    ensures var w := Wanted(args);
      && (CategoryIs in w ==> w[CategoryIs] == VText(args.category.value))
      && (ActiveIs in w ==> w[ActiveIs] == VBool(args.active.value))
      && (TitleLike in w ==> w[TitleLike] == VText("%" + args.q.value + "%"))
      && (MinPrice in w ==> w[MinPrice] == VInt(args.minPrice.value))
      && (MaxPrice in w ==> w[MaxPrice] == VInt(args.maxPrice.value))
      && (CreatedFrom in w ==> w[CreatedFrom] == VText(args.createdFrom.value))
      && (CreatedTo in w ==> w[CreatedTo] == VText(args.createdTo.value))
  {
  }

  /** The two statements of a listing: the page query and the count query. */
  datatype PagePlan = PagePlan(
    where: seq<Cond<ProductFilter>>,
    sort: ProductSort,
    imagesParam: Option<nat>,
    listParams: seq<Value>,
    limitParam: nat,
    offsetParam: nat,
    countParams: seq<Value>)

  /**
   * `page(params)` as written: conditions and values are pushed side by
   * side; for `include = "images"` the images limit (default 5) is pushed
   * onto the same array; LIMIT and OFFSET take the next two; and the count
   * query is sent with that whole array.
   */
  method Page(args: PageArgs) returns (plan: PagePlan)
    ensures Decode(plan.where, plan.listParams) == Wanted(args)
    ensures Decode(plan.where, plan.countParams) == Wanted(args)
    ensures plan.sort == SortFor(args.sort)
    ensures |plan.listParams| == |plan.countParams| + 2 && plan.listParams[..|plan.countParams|] == plan.countParams
    ensures Highest(plan.where) <= |plan.countParams| && WellNumbered(plan.where, plan.listParams[..Highest(plan.where)])
    ensures args.includes == Some("images") ==>
      && plan.imagesParam == Some(Highest(plan.where) + 1)
      && plan.countParams == plan.listParams[..Highest(plan.where)] + [VInt(args.imagesLimit.GetOr(5))]
    ensures args.includes != Some("images") ==> plan.imagesParam.None? && plan.countParams == plan.listParams[..Highest(plan.where)]
    ensures plan.limitParam == |plan.listParams| - 1 && plan.offsetParam == |plan.listParams|
    ensures plan.listParams[plan.limitParam - 1] == VInt(args.pageSize)
    ensures plan.listParams[plan.offsetParam - 1] == VInt(Offset(args.page, args.pageSize))
  {
    var where, filterValues := Conditions(args);
    var values := filterValues;
    var imagesParam: Option<nat> := None;
    if args.includes == Some("images") {
      values := values + [VInt(args.imagesLimit.GetOr(5))];
      imagesParam := Some(|values|);
    }
    var listParams := values + [VInt(args.pageSize), VInt(Offset(args.page, args.pageSize))];
    DecodeExtend(where, filterValues, listParams[|filterValues|..]);
    assert filterValues + listParams[|filterValues|..] == listParams;
    DecodeExtend(where, filterValues, values[|filterValues|..]);
    assert filterValues + values[|filterValues|..] == values;
    assert listParams[..Highest(where)] == filterValues;
    plan := PagePlan(where, SortFor(args.sort), imagesParam, listParams, |listParams| - 1, |listParams|, values);
  }

  /**
   * The WHERE conditions of `page` and their values: the fixed
   * `deleted_at IS NULL`, then each filter in turn, each pushed only when
   * the arguments ask for it.
   */
  method Conditions(args: PageArgs) returns (where: seq<Cond<ProductFilter>>, values: seq<Value>)
    ensures WellNumbered(where, values) && Highest(where) == |values|
    ensures Decode(where, values) == Wanted(args)
  {
    where := [Fixed(NotDeleted, VBool(true))];
    values := [];
    assert WellNumbered(where, values) by { assert where[..0] == []; }
    WantedStep(args, 0);
    assert Decode(where, values) == WantedUpTo(args, 1) by { assert where[..0] == []; }
    where, values := PushFilter(args, 1, where, values);
    where, values := PushFilter(args, 2, where, values);
    where, values := PushFilter(args, 3, where, values);
    where, values := PushFilter(args, 4, where, values);
    where, values := PushFilter(args, 5, where, values);
    where, values := PushFilter(args, 6, where, values);
    where, values := PushFilter(args, 7, where, values);
    where, values := PushFilter(args, 8, where, values);
    where, values := PushFilter(args, 9, where, values);
    WellNumberedBinds(where, values);
  }

  /**
   * One `if` of `page`: the stock and images flags add a literal condition,
   * every other filter pushes its value and reads it back by position.
   */
  method PushFilter(args: PageArgs, n: nat, where: seq<Cond<ProductFilter>>, values: seq<Value>)
    returns (where': seq<Cond<ProductFilter>>, values': seq<Value>)
    requires 0 < n < |Filters|
    requires WellNumbered(where, values) && Decode(where, values) == WantedUpTo(args, n)
    ensures WellNumbered(where', values') && Decode(where', values') == WantedUpTo(args, n + 1)
  {
    var f := Filters[n];
    if f == InStock || f == HasImages {
      where', values' := PushFixed(Asked(args, f), where, values, f, VBool(true));
    } else {
      where', values' := PushBound(Asked(args, f), where, values, f, Compared(args, f));
    }
    WantedStep(args, n);
  }

  /** The count query bound with only the WHERE values, as intended: it is accepted and filters exactly as the page query. */
  function CountParams(plan: PagePlan): (r: seq<Value>)
    requires Highest(plan.where) <= |plan.countParams|
    ensures |r| == Highest(plan.where)
  {
    plan.countParams[..Highest(plan.where)]
  }

  /** The corrected count binding is accepted for every include and reads the same filters as the page. */
  lemma CountParamsBind(plan: PagePlan, args: PageArgs)
    requires Highest(plan.where) <= |plan.countParams| && WellNumbered(plan.where, CountParams(plan))
    requires Decode(plan.where, plan.countParams) == Wanted(args)
    ensures Binds(plan.where, CountParams(plan))
    ensures Decode(plan.where, CountParams(plan)) == Wanted(args)
  {
    var c := CountParams(plan);
    WellNumberedBinds(plan.where, c);
    assert c + plan.countParams[|c|..] == plan.countParams;
    DecodeExtend(plan.where, c, plan.countParams[|c|..]);
  }
}
