/** The Books API reply as the client reads it, the sparse book record it
    builds from each item, and what the client passes to its callback. */
module Volumes {
  import opened Js

  /** `volumeInfo.imageLinks`. */
  datatype ImageLinks = ImageLinks(thumbnail: Option<string>)

  /** `items[i].volumeInfo`: every field may be absent or `null` (`None`). */
  datatype VolumeInfo = VolumeInfo(
    title: Option<string>,
    authors: Option<seq<string>>,
    publisher: Option<string>,
    publishedDate: Option<string>,
    pageCount: Option<int>,
    printType: Option<string>,
    categories: Option<seq<string>>,
    imageLinks: Option<ImageLinks>,
    language: Option<string>,
    infoLink: Option<string>)

  /** One element of `items`. */
  datatype Item = Item(id: Option<string>, volumeInfo: Option<VolumeInfo>)

  /** The parsed response body; `items` may be absent. */
  datatype Body = Body(items: Option<seq<Item>>)

  /** What the HTTP layer hands back: an error, or a status and a body. */
  datatype Reply = TransportError | Response(statusCode: int, body: Body)

  /** The eleven keys a book record may have. */
  datatype Key =
    | Id | Title | Authors | Publisher | PublishedDate | PageCount
    | PrintType | Categories | Thumbnail | Language | Link

  /** The property name of a record key. */
  function Name(k: Key): string
  {
    match k
    case Id => "id"
    case Title => "title"
    case Authors => "authors"
    case Publisher => "publisher"
    case PublishedDate => "publishedDate"
    case PageCount => "pageCount"
    case PrintType => "printType"
    case Categories => "categories"
    case Thumbnail => "thumbnail"
    case Language => "language"
    case Link => "link"
  }

  /** A normalised book record: a sparse object whose keys are among the
      eleven record keys. */
  type Book = map<Key, Value>

  /** `record[key]`, `None` when the record lacks the key. */
  function Field(b: Book, k: Key): Option<Value>
  {
    if k in b then Some(b[k]) else None
  }

  /** The value in an item that a record key is copied from: `id` from the
      item itself, `thumbnail` from `imageLinks.thumbnail` (undefined when
      there are no image links), `link` from `infoLink`, every other key from
      the field of the same name in `volumeInfo`. */
  function Source(id: Option<string>, info: VolumeInfo, k: Key): Option<Value>
  {
    match k
    case Id => OfString(id)
    case Title => OfString(info.title)
    case Authors => OfStrings(info.authors)
    case Publisher => OfString(info.publisher)
    case PublishedDate => OfString(info.publishedDate)
    case PageCount => OfNumber(info.pageCount)
    case PrintType => OfString(info.printType)
    case Categories => OfStrings(info.categories)
    case Thumbnail => if info.imageLinks.Some? then OfString(info.imageLinks.value.thumbnail) else None
    case Language => OfString(info.language)
    case Link => OfString(info.infoLink)
  }

  /** `if (src) push[key] = src`: what a record key holds for a source value,
      `None` when the key stays absent. */
  function Copy(src: Option<Value>): Option<Value>
  {
    if IsTruthy(src) then src else None
  }

  /** `b` is the record of an item: it has a key exactly when the key's
      source value is truthy, and then holds that value unchanged. */
  ghost predicate IsRecordOf(b: Book, id: Option<string>, info: VolumeInfo)
  {
    forall k :: Field(b, k) == Copy(Source(id, info, k))
  }

  /** `if (src) push[k] = src`: sets a key only when its source value is
      truthy. */
  function CopyIfTruthy(push: Book, k: Key, src: Option<Value>): (r: Book)
  {
    if Copy(src).Some? then push[k := src.value] else push
  }

  /** The number of record keys. */
  const KeyCount := 11

  /** The key built at step `i`, in source order. */
  function KeyAt(i: nat): Key
    requires i < KeyCount
  {
    if i == 0 then Id
    else if i == 1 then Title
    else if i == 2 then Authors
    else if i == 3 then Publisher
    else if i == 4 then PublishedDate
    else if i == 5 then PageCount
    else if i == 6 then PrintType
    else if i == 7 then Categories
    else if i == 8 then Thumbnail
    else if i == 9 then Language
    else Link
  }

  /** The step at which a key is built. */
  function Index(k: Key): (i: nat)
    ensures i < KeyCount && KeyAt(i) == k
  {
    match k
    case Id => 0
    case Title => 1
    case Authors => 2
    case Publisher => 3
    case PublishedDate => 4
    case PageCount => 5
    case PrintType => 6
    case Categories => 7
    case Thumbnail => 8
    case Language => 9
    case Link => 10
  }

  /** The record after its first `n` keys are built. */
  function Partial(id: Option<string>, info: VolumeInfo, n: nat): Book
    requires n <= KeyCount
  {
    if n == 0 then map[]
    else CopyIfTruthy(Partial(id, info, n - 1), KeyAt(n - 1), Source(id, info, KeyAt(n - 1)))
  }

  /** After `n` keys, the keys built so far hold their copied source value
      and the others are absent. */
  lemma {:induction false} PartialFields(id: Option<string>, info: VolumeInfo, n: nat, k: Key)
    requires n <= KeyCount
    ensures Field(Partial(id, info, n), k) == if Index(k) < n then Copy(Source(id, info, k)) else None
  {
    if n > 0 {
      PartialFields(id, info, n - 1, k);
      if Index(k) != n - 1 {
        assert KeyAt(Index(k)) != KeyAt(n - 1);
      }
    }
  }

  /** Building all eleven keys gives the record of the item. */
  lemma PartialIsRecord(id: Option<string>, info: VolumeInfo)
    ensures IsRecordOf(Partial(id, info, KeyCount), id, info)
  {
    forall k ensures Field(Partial(id, info, KeyCount), k) == Copy(Source(id, info, k)) {
      PartialFields(id, info, KeyCount, k);
    }
  }

  /** Builds the record of one item key by key, starting from `{}`; the
      thumbnail's source is `imageLinks && imageLinks.thumbnail`. */
  method BuildRecord(id: Option<string>, info: VolumeInfo) returns (push: Book)
    ensures IsRecordOf(push, id, info)
  {
    push := map[];
    push := CopyIfTruthy(push, Id, OfString(id));
    assert push == Partial(id, info, 1);
    push := CopyIfTruthy(push, Title, OfString(info.title));
    assert push == Partial(id, info, 2);
    push := CopyIfTruthy(push, Authors, OfStrings(info.authors));
    assert push == Partial(id, info, 3);
    push := CopyIfTruthy(push, Publisher, OfString(info.publisher));
    assert push == Partial(id, info, 4);
    push := CopyIfTruthy(push, PublishedDate, OfString(info.publishedDate));
    assert push == Partial(id, info, 5);
    push := CopyIfTruthy(push, PageCount, OfNumber(info.pageCount));
    assert push == Partial(id, info, 6);
    push := CopyIfTruthy(push, PrintType, OfString(info.printType));
    assert push == Partial(id, info, 7);
    push := CopyIfTruthy(push, Categories, OfStrings(info.categories));
    assert push == Partial(id, info, 8);
    push := CopyIfTruthy(push, Thumbnail, if info.imageLinks.Some? then OfString(info.imageLinks.value.thumbnail) else None);
    assert push == Partial(id, info, 9);
    push := CopyIfTruthy(push, Language, OfString(info.language));
    assert push == Partial(id, info, 10);
    push := CopyIfTruthy(push, Link, OfString(info.infoLink));
    assert push == Partial(id, info, 11);
    PartialIsRecord(id, info);
  }

  /** Two records that agree on every key are the same record. */
  lemma SameFieldsSameBook(a: Book, b: Book)
    requires forall k :: Field(a, k) == Field(b, k)
    ensures a == b
  {
    assert a.Keys == b.Keys by {
      forall k ensures k in a <==> k in b {
        assert Field(a, k) == Field(b, k);
      }
    }
    forall k | k in a ensures a[k] == b[k] {
      assert Field(a, k) == Field(b, k);
    }
  }

  /** The record of an item is determined by that item alone. */
  lemma RecordDetermined(a: Book, b: Book, id: Option<string>, info: VolumeInfo)
    requires IsRecordOf(a, id, info) && IsRecordOf(b, id, info)
    ensures a == b
  {
    SameFieldsSameBook(a, b);
  }

  /** JavaScript truthiness at work: an empty `authors` array is kept, while
      a `pageCount` of 0, an empty `title` and a thumbnail without image
      links are dropped. */
  lemma TruthinessOfFields(b: Book, id: Option<string>, info: VolumeInfo)
    requires IsRecordOf(b, id, info)
    ensures info.authors == Some([]) ==> Authors in b && b[Authors] == StrArray([])
    ensures info.pageCount == Some(0) ==> PageCount !in b
    ensures info.title == Some("") ==> Title !in b
    ensures info.imageLinks == None ==> Thumbnail !in b
  {
    assert Field(b, Authors) == Copy(Source(id, info, Authors));
    assert Field(b, PageCount) == Copy(Source(id, info, PageCount));
    assert Field(b, Title) == Copy(Source(id, info, Title));
    assert Field(b, Thumbnail) == Copy(Source(id, info, Thumbnail));
  }

  /** The example of a one-item reply: the record holds the id, the title
      and the authors, and no other key. */
  lemma OneItemExample(b: Book)
    requires IsRecordOf(b, Some("abc"), VolumeInfo(Some("T"), Some(["A"]), None, None, None, None, None, None, None, None))
    ensures b == map[Id := Str("abc"), Title := Str("T"), Authors := StrArray(["A"])]
  {
    var info := VolumeInfo(Some("T"), Some(["A"]), None, None, None, None, None, None, None, None);
    var expected: Book := map[Id := Str("abc"), Title := Str("T"), Authors := StrArray(["A"])];
    assert IsRecordOf(expected, Some("abc"), info);
    RecordDetermined(b, expected, Some("abc"), info);
  }

  // Handling a reply

  /** What the request callback does: call the caller's callback with a
      result list or `null`, or throw a TypeError before calling it. */
  datatype Completion = Called(results: Option<seq<Book>>) | Threw

  /** No transport error and status 200. */
  predicate Ok(reply: Reply)
  {
    reply.Response? && reply.statusCode == 200
  }

  /** `rs` holds, position by position, the record of each item. */
  ghost predicate RecordsOf(rs: seq<Book>, items: seq<Item>)
  {
    && |rs| == |items|
    && forall i :: 0 <= i < |items| ==>
         items[i].volumeInfo.Some? && IsRecordOf(rs[i], items[i].id, items[i].volumeInfo.value)
  }

  /** The completion the client produces for a reply: `null` on an error or
      a status other than 200; an empty list when `items` is absent; a
      TypeError when some item has no `volumeInfo` (reading a property of
      `undefined`); otherwise the records of the items, in order. */
  ghost predicate Handles(reply: Reply, c: Completion)
  {
    if !Ok(reply) then c == Called(None)
    else match reply.body.items
      case None => c == Called(Some([]))
      case Some(items) =>
        if exists i :: 0 <= i < |items| && items[i].volumeInfo.None? then c == Threw
        else c.Called? && c.results.Some? && RecordsOf(c.results.value, items)
  }

  /** The body of the request callback: maps each item to its record and
      appends it to the results. */
  method HandleResponse(reply: Reply) returns (c: Completion)
    ensures Handles(reply, c)
    ensures c == Called(None) <==> !Ok(reply)
    ensures c.Called? && c.results.Some? ==>
      |c.results.value| == (if reply.body.items.Some? then |reply.body.items.value| else 0)
  {
    if reply.TransportError? || reply.statusCode != 200 {
      return Called(None);
    }
    var data := reply.body;
    var results: seq<Book> := [];
    if data.items.Some? {
      var items := data.items.value;
      var i := 0;
      while i < |items|
        invariant 0 <= i <= |items|
        invariant RecordsOf(results, items[..i])
      {
        var book := items[i].volumeInfo;
        if book.None? {
          return Threw;
        }
        var push := BuildRecord(items[i].id, book.value);
        results := results + [push];
        i := i + 1;
      }
      assert items[..i] == items;
    }
    return Called(Some(results));
  }

  /** Record lists are determined by their items. */
  lemma RecordsDetermined(xs: seq<Book>, ys: seq<Book>, items: seq<Item>)
    requires RecordsOf(xs, items) && RecordsOf(ys, items)
    ensures xs == ys
  {
    forall i | 0 <= i < |xs| ensures xs[i] == ys[i] {
      RecordDetermined(xs[i], ys[i], items[i].id, items[i].volumeInfo.value);
    }
  }

  /** A reply determines what the client delivers. */
  lemma HandlesDetermined(reply: Reply, a: Completion, b: Completion)
    requires Handles(reply, a) && Handles(reply, b)
    ensures a == b
  {
    if Ok(reply) && reply.body.items.Some? && a.Called? && b.Called? {
      RecordsDetermined(a.results.value, b.results.value, reply.body.items.value);
    }
  }
}
