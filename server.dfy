/** The server's in-memory ad store and its handlers (server/src/index.js):
    get by id, create, update, delete and click, each with its not-found or
    bad-request branch, and the form configuration the server hands out. */
module Server {
  import opened Js
  import opened Types

  /** A stored ad. The request body is untyped JSON, so the text attributes and
      the price hold whatever value was sent; `id` and `clicked` are always
      numbers. */
  datatype StoredAd = StoredAd(
    id: int,
    title: Value,
    publisher: Value,
    content: Value,
    landingUrl: Value,
    price: Value,
    clicked: int)

  /** The five attributes the create and update handlers read from the request
      body; an attribute the body lacks is Undefined. */
  datatype Body = Body(title: Value, publisher: Value, content: Value, landingUrl: Value, price: Value)

  /** `ctx.status` and `ctx.body = { success, data?, message? }` */
  datatype Reply<T> = Reply(status: int, success: bool, data: Option<T>, message: Option<string>)

  /** The data of a click reply: `{ id, clicked }`. */
  datatype ClickData = ClickData(id: int, clicked: int)

  function NotFound<T>(): Reply<T> { Reply(404, false, None, Some("Ad not found")) }

  /** `ads.findIndex(a => a.id === id)`: the first index with that id, or -1. */
  function FindIndex(ads: seq<StoredAd>, id: int): (k: int)
    ensures -1 <= k < |ads|
    ensures k == -1 <==> forall i :: 0 <= i < |ads| ==> ads[i].id != id
    ensures k >= 0 ==> ads[k].id == id && forall i :: 0 <= i < k ==> ads[i].id != id
  {
    if ads == [] then -1
    else if ads[0].id == id then 0
    else
      var k := FindIndex(ads[1..], id);
      if k == -1 then -1 else k + 1
  }

  /** The create handler's guard: title, publisher, content and landingUrl
      truthy, and some price given. */
  predicate CreateAccepted(body: Body)
  {
    Truthy(body.title) && Truthy(body.publisher) && Truthy(body.content) && Truthy(body.landingUrl)
    && !body.price.Undefined?
  }

  /** The ad a create builds: the given id, the body's attributes, the price
      through parseFloat and no clicks yet. */
  function NewAd(rt: Runtime, body: Body, id: int): (a: StoredAd)
    ensures a.id == id && a.clicked == 0
    ensures a.title == body.title && a.publisher == body.publisher
    ensures a.content == body.content && a.landingUrl == body.landingUrl
    ensures a.price.Num? || a.price.NaN?
  {
    StoredAd(id, body.title, body.publisher, body.content, body.landingUrl, ParseFloat(rt, body.price), 0)
  }

  /** The store after a create: one ad appended when the guard holds. */
  function AfterCreate(rt: Runtime, ads: seq<StoredAd>, body: Body, id: int): seq<StoredAd>
  {
    if CreateAccepted(body) then ads + [NewAd(rt, body, id)] else ads
  }

  /** `{ ...ad, ...(title !== undefined && { title }), ... }`: the attributes
      the body carries replace the stored ones; id and clicked stay. */
  function Merge(rt: Runtime, ad: StoredAd, body: Body): StoredAd
  {
    StoredAd(
      ad.id,
      if !body.title.Undefined? then body.title else ad.title,
      if !body.publisher.Undefined? then body.publisher else ad.publisher,
      if !body.content.Undefined? then body.content else ad.content,
      if !body.landingUrl.Undefined? then body.landingUrl else ad.landingUrl,
      if !body.price.Undefined? then ParseFloat(rt, body.price) else ad.price,
      ad.clicked)
  }

  /** The store after an update: the first ad with that id merged with the body. */
  function AfterUpdate(rt: Runtime, ads: seq<StoredAd>, id: int, body: Body): seq<StoredAd>
  {
    var k := FindIndex(ads, id);
    if k == -1 then ads else ads[k := Merge(rt, ads[k], body)]
  }

  /** The store after a delete: `ads.splice(k, 1)` at the first ad with that id. */
  function AfterDelete(ads: seq<StoredAd>, id: int): seq<StoredAd>
  {
    var k := FindIndex(ads, id);
    if k == -1 then ads else ads[..k] + ads[k + 1..]
  }

  /** The store after a click: `ad.clicked += 1` on the first ad with that id. */
  function AfterClick(ads: seq<StoredAd>, id: int): seq<StoredAd>
  {
    var k := FindIndex(ads, id);
    if k == -1 then ads else ads[k := ads[k].(clicked := ads[k].clicked + 1)]
  }

  /** The number of stored ads with a given id. */
  function Count(ads: seq<StoredAd>, id: int): (n: nat)
    ensures n <= |ads|
  {
    if ads == [] then 0 else (if ads[0].id == id then 1 else 0) + Count(ads[1..], id)
  }

  /** The clicks of all stored ads. */
  function TotalClicks(ads: seq<StoredAd>): int
  {
    if ads == [] then 0 else ads[0].clicked + TotalClicks(ads[1..])
  }

  /** A rejected create leaves the store as it was; an accepted one appends
      exactly one ad with the given id and no clicks, after the unchanged
      earlier ads. */
  lemma CreateAppendsOne(rt: Runtime, ads: seq<StoredAd>, body: Body, id: int)
    ensures !CreateAccepted(body) ==> AfterCreate(rt, ads, body, id) == ads
    ensures CreateAccepted(body) ==> var r := AfterCreate(rt, ads, body, id);
      |r| == |ads| + 1 && r[..|ads|] == ads && r[|ads|].id == id && r[|ads|].clicked == 0
  {
  }

  /** After a create, get-by-id of the new id finds the new ad unless an
      earlier ad already carries that id, in which case it finds that one. */
  lemma {:induction false} GetAfterCreate(ads: seq<StoredAd>, a: StoredAd)
    ensures FindIndex(ads + [a], a.id) == if FindIndex(ads, a.id) == -1 then |ads| else FindIndex(ads, a.id)
  {
    if ads != [] {
      assert (ads + [a])[1..] == ads[1..] + [a];
      GetAfterCreate(ads[1..], a);
    }
  }

  /** An update keeps the length, every id and every click count, changes only
      the first ad with that id, and there exactly the attributes the body
      carries. */
  lemma UpdateChangesOnlyTarget(rt: Runtime, ads: seq<StoredAd>, id: int, body: Body)
    ensures |AfterUpdate(rt, ads, id, body)| == |ads|
    ensures FindIndex(ads, id) == -1 ==> AfterUpdate(rt, ads, id, body) == ads
    ensures forall i :: 0 <= i < |ads| && i != FindIndex(ads, id) ==> AfterUpdate(rt, ads, id, body)[i] == ads[i]
    ensures forall i :: 0 <= i < |ads| ==>
      AfterUpdate(rt, ads, id, body)[i].id == ads[i].id && AfterUpdate(rt, ads, id, body)[i].clicked == ads[i].clicked
    ensures FindIndex(ads, id) >= 0 ==> var u := AfterUpdate(rt, ads, id, body)[FindIndex(ads, id)];
      var prev := ads[FindIndex(ads, id)];
      && (u.title == if body.title.Undefined? then prev.title else body.title)
      && (u.publisher == if body.publisher.Undefined? then prev.publisher else body.publisher)
      && (u.content == if body.content.Undefined? then prev.content else body.content)
      && (u.landingUrl == if body.landingUrl.Undefined? then prev.landingUrl else body.landingUrl)
      && (u.price == if body.price.Undefined? then prev.price else ParseFloat(rt, body.price))
  {
  }

  /** Sending the same update twice stores what sending it once stores. */
  lemma UpdateIdempotent(rt: Runtime, ads: seq<StoredAd>, id: int, body: Body)
    ensures AfterUpdate(rt, AfterUpdate(rt, ads, id, body), id, body) == AfterUpdate(rt, ads, id, body)
  {
    var k := FindIndex(ads, id);
    if k >= 0 {
      var once := AfterUpdate(rt, ads, id, body);
      assert forall i :: 0 <= i < |once| ==> once[i].id == ads[i].id;
      assert FindIndex(once, id) == k;
    } else {
      assert AfterUpdate(rt, ads, id, body) == ads;
    }
  }

  /** A create or an update with a number price stores exactly that price, as
      the client sends it after converting the form. */
  lemma NumberPriceIsStored(rt: Runtime, ads: seq<StoredAd>, id: int, body: Body)
    requires body.price.Num?
    ensures CreateAccepted(body) ==> AfterCreate(rt, ads, body, id)[|ads|].price == body.price
    ensures FindIndex(ads, id) >= 0 ==> AfterUpdate(rt, ads, id, body)[FindIndex(ads, id)].price == body.price
  {
  }

  /** A delete removes exactly the first ad with that id: the length drops by
      one, the others keep their order, and one fewer ad carries the id. */
  lemma DeleteRemovesFirstMatch(ads: seq<StoredAd>, id: int)
    requires FindIndex(ads, id) >= 0
    ensures var k := FindIndex(ads, id);
      AfterDelete(ads, id) == ads[..k] + ads[k + 1..] && |AfterDelete(ads, id)| == |ads| - 1
    ensures multiset(AfterDelete(ads, id)) + multiset{ads[FindIndex(ads, id)]} == multiset(ads)
    ensures Count(AfterDelete(ads, id), id) == Count(ads, id) - 1
  {
    var k := FindIndex(ads, id);
    MultisetRemoveAt(ads, k);
    CountRemoveAt(ads, k, id);
  }

  lemma MultisetRemoveAt(s: seq<StoredAd>, k: nat)
    requires k < |s|
    ensures multiset(s[..k] + s[k + 1..]) + multiset{s[k]} == multiset(s)
  {
    assert s == s[..k] + [s[k]] + s[k + 1..];
  }

  lemma CountRemoveAt(s: seq<StoredAd>, k: nat, id: int)
    requires k < |s|
    ensures Count(s[..k] + s[k + 1..], id) == Count(s, id) - (if s[k].id == id then 1 else 0)
  {
    var before, after := s[..k], s[k + 1..];
    assert s == before + ([s[k]] + after);
    CountSplit(before, [s[k]] + after, id);
    assert ([s[k]] + after)[1..] == after;
    CountSplit(before, after, id);
  }

  lemma {:induction false} CountSplit(a: seq<StoredAd>, b: seq<StoredAd>, id: int)
    ensures Count(a + b, id) == Count(a, id) + Count(b, id)
  {
    if a == [] {
      assert a + b == b;
    } else {
      assert (a + b)[1..] == a[1..] + b;
      CountSplit(a[1..], b, id);
    }
  }

  /** A click adds exactly one to the first ad with that id, changes nothing
      else, and so raises the store's total by one. */
  lemma {:induction false} ClickAddsOne(ads: seq<StoredAd>, id: int)
    requires FindIndex(ads, id) >= 0
    ensures var k := FindIndex(ads, id); var r := AfterClick(ads, id);
      |r| == |ads| && r[k].clicked == ads[k].clicked + 1 && r[k] == ads[k].(clicked := r[k].clicked)
      && forall i :: 0 <= i < |ads| && i != k ==> r[i] == ads[i]
    ensures TotalClicks(AfterClick(ads, id)) == TotalClicks(ads) + 1
  {
    var k := FindIndex(ads, id);
    TotalClicksAt(ads, k, ads[k].(clicked := ads[k].clicked + 1));
  }

  lemma {:induction false} TotalClicksAt(ads: seq<StoredAd>, k: nat, a: StoredAd)
    requires k < |ads|
    ensures TotalClicks(ads[k := a]) == TotalClicks(ads) - ads[k].clicked + a.clicked
  {
    if k > 0 {
      assert ads[k := a][1..] == ads[1..][k - 1 := a];
      TotalClicksAt(ads[1..], k - 1, a);
    } else {
      assert ads[k := a][1..] == ads[1..];
    }
  }

  /** The three ads the store starts with. */
  const SeedAds: seq<StoredAd> := [
    StoredAd(1, Str("我是标题1"), Str("淘宝联盟"),
             Str("这里是广告文案内容，它将尝试占据至少两行空间，以保持卡片的视觉平衡。"), Str("#"), Num(123.0), 123),
    StoredAd(2, Str("广告标题2"), Str("阿里云"), Str("简洁的广告内容。"), Str("#"), Num(100.0), 100),
    StoredAd(3, Str("广告标题3"), Str("极客时间"),
             Str("这是一个较长的内容描述，用于测试卡片在横向布局下的自适应和换行效果。"), Str("#"), Num(3.0), 3)
  ]

  /** The module-level `ads` array and the handlers that change it. */
  class AdStore {
    var ads: seq<StoredAd>

    constructor ()
      ensures ads == SeedAds
    {
      ads := SeedAds;
    }

    /** GET /api/ads/:id: the first ad with that id, or 404. */
    method GetById(id: int) returns (r: Reply<StoredAd>)
      ensures r.success <==> exists i :: 0 <= i < |ads| && ads[i].id == id
      ensures !r.success ==> r == NotFound()
      ensures r.success ==> r.status == 200 && r.message.None? && r.data.Some?
      ensures r.success ==>
        exists k :: (0 <= k < |ads| && ads[k] == r.data.value && ads[k].id == id
          && forall i :: 0 <= i < k ==> ads[i].id != id)
    {
      var k := FindIndex(ads, id);
      if k == -1 {
        return NotFound();
      }
      r := Reply(200, true, Some(ads[k]), None);
    }

    /** POST /api/ads: 400 and no change unless the guard holds; otherwise the
        new ad is appended and returned with 201. */
    method Create(rt: Runtime, body: Body, newId: int) returns (r: Reply<StoredAd>)
      modifies this
      ensures ads == AfterCreate(rt, old(ads), body, newId)
      ensures !CreateAccepted(body) ==> r == Reply(400, false, None, Some("Missing required fields"))
      ensures CreateAccepted(body) ==> r == Reply(201, true, Some(NewAd(rt, body, newId)), None)
    {
      if !CreateAccepted(body) {
        return Reply(400, false, None, Some("Missing required fields"));
      }
      var newAd := NewAd(rt, body, newId);
      ads := ads + [newAd];
      r := Reply(201, true, Some(newAd), None);
    }

    /** PUT /api/ads/:id: 404 and no change for an unknown id; otherwise the
        first ad with that id is replaced by its merge with the body. */
    method Update(rt: Runtime, id: int, body: Body) returns (r: Reply<StoredAd>)
      modifies this
      ensures ads == AfterUpdate(rt, old(ads), id, body)
      ensures FindIndex(old(ads), id) == -1 ==> r == NotFound()
      ensures FindIndex(old(ads), id) >= 0 ==>
        r == Reply(200, true, Some(ads[FindIndex(old(ads), id)]), None)
    {
      var k := FindIndex(ads, id);
      if k == -1 {
        return NotFound();
      }
      var updatedAd := Merge(rt, ads[k], body);
      ads := ads[k := updatedAd];
      r := Reply(200, true, Some(updatedAd), None);
    }

    /** DELETE /api/ads/:id: 404 and no change for an unknown id; otherwise the
        first ad with that id is spliced out. */
    method Delete(id: int) returns (r: Reply<()>)
      modifies this
      ensures ads == AfterDelete(old(ads), id)
      ensures FindIndex(old(ads), id) == -1 ==> ads == old(ads) && r == NotFound()
      ensures FindIndex(old(ads), id) >= 0 ==> r == Reply(200, true, None, Some("Ad deleted successfully"))
    {
      var k := FindIndex(ads, id);
      if k == -1 {
        return NotFound();
      }
      ads := ads[..k] + ads[k + 1..];
      r := Reply(200, true, None, Some("Ad deleted successfully"));
    }

    /** POST /api/ads/:id/click: 404 for an unknown id; otherwise the first ad
        with that id gets one more click and the reply carries the new count. */
    method Click(id: int) returns (r: Reply<ClickData>)
      modifies this
      ensures ads == AfterClick(old(ads), id)
      ensures FindIndex(old(ads), id) == -1 ==> ads == old(ads) && r == NotFound()
      ensures FindIndex(old(ads), id) >= 0 ==>
        r == Reply(200, true, Some(ClickData(id, old(ads)[FindIndex(old(ads), id)].clicked + 1)), None)
    {
      var k := FindIndex(ads, id);
      if k == -1 {
        return NotFound();
      }
      var ad := ads[k];
      ad := ad.(clicked := ad.clicked + 1);
      ads := ads[k := ad];
      r := Reply(200, true, Some(ClickData(ad.id, ad.clicked)), None);
    }
  }

  /** formConfig, the configuration the server hands to the client. */
  const ServerFormConfig: FormConfig := FormConfig([
    FormField(Title, "广告标题", "text", true, Some("请输入广告标题"), Some(50), None, None, None, None),
    FormField(Publisher, "发布人", "text", true, Some("请输入发布人"), Some(20), None, None, None, None),
    FormField(Content, "内容文案", "textarea", true, Some("请输入广告内容"), Some(500), None, None, None, None),
    FormField(LandingUrl, "落地页", "url", true, Some("请输入落地页URL"), None, None, None, None, Some("https?://.*")),
    FormField(Price, "出价", "number", true, None, None, Some(0.0), Some(Num(0.01)), Some("元"), None)
  ])
}
