/** The client's updates of its `ads` list (client/src/App.tsx): a card click,
    the confirmed delete and the save of the form. Each takes the outcome of the
    server request as a parameter; a rejected request leaves the list as it was. */
module AdList {
  import opened Js
  import opened Types
  import opened Ranking

  /** `if (!ad.id)`: an absent id and the id 0 are both falsy. */
  predicate HasId(id: Option<int>)
  {
    id.Some? && id.value != 0
  }

  /** `{ ...item, clicked: currentClicks + 1 }` */
  function Bumped(item: Ad): (b: Ad)
    ensures b.clicked == Some(ClickedOrZero(item.clicked) + 1)
    ensures b == item.(clicked := b.clicked)
  {
    item.(clicked := Some(ClickedOrZero(item.clicked) + 1))
  }

  /** `ads.map(item => item.id === id ? bumped : item)` */
  function BumpMatching(ads: seq<Ad>, id: int): (r: seq<Ad>)
    ensures |r| == |ads|
    ensures forall i :: 0 <= i < |ads| ==>
      r[i] == if ads[i].id == Some(id) then Bumped(ads[i]) else ads[i]
  {
    if ads == [] then [] else
      [if ads[0].id == Some(id) then Bumped(ads[0]) else ads[0]] + BumpMatching(ads[1..], id)
  }

  /** handleCardClick: a card without an id does nothing; otherwise, once the
      server has counted the click (`served`), every item with that id gets one
      more click and all other items are kept. */
  function CardClick(ads: seq<Ad>, ad: Ad, served: bool): (r: seq<Ad>)
    ensures !HasId(ad.id) || !served ==> r == ads
    ensures |r| == |ads|
    ensures forall i :: 0 <= i < |ads| && ads[i].id != ad.id ==> r[i] == ads[i]
    ensures HasId(ad.id) && served ==> forall i :: 0 <= i < |ads| && ads[i].id == ad.id ==>
      r[i].clicked == Some(ClickedOrZero(ads[i].clicked) + 1) && r[i] == ads[i].(clicked := r[i].clicked)
  {
    if !HasId(ad.id) || !served then ads else BumpMatching(ads, ad.id.value)
  }

  /** The ids of a list, in order. */
  function Ids(ads: seq<Ad>): (ids: seq<Option<int>>)
    ensures |ids| == |ads|
    ensures forall i :: 0 <= i < |ads| ==> ids[i] == ads[i].id
  {
    if ads == [] then [] else [ads[0].id] + Ids(ads[1..])
  }

  /** The number of items carrying a given id. */
  function CountId(ads: seq<Ad>, id: Option<int>): (n: nat)
    ensures n <= |ads|
  {
    if ads == [] then 0 else (if ads[0].id == id then 1 else 0) + CountId(ads[1..], id)
  }

  /** The clicks of all items, an absent count counting 0. */
  function TotalClicks(ads: seq<Ad>): int
  {
    if ads == [] then 0 else ClickedOrZero(ads[0].clicked) + TotalClicks(ads[1..])
  }

  /** A click keeps every item's id in place, and raises the total number of
      clicks by the number of items that carry the clicked id. */
  lemma {:induction false} CardClickCounts(ads: seq<Ad>, ad: Ad)
    requires HasId(ad.id)
    ensures Ids(CardClick(ads, ad, true)) == Ids(ads)
    ensures TotalClicks(CardClick(ads, ad, true)) == TotalClicks(ads) + CountId(ads, ad.id)
  {
    BumpMatchingCounts(ads, ad.id.value);
  }

  lemma {:induction false} BumpMatchingCounts(ads: seq<Ad>, id: int)
    ensures Ids(BumpMatching(ads, id)) == Ids(ads)
    ensures TotalClicks(BumpMatching(ads, id)) == TotalClicks(ads) + CountId(ads, Some(id))
  {
    if ads != [] {
      var r := BumpMatching(ads, id);
      BumpMatchingCounts(ads[1..], id);
      assert r[1..] == BumpMatching(ads[1..], id);
    }
  }

  /** `ads.filter(ad => ad.id !== deleteId)` */
  function WithoutId(ads: seq<Ad>, id: int): (r: seq<Ad>)
    ensures |r| <= |ads|
  {
    if ads == [] then []
    else if ads[0].id == Some(id) then WithoutId(ads[1..], id)
    else [ads[0]] + WithoutId(ads[1..], id)
  }

  /** The filter keeps every copy of every item without the id, and nothing
      else. */
  lemma {:induction false} WithoutIdContents(ads: seq<Ad>, id: int)
    ensures forall x :: multiset(WithoutId(ads, id))[x] == if x.id == Some(id) then 0 else multiset(ads)[x]
  {
    if ads != [] {
      WithoutIdContents(ads[1..], id);
      assert ads == [ads[0]] + ads[1..];
    }
  }

  /** executeDelete: with no pending `deleteId` nothing happens; otherwise, once
      the server has deleted it (`served`), exactly the items with a different
      id remain. */
  function ExecuteDelete(ads: seq<Ad>, deleteId: Option<int>, served: bool): (r: seq<Ad>)
    ensures deleteId.None? || !served ==> r == ads
    ensures deleteId.Some? && served ==> r == WithoutId(ads, deleteId.value)
    ensures deleteId.Some? && served ==>
      forall x :: multiset(r)[x] == if x.id == deleteId then 0 else multiset(ads)[x]
    ensures deleteId.Some? && served ==> |r| == |ads| - CountId(ads, deleteId)
  {
    if deleteId.None? || !served then ads
    else
      WithoutIdLength(ads, deleteId.value);
      WithoutIdContents(ads, deleteId.value);
      WithoutId(ads, deleteId.value)
  }

  lemma {:induction false} WithoutIdLength(ads: seq<Ad>, id: int)
    ensures |WithoutId(ads, id)| == |ads| - CountId(ads, Some(id))
  {
    if ads != [] {
      WithoutIdLength(ads[1..], id);
    }
  }

  /** The filter keeps the original order: filtering a concatenation is the
      concatenation of the filtered parts. */
  lemma {:induction false} WithoutIdKeepsOrder(a: seq<Ad>, b: seq<Ad>, id: int)
    ensures WithoutId(a + b, id) == WithoutId(a, id) + WithoutId(b, id)
  {
    if a != [] {
      var ab := a + b;
      assert ab[1..] == a[1..] + b;
      assert ab[0] == a[0];
      WithoutIdKeepsOrder(a[1..], b, id);
      if a[0].id == Some(id) {
        assert WithoutId(ab, id) == WithoutId(a[1..] + b, id);
        assert WithoutId(a, id) == WithoutId(a[1..], id);
      } else {
        assert WithoutId(ab, id) == [a[0]] + WithoutId(a[1..] + b, id);
        assert WithoutId(a, id) == [a[0]] + WithoutId(a[1..], id);
        assert [a[0]] + (WithoutId(a[1..], id) + WithoutId(b, id))
            == ([a[0]] + WithoutId(a[1..], id)) + WithoutId(b, id);
      }
    } else {
      assert a + b == b;
    }
  }

  /** Deleting twice is deleting once. */
  lemma {:induction false} DeleteIdempotent(ads: seq<Ad>, id: int)
    ensures WithoutId(WithoutId(ads, id), id) == WithoutId(ads, id)
  {
    if ads != [] {
      DeleteIdempotent(ads[1..], id);
    }
  }

  datatype FormMode = Create | Edit | Copy

  /** What handleSave sends: an update of the given id, or a create. */
  datatype SaveRequest = UpdateRequest(id: Value, body: Record) | CreateRequest(body: Record)

  /** `item.id === formData.id`: an item's numeric id is strictly equal only
      to the same number, and an item without an id (`undefined`) only to
      `undefined`. */
  predicate SameId(id: Option<int>, formId: Value)
  {
    formId == match id case Some(i) => Num(i as real) case None => Undefined
  }

  /** Two items that both match the same form id carry the same id. */
  lemma SameIdDeterminesId(id1: Option<int>, id2: Option<int>, formId: Value)
    requires SameId(id1, formId) && SameId(id2, formId)
    ensures id1 == id2
  {
  }

  /** The request handleSave sends: in edit mode with a truthy id an update of
      that id with the whole form; otherwise a create of the form with
      `clicked: 0`. */
  function SaveRequestFor(mode: FormMode, formData: Record): (q: SaveRequest)
    ensures q.UpdateRequest? <==> mode == Edit && Truthy(Get(formData, Id))
    ensures q.UpdateRequest? ==> q.body == formData && q.id == Get(formData, Id)
    ensures q.CreateRequest? ==> q.body.Keys == formData.Keys + {Clicked}
    ensures q.CreateRequest? ==> Get(q.body, Clicked) == Num(0.0)
    ensures q.CreateRequest? ==> forall k :: k in formData && k != Clicked ==> q.body[k] == formData[k]
  {
    var id := Get(formData, Id);
    if mode == Edit && Truthy(id) then UpdateRequest(id, formData)
    else CreateRequest(formData[Clicked := Num(0.0)])
  }

  /** `ads.map(item => item.id === formData.id ? updated : item)` */
  function ReplaceMatching(ads: seq<Ad>, formId: Value, updated: Ad): (r: seq<Ad>)
    ensures |r| == |ads|
    ensures forall i :: 0 <= i < |ads| ==> r[i] == if SameId(ads[i].id, formId) then updated else ads[i]
  {
    if ads == [] then []
    else [if SameId(ads[0].id, formId) then updated else ads[0]] + ReplaceMatching(ads[1..], formId, updated)
  }

  /** The list after handleSave, given the ad the server answered with (None
      when the request was rejected). An update replaces every item with the
      form's id by the answer; a create appends the answer at the end. */
  function SaveList(ads: seq<Ad>, mode: FormMode, formData: Record, response: Option<Ad>): (r: seq<Ad>)
    ensures response.None? ==> r == ads
    ensures response.Some? && SaveRequestFor(mode, formData).UpdateRequest? ==>
      |r| == |ads| && forall i :: 0 <= i < |ads| ==>
        r[i] == if SameId(ads[i].id, Get(formData, Id)) then response.value else ads[i]
    ensures response.Some? && SaveRequestFor(mode, formData).CreateRequest? ==>
      r == ads + [response.value]
  {
    match response
    case None => ads
    case Some(saved) =>
      if SaveRequestFor(mode, formData).UpdateRequest? then ReplaceMatching(ads, Get(formData, Id), saved)
      else ads + [saved]
  }

  /** Saving a copied ad always creates a new one, and it grows the list by
      exactly one item once the server answers. */
  lemma CopyCreates(ads: seq<Ad>, formData: Record, saved: Ad)
    ensures SaveRequestFor(Copy, formData).CreateRequest?
    ensures |SaveList(ads, Copy, formData, Some(saved))| == |ads| + 1
    ensures SaveList(ads, Copy, formData, Some(saved))[|ads|] == saved
  {
  }

  /** An edit whose answer carries the form's id leaves the set of ids as it
      was. */
  lemma EditKeepsIds(ads: seq<Ad>, formData: Record, saved: Ad)
    requires SaveRequestFor(Edit, formData).UpdateRequest?
    requires SameId(saved.id, Get(formData, Id))
    ensures Ids(SaveList(ads, Edit, formData, Some(saved))) == Ids(ads)
  {
  }
}
