/**
 * The fixed catalogue of demo stories offered by the story dropdown, and the
 * lookup the selection effect performs on it.
 */
module DemoData {
  import opened Optional

  datatype DemoStory = DemoStory(id: int, storyText: string, sampleQuestions: seq<string>)

  /** The three built-in demos, in dropdown order. */
  const Stories: seq<DemoStory> := [
    DemoStory(1,
      "Mary moved to the bathroom . Sandra journeyed to the bedroom . Mary went back to the bedroom . Daniel went back to the hallway .",
      ["Is Sandra in the bedroom ?", "Is Mary in the bedroom ?", "Is Daniel in the bathroom ?"]),
    DemoStory(2,
      "Sandra grabbed the football there . Mary went to the bedroom . Daniel got the apple there . Sandra travelled to the hallway .",
      ["Is Mary in the bedroom ?", "Is Sandra in the hallway ?", "Is Sandra in the garden ?"]),
    DemoStory(3,
      "John went to the hallway . Sandra picked up the apple there . Daniel moved to the garden . Mary journeyed to the bedroom .",
      ["Is Daniel in the hallway ?", "Is Mary in the bedroom ?", "Is Daniel in the garden ?"])
  ]

  /** No two entries of `ds` share an identifier. */
  predicate UniqueIds(ds: seq<DemoStory>) {
    forall i, j :: 0 <= i < j < |ds| ==> ds[i].id != ds[j].id
  }

  /**
   * `ds.find(s => s.id === id)`: the first entry whose identifier is `id`,
   * or nothing when no entry has it.
   */
  function FindById(ds: seq<DemoStory>, id: int): (r: Option<DemoStory>)
    ensures r.None? <==> forall d :: d in ds ==> d.id != id
    ensures r.Some? ==> exists k :: 0 <= k < |ds| && ds[k] == r.value && r.value.id == id
                                    && forall j :: 0 <= j < k ==> ds[j].id != id
  {
    if |ds| == 0 then None
    else if ds[0].id == id then Some(ds[0])
    else
      var r := FindById(ds[1..], id);
      assert forall d :: d in ds ==> d == ds[0] || d in ds[1..];
      if r.Some? then
        var k :| 0 <= k < |ds[1..]| && ds[1..][k] == r.value && r.value.id == id
                 && forall j :: 0 <= j < k ==> ds[1..][j].id != id;
        assert ds[k + 1] == r.value;
        r
      else r
  }

  /** The demo the dropdown value `id` denotes, if any. */
  function Lookup(id: int): (r: Option<DemoStory>)
    ensures r.None? <==> forall d :: d in Stories ==> d.id != id
    ensures r.Some? ==> r.value in Stories && r.value.id == id
  {
    FindById(Stories, id)
  }

  /** Every demo carries a non-empty story and at least one sample question, and identifiers are unique. */
  lemma CatalogueWellFormed()
    ensures UniqueIds(Stories)
    ensures forall d :: d in Stories ==> d.storyText != "" && |d.sampleQuestions| > 0
  {
  }

  /**
   * Because identifiers are unique, the lookup finds a demo exactly when the
   * catalogue holds a demo with that identifier, and then it is that demo.
   */
  lemma {:induction false} LookupExact(id: int, d: DemoStory)
    ensures Lookup(id) == Some(d) <==> d in Stories && d.id == id
  {
    CatalogueWellFormed();
    if d in Stories && d.id == id {
      var r := Lookup(id);
      var k :| 0 <= k < |Stories| && Stories[k] == r.value && r.value.id == id
               && forall j :: 0 <= j < k ==> Stories[j].id != id;
      var m :| 0 <= m < |Stories| && Stories[m] == d;
      assert m == k;
    }
  }

  /** The dropdown's three values resolve to the three demos, and every other identifier to nothing. */
  lemma LookupTable(id: int)
    ensures id == 1 ==> Lookup(id) == Some(Stories[0])
    ensures id == 2 ==> Lookup(id) == Some(Stories[1])
    ensures id == 3 ==> Lookup(id) == Some(Stories[2])
    ensures id !in {1, 2, 3} ==> Lookup(id).None?
  {
  }
}
